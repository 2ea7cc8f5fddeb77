/**
 * The marketplace's store and the values the route handlers exchange.
 *
 * The store holds four tables: users with their role, fitness plans, follow
 * edges keyed by (followerId, trainerId) and subscriptions keyed by
 * (userId, planId). Handlers see it either as an immutable snapshot (`Db`,
 * for the read endpoints) or as the mutable `Store` object (for the
 * endpoints that write one row).
 */
module Domain {
  import opened Query

  type Id = string

  datatype Option<T> = None | Some(value: T)

  /** The rejections a handler answers with, and the HTTP status of each. */
  datatype HttpError = Unauthorized | Forbidden | BadRequest | NotFound | Conflict | Internal {
    function Status(): (code: int)
      ensures 400 <= code < 600
      ensures code >= 500 <==> this == Internal
    {
      match this
      case BadRequest => 400
      case Unauthorized => 401
      case Forbidden => 403
      case NotFound => 404
      case Conflict => 409
      case Internal => 500
    }
  }

  /** A client can tell every rejection apart by its status code alone. */
  lemma StatusIdentifiesError(a: HttpError, b: HttpError)
    ensures a.Status() == b.Status() <==> a == b
  {
  }

  datatype Result<T> = Ok(value: T) | Err(error: HttpError)

  /** A role as it reaches a handler: the two stored roles, or any other string. */
  datatype Role = User | Trainer | Other(name: string)

  /** Reads a role from a request header such as `x-user-role`. */
  function ParseRole(header: string): (r: Role)
    ensures r == User <==> header == "USER"
    ensures r == Trainer <==> header == "TRAINER"
  {
    if header == "USER" then User
    else if header == "TRAINER" then Trainer
    else Other(header)
  }

  /** `session.user` as the session provider supplies it (trusted). */
  datatype Actor = Actor(id: Id, role: Role)

  /** A session is present and its user has `role`. */
  predicate HasRole(session: Option<Actor>, role: Role) {
    session.Some? && session.value.role == role
  }

  /** A fitness plan; `price` is in cents. */
  datatype Plan = Plan(id: Id, title: string, description: string, price: int,
                       duration: int, trainerId: Id, createdAt: int)

  datatype FollowEdge = FollowEdge(followerId: Id, trainerId: Id)

  datatype SubscriptionStatus = Pending | Active | Canceled

  datatype Subscription = Subscription(id: Id, userId: Id, planId: Id,
                                       status: SubscriptionStatus, createdAt: int)

  function PlanCreatedAt(p: Plan): int { p.createdAt }

  function SubscriptionCreatedAt(s: Subscription): int { s.createdAt }

  /** A snapshot of the whole store. */
  datatype Db = Db(users: map<Id, Role>, plans: seq<Plan>, follows: set<FollowEdge>,
                   subscriptions: seq<Subscription>)

  function PlanIds(plans: seq<Plan>): set<Id> {
    set p | p in plans :: p.id
  }

  function SubscriptionIds(subs: seq<Subscription>): set<Id> {
    set s | s in subs :: s.id
  }

  /** The composite keys (userId, planId) present in the subscription table. */
  function SubscriptionKeys(subs: seq<Subscription>): set<(Id, Id)> {
    set s | s in subs :: (s.userId, s.planId)
  }

  /** No two rows of `subs` share a (userId, planId) key or an id. */
  ghost predicate UniqueSubscriptions(subs: seq<Subscription>) {
    forall i, j :: 0 <= i < j < |subs| ==>
      subs[i].id != subs[j].id && (subs[i].userId, subs[i].planId) != (subs[j].userId, subs[j].planId)
  }

  ghost predicate UniquePlanIds(plans: seq<Plan>) {
    forall i, j :: 0 <= i < j < |plans| ==> plans[i].id != plans[j].id
  }

  /**
   * What the database itself guarantees: primary and composite keys are
   * unique, and every foreign key resolves.
   */
  ghost predicate ValidDb(db: Db) {
    && UniquePlanIds(db.plans)
    && (forall p :: p in db.plans ==> p.trainerId in db.users)
    && (forall e :: e in db.follows ==> e.followerId in db.users && e.trainerId in db.users)
    && UniqueSubscriptions(db.subscriptions)
    && (forall s :: s in db.subscriptions ==> s.userId in db.users && s.planId in PlanIds(db.plans))
  }

  /** `findUnique({ where: { id } })` on the plan table. */
  function FindPlan(plans: seq<Plan>, id: Id): (r: Option<Plan>)
    ensures r.Some? <==> id in PlanIds(plans)
    ensures r.Some? ==> r.value in plans && r.value.id == id
  {
    if plans == [] then None
    else if plans[0].id == id then Some(plans[0])
    else
      assert plans == [plans[0]] + plans[1..];
      FindPlan(plans[1..], id)
  }

  /** The one row of a plan table with unique ids that carries `id`. */
  lemma {:induction false} FindPlanUnique(plans: seq<Plan>, p: Plan)
    requires UniquePlanIds(plans)
    requires p in plans
    ensures FindPlan(plans, p.id) == Some(p)
  {
    if plans[0] != p {
      assert plans == [plans[0]] + plans[1..];
      assert plans[0].id != p.id by {
        var k :| 0 <= k < |plans| && plans[k] == p;
        assert k > 0;
      }
      assert UniquePlanIds(plans[1..]) by {
        forall i, j | 0 <= i < j < |plans[1..]| ensures plans[1..][i].id != plans[1..][j].id {
          assert plans[1..][i] == plans[i + 1] && plans[1..][j] == plans[j + 1];
        }
      }
      FindPlanUnique(plans[1..], p);
    }
  }

  /** The rows of the subscription table under one (userId, planId) key. */
  function RowsFor(subs: seq<Subscription>, userId: Id, planId: Id): (r: seq<Subscription>)
    ensures forall s :: s in r <==> s in subs && s.userId == userId && s.planId == planId
  {
    Filter(subs, (s: Subscription) => s.userId == userId && s.planId == planId)
  }

  /** With unique keys, a (userId, planId) pair has at most one row. */
  lemma {:induction false} AtMostOneRowPerKey(subs: seq<Subscription>, userId: Id, planId: Id)
    requires UniqueSubscriptions(subs)
    ensures |RowsFor(subs, userId, planId)| <= 1
  {
    if subs != [] {
      var tail := subs[1..];
      assert subs == [subs[0]] + tail;
      assert UniqueSubscriptions(tail) by {
        forall i, j | 0 <= i < j < |tail|
          ensures tail[i].id != tail[j].id
          ensures (tail[i].userId, tail[i].planId) != (tail[j].userId, tail[j].planId)
        {
          assert tail[i] == subs[i + 1] && tail[j] == subs[j + 1];
        }
      }
      AtMostOneRowPerKey(tail, userId, planId);
      if subs[0].userId == userId && subs[0].planId == planId {
        forall s | s in tail ensures (s.userId, s.planId) != (userId, planId) {
          var k :| 0 <= k < |tail| && tail[k] == s;
          assert subs[k + 1] == s;
        }
        NoRowsFor(tail, userId, planId);
        assert RowsFor(subs, userId, planId) == [subs[0]] + RowsFor(tail, userId, planId);
      } else {
        assert RowsFor(subs, userId, planId) == RowsFor(tail, userId, planId);
      }
    }
  }

  /** A key that no row carries has no rows. */
  lemma NoRowsFor(subs: seq<Subscription>, userId: Id, planId: Id)
    requires forall s :: s in subs ==> (s.userId, s.planId) != (userId, planId)
    ensures RowsFor(subs, userId, planId) == []
  {
    var r := RowsFor(subs, userId, planId);
    assert multiset(r) == multiset{};
  }

  lemma {:induction false} RowsForAppend(subs: seq<Subscription>, row: Subscription)
    ensures RowsFor(subs + [row], row.userId, row.planId) == RowsFor(subs, row.userId, row.planId) + [row]
  {
    if subs == [] {
      assert [] + [row] == [row];
      assert [row] == [row] + [];
    } else {
      assert subs + [row] == [subs[0]] + (subs[1..] + [row]);
      assert subs == [subs[0]] + subs[1..];
      RowsForAppend(subs[1..], row);
    }
  }

  /**
   * The database as the route handlers share it (the process-wide `db`
   * client). Handlers that write take it as a parameter and name in their
   * `modifies` clause the one table they may change.
   */
  class Store {
    var users: map<Id, Role>
    var plans: seq<Plan>
    var follows: set<FollowEdge>
    var subscriptions: seq<Subscription>

    function Snapshot(): (db: Db)
      reads this
    {
      Db(users, plans, follows, subscriptions)
    }

    ghost predicate Valid()
      reads this
    {
      ValidDb(Snapshot())
    }

    constructor (db: Db)
      requires ValidDb(db)
      ensures Valid() && Snapshot() == db
    {
      users, plans, follows, subscriptions := db.users, db.plans, db.follows, db.subscriptions;
    }
  }
}
