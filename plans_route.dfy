/**
 * `/api/plans` (src/app/api/plans/route.ts): the public plan catalogue
 * (GET) and plan creation by trainers (POST).
 */
module PlansRoute {
  import opened Domain
  import opened Query

  /**
   * One element of the GET response. `subscriptions` is present only when
   * the request names a `userId`, and then holds that user's rows for the plan.
   */
  datatype PlanListing = PlanListing(plan: Plan, subscriptions: Option<seq<Subscription>>)

  /** The `where` clause of GET: no filter when `trainerId` is absent. */
  predicate MatchesTrainer(trainerId: Id, p: Plan) {
    trainerId == "" || p.trainerId == trainerId
  }

  /** The plans of a listing, in response order. */
  function ListedPlans(r: seq<PlanListing>): seq<Plan> {
    seq(|r|, i requires 0 <= i < |r| => r[i].plan)
  }

  /**
   * GET /api/plans?trainerId=..&userId=.. (an absent parameter is ""). Reads
   * the store and writes nothing.
   */
  function ListPlans(db: Db, trainerId: Id, userId: Id): (r: seq<PlanListing>)
    ensures forall p ::
              multiset(ListedPlans(r))[p] == if MatchesTrainer(trainerId, p) then multiset(db.plans)[p] else 0
    ensures forall p :: p in ListedPlans(r) <==> p in db.plans && MatchesTrainer(trainerId, p)
    ensures SortedDesc(ListedPlans(r), PlanCreatedAt)
    ensures forall i :: 0 <= i < |r| ==> (r[i].subscriptions.None? <==> userId == "")
    ensures forall i, s :: 0 <= i < |r| && r[i].subscriptions.Some? ==>
      (s in r[i].subscriptions.value <==> s in db.subscriptions && s.userId == userId && s.planId == r[i].plan.id)
  {
    var plans := FindMany(db.plans, (p: Plan) => MatchesTrainer(trainerId, p), PlanCreatedAt);
    var r := seq(|plans|, i requires 0 <= i < |plans| =>
      PlanListing(plans[i], if userId == "" then None else Some(RowsFor(db.subscriptions, userId, plans[i].id))));
    assert ListedPlans(r) == plans;
    r
  }

  /**
   * The JSON body of POST. `price` is in cents and `duration` in days, both
   * already parsed; an absent number is `None`. `trainerId` stands for any
   * owner the client may claim; the handler never reads it.
   */
  datatype PlanInput = PlanInput(title: string, description: string, price: Option<int>,
                                 duration: Option<int>, trainerId: Id)

  /** JavaScript truthiness of a parsed number: present and not zero. */
  predicate Truthy(n: Option<int>) {
    n.Some? && n.value != 0
  }

  predicate HasRequiredFields(body: PlanInput) {
    body.title != "" && body.description != "" && Truthy(body.price) && Truthy(body.duration)
  }

  /**
   * The guard chain of POST and the row it would insert: 403 unless a
   * trainer is signed in, 400 when a field is missing or falsy, 500 when the
   * store refuses the owner reference.
   */
  function CreatePlanCheck(db: Db, session: Option<Actor>, body: PlanInput, newId: Id, now: int): (r: Result<Plan>)
    ensures r == Err(Forbidden) <==> !HasRole(session, Trainer)
    ensures r == Err(BadRequest) <==> HasRole(session, Trainer) && !HasRequiredFields(body)
    ensures r == Err(Internal) <==> HasRole(session, Trainer) && HasRequiredFields(body) && session.value.id !in db.users
    ensures r.Err? ==> r.error in {Forbidden, BadRequest, Internal}
    ensures r.Ok? ==> r.value.trainerId == session.value.id && r.value.trainerId in db.users
    ensures r.Ok? ==> r.value == Plan(newId, body.title, body.description, body.price.value,
                                      body.duration.value, session.value.id, now)
  {
    if !HasRole(session, Trainer) then Err(Forbidden)
    else if !HasRequiredFields(body) then Err(BadRequest)
    else if session.value.id !in db.users then Err(Internal)
    else Ok(Plan(newId, body.title, body.description, body.price.value, body.duration.value, session.value.id, now))
  }

  /**
   * POST /api/plans. `newId` and `now` are the identifier and timestamp the
   * store generates for the row.
   */
  method CreatePlan(store: Store, session: Option<Actor>, body: PlanInput, newId: Id, now: int)
    returns (r: Result<Plan>)
    requires store.Valid()
    requires newId !in PlanIds(store.plans)
    modifies store`plans
    ensures store.Valid()
    ensures r == CreatePlanCheck(old(store.Snapshot()), session, body, newId, now)
    ensures r.Ok? ==> store.plans == old(store.plans) + [r.value]
    ensures r.Err? ==> store.plans == old(store.plans)
  {
    if session.None? || session.value.role != Trainer {
      return Err(Forbidden);
    }
    var userId := session.value.id;
    if body.title == "" || body.description == "" || !Truthy(body.price) || !Truthy(body.duration) {
      return Err(BadRequest);
    }
    if userId !in store.users {
      return Err(Internal);
    }
    var plan := Plan(newId, body.title, body.description, body.price.value, body.duration.value, userId, now);
    ghost var before := store.plans;
    store.plans := store.plans + [plan];
    assert UniquePlanIds(store.plans) by {
      forall i, j | 0 <= i < j < |store.plans| ensures store.plans[i].id != store.plans[j].id {
        if j == |before| {
          assert store.plans[i] in before;
        }
      }
    }
    r := Ok(plan);
  }

  /** A plan just created appears in its trainer's catalogue listing. */
  lemma CreatedPlanIsListed(db: Db, session: Option<Actor>, body: PlanInput, newId: Id, now: int, userId: Id)
    requires CreatePlanCheck(db, session, body, newId, now).Ok?
    ensures var plan := CreatePlanCheck(db, session, body, newId, now).value;
      plan in ListedPlans(ListPlans(db.(plans := db.plans + [plan]), session.value.id, userId))
  {
  }
}
