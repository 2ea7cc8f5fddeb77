/**
 * `/api/feed` (src/app/api/feed/route.ts): the signed-in caller's
 * personalised view, joined from follow edges, plans and subscriptions.
 * It only reads the store.
 */
module FeedRoute {
  import opened Domain
  import opened Query
  import SubscriptionsRoute

  /** A plan of a followed trainer, with the caller's own rows for it. */
  datatype FollowedPlan = FollowedPlan(plan: Plan, subscriptions: seq<Subscription>)

  /** A trainer's own plan with every row for it and their number (`_count`). */
  datatype OwnPlan = OwnPlan(plan: Plan, subscriptions: seq<Subscription>, count: nat)

  datatype FeedBody =
    | UserFeed(followedPlans: seq<FollowedPlan>, subscribedPlans: seq<Plan>)
    | TrainerFeed(myPlans: seq<OwnPlan>)

  /** The trainers `userId` follows. */
  function FollowedTrainers(db: Db, userId: Id): set<Id> {
    set e | e in db.follows && e.followerId == userId :: e.trainerId
  }

  /** The foreign key the feed follows from a subscription to its plan. */
  ghost predicate SubscribedPlansExist(db: Db) {
    forall s :: s in db.subscriptions ==> s.planId in PlanIds(db.plans)
  }

  function FollowedPlanList(fs: seq<FollowedPlan>): seq<Plan> {
    seq(|fs|, i requires 0 <= i < |fs| => fs[i].plan)
  }

  function OwnPlanList(os: seq<OwnPlan>): seq<Plan> {
    seq(|os|, i requires 0 <= i < |os| => os[i].plan)
  }

  /** Every row of plan `planId`, whoever holds it, in table order. */
  function PlanSubscriptions(subs: seq<Subscription>, planId: Id): (r: seq<Subscription>)
    ensures forall s :: multiset(r)[s] == if s.planId == planId then multiset(subs)[s] else 0
  {
    Filter(subs, (s: Subscription) => s.planId == planId)
  }

  /**
   * The USER feed: the plans of every followed trainer, newest first and
   * each with the caller's rows for it (none at all when the caller follows
   * nobody), and the plan of each of the caller's subscriptions in the
   * order of the subscription listing.
   */
  function UserFeedFor(db: Db, userId: Id): (f: FeedBody)
    requires SubscribedPlansExist(db)
    ensures f.UserFeed?
    ensures FollowedTrainers(db, userId) == {} ==> f.followedPlans == []
    ensures forall p :: multiset(FollowedPlanList(f.followedPlans))[p] ==
              if p.trainerId in FollowedTrainers(db, userId) then multiset(db.plans)[p] else 0
    ensures SortedDesc(FollowedPlanList(f.followedPlans), PlanCreatedAt)
    ensures forall i, s :: 0 <= i < |f.followedPlans| ==>
              (s in f.followedPlans[i].subscriptions <==>
                 s in db.subscriptions && s.userId == userId && s.planId == f.followedPlans[i].plan.id)
    ensures var mine := SubscriptionsRoute.UserSubscriptions(db, userId);
              && |f.subscribedPlans| == |mine|
              && forall i :: 0 <= i < |mine| ==> f.subscribedPlans[i] in db.plans && f.subscribedPlans[i].id == mine[i].planId
  {
    var trainerIds := FollowedTrainers(db, userId);
    var plans := if trainerIds != {} then FindMany(db.plans, (p: Plan) => p.trainerId in trainerIds, PlanCreatedAt) else [];
    var followed := seq(|plans|, i requires 0 <= i < |plans| => FollowedPlan(plans[i], RowsFor(db.subscriptions, userId, plans[i].id)));
    assert FollowedPlanList(followed) == plans;
    var mine := SubscriptionsRoute.UserSubscriptions(db, userId);
    var subscribed := seq(|mine|, i requires 0 <= i < |mine| => FindPlan(db.plans, mine[i].planId).value);
    UserFeed(followed, subscribed)
  }

  /**
   * The TRAINER feed: exactly the caller's plans, newest first, each with
   * all its rows and a count equal to their number.
   */
  function TrainerFeedFor(db: Db, trainerId: Id): (f: FeedBody)
    ensures f.TrainerFeed?
    ensures forall p :: multiset(OwnPlanList(f.myPlans))[p] ==
              if p.trainerId == trainerId then multiset(db.plans)[p] else 0
    ensures SortedDesc(OwnPlanList(f.myPlans), PlanCreatedAt)
    ensures forall i :: 0 <= i < |f.myPlans| ==> f.myPlans[i].count == |f.myPlans[i].subscriptions|
    ensures forall i, s :: 0 <= i < |f.myPlans| ==>
              multiset(f.myPlans[i].subscriptions)[s] ==
                if s.planId == f.myPlans[i].plan.id then multiset(db.subscriptions)[s] else 0
  {
    var plans := FindMany(db.plans, (p: Plan) => p.trainerId == trainerId, PlanCreatedAt);
    var own := seq(|plans|, i requires 0 <= i < |plans| =>
      var subs := PlanSubscriptions(db.subscriptions, plans[i].id);
      OwnPlan(plans[i], subs, |subs|));
    assert OwnPlanList(own) == plans;
    TrainerFeed(own)
  }

  /**
   * GET /api/feed: 401 without a session; the USER or TRAINER feed by the
   * caller's role. For any other role the handler returns no response at
   * all, which the framework answers with a 500 (`Internal`).
   */
  function Feed(db: Db, session: Option<Actor>): (r: Result<FeedBody>)
    requires SubscribedPlansExist(db)
    ensures r == Err(Unauthorized) <==> session.None?
    ensures r == Err(Internal) <==> session.Some? && session.value.role.Other?
    ensures r.Ok? ==> (r.value.UserFeed? <==> session.value.role == User)
    ensures r.Ok? && session.value.role == User ==> r.value == UserFeedFor(db, session.value.id)
    ensures r.Ok? && session.value.role == Trainer ==> r.value == TrainerFeedFor(db, session.value.id)
  {
    if session.None? then Err(Unauthorized)
    else
      var caller := session.value;
      match caller.role
      case User => Ok(UserFeedFor(db, caller.id))
      case Trainer => Ok(TrainerFeedFor(db, caller.id))
      case Other(_) => Err(Internal)
  }

  /** A user who follows nobody and holds nothing gets two empty lists, not an error. */
  lemma EmptyFeedForNewUser(db: Db, userId: Id)
    requires SubscribedPlansExist(db)
    requires forall e :: e in db.follows ==> e.followerId != userId
    requires forall s :: s in db.subscriptions ==> s.userId != userId
    ensures Feed(db, Some(Actor(userId, User))) == Ok(UserFeed([], []))
  {
    assert FollowedTrainers(db, userId) == {};
    var mine := SubscriptionsRoute.UserSubscriptions(db, userId);
    assert multiset(mine) == multiset{};
  }

  /** A feed's subscribed plans are the plans of the caller's subscription listing, one for one. */
  lemma FeedAgreesWithSubscriptionList(db: Db, userId: Id)
    requires SubscribedPlansExist(db)
    ensures var listing := SubscriptionsRoute.ListSubscriptions(db, Some(Actor(userId, User))).value;
      var f := UserFeedFor(db, userId);
      |f.subscribedPlans| == |listing|
      && forall i :: 0 <= i < |listing| ==> f.subscribedPlans[i].id == listing[i].planId
  {
  }
}
