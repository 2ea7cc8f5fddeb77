/**
 * `/api/subscriptions` (src/app/api/subscriptions/route.ts): the
 * subscription ledger as each role may read it (GET), and the start of a
 * paid subscription (POST), which only builds a hosted-checkout request for
 * the payment processor and writes nothing.
 */
module SubscriptionsRoute {
  import opened Domain
  import opened Query

  /** The owner of the plan a subscription refers to, if that plan exists. */
  function OwnerOf(db: Db, planId: Id): (r: Option<Id>)
    ensures r.Some? <==> planId in PlanIds(db.plans)
    ensures r.Some? ==> exists p :: p in db.plans && p.id == planId && p.trainerId == r.value
  {
    match FindPlan(db.plans, planId)
    case None => None
    case Some(p) => Some(p.trainerId)
  }

  /** The rows of the plans `trainerId` owns, newest first. */
  function TrainerSubscriptions(db: Db, trainerId: Id): (r: seq<Subscription>)
    ensures forall s ::
              multiset(r)[s] == if OwnerOf(db, s.planId) == Some(trainerId) then multiset(db.subscriptions)[s] else 0
    ensures forall s :: s in r <==> s in db.subscriptions && OwnerOf(db, s.planId) == Some(trainerId)
    ensures SortedDesc(r, SubscriptionCreatedAt)
  {
    FindMany(db.subscriptions, (s: Subscription) => OwnerOf(db, s.planId) == Some(trainerId), SubscriptionCreatedAt)
  }

  /** The rows `userId` holds, newest first. */
  function UserSubscriptions(db: Db, userId: Id): (r: seq<Subscription>)
    ensures forall s :: multiset(r)[s] == if s.userId == userId then multiset(db.subscriptions)[s] else 0
    ensures forall s :: s in r <==> s in db.subscriptions && s.userId == userId
    ensures SortedDesc(r, SubscriptionCreatedAt)
  {
    FindMany(db.subscriptions, (s: Subscription) => s.userId == userId, SubscriptionCreatedAt)
  }

  /**
   * GET /api/subscriptions: 401 without a session; a trainer gets the rows
   * of their plans, any other role the rows it holds.
   */
  function ListSubscriptions(db: Db, session: Option<Actor>): (r: Result<seq<Subscription>>)
    ensures r == Err(Unauthorized) <==> session.None?
    ensures r.Err? ==> r.error == Unauthorized
    ensures r.Ok? ==> SortedDesc(r.value, SubscriptionCreatedAt)
    ensures r.Ok? && session.value.role == Trainer ==> r.value == TrainerSubscriptions(db, session.value.id)
    ensures r.Ok? && session.value.role != Trainer ==> r.value == UserSubscriptions(db, session.value.id)
    ensures r.Ok? && session.value.role == Trainer ==> forall s ::
              s in r.value <==> s in db.subscriptions && OwnerOf(db, s.planId) == Some(session.value.id)
    ensures r.Ok? && session.value.role != Trainer ==> forall s ::
              s in r.value <==> s in db.subscriptions && s.userId == session.value.id
  {
    if session.None? then Err(Unauthorized)
    else if session.value.role == Trainer then Ok(TrainerSubscriptions(db, session.value.id))
    else Ok(UserSubscriptions(db, session.value.id))
  }

  /** The `checkout.sessions.create` request POST sends to the payment processor. */
  datatype CheckoutRequest = CheckoutRequest(
    paymentMethodTypes: seq<string>,
    currency: string,
    productName: string,
    productDescription: string,
    unitAmount: int,       // in cents
    quantity: int,
    mode: string,
    successUrl: string,
    cancelUrl: string,
    metadataUserId: Id,
    metadataPlanId: Id,
    clientReferenceId: Id)

  /**
   * POST /api/subscriptions with body `{ planId }`; `appUrl` is the
   * configured application URL. 403 unless a user is signed in, 400
   * without a planId, 404 for an unknown plan, 409 when the user already
   * holds a subscription to it; otherwise the checkout request. Reads the
   * store and writes nothing.
   */
  function Checkout(db: Db, session: Option<Actor>, planId: Id, appUrl: string): (r: Result<CheckoutRequest>)
    ensures r == Err(Forbidden) <==> !HasRole(session, User)
    ensures r == Err(BadRequest) <==> HasRole(session, User) && planId == ""
    ensures r == Err(NotFound) <==> HasRole(session, User) && planId != "" && planId !in PlanIds(db.plans)
    ensures r == Err(Conflict) <==> HasRole(session, User) && planId != "" && planId in PlanIds(db.plans)
                                    && (session.value.id, planId) in SubscriptionKeys(db.subscriptions)
    ensures r.Err? ==> r.error in {Forbidden, BadRequest, NotFound, Conflict}
    ensures r.Ok? ==> HasRole(session, User) && (session.value.id, planId) !in SubscriptionKeys(db.subscriptions)
    ensures r.Ok? ==> exists p :: p in db.plans && p.id == planId
                                  && r.value.unitAmount == p.price
                                  && r.value.productName == p.title
                                  && r.value.productDescription == p.description
    ensures r.Ok? ==> r.value.quantity == 1 && r.value.currency == "usd" && r.value.mode == "payment"
    ensures r.Ok? ==> r.value.metadataUserId == session.value.id && r.value.metadataPlanId == planId
                      && r.value.clientReferenceId == session.value.id
  {
    if !HasRole(session, User) then Err(Forbidden)
    else
      var userId := session.value.id;
      if planId == "" then Err(BadRequest)
      else match FindPlan(db.plans, planId)
        case None => Err(NotFound)
        case Some(plan) =>
          if (userId, planId) in SubscriptionKeys(db.subscriptions) then Err(Conflict)
          else Ok(CheckoutRequest(
            ["card"], "usd", plan.title, plan.description, plan.price, 1, "payment",
            appUrl + "/dashboard?success=true", appUrl + "/dashboard?canceled=true",
            userId, planId, userId))
  }

  /**
   * In a consistent store, a user who already holds a subscription to a
   * plan is refused with 409: no checkout request is built for it.
   */
  lemma SubscribedUserGetsNoCheckout(db: Db, session: Option<Actor>, planId: Id, appUrl: string)
    requires ValidDb(db)
    requires HasRole(session, User) && planId != ""
    requires exists s :: s in db.subscriptions && s.userId == session.value.id && s.planId == planId
    ensures Checkout(db, session, planId, appUrl) == Err(Conflict)
  {
    var s :| s in db.subscriptions && s.userId == session.value.id && s.planId == planId;
    assert (session.value.id, planId) in SubscriptionKeys(db.subscriptions);
  }
}
