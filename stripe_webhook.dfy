/**
 * `/api/webhooks/stripe` (src/app/api/webhooks/stripe/route.ts): turns a
 * verified "checkout completed" event from the payment processor into an
 * active subscription row. It is the only handler that writes the
 * subscription table.
 *
 * The handler has no catch around its processor and store calls, so an
 * exception thrown there (a failed subscription lookup, a duplicate
 * (userId, planId) key, a dangling reference) escapes and the request ends
 * in a 500 with nothing written.
 */
module StripeWebhook {
  import opened Domain
  import opened Query
  import SubscriptionsRoute

  const CheckoutCompleted: string := "checkout.session.completed"

  /** The `metadata` the checkout request attached, echoed back; "" is a missing field. */
  datatype Metadata = Metadata(userId: Id, planId: Id)

  /**
   * A processor event that passed signature verification: its type, the
   * checkout session's `metadata`, and the session's `subscription` id
   * ("" when the session has none, as a "payment" mode session never does).
   */
  datatype Event = Event(eventType: string, metadata: Metadata, subscriptionId: string)

  /** Why an exception escapes the handler. */
  datatype Failure =
    | RetrieveFailed       // `stripe.subscriptions.retrieve` threw
    | DuplicateKey         // the (userId, planId) key is already taken
    | DanglingReference    // metadata names a user or plan the store does not hold

  datatype Outcome =
    | Recorded(row: Subscription)  // 200 `{ received: true }` after inserting `row`
    | Ignored                      // 200 `{ received: true }`, another event type
    | InvalidSignature             // 400
    | MissingMetadata              // 400
    | Unhandled(cause: Failure)    // 500, the exception escaped
  {
    function Status(): (code: int)
      ensures code == 200 <==> Recorded? || Ignored?
      ensures code == 400 <==> InvalidSignature? || MissingMetadata?
      ensures code == 500 <==> Unhandled?
    {
      match this
      case Recorded(_) => 200
      case Ignored => 200
      case InvalidSignature => 400
      case MissingMetadata => 400
      case Unhandled(_) => 500
    }
  }

  /**
   * `stripe.subscriptions.retrieve(session.subscription)` returns: there is a
   * subscription id to look up, and the processor answers (`retrieveOk`).
   * A lookup without an id is refused.
   */
  predicate LookupSucceeds(event: Event, retrieveOk: bool) {
    event.subscriptionId != "" && retrieveOk
  }

  /**
   * The handler past the subscription lookup: the metadata check, then the
   * insert and the key and reference constraints the store enforces on it.
   */
  function RecordCompleted(db: Db, md: Metadata, newId: Id, now: int): (r: Outcome)
    ensures r == MissingMetadata <==> md.userId == "" || md.planId == ""
    ensures r == Unhandled(DuplicateKey) <==>
              md.userId != "" && md.planId != "" && (md.userId, md.planId) in SubscriptionKeys(db.subscriptions)
    ensures r == Unhandled(DanglingReference) <==>
              md.userId != "" && md.planId != "" && (md.userId, md.planId) !in SubscriptionKeys(db.subscriptions)
              && (md.userId !in db.users || md.planId !in PlanIds(db.plans))
    ensures r.Recorded? <==>
              md.userId != "" && md.planId != "" && (md.userId, md.planId) !in SubscriptionKeys(db.subscriptions)
              && md.userId in db.users && md.planId in PlanIds(db.plans)
    ensures r.Recorded? ==> r.row == Subscription(newId, md.userId, md.planId, Active, now)
  {
    if md.userId == "" || md.planId == "" then MissingMetadata
    else if (md.userId, md.planId) in SubscriptionKeys(db.subscriptions) then Unhandled(DuplicateKey)
    else if md.userId !in db.users || md.planId !in PlanIds(db.plans) then Unhandled(DanglingReference)
    else Recorded(Subscription(newId, md.userId, md.planId, Active, now))
  }

  /**
   * The guard chain of the handler and the row it would insert.
   * `verified` is the event `constructEvent` returns, `None` when the
   * signature does not match; `retrieveOk` says whether the processor
   * answers the subscription lookup; `newId` and `now` are the row's
   * generated identifier and timestamp.
   */
  function ReconcileCheck(db: Db, verified: Option<Event>, retrieveOk: bool, newId: Id, now: int): (r: Outcome)
    ensures r == InvalidSignature <==> verified.None?
    ensures r == Ignored <==> verified.Some? && verified.value.eventType != CheckoutCompleted
    ensures r == Unhandled(RetrieveFailed) <==>
              verified.Some? && verified.value.eventType == CheckoutCompleted && !LookupSucceeds(verified.value, retrieveOk)
    ensures verified.Some? && verified.value.eventType == CheckoutCompleted && LookupSucceeds(verified.value, retrieveOk) ==>
              r == RecordCompleted(db, verified.value.metadata, newId, now)
    ensures r.Recorded? ==>
              && verified.Some? && verified.value.eventType == CheckoutCompleted && LookupSucceeds(verified.value, retrieveOk)
              && r.row == Subscription(newId, verified.value.metadata.userId, verified.value.metadata.planId, Active, now)
              && (r.row.userId, r.row.planId) !in SubscriptionKeys(db.subscriptions)
              && r.row.userId in db.users && r.row.planId in PlanIds(db.plans)
  {
    match verified
    case None => InvalidSignature
    case Some(event) =>
      if event.eventType != CheckoutCompleted then Ignored
      else if !LookupSucceeds(event, retrieveOk) then Unhandled(RetrieveFailed)
      else RecordCompleted(db, event.metadata, newId, now)
  }

  /**
   * The handler as evidently intended: the looked-up subscription is never
   * used, so a completed checkout is recorded without the lookup.
   */
  function ReconcileIntended(db: Db, verified: Option<Event>, newId: Id, now: int): (r: Outcome)
    ensures r == InvalidSignature <==> verified.None?
    ensures r == Ignored <==> verified.Some? && verified.value.eventType != CheckoutCompleted
    ensures verified.Some? && verified.value.eventType == CheckoutCompleted ==>
              r == RecordCompleted(db, verified.value.metadata, newId, now)
    ensures r != Unhandled(RetrieveFailed)
    ensures forall retrieveOk :: verified.Some? && LookupSucceeds(verified.value, retrieveOk) ==>
              r == ReconcileCheck(db, verified, retrieveOk, newId, now)
  {
    match verified
    case None => InvalidSignature
    case Some(event) =>
      if event.eventType != CheckoutCompleted then Ignored
      else RecordCompleted(db, event.metadata, newId, now)
  }

  /** POST /api/webhooks/stripe. */
  method Reconcile(store: Store, verified: Option<Event>, retrieveOk: bool, newId: Id, now: int) returns (r: Outcome)
    requires store.Valid()
    requires newId !in SubscriptionIds(store.subscriptions)
    modifies store`subscriptions
    ensures store.Valid()
    ensures r == ReconcileCheck(old(store.Snapshot()), verified, retrieveOk, newId, now)
    ensures r.Recorded? ==> store.subscriptions == old(store.subscriptions) + [r.row]
    ensures !r.Recorded? ==> store.subscriptions == old(store.subscriptions)
  {
    if verified.None? {
      return InvalidSignature;
    }
    var event := verified.value;
    if event.eventType != CheckoutCompleted {
      return Ignored;
    }
    if event.subscriptionId == "" || !retrieveOk {
      return Unhandled(RetrieveFailed);
    }
    var md := event.metadata;
    if md.userId == "" || md.planId == "" {
      return MissingMetadata;
    }
    if (md.userId, md.planId) in SubscriptionKeys(store.subscriptions) {
      return Unhandled(DuplicateKey);
    }
    if md.userId !in store.users || md.planId !in PlanIds(store.plans) {
      return Unhandled(DanglingReference);
    }
    var row := Subscription(newId, md.userId, md.planId, Active, now);
    ghost var before := store.subscriptions;
    store.subscriptions := store.subscriptions + [row];
    assert UniqueSubscriptions(store.subscriptions) by {
      forall i, j | 0 <= i < j < |store.subscriptions|
        ensures store.subscriptions[i].id != store.subscriptions[j].id
        ensures (store.subscriptions[i].userId, store.subscriptions[i].planId)
             != (store.subscriptions[j].userId, store.subscriptions[j].planId)
      {
        if j == |before| {
          assert store.subscriptions[i] in before;
        }
      }
    }
    r := Recorded(row);
  }

  /**
   * At-least-once delivery: after an event has been recorded, delivering
   * the same event again writes nothing. If the processor lookup succeeds
   * it fails with the duplicate key, a 500 rather than a success, and the
   * key keeps exactly one row either way.
   */
  lemma RedeliveryWritesNothing(db: Db, event: Event, id1: Id, now1: int,
                                retrieveOk: bool, id2: Id, now2: int)
    requires ValidDb(db)
    requires ReconcileCheck(db, Some(event), true, id1, now1).Recorded?
    ensures var row := ReconcileCheck(db, Some(event), true, id1, now1).row;
      var after := db.(subscriptions := db.subscriptions + [row]);
      var again := ReconcileCheck(after, Some(event), retrieveOk, id2, now2);
      && !again.Recorded?
      && again == (if retrieveOk then Unhandled(DuplicateKey) else Unhandled(RetrieveFailed))
      && |RowsFor(after.subscriptions, row.userId, row.planId)| == 1
  {
    var row := ReconcileCheck(db, Some(event), true, id1, now1).row;
    var subs := db.subscriptions + [row];
    assert (row.userId, row.planId) in SubscriptionKeys(subs) by {
      assert row in subs;
    }
    forall s | s in db.subscriptions ensures (s.userId, s.planId) != (row.userId, row.planId) {
      assert (s.userId, s.planId) in SubscriptionKeys(db.subscriptions);
    }
    NoRowsFor(db.subscriptions, row.userId, row.planId);
    RowsForAppend(db.subscriptions, row);
  }

  /**
   * The completed-checkout event the processor sends back for `req`: it
   * echoes the request's metadata, and the session carries a subscription
   * (`subscriptionId`, created by the processor) only outside "payment" mode.
   */
  function CompletedEvent(req: SubscriptionsRoute.CheckoutRequest, subscriptionId: Id): Event {
    Event(CheckoutCompleted, Metadata(req.metadataUserId, req.metadataPlanId),
          if req.mode == "payment" then "" else subscriptionId)
  }

  /**
   * As written, no checkout this application starts is ever recorded: its
   * requests are in "payment" mode, so the completed event has no
   * subscription to look up, the lookup throws and the handler answers 500
   * with nothing written.
   */
  lemma PaymentCheckoutNeverRecorded(db: Db, session: Option<Actor>, planId: Id, appUrl: string,
                                     subscriptionId: Id, retrieveOk: bool, newId: Id, now: int)
    requires SubscriptionsRoute.Checkout(db, session, planId, appUrl).Ok?
    ensures var req := SubscriptionsRoute.Checkout(db, session, planId, appUrl).value;
      ReconcileCheck(db, Some(CompletedEvent(req, subscriptionId)), retrieveOk, newId, now) == Unhandled(RetrieveFailed)
  {
  }

  /**
   * The checkout round trip, for the handler as intended: when the processor
   * echoes back the metadata of a checkout request POST /api/subscriptions
   * built, the completed event records exactly the subscription the user
   * asked for, active. After that, the same user is refused a second
   * checkout for the plan.
   */
  lemma CheckoutThenReconcile(db: Db, session: Option<Actor>, planId: Id, appUrl: string,
                              subscriptionId: Id, newId: Id, now: int)
    requires SubscriptionsRoute.Checkout(db, session, planId, appUrl).Ok?
    requires session.value.id != "" && session.value.id in db.users
    ensures var req := SubscriptionsRoute.Checkout(db, session, planId, appUrl).value;
      var r := ReconcileIntended(db, Some(CompletedEvent(req, subscriptionId)), newId, now);
      && r == Recorded(Subscription(newId, session.value.id, planId, Active, now))
      && SubscriptionsRoute.Checkout(db.(subscriptions := db.subscriptions + [r.row]), session, planId, appUrl)
         == Err(Conflict)
  {
    var row := Subscription(newId, session.value.id, planId, Active, now);
    assert (row.userId, row.planId) in SubscriptionKeys(db.subscriptions + [row]) by {
      assert row in db.subscriptions + [row];
    }
    assert PlanIds(db.plans) == PlanIds(db.(subscriptions := db.subscriptions + [row]).plans);
  }
}
