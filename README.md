# Fit-Plan-Hub access and subscription rules, in Dafny

This project models the server side of a fitness-plan marketplace. Trainers publish paid plans. Users follow trainers and pay through a hosted checkout to subscribe to plans. The model covers the API gate and the route handlers that read and write the store:

- **API gate** (`middleware.dfy`, module `Middleware`): which `/api` requests reach a handler without a login token.
- **Store** (`domain.dfy`, module `Domain`): four tables.
  - users, mapped to their role;
  - fitness plans;
  - follow edges keyed by (followerId, trainerId), held as a set;
  - subscriptions keyed by (userId, planId).

  `ValidDb` states what the database guarantees: unique keys and resolving foreign keys. Read handlers see an immutable snapshot (`Db`). Writing handlers take the mutable `Store` object.
- **Queries** (`query.dfy`, module `Query`): Prisma's `findMany` with a `where` filter and `orderBy: { createdAt: "desc" }`. It is an insertion sort, proved to return a newest-first permutation of exactly the matching rows.
- **Plan catalogue** (`plans_route.dfy`): listing with an optional trainer filter and an optional per-user annotation. Creation is for trainers only.
- **Follow graph** (`follow_route.dfy`): follow (POST) and unfollow (DELETE).
- **Subscription ledger reads and checkout initiation** (`subscriptions_route.dfy`): a role-scoped listing, and the checkout request that POST builds. POST writes nothing.
- **Checkout reconciliation** (`stripe_webhook.dfy`): the payment processor's webhook. It is the only writer of subscription rows.
- **Feed composer** (`feed_route.dfy`): a read-only join for each role.

Each writing handler has two parts:

- a pure guard-chain function (`CreatePlanCheck`, `FollowCheck`, `UnfollowCheck`, `ReconcileCheck`). It gives the rejection, or the one row to write.
- a method that runs the same chain with early returns, like the route does. It performs the single write.

Each method's `modifies` clause names only the one table it may change (for example `modifies store`follows`). Its `ensures` give the result as the guard function of the old snapshot. They give the table's new value: exactly the old one plus or minus that row on success, and the old one on every error path. They also say that `Store.Valid()` is preserved.

Oracles and inputs:

- The session (`getServerSession`) is a trusted parameter, `Option<Actor>`.
- Signature verification (`constructEvent`) is a parameter `verified: Option<Event>`. `None` means the signature did not match.
- The processor's subscription lookup (`subscriptions.retrieve(session.subscription)`) succeeds when the event carries a subscription id and the parameter `retrieveOk` holds. A lookup without an id (the session's `subscription` is null) is modelled as failing.
- Generated row ids and timestamps are parameters. A new id is required to be fresh.
- An absent or falsy string field (query parameter, body field, header or metadata) is `""`. The source treats `null`, `undefined` and `""` alike through `!x`.
- Prices are integer cents. Durations are integers.

## Model

| member | source | states |
|---|---|---|
| `Middleware.Authorized` | src/middleware.ts:5-17 | Paths starting with `/api/auth` or with a public route (`/api/plans`, `/api/auth/register`) are authorized with or without a token. Every other path is authorized if and only if a token is present. A token authorizes every path. |
| `Middleware.Gate` | src/middleware.ts:3-23 | The middleware runs only on `/api` and paths under `/api/` (matcher `/api/:path*`). There the request proceeds if and only if `Authorized` holds. Otherwise it is redirected to sign-in, which can only happen without a token. |
| `Middleware.ExemptionIsPrefixClosed` | src/middleware.ts:7-10 | Appending any suffix to an auth or public path keeps it exempt, so it stays authorized without a token. |
| `Middleware.RegisterRouteIsAuthRoute` | src/middleware.ts:7-10 | Every path the `/api/auth/register` entry admits is already an auth route. The only public paths beyond `/api/auth` start with `/api/plans`. |
| `Middleware.PlansPrefixIsNotSegmentBased` | src/middleware.ts:8-10 | Without a token, `/api/plans` and `/api/plans-admin` both proceed, because matching is by prefix. `/api/feed` is redirected. |
| `Middleware.OutsideApiBypasses` | src/middleware.ts:21-23 | A path not starting with `/api` never meets the gate. |
| `Middleware.WebhookNeedsToken` | src/middleware.ts:7-16 | `/api/webhooks/stripe` is neither an auth nor a public route, so without a login token the gate redirects it to sign-in. The processor sends no token. With a token it proceeds. |
| `Middleware.FollowRouteNeedsAnyToken` | src/middleware.ts:7-16 | `/api/follow` proceeds if and only if the request carries a token, of any role. |
| `Middleware.GateIntended` | src/middleware.ts:7-16 | The corrected gate: the same rules with the processor's callback added to the public routes. It bypasses exactly the paths outside the matcher and redirects only tokenless requests to non-exempt paths. |
| `Middleware.GateIntendedOnlyAddsWebhook` | src/middleware.ts:7-16 | The corrected gate admits the callback without a token and decides every other path exactly as the gate as written does. |
| `Query.Filter` | src/app/api/plans/route.ts:29-34 | A relation filter without an order keeps exactly the matching rows, each as often as in the table. |
| `Query.SortDesc` | src/app/api/plans/route.ts:36-38 | The result is a permutation of the input, ordered by createdAt descending. |
| `Query.FindMany` | src/app/api/plans/route.ts:18-39 | `findMany` with `where` and `orderBy: createdAt desc` returns exactly the matching rows, with multiplicity, newest first. |
| `Domain.HttpError.Status` | src/app/api/follow/route.ts:10-82 | Each rejection has its status: 400, 401, 403, 404, 409, or 500 for an internal failure. Only the internal failure is a 5xx. |
| `Domain.StatusIdentifiesError` | src/app/api/subscriptions/route.ts:10-164 | Two rejections have the same status code if and only if they are the same rejection. |
| `Domain.ParseRole` | src/app/api/follow/route.ts:88-91 | A role header reads as USER if and only if it is exactly `"USER"`, and likewise for TRAINER. |
| `Domain.FindPlan` | src/app/api/subscriptions/route.ts:109-115 | `findUnique` by plan id finds a plan if and only if some plan has that id, and the plan it returns is in the table with that id. |
| `Domain.FindPlanUnique` | src/app/api/subscriptions/route.ts:109-111 | When plan ids are unique, the lookup returns exactly the plan with that id. |
| `Domain.RowsFor` | src/app/api/feed/route.ts:43-46 | The rows selected for a (userId, planId) pair are exactly the table's rows with that key. |
| `Domain.AtMostOneRowPerKey` | src/app/api/subscriptions/route.ts:118-125 | The unique (userId, planId) key leaves at most one row per pair. |
| `PlansRoute.ListPlans` | src/app/api/plans/route.ts:6-41 | Lists exactly the plans whose trainerId matches, or all plans when no trainerId is given. Plans keep their multiplicity and come newest first. `subscriptions` is present if and only if a userId is given, and then holds exactly that user's rows for the plan. |
| `PlansRoute.CreatePlanCheck` | src/app/api/plans/route.ts:51-80 | Returns 403 if and only if there is no TRAINER session, and 400 if and only if a trainer omits a field or gives a falsy one. It returns 500 if and only if a trainer with every field is not a stored user, so the store refuses the owner reference. No other error occurs, so a request passing every guard succeeds. On success the row carries the body's fields, and its trainerId is the session user's id, never the body's. |
| `PlansRoute.CreatePlan` | src/app/api/plans/route.ts:51-95 | On success the plan table becomes the old table plus exactly that row. On every error it is unchanged. No other table changes. Store validity is kept. |
| `PlansRoute.CreatedPlanIsListed` | src/app/api/plans/route.ts:73-80 | A plan just created appears in its trainer's catalogue listing. |
| `FollowRoute.FollowCheck` | src/app/api/follow/route.ts:6-60 | Returns 403 if and only if there is no USER session, and 400 if and only if trainerId is missing. It returns 404 if and only if the target does not exist or is not a TRAINER, and 409 if and only if the edge already exists. It returns 500 if and only if the follower is not a stored user. No other error occurs, so a request passing every guard succeeds. On success it returns the edge (caller, trainerId), which is not yet in the set. |
| `FollowRoute.Follow` | src/app/api/follow/route.ts:6-76 | On success the edge set gains exactly that edge, so its size grows by one. On every error it is unchanged. No other table changes. |
| `FollowRoute.UnfollowCheck` | src/app/api/follow/route.ts:86-123 | The caller comes from the `x-user-id` and `x-user-role` headers. Returns 403 if and only if the id is missing or the role is not `"USER"`, 400 if and only if trainerId is missing, and 404 if and only if the edge is absent. |
| `FollowRoute.Unfollow` | src/app/api/follow/route.ts:86-137 | On success exactly that edge is removed, so the set shrinks by one. On every error it is unchanged. No other table changes. |
| `FollowRoute.FollowTwiceConflicts` | src/app/api/follow/route.ts:39-53 | After a successful follow, the same request gets 409. |
| `FollowRoute.UnfollowUndoesFollow` | src/app/api/follow/route.ts:126-133 | An unfollow whose headers name the same user removes the new edge, and the edge set returns to what it was. |
| `FollowRoute.UnfollowTrustsHeaders` | src/app/api/follow/route.ts:88-96 | Any request whose headers claim a user id and role `"USER"` removes that user's existing edge. The session plays no part. Since the gate only demands some token (`FollowRouteNeedsAnyToken`), any signed-in caller, of any role, can remove another user's edge by naming them in the headers. |
| `SubscriptionsRoute.OwnerOf` | src/app/api/subscriptions/route.ts:24-28 | Gives a plan's owner if and only if the plan exists, and the owner is that plan's trainerId. |
| `SubscriptionsRoute.TrainerSubscriptions` | src/app/api/subscriptions/route.ts:21-50 | Returns exactly the rows whose plan belongs to the trainer, newest first. |
| `SubscriptionsRoute.UserSubscriptions` | src/app/api/subscriptions/route.ts:51-73 | Returns exactly the rows the user holds, newest first. |
| `SubscriptionsRoute.ListSubscriptions` | src/app/api/subscriptions/route.ts:6-76 | Returns 401 if and only if there is no session. A TRAINER gets the rows of their plans. Every other role gets its own rows. Both are sorted by createdAt descending. |
| `SubscriptionsRoute.Checkout` | src/app/api/subscriptions/route.ts:88-159 | Returns 403 if and only if there is no USER session, 400 if and only if planId is missing, 404 if and only if the plan is unknown, and 409 if and only if a (caller, planId) row exists. No other error occurs, so a request passing every guard gets its checkout request. On success the request has unit amount equal to the plan's price in cents, quantity 1, currency usd, and metadata {caller, planId}. The function writes nothing. |
| `SubscriptionsRoute.SubscribedUserGetsNoCheckout` | src/app/api/subscriptions/route.ts:117-132 | In a consistent store, a user who already holds a row for the plan gets 409, and no checkout request is built. |
| `StripeWebhook.Outcome.Status` | src/app/api/webhooks/stripe/route.ts:19-51 | The handler answers 200 if and only if it records or ignores the event, 400 if and only if the signature or the metadata is bad, and 500 if and only if an exception escapes. |
| `StripeWebhook.RecordCompleted` | src/app/api/webhooks/stripe/route.ts:33-48 | Missing metadata gives 400. An existing (userId, planId) key gives an unhandled 500. So does metadata naming an unknown user or plan. Otherwise, and only then, it records (metadata.userId, metadata.planId) with status active. |
| `StripeWebhook.ReconcileCheck` | src/app/api/webhooks/stripe/route.ts:7-51 | A failed signature check gives 400. Another event type is ignored with 200. For a completed checkout, a failed subscription lookup gives an unhandled 500, which includes an event with no subscription id. Otherwise the outcome is `RecordCompleted`'s. A recorded row has a new key and resolving references. |
| `StripeWebhook.Reconcile` | src/app/api/webhooks/stripe/route.ts:7-52 | Only a recorded outcome appends its one row. Every other path leaves the subscription table unchanged. Unique keys and foreign keys are kept. |
| `StripeWebhook.RedeliveryWritesNothing` | src/app/api/webhooks/stripe/route.ts:40-48 | Delivering a recorded event again writes nothing. It fails with the duplicate key (a 500, not a success) or with the lookup failure. The pair keeps exactly one row. |
| `StripeWebhook.PaymentCheckoutNeverRecorded` | src/app/api/webhooks/stripe/route.ts:29-31 | As written, the completed event for any checkout request this application builds is answered with an unhandled 500 and nothing is written. The request is in "payment" mode, so the event has no subscription to look up. |
| `StripeWebhook.ReconcileIntended` | src/app/api/webhooks/stripe/route.ts:13-48 | The corrected handler, without the unused lookup. It never fails on the lookup, and it agrees with `ReconcileCheck` whenever the lookup succeeds. |
| `StripeWebhook.CheckoutThenReconcile` | src/app/api/webhooks/stripe/route.ts:33-48 | For the corrected handler, the completed event that echoes a checkout request's metadata records exactly the requested (user, plan) as active. After that, a new checkout for the pair gets 409. This holds for the handler alone: the gate as written redirects the callback first (`WebhookNeedsToken`). |
| `FeedRoute.PlanSubscriptions` | src/app/api/feed/route.ts:93-95 | Returns every row of the plan, whoever holds it. |
| `FeedRoute.UserFeedFor` | src/app/api/feed/route.ts:19-79 | followedPlans are exactly the plans of followed trainers, newest first. They are empty when the user follows nobody. Each carries only the caller's rows for it. subscribedPlans has one plan per caller subscription, in the listing's createdAt-descending order. |
| `FeedRoute.TrainerFeedFor` | src/app/api/feed/route.ts:80-107 | myPlans are exactly the caller's plans, newest first. Each carries all of its rows, with a count equal to their number. |
| `FeedRoute.Feed` | src/app/api/feed/route.ts:6-116 | Returns 401 if and only if there is no session. USER and TRAINER get their feeds. For any other role the handler returns no response, and the framework answers 500; the model gives `Internal` if and only if the role is another one. The function writes nothing. |
| `FeedRoute.EmptyFeedForNewUser` | src/app/api/feed/route.ts:17-28 | A user with no follows and no subscriptions gets two empty lists, not an error. |
| `FeedRoute.FeedAgreesWithSubscriptionList` | src/app/api/feed/route.ts:55-78 | The feed's subscribed plans match the caller's subscription listing one for one. |

## Findings

| source | as written | input that shows it | evidently intended | confidence | as-written member | corrected member |
|---|---|---|---|---|---|---|
| src/middleware.ts:7-10 | The gate's exemptions are `/api/auth` and the public routes only, and the matcher covers `/api/webhooks/stripe`. | A POST to `/api/webhooks/stripe` from the payment processor, which carries no login token, is redirected to sign-in, so no checkout is ever reconciled. | The callback is exempt from the login check; its signature check authenticates it. | not executed; high | `Middleware.WebhookNeedsToken` | `Middleware.GateIntended`, `Middleware.GateIntendedOnlyAddsWebhook` |
| src/app/api/webhooks/stripe/route.ts:29-31 | A completed checkout first looks up `session.subscription`. The result is never used. | The completed event for a checkout built by POST /api/subscriptions, which uses "payment" mode, so the session's `subscription` is null: the lookup throws and the handler answers 500 with nothing written. | Record the subscription without the lookup. | not executed; medium (rests on the processor refusing a lookup with a null id) | `StripeWebhook.PaymentCheckoutNeverRecorded` | `StripeWebhook.ReconcileIntended`, `StripeWebhook.CheckoutThenReconcile` |

## Behaviour the code does not deliver (the model follows the code)

- Redelivering a completed checkout that was already recorded ought to succeed, since processors deliver at least once. The handler has no catch around `db.subscription.create`, so the unique-key violation escapes as a 500 (`Unhandled(DuplicateKey)`). The ledger still ends with one row (`RedeliveryWritesNothing`), but the processor sees a failure and retries.
- A plan's price and duration ought to be positive. The handler only rejects falsy values, so a negative price or duration is stored.
- Unfollowing ought to act for the signed-in user. The handler takes identity from the `x-user-id` and `x-user-role` headers and checks only that the edge exists (`UnfollowTrustsHeaders`).
- A followed plan in the feed ought to show whether the caller holds an active subscription to it. The handler attaches the caller's subscription rows, whatever their status.

## Left out

- Stripe SDK calls are oracles, not modelled. The checkout POST builds the request record but does not model `checkout.sessions.create` or its failure (a 500 with no write), nor the returned URL. The webhook's `subscriptions.retrieve` is reduced to whether it returns. A call with no subscription id is taken to fail.
- String parsing and floating point are not modelled: `parseFloat`, `parseInt` and `Math.round(price * 100)`. Prices are integer cents, so the unit amount equals the price. Falsiness of price and duration is judged on the parsed number. A string such as `"0"` is truthy in the source and is not distinguished.
- The display fields joined into responses are left out: the trainer's name, email and avatar, and the `select` projections of included plans and users. Responses carry whole rows.
- Response messages and the JSON envelope are left out. Only the status or outcome is modelled.
- Prisma's order among rows with equal createdAt is unspecified. The model's sort is one fixed order, and only "newest first" and "permutation of the matching rows" are claimed.
- The matcher `/api/:path*` is modelled as "`/api` or starts with `/api/`". Empty path segments, query strings and trailing-slash normalisation are not modelled.
- A malformed JSON body is not modelled. `request.json()` throws into the catch and the handler answers 500 in plans POST (src/app/api/plans/route.ts:64), follow POST (src/app/api/follow/route.ts:20) and subscriptions POST (src/app/api/subscriptions/route.ts:100). The model's handlers take the parsed body.
- Concurrency is not modelled. Races on unique keys are out of scope, and each handler runs atomically on the store.
- Internal errors from the store other than those modelled (a refused foreign key on plan, follow and subscription creation, and a duplicate key on subscription creation) are not modelled, nor are timeouts.
- Plan update and delete (`/api/plans/[id]`), registration and sign-in, the UI components, seeding, and the client-side description truncation are not part of this model.
- `Middleware.Authorized`: the redirect target of a refused request (the sign-in page URL) is not modelled.
