# Subscription durations and idempotent payments

A Dafny model of the subscription core of the botsmith backend. It covers:

- how long a term lasts (6 days for the free plan, 30 days for every paid plan);
- how an expiry is computed for a new subscription, an upgrade, a renewal and an admin change;
- how a payment from checkout verification, a gateway webhook or the payment-page callback is applied exactly once per payment id.

It models each place in the code base that computes an expiry:

- `DurationCalculator` (`subscription_duration_calculator.dfy`) is the single calculator. It is pure functions on instants counted in seconds.
- `SubscriptionService` (`subscription_service.dfy`) is the payment service over the `subscriptions`, `users` and `processed_payments` tables.
  - Each operation is a function from the tables before to the tables after, paired with its result.
  - The class `SubscriptionService.PaymentProcessor` performs the same writes in place on a `Store.Database`. Each of its methods promises exactly the function's new state and result.
  - On top of that sit the exactly-once lemmas over arbitrary sequences of deliveries, and a ledger invariant that every operation keeps.
- `AdminSubscriptions` (`admin_subscriptions.dfy`) is the admin router: extend, renew, lifetime access, plan change and the details view. It keeps its own, case-sensitive copy of the day arithmetic.
- `RazorpayPayment` (`razorpay_payment.dfy`) holds checkout plan mapping, payment verification and the payment webhook. They recognise duplicates by the latest payment id stored on a subscription row, not by the ledger.
- `RazorpayRouter` (`razorpay.dfy`) is the gateway glue. It derives the idempotency key, defaults the plan, routes the redirect callback, and applies the signed webhook's event branches through the service.
- `FreePlanMigration` (`update_free_plan_duration.dfy`) is the one-off loop that sets every free row with a start date to a 6-day term and counts the rows it modified.

Shared vocabulary:

- `Common` holds options, MongoDB fields that can be missing, null or set, Python truthiness, ASCII lower-casing, floor day arithmetic and decimal rendering.
- `Store` holds the documents, the `Tables` value, and the `Database` class with one map per collection.

Modelling conventions:

- Every clock read inside one request is the same parameter `now`, in seconds; a day is 86400 seconds.
- A Python `.days` on a time difference is floor division by a day.
- A MongoDB `$set` merges named fields into the stored document. An upsert starts from a blank document. An update without upsert changes only a document that exists.
- An HTTP error is `HttpError(status)`.
- The gateway's signature checks and its subscription fetch are inputs to the model.

## Model

| member | source | states |
|---|---|---|
| DurationCalculator.PlanDuration | backend/services/subscription_duration_calculator.py:91-104 | the term is 6 days exactly when the plan id lower-cases to "free", and 30 days for every other plan |
| DurationCalculator.PlanDurationIgnoresCase | backend/services/subscription_duration_calculator.py:65-68 | the term used inside the expiry computation does not depend on letter case; "FREE" and "Free" get 6 days, "starter" and "professional" get 30 |
| DurationCalculator.CalculateExpiration | backend/services/subscription_duration_calculator.py:36-88 | the expiry is always strictly after now. A new subscription, an upgrade, an admin change, or a renewal without a current subscription: now plus the plan's term. A renewal of a term still running: its expiry plus 30 days. A renewal of an expired term or one with no expiry: now plus 30 days |
| DurationCalculator.NoCarryForward | backend/services/subscription_duration_calculator.py:84-88 | outside renewals the expiry is independent of the current subscription, and exactly the plan's term in whole days remains |
| DurationCalculator.RenewalPreservesRemainingTime | backend/services/subscription_duration_calculator.py:73-79 | renewing a running term keeps all of the remaining time and adds exactly 30 whole days, even on the free plan |
| DurationCalculator.ExpiredRenewalStartsFresh | backend/services/subscription_duration_calculator.py:80-82 | renewing an expired term, or one with no expiry, leaves exactly 30 days, even on the free plan |
| DurationCalculator.IsPlanUpgradeProperties | backend/services/subscription_duration_calculator.py:107-118 | the upgrade test ignores letter case; it is irreflexive and symmetric, and "same plan" is transitive |
| DurationCalculator.RemainingDays | backend/services/subscription_duration_calculator.py:121-136 | 0 once the expiry has passed; otherwise the largest whole number of days that fits before the expiry; never negative |
| SubscriptionService.ClassifyPayment | backend/services/subscription_service.py:88-93 | new if and only if there is no subscription; upgrade if and only if the plans differ after lower-casing; renewal if and only if they are the same |
| SubscriptionService.ProcessPayment | backend/services/subscription_service.py:36-168 | a payment id already in the ledger returns the recorded write and time and changes no table; any other payment is applied as set out below the table |
| SubscriptionService.UpgradeStartsFresh | backend/services/subscription_service.py:88-102 | an upgrade payment gives exactly the new plan's term from now, and the status view then reports that many days |
| SubscriptionService.RenewalKeepsRemainingDays | backend/services/subscription_service.py:88-123 | a renewal payment before expiry raises the status view's remaining days by exactly 30 |
| SubscriptionService.SecondDeliveryIsNoOp | backend/services/subscription_service.py:71-82 | a second call with the same payment id, for any user, plan, source and time, leaves the tables as the first call did and returns the first call's write |
| SubscriptionService.ExactlyOncePerPaymentId | backend/services/subscription_service.py:71-159 | for any sequence of deliveries, the final tables equal those obtained from only the first delivery of each payment id not already in the ledger |
| SubscriptionService.FirstDeliveriesDistinct | backend/services/subscription_service.py:149-159 | the deliveries that take effect carry pairwise distinct payment ids, none of them already in the ledger, and together they carry every new payment id |
| SubscriptionService.LedgerAppendOnly | backend/services/subscription_service.py:148-159 | after any sequence of deliveries, the ledger is the old ledger plus exactly the delivered payment ids, with no existing entry changed |
| SubscriptionService.ReplayAfterOtherPaymentsIsNoOp | backend/services/subscription_service.py:71-82 | a payment id that is already in the ledger, or was delivered earlier, changes nothing when replayed, however many other payments came in between |
| SubscriptionService.ServiceKeepsLedgerConsistent | backend/services/subscription_service.py:110-159 | payment processing, sign-up and the admin plan change each keep the ledger invariant: each entry records its own payment id, and each payment id on a subscription has a ledger entry |
| SubscriptionService.CreateSubscriptionSpec | backend/services/subscription_service.py:170-216 | the sign-up row has the plan, is active, expires after the plan's term from now, and has zeroed usage. It is stored only when the user had no row |
| SubscriptionService.AdminChangePlanSpec | backend/services/subscription_service.py:218-285 | the new term is the new plan's length from now whatever came before. Existing usage is kept (zeroed for a new row), and the admin id and reason are recorded. The user moves to the plan; nobody else and no ledger entry changes |
| SubscriptionService.CheckSubscriptionStatus | backend/services/subscription_service.py:287-328 | "exists" holds exactly when the user has a subscription. "Expired" holds exactly when there is none, it has no expiry, or its expiry is not after now. "Expiring soon" holds exactly when between 1 and 4 days (4 excluded) remain. The remaining days are the calculator's |
| SubscriptionService.ExpiringSoonIsNotExpired | backend/services/subscription_service.py:316-318 | a subscription reported as expiring soon is never reported as expired, and has between 1 and 3 days left |
| SubscriptionService.PaymentProcessor.ProcessPaymentIdempotent | backend/services/subscription_service.py:36-168 | the in-place ledger check, subscription upsert, user write and ledger append leave exactly the tables and result of `ProcessPayment`, and keep the ledger invariant |
| SubscriptionService.PaymentProcessor.CreateSubscription | backend/services/subscription_service.py:170-216 | the in-place insert leaves exactly the tables of `CreateSubscriptionSpec` and keeps the ledger invariant |
| SubscriptionService.PaymentProcessor.AdminChangePlan | backend/services/subscription_service.py:218-285 | the in-place upsert and user write leave exactly the tables of `AdminChangePlanSpec` and keep the ledger invariant |
| AdminSubscriptions.RouterPlanDays | backend/routers/admin_subscriptions.py:195-196 | 6 days if and only if the plan id is exactly "free", with letter case mattering; 30 otherwise |
| AdminSubscriptions.ExtendedExpiry | backend/routers/admin_subscriptions.py:135-146 | the extension counts from the later of now and the current expiry, and from now when there is no expiry |
| AdminSubscriptions.Extend | backend/routers/admin_subscriptions.py:116-182 | each error leaves the store unchanged: 422 for a non-positive number of days, 404 without a subscription, 400 under lifetime access. Otherwise the subscription gets the new expiry and becomes active, and the user's expiry follows; plans and the ledger are untouched |
| AdminSubscriptions.Renew | backend/routers/admin_subscriptions.py:184-203 | without a subscription or under lifetime access, the answer is 500 and nothing changes. Otherwise it is exactly the extension by the router's plan days, and it succeeds |
| AdminSubscriptions.ToggleLifetime | backend/routers/admin_subscriptions.py:205-262 | the user's row gets the flag and stays active; a grant clears the expiry and a revoke keeps it; plan, start, usage and payment id are kept. A user without a row gets an "enterprise" row without expiry. The user document gets the flag and, as expiry, none on a grant or now on a revoke |
| AdminSubscriptions.ChangePlan | backend/routers/admin_subscriptions.py:264-358 | an unknown plan gives 404 with no write. Otherwise the term starts now and lasts the router's days. An existing row keeps usage and lifetime flag. A missing row is inserted with zeroed counters, no lifetime access and auto-renew on. Other users are unchanged |
| AdminSubscriptions.DaysRemainingOf | backend/routers/admin_subscriptions.py:76-88 | "Lifetime" if and only if lifetime access holds; none if and only if there is no lifetime access and no expiry; otherwise the calculator's remaining days, clamped at 0 |
| AdminSubscriptions.Details | backend/routers/admin_subscriptions.py:37-114 | an unknown user gives 404. A user without a row gets a default one: the user's plan or "free", no expiry, the user's lifetime flag. An unknown plan is shown as "free". The remaining days use the row's lifetime flag, falling back to the user's |
| AdminSubscriptions.ExtensionMatchesRenewal | backend/routers/admin_subscriptions.py:139-143 | the strict comparison of the extension and the calculator's renewal pick the same base, so a 30-day extension equals the calculator's renewal |
| AdminSubscriptions.ExtensionAddsDays | backend/routers/admin_subscriptions.py:135-146 | an extension by some number of days adds exactly that many whole days to what remained (0 when the term had run out or had no expiry) |
| AdminSubscriptions.RouterPlanDaysVersusCalculator | backend/routers/admin_subscriptions.py:195-196 | the router's day choice agrees with the calculator on lower-case plan ids; on a stored "Free" it gives 30 where the calculator gives 6 |
| AdminSubscriptions.ExtendAlwaysModifies | backend/routers/admin_subscriptions.py:171-172 | a permitted extension always succeeds and moves the expiry past both now and the old expiry, so the 500 branch for an unmodified document is never taken |
| AdminSubscriptions.RenewAddsPlanDays | backend/routers/admin_subscriptions.py:195-201 | a renewal succeeds and adds exactly the router's plan days to what remained |
| AdminSubscriptions.LifetimeGrantBlocksExtension | backend/routers/admin_subscriptions.py:221-223 | after a grant, an extension is refused with 400 and a renewal with 500, both without a write, and the details view reports "Lifetime" |
| AdminSubscriptions.RevokeWithoutSubscriptionCreatesEnterpriseRow | backend/routers/admin_subscriptions.py:242-254 | revoking lifetime access of a user without a row creates an "enterprise" row, which the details view then shows with no remaining days |
| AdminSubscriptions.ChangePlanStartsFresh | backend/routers/admin_subscriptions.py:288-293 | right after a plan change, exactly the router's days remain |
| AdminSubscriptions.AdminRouter.ExtendSubscription | backend/routers/admin_subscriptions.py:116-182 | the in-place writes leave exactly the tables and answer of `Extend` |
| AdminSubscriptions.AdminRouter.RenewUserSubscription | backend/routers/admin_subscriptions.py:184-203 | calls the extension in place and maps its errors to 500, leaving exactly the tables and answer of `Renew` |
| AdminSubscriptions.AdminRouter.ToggleLifetimeAccess | backend/routers/admin_subscriptions.py:205-262 | the update, the user write and the insert fallback leave exactly the tables of `ToggleLifetime` |
| AdminSubscriptions.AdminRouter.ChangeUserPlan | backend/routers/admin_subscriptions.py:264-358 | the plan check, update, user write and insert fallback leave exactly the tables and answer of `ChangePlan` |
| AdminSubscriptions.AdminRouter.GetUserSubscriptionDetails | backend/routers/admin_subscriptions.py:37-114 | inserts the default row where there is none and answers exactly as `Details` |
| RazorpayPayment.RazorpayPlanId | backend/routers/razorpay_payment.py:60-66 | "starter" and "professional", in any letter case, map to the configured gateway plans; every other plan maps to "" |
| RazorpayPayment.CheckoutPlan | backend/routers/razorpay_payment.py:106-112 | checkout is refused with 400 if and only if the plan maps to ""; otherwise it yields a configured, non-empty gateway plan |
| RazorpayPayment.VerifyExpiry | backend/routers/razorpay_payment.py:215-231 | 30 days past the current expiry exactly when the row has the same plan id (letter case included), is active and has not expired; 30 days from now in every other case |
| RazorpayPayment.Verify | backend/routers/razorpay_payment.py:151-290 | a payment id already stored on some row answers success with no write. Then, without a write: a bad signature gives 400 and an unknown plan gives 404 ("starter" when the notes name none). Otherwise, see below |
| RazorpayPayment.ChargedExpiry | backend/routers/razorpay_payment.py:414-434 | an upgrade (a non-empty plan id in the notes that differs exactly) gets 30 days from now. A renewal gets 30 days past the later of now and the expiry; a missing expiry counts as now; a stored null fails |
| RazorpayPayment.FirstMatchIndex | backend/routers/razorpay_payment.py:457-458 | the position of the first document, in the collection's natural order, that the filter on the gateway subscription id matches (a missing id matching the documents without one); every earlier one does not match, and the length when none does |
| RazorpayPayment.FirstMatch | backend/routers/razorpay_payment.py:457-458 | the document `update_one` reaches: absent exactly when no document in the order matches, and otherwise a matching one |
| RazorpayPayment.WithGatewayStatus | backend/routers/razorpay_payment.py:459-465 | the `$set` writes the status, auto-renew off and the update time, and keeps every other field of the document |
| RazorpayPayment.SetGatewayStatus | backend/routers/razorpay_payment.py:452-483 | only the first matching document gets that status, auto-renew off and the update time; with no match nothing changes; the key set is unchanged |
| RazorpayPayment.Charged | backend/routers/razorpay_payment.py:394-450 | see below |
| RazorpayPayment.ProcessWebhook | backend/routers/razorpay_payment.py:377-489 | "charged" is `Charged`. "cancelled" and "completed" set the status on the first document, in the given natural order, carrying the gateway id. Every other event is acknowledged without a write. Users, plans and the ledger never change |
| RazorpayPayment.VerifyExpiryVersusCalculator | backend/routers/razorpay_payment.py:218-231 | verification agrees with the calculator on active same-plan renewals and on upgrades to paid plans; a "Starter" row and a paused row lose 10 remaining days here and keep them in the calculator |
| RazorpayPayment.ChargedExpiryVersusCalculator | backend/routers/razorpay_payment.py:415-434 | a charged renewal equals the calculator's renewal when the expiry is set or missing; a charged upgrade to a paid plan equals the calculator's upgrade |
| RazorpayPayment.VerifyMarksPaymentSeen | backend/routers/razorpay_payment.py:164-183 | after a verification, that payment id is stored on a row, and verifying it again answers "already verified" without a write |
| RazorpayPayment.VerifyReplayAfterNewerPaymentExtendsAgain | backend/routers/razorpay_payment.py:165-183 | after "pay_1" and then "pay_2", a replay of "pay_1" is applied again: the expiry moves from day 70 to day 100 |
| RazorpayPayment.WebhookReplayAfterNewerPaymentExtendsAgain | backend/routers/razorpay_payment.py:404-410 | the same replay through the webhook is charged again, from day 70 to day 100 |
| RazorpayPayment.VerifyBypassesLedger | backend/routers/razorpay_payment.py:207-267 | a verified payment leaves a row whose payment id has no ledger entry, breaking the service's invariant; the service then processes that payment id as new |
| RazorpayPayment.ChargedRenewalOfNullExpiryFails | backend/routers/razorpay_payment.py:425-434 | a charged renewal of a row whose expiry is null (as a lifetime grant leaves it) answers with the error reply and writes nothing |
| RazorpayPayment.GatewayStatusTouchesOneRow | backend/routers/razorpay_payment.py:456-482 | for any gateway id (a missing one included) and any order, a cancelled or completed event changes at most one row, one the filter matches, and never its plan, expiry, usage or payment id. When the order lists every row and some row matches, exactly one matching row gets the new status |
| RazorpayPayment.GatewayStatusWithDistinctIds | backend/routers/razorpay_payment.py:456-482 | while no two rows share a gateway subscription id, the order does not matter: the event writes exactly the row carrying the id and leaves every other row unchanged |
| RazorpayPayment.PaymentRouter.HandleVerifyPayment | backend/routers/razorpay_payment.py:151-290 | the in-place duplicate check, update or insert, and user write leave exactly the tables and answer of `Verify` |
| RazorpayPayment.PaymentRouter.HandleWebhook | backend/routers/razorpay_payment.py:377-489 | the in-place event branches leave exactly the tables and reply of `ProcessWebhook` |
| RazorpayRouter.IdempotencyKey | backend/routers/razorpay.py:224-225 | the payment id when it is non-empty; otherwise "webhook_", the subscription id ("None" when missing), "_" and the creation time (0 when missing) |
| RazorpayRouter.ResolvePlanId | backend/routers/razorpay.py:217 | the notes' plan id whenever that key is present, even empty; else the plan name; else "starter" |
| RazorpayRouter.Sync | backend/routers/razorpay.py:203-249 | without a user id in the notes nothing changes. Otherwise the outcome is the service's processing of the idempotency key with source "webhook": the ledger then holds the key, and only the user's row additionally records the gateway subscription id |
| RazorpayRouter.FallbackKeysInjective | backend/routers/razorpay.py:225 | two deliveries without a payment id share a key only when they carry the same subscription id and creation time |
| RazorpayRouter.FallbackKeyPrefix | backend/routers/razorpay.py:225 | every fallback key starts with "webhook_" |
| RazorpayRouter.SyncIsIdempotent | backend/routers/razorpay.py:229-246 | syncing the same entity and payment id again, at any later time, leaves the tables exactly as the first sync did |
| RazorpayRouter.SyncOfNewPayment | backend/routers/razorpay.py:224-246 | the first sync of a payment gives the user the resolved plan, active, with the key as payment id and the gateway subscription id, in a ledger entry from the webhook |
| RazorpayRouter.RouteCallback | backend/routers/razorpay.py:266-316 | a cancelled link status gives "cancelled". Success holds exactly when a subscription id (falling back to the gateway's) and a user id are present and the fetched status is active or authenticated. A failed fetch gives "sync failed". Every other case is "payment failed" |
| RazorpayRouter.PaymentCallback | backend/routers/razorpay.py:252-323 | the outcome is the routing. Only a success writes, and that write is the sync of the fetched entity with the callback's user id, keyed by the callback's payment id |
| RazorpayRouter.SetRecordStatus | backend/routers/razorpay.py:385-390 | only the gateway record of the entity's id gets the status; others are unchanged, and no record is created |
| RazorpayRouter.SetUserStatus | backend/routers/razorpay.py:393-415 | only the subscription of the user named in the notes changes, and only its status, plus auto-renew off when cancelling |
| RazorpayRouter.HandleWebhook | backend/routers/razorpay.py:326-426 | each rejection happens before any write: 400 without a signature, 500 without payment settings, 401 on a mismatch. The request succeeds if and only if none of these applies. See below for the events |
| RazorpayRouter.RejectedWebhookChangesNothing | backend/routers/razorpay.py:333-352 | a webhook answered with an error status leaves the tables unchanged |
| RazorpayRouter.GatewayRouter.SyncSubscriptionToMainCollection | backend/routers/razorpay.py:203-249 | calls the service in place and leaves exactly the tables of `Sync` |
| RazorpayRouter.GatewayRouter.HandlePaymentCallback | backend/routers/razorpay.py:252-323 | routes and syncs in place, leaving exactly the tables and outcome of `PaymentCallback` |
| RazorpayRouter.GatewayRouter.HandleWebhookRequest | backend/routers/razorpay.py:326-426 | the in-place checks and event branches leave exactly the tables and answer of `HandleWebhook` |
| FreePlanMigration.FreeRows | update_free_plan_duration.py:26 | a row is visited if and only if its plan id is exactly "free" |
| FreePlanMigration.Migrated | update_free_plan_duration.py:32-51 | a free row with a start date gets its start plus 6 days as expiry and nothing else changes; every other row is unchanged |
| FreePlanMigration.MigrateFreePlans | update_free_plan_duration.py:26-59 | the migration keeps the set of rows and migrates each one on its own |
| FreePlanMigration.UpdateFreeSubscriptions | update_free_plan_duration.py:12-64 | the in-place loop leaves exactly the migrated table, with the count equal to the number of rows the migration really modifies; no other collection changes |
| FreePlanMigration.CountBoundedByFreeRows | update_free_plan_duration.py:53-55 | the modified rows are free rows, so the count never exceeds the number of free rows found |
| FreePlanMigration.MigrationIsIdempotent | update_free_plan_duration.py:45-51 | running the migration a second time changes nothing and counts no row |
| FreePlanMigration.MigrationMatchesCalculator | update_free_plan_duration.py:45 | a migrated free row carries exactly the calculator's expiry for a new free subscription started at the same instant, that is 6 whole days. Rows without a start date and other plans are unchanged, and plan, start, usage and status are kept on every row |

More on four of the rows above:

- `SubscriptionService.ProcessPayment`, for a payment not in the ledger:
  - the user's row gets the plan, becomes active, takes the calculator's expiry for the classified action, and records the payment id and the action;
  - usage is kept on a renewal and zeroed otherwise;
  - fields the write does not name are kept;
  - no other user changes, and the user's plan follows the purchase;
  - exactly one ledger entry is added, keyed by the payment id, with the upgrade flag, source and time; no earlier entry changes;
  - the reported duration is the whole number of days to the expiry.
- `RazorpayPayment.Verify`, when the payment succeeds:
  - the user's row gets the plan, becomes active, and takes the router's expiry, auto-renew on, the gateway subscription id and the payment id;
  - an existing row keeps its usage, creation time and lifetime flag;
  - a new row gets zeroed counters and now as creation time;
  - the user's plan follows;
  - other users, plans and the ledger are unchanged.
- `RazorpayPayment.Charged`:
  - without a user id and a payment id it is acknowledged without a write;
  - a payment id already stored on a row is acknowledged as a duplicate without a write;
  - a user without a row is acknowledged without a write;
  - a renewal of a null expiry fails without a write;
  - otherwise the row gets the charged expiry, becomes active, and takes the payment id, the gateway subscription id and the notes' plan (the old plan when the notes name none).
- `RazorpayRouter.HandleWebhook`, once the request is accepted:
  - "activated" marks the gateway record active and syncs;
  - "charged" syncs;
  - "cancelled" and "paused" set the gateway record and the named user's status, and cancelling also turns auto-renew off;
  - every other event writes nothing.

## Left out

- RazorpayPayment.SetGatewayStatus: the collection's natural order, which decides the document `update_one` reaches when several match, is an input (`order`), not state the model keeps up to date. A document missing from `order` is never the one written.
- RazorpayPayment.Verify: the duplicate answer carries no plan name and no expiry. A `plan_id` key stored in the notes with a null value is treated like a missing key.
- RazorpayPayment.Verify: gateway errors while fetching the subscription (400 for a bad request, 500 otherwise) are not modelled. The fetch is represented only by the plan id in its notes.
- RazorpayPayment.ProcessWebhook: a malformed payload, which raises and yields the error reply, is not modelled. The payload is given already parsed.
- SubscriptionService.CreateSubscriptionSpec: when the user already has a row, the source inserts a second document. The model keeps only the first, which every lookup by user id keeps returning.
- AdminSubscriptions.ToggleLifetime: when the update modifies nothing because the row already has every value written, the source inserts a duplicate "enterprise" document that lookups never reach. The model keeps the one row.
- AdminSubscriptions.ChangePlan: when the update modifies nothing, the source inserts a duplicate document that lookups never reach. The model keeps the one row.
- AdminSubscriptions.ChangePlan: a plan document without a `name` or a `price` makes the reply (backend/routers/admin_subscriptions.py:343-347) raise after both writes, giving 500 while the writes stay. The model has plan ids only, so every known plan answers with success.
- RazorpayRouter.IdempotencyKey: only a missing `created_at` reads as 0. A `created_at` stored as null makes `int(None)` raise inside the sync, whose catch-all turns it into a sync that writes nothing. That path is not modelled.
- AdminSubscriptions.Details: the answer's user fields and the plan's name, price and description are not modelled; only the plan id shown is.
- RazorpayRouter.HandleWebhook: a body that is not valid JSON (500) is not modelled. Payment settings without a Razorpay secret are covered by the signature oracle, since the secret is then empty.
- RazorpayRouter.PaymentCallback: the redirect URLs and the frontend base URL are left out; the outcome names the page's parameter. For a gateway answer whose notes are absent or a dictionary, only a failed fetch can end in "sync failed", because the sync itself catches and logs every error. Notes that are present but not a dictionary make the assignment of the user id (backend/routers/razorpay.py:291-293) raise, which ends in "sync failed" too; that path is not modelled.
- The processed-payment entry records only whether a subscription existed, not the stored document's object id.
- HMAC-SHA256 signature verification, for both checkout and the webhook, is a boolean input. Cryptography is outside the model.
- HTTP and FastAPI wiring, the MongoDB driver and the Razorpay SDK are not modelled. Collections are maps, and the gateway's answers are inputs.
- Instants are whole seconds. `datetime.utcnow()` is one `now` per request. Microseconds, and the small drift between the several clock reads in one request, are not modelled.
- Parsing of ISO-format date strings, which the admin router, verification and the migration accept, is not modelled. All stored instants are integers.
- Letter case is folded for ASCII letters only; Python's `str.lower` also folds other scripts.
- Subscription statuses are the four values the core writes: active, cancelled, paused and completed.
- Usage counters are maps from counter name to integer. Billing cycle, user names and e-mails, and the tracking fields the routers write are left out.
- Concurrency is not modelled. The race between the ledger lookup and the ledger insert needs parallel requests. Uniqueness of the payment id in the ledger is structural here, because the ledger is a map keyed by payment id.
- The index scripts are database configuration and are not modelled. They also disagree on the unique key: one uses the payment id alone, the other the payment id with the user id.
- The gateway checkout call in the payment router's create-subscription endpoint is not modelled; only its plan check is.
- Also not modelled: the config, subscription-status and cancel endpoints of the payment router; the create, cancel, pause, resume, fetch and sync endpoints of the subscriptions router; and the admin plan listing. All are outside this core.
- Logging and the unused result record of the calculator are left out.
- The migration visits the free rows in an arbitrary order. The source's order comes from the query, and each step touches only its own row.

## Findings

| source | as written | input that shows it | evidently intended | confidence | as-written member | corrected member |
|---|---|---|---|---|---|---|
| backend/routers/razorpay_payment.py:165-183 | verification treats a payment as a duplicate only if some subscription row's current payment id equals it, and each verification overwrites that id | an active "starter" term expiring at day 10 is verified with "pay_1" (day 40), then "pay_2" (day 70); replaying "pay_1" is accepted again and moves the expiry to day 100 | a payment id is applied at most once, whatever came after it, as the `processed_payments` ledger of the service guarantees | not executed | RazorpayPayment.VerifyReplayAfterNewerPaymentExtendsAgain | SubscriptionService.ReplayAfterOtherPaymentsIsNoOp |
| backend/routers/razorpay_payment.py:404-410 | the charged webhook has the same duplicate check on the row's latest payment id | the charged events "pay_1" then "pay_2" on the same row (day 70), then "pay_1" once more, which moves the expiry to day 100 | a redelivered charge changes nothing, as with the ledger-based processing | not executed | RazorpayPayment.WebhookReplayAfterNewerPaymentExtendsAgain | SubscriptionService.ReplayAfterOtherPaymentsIsNoOp |
