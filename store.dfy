/** The documents of the MongoDB collections this core reads and writes, the tables as one value,
    and the database object whose collections the operations update in place. */
module Store {
  import opened Common

  type UserId = string
  type PlanId = string
  type PaymentId = string

  /** The `status` values written to a subscription document. */
  datatype Status = Active | Cancelled | Paused | Completed

  datatype ActionType = New | Upgrade | Renewal | AdminChange

  /** The `payment_source` recorded on a ledger entry. */
  datatype PaymentSource = VerifyPayment | Webhook | Callback

  /** The `usage` sub-document: named counters and an optional `last_reset` instant. */
  datatype Usage = Usage(counters: map<string, int>, lastReset: Option<int>)

  /** `{}`: the usage a missing `usage` key reads as, and the one the lifetime and default rows get. */
  const EmptyUsage: Usage := Usage(map[], None)

  /** One document of `subscriptions`; every field the core reads or writes, keyed by user id. */
  datatype Subscription = Subscription(
    planId: PlanId,
    status: Status,
    startedAt: Option<int>,
    expiresAt: Field<int>,
    lifetimeAccess: Option<bool>,
    autoRenew: Option<bool>,
    usage: Usage,
    paymentId: Option<PaymentId>,             // razorpay_payment_id
    gatewaySubscriptionId: Option<string>,    // razorpay_subscription_id
    actionType: Option<ActionType>,
    adminChangedBy: Option<UserId>,
    adminChangeReason: Option<string>,
    createdAt: Option<int>,
    updatedAt: Option<int>)

  /** The row an upsert starts from when no document matches: every optional field missing. */
  const BlankSubscription: Subscription :=
    Subscription("", Active, None, Absent, None, None, EmptyUsage, None, None, None, None, None, None, None)

  /** Lifetime access: the flag is present and true. */
  predicate HasLifetimeAccess(s: Subscription) {
    s.lifetimeAccess == Some(true)
  }

  /** The fields of a `users` document this core writes. */
  datatype User = User(
    planId: Option<PlanId>,
    lifetimeAccess: Option<bool>,
    subscriptionExpiresAt: Field<int>,
    updatedAt: Option<int>)

  /** The `subscription_data` dictionary that `process_payment_idempotent` writes and records. */
  datatype PaymentWrite = PaymentWrite(
    planId: PlanId,
    startedAt: int,
    expiresAt: int,
    paymentId: PaymentId,
    actionType: ActionType,
    usage: Usage)

  /** One entry of the `processed_payments` ledger, keyed by payment id. */
  datatype ProcessedPayment = ProcessedPayment(
    userId: UserId,
    planId: PlanId,
    hadSubscription: bool,
    processedAt: int,
    expiresAt: int,
    isUpgrade: bool,
    source: PaymentSource,
    result: PaymentWrite)

  /** One document of `razorpay_subscriptions`, keyed by the gateway's subscription id. */
  datatype GatewayRecord = GatewayRecord(userId: UserId, planId: PlanId, status: string)

  /** All collections as one value. */
  datatype Tables = Tables(
    subscriptions: map<UserId, Subscription>,
    users: map<UserId, User>,
    plans: set<PlanId>,
    ledger: map<PaymentId, ProcessedPayment>,
    gatewaySubscriptions: map<string, GatewayRecord>)

  /** The outcome of an operation on the tables: the tables afterwards and what it returned. */
  datatype Transition<+R> = Transition(after: Tables, result: R)

  function FindSubscription(subs: map<UserId, Subscription>, userId: UserId): (r: Option<Subscription>)
    ensures r.Some? <==> userId in subs
    ensures r.Some? ==> r.value == subs[userId]
  {
    if userId in subs then Some(subs[userId]) else None
  }

  /** Some subscription document carries `p` as its latest payment id. */
  predicate PaymentIdOnSomeRow(subs: map<UserId, Subscription>, p: PaymentId) {
    exists u | u in subs :: subs[u].paymentId == Some(p)
  }

  /** The fields a `$set` on a `users` document may carry besides `updated_at`; None leaves a field alone. */
  datatype UserPatch = UserPatch(
    planId: Option<PlanId>,
    lifetimeAccess: Option<bool>,
    subscriptionExpiresAt: Option<Field<int>>)

  function ApplyUserPatch(u: User, patch: UserPatch, now: int): User {
    u.(planId := if patch.planId.Some? then patch.planId else u.planId,
       lifetimeAccess := if patch.lifetimeAccess.Some? then patch.lifetimeAccess else u.lifetimeAccess,
       subscriptionExpiresAt := patch.subscriptionExpiresAt.GetOr(u.subscriptionExpiresAt),
       updatedAt := Some(now))
  }

  /** A `$set` of `patch` on the user `userId`, without upsert: only an existing user changes. */
  function UpdateUser(users: map<UserId, User>, userId: UserId, patch: UserPatch, now: int): (r: map<UserId, User>)
    ensures r.Keys == users.Keys
    ensures forall u | u in users && u != userId :: r[u] == users[u]
    ensures userId in users ==> r[userId] == ApplyUserPatch(users[userId], patch, now)
  {
    if userId in users then users[userId := ApplyUserPatch(users[userId], patch, now)] else users
  }

  /** A patch that sets only `plan_id`. */
  function PlanPatch(planId: PlanId): UserPatch {
    UserPatch(Some(planId), None, None)
  }

  /** The collections of one database, updated in place by the routers and the service. */
  class Database {
    var subscriptions: map<UserId, Subscription>
    var users: map<UserId, User>
    var plans: set<PlanId>
    var processedPayments: map<PaymentId, ProcessedPayment>
    var razorpaySubscriptions: map<string, GatewayRecord>

    constructor (t: Tables)
      ensures Snapshot() == t
    {
      subscriptions := t.subscriptions;
      users := t.users;
      plans := t.plans;
      processedPayments := t.ledger;
      razorpaySubscriptions := t.gatewaySubscriptions;
    }

    function Snapshot(): Tables
      reads this
    {
      Tables(subscriptions, users, plans, processedPayments, razorpaySubscriptions)
    }
  }
}
