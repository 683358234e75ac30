/** The gateway glue of the subscriptions router: how a gateway subscription becomes a call of the
    idempotent payment processing (idempotency key, plan defaulting), where the redirect callback sends
    the user, and the signed webhook's event branches. */
module RazorpayRouter {
  import opened Common
  import opened Store
  import opened SubscriptionService

  /** The fields of a gateway subscription entity the router reads. `notesPlanId` and `notesPlanName` are
      None when the key is missing from `notes`; `status` is the gateway's subscription status. */
  datatype GatewayEntity = GatewayEntity(
    subscriptionId: Option<string>,
    notesUserId: Option<UserId>,
    notesPlanId: Option<PlanId>,
    notesPlanName: Option<PlanId>,
    createdAt: Option<int>,
    status: Option<string>)

  /** Python string formatting of an optional string: None renders as "None". */
  function PyStr(x: Option<string>): string {
    if x.Some? then x.value else "None"
  }

  /** The idempotency key of a sync: the payment id when it is non-empty, else "webhook_", the subscription id,
      "_" and the entity's creation time, 0 when missing. */
  function IdempotencyKey(paymentId: Option<PaymentId>, subscriptionId: Option<string>, createdAt: Option<int>): (k: PaymentId)
    ensures Truthy(paymentId) ==> k == paymentId.value
    ensures !Truthy(paymentId) ==> k == "webhook_" + PyStr(subscriptionId) + "_" + IntToDecimal(createdAt.GetOr(0))
  {
    if Truthy(paymentId) then paymentId.value
    else "webhook_" + PyStr(subscriptionId) + "_" + IntToDecimal(createdAt.GetOr(0))
  }

  /** The plan of a synced subscription: the `plan_id` of the notes when the key is present, even when empty,
      else their `plan_name`, else "starter". */
  function ResolvePlanId(e: GatewayEntity): (p: PlanId)
    ensures e.notesPlanId.Some? ==> p == e.notesPlanId.value
    ensures e.notesPlanId.None? && e.notesPlanName.Some? ==> p == e.notesPlanName.value
    ensures e.notesPlanId.None? && e.notesPlanName.None? ==> p == "starter"
  {
    e.notesPlanId.GetOr(e.notesPlanName.GetOr("starter"))
  }

  /** `sync_subscription_to_main_collection`: without a user id in the notes nothing happens; otherwise the
      payment is processed under its idempotency key with source "webhook", and then the user's
      subscription row, if any, records the gateway subscription id. */
  function Sync(t: Tables, e: GatewayEntity, paymentId: Option<PaymentId>, now: int): (r: Tables)
    ensures !Truthy(e.notesUserId) ==> r == t
    ensures Truthy(e.notesUserId) ==>
      var u := e.notesUserId.value;
      var key := IdempotencyKey(paymentId, e.subscriptionId, e.createdAt);
      var p := ProcessPayment(t, key, u, ResolvePlanId(e), Webhook, now).after;
      && key in r.ledger && r.ledger == p.ledger && r.users == p.users && r.plans == t.plans
      && r.gatewaySubscriptions == t.gatewaySubscriptions
      && r.subscriptions.Keys == p.subscriptions.Keys
      && (u in p.subscriptions ==> r.subscriptions[u] == p.subscriptions[u].(gatewaySubscriptionId := e.subscriptionId))
      && (forall v | v in p.subscriptions && v != u :: r.subscriptions[v] == p.subscriptions[v])
  {
    if !Truthy(e.notesUserId) then t
    else
      var u := e.notesUserId.value;
      var key := IdempotencyKey(paymentId, e.subscriptionId, e.createdAt);
      var p := ProcessPayment(t, key, u, ResolvePlanId(e), Webhook, now).after;
      if u in p.subscriptions then
        p.(subscriptions := p.subscriptions[u := p.subscriptions[u].(gatewaySubscriptionId := e.subscriptionId)])
      else p
  }

  /** The query of the redirect back from the gateway's payment page. */
  datatype CallbackQuery = CallbackQuery(
    subscriptionId: Option<string>,
    paymentId: Option<PaymentId>,
    userId: Option<UserId>,
    razorpaySubscriptionId: Option<string>,
    razorpayPaymentId: Option<PaymentId>,
    linkStatus: Option<string>)

  /** What fetching the subscription from the gateway gave. */
  datatype Fetch = Fetched(entity: GatewayEntity) | FetchFailed

  /** The `error=` or `success=` of the page the callback redirects to. */
  datatype CallbackOutcome = UserCancelled | Success(subscriptionId: string) | PaymentFailed | SyncFailed

  predicate IsPaidStatus(status: Option<string>) {
    status == Some("active") || status == Some("authenticated")
  }

  /** `payment_callback`'s routing. A sync happens exactly on success. */
  function RouteCallback(q: CallbackQuery, fetched: Fetch): (o: CallbackOutcome)
    ensures q.linkStatus == Some("cancelled") ==> o == UserCancelled
    ensures o.Success? <==>
      q.linkStatus != Some("cancelled") && Truthy(Or(q.subscriptionId, q.razorpaySubscriptionId)) && Truthy(q.userId)
      && fetched.Fetched? && IsPaidStatus(fetched.entity.status)
    ensures o.Success? ==> o.subscriptionId == Or(q.subscriptionId, q.razorpaySubscriptionId).value
    ensures o == SyncFailed <==>
      q.linkStatus != Some("cancelled") && Truthy(Or(q.subscriptionId, q.razorpaySubscriptionId)) && Truthy(q.userId)
      && fetched.FetchFailed?
    ensures o == UserCancelled <==> q.linkStatus == Some("cancelled")
  {
    if q.linkStatus == Some("cancelled") then UserCancelled
    else
      var sub := Or(q.subscriptionId, q.razorpaySubscriptionId);
      if Truthy(sub) && Truthy(q.userId) then
        match fetched
        case FetchFailed => SyncFailed
        case Fetched(e) =>
          if IsPaidStatus(e.status) then Success(sub.value)
          // halted, cancelled, expired, and any other status, all end as payment_failed
          else PaymentFailed
      else PaymentFailed
  }

  /** The entity the callback syncs: the fetched one, with the callback's user id in its notes. */
  function CallbackEntity(q: CallbackQuery, e: GatewayEntity): GatewayEntity {
    e.(notesUserId := q.userId)
  }

  /** `payment_callback`: the routing, plus on success a sync keyed by the callback's payment id. */
  function PaymentCallback(t: Tables, q: CallbackQuery, fetched: Fetch, now: int): (r: Transition<CallbackOutcome>)
    ensures r.result == RouteCallback(q, fetched)
    ensures !r.result.Success? ==> r.after == t
    ensures r.result.Success? ==>
      r.after == Sync(t, CallbackEntity(q, fetched.entity), Or(q.paymentId, q.razorpayPaymentId), now)
  {
    var o := RouteCallback(q, fetched);
    if o.Success? then
      Transition(Sync(t, CallbackEntity(q, fetched.entity), Or(q.paymentId, q.razorpayPaymentId), now), o)
    else Transition(t, o)
  }

  /** A webhook delivery: the signature header, whether it matches the body's digest (an oracle), whether
      payment settings exist, and the parsed event. */
  datatype WebhookRequest = WebhookRequest(
    signature: Option<string>,
    signatureMatches: bool,
    settingsPresent: bool,
    event: string,
    entity: GatewayEntity,
    paymentId: Option<PaymentId>)

  /** The status write on the `razorpay_subscriptions` record of the gateway id, if there is one. */
  function SetRecordStatus(records: map<string, GatewayRecord>, id: Option<string>, status: string)
    : (r: map<string, GatewayRecord>)
    ensures r.Keys == records.Keys
    ensures forall k | k in records :: r[k] == if id == Some(k) then records[k].(status := status) else records[k]
  {
    if id.Some? && id.value in records then records[id.value := records[id.value].(status := status)] else records
  }

  /** The cancelled and paused branches' write to the user's subscription, when the notes name a user. */
  function SetUserStatus(subs: map<UserId, Subscription>, userId: Option<UserId>, status: Status, clearAutoRenew: bool)
    : (r: map<UserId, Subscription>)
    ensures r.Keys == subs.Keys
    ensures forall u | u in subs :: r[u] == if Truthy(userId) && u == userId.value
                                            then subs[u].(status := status,
                                                          autoRenew := if clearAutoRenew then Some(false) else subs[u].autoRenew)
                                            else subs[u]
  {
    if Truthy(userId) && userId.value in subs then
      var s := subs[userId.value];
      subs[userId.value := s.(status := status, autoRenew := if clearAutoRenew then Some(false) else s.autoRenew)]
    else subs
  }

  /** `handle_webhook`: 400 without a signature, 500 without payment settings, 401 for a mismatch, all
      before any write; then the activated and charged events sync, and the cancelled and paused events
      set the gateway record and the named user's subscription. */
  function HandleWebhook(t: Tables, w: WebhookRequest, now: int): (r: Transition<Response<bool>>)
    ensures !Truthy(w.signature) ==> r == Transition(t, HttpError(400))
    ensures Truthy(w.signature) && !w.settingsPresent ==> r == Transition(t, HttpError(500))
    ensures Truthy(w.signature) && w.settingsPresent && !w.signatureMatches ==> r == Transition(t, HttpError(401))
    ensures r.result.Ok? <==> Truthy(w.signature) && w.settingsPresent && w.signatureMatches
    ensures r.result.Ok? ==> r.result.value
    ensures r.result.Ok? && w.event == "subscription.activated" ==>
      r.after == Sync(t.(gatewaySubscriptions := SetRecordStatus(t.gatewaySubscriptions, w.entity.subscriptionId, "active")),
                      w.entity, w.paymentId, now)
    ensures r.result.Ok? && w.event == "subscription.charged" ==> r.after == Sync(t, w.entity, w.paymentId, now)
    ensures r.result.Ok? && w.event == "subscription.cancelled" ==>
      r.after == t.(gatewaySubscriptions := SetRecordStatus(t.gatewaySubscriptions, w.entity.subscriptionId, "cancelled"),
                    subscriptions := SetUserStatus(t.subscriptions, w.entity.notesUserId, Cancelled, true))
    ensures r.result.Ok? && w.event == "subscription.paused" ==>
      r.after == t.(gatewaySubscriptions := SetRecordStatus(t.gatewaySubscriptions, w.entity.subscriptionId, "paused"),
                    subscriptions := SetUserStatus(t.subscriptions, w.entity.notesUserId, Paused, false))
    ensures w.event !in {"subscription.activated", "subscription.charged", "subscription.cancelled", "subscription.paused"} ==>
      r.after == t
  {
    if !Truthy(w.signature) then Transition(t, HttpError(400))
    else if !w.settingsPresent then Transition(t, HttpError(500))
    else if !w.signatureMatches then Transition(t, HttpError(401))
    else
      var t' :=
        if w.event == "subscription.activated" then
          Sync(t.(gatewaySubscriptions := SetRecordStatus(t.gatewaySubscriptions, w.entity.subscriptionId, "active")),
               w.entity, w.paymentId, now)
        else if w.event == "subscription.charged" then Sync(t, w.entity, w.paymentId, now)
        else if w.event == "subscription.cancelled" then
          t.(gatewaySubscriptions := SetRecordStatus(t.gatewaySubscriptions, w.entity.subscriptionId, "cancelled"),
             subscriptions := SetUserStatus(t.subscriptions, w.entity.notesUserId, Cancelled, true))
        else if w.event == "subscription.paused" then
          t.(gatewaySubscriptions := SetRecordStatus(t.gatewaySubscriptions, w.entity.subscriptionId, "paused"),
             subscriptions := SetUserStatus(t.subscriptions, w.entity.notesUserId, Paused, false))
        else t;
      Transition(t', Ok(true))
  }

  // ---------------------------------------------------------------------------------------------
  // Properties

  /** The decimal part of a fallback key holds no underscore. */
  lemma NoSeparatorInDecimal(i: int)
    ensures '_' !in IntToDecimal(i)
  {
    var d := IntToDecimal(i);
    assert forall k | 0 <= k < |d| :: d[k] != '_';
  }

  /** Fallback keys are injective: two deliveries without a payment id share a key only when they carry the
      same subscription id and the same creation time. */
  lemma FallbackKeysInjective(s1: Option<string>, c1: Option<int>, s2: Option<string>, c2: Option<int>)
    requires IdempotencyKey(None, s1, c1) == IdempotencyKey(None, s2, c2)
    ensures PyStr(s1) == PyStr(s2) && c1.GetOr(0) == c2.GetOr(0)
  {
    var a1, b1 := "webhook_" + PyStr(s1), IntToDecimal(c1.GetOr(0));
    var a2, b2 := "webhook_" + PyStr(s2), IntToDecimal(c2.GetOr(0));
    NoSeparatorInDecimal(c1.GetOr(0));
    NoSeparatorInDecimal(c2.GetOr(0));
    assert a1 + ['_'] + b1 == a2 + ['_'] + b2;
    SplitAtLastSeparator(a1, b1, a2, b2, '_');
    assert PyStr(s1) == a1[8..] == a2[8..] == PyStr(s2);
    IntToDecimalInjective(c1.GetOr(0), c2.GetOr(0));
  }

  /** A fallback key starts with "webhook_", so it never equals a gateway payment id that does not. */
  lemma FallbackKeyPrefix(paymentId: Option<PaymentId>, s: Option<string>, c: Option<int>)
    requires !Truthy(paymentId)
    ensures var k := IdempotencyKey(paymentId, s, c); |k| >= 8 && k[..8] == "webhook_"
  {
  }

  /** Delivering the same entity and payment id again, as the activated and charged webhooks and the
      callback do for one first payment, leaves the tables as the first delivery left them. */
  lemma SyncIsIdempotent(t: Tables, e: GatewayEntity, paymentId: Option<PaymentId>, now: int, later: int)
    ensures Sync(Sync(t, e, paymentId, now), e, paymentId, later) == Sync(t, e, paymentId, now)
  {
    if Truthy(e.notesUserId) {
      var u := e.notesUserId.value;
      var key := IdempotencyKey(paymentId, e.subscriptionId, e.createdAt);
      var t1 := Sync(t, e, paymentId, now);
      assert key in t1.ledger;
      var p := ProcessPayment(t1, key, u, ResolvePlanId(e), Webhook, later).after;
      assert p == t1;
      if u in t1.subscriptions {
        assert t1.subscriptions[u].gatewaySubscriptionId == e.subscriptionId;
        assert t1.subscriptions[u := t1.subscriptions[u].(gatewaySubscriptionId := e.subscriptionId)] == t1.subscriptions;
      }
    }
  }

  /** A first sync of a payment gives the user the resolved plan, active, with the gateway subscription id
      recorded, and the ledger entry names the webhook as source. */
  lemma SyncOfNewPayment(t: Tables, e: GatewayEntity, paymentId: Option<PaymentId>, now: int)
    requires Truthy(e.notesUserId)
    requires IdempotencyKey(paymentId, e.subscriptionId, e.createdAt) !in t.ledger
    ensures var r := Sync(t, e, paymentId, now);
            var u := e.notesUserId.value;
            var key := IdempotencyKey(paymentId, e.subscriptionId, e.createdAt);
            && u in r.subscriptions
            && r.subscriptions[u].planId == ResolvePlanId(e) && r.subscriptions[u].status == Active
            && r.subscriptions[u].paymentId == Some(key)
            && r.subscriptions[u].gatewaySubscriptionId == e.subscriptionId
            && r.ledger[key].source == Webhook && r.ledger[key].userId == u
  {
  }

  /** A rejected webhook never reaches the tables. */
  lemma RejectedWebhookChangesNothing(t: Tables, w: WebhookRequest, now: int)
    ensures HandleWebhook(t, w, now).result.HttpError? ==> HandleWebhook(t, w, now).after == t
  {
  }

  /** The router's handlers, performed in place on one database through the subscription service. */
  class GatewayRouter {
    const db: Database
    const service: PaymentProcessor

    ghost predicate Valid() reads this, service {
      service.db == db
    }

    constructor (db: Database)
      ensures this.db == db && Valid()
    {
      this.db := db;
      service := new PaymentProcessor(db);
    }

    method SyncSubscriptionToMainCollection(e: GatewayEntity, paymentId: Option<PaymentId>, now: int)
      requires Valid()
      modifies db
      ensures db.Snapshot() == Sync(old(db.Snapshot()), e, paymentId, now)
    {
      if !Truthy(e.notesUserId) {
        return;
      }
      var u := e.notesUserId.value;
      var key := IdempotencyKey(paymentId, e.subscriptionId, e.createdAt);
      var _ := service.ProcessPaymentIdempotent(key, u, ResolvePlanId(e), Webhook, now);
      if u in db.subscriptions {
        db.subscriptions := db.subscriptions[u := db.subscriptions[u].(gatewaySubscriptionId := e.subscriptionId)];
      }
    }

    method HandlePaymentCallback(q: CallbackQuery, fetched: Fetch, now: int) returns (o: CallbackOutcome)
      requires Valid()
      modifies db
      ensures db.Snapshot() == PaymentCallback(old(db.Snapshot()), q, fetched, now).after
      ensures o == PaymentCallback(old(db.Snapshot()), q, fetched, now).result
    {
      o := RouteCallback(q, fetched);
      if o.Success? {
        SyncSubscriptionToMainCollection(CallbackEntity(q, fetched.entity), Or(q.paymentId, q.razorpayPaymentId), now);
      }
    }

    method HandleWebhookRequest(w: WebhookRequest, now: int) returns (r: Response<bool>)
      requires Valid()
      modifies db
      ensures db.Snapshot() == HandleWebhook(old(db.Snapshot()), w, now).after
      ensures r == HandleWebhook(old(db.Snapshot()), w, now).result
    {
      if !Truthy(w.signature) {
        return HttpError(400);
      }
      if !w.settingsPresent {
        return HttpError(500);
      }
      if !w.signatureMatches {
        return HttpError(401);
      }
      if w.event == "subscription.activated" {
        db.razorpaySubscriptions := SetRecordStatus(db.razorpaySubscriptions, w.entity.subscriptionId, "active");
        SyncSubscriptionToMainCollection(w.entity, w.paymentId, now);
      } else if w.event == "subscription.charged" {
        SyncSubscriptionToMainCollection(w.entity, w.paymentId, now);
      } else if w.event == "subscription.cancelled" {
        db.razorpaySubscriptions := SetRecordStatus(db.razorpaySubscriptions, w.entity.subscriptionId, "cancelled");
        db.subscriptions := SetUserStatus(db.subscriptions, w.entity.notesUserId, Cancelled, true);
      } else if w.event == "subscription.paused" {
        db.razorpaySubscriptions := SetRecordStatus(db.razorpaySubscriptions, w.entity.subscriptionId, "paused");
        db.subscriptions := SetUserStatus(db.subscriptions, w.entity.notesUserId, Paused, false);
      }
      r := Ok(true);
    }
  }
}
