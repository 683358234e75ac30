/** The Razorpay payment router: plan-id mapping for checkout, payment verification and the payment
    webhook. It keeps its own, older copy of the expiry rules: plans compared exactly, a renewal only of
    an active row, 30 days for every plan, and duplicates recognised by the payment id stored on a
    subscription row instead of the `processed_payments` ledger. */
module RazorpayPayment {
  import opened Common
  import opened Store
  import opened DurationCalculator
  import SubscriptionService

  /** The gateway plan ids read from the environment, "" when unset. */
  datatype GatewayConfig = GatewayConfig(starterPlanId: string, professionalPlanId: string)

  /** `get_razorpay_plan_id`: the gateway plan of "starter" or "professional" in any letter case, else "". */
  function RazorpayPlanId(planId: PlanId, config: GatewayConfig): (r: string)
    ensures Lower(planId) == "starter" ==> r == config.starterPlanId
    ensures Lower(planId) == "professional" ==> r == config.professionalPlanId
    ensures Lower(planId) != "starter" && Lower(planId) != "professional" ==> r == ""
  {
    if Lower(planId) == "starter" then config.starterPlanId
    else if Lower(planId) == "professional" then config.professionalPlanId
    else ""
  }

  /** The plan check of `create_subscription`: 400 unless the plan maps to a configured gateway plan. */
  function CheckoutPlan(planId: PlanId, config: GatewayConfig): (r: Response<string>)
    ensures r.HttpError? <==> RazorpayPlanId(planId, config) == ""
    ensures r.HttpError? ==> r.status == 400
    ensures r.Ok? ==> r.value != "" && (r.value == config.starterPlanId || r.value == config.professionalPlanId)
  {
    var gatewayPlan := RazorpayPlanId(planId, config);
    if gatewayPlan == "" then HttpError(400) else Ok(gatewayPlan)
  }

  /** The expiry `verify_payment` writes: 30 days from now, or 30 days past the current expiry when the row
      is an active, unexpired term of exactly the same plan. */
  function VerifyExpiry(current: Option<Subscription>, planId: PlanId, now: int): (r: int)
    ensures r > now
    ensures (current.Some? && current.value.planId == planId && current.value.status == Active
             && current.value.expiresAt.Get().Some? && current.value.expiresAt.value > now) ==>
            r == current.value.expiresAt.value + Days(PAID_PLAN_DURATION)
    ensures !(current.Some? && current.value.planId == planId && current.value.status == Active
              && current.value.expiresAt.Get().Some? && current.value.expiresAt.value > now) ==>
            r == now + Days(PAID_PLAN_DURATION)
  {
    var freshExpiry := now + Days(30);
    var isRenewal := current.Some? && current.value.planId == planId;
    if isRenewal && current.value.status == Active && current.value.expiresAt.Get().Some? then
      var currentExpires := current.value.expiresAt.value;
      if currentExpires > now then currentExpires + Days(30) else freshExpiry
    else
      freshExpiry
  }

  /** The counters of the row `verify_payment` inserts. */
  const VerifyZeroUsage: Usage :=
    Usage(map["chatbots" := 0, "messages" := 0, "file_uploads" := 0, "website_sources" := 0, "text_sources" := 0], None)

  datatype VerifyOutcome = AlreadyVerified | Activated(planId: PlanId, expiresAt: int)

  /** `verify_payment`. The signature check is the oracle `signatureValid`; `notesPlanId` is the `plan_id`
      in the notes of the subscription fetched from the gateway. A payment id already stored on some row
      answers success without a write; then a bad signature is 400 and an unknown plan 404, also without
      a write. Otherwise the user's row is updated, or inserted with zeroed usage, and the user's plan set. */
  function Verify(t: Tables, userId: UserId, subscriptionId: string, paymentId: PaymentId, signatureValid: bool,
                  notesPlanId: Option<PlanId>, now: int): (r: Transition<Response<VerifyOutcome>>)
    ensures PaymentIdOnSomeRow(t.subscriptions, paymentId) ==> r == Transition(t, Ok(AlreadyVerified))
    ensures !PaymentIdOnSomeRow(t.subscriptions, paymentId) && !signatureValid ==> r == Transition(t, HttpError(400))
    ensures !PaymentIdOnSomeRow(t.subscriptions, paymentId) && signatureValid && notesPlanId.GetOr("starter") !in t.plans ==>
      r == Transition(t, HttpError(404))
    ensures !PaymentIdOnSomeRow(t.subscriptions, paymentId) && signatureValid && notesPlanId.GetOr("starter") in t.plans ==>
      var planId := notesPlanId.GetOr("starter");
      var current := FindSubscription(t.subscriptions, userId);
      && r.result == Ok(Activated(planId, VerifyExpiry(current, planId, now)))
      && userId in r.after.subscriptions
      && var s := r.after.subscriptions[userId];
      && s.planId == planId && s.status == Active && s.startedAt == Some(now)
      && s.expiresAt == Set(VerifyExpiry(current, planId, now))
      && s.autoRenew == Some(true) && s.paymentId == Some(paymentId)
      && s.gatewaySubscriptionId == Some(subscriptionId) && s.updatedAt == Some(now)
      && (current.Some? ==> s.usage == current.value.usage && s.createdAt == current.value.createdAt
                            && s.lifetimeAccess == current.value.lifetimeAccess)
      && (current.None? ==> s.usage == VerifyZeroUsage && s.createdAt == Some(now))
      && r.after.subscriptions.Keys == t.subscriptions.Keys + {userId}
      && (forall u | u in t.subscriptions && u != userId :: r.after.subscriptions[u] == t.subscriptions[u])
      && r.after.users == UpdateUser(t.users, userId, PlanPatch(planId), now)
      && r.after.ledger == t.ledger && r.after.plans == t.plans
      && r.after.gatewaySubscriptions == t.gatewaySubscriptions
  {
    if PaymentIdOnSomeRow(t.subscriptions, paymentId) then Transition(t, Ok(AlreadyVerified))
    else if !signatureValid then Transition(t, HttpError(400))
    else
      var planId := notesPlanId.GetOr("starter");
      if planId !in t.plans then Transition(t, HttpError(404))
      else
        var current := FindSubscription(t.subscriptions, userId);
        var expiresAt := VerifyExpiry(current, planId, now);
        var base := if current.Some? then current.value
                    else BlankSubscription.(createdAt := Some(now), usage := VerifyZeroUsage);
        var row := base.(planId := planId, status := Active, startedAt := Some(now), expiresAt := Set(expiresAt),
                         autoRenew := Some(true), gatewaySubscriptionId := Some(subscriptionId),
                         paymentId := Some(paymentId), updatedAt := Some(now));
        Transition(t.(subscriptions := t.subscriptions[userId := row],
                      users := UpdateUser(t.users, userId, PlanPatch(planId), now)),
                   Ok(Activated(planId, expiresAt)))
  }

  /** The parts of a webhook payload the router reads. `paymentId` is the id of the payment entity, if any. */
  datatype WebhookPayload = WebhookPayload(event: string, subscriptionId: Option<string>, notesUserId: Option<UserId>,
                                           notesPlanId: Option<PlanId>, paymentId: Option<PaymentId>)

  /** The webhook's answers: success, the duplicate acknowledgement, and error. */
  datatype WebhookReply = Accepted | AlreadyProcessed | Failed

  /** A charge is an upgrade when the notes carry a non-empty plan id that differs, letter case included, from
      the stored one; a charge without a plan id is a renewal. */
  predicate IsChargeUpgrade(oldPlanId: PlanId, planId: Option<PlanId>) {
    Truthy(planId) && oldPlanId != planId.value
  }

  /** The expiry of a charged renewal or upgrade; None where the comparison with a stored null raises. */
  function ChargedExpiry(s: Subscription, planId: Option<PlanId>, now: int): (r: Option<int>)
    ensures IsChargeUpgrade(s.planId, planId) ==> r == Some(now + Days(PAID_PLAN_DURATION))
    ensures !IsChargeUpgrade(s.planId, planId) ==>
      match s.expiresAt
      case Absent => r == Some(now + Days(PAID_PLAN_DURATION))
      case Null => r.None?
      case Set(e) => r == Some(Max(now, e) + Days(PAID_PLAN_DURATION))
  {
    if IsChargeUpgrade(s.planId, planId) then Some(now + Days(30))
    else
      // a missing expiry reads as now; a stored null cannot be compared with now
      match s.expiresAt
      case Absent => Some(now + Days(30))
      case Null => None
      case Set(e) => if e > now then Some(e + Days(30)) else Some(now + Days(30))
  }

  /** Whether the row of `u` is matched by the filter on the gateway subscription id (a missing id matches
      the rows without one). */
  predicate MatchesGatewayId(subs: map<UserId, Subscription>, gatewayId: Option<string>, u: UserId) {
    u in subs && subs[u].gatewaySubscriptionId == gatewayId
  }

  /** The position in `order`, the collection's natural order, of the first document that filter matches;
      `|order|` when there is none. */
  function FirstMatchIndex(subs: map<UserId, Subscription>, gatewayId: Option<string>, order: seq<UserId>)
    : (k: nat)
    ensures k <= |order|
    ensures k < |order| ==> MatchesGatewayId(subs, gatewayId, order[k])
    ensures forall j | 0 <= j < k :: !MatchesGatewayId(subs, gatewayId, order[j])
    decreases |order|
  {
    if order == [] then 0
    else if MatchesGatewayId(subs, gatewayId, order[0]) then 0
    else 1 + FirstMatchIndex(subs, gatewayId, order[1..])
  }

  /** The document `update_one` reaches with that filter, if any. */
  function FirstMatch(subs: map<UserId, Subscription>, gatewayId: Option<string>, order: seq<UserId>)
    : (r: Option<UserId>)
    ensures r.Some? ==> MatchesGatewayId(subs, gatewayId, r.value)
    ensures r.None? <==> forall i | 0 <= i < |order| :: !MatchesGatewayId(subs, gatewayId, order[i])
  {
    var k := FirstMatchIndex(subs, gatewayId, order);
    if k < |order| then Some(order[k]) else None
  }

  /** The status row of a cancelled or completed subscription. */
  function WithGatewayStatus(s: Subscription, status: Status, now: int): (r: Subscription)
    ensures r.status == status && r.autoRenew == Some(false) && r.updatedAt == Some(now)
    ensures r.(status := s.status, autoRenew := s.autoRenew, updatedAt := s.updatedAt) == s
  {
    s.(status := status, autoRenew := Some(false), updatedAt := Some(now))
  }

  /** `update_one` on the gateway subscription id: the `$set` of status, `auto_renew` false and `updated_at`
      on the first matching document, and no write when none matches. */
  function SetGatewayStatus(subs: map<UserId, Subscription>, gatewayId: Option<string>, order: seq<UserId>,
                            status: Status, now: int)
    : (r: map<UserId, Subscription>)
    ensures r.Keys == subs.Keys
    ensures FirstMatch(subs, gatewayId, order).None? ==> r == subs
    ensures FirstMatch(subs, gatewayId, order).Some? ==>
      var u := FirstMatch(subs, gatewayId, order).value;
      r == subs[u := WithGatewayStatus(subs[u], status, now)]
  {
    match FirstMatch(subs, gatewayId, order)
    case None => subs
    case Some(u) => subs[u := WithGatewayStatus(subs[u], status, now)]
  }

  /** The `subscription.charged` branch. */
  function Charged(t: Tables, p: WebhookPayload, now: int): (r: Transition<WebhookReply>)
    ensures !Truthy(p.notesUserId) || !Truthy(p.paymentId) ==> r == Transition(t, Accepted)
    ensures Truthy(p.notesUserId) && Truthy(p.paymentId) && PaymentIdOnSomeRow(t.subscriptions, p.paymentId.value) ==>
      r == Transition(t, AlreadyProcessed)
    ensures (Truthy(p.notesUserId) && Truthy(p.paymentId) && !PaymentIdOnSomeRow(t.subscriptions, p.paymentId.value)
             && p.notesUserId.value !in t.subscriptions) ==> r == Transition(t, Accepted)
    ensures (Truthy(p.notesUserId) && Truthy(p.paymentId) && !PaymentIdOnSomeRow(t.subscriptions, p.paymentId.value)
             && p.notesUserId.value in t.subscriptions) ==>
      var u := p.notesUserId.value;
      var s := t.subscriptions[u];
      match ChargedExpiry(s, p.notesPlanId, now)
      case None => r == Transition(t, Failed)
      case Some(e) =>
        && r.result == Accepted
        && r.after == t.(subscriptions := t.subscriptions[u := s.(
             expiresAt := Set(e), status := Active, paymentId := p.paymentId,
             gatewaySubscriptionId := p.subscriptionId,
             planId := if Truthy(p.notesPlanId) then p.notesPlanId.value else s.planId,
             updatedAt := Some(now))])
  {
    if !(Truthy(p.notesUserId) && Truthy(p.paymentId)) then Transition(t, Accepted)
    else if PaymentIdOnSomeRow(t.subscriptions, p.paymentId.value) then Transition(t, AlreadyProcessed)
    else if p.notesUserId.value !in t.subscriptions then Transition(t, Accepted)
    else
      var u := p.notesUserId.value;
      var s := t.subscriptions[u];
      var e := ChargedExpiry(s, p.notesPlanId, now);
      if e.None? then Transition(t, Failed)
      else
        var row := s.(expiresAt := Set(e.value), status := Active, paymentId := p.paymentId,
                      gatewaySubscriptionId := p.subscriptionId,
                      planId := if Truthy(p.notesPlanId) then p.notesPlanId.value else s.planId,
                      updatedAt := Some(now));
        Transition(t.(subscriptions := t.subscriptions[u := row]), Accepted)
  }

  /** `razorpay_webhook`: the charged, cancelled and completed events; any other event is acknowledged
      without a write. `order` is the natural order of the subscription documents. */
  function ProcessWebhook(t: Tables, p: WebhookPayload, order: seq<UserId>, now: int): (r: Transition<WebhookReply>)
    ensures p.event == "subscription.charged" ==> r == Charged(t, p, now)
    ensures p.event == "subscription.cancelled" ==>
      r == Transition(t.(subscriptions := SetGatewayStatus(t.subscriptions, p.subscriptionId, order, Cancelled, now)), Accepted)
    ensures p.event == "subscription.completed" ==>
      r == Transition(t.(subscriptions := SetGatewayStatus(t.subscriptions, p.subscriptionId, order, Completed, now)), Accepted)
    ensures p.event !in {"subscription.charged", "subscription.cancelled", "subscription.completed"} ==>
      r == Transition(t, Accepted)
    ensures r.after.users == t.users && r.after.ledger == t.ledger && r.after.plans == t.plans
    ensures r.after.gatewaySubscriptions == t.gatewaySubscriptions
  {
    if p.event == "subscription.charged" then Charged(t, p, now)
    else if p.event == "subscription.cancelled" then
      Transition(t.(subscriptions := SetGatewayStatus(t.subscriptions, p.subscriptionId, order, Cancelled, now)), Accepted)
    else if p.event == "subscription.completed" then
      Transition(t.(subscriptions := SetGatewayStatus(t.subscriptions, p.subscriptionId, order, Completed, now)), Accepted)
    else Transition(t, Accepted)
  }

  // ---------------------------------------------------------------------------------------------
  // Properties

  /** Where the router and the calculator agree, and two inputs where they do not: a plan id differing only
      in letter case, and a paused term, both lose their remaining time here and keep it there. */
  lemma VerifyExpiryVersusCalculator(current: Subscription, planId: PlanId, now: int)
    ensures current.planId == planId && current.status == Active ==>
      VerifyExpiry(Some(current), planId, now) == CalculateExpiration(Renewal, planId, Some(current), now)
    ensures IsPlanUpgrade(current.planId, planId) && PlanDuration(planId) == PAID_PLAN_DURATION ==>
      VerifyExpiry(Some(current), planId, now) == CalculateExpiration(Upgrade, planId, Some(current), now)
    ensures var s := current.(planId := "Starter", status := Active, expiresAt := Set(now + Days(10)));
      VerifyExpiry(Some(s), "starter", now) == now + Days(30)
      && CalculateExpiration(Renewal, "starter", Some(s), now) == now + Days(40)
    ensures var s := current.(planId := "starter", status := Paused, expiresAt := Set(now + Days(10)));
      VerifyExpiry(Some(s), "starter", now) == now + Days(30)
      && CalculateExpiration(Renewal, "starter", Some(s), now) == now + Days(40)
  {
    assert "Starter" != "starter";
  }

  /** A charged renewal agrees with the calculator's renewal, a missing expiry counting as now; a charged
      upgrade to a paid plan agrees with the calculator's upgrade. */
  lemma ChargedExpiryVersusCalculator(s: Subscription, planId: Option<PlanId>, now: int)
    ensures !IsChargeUpgrade(s.planId, planId) && s.expiresAt.Set? ==>
      ChargedExpiry(s, planId, now) == Some(CalculateExpiration(Renewal, s.planId, Some(s), now))
    ensures IsChargeUpgrade(s.planId, planId) && PlanDuration(planId.value) == PAID_PLAN_DURATION ==>
      ChargedExpiry(s, planId, now) == Some(CalculateExpiration(Upgrade, planId.value, Some(s), now))
    ensures !IsChargeUpgrade(s.planId, planId) && s.expiresAt.Absent? ==>
      ChargedExpiry(s, planId, now) == Some(CalculateExpiration(Renewal, s.planId, Some(s), now))
  {
  }

  /** Whether a payment id was seen is read off the subscription rows, so it survives only while it is the
      latest payment id of some row. */
  lemma VerifyMarksPaymentSeen(t: Tables, userId: UserId, subscriptionId: string, paymentId: PaymentId,
                               notesPlanId: Option<PlanId>, now: int)
    requires !PaymentIdOnSomeRow(t.subscriptions, paymentId) && notesPlanId.GetOr("starter") in t.plans
    ensures var t' := Verify(t, userId, subscriptionId, paymentId, true, notesPlanId, now).after;
            PaymentIdOnSomeRow(t'.subscriptions, paymentId)
            && Verify(t', userId, subscriptionId, paymentId, true, notesPlanId, now) == Transition(t', Ok(AlreadyVerified))
  {
    var t' := Verify(t, userId, subscriptionId, paymentId, true, notesPlanId, now).after;
    assert t'.subscriptions[userId].paymentId == Some(paymentId);
  }

  /** The tables of the replay example: one active starter term of ten days. */
  function ReplayExampleTables(): Tables {
    var row := BlankSubscription.(planId := "starter", status := Active, expiresAt := Set(Days(10)));
    Tables(map["u" := row], map[], {"starter"}, map[], map[])
  }

  /** As written: after payment "pay_1" and then "pay_2", a replay of "pay_1" is not recognised and extends
      the term a third time. */
  lemma VerifyReplayAfterNewerPaymentExtendsAgain()
    ensures var t1 := Verify(ReplayExampleTables(), "u", "sub_1", "pay_1", true, Some("starter"), 0).after;
            var t2 := Verify(t1, "u", "sub_1", "pay_2", true, Some("starter"), 0).after;
            var t3 := Verify(t2, "u", "sub_1", "pay_1", true, Some("starter"), 0);
            && t1.subscriptions["u"].expiresAt == Set(Days(40))
            && t2.subscriptions["u"].expiresAt == Set(Days(70))
            && t3.result == Ok(Activated("starter", Days(100)))
            && t3.after.subscriptions["u"].expiresAt == Set(Days(100))
  {
    var t0 := ReplayExampleTables();
    var t1 := Verify(t0, "u", "sub_1", "pay_1", true, Some("starter"), 0).after;
    assert !PaymentIdOnSomeRow(t0.subscriptions, "pay_1") by {
      assert t0.subscriptions.Keys == {"u"};
    }
    assert t1.subscriptions.Keys == {"u"};
    assert t1.subscriptions["u"].paymentId == Some("pay_1");
    assert !PaymentIdOnSomeRow(t1.subscriptions, "pay_2") by {
      assert "pay_1" != "pay_2";
    }
    var t2 := Verify(t1, "u", "sub_1", "pay_2", true, Some("starter"), 0).after;
    assert t2.subscriptions.Keys == {"u"};
    assert t2.subscriptions["u"].paymentId == Some("pay_2");
    assert !PaymentIdOnSomeRow(t2.subscriptions, "pay_1") by {
      assert "pay_1" != "pay_2";
    }
  }

  /** As written, for the webhook: the same replay of "pay_1" after "pay_2" is charged again. */
  lemma WebhookReplayAfterNewerPaymentExtendsAgain()
    ensures var p1 := WebhookPayload("subscription.charged", Some("sub_1"), Some("u"), None, Some("pay_1"));
            var p2 := p1.(paymentId := Some("pay_2"));
            var t1 := ProcessWebhook(ReplayExampleTables(), p1, ["u"], 0).after;
            var t2 := ProcessWebhook(t1, p2, ["u"], 0).after;
            var t3 := ProcessWebhook(t2, p1, ["u"], 0);
            && t2.subscriptions["u"].expiresAt == Set(Days(70))
            && t3.result == Accepted
            && t3.after.subscriptions["u"].expiresAt == Set(Days(100))
  {
    var p1 := WebhookPayload("subscription.charged", Some("sub_1"), Some("u"), None, Some("pay_1"));
    var p2 := p1.(paymentId := Some("pay_2"));
    var t0 := ReplayExampleTables();
    assert !PaymentIdOnSomeRow(t0.subscriptions, "pay_1") by {
      assert t0.subscriptions.Keys == {"u"};
    }
    var t1 := ProcessWebhook(t0, p1, ["u"], 0).after;
    assert t1.subscriptions.Keys == {"u"};
    assert !PaymentIdOnSomeRow(t1.subscriptions, "pay_2") by {
      assert "pay_1" != "pay_2";
    }
    var t2 := ProcessWebhook(t1, p2, ["u"], 0).after;
    assert t2.subscriptions.Keys == {"u"};
    assert !PaymentIdOnSomeRow(t2.subscriptions, "pay_1") by {
      assert "pay_1" != "pay_2";
    }
  }

  /** A payment this router activates never reaches the `processed_payments` ledger, so the ledger-based
      service still treats the same payment id as new and applies it a second time. */
  lemma VerifyBypassesLedger(t: Tables, userId: UserId, subscriptionId: string, paymentId: PaymentId,
                             notesPlanId: Option<PlanId>, now: int, later: int)
    requires !PaymentIdOnSomeRow(t.subscriptions, paymentId) && notesPlanId.GetOr("starter") in t.plans
    requires paymentId !in t.ledger
    ensures var t' := Verify(t, userId, subscriptionId, paymentId, true, notesPlanId, now).after;
            && !SubscriptionService.LedgerConsistent(t')
            && SubscriptionService.ProcessPayment(t', paymentId, userId, notesPlanId.GetOr("starter"), Webhook, later).result.Processed?
  {
    var t' := Verify(t, userId, subscriptionId, paymentId, true, notesPlanId, now).after;
    assert t'.subscriptions[userId].paymentId == Some(paymentId);
  }

  /** A term without an expiry (a lifetime grant stores null) makes a charged renewal fail without a write. */
  lemma ChargedRenewalOfNullExpiryFails(t: Tables, p: WebhookPayload, order: seq<UserId>, now: int)
    requires p.event == "subscription.charged" && Truthy(p.notesUserId) && Truthy(p.paymentId)
    requires !PaymentIdOnSomeRow(t.subscriptions, p.paymentId.value) && p.notesUserId.value in t.subscriptions
    requires t.subscriptions[p.notesUserId.value].expiresAt.Null? && !Truthy(p.notesPlanId)
    ensures ProcessWebhook(t, p, order, now) == Transition(t, Failed)
  {
  }

  /** No two rows share a gateway subscription id. */
  predicate GatewayIdsDistinct(subs: map<UserId, Subscription>) {
    forall u, v | u in subs && v in subs && u != v && subs[u].gatewaySubscriptionId.Some? ::
      subs[u].gatewaySubscriptionId != subs[v].gatewaySubscriptionId
  }

  /** Whatever the id (a missing one included) and the natural order, a cancelled or completed event changes
      at most one row, one the filter matches, and only its status, auto-renew flag and timestamp; when the
      order lists every row and some row matches, exactly one row changes. */
  lemma GatewayStatusTouchesOneRow(subs: map<UserId, Subscription>, gatewayId: Option<string>, order: seq<UserId>,
                                   status: Status, now: int)
    ensures var r := SetGatewayStatus(subs, gatewayId, order, status, now);
      && (forall u, v | u in subs && v in subs && r[u] != subs[u] && r[v] != subs[v] :: u == v)
      && (forall u | u in subs && r[u] != subs[u] :: MatchesGatewayId(subs, gatewayId, u))
      && (forall u | u in subs :: r[u].planId == subs[u].planId && r[u].expiresAt == subs[u].expiresAt
                                  && r[u].usage == subs[u].usage && r[u].paymentId == subs[u].paymentId)
    ensures (forall u | u in subs :: u in order) && (exists u | u in subs :: MatchesGatewayId(subs, gatewayId, u)) ==>
      var r := SetGatewayStatus(subs, gatewayId, order, status, now);
      exists u | u in subs :: MatchesGatewayId(subs, gatewayId, u) && r[u] == WithGatewayStatus(subs[u], status, now)
  {
  }

  /** While gateway ids are distinct, the natural order does not matter: an event naming an id writes the one
      row carrying it, whichever order the rows are in. */
  lemma GatewayStatusWithDistinctIds(subs: map<UserId, Subscription>, gatewayId: string, order: seq<UserId>,
                                     status: Status, now: int)
    requires GatewayIdsDistinct(subs) && forall u | u in subs :: u in order
    ensures var r := SetGatewayStatus(subs, Some(gatewayId), order, status, now);
      forall u | u in subs :: r[u] == if subs[u].gatewaySubscriptionId == Some(gatewayId)
                                      then WithGatewayStatus(subs[u], status, now) else subs[u]
  {
  }

  /** The router's requests, performed in place on one database. */
  class PaymentRouter {
    const db: Database

    constructor (db: Database)
      ensures this.db == db
    {
      this.db := db;
    }

    method HandleVerifyPayment(userId: UserId, subscriptionId: string, paymentId: PaymentId, signatureValid: bool,
                               notesPlanId: Option<PlanId>, now: int) returns (r: Response<VerifyOutcome>)
      modifies db
      ensures db.Snapshot() == Verify(old(db.Snapshot()), userId, subscriptionId, paymentId, signatureValid, notesPlanId, now).after
      ensures r == Verify(old(db.Snapshot()), userId, subscriptionId, paymentId, signatureValid, notesPlanId, now).result
    {
      if PaymentIdOnSomeRow(db.subscriptions, paymentId) {
        return Ok(AlreadyVerified);
      }
      if !signatureValid {
        return HttpError(400);
      }
      var planId := notesPlanId.GetOr("starter");
      if planId !in db.plans {
        return HttpError(404);
      }
      var current := FindSubscription(db.subscriptions, userId);
      var expiresAt := VerifyExpiry(current, planId, now);
      var row;
      if current.Some? {
        row := current.value;
      } else {
        row := BlankSubscription.(createdAt := Some(now), usage := VerifyZeroUsage);
      }
      row := row.(planId := planId, status := Active, startedAt := Some(now), expiresAt := Set(expiresAt),
                  autoRenew := Some(true), gatewaySubscriptionId := Some(subscriptionId),
                  paymentId := Some(paymentId), updatedAt := Some(now));
      db.subscriptions := db.subscriptions[userId := row];
      db.users := UpdateUser(db.users, userId, PlanPatch(planId), now);
      r := Ok(Activated(planId, expiresAt));
    }

    /** `order` is the natural order of the subscription documents, which the store keeps. */
    method HandleWebhook(p: WebhookPayload, order: seq<UserId>, now: int) returns (r: WebhookReply)
      modifies db
      ensures db.Snapshot() == ProcessWebhook(old(db.Snapshot()), p, order, now).after
      ensures r == ProcessWebhook(old(db.Snapshot()), p, order, now).result
    {
      if p.event == "subscription.charged" {
        if !(Truthy(p.notesUserId) && Truthy(p.paymentId)) {
          return Accepted;
        }
        if PaymentIdOnSomeRow(db.subscriptions, p.paymentId.value) {
          return AlreadyProcessed;
        }
        var u := p.notesUserId.value;
        if u !in db.subscriptions {
          return Accepted;
        }
        var s := db.subscriptions[u];
        var e := ChargedExpiry(s, p.notesPlanId, now);
        if e.None? {
          return Failed;
        }
        db.subscriptions := db.subscriptions[u := s.(
          expiresAt := Set(e.value), status := Active, paymentId := p.paymentId,
          gatewaySubscriptionId := p.subscriptionId,
          planId := if Truthy(p.notesPlanId) then p.notesPlanId.value else s.planId,
          updatedAt := Some(now))];
      } else if p.event == "subscription.cancelled" {
        db.subscriptions := SetGatewayStatus(db.subscriptions, p.subscriptionId, order, Cancelled, now);
      } else if p.event == "subscription.completed" {
        db.subscriptions := SetGatewayStatus(db.subscriptions, p.subscriptionId, order, Completed, now);
      }
      r := Accepted;
    }
  }
}
