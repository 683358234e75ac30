/** The subscription service: idempotent payment processing over the `processed_payments` ledger,
    sign-up, the admin plan change and the read-only status view. The functions give the tables
    each operation leaves behind; the class `PaymentProcessor`'s methods perform the same writes in place. */
module SubscriptionService {
  import opened Common
  import opened Store
  import opened DurationCalculator

  /** The counters a fresh term starts with: chatbots, messages this month and file uploads at zero. */
  function ZeroUsage(now: int): Usage {
    Usage(map["chatbots_count" := 0, "messages_this_month" := 0, "file_uploads" := 0], Some(now))
  }

  /** The existing row a `$set` merges into, or the blank row an upsert creates. */
  function Base(current: Option<Subscription>): Subscription {
    current.GetOr(BlankSubscription)
  }

  /** Step 3 of `process_payment_idempotent`: new without a subscription, else upgrade or renewal. */
  function ClassifyPayment(current: Option<Subscription>, planId: PlanId): (a: ActionType)
    ensures a == New <==> current.None?
    ensures a == Upgrade <==> current.Some? && IsPlanUpgrade(current.value.planId, planId)
    ensures a == Renewal <==> current.Some? && !IsPlanUpgrade(current.value.planId, planId)
  {
    if current.None? then New
    else if IsPlanUpgrade(current.value.planId, planId) then Upgrade
    else Renewal
  }

  datatype PaymentOutcome =
    | Processed(write: PaymentWrite, action: ActionType, durationDays: int)
    | AlreadyProcessed(snapshot: PaymentWrite, processedAt: int)

  /** The `subscription_data` of a payment not seen before. */
  function PaymentWriteFor(current: Option<Subscription>, paymentId: PaymentId, planId: PlanId, now: int): PaymentWrite {
    var action := ClassifyPayment(current, planId);
    var expiresAt := CalculateExpiration(action, planId, current, now);
    var usage := if action == Renewal && current.Some? then current.value.usage else ZeroUsage(now);
    PaymentWrite(planId, now, expiresAt, paymentId, action, usage)
  }

  /** The subscription document after the `$set` of `w` with upsert. */
  function ApplyPaymentWrite(current: Option<Subscription>, w: PaymentWrite, now: int): Subscription {
    Base(current).(planId := w.planId, status := Active, startedAt := Some(w.startedAt),
                   expiresAt := Set(w.expiresAt), paymentId := Some(w.paymentId),
                   updatedAt := Some(now), actionType := Some(w.actionType), usage := w.usage)
  }

  /** Everything a payment not seen before leaves in the tables. */
  ghost predicate FreshPaymentApplied(t: Tables, t': Tables, paymentId: PaymentId, userId: UserId,
                                      planId: PlanId, source: PaymentSource, now: int)
  {
    var current := FindSubscription(t.subscriptions, userId);
    var action := ClassifyPayment(current, planId);
    && userId in t'.subscriptions
    && var s := t'.subscriptions[userId];
    // the user's subscription: the purchased plan, active, the calculator's expiry, this payment id
    && s.planId == planId && s.status == Active && s.startedAt == Some(now)
    && s.expiresAt == Set(CalculateExpiration(action, planId, current, now))
    && s.paymentId == Some(paymentId) && s.actionType == Some(action)
    // usage carried over on a renewal, reset on a new subscription or an upgrade
    && (action == Renewal ==> s.usage == current.value.usage)
    && (action != Renewal ==> s.usage == ZeroUsage(now))
    // fields the write does not name are kept from the existing document
    && (current.Some? ==>
          && s.lifetimeAccess == current.value.lifetimeAccess
          && s.autoRenew == current.value.autoRenew
          && s.gatewaySubscriptionId == current.value.gatewaySubscriptionId
          && s.createdAt == current.value.createdAt)
    // no other user's subscription changes
    && t'.subscriptions.Keys == t.subscriptions.Keys + {userId}
    && (forall u | u in t.subscriptions && u != userId :: t'.subscriptions[u] == t.subscriptions[u])
    // the user's plan_id follows the purchase
    && t'.users == UpdateUser(t.users, userId, PlanPatch(planId), now)
    // exactly one new ledger entry, keyed by the payment id; earlier entries untouched
    && t'.ledger.Keys == t.ledger.Keys + {paymentId}
    && (forall p | p in t.ledger :: t'.ledger[p] == t.ledger[p])
    && t'.ledger[paymentId].userId == userId && t'.ledger[paymentId].planId == planId
    && t'.ledger[paymentId].isUpgrade == (action == Upgrade)
    && t'.ledger[paymentId].expiresAt == CalculateExpiration(action, planId, current, now)
    && t'.ledger[paymentId].source == source && t'.ledger[paymentId].processedAt == now
    && t'.plans == t.plans && t'.gatewaySubscriptions == t.gatewaySubscriptions
  }

  /** `process_payment_idempotent`: a payment id already in the ledger returns the recorded result and
      changes nothing; any other payment is classified, priced by the calculator, written to the
      subscription and the user, and then recorded in the ledger. */
  function ProcessPayment(t: Tables, paymentId: PaymentId, userId: UserId, planId: PlanId,
                          source: PaymentSource, now: int): (r: Transition<PaymentOutcome>)
    ensures paymentId in t.ledger ==>
      r.after == t && r.result == AlreadyProcessed(t.ledger[paymentId].result, t.ledger[paymentId].processedAt)
    ensures paymentId !in t.ledger ==>
      && FreshPaymentApplied(t, r.after, paymentId, userId, planId, source, now)
      && r.result.Processed?
      && r.result.action == ClassifyPayment(FindSubscription(t.subscriptions, userId), planId)
      && r.result.write == r.after.ledger[paymentId].result
      && Days(r.result.durationDays) <= r.result.write.expiresAt - now < Days(r.result.durationDays + 1)
  {
    if paymentId in t.ledger then
      var existing := t.ledger[paymentId];
      Transition(t, AlreadyProcessed(existing.result, existing.processedAt))
    else
      var current := FindSubscription(t.subscriptions, userId);
      var w := PaymentWriteFor(current, paymentId, planId, now);
      var entry := ProcessedPayment(userId, planId, current.Some?, now, w.expiresAt,
                                    w.actionType == Upgrade, source, w);
      var t' := t.(subscriptions := t.subscriptions[userId := ApplyPaymentWrite(current, w, now)],
                   users := UpdateUser(t.users, userId, PlanPatch(planId), now),
                   ledger := t.ledger[paymentId := entry]);
      Transition(t', Processed(w, w.actionType, WholeDays(w.expiresAt - now)))
  }

  /** `create_subscription`: a sign-up term of the plan's length from now with zeroed usage. The source
      inserts without looking; when the user already has a document, lookups by user id keep finding
      the earlier one, so the tables here keep it. */
  function CreateSubscriptionSpec(t: Tables, userId: UserId, planId: PlanId, now: int): (r: Transition<Subscription>)
    ensures r.result.planId == planId && r.result.status == Active
    ensures r.result.expiresAt == Set(now + Days(PlanDuration(planId)))
    ensures r.result.usage == ZeroUsage(now) && r.result.createdAt == Some(now)
    ensures userId !in t.subscriptions ==> r.after == t.(subscriptions := t.subscriptions[userId := r.result])
    ensures userId in t.subscriptions ==> r.after == t
  {
    var expiresAt := CalculateExpiration(New, planId, None, now);
    var row := BlankSubscription.(planId := planId, status := Active, startedAt := Some(now),
                                  expiresAt := Set(expiresAt), createdAt := Some(now),
                                  updatedAt := Some(now), usage := ZeroUsage(now));
    if userId in t.subscriptions then Transition(t, row)
    else Transition(t.(subscriptions := t.subscriptions[userId := row]), row)
  }

  /** `admin_change_plan`: a fresh term of the new plan's length from now whatever the previous plan,
      keeping the existing usage, recording who changed it and why, and moving the user to the plan. */
  function AdminChangePlanSpec(t: Tables, userId: UserId, newPlanId: PlanId, adminId: UserId, reason: string,
                           now: int): (r: Transition<Subscription>)
    ensures userId in r.after.subscriptions && r.result == r.after.subscriptions[userId]
    ensures r.result.planId == newPlanId && r.result.status == Active && r.result.startedAt == Some(now)
    ensures r.result.expiresAt == Set(now + Days(PlanDuration(newPlanId)))
    ensures userId in t.subscriptions ==> r.result.usage == t.subscriptions[userId].usage
    ensures userId !in t.subscriptions ==> r.result.usage == ZeroUsage(now)
    ensures r.result.adminChangedBy == Some(adminId) && r.result.adminChangeReason == Some(reason)
    ensures r.after.subscriptions.Keys == t.subscriptions.Keys + {userId}
    ensures forall u | u in t.subscriptions && u != userId :: r.after.subscriptions[u] == t.subscriptions[u]
    ensures r.after.users == UpdateUser(t.users, userId, PlanPatch(newPlanId), now)
    ensures r.after.ledger == t.ledger && r.after.plans == t.plans
    ensures r.after.gatewaySubscriptions == t.gatewaySubscriptions
  {
    var current := FindSubscription(t.subscriptions, userId);
    var expiresAt := CalculateExpiration(AdminChange, newPlanId, None, now);
    var usage := if current.Some? then current.value.usage else ZeroUsage(now);
    var row := Base(current).(planId := newPlanId, status := Active, startedAt := Some(now),
                              expiresAt := Set(expiresAt), updatedAt := Some(now),
                              adminChangedBy := Some(adminId), adminChangeReason := Some(reason),
                              usage := usage);
    Transition(t.(subscriptions := t.subscriptions[userId := row],
                  users := UpdateUser(t.users, userId, PlanPatch(newPlanId), now)), row)
  }

  /** The dictionary `check_subscription_status` returns. */
  datatype StatusReport =
    | NoSubscription
    | NoExpirationDate
    | Report(isExpired: bool, isExpiringSoon: bool, daysRemaining: nat, expiresAt: int,
             planId: PlanId, status: Status)
  {
    predicate Exists() { !NoSubscription? }
    predicate IsExpired() { !Report? || isExpired }
  }

  /** `check_subscription_status`. */
  function CheckSubscriptionStatus(t: Tables, userId: UserId, now: int): (r: StatusReport)
    ensures r.Exists() <==> userId in t.subscriptions
    ensures r.IsExpired() <==>
      (userId !in t.subscriptions || t.subscriptions[userId].expiresAt.Get().None?
       || t.subscriptions[userId].expiresAt.value <= now)
    ensures r.Report? ==>
      && Set(r.expiresAt) == t.subscriptions[userId].expiresAt
      && r.daysRemaining == RemainingDays(r.expiresAt, now)
      && (r.isExpiringSoon <==> Days(1) <= r.expiresAt - now < Days(4))
  {
    if userId !in t.subscriptions then NoSubscription
    else
      var s := t.subscriptions[userId];
      if s.expiresAt.Get().None? then NoExpirationDate
      else
        var expiresAt := s.expiresAt.value;
        var daysRemaining := RemainingDays(expiresAt, now);
        Report(expiresAt <= now, 0 < daysRemaining <= 3, daysRemaining, expiresAt, s.planId, s.status)
  }

  // ---------------------------------------------------------------------------------------------
  // Properties of payment processing

  /** No carry-forward: a payment for a different plan (letter case aside) gives exactly the new
      plan's term from now, whatever time was left on the old one. */
  lemma UpgradeStartsFresh(t: Tables, paymentId: PaymentId, userId: UserId, planId: PlanId, source: PaymentSource, now: int)
    requires paymentId !in t.ledger && userId in t.subscriptions
    requires IsPlanUpgrade(t.subscriptions[userId].planId, planId)
    ensures ProcessPayment(t, paymentId, userId, planId, source, now).after.subscriptions[userId].expiresAt
         == Set(now + Days(PlanDuration(planId)))
    ensures CheckSubscriptionStatus(ProcessPayment(t, paymentId, userId, planId, source, now).after, userId, now).daysRemaining
         == PlanDuration(planId)
  {
    var current := FindSubscription(t.subscriptions, userId);
    NoCarryForward(Upgrade, planId, current, current, now);
  }

  /** A renewal of the same plan before expiry keeps the remaining time and adds 30 days. */
  lemma RenewalKeepsRemainingDays(t: Tables, paymentId: PaymentId, userId: UserId, planId: PlanId, source: PaymentSource, now: int)
    requires paymentId !in t.ledger && userId in t.subscriptions
    requires !IsPlanUpgrade(t.subscriptions[userId].planId, planId)
    requires t.subscriptions[userId].expiresAt.Set? && t.subscriptions[userId].expiresAt.value > now
    ensures CheckSubscriptionStatus(ProcessPayment(t, paymentId, userId, planId, source, now).after, userId, now).daysRemaining
         == CheckSubscriptionStatus(t, userId, now).daysRemaining + PAID_PLAN_DURATION
  {
    RenewalPreservesRemainingTime(planId, t.subscriptions[userId], now);
  }

  /** Processing the same payment id a second time, with any user, plan or source, leaves the tables as
      the first call left them and returns what the first call wrote. */
  lemma SecondDeliveryIsNoOp(t: Tables, paymentId: PaymentId, userId: UserId, planId: PlanId, source: PaymentSource, now: int,
                             userId2: UserId, planId2: PlanId, source2: PaymentSource, now2: int)
    requires paymentId !in t.ledger
    ensures var first := ProcessPayment(t, paymentId, userId, planId, source, now);
            var second := ProcessPayment(first.after, paymentId, userId2, planId2, source2, now2);
            second.after == first.after && second.result == AlreadyProcessed(first.result.write, now)
  {
  }

  /** One delivery of a payment event from any channel. */
  datatype PaymentEvent = PaymentEvent(paymentId: PaymentId, userId: UserId, planId: PlanId,
                                       source: PaymentSource, now: int)

  function Deliver(t: Tables, e: PaymentEvent): Tables {
    ProcessPayment(t, e.paymentId, e.userId, e.planId, e.source, e.now).after
  }

  /** The tables after processing the deliveries in order. */
  function DeliverAll(t: Tables, events: seq<PaymentEvent>): Tables
    decreases |events|
  {
    if events == [] then t else DeliverAll(Deliver(t, events[0]), events[1..])
  }

  /** The deliveries whose payment id is neither in `seen` nor carried by an earlier delivery. */
  function FirstDeliveries(events: seq<PaymentEvent>, seen: set<PaymentId>): seq<PaymentEvent>
    decreases |events|
  {
    if events == [] then []
    else if events[0].paymentId in seen then FirstDeliveries(events[1..], seen)
    else [events[0]] + FirstDeliveries(events[1..], seen + {events[0].paymentId})
  }

  function PaymentIds(events: seq<PaymentEvent>): set<PaymentId> {
    set i | 0 <= i < |events| :: events[i].paymentId
  }

  /** Exactly-once application: however often and in whatever order a payment is redelivered, the
      tables end up as if only the first delivery of each new payment id had arrived. */
  lemma {:induction false} ExactlyOncePerPaymentId(t: Tables, events: seq<PaymentEvent>)
    ensures DeliverAll(t, events) == DeliverAll(t, FirstDeliveries(events, t.ledger.Keys))
    decreases |events|
  {
    if events != [] {
      var e := events[0];
      if e.paymentId in t.ledger {
        ExactlyOncePerPaymentId(t, events[1..]);
      } else {
        var t' := Deliver(t, e);
        assert t'.ledger.Keys == t.ledger.Keys + {e.paymentId};
        ExactlyOncePerPaymentId(t', events[1..]);
        var rest := FirstDeliveries(events[1..], t.ledger.Keys + {e.paymentId});
        assert ([e] + rest)[0] == e && ([e] + rest)[1..] == rest;
      }
    }
  }

  /** The deliveries that take effect carry pairwise distinct payment ids, none of them seen before. */
  lemma {:induction false} FirstDeliveriesDistinct(events: seq<PaymentEvent>, seen: set<PaymentId>)
    ensures var f := FirstDeliveries(events, seen);
            (forall i | 0 <= i < |f| :: f[i].paymentId !in seen)
            && (forall i, j | 0 <= i < j < |f| :: f[i].paymentId != f[j].paymentId)
            && PaymentIds(f) == PaymentIds(events) - seen
    decreases |events|
  {
    if events != [] {
      var e := events[0];
      var tail := events[1..];
      assert PaymentIds(events) == {e.paymentId} + PaymentIds(tail) by {
        forall p | p in PaymentIds(events) ensures p in {e.paymentId} + PaymentIds(tail) {
          var i :| 0 <= i < |events| && events[i].paymentId == p;
          if i > 0 { assert tail[i - 1].paymentId == p; }
        }
        forall p | p in PaymentIds(tail) ensures p in PaymentIds(events) {
          var i :| 0 <= i < |tail| && tail[i].paymentId == p;
          assert events[i + 1].paymentId == p;
        }
        assert events[0].paymentId == e.paymentId;
      }
      if e.paymentId in seen {
        FirstDeliveriesDistinct(tail, seen);
      } else {
        FirstDeliveriesDistinct(tail, seen + {e.paymentId});
        var rest := FirstDeliveries(tail, seen + {e.paymentId});
        var f := [e] + rest;
        assert forall i | 1 <= i < |f| :: f[i] == rest[i - 1];
        assert PaymentIds(f) == {e.paymentId} + PaymentIds(rest) by {
          forall p | p in PaymentIds(f) ensures p in {e.paymentId} + PaymentIds(rest) {
            var i :| 0 <= i < |f| && f[i].paymentId == p;
            if i > 0 { assert rest[i - 1].paymentId == p; }
          }
          forall p | p in PaymentIds(rest) ensures p in PaymentIds(f) {
            var i :| 0 <= i < |rest| && rest[i].paymentId == p;
            assert f[i + 1].paymentId == p;
          }
          assert f[0].paymentId == e.paymentId;
        }
      }
    }
  }

  /** The ledger is append-only: every delivery's payment id ends up in it, nothing else is added, and no
      existing entry changes. */
  lemma {:induction false} LedgerAppendOnly(t: Tables, events: seq<PaymentEvent>)
    ensures DeliverAll(t, events).ledger.Keys == t.ledger.Keys + PaymentIds(events)
    ensures forall p | p in t.ledger :: DeliverAll(t, events).ledger[p] == t.ledger[p]
    decreases |events|
  {
    if events != [] {
      var e := events[0];
      var tail := events[1..];
      assert PaymentIds(events) == {e.paymentId} + PaymentIds(tail) by {
        forall p | p in PaymentIds(events) ensures p in {e.paymentId} + PaymentIds(tail) {
          var i :| 0 <= i < |events| && events[i].paymentId == p;
          if i > 0 { assert tail[i - 1].paymentId == p; }
        }
        forall p | p in PaymentIds(tail) ensures p in PaymentIds(events) {
          var i :| 0 <= i < |tail| && tail[i].paymentId == p;
          assert events[i + 1].paymentId == p;
        }
        assert events[0].paymentId == e.paymentId;
      }
      LedgerAppendOnly(Deliver(t, e), tail);
    }
  }

  lemma {:induction false} DeliverAllAppend(t: Tables, events: seq<PaymentEvent>, e: PaymentEvent)
    ensures DeliverAll(t, events + [e]) == Deliver(DeliverAll(t, events), e)
    decreases |events|
  {
    if events == [] {
      assert [] + [e] == [e];
    } else {
      assert (events + [e])[0] == events[0] && (events + [e])[1..] == events[1..] + [e];
      DeliverAllAppend(Deliver(t, events[0]), events[1..], e);
    }
  }

  /** A redelivery of any payment id applied earlier, or already in the ledger, changes nothing, however
      many other payments came in between. */
  lemma ReplayAfterOtherPaymentsIsNoOp(t: Tables, events: seq<PaymentEvent>, e: PaymentEvent)
    requires e.paymentId in t.ledger || e.paymentId in PaymentIds(events)
    ensures DeliverAll(t, events + [e]) == DeliverAll(t, events)
  {
    DeliverAllAppend(t, events, e);
    LedgerAppendOnly(t, events);
  }

  /** The ledger invariant the service keeps: each entry records the payment id it is keyed by, and every
      payment id on a subscription row has its ledger entry. */
  ghost predicate LedgerConsistent(t: Tables) {
    && (forall p | p in t.ledger :: t.ledger[p].result.paymentId == p)
    && (forall u | u in t.subscriptions && t.subscriptions[u].paymentId.Some? :: t.subscriptions[u].paymentId.value in t.ledger)
  }

  /** All three writing operations of the service keep the ledger invariant. */
  lemma ServiceKeepsLedgerConsistent(t: Tables, paymentId: PaymentId, userId: UserId, planId: PlanId,
                                     source: PaymentSource, adminId: UserId, reason: string, now: int)
    requires LedgerConsistent(t)
    ensures LedgerConsistent(ProcessPayment(t, paymentId, userId, planId, source, now).after)
    ensures LedgerConsistent(CreateSubscriptionSpec(t, userId, planId, now).after)
    ensures LedgerConsistent(AdminChangePlanSpec(t, userId, planId, adminId, reason, now).after)
  {
    PaymentKeepsLedgerConsistent(t, paymentId, userId, planId, source, now);
    SignUpKeepsLedgerConsistent(t, userId, planId, now);
    AdminChangeKeepsLedgerConsistent(t, userId, planId, adminId, reason, now);
  }

  /** A processed payment adds the ledger entry for the payment id it writes on the row. */
  lemma PaymentKeepsLedgerConsistent(t: Tables, paymentId: PaymentId, userId: UserId, planId: PlanId,
                                     source: PaymentSource, now: int)
    requires LedgerConsistent(t)
    ensures LedgerConsistent(ProcessPayment(t, paymentId, userId, planId, source, now).after)
  {
    var t' := ProcessPayment(t, paymentId, userId, planId, source, now).after;
    if paymentId !in t.ledger {
      forall u | u in t'.subscriptions && t'.subscriptions[u].paymentId.Some?
        ensures t'.subscriptions[u].paymentId.value in t'.ledger
      {
        if u != userId {
          assert t'.subscriptions[u] == t.subscriptions[u];
        }
      }
    }
  }

  /** Sign-up writes no payment id and leaves the ledger alone. */
  lemma SignUpKeepsLedgerConsistent(t: Tables, userId: UserId, planId: PlanId, now: int)
    requires LedgerConsistent(t)
    ensures LedgerConsistent(CreateSubscriptionSpec(t, userId, planId, now).after)
  {
  }

  /** The admin plan change keeps the payment id of an existing row and leaves the ledger alone. */
  lemma AdminChangeKeepsLedgerConsistent(t: Tables, userId: UserId, planId: PlanId, adminId: UserId,
                                         reason: string, now: int)
    requires LedgerConsistent(t)
    ensures LedgerConsistent(AdminChangePlanSpec(t, userId, planId, adminId, reason, now).after)
  {
  }

  // ---------------------------------------------------------------------------------------------
  // Properties of the status view

  /** A subscription about to run out is never reported as already expired. */
  lemma ExpiringSoonIsNotExpired(t: Tables, userId: UserId, now: int)
    ensures var r := CheckSubscriptionStatus(t, userId, now);
            r.Report? && r.isExpiringSoon ==> !r.isExpired && 1 <= r.daysRemaining <= 3
  {
  }

  /** The service's state-changing operations, performed in place on one database. */
  class PaymentProcessor {
    const db: Database

    constructor (db: Database)
      ensures this.db == db
    {
      this.db := db;
    }

    method ProcessPaymentIdempotent(paymentId: PaymentId, userId: UserId, planId: PlanId,
                                    source: PaymentSource, now: int) returns (r: PaymentOutcome)
      modifies db
      ensures db.Snapshot() == ProcessPayment(old(db.Snapshot()), paymentId, userId, planId, source, now).after
      ensures r == ProcessPayment(old(db.Snapshot()), paymentId, userId, planId, source, now).result
      ensures LedgerConsistent(old(db.Snapshot())) ==> LedgerConsistent(db.Snapshot())
    {
      // Step 1: the ledger decides whether this payment was applied before.
      if paymentId in db.processedPayments {
        var existing := db.processedPayments[paymentId];
        return AlreadyProcessed(existing.result, existing.processedAt);
      }
      // Steps 2 to 4: current subscription, action type, expiry.
      var current := FindSubscription(db.subscriptions, userId);
      var action := ClassifyPayment(current, planId);
      var expiresAt := CalculateExpiration(action, planId, current, now);
      // Step 5: usage policy and the subscription upsert.
      var usage := if action == Renewal && current.Some? then current.value.usage else ZeroUsage(now);
      var w := PaymentWrite(planId, now, expiresAt, paymentId, action, usage);
      db.subscriptions := db.subscriptions[userId := ApplyPaymentWrite(current, w, now)];
      // Step 6: the user's plan.
      db.users := UpdateUser(db.users, userId, PlanPatch(planId), now);
      // Step 7: the ledger entry, written last.
      db.processedPayments := db.processedPayments[paymentId :=
        ProcessedPayment(userId, planId, current.Some?, now, expiresAt, action == Upgrade, source, w)];
      r := Processed(w, action, WholeDays(expiresAt - now));
    }

    method CreateSubscription(userId: UserId, planId: PlanId, now: int) returns (row: Subscription)
      modifies db
      ensures db.Snapshot() == CreateSubscriptionSpec(old(db.Snapshot()), userId, planId, now).after
      ensures row == CreateSubscriptionSpec(old(db.Snapshot()), userId, planId, now).result
      ensures LedgerConsistent(old(db.Snapshot())) ==> LedgerConsistent(db.Snapshot())
    {
      var expiresAt := CalculateExpiration(New, planId, None, now);
      row := BlankSubscription.(planId := planId, status := Active, startedAt := Some(now),
                                expiresAt := Set(expiresAt), createdAt := Some(now),
                                updatedAt := Some(now), usage := ZeroUsage(now));
      if userId !in db.subscriptions {
        db.subscriptions := db.subscriptions[userId := row];
      }
    }

    method AdminChangePlan(userId: UserId, newPlanId: PlanId, adminId: UserId, reason: string, now: int)
      returns (row: Subscription)
      modifies db
      ensures db.Snapshot() == AdminChangePlanSpec(old(db.Snapshot()), userId, newPlanId, adminId, reason, now).after
      ensures row == AdminChangePlanSpec(old(db.Snapshot()), userId, newPlanId, adminId, reason, now).result
      ensures LedgerConsistent(old(db.Snapshot())) ==> LedgerConsistent(db.Snapshot())
    {
      var current := FindSubscription(db.subscriptions, userId);
      var expiresAt := CalculateExpiration(AdminChange, newPlanId, None, now);
      var usage := if current.Some? then current.value.usage else ZeroUsage(now);
      row := Base(current).(planId := newPlanId, status := Active, startedAt := Some(now),
                            expiresAt := Set(expiresAt), updatedAt := Some(now),
                            adminChangedBy := Some(adminId), adminChangeReason := Some(reason),
                            usage := usage);
      db.subscriptions := db.subscriptions[userId := row];
      db.users := UpdateUser(db.users, userId, PlanPatch(newPlanId), now);
    }
  }
}
