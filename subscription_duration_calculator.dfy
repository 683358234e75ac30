/** The single place where a subscription's expiry is computed: plan durations, the expiry for
    each kind of subscription change, the upgrade-versus-renewal test and the remaining days. */
module DurationCalculator {
  import opened Common
  import opened Store

  const FREE_PLAN_DURATION: int := 6
  const PAID_PLAN_DURATION: int := 30

  /** The free plan, in any letter case. */
  predicate IsFreePlan(planId: PlanId) {
    Lower(planId) == "free"
  }

  /** `get_plan_duration`: the term of a plan in days, 6 for the free plan in any letter case, 30 otherwise. */
  function PlanDuration(planId: PlanId): (d: int)
    ensures d == FREE_PLAN_DURATION || d == PAID_PLAN_DURATION
    ensures d == FREE_PLAN_DURATION <==> IsFreePlan(planId)
  {
    if IsFreePlan(planId) then FREE_PLAN_DURATION else PAID_PLAN_DURATION
  }

  /** `calculate_expiration`, with the clock read passed in as `now`. */
  function CalculateExpiration(action: ActionType, newPlanId: PlanId, current: Option<Subscription>, now: int): (r: int)
    ensures r > now
    ensures action != Renewal || current.None? ==> r == now + Days(PlanDuration(newPlanId))
    ensures action == Renewal && current.Some? ==>
      r == match current.value.expiresAt.Get()
           case Some(e) => if e > now then e + Days(PAID_PLAN_DURATION) else now + Days(PAID_PLAN_DURATION)
           case None => now + Days(PAID_PLAN_DURATION)
  {
    var durationDays := PlanDuration(newPlanId);
    if action == Renewal && current.Some? then
      var currentExpires := current.value.expiresAt.Get();
      if currentExpires.Some? && currentExpires.value > now then
        currentExpires.value + Days(PAID_PLAN_DURATION)
      else
        now + Days(PAID_PLAN_DURATION)
    else
      now + Days(durationDays)
  }

  /** `is_plan_upgrade`: the plans differ once both are lower-cased. */
  predicate IsPlanUpgrade(oldPlanId: PlanId, newPlanId: PlanId) {
    Lower(oldPlanId) != Lower(newPlanId)
  }

  /** `calculate_remaining_days`: whole days until `expiresAt`, 0 once it has passed. */
  function RemainingDays(expiresAt: int, now: int): (r: nat)
    ensures expiresAt <= now ==> r == 0
    ensures expiresAt > now ==> Days(r) <= expiresAt - now < Days(r + 1)
  {
    if expiresAt <= now then 0 else WholeDays(expiresAt - now)
  }

  // ---------------------------------------------------------------------------------------------
  // Properties

  /** The duration the calculator applies is the one `get_plan_duration` reports, whatever the case
      of the plan id. */
  lemma PlanDurationIgnoresCase(planId: PlanId)
    ensures PlanDuration(planId) == PlanDuration(Lower(planId))
    ensures PlanDuration("FREE") == PlanDuration("Free") == FREE_PLAN_DURATION
    ensures PlanDuration("starter") == PlanDuration("professional") == PAID_PLAN_DURATION
  {
    LowerIdempotent(planId);
    assert Lower("FREE") == "free";
    assert Lower("Free") == "free";
    assert Lower("starter") != "free";
  }

  /** A new subscription, an upgrade and an admin change start fresh: the result depends only on the
      target plan and `now`, never on the current subscription, and is exactly the plan's term ahead. */
  lemma NoCarryForward(action: ActionType, planId: PlanId, current1: Option<Subscription>, current2: Option<Subscription>, now: int)
    requires action != Renewal
    ensures CalculateExpiration(action, planId, current1, now) == CalculateExpiration(action, planId, current2, now)
    ensures RemainingDays(CalculateExpiration(action, planId, current1, now), now) == PlanDuration(planId)
  {
    var r := CalculateExpiration(action, planId, current1, now);
    WholeDaysUnique(r - now, PlanDuration(planId));
  }

  /** Renewing an active term keeps all of the remaining time and adds 30 days, also on the free plan. */
  lemma RenewalPreservesRemainingTime(planId: PlanId, current: Subscription, now: int)
    requires current.expiresAt.Set? && current.expiresAt.value > now
    ensures CalculateExpiration(Renewal, planId, Some(current), now) - now
         == (current.expiresAt.value - now) + Days(PAID_PLAN_DURATION)
    ensures RemainingDays(CalculateExpiration(Renewal, planId, Some(current), now), now)
         == RemainingDays(current.expiresAt.value, now) + PAID_PLAN_DURATION
  {
    WholeDaysShift(current.expiresAt.value - now, PAID_PLAN_DURATION);
  }

  /** Renewing an expired term, or one without an expiry, starts 30 days from now, even on the free plan. */
  lemma ExpiredRenewalStartsFresh(planId: PlanId, current: Subscription, now: int)
    requires current.expiresAt.Get().None? || current.expiresAt.value <= now
    ensures CalculateExpiration(Renewal, planId, Some(current), now) == now + Days(PAID_PLAN_DURATION)
    ensures RemainingDays(CalculateExpiration(Renewal, planId, Some(current), now), now) == PAID_PLAN_DURATION
  {
    WholeDaysUnique(Days(PAID_PLAN_DURATION), PAID_PLAN_DURATION);
  }

  /** Whether two plans count as different is independent of letter case, never holds of a plan and
      itself, and does not depend on the order of its arguments. */
  lemma IsPlanUpgradeProperties(a: PlanId, b: PlanId, c: PlanId)
    ensures !IsPlanUpgrade(a, a)
    ensures IsPlanUpgrade(a, b) <==> IsPlanUpgrade(b, a)
    ensures !IsPlanUpgrade(a, b) && !IsPlanUpgrade(b, c) ==> !IsPlanUpgrade(a, c)
    ensures !IsPlanUpgrade("Starter", "starter") && IsPlanUpgrade("free", "starter")
  {
    assert Lower("Starter") == "starter" == Lower("starter");
    assert Lower("free") == "free";
  }
}
