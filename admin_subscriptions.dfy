/** The admin subscription router: extend, renew, lifetime access, plan change and the details view.
    It predates the duration calculator and keeps its own copies of the day arithmetic: an exact,
    case-sensitive test for "free", an extension from the later of now and the current expiry, and
    its own remaining-days clamp. The functions give each request's outcome on the tables;
    `AdminRouter`'s methods perform the same writes in place. */
module AdminSubscriptions {
  import opened Common
  import opened Store
  import opened DurationCalculator

  /** The router's own day choice: 6 for a plan id that is exactly "free", 30 for any other; letter case matters. */
  function RouterPlanDays(planId: PlanId): (d: int)
    ensures d == FREE_PLAN_DURATION || d == PAID_PLAN_DURATION
    ensures d == FREE_PLAN_DURATION <==> planId == "free"
  {
    if planId == "free" then 6 else 30
  }

  /** The new expiry of an extension by `days`: counted from the current expiry while it has not
      passed, from now otherwise, so from the later of the two. */
  function ExtendedExpiry(current: Field<int>, days: int, now: int): (r: int)
    ensures r == Max(now, current.Get().GetOr(now)) + Days(days)
  {
    match current.Get()
    case None => now + Days(days)
    case Some(e) => if e < now then now + Days(days) else e + Days(days)
  }

  /** A `$set` of `subscription_expires_at` on a user document. */
  function ExpiryPatch(expiresAt: Field<int>): UserPatch {
    UserPatch(None, None, Some(expiresAt))
  }

  /** `extend_subscription`: 422 for a non-positive `days`, 404 without a subscription, 400 under lifetime
      access, all without a write; otherwise the expiry moves by `days`, the subscription becomes active,
      and the user's `subscription_expires_at` follows. */
  function Extend(t: Tables, userId: UserId, days: int, now: int): (r: Transition<Response<int>>)
    ensures days <= 0 ==> r == Transition(t, HttpError(422))
    ensures days > 0 && userId !in t.subscriptions ==> r == Transition(t, HttpError(404))
    ensures days > 0 && userId in t.subscriptions && HasLifetimeAccess(t.subscriptions[userId]) ==>
      r == Transition(t, HttpError(400))
    ensures days > 0 && userId in t.subscriptions && !HasLifetimeAccess(t.subscriptions[userId]) ==>
      var s := t.subscriptions[userId];
      && r.result == Ok(ExtendedExpiry(s.expiresAt, days, now))
      && r.after.subscriptions == t.subscriptions[userId := s.(expiresAt := Set(r.result.value), status := Active,
                                                              updatedAt := Some(now))]
      && r.after.users == UpdateUser(t.users, userId, ExpiryPatch(Set(r.result.value)), now)
      && r.after.plans == t.plans && r.after.ledger == t.ledger
      && r.after.gatewaySubscriptions == t.gatewaySubscriptions
  {
    if days <= 0 then Transition(t, HttpError(422))
    else if userId !in t.subscriptions then Transition(t, HttpError(404))
    else
      var s := t.subscriptions[userId];
      if HasLifetimeAccess(s) then Transition(t, HttpError(400))
      else
        var newExpiry := ExtendedExpiry(s.expiresAt, days, now);
        var s' := s.(expiresAt := Set(newExpiry), status := Active, updatedAt := Some(now));
        var t' := t.(subscriptions := t.subscriptions[userId := s'],
                     users := UpdateUser(t.users, userId, ExpiryPatch(Set(newExpiry)), now));
        // no document reported as modified: the write left it as it was
        if s' == s then Transition(t', HttpError(500)) else Transition(t', Ok(newExpiry))
  }

  /** `renew_user_subscription`: an extension by the plan's days. Every error, the 404 and the 400 of the
      extension included, reaches the caller as 500. */
  function Renew(t: Tables, userId: UserId, now: int): (r: Transition<Response<int>>)
    ensures userId !in t.subscriptions ==> r == Transition(t, HttpError(500))
    ensures userId in t.subscriptions && HasLifetimeAccess(t.subscriptions[userId]) ==> r == Transition(t, HttpError(500))
    ensures userId in t.subscriptions && !HasLifetimeAccess(t.subscriptions[userId]) ==>
      r.result.Ok? && r == Extend(t, userId, RouterPlanDays(t.subscriptions[userId].planId), now)
  {
    if userId !in t.subscriptions then Transition(t, HttpError(500))
    else
      var e := Extend(t, userId, RouterPlanDays(t.subscriptions[userId].planId), now);
      if e.result.HttpError? then Transition(e.after, HttpError(500)) else e
  }

  /** The row `toggle_lifetime_access` inserts when no subscription was modified. */
  function LifetimeFallbackRow(grant: bool, now: int): Subscription {
    BlankSubscription.(planId := "enterprise", status := Active, startedAt := Some(now), expiresAt := Null,
                       lifetimeAccess := Some(grant), autoRenew := Some(false), usage := EmptyUsage)
  }

  /** `toggle_lifetime_access`: sets the flag and keeps the subscription active; granting also clears the
      expiry. The user document gets the flag and no expiry on a grant, `now` as expiry on a revoke.
      A user without a subscription gets an "enterprise" row without expiry, on a revoke as well. */
  function ToggleLifetime(t: Tables, userId: UserId, grant: bool, now: int): (r: Transition<Response<bool>>)
    ensures r.result == Ok(grant)
    ensures r.after.subscriptions.Keys == t.subscriptions.Keys + {userId}
    ensures forall u | u in t.subscriptions && u != userId :: r.after.subscriptions[u] == t.subscriptions[u]
    ensures var s := r.after.subscriptions[userId];
      && s.lifetimeAccess == Some(grant) && s.status == Active && s.updatedAt.Some? == (userId in t.subscriptions)
      && (grant ==> s.expiresAt == Null)
    ensures userId in t.subscriptions ==>
      var old_s, s := t.subscriptions[userId], r.after.subscriptions[userId];
      && (!grant ==> s.expiresAt == old_s.expiresAt)
      && s.planId == old_s.planId && s.startedAt == old_s.startedAt && s.usage == old_s.usage
      && s.paymentId == old_s.paymentId && s.autoRenew == old_s.autoRenew
    ensures userId !in t.subscriptions ==>
      var s := r.after.subscriptions[userId];
      s.planId == "enterprise" && s.expiresAt == Null && s.autoRenew == Some(false) && s.usage == EmptyUsage
      && s.startedAt == Some(now)
    ensures r.after.users == UpdateUser(t.users, userId,
                                        UserPatch(None, Some(grant), Some(if grant then Null else Set(now))), now)
    ensures r.after.plans == t.plans && r.after.ledger == t.ledger
    ensures r.after.gatewaySubscriptions == t.gatewaySubscriptions
  {
    var users' := UpdateUser(t.users, userId, UserPatch(None, Some(grant), Some(if grant then Null else Set(now))), now);
    var row :=
      if userId in t.subscriptions then
        var s := t.subscriptions[userId].(lifetimeAccess := Some(grant), status := Active, updatedAt := Some(now));
        if grant then s.(expiresAt := Null) else s
      else
        LifetimeFallbackRow(grant, now);
    Transition(t.(subscriptions := t.subscriptions[userId := row], users := users'), Ok(grant))
  }

  /** The counters of the row `change_user_plan` inserts. */
  function ChangePlanZeroUsage(now: int): Usage {
    Usage(map["chatbots_count" := 0, "messages_this_month" := 0, "file_uploads_count" := 0,
              "website_sources_count" := 0, "text_sources_count" := 0], Some(now))
  }

  /** `change_user_plan`: 404 for a plan not in `plans`, without a write; otherwise a fresh term of the
      router's days from now. An existing subscription keeps its usage and lifetime flag; a missing one is
      inserted with zeroed counters, no lifetime access and auto-renew on. */
  function ChangePlan(t: Tables, userId: UserId, planId: PlanId, now: int): (r: Transition<Response<int>>)
    ensures planId !in t.plans ==> r == Transition(t, HttpError(404))
    ensures planId in t.plans ==>
      && r.result == Ok(RouterPlanDays(planId))
      && userId in r.after.subscriptions
      && var s := r.after.subscriptions[userId];
      && s.planId == planId && s.status == Active && s.startedAt == Some(now)
      && s.expiresAt == Set(now + Days(RouterPlanDays(planId)))
      && (userId in t.subscriptions ==>
            && s.usage == t.subscriptions[userId].usage
            && s.lifetimeAccess == t.subscriptions[userId].lifetimeAccess
            && s.paymentId == t.subscriptions[userId].paymentId)
      && (userId !in t.subscriptions ==>
            s.usage == ChangePlanZeroUsage(now) && s.lifetimeAccess == Some(false) && s.autoRenew == Some(true))
      && r.after.subscriptions.Keys == t.subscriptions.Keys + {userId}
      && (forall u | u in t.subscriptions && u != userId :: r.after.subscriptions[u] == t.subscriptions[u])
      && r.after.users == UpdateUser(t.users, userId, PlanPatch(planId), now)
      && r.after.plans == t.plans && r.after.ledger == t.ledger
      && r.after.gatewaySubscriptions == t.gatewaySubscriptions
  {
    if planId !in t.plans then Transition(t, HttpError(404))
    else
      var days := RouterPlanDays(planId);
      var expiresAt := now + Days(days);
      var row :=
        if userId in t.subscriptions then
          t.subscriptions[userId].(planId := planId, status := Active, startedAt := Some(now),
                                   expiresAt := Set(expiresAt), updatedAt := Some(now))
        else
          BlankSubscription.(planId := planId, status := Active, startedAt := Some(now), expiresAt := Set(expiresAt),
                             lifetimeAccess := Some(false), autoRenew := Some(true), usage := ChangePlanZeroUsage(now));
      Transition(t.(subscriptions := t.subscriptions[userId := row],
                    users := UpdateUser(t.users, userId, PlanPatch(planId), now)), Ok(days))
  }

  /** The `days_remaining` of the details view. */
  datatype DaysRemaining = Lifetime | DaysLeft(days: nat) | NoExpiry

  /** `days_remaining`: "Lifetime" under lifetime access, else whole days to the expiry clamped at 0,
      else none. */
  function DaysRemainingOf(lifetime: bool, expiresAt: Field<int>, now: int): (r: DaysRemaining)
    ensures r == Lifetime <==> lifetime
    ensures r == NoExpiry <==> !lifetime && expiresAt.Get().None?
    ensures r.DaysLeft? ==> r.days == RemainingDays(expiresAt.value, now)
  {
    if lifetime then Lifetime
    else if expiresAt.Get().Some? then
      var d := WholeDays(expiresAt.value - now);
      DaysLeft(if d < 0 then 0 else d)
    else NoExpiry
  }

  datatype SubscriptionDetails = SubscriptionDetails(subscription: Subscription, planShown: PlanId,
                                                     daysRemaining: DaysRemaining)

  /** The row `get_user_subscription_details` inserts for a user without one. */
  function DefaultRow(u: User, now: int): Subscription {
    BlankSubscription.(planId := u.planId.GetOr("free"), status := Active, startedAt := Some(now), expiresAt := Null,
                       autoRenew := Some(false), lifetimeAccess := Some(u.lifetimeAccess.GetOr(false)),
                       usage := EmptyUsage)
  }

  /** The lifetime flag the details view reads: the subscription's own when present, else the user's, else false. */
  predicate LifetimeFlag(s: Subscription, u: User) {
    if s.lifetimeAccess.Some? then s.lifetimeAccess.value else u.lifetimeAccess == Some(true)
  }

  /** `get_user_subscription_details`: 404 for an unknown user; a user without a subscription gets a
      default row (the user's plan or "free", no expiry). The plan shown falls back to "free" when the
      plan is unknown. */
  function Details(t: Tables, userId: UserId, now: int): (r: Transition<Response<SubscriptionDetails>>)
    ensures userId !in t.users ==> r == Transition(t, HttpError(404))
    ensures userId in t.users ==>
      && r.result.Ok?
      && r.after == t.(subscriptions := t.subscriptions[userId := r.result.value.subscription])
      && (userId in t.subscriptions ==> r.after == t)
      && (userId !in t.subscriptions ==>
            var s := r.result.value.subscription;
            && s.planId == t.users[userId].planId.GetOr("free") && s.expiresAt == Null
            && s.status == Active && s.autoRenew == Some(false) && s.usage == EmptyUsage
            && s.lifetimeAccess == Some(t.users[userId].lifetimeAccess == Some(true)))
      && var d := r.result.value;
      && (d.planShown == if d.subscription.planId in t.plans then d.subscription.planId else "free")
      && d.daysRemaining == DaysRemainingOf(LifetimeFlag(d.subscription, t.users[userId]), d.subscription.expiresAt, now)
  {
    if userId !in t.users then Transition(t, HttpError(404))
    else
      var u := t.users[userId];
      var s := if userId in t.subscriptions then t.subscriptions[userId] else DefaultRow(u, now);
      var t' := if userId in t.subscriptions then t else t.(subscriptions := t.subscriptions[userId := s]);
      var shown := if s.planId in t.plans then s.planId else "free";
      Transition(t', Ok(SubscriptionDetails(s, shown, DaysRemainingOf(LifetimeFlag(s, u), s.expiresAt, now))))
  }

  // ---------------------------------------------------------------------------------------------
  // Properties

  /** The strict `<` of the extension and the `>` of the calculator's renewal pick the same base: a
      30-day extension is exactly the calculator's renewal of the same subscription. */
  lemma ExtensionMatchesRenewal(current: Subscription, planId: PlanId, now: int)
    ensures ExtendedExpiry(current.expiresAt, PAID_PLAN_DURATION, now) == CalculateExpiration(Renewal, planId, Some(current), now)
  {
  }

  /** An extension by `days` adds exactly `days` to the whole days remaining, counted from now when the
      term has run out or has no expiry. */
  lemma ExtensionAddsDays(current: Field<int>, days: int, now: int)
    requires days > 0
    ensures var before := if current.Get().Some? then RemainingDays(current.value, now) else 0;
            RemainingDays(ExtendedExpiry(current, days, now), now) == before + days
  {
    var base := Max(now, current.Get().GetOr(now));
    WholeDaysShift(base - now, days);
    if current.Get().Some? && current.value > now {
      assert base - now == current.value - now;
    } else {
      assert WholeDays(0) == 0;
    }
  }

  /** The router's day choice agrees with the calculator's on lower-case plan ids, and only there can it
      differ: a stored "Free" renews for 30 days where the calculator says 6. */
  lemma RouterPlanDaysVersusCalculator(planId: PlanId)
    ensures planId == Lower(planId) ==> RouterPlanDays(planId) == PlanDuration(planId)
    ensures RouterPlanDays("Free") == PAID_PLAN_DURATION && PlanDuration("Free") == FREE_PLAN_DURATION
  {
    assert Lower("Free") == "free";
  }

  /** A successful extension never takes the not-modified (500) branch: the expiry always moves. */
  lemma ExtendAlwaysModifies(t: Tables, userId: UserId, days: int, now: int)
    requires days > 0 && userId in t.subscriptions && !HasLifetimeAccess(t.subscriptions[userId])
    ensures Extend(t, userId, days, now).result.Ok?
    ensures Extend(t, userId, days, now).result.value > now
    ensures var e := t.subscriptions[userId].expiresAt;
            e.Set? ==> Extend(t, userId, days, now).result.value > e.value
  {
  }

  /** A renewal adds the plan's days to what was left. */
  lemma RenewAddsPlanDays(t: Tables, userId: UserId, now: int)
    requires userId in t.subscriptions && !HasLifetimeAccess(t.subscriptions[userId])
    ensures var s := t.subscriptions[userId];
            var before := if s.expiresAt.Get().Some? then RemainingDays(s.expiresAt.value, now) else 0;
            var r := Renew(t, userId, now);
            r.result.Ok? && RemainingDays(r.result.value, now) == before + RouterPlanDays(s.planId)
  {
    var s := t.subscriptions[userId];
    ExtensionAddsDays(s.expiresAt, RouterPlanDays(s.planId), now);
  }

  /** Granting lifetime access blocks later extensions (400) and renewals (500), and the details view
      reports "Lifetime". */
  lemma LifetimeGrantBlocksExtension(t: Tables, userId: UserId, now: int, days: int, later: int)
    requires days > 0
    ensures var t' := ToggleLifetime(t, userId, true, now).after;
            && Extend(t', userId, days, later) == Transition(t', HttpError(400))
            && Renew(t', userId, later) == Transition(t', HttpError(500))
            && (userId in t.users ==> Details(t', userId, later).result.value.daysRemaining == Lifetime)
  {
  }

  /** Revoking lifetime access of a user without a subscription still creates one: an "enterprise" row
      without expiry, which the details view then shows with no days remaining. */
  lemma RevokeWithoutSubscriptionCreatesEnterpriseRow(t: Tables, userId: UserId, now: int, later: int)
    requires userId !in t.subscriptions && userId in t.users
    ensures var t' := ToggleLifetime(t, userId, false, now).after;
            && t'.subscriptions[userId].planId == "enterprise"
            && Details(t', userId, later).result.value.daysRemaining == NoExpiry
  {
  }

  /** A plan change never carries time over: exactly the router's days remain right afterwards. */
  lemma ChangePlanStartsFresh(t: Tables, userId: UserId, planId: PlanId, now: int)
    requires planId in t.plans
    ensures var t' := ChangePlan(t, userId, planId, now).after;
            RemainingDays(t'.subscriptions[userId].expiresAt.value, now) == RouterPlanDays(planId)
  {
    WholeDaysUnique(Days(RouterPlanDays(planId)), RouterPlanDays(planId));
  }

  /** The router's requests, performed in place on one database. */
  class AdminRouter {
    const db: Database

    constructor (db: Database)
      ensures this.db == db
    {
      this.db := db;
    }

    method ExtendSubscription(userId: UserId, days: int, now: int) returns (r: Response<int>)
      modifies db
      ensures db.Snapshot() == Extend(old(db.Snapshot()), userId, days, now).after
      ensures r == Extend(old(db.Snapshot()), userId, days, now).result
    {
      if days <= 0 {
        return HttpError(422);
      }
      if userId !in db.subscriptions {
        return HttpError(404);
      }
      var s := db.subscriptions[userId];
      if HasLifetimeAccess(s) {
        return HttpError(400);
      }
      var newExpiry := ExtendedExpiry(s.expiresAt, days, now);
      var s' := s.(expiresAt := Set(newExpiry), status := Active, updatedAt := Some(now));
      db.subscriptions := db.subscriptions[userId := s'];
      db.users := UpdateUser(db.users, userId, ExpiryPatch(Set(newExpiry)), now);
      if s' == s {
        return HttpError(500);
      }
      r := Ok(newExpiry);
    }

    method RenewUserSubscription(userId: UserId, now: int) returns (r: Response<int>)
      modifies db
      ensures db.Snapshot() == Renew(old(db.Snapshot()), userId, now).after
      ensures r == Renew(old(db.Snapshot()), userId, now).result
    {
      if userId !in db.subscriptions {
        return HttpError(500);
      }
      var days := RouterPlanDays(db.subscriptions[userId].planId);
      r := ExtendSubscription(userId, days, now);
      if r.HttpError? {
        r := HttpError(500);
      }
    }

    method ToggleLifetimeAccess(userId: UserId, grant: bool, now: int) returns (r: Response<bool>)
      modifies db
      ensures db.Snapshot() == ToggleLifetime(old(db.Snapshot()), userId, grant, now).after
      ensures r == ToggleLifetime(old(db.Snapshot()), userId, grant, now).result
    {
      var existed := userId in db.subscriptions;
      if existed {
        var s := db.subscriptions[userId].(lifetimeAccess := Some(grant), status := Active, updatedAt := Some(now));
        if grant {
          s := s.(expiresAt := Null);
        }
        db.subscriptions := db.subscriptions[userId := s];
      }
      db.users := UpdateUser(db.users, userId, UserPatch(None, Some(grant), Some(if grant then Null else Set(now))), now);
      if !existed {
        db.subscriptions := db.subscriptions[userId := LifetimeFallbackRow(grant, now)];
      }
      r := Ok(grant);
    }

    method ChangeUserPlan(userId: UserId, planId: PlanId, now: int) returns (r: Response<int>)
      modifies db
      ensures db.Snapshot() == ChangePlan(old(db.Snapshot()), userId, planId, now).after
      ensures r == ChangePlan(old(db.Snapshot()), userId, planId, now).result
    {
      if planId !in db.plans {
        return HttpError(404);
      }
      var days := RouterPlanDays(planId);
      var expiresAt := now + Days(days);
      var existed := userId in db.subscriptions;
      if existed {
        db.subscriptions := db.subscriptions[userId := db.subscriptions[userId].(
          planId := planId, status := Active, startedAt := Some(now), expiresAt := Set(expiresAt),
          updatedAt := Some(now))];
      }
      db.users := UpdateUser(db.users, userId, PlanPatch(planId), now);
      if !existed {
        db.subscriptions := db.subscriptions[userId := BlankSubscription.(
          planId := planId, status := Active, startedAt := Some(now), expiresAt := Set(expiresAt),
          lifetimeAccess := Some(false), autoRenew := Some(true), usage := ChangePlanZeroUsage(now))];
      }
      r := Ok(days);
    }

    method GetUserSubscriptionDetails(userId: UserId, now: int) returns (r: Response<SubscriptionDetails>)
      modifies db
      ensures db.Snapshot() == Details(old(db.Snapshot()), userId, now).after
      ensures r == Details(old(db.Snapshot()), userId, now).result
    {
      if userId !in db.users {
        return HttpError(404);
      }
      var u := db.users[userId];
      var s;
      if userId in db.subscriptions {
        s := db.subscriptions[userId];
      } else {
        s := DefaultRow(u, now);
        db.subscriptions := db.subscriptions[userId := s];
      }
      var shown := if s.planId in db.plans then s.planId else "free";
      r := Ok(SubscriptionDetails(s, shown, DaysRemainingOf(LifetimeFlag(s, u), s.expiresAt, now)));
    }
  }
}
