/** The one-off migration that moved free subscriptions from 30-day to 6-day terms: every free row with a
    start date gets `expires_at = started_at + 6 days`, and the script counts the rows it modified. */
module FreePlanMigration {
  import opened Common
  import opened Store
  import opened DurationCalculator

  /** The rows the query for plan id "free" returns: an exact match. */
  function FreeRows(subs: map<UserId, Subscription>): (r: set<UserId>)
    ensures forall u :: u in r <==> u in subs && subs[u].planId == "free"
  {
    set u | u in subs && subs[u].planId == "free"
  }

  /** The expiry the migration writes into a free row with a start date. */
  function MigratedExpiry(startedAt: int): int {
    startedAt + Days(FREE_PLAN_DURATION)
  }

  /** A row after the migration: free rows with a start date get the new expiry; all else is kept. */
  function Migrated(s: Subscription): (r: Subscription)
    ensures s.planId == "free" && s.startedAt.Some? ==> r == s.(expiresAt := Set(MigratedExpiry(s.startedAt.value)))
    ensures !(s.planId == "free" && s.startedAt.Some?) ==> r == s
  {
    if s.planId == "free" && s.startedAt.Some? then s.(expiresAt := Set(MigratedExpiry(s.startedAt.value))) else s
  }

  /** The whole table after the migration. */
  function MigrateFreePlans(subs: map<UserId, Subscription>): (r: map<UserId, Subscription>)
    ensures r.Keys == subs.Keys
    ensures forall u | u in subs :: r[u] == Migrated(subs[u])
  {
    map u | u in subs :: Migrated(subs[u])
  }

  /** The rows whose update reports a modification: those the migration actually changes. */
  function ModifiedRows(subs: map<UserId, Subscription>): set<UserId> {
    set u | u in subs && Migrated(subs[u]) != subs[u]
  }

  /** `update_free_subscriptions`, over the rows the query returned. */
  method UpdateFreeSubscriptions(db: Database) returns (updatedCount: nat)
    modifies db
    ensures db.subscriptions == MigrateFreePlans(old(db.subscriptions))
    ensures updatedCount == |ModifiedRows(old(db.subscriptions))|
    ensures db.users == old(db.users) && db.plans == old(db.plans)
    ensures db.processedPayments == old(db.processedPayments) && db.razorpaySubscriptions == old(db.razorpaySubscriptions)
  {
    var before := db.subscriptions;
    var freeSubscriptions := FreeRows(db.subscriptions);
    var pending := freeSubscriptions;
    ghost var counted: set<UserId> := {};
    updatedCount := 0;
    while pending != {}
      invariant pending <= freeSubscriptions
      invariant db.subscriptions.Keys == before.Keys
      invariant forall u | u in before :: db.subscriptions[u] == if u in freeSubscriptions - pending then Migrated(before[u]) else before[u]
      invariant forall u :: u in counted <==> u in freeSubscriptions - pending && Migrated(before[u]) != before[u]
      invariant updatedCount == |counted|
      invariant db.users == old(db.users) && db.plans == old(db.plans)
      invariant db.processedPayments == old(db.processedPayments) && db.razorpaySubscriptions == old(db.razorpaySubscriptions)
      decreases |pending|
    {
      var userId :| userId in pending;
      var subscription := before[userId];
      pending := pending - {userId};
      if subscription.startedAt.None? {
        continue;
      }
      var newExpiresAt := MigratedExpiry(subscription.startedAt.value);
      // the filter (user_id, plan_id == "free") still matches: no earlier iteration touched this row's plan
      var current := db.subscriptions[userId];
      var updated := current.(expiresAt := Set(newExpiresAt));
      db.subscriptions := db.subscriptions[userId := updated];
      if updated != current {
        updatedCount := updatedCount + 1;
        counted := counted + {userId};
      }
    }
    assert forall u :: u in counted <==> u in ModifiedRows(before);
    assert counted == ModifiedRows(before);
  }

  // ---------------------------------------------------------------------------------------------
  // Properties

  /** The count never exceeds the number of free rows the query found. */
  lemma CountBoundedByFreeRows(subs: map<UserId, Subscription>)
    ensures ModifiedRows(subs) <= FreeRows(subs)
    ensures |ModifiedRows(subs)| <= |FreeRows(subs)|
  {
    assert ModifiedRows(subs) <= FreeRows(subs);
    SubsetCardinality(ModifiedRows(subs), FreeRows(subs));
  }

  lemma {:induction false} SubsetCardinality<T>(a: set<T>, b: set<T>)
    requires a <= b
    ensures |a| <= |b|
    decreases |b|
  {
    if a != {} {
      var x :| x in a;
      SubsetCardinality(a - {x}, b - {x});
    }
  }

  /** Running the migration again changes nothing and counts no row. */
  lemma MigrationIsIdempotent(subs: map<UserId, Subscription>)
    ensures MigrateFreePlans(MigrateFreePlans(subs)) == MigrateFreePlans(subs)
    ensures ModifiedRows(MigrateFreePlans(subs)) == {}
  {
    var m := MigrateFreePlans(subs);
    assert forall u | u in m :: Migrated(m[u]) == m[u];
  }

  /** Every migrated free row now carries exactly the term the calculator gives a new free subscription
      started at the same instant; rows without a start date, and all other plans, are as they were. */
  lemma MigrationMatchesCalculator(subs: map<UserId, Subscription>, u: UserId)
    requires u in subs
    ensures var s, r := subs[u], MigrateFreePlans(subs)[u];
      && (s.planId == "free" && s.startedAt.Some? ==>
            r.expiresAt == Set(CalculateExpiration(New, s.planId, None, s.startedAt.value))
            && RemainingDays(r.expiresAt.value, s.startedAt.value) == FREE_PLAN_DURATION)
      && (s.planId != "free" || s.startedAt.None? ==> r == s)
      && r.planId == s.planId && r.startedAt == s.startedAt && r.usage == s.usage && r.status == s.status
  {
    var s := subs[u];
    if s.planId == "free" && s.startedAt.Some? {
      assert Lower("free") == "free";
      WholeDaysUnique(Days(FREE_PLAN_DURATION), FREE_PLAN_DURATION);
    }
  }
}
