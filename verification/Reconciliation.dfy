/** Reconciliation heals every listed subscription, and healing again changes nothing. */
module Reconciliation {
  import opened AuthStore
  import opened Entitlement
  import opened Billing
  import opened BillingSync
  import opened BillingStops

  ghost predicate DistinctSubs(subs: seq<StripeSub>) {
    forall i, j | 0 <= i < j < |subs| :: subs[i].id != subs[j].id
  }

  /** The store already is what syncing the subscription would make of it. */
  ghost predicate Healed(st: Store, sub: StripeSub, now: Time, grace: Time) {
    && sub.customer in st.customers
    && sub.id in st.subs && st.subs[sub.id] == Mirror(st, sub, st.customers[sub.customer], now, grace)
    && |LicensesOf(st.licenses, sub.id)| >= sub.maxPairs
    && Honored(st, sub.id, Evaluate(st.subs[sub.id], now))
  }

  /** A listed subscription without a customer is skipped. */
  ghost predicate HealedOrSkipped(st: Store, sub: StripeSub, now: Time, grace: Time) {
    sub.customer != 0 ==> Healed(st, sub, now, grace)
  }

  lemma AlreadyRevoked(st: Store, ids: set<Id>)
    requires forall l | l in ids && l in st.licenses :: st.licenses[l].status == LicenseRevoked
    requires ActiveOn(st.pairings, ids) == {}
    ensures Cutoff(st, ids) == st
  {
  }

  lemma AlreadyActive(licenses: map<Id, License>, ids: set<Id>)
    requires forall l | l in ids && l in licenses :: licenses[l].status == LicenseActive
    ensures WithStatus(licenses, ids, LicenseActive) == licenses
  {
  }

  lemma NothingMissing(st: Store, sub: StripeSub, account: Id, now: Time, keys: seq<Id>)
    requires |LicensesOf(st.licenses, sub.id)| >= sub.maxPairs
    ensures EnsureLicenses(st, sub, account, now, keys) == st
  {
  }

  lemma HealedNeedsNoSync(st: Store, sub: StripeSub, now: Time, grace: Time, w: World)
    requires Healed(st, sub, now, grace)
    ensures SyncSubscription(st, sub, st.customers[sub.customer], now, grace, w).0 == st
  {
    var account, ids := st.customers[sub.customer], LicensesOf(st.licenses, sub.id);
    assert st.(subs := st.subs[sub.id := Mirror(st, sub, account, now, grace)]) == st;
    NothingMissing(st, sub, account, now, w.KeysFor(sub.id));
    assert Provisioned(st, sub, account, now, grace, w) == st;
    hide SyncSubscription, EnsureLicenses, Mirror, Cutoff, WithStatus, ActiveOn, LicensesOf;
    SyncCases(st, sub, account, now, grace, w);
    if Evaluate(st.subs[sub.id], now) == Revoked {
      AlreadyRevoked(st, ids);
    } else if Issuable(Evaluate(st.subs[sub.id], now)) {
      AlreadyActive(st.licenses, ids);
    }
  }

  lemma HealedNeedsNothing(st: Store, sub: StripeSub, now: Time, grace: Time, w: World)
    requires HealedOrSkipped(st, sub, now, grace)
    ensures SubscriptionUpserted(st, sub, now, grace, w).0 == st
  {
    if sub.customer != 0 {
      HealedNeedsNoSync(st, sub, now, grace, w);
    }
    hide SyncSubscription, Mirror;
  }

  /** A mirror is its own next mirror. */
  lemma MirrorStable(st: Store, after: Store, sub: StripeSub, account: Id, now: Time, grace: Time)
    requires after.subs == st.subs[sub.id := Mirror(st, sub, account, now, grace)]
    ensures Mirror(after, sub, account, now, grace) == Mirror(st, sub, account, now, grace)
  {
  }

  lemma SyncHeals(st: Store, sub: StripeSub, now: Time, grace: Time, w: World)
    requires sub.customer in st.customers
    requires SyncSubscription(st, sub, st.customers[sub.customer], now, grace, w).1
    ensures Healed(SyncSubscription(st, sub, st.customers[sub.customer], now, grace, w).0, sub, now, grace)
  {
    var account := st.customers[sub.customer];
    SyncCounts(st, sub, account, now, grace, w);
    SyncSettles(st, sub, account, now, grace, w);
    hide SyncSubscription, Mirror, LicensesOf, ActiveOn, Honored;
    MirrorStable(st, SyncSubscription(st, sub, account, now, grace, w).0, sub, account, now, grace);
  }

  /** Resolving an account only adds to the account tables. */
  lemma ResolveKeeps(st: Store, customer: Id, now: Time)
    ensures var (after, account) := ResolveAccount(st, customer, now);
            && after == st.(nextId := after.nextId, accounts := after.accounts, customers := after.customers)
            && customer in after.customers && after.customers[customer] == account
            && (forall c | c in st.customers :: c in after.customers && after.customers[c] == st.customers[c])
  {
  }

  /** What a sync of one subscription leaves of every other one. */
  ghost predicate LeavesAlone(st: Store, after: Store, sub: Id) {
    && (sub in after.subs <==> sub in st.subs) && (sub in st.subs ==> after.subs[sub] == st.subs[sub])
    && LicensesOf(after.licenses, sub) == LicensesOf(st.licenses, sub)
    && (forall l | l in LicensesOf(st.licenses, sub) ::
          after.licenses[l] == st.licenses[l] && ActivePairs(after.pairings, l) == ActivePairs(st.pairings, l))
  }

  ghost predicate CustomersKept(st: Store, after: Store) {
    forall c | c in st.customers :: c in after.customers && after.customers[c] == st.customers[c]
  }

  lemma FramedLeavesAlone(st: Store, after: Store, sub: Id, other: Id, mirror: Subscription)
    requires SyncFrame(st, after, other) && sub != other && after.subs == st.subs[other := mirror]
    ensures LeavesAlone(st, after, sub)
  {
  }

  lemma UpsertLeavesAlone(st: Store, sub: Id, b: StripeSub, now: Time, grace: Time, w: World)
    requires sub != b.id
    ensures var after := SubscriptionUpserted(st, b, now, grace, w).0;
            LeavesAlone(st, after, sub) && CustomersKept(st, after)
  {
    if b.customer != 0 {
      var (mid, account) := ResolveAccount(st, b.customer, now);
      ResolveKeeps(st, b.customer, now);
      SyncCounts(mid, b, account, now, grace, w);
      SyncSettles(mid, b, account, now, grace, w);
      hide SyncSubscription, ResolveAccount, Mirror, Honored;
      FramedLeavesAlone(mid, SyncSubscription(mid, b, account, now, grace, w).0, sub, b.id,
                        Mirror(mid, b, account, now, grace));
    }
  }

  lemma HonoredAlike(st: Store, after: Store, sub: Id, behavior: Behavior)
    requires LeavesAlone(st, after, sub)
    ensures Honored(after, sub, behavior) <==> Honored(st, sub, behavior)
  {
    var ids := LicensesOf(st.licenses, sub);
    assert ActiveOn(st.pairings, ids) == {} <==> forall l | l in ids :: ActivePairs(st.pairings, l) == {} by {
      ActiveOnAll(st.pairings, ids);
    }
    assert ActiveOn(after.pairings, ids) == {} <==> forall l | l in ids :: ActivePairs(after.pairings, l) == {} by {
      ActiveOnAll(after.pairings, ids);
    }
    hide LicensesOf, ActiveOn, ActivePairs;
  }

  lemma ActiveOnAll(pairings: map<Id, Pairing>, ids: set<Id>)
    ensures ActiveOn(pairings, ids) == {} <==> forall l | l in ids :: ActivePairs(pairings, l) == {}
  {
    if p :| p in ActiveOn(pairings, ids) {
      assert p in ActivePairs(pairings, pairings[p].license);
    }
    if l, p :| l in ids && p in ActivePairs(pairings, l) {
      assert p in ActiveOn(pairings, ids);
    }
  }

  /** Syncing one subscription neither heals nor harms another one. */
  lemma UpsertKeepsOthers(st: Store, a: StripeSub, b: StripeSub, now: Time, grace: Time, w: World)
    requires a.id != b.id && (a.customer != 0 ==> a.customer in st.customers)
    ensures HealedOrSkipped(SubscriptionUpserted(st, b, now, grace, w).0, a, now, grace) <==>
            HealedOrSkipped(st, a, now, grace)
  {
    var after := SubscriptionUpserted(st, b, now, grace, w).0;
    UpsertLeavesAlone(st, a.id, b, now, grace, w);
    if a.customer != 0 && a.id in st.subs {
      HonoredAlike(st, after, a.id, Evaluate(st.subs[a.id], now));
    }
    hide SubscriptionUpserted, Honored, LicensesOf;
  }

  lemma HealedIsMirrored(st: Store, sub: StripeSub, now: Time, grace: Time)
    requires Healed(st, sub, now, grace)
    ensures sub.id in st.subs && st.subs[sub.id].status == sub.status && st.subs[sub.id].maxPairs == sub.maxPairs
  {
  }

  /** Without failing announcements, or when no error is reported, a listed subscription comes out healed. */
  lemma UpsertHeals(st: Store, sub: StripeSub, now: Time, grace: Time, w: World)
    requires (w.fails == {} || SubscriptionUpserted(st, sub, now, grace, w).1)
    ensures var after := SubscriptionUpserted(st, sub, now, grace, w).0;
            HealedOrSkipped(after, sub, now, grace)
  {
    if sub.customer != 0 {
      hide SyncSubscription, ResolveAccount, Healed, SyncFrame;
      var (mid, account) := ResolveAccount(st, sub.customer, now);
      ResolveKeeps(st, sub.customer, now);
      SyncFailsExactlyWhen(mid, sub, account, now, grace, w);
      SyncCounts(mid, sub, account, now, grace, w);
      SyncHeals(mid, sub, now, grace, w);
    }
  }

  lemma UpsertKeepsCustomers(st: Store, sub: StripeSub, now: Time, grace: Time, w: World)
    ensures CustomersKept(st, SubscriptionUpserted(st, sub, now, grace, w).0)
    ensures sub.customer != 0 ==> sub.customer in SubscriptionUpserted(st, sub, now, grace, w).0.customers
  {
    if sub.customer != 0 {
      var (mid, account) := ResolveAccount(st, sub.customer, now);
      ResolveKeeps(st, sub.customer, now);
      SyncCounts(mid, sub, account, now, grace, w);
      hide SyncSubscription, ResolveAccount;
    }
  }

  /** The rest of a pass neither heals nor harms a subscription that it does not list again. */
  lemma {:induction false} PassKeepsHealed(
      st: Store, a: StripeSub, subs: seq<StripeSub>, now: Time, grace: Time, w: World)
    requires (a.customer != 0 ==> a.customer in st.customers)
    requires forall i | 0 <= i < |subs| :: subs[i].id != a.id
    ensures HealedOrSkipped(ReconcileAll(st, subs, now, grace, w).0, a, now, grace) <==>
            HealedOrSkipped(st, a, now, grace)
    decreases |subs|
  {
    hide SubscriptionUpserted, HealedOrSkipped;
    if subs != [] {
      UpsertKeepsOthers(st, a, subs[0], now, grace, w);
      UpsertKeepsCustomers(st, subs[0], now, grace, w);
      PassKeepsHealed(SubscriptionUpserted(st, subs[0], now, grace, w).0, a, subs[1..], now, grace, w);
    }
  }

  lemma {:induction false} PassHealsAll(st: Store, subs: seq<StripeSub>, now: Time, grace: Time, w: World)
    requires DistinctSubs(subs)
    requires w.fails == {} || ReconcileAll(st, subs, now, grace, w).1
    ensures var after := ReconcileAll(st, subs, now, grace, w).0;
            forall i | 0 <= i < |subs| :: HealedOrSkipped(after, subs[i], now, grace)
    decreases |subs|
  {
    hide SubscriptionUpserted, HealedOrSkipped;
    if subs != [] {
      var next := SubscriptionUpserted(st, subs[0], now, grace, w).0;
      UpsertHeals(st, subs[0], now, grace, w);
      UpsertKeepsCustomers(st, subs[0], now, grace, w);
      PassHealsAll(next, subs[1..], now, grace, w);
      PassKeepsHealed(next, subs[0], subs[1..], now, grace, w);
    }
  }

  lemma {:induction false} HealedPassIsIdle(st: Store, subs: seq<StripeSub>, now: Time, grace: Time, w: World)
    requires forall i | 0 <= i < |subs| :: HealedOrSkipped(st, subs[i], now, grace)
    ensures ReconcileAll(st, subs, now, grace, w).0 == st
    decreases |subs|
  {
    hide SubscriptionUpserted, HealedOrSkipped;
    if subs != [] {
      HealedNeedsNothing(st, subs[0], now, grace, w);
      HealedPassIsIdle(st, subs[1..], now, grace, w);
    }
  }

  // ---------------------------------------------------------------------------
  // Exactly when a pass leaves nothing to do
  // ---------------------------------------------------------------------------

  /** Pairings are on licenses that exist. */
  ghost predicate LicensesKnown(st: Store) {
    forall p | p in st.pairings :: st.pairings[p].license in st.licenses
  }

  /** The keys a sync of the subscription will draw. */
  function WillDraw(st: Store, sub: StripeSub, w: World): set<Id> {
    DrawnKeys(st.licenses.Keys, Missing(|LicensesOf(st.licenses, sub.id)|, sub.maxPairs), w.KeysFor(sub.id))
  }

  ghost predicate FailsAt(st: Store, sub: StripeSub, l: Id, p: Id, fails: set<Id>) {
    l in LicensesOf(st.licenses, sub.id) && p in ActivePairs(st.pairings, l) && p in fails
  }

  /** Nothing remains to be enforced after the announcement of `p` on license `l`, if these keys are drawn. */
  ghost predicate NothingAfter(st: Store, sub: StripeSub, l: Id, p: Id, drawn: set<Id>) {
    LastToAnnounce(st, LicensesOf(st.licenses, sub.id), l, p) && forall k | k in drawn :: k < l
  }

  /**
   With these failures and keys the subscription comes out healed: it has no customer, is not
   revoked, or every announcement that fails is the very last thing its sync would do.
   */
  ghost predicate Settles(st: Store, sub: StripeSub, now: Time, grace: Time, w: World) {
    sub.customer != 0 && Evaluate(Mirror(st, sub, 0, now, grace), now) == Revoked ==>
      forall l, p | FailsAt(st, sub, l, p, w.fails) :: NothingAfter(st, sub, l, p, WillDraw(st, sub, w))
  }

  /** The same whatever keys are drawn: a subscription that a failure concerns lacks no license. */
  ghost predicate Undisturbed(st: Store, sub: StripeSub, now: Time, grace: Time, fails: set<Id>) {
    sub.customer != 0 && Evaluate(Mirror(st, sub, 0, now, grace), now) == Revoked ==>
      forall l, p | FailsAt(st, sub, l, p, fails) ::
        NothingAfter(st, sub, l, p, {}) && |LicensesOf(st.licenses, sub.id)| >= sub.maxPairs
  }

  /** What provisioning adds: active licenses under the drawn keys, and nothing on them. */
  lemma AddedLicenses(st: Store, mid: Store, lic: License, drawn: set<Id>)
    requires LicensesKnown(st) && lic.status == LicenseActive && mid.pairings == st.pairings
    requires mid.licenses.Keys == st.licenses.Keys + drawn && st.licenses.Keys !! drawn
    requires forall l | l in st.licenses :: mid.licenses[l] == st.licenses[l]
    requires forall l | l in drawn :: mid.licenses[l] == lic
    ensures LicensesOf(mid.licenses, lic.sub) == LicensesOf(st.licenses, lic.sub) + drawn
    ensures forall k | k in LicensesOf(st.licenses, lic.sub) :: k !in drawn && (Quiet(mid, k) <==> Quiet(st, k))
    ensures forall k | k in drawn :: !Quiet(mid, k) && ActivePairs(st.pairings, k) == {}
  {
  }

  lemma ProvisionedAdds(st: Store, sub: StripeSub, account: Id, now: Time, grace: Time, w: World)
    ensures var mid, drawn := Provisioned(st, sub, account, now, grace, w), WillDraw(st, sub, w);
            && mid.pairings == st.pairings
            && mid.licenses.Keys == st.licenses.Keys + drawn && st.licenses.Keys !! drawn
            && (forall l | l in st.licenses :: mid.licenses[l] == st.licenses[l])
            && (forall l | l in drawn ::
                 mid.licenses[l] == License(account, sub.id, sub.item, LicenseActive, now))
  {
    var lic := License(account, sub.id, sub.item, LicenseActive, now);
    var n := Missing(|LicensesOf(st.licenses, sub.id)|, sub.maxPairs);
    AddLicensesCounts(st.licenses, lic, n, w.KeysFor(sub.id));
    AddLicensesKeys(st.licenses, lic, n, w.KeysFor(sub.id));
    hide Mirror, AddLicenses, DrawnKeys, LicensesOf, Missing;
  }

  lemma ProvisionedParts(st: Store, sub: StripeSub, account: Id, now: Time, grace: Time, w: World)
    requires LicensesKnown(st)
    ensures var mid, drawn := Provisioned(st, sub, account, now, grace, w), WillDraw(st, sub, w);
            && mid.pairings == st.pairings
            && LicensesOf(mid.licenses, sub.id) == LicensesOf(st.licenses, sub.id) + drawn
            && (forall k | k in LicensesOf(st.licenses, sub.id) :: k !in drawn && (Quiet(mid, k) <==> Quiet(st, k)))
            && (forall k | k in drawn :: !Quiet(mid, k) && ActivePairs(st.pairings, k) == {})
  {
    hide *;
    ProvisionedAdds(st, sub, account, now, grace, w);
    AddedLicenses(st, Provisioned(st, sub, account, now, grace, w),
                  License(account, sub.id, sub.item, LicenseActive, now), WillDraw(st, sub, w));
  }

  /** Whether failures matter to enforcement can be read off before provisioning. */
  lemma HarmlessBeforeProvisioning(st: Store, sub: StripeSub, account: Id, now: Time, grace: Time, w: World)
    requires LicensesKnown(st)
    ensures var mid := Provisioned(st, sub, account, now, grace, w);
            Harmless(mid, LicensesOf(mid.licenses, sub.id), w.fails) <==>
            forall l, p | FailsAt(st, sub, l, p, w.fails) :: NothingAfter(st, sub, l, p, WillDraw(st, sub, w))
  {
    var mid, drawn := Provisioned(st, sub, account, now, grace, w), WillDraw(st, sub, w);
    ProvisionedParts(st, sub, account, now, grace, w);
    var had, all := LicensesOf(st.licenses, sub.id), LicensesOf(mid.licenses, sub.id);
    hide Provisioned, WillDraw, LicensesOf, ActivePairs, Quiet, LastPair;
    forall l, p | l in had ensures LastToAnnounce(mid, all, l, p) <==> NothingAfter(st, sub, l, p, drawn) {
      assert forall k | k in drawn :: k in all && k != l && !Quiet(mid, k);
    }
    hide LastToAnnounce, NothingAfter;
  }

  lemma QuietIsHonored(st: Store, sub: Id)
    ensures AllQuiet(st, LicensesOf(st.licenses, sub)) <==> Honored(st, sub, Revoked)
  {
    ActiveOnAll(st.pairings, LicensesOf(st.licenses, sub));
  }

  /** A sync leaves its subscription healed exactly when the failures come too late to matter. */
  lemma SyncHealsExactlyWhen(st: Store, sub: StripeSub, now: Time, grace: Time, w: World)
    requires LicensesKnown(st) && sub.customer != 0 && sub.customer in st.customers
    ensures Healed(SyncSubscription(st, sub, st.customers[sub.customer], now, grace, w).0, sub, now, grace) <==>
            Settles(st, sub, now, grace, w)
  {
    var account := st.customers[sub.customer];
    var after := SyncSubscription(st, sub, account, now, grace, w).0;
    SyncCounts(st, sub, account, now, grace, w);
    SyncSettles(st, sub, account, now, grace, w);
    MirrorStable(st, after, sub, account, now, grace);
    if Evaluate(Mirror(st, sub, account, now, grace), now) == Revoked {
      RevokedSync(st, sub, account, now, grace, w);
      HarmlessBeforeProvisioning(st, sub, account, now, grace, w);
    } else {
      UntouchedHonors(after, sub.id);
    }
    AccountDoesNotMatter(st, sub, account, now, grace);
    hide SyncSubscription, Mirror, LicensesOf, Honored, Harmless, NothingAfter, ActivePairs, Provisioned, FailsAt,
      WillDraw;
  }

  lemma AccountDoesNotMatter(st: Store, sub: StripeSub, account: Id, now: Time, grace: Time)
    ensures Evaluate(Mirror(st, sub, account, now, grace), now) == Evaluate(Mirror(st, sub, 0, now, grace), now)
  {
  }

  lemma RevokedSyncEnforces(st: Store, sub: StripeSub, account: Id, now: Time, grace: Time, w: World)
    requires Evaluate(Mirror(st, sub, account, now, grace), now) == Revoked
    ensures SyncSubscription(st, sub, account, now, grace, w).0 ==
            Enforce(Provisioned(st, sub, account, now, grace, w), sub.id, Revoked, w.fails).0
  {
    hide Enforce, Mirror, EnsureLicenses;
  }

  lemma EnforceKeepsListing(st: Store, sub: Id, fails: set<Id>)
    ensures LicensesOf(Enforce(st, sub, Revoked, fails).0.licenses, sub) == LicensesOf(st.licenses, sub)
  {
    EnforceIs(st, sub, Revoked, fails);
    hide Enforce, OthersUntouched, OnlyRevoked, ActiveOn, Cutoff;
  }

  /** Revoking a subscription cuts it off for good exactly when the failures come too late to matter. */
  lemma EnforceHonorsExactlyWhen(st: Store, sub: Id, fails: set<Id>)
    ensures Honored(Enforce(st, sub, Revoked, fails).0, sub, Revoked) <==>
            Harmless(st, LicensesOf(st.licenses, sub), fails)
  {
    var listed := Sorted(LicensesOf(st.licenses, sub));
    assert Elements(listed) == LicensesOf(st.licenses, sub);
    assert Enforce(st, sub, Revoked, fails) == EnforceAll(st, listed, true, fails) by {
      hide EnforceAll, LicensesOf;
    }
    hide *;
    EnforceKeepsListing(st, sub, fails);
    QuietIsHonored(Enforce(st, sub, Revoked, fails).0, sub);
    AscendingSorted(LicensesOf(st.licenses, sub));
    EnforcementCompleteExactlyWhen(st, listed, fails);
  }

  lemma RevokedSync(st: Store, sub: StripeSub, account: Id, now: Time, grace: Time, w: World)
    requires Evaluate(Mirror(st, sub, account, now, grace), now) == Revoked
    ensures var mid := Provisioned(st, sub, account, now, grace, w);
            Honored(SyncSubscription(st, sub, account, now, grace, w).0, sub.id, Revoked) <==>
            Harmless(mid, LicensesOf(mid.licenses, sub.id), w.fails)
  {
    hide *;
    RevokedSyncEnforces(st, sub, account, now, grace, w);
    EnforceHonorsExactlyWhen(Provisioned(st, sub, account, now, grace, w), sub.id, w.fails);
  }

  lemma UpsertHealsExactlyWhen(st: Store, sub: StripeSub, now: Time, grace: Time, w: World)
    requires LicensesKnown(st)
    ensures HealedOrSkipped(SubscriptionUpserted(st, sub, now, grace, w).0, sub, now, grace) <==>
            Settles(st, sub, now, grace, w)
  {
    if sub.customer != 0 {
      var (mid, account) := ResolveAccount(st, sub.customer, now);
      ResolveKeeps(st, sub.customer, now);
      SettlesAlike(st, mid, sub, now, grace, w);
      hide SyncSubscription, ResolveAccount, Settles, Healed;
      SyncHealsExactlyWhen(mid, sub, now, grace, w);
    }
  }

  lemma SettlesAlike(st: Store, after: Store, sub: StripeSub, now: Time, grace: Time, w: World)
    requires after == st.(nextId := after.nextId, accounts := after.accounts, customers := after.customers)
    ensures Settles(after, sub, now, grace, w) <==> Settles(st, sub, now, grace, w)
  {
    forall l, p ensures FailsAt(after, sub, l, p, w.fails) <==> FailsAt(st, sub, l, p, w.fails) {
    }
    forall l, p, drawn ensures NothingAfter(after, sub, l, p, drawn) <==> NothingAfter(st, sub, l, p, drawn) {
    }
    assert WillDraw(after, sub, w) == WillDraw(st, sub, w);
    assert Mirror(after, sub, 0, now, grace) == Mirror(st, sub, 0, now, grace);
    hide FailsAt, NothingAfter, WillDraw, Mirror;
  }

  lemma UpsertKeepsLicensesKnown(st: Store, sub: StripeSub, now: Time, grace: Time, w: World)
    requires LicensesKnown(st)
    ensures LicensesKnown(SubscriptionUpserted(st, sub, now, grace, w).0)
  {
    if sub.customer != 0 {
      var (mid, account) := ResolveAccount(st, sub.customer, now);
      ResolveKeeps(st, sub.customer, now);
      SyncCounts(mid, sub, account, now, grace, w);
      hide SyncSubscription, ResolveAccount, LicensesOf;
    }
  }

  /** The store when a pass reaches its subscription number `i`. */
  function AtTurn(st: Store, subs: seq<StripeSub>, i: nat, now: Time, grace: Time, w: World): Store
    requires i <= |subs|
  {
    ReconcileAll(st, subs[..i], now, grace, w).0
  }

  lemma FirstTurn(st: Store, subs: seq<StripeSub>, now: Time, grace: Time, w: World)
    requires subs != []
    ensures AtTurn(st, subs, 0, now, grace, w) == st
    ensures var next := SubscriptionUpserted(st, subs[0], now, grace, w).0;
            ReconcileAll(st, subs, now, grace, w).0 == ReconcileAll(next, subs[1..], now, grace, w).0
  {
    hide SubscriptionUpserted;
  }

  lemma AtTurnSteps(st: Store, subs: seq<StripeSub>, i: nat, now: Time, grace: Time, w: World)
    requires 0 < i <= |subs|
    ensures AtTurn(st, subs, i, now, grace, w) ==
            AtTurn(SubscriptionUpserted(st, subs[0], now, grace, w).0, subs[1..], i - 1, now, grace, w)
  {
    hide SubscriptionUpserted;
    assert subs[..i][1..] == subs[1..][..i - 1];
  }

  /** A pass heals exactly the listed subscriptions that settle when their turn comes. */
  lemma {:induction false} PassHealsExactly(
      st: Store, subs: seq<StripeSub>, i: nat, now: Time, grace: Time, w: World)
    requires LicensesKnown(st) && DistinctSubs(subs) && i < |subs|
    ensures HealedOrSkipped(ReconcileAll(st, subs, now, grace, w).0, subs[i], now, grace) <==>
            Settles(AtTurn(st, subs, i, now, grace, w), subs[i], now, grace, w)
    decreases |subs|
  {
    hide SubscriptionUpserted, HealedOrSkipped, LicensesKnown, Settles, AtTurn, ReconcileAll;
    var next, rest := SubscriptionUpserted(st, subs[0], now, grace, w).0, subs[1..];
    FirstTurn(st, subs, now, grace, w);
    if i == 0 {
      UpsertHealsExactlyWhen(st, subs[0], now, grace, w);
      UpsertKeepsCustomers(st, subs[0], now, grace, w);
      PassKeepsHealed(next, subs[0], rest, now, grace, w);
    } else {
      UpsertKeepsLicensesKnown(st, subs[0], now, grace, w);
      PassHealsExactly(next, rest, i - 1, now, grace, w);
      AtTurnSteps(st, subs, i, now, grace, w);
    }
  }

  /** In a pass with these failures and keys every listed subscription settles in its turn. */
  ghost predicate AllSettle(st: Store, subs: seq<StripeSub>, now: Time, grace: Time, w: World) {
    forall i | 0 <= i < |subs| :: Settles(AtTurn(st, subs, i, now, grace, w), subs[i], now, grace, w)
  }

  /**
   For distinct ids and a fixed clock, a second pass in which nothing fails leaves the whole
   store as it is if and only if in the first pass every failing announcement of a revoked
   subscription was the very last thing its sync would do. Then no second pass changes
   anything, whatever fails in it and whatever keys it would draw.
   */
  lemma {:induction false} ReconcileIdempotentExactlyWhen(
      st: Store, subs: seq<StripeSub>, now: Time, grace: Time, w: World, later: World)
    requires LicensesKnown(st) && DistinctSubs(subs)
    ensures var after := ReconcileAll(st, subs, now, grace, w).0;
            var idle := ReconcileAll(after, subs, now, grace, later).0 == after;
            && (AllSettle(st, subs, now, grace, w) ==> idle)
            && (later.fails == {} && idle ==> AllSettle(st, subs, now, grace, w))
  {
    var after := ReconcileAll(st, subs, now, grace, w).0;
    hide ReconcileAll, Settles, HealedOrSkipped, AtTurn;
    forall i | 0 <= i < |subs|
      ensures HealedOrSkipped(after, subs[i], now, grace) <==>
              Settles(AtTurn(st, subs, i, now, grace, w), subs[i], now, grace, w)
    {
      PassHealsExactly(st, subs, i, now, grace, w);
    }
    if AllSettle(st, subs, now, grace, w) {
      HealedPassIsIdle(after, subs, now, grace, later);
    } else if later.fails == {} && ReconcileAll(after, subs, now, grace, later).0 == after {
      PassHealsAll(after, subs, now, grace, later);
    }
  }

  // ---------------------------------------------------------------------------
  // For every draw of keys
  // ---------------------------------------------------------------------------

  /** The condition speaks of the subscription's own mirror, licenses and pairings only. */
  lemma UndisturbedAlike(st: Store, after: Store, sub: StripeSub, now: Time, grace: Time, fails: set<Id>)
    requires LeavesAlone(st, after, sub.id)
    ensures Undisturbed(after, sub, now, grace, fails) <==> Undisturbed(st, sub, now, grace, fails)
  {
    assert Mirror(after, sub, 0, now, grace) == Mirror(st, sub, 0, now, grace);
    var ids := LicensesOf(st.licenses, sub.id);
    assert forall k | k in ids :: Quiet(after, k) <==> Quiet(st, k);
    forall k, p | k in ids ensures LastPair(after.pairings, k, p) <==> LastPair(st.pairings, k, p) {
      LastPairAlike(st.pairings, after.pairings, k, p);
    }
    hide Mirror, LicensesOf, ActivePairs, Quiet, LastPair;
    forall l, p ensures FailsAt(after, sub, l, p, fails) <==> FailsAt(st, sub, l, p, fails) {
    }
    forall l, p | l in ids ensures NothingAfter(after, sub, l, p, {}) <==> NothingAfter(st, sub, l, p, {}) {
    }
  }

  lemma LeavesAloneChains(a: Store, b: Store, c: Store, sub: Id)
    requires LeavesAlone(a, b, sub) && LeavesAlone(b, c, sub)
    ensures LeavesAlone(a, c, sub)
  {
    hide LicensesOf, ActivePairs;
  }

  lemma {:induction false} PassLeavesAlone(
      st: Store, sub: Id, subs: seq<StripeSub>, now: Time, grace: Time, w: World)
    requires forall i | 0 <= i < |subs| :: subs[i].id != sub
    ensures LeavesAlone(st, ReconcileAll(st, subs, now, grace, w).0, sub)
    decreases |subs|
  {
    if subs != [] {
      hide SubscriptionUpserted, LeavesAlone;
      var next := SubscriptionUpserted(st, subs[0], now, grace, w).0;
      UpsertLeavesAlone(st, sub, subs[0], now, grace, w);
      PassLeavesAlone(next, sub, subs[1..], now, grace, w);
      LeavesAloneChains(st, next, ReconcileAll(next, subs[1..], now, grace, w).0, sub);
    }
  }

  lemma UndisturbedSettles(st: Store, sub: StripeSub, now: Time, grace: Time, w: World)
    requires Undisturbed(st, sub, now, grace, w.fails)
    ensures Settles(st, sub, now, grace, w)
  {
    assert |LicensesOf(st.licenses, sub.id)| >= sub.maxPairs ==> WillDraw(st, sub, w) == {};
    hide FailsAt, WillDraw, Mirror, LicensesOf, LastToAnnounce;
  }

  /** A drawn key may sort after all licenses that the subscription has. */
  lemma HighKey(st: Store, sub: StripeSub, w: World, b: Id)
    requires |LicensesOf(st.licenses, sub.id)| < sub.maxPairs
    requires w.KeysFor(sub.id) == [b] && forall l | l in LicensesOf(st.licenses, sub.id) :: l < b
    ensures exists k :: k in WillDraw(st, sub, w) && forall l | l in LicensesOf(st.licenses, sub.id) :: l < k
  {
    assert DrawKey(st.licenses.Keys, [b]) in WillDraw(st, sub, w);
  }

  lemma DisturbedNeedNotSettle(st: Store, sub: StripeSub, now: Time, grace: Time, w: World, b: Id)
    requires !Undisturbed(st, sub, now, grace, w.fails)
    requires w.KeysFor(sub.id) == [b] && forall l | l in LicensesOf(st.licenses, sub.id) :: l < b
    ensures !Settles(st, sub, now, grace, w)
  {
    if |LicensesOf(st.licenses, sub.id)| < sub.maxPairs {
      HighKey(st, sub, w, b);
    }
    hide WillDraw, Mirror, LicensesOf, LastToAnnounce, ActivePairs;
  }

  lemma UndisturbedInTurn(st: Store, subs: seq<StripeSub>, i: nat, now: Time, grace: Time, w: World, fails: set<Id>)
    requires DistinctSubs(subs) && i < |subs|
    ensures LeavesAlone(st, AtTurn(st, subs, i, now, grace, w), subs[i].id)
    ensures Undisturbed(AtTurn(st, subs, i, now, grace, w), subs[i], now, grace, fails) <==>
            Undisturbed(st, subs[i], now, grace, fails)
  {
    PassLeavesAlone(st, subs[i].id, subs[..i], now, grace, w);
    hide LeavesAlone, ReconcileAll;
    UndisturbedAlike(st, AtTurn(st, subs, i, now, grace, w), subs[i], now, grace, fails);
  }

  /** A draw after which a disturbed subscription has not settled in its turn. */
  lemma DisturbingDraw(st: Store, subs: seq<StripeSub>, i: nat, now: Time, grace: Time, fails: set<Id>)
    requires DistinctSubs(subs) && i < |subs| && !Undisturbed(st, subs[i], now, grace, fails)
    ensures exists keys :: !AllSettle(st, subs, now, grace, World(fails, keys))
  {
    var b := Above(st.licenses.Keys);
    var w := World(fails, map[subs[i].id := [b]]);
    var turn := AtTurn(st, subs, i, now, grace, w);
    UndisturbedInTurn(st, subs, i, now, grace, w, fails);
    assert forall l | l in LicensesOf(turn.licenses, subs[i].id) :: l < b;
    hide AtTurn, Undisturbed, Settles, LeavesAlone, Above;
    DisturbedNeedNotSettle(turn, subs[i], now, grace, w, b);
    assert !AllSettle(st, subs, now, grace, World(fails, w.keys));
  }

  /**
   Reconciliation is idempotent, whatever license keys are drawn, exactly when no failed
   announcement disturbs it: each one that concerns a revoked subscription comes last, and
   that subscription lacks no license.
   */
  lemma {:induction false} IdempotentForEveryDrawExactlyWhen(
      st: Store, subs: seq<StripeSub>, now: Time, grace: Time, fails: set<Id>, later: World)
    requires LicensesKnown(st) && DistinctSubs(subs) && later.fails == {}
    ensures (forall keys :: var after := ReconcileAll(st, subs, now, grace, World(fails, keys)).0;
               ReconcileAll(after, subs, now, grace, later).0 == after) <==>
            forall i | 0 <= i < |subs| :: Undisturbed(st, subs[i], now, grace, fails)
  {
    hide ReconcileAll, Undisturbed, Settles, AtTurn, LicensesKnown, LeavesAlone;
    forall keys
      ensures var after := ReconcileAll(st, subs, now, grace, World(fails, keys)).0;
              ReconcileAll(after, subs, now, grace, later).0 == after <==>
              AllSettle(st, subs, now, grace, World(fails, keys))
    {
      ReconcileIdempotentExactlyWhen(st, subs, now, grace, World(fails, keys), later);
    }
    if i :| 0 <= i < |subs| && !Undisturbed(st, subs[i], now, grace, fails) {
      DisturbingDraw(st, subs, i, now, grace, fails);
    } else {
      forall keys, i | 0 <= i < |subs|
        ensures Settles(AtTurn(st, subs, i, now, grace, World(fails, keys)), subs[i], now, grace, World(fails, keys))
      {
        var w := World(fails, keys);
        UndisturbedInTurn(st, subs, i, now, grace, w, fails);
        UndisturbedSettles(AtTurn(st, subs, i, now, grace, w), subs[i], now, grace, w);
      }
    }
  }

  /** With a healthy backplane, or when the pass reports no error, a second pass changes nothing. */
  lemma {:induction false} ReconcileIsIdempotent(
      st: Store, subs: seq<StripeSub>, now: Time, grace: Time, w: World, later: World)
    requires DistinctSubs(subs)
    requires w.fails == {} || ReconcileAll(st, subs, now, grace, w).1
    ensures var after := ReconcileAll(st, subs, now, grace, w).0;
            ReconcileAll(after, subs, now, grace, later).0 == after
  {
    PassHealsAll(st, subs, now, grace, w);
    HealedPassIsIdle(ReconcileAll(st, subs, now, grace, w).0, subs, now, grace, later);
  }

  lemma {:induction false} ErrorFreeMeansCustomers(st: Store, subs: seq<StripeSub>, now: Time, grace: Time,
      w: World)
    requires ReconcileAll(st, subs, now, grace, w).1
    ensures forall i | 0 <= i < |subs| :: subs[i].customer != 0
    decreases |subs|
  {
    hide SyncSubscription, ResolveAccount;
    if subs != [] {
      ErrorFreeMeansCustomers(SubscriptionUpserted(st, subs[0], now, grace, w).0, subs[1..], now, grace, w);
    }
  }

  /** After an error-free pass every listed subscription is mirrored with Stripe's status and max_pairs. */
  lemma {:induction false} ErrorFreePassMirrors(st: Store, subs: seq<StripeSub>, now: Time, grace: Time,
      w: World, i: nat)
    requires DistinctSubs(subs) && i < |subs|
    requires ReconcileAll(st, subs, now, grace, w).1
    ensures var after := ReconcileAll(st, subs, now, grace, w).0;
            && subs[i].id in after.subs
            && after.subs[subs[i].id].status == subs[i].status && after.subs[subs[i].id].maxPairs == subs[i].maxPairs
  {
    PassHealsAll(st, subs, now, grace, w);
    ErrorFreeMeansCustomers(st, subs, now, grace, w);
    HealedIsMirrored(ReconcileAll(st, subs, now, grace, w).0, subs[i], now, grace);
  }

  // ---------------------------------------------------------------------------
  // A pass that stopped early
  // ---------------------------------------------------------------------------

  /**
   A family of disturbed passes. Take a revoked subscription with a license that has two
   active pairings, where announcing the lower one fails: the pass stops there, and a second
   pass, in which nothing fails, still changes the store, whatever keys are drawn.
   */
  lemma {:induction false} StoppedPassLeavesWork(st: Store, sub: StripeSub, license: Id, now: Time, grace: Time,
                                                 w: World, p: Id, q: Id)
    requires LicensesKnown(st) && sub.customer != 0 && license in LicensesOf(st.licenses, sub.id)
    requires Evaluate(Mirror(st, sub, 0, now, grace), now) == Revoked
    requires {p, q} <= ActivePairs(st.pairings, license) && p < q && p in w.fails
    ensures var after := ReconcileAll(st, [sub], now, grace, w).0;
            ReconcileAll(after, [sub], now, grace, World({}, w.keys)).0 != after
  {
    assert AtTurn(st, [sub], 0, now, grace, w) == st;
    assert FailsAt(st, sub, license, p, w.fails);
    assert !NothingAfter(st, sub, license, p, WillDraw(st, sub, w));
    hide ReconcileAll, AtTurn, Mirror, NothingAfter, FailsAt, WillDraw, LicensesOf, ActivePairs;
    assert [sub][0] == sub && !AllSettle(st, [sub], now, grace, w);
    ReconcileIdempotentExactlyWhen(st, [sub], now, grace, w, World({}, w.keys));
  }
}
