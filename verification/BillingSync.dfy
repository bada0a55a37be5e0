/** What one subscription sync does, whatever the state it starts from. */
module BillingSync {
  import opened AuthStore
  import opened Entitlement
  import opened Billing

  function WithStatus(licenses: map<Id, License>, ids: set<Id>, status: LicenseStatus): map<Id, License> {
    map l | l in licenses :: if l in ids then licenses[l].(status := status) else licenses[l]
  }

  function RevokePairs(pairings: map<Id, Pairing>, ids: set<Id>): map<Id, Pairing> {
    map p | p in pairings :: if p in ids then pairings[p].(status := PairingRevoked) else pairings[p]
  }

  /** The active pairings of a set of licenses. */
  function ActiveOn(pairings: map<Id, Pairing>, licenses: set<Id>): set<Id> {
    set p | p in pairings && pairings[p].status == PairingActive && pairings[p].license in licenses
  }

  function Elements(ids: seq<Id>): set<Id> {
    set x | x in ids
  }

  // ---------------------------------------------------------------------------
  // Provisioning
  // ---------------------------------------------------------------------------

  lemma OneLicenseMore(licenses: map<Id, License>, key: Id, lic: License)
    requires key !in licenses
    ensures LicensesOf(licenses[key := lic], lic.sub) == LicensesOf(licenses, lic.sub) + {key}
    ensures |LicensesOf(licenses[key := lic], lic.sub)| == |LicensesOf(licenses, lic.sub)| + 1
  {
  }

  lemma {:induction false} AddLicensesCounts(licenses: map<Id, License>, lic: License, n: nat, keys: seq<Id>)
    ensures var after := AddLicenses(licenses, lic, n, keys);
            && (forall l | l in licenses :: l in after && after[l] == licenses[l])
            && (forall l | l in after && l !in licenses :: after[l] == lic)
            && |LicensesOf(after, lic.sub)| == |LicensesOf(licenses, lic.sub)| + n
    decreases n
  {
    hide DrawKey, Undrawn, LicensesOf;
    if n > 0 {
      OneLicenseMore(licenses, DrawKey(licenses.Keys, keys), lic);
      AddLicensesCounts(licenses[DrawKey(licenses.Keys, keys) := lic], lic, n - 1, Undrawn(keys));
    }
  }

  /** The keys that `n` draws will give. */
  function DrawnKeys(used: set<Id>, n: nat, keys: seq<Id>): set<Id>
    decreases n
  {
    if n == 0 then {}
    else
      var k := DrawKey(used, keys);
      {k} + DrawnKeys(used + {k}, n - 1, Undrawn(keys))
  }

  lemma {:induction false} AddLicensesKeys(licenses: map<Id, License>, lic: License, n: nat, keys: seq<Id>)
    ensures AddLicenses(licenses, lic, n, keys).Keys == licenses.Keys + DrawnKeys(licenses.Keys, n, keys)
    ensures licenses.Keys !! DrawnKeys(licenses.Keys, n, keys)
    decreases n
  {
    hide DrawKey, Undrawn;
    if n > 0 {
      var k := DrawKey(licenses.Keys, keys);
      assert licenses[k := lic].Keys == licenses.Keys + {k};
      AddLicensesKeys(licenses[k := lic], lic, n - 1, Undrawn(keys));
    }
  }

  /** Provisioning tops the subscription up to max_pairs and never takes a license away, whatever keys come up. */
  lemma {:induction false} ProvisionTopsUp(st: Store, sub: StripeSub, account: Id, now: Time, keys: seq<Id>)
    ensures var after := EnsureLicenses(st, sub, account, now, keys);
            && after == st.(licenses := after.licenses)
            && |LicensesOf(after.licenses, sub.id)| == Max(|LicensesOf(st.licenses, sub.id)|, sub.maxPairs)
            && (forall s | s != sub.id :: LicensesOf(after.licenses, s) == LicensesOf(st.licenses, s))
            && (forall l | l in st.licenses :: l in after.licenses && after.licenses[l] == st.licenses[l])
            && (forall l | l in after.licenses && l !in st.licenses ::
                  after.licenses[l] == License(account, sub.id, sub.item, LicenseActive, now))
  {
    AddLicensesCounts(st.licenses, License(account, sub.id, sub.item, LicenseActive, now),
                      Missing(|LicensesOf(st.licenses, sub.id)|, sub.maxPairs), keys);
  }

  // ---------------------------------------------------------------------------
  // Reactivation
  // ---------------------------------------------------------------------------

  lemma {:induction false} ReactivateAllIs(licenses: map<Id, License>, ids: seq<Id>)
    ensures ReactivateAll(licenses, ids) == WithStatus(licenses, Elements(ids), LicenseActive)
    decreases |ids|
  {
    if ids != [] {
      ReactivateAllIs(SetLicenseStatus(licenses, ids[0], LicenseActive), ids[1..]);
      assert ids == [ids[0]] + ids[1..];
    }
  }

  /** Reactivation makes every license of the subscription active and touches nothing else. */
  lemma ReactivateIs(st: Store, sub: Id)
    ensures Reactivate(st, sub) ==
            st.(licenses := WithStatus(st.licenses, LicensesOf(st.licenses, sub), LicenseActive))
  {
    ReactivateAllIs(st.licenses, Sorted(LicensesOf(st.licenses, sub)));
    assert Elements(Sorted(LicensesOf(st.licenses, sub))) == LicensesOf(st.licenses, sub);
  }

  // ---------------------------------------------------------------------------
  // Enforcement
  // ---------------------------------------------------------------------------

  /** Only statuses change, and only to revoked. */
  ghost predicate OnlyRevoked(a: map<Id, Pairing>, b: map<Id, Pairing>) {
    && a.Keys == b.Keys
    && (forall p | p in a :: b[p] == a[p] || b[p] == a[p].(status := PairingRevoked))
  }

  /** The pairings of other licenses are as they were. */
  ghost predicate OthersUntouched(a: map<Id, Pairing>, b: map<Id, Pairing>, licenses: set<Id>) {
    forall p | p in a && a[p].license !in licenses :: p in b && b[p] == a[p]
  }

  /** A cut goes through exactly when no announcement fails. */
  lemma {:induction false} CutSucceeds(pairings: map<Id, Pairing>, ids: seq<Id>, revoke: bool, fails: set<Id>)
    ensures CutAll(pairings, ids, revoke, fails).1 <==> forall p | p in ids :: p !in fails
    decreases |ids|
  {
    hide SetPairingStatus;
    if ids != [] {
      assert ids == [ids[0]] + ids[1..];
      CutSucceeds(if revoke then SetPairingStatus(pairings, ids[0], PairingRevoked) else pairings, ids[1..], revoke,
                  fails);
    }
  }

  /** One that goes through revokes them all, or, when it only announces, none. */
  lemma {:induction false} CutRevokes(pairings: map<Id, Pairing>, ids: seq<Id>, revoke: bool, fails: set<Id>)
    ensures var (after, ok) := CutAll(pairings, ids, revoke, fails);
            (!revoke ==> after == pairings) && (ok && revoke ==> after == RevokePairs(pairings, Elements(ids)))
    decreases |ids|
  {
    if ids == [] {
      assert RevokePairs(pairings, Elements(ids)) == pairings;
    } else {
      assert ids == [ids[0]] + ids[1..];
      assert Elements(ids) == {ids[0]} + Elements(ids[1..]);
      RevokeFirst(pairings, ids[0], Elements(ids[1..]));
      hide RevokePairs, Elements, SetPairingStatus;
      CutRevokes(if revoke then SetPairingStatus(pairings, ids[0], PairingRevoked) else pairings, ids[1..], revoke,
                 fails);
    }
  }

  /** However it ends, a cut only revokes, and only the given pairings. */
  lemma {:induction false} CutTouches(pairings: map<Id, Pairing>, ids: seq<Id>, revoke: bool, fails: set<Id>)
    ensures var after := CutAll(pairings, ids, revoke, fails).0;
            OnlyRevoked(pairings, after) && forall p | p in pairings && p !in ids :: after[p] == pairings[p]
    decreases |ids|
  {
    if ids != [] {
      assert ids == [ids[0]] + ids[1..];
      CutTouches(if revoke then SetPairingStatus(pairings, ids[0], PairingRevoked) else pairings, ids[1..], revoke,
                 fails);
    }
  }

  lemma CutAllIs(pairings: map<Id, Pairing>, ids: seq<Id>, revoke: bool, fails: set<Id>)
    ensures var (after, ok) := CutAll(pairings, ids, revoke, fails);
            && (ok <==> forall p | p in ids :: p !in fails)
            && (!revoke ==> after == pairings)
            && (ok && revoke ==> after == RevokePairs(pairings, Elements(ids)))
            && OnlyRevoked(pairings, after)
            && (forall p | p in pairings && p !in ids :: after[p] == pairings[p])
  {
    CutSucceeds(pairings, ids, revoke, fails);
    CutRevokes(pairings, ids, revoke, fails);
    CutTouches(pairings, ids, revoke, fails);
    hide CutAll, RevokePairs;
  }

  lemma RevokeFirst(pairings: map<Id, Pairing>, first: Id, rest: set<Id>)
    ensures RevokePairs(SetPairingStatus(pairings, first, PairingRevoked), rest) ==
            RevokePairs(pairings, {first} + rest)
    ensures rest == {} ==> SetPairingStatus(pairings, first, PairingRevoked) == RevokePairs(pairings, {first})
  {
  }

  /** The license at the head of the list: its own active pairings, and nobody else's, are cut. */
  lemma CutOneIs(pairings: map<Id, Pairing>, license: Id, rest: set<Id>, revoke: bool, fails: set<Id>)
    requires license !in rest
    ensures var (after, ok) := CutAll(pairings, Sorted(ActivePairs(pairings, license)), revoke, fails);
            && (ok <==> ActiveOn(pairings, {license}) !! fails)
            && (!revoke ==> after == pairings)
            && (ok && revoke ==> after == RevokePairs(pairings, ActiveOn(pairings, {license})))
            && (ok ==> ActiveOn(after, rest) == ActiveOn(pairings, rest))
            && OnlyRevoked(pairings, after) && OthersUntouched(pairings, after, {license})
  {
    hide CutAll, RevokePairs;
    var ids := Sorted(ActivePairs(pairings, license));
    CutAllIs(pairings, ids, revoke, fails);
    assert Elements(ids) == ActivePairs(pairings, license) == ActiveOn(pairings, {license});
    assert forall p | p in ids :: p in Elements(ids);
    OthersStayActive(pairings, license, rest);
  }

  lemma OthersStayActive(pairings: map<Id, Pairing>, license: Id, rest: set<Id>)
    requires license !in rest
    ensures ActiveOn(RevokePairs(pairings, ActiveOn(pairings, {license})), rest) == ActiveOn(pairings, rest)
  {
  }

  /** Enforcement as one update, when every announcement goes through. */
  function Cutoff(st: Store, ids: set<Id>): Store {
    st.(licenses := WithStatus(st.licenses, ids, LicenseRevoked),
        pairings := RevokePairs(st.pairings, ActiveOn(st.pairings, ids)))
  }

  lemma SplitCutoff(st: Store, head: Id, rest: set<Id>)
    requires head !in rest
    ensures Cutoff(Cutoff(st, {head}), rest) == Cutoff(st, {head} + rest)
    ensures ActiveOn(st.pairings, {head} + rest) == ActiveOn(st.pairings, {head}) + ActiveOn(st.pairings, rest)
  {
  }

  lemma NoCutoff(st: Store)
    ensures Cutoff(st, {}) == st && ActiveOn(st.pairings, {}) == {}
  {
  }

  /** Even when it stops halfway, enforcement only ever revokes, and only the given licenses. */
  ghost predicate OnlyEnforced(a: Store, b: Store, ids: set<Id>) {
    && b == a.(licenses := b.licenses, pairings := b.pairings)
    && OnlyRevoked(a.pairings, b.pairings) && OthersUntouched(a.pairings, b.pairings, ids)
    && b.licenses.Keys == a.licenses.Keys
    && (forall l | l in a.licenses ::
          b.licenses[l] == a.licenses[l] || (l in ids && b.licenses[l] == a.licenses[l].(status := LicenseRevoked)))
  }

  lemma OnlyEnforcedChains(a: Store, b: Store, c: Store, head: Id, ids: set<Id>)
    requires OnlyEnforced(a, b, {head}) && OnlyEnforced(b, c, ids)
    ensures OnlyEnforced(a, c, {head} + ids)
  {
  }

  lemma RevokeOneLicense(licenses: map<Id, License>, id: Id)
    ensures var after := SetLicenseStatus(licenses, id, LicenseRevoked);
            && after == WithStatus(licenses, {id}, LicenseRevoked)
            && after.Keys == licenses.Keys
            && (forall l | l in licenses ::
                 after[l] == licenses[l] || (l == id && after[l] == licenses[l].(status := LicenseRevoked)))
  {
  }

  lemma EnforceOneIs(st: Store, license: Id, rest: set<Id>, revoke: bool, fails: set<Id>)
    requires license !in rest
    ensures var (after, ok) := EnforceOne(st, license, revoke, fails);
            && (ok <==> ActiveOn(st.pairings, {license}) !! fails)
            && (!revoke ==> after == st)
            && (ok && revoke ==> after == Cutoff(st, {license}))
            && (ok ==> ActiveOn(after.pairings, rest) == ActiveOn(st.pairings, rest))
            && OnlyEnforced(st, after, {license})
  {
    hide CutAll, Sorted, ActiveOn, RevokePairs, OnlyRevoked, OthersUntouched, SetLicenseStatus, WithStatus;
    CutOneIs(st.pairings, license, rest, revoke, fails);
    RevokeOneLicense(st.licenses, license);
  }

  lemma HeadAndRest(ids: seq<Id>)
    requires ids != [] && Distinct(ids)
    ensures Elements(ids) == {ids[0]} + Elements(ids[1..]) && ids[0] !in Elements(ids[1..]) && Distinct(ids[1..])
  {
  }

  /** Enforcement succeeds exactly when no affected pairing's announcement fails, and then is the cutoff. */
  lemma {:induction false} EnforceAllIs(st: Store, ids: seq<Id>, revoke: bool, fails: set<Id>)
    requires Distinct(ids)
    ensures var (after, ok) := EnforceAll(st, ids, revoke, fails);
            && (ok <==> ActiveOn(st.pairings, Elements(ids)) !! fails)
            && (!revoke ==> after == st)
            && (ok && revoke ==> after == Cutoff(st, Elements(ids)))
            && OnlyEnforced(st, after, Elements(ids))
    decreases |ids|
  {
    if ids == [] {
      NoCutoff(st);
      assert Elements(ids) == {};
    } else {
      hide EnforceOne, Cutoff, ActiveOn, Elements, OnlyEnforced, Distinct;
      var rest := Elements(ids[1..]);
      HeadAndRest(ids);
      EnforceOneIs(st, ids[0], rest, revoke, fails);
      SplitCutoff(st, ids[0], rest);
      var (next, ok) := EnforceOne(st, ids[0], revoke, fails);
      if ok {
        EnforceAllIs(next, ids[1..], revoke, fails);
        OnlyEnforcedChains(st, next, EnforceAll(next, ids[1..], revoke, fails).0, ids[0], rest);
      } else {
        OnlyEnforcedWider(st, next, ids[0], rest);
      }
    }
  }

  lemma OnlyEnforcedWider(a: Store, b: Store, head: Id, ids: set<Id>)
    requires OnlyEnforced(a, b, {head})
    ensures OnlyEnforced(a, b, {head} + ids)
  {
  }

  /** Enforcement of a subscription. */
  lemma EnforceIs(st: Store, sub: Id, behavior: Behavior, fails: set<Id>)
    ensures var (after, ok) := Enforce(st, sub, behavior, fails);
            var ids := LicensesOf(st.licenses, sub);
            && (ok <==> ActiveOn(st.pairings, ids) !! fails)
            && (behavior != Revoked ==> after == st)
            && (ok && behavior == Revoked ==> after == Cutoff(st, ids))
            && OnlyEnforced(st, after, ids)
  {
    var ids := Sorted(LicensesOf(st.licenses, sub));
    assert Distinct(ids);
    assert Elements(ids) == LicensesOf(st.licenses, sub);
    EnforceAllIs(st, ids, behavior == Revoked, fails);
    hide EnforceAll, Sorted, Cutoff, ActiveOn, OnlyEnforced;
  }

  // ---------------------------------------------------------------------------
  // The sync
  // ---------------------------------------------------------------------------

  /** The store between provisioning and enforcement. */
  function Provisioned(st: Store, sub: StripeSub, account: Id, now: Time, grace: Time, w: World): Store {
    EnsureLicenses(st.(subs := st.subs[sub.id := Mirror(st, sub, account, now, grace)]), sub, account, now,
                   w.KeysFor(sub.id))
  }

  /** Sync, in three cases of what the mirror evaluates to. */
  lemma SyncCases(st: Store, sub: StripeSub, account: Id, now: Time, grace: Time, w: World)
    ensures var (after, ok) := SyncSubscription(st, sub, account, now, grace, w);
            var mid := Provisioned(st, sub, account, now, grace, w);
            var ids, behavior := LicensesOf(mid.licenses, sub.id), Evaluate(Mirror(st, sub, account, now, grace), now);
            && (Enforced(behavior) ==> (ok <==> ActiveOn(mid.pairings, ids) !! w.fails))
            && (Enforced(behavior) ==> OnlyEnforced(mid, after, ids))
            && (ok && behavior == Revoked ==> after == Cutoff(mid, ids))
            && (behavior == Suspended ==> after == mid)
            && (!Enforced(behavior) ==> ok && after == mid.(licenses := WithStatus(mid.licenses, ids, LicenseActive)))
  {
    hide EnsureLicenses, Enforce, Reactivate, Mirror, Cutoff, ActiveOn, WithStatus, LicensesOf, OnlyEnforced;
    var mid := Provisioned(st, sub, account, now, grace, w);
    EnforceIs(mid, sub.id, Evaluate(Mirror(st, sub, account, now, grace), now), w.fails);
    ReactivateIs(mid, sub.id);
  }

  /** The licenses and pairings of a subscription say what its mirror evaluates to. */
  ghost predicate Honored(st: Store, sub: Id, behavior: Behavior) {
    var ids := LicensesOf(st.licenses, sub);
    && (behavior == Revoked ==>
          (forall l | l in ids :: st.licenses[l].status == LicenseRevoked) && ActiveOn(st.pairings, ids) == {})
    && (Issuable(behavior) ==> forall l | l in ids :: st.licenses[l].status == LicenseActive)
  }

  lemma CutoffHonors(st: Store, sub: Id)
    ensures Honored(Cutoff(st, LicensesOf(st.licenses, sub)), sub, Revoked)
    ensures Cutoff(st, LicensesOf(st.licenses, sub)).subs == st.subs
  {
  }

  lemma ActiveHonors(st: Store, sub: Id)
    ensures var after := st.(licenses := WithStatus(st.licenses, LicensesOf(st.licenses, sub), LicenseActive));
            && LicensesOf(after.licenses, sub) == LicensesOf(st.licenses, sub)
            && Honored(after, sub, Valid) && Honored(after, sub, Grace)
  {
  }

  lemma UntouchedHonors(st: Store, sub: Id)
    ensures Honored(st, sub, Suspended)
  {
  }

  /**
   After a sync that reports no error, the licenses say what the mirror evaluates to: all
   revoked with every pairing cut when it is Revoked, all active when it is Valid or Grace.
   Valid and Grace never fail; they and Suspended leave the pairings alone, and Suspended
   leaves the licenses alone, too.
   */
  lemma SyncSettles(st: Store, sub: StripeSub, account: Id, now: Time, grace: Time, w: World)
    ensures var (after, ok) := SyncSubscription(st, sub, account, now, grace, w);
            && after.subs == st.subs[sub.id := Mirror(st, sub, account, now, grace)]
            && var behavior := Evaluate(after.subs[sub.id], now);
               && (ok ==> Honored(after, sub.id, behavior))
               && (Issuable(behavior) ==> ok)
               && (behavior != Revoked ==> after.pairings == st.pairings)
               && (behavior == Suspended ==>
                    forall l | l in st.licenses :: l in after.licenses && after.licenses[l] == st.licenses[l])
  {
    hide SyncSubscription, Provisioned, Mirror, Cutoff, WithStatus, LicensesOf, Honored, OnlyRevoked, ActiveOn;
    var mid := Provisioned(st, sub, account, now, grace, w);
    ProvisionedIs(st, sub, account, now, grace, w);
    SyncCases(st, sub, account, now, grace, w);
    CutoffHonors(mid, sub.id);
    ActiveHonors(mid, sub.id);
    UntouchedHonors(mid, sub.id);
  }

  lemma ProvisionedIs(st: Store, sub: StripeSub, account: Id, now: Time, grace: Time, w: World)
    ensures var mid := Provisioned(st, sub, account, now, grace, w);
            && mid == st.(subs := st.subs[sub.id := Mirror(st, sub, account, now, grace)], licenses := mid.licenses)
            && (forall l | l in st.licenses :: l in mid.licenses && mid.licenses[l] == st.licenses[l])
  {
    hide EnsureLicenses, Mirror, LicensesOf;
    ProvisionTopsUp(st.(subs := st.subs[sub.id := Mirror(st, sub, account, now, grace)]), sub, account, now,
                    w.KeysFor(sub.id));
  }

  /**
   A sync fails exactly when the subscription is cut off and announcing one of the
   pairings active on its licenses fails.
   */
  lemma SyncFailsExactlyWhen(st: Store, sub: StripeSub, account: Id, now: Time, grace: Time, w: World)
    ensures var mid := Provisioned(st, sub, account, now, grace, w);
            !SyncSubscription(st, sub, account, now, grace, w).1 <==>
            && Enforced(Evaluate(Mirror(st, sub, account, now, grace), now))
            && exists p :: p in w.fails && p in ActiveOn(mid.pairings, LicensesOf(mid.licenses, sub.id))
  {
    SyncCases(st, sub, account, now, grace, w);
    hide Provisioned, SyncSubscription, Mirror, ActiveOn, OnlyEnforced;
  }

  /** Outside its own mirror and licenses a sync only revokes pairings, and licenses keep their owner. */
  ghost predicate SyncFrame(a: Store, b: Store, sub: Id) {
    && b == a.(subs := b.subs, licenses := b.licenses, pairings := b.pairings)
    && OnlyRevoked(a.pairings, b.pairings)
    && (forall l | l in a.licenses ::
         l in b.licenses && b.licenses[l] == a.licenses[l].(status := b.licenses[l].status))
    && (forall l | l in a.licenses && a.licenses[l].sub != sub :: b.licenses[l] == a.licenses[l])
    && (forall s | s != sub :: LicensesOf(b.licenses, s) == LicensesOf(a.licenses, s))
    && (forall p | p in a.pairings && a.pairings[p].license in a.licenses
                   && a.licenses[a.pairings[p].license].sub != sub :: b.pairings[p] == a.pairings[p])
  }

  /** A settled store inherits the frame of its provisioning. */
  lemma FrameThroughSettling(st: Store, mid: Store, after: Store, sub: Id)
    requires mid == st.(subs := mid.subs, licenses := mid.licenses)
    requires forall l | l in st.licenses :: l in mid.licenses && mid.licenses[l] == st.licenses[l]
    requires forall s | s != sub :: LicensesOf(mid.licenses, s) == LicensesOf(st.licenses, s)
    requires || OnlyEnforced(mid, after, LicensesOf(mid.licenses, sub))
             || after == mid.(licenses := WithStatus(mid.licenses, LicensesOf(mid.licenses, sub), LicenseActive))
    ensures SyncFrame(st, after, sub)
    ensures LicensesOf(after.licenses, sub) == LicensesOf(mid.licenses, sub)
  {
  }

  /** However it ends, a sync leaves Max(had, max_pairs) licenses, and keeps to its frame. */
  lemma SyncCounts(st: Store, sub: StripeSub, account: Id, now: Time, grace: Time, w: World)
    ensures var after := SyncSubscription(st, sub, account, now, grace, w).0;
            && |LicensesOf(after.licenses, sub.id)| == Max(|LicensesOf(st.licenses, sub.id)|, sub.maxPairs)
            && SyncFrame(st, after, sub.id)
  {
    ProvisionTopsUp(st.(subs := st.subs[sub.id := Mirror(st, sub, account, now, grace)]), sub, account, now,
                    w.KeysFor(sub.id));
    SyncCases(st, sub, account, now, grace, w);
    hide EnsureLicenses, SyncSubscription, Mirror, AddLicenses, Cutoff, LicensesOf, OnlyEnforced, SyncFrame, ActiveOn,
        WithStatus;
    FrameThroughSettling(st, Provisioned(st, sub, account, now, grace, w),
                         SyncSubscription(st, sub, account, now, grace, w).0, sub.id);
  }

  /** A pairing is active on a license of the subscription. */
  predicate ActiveUnder(pairings: map<Id, Pairing>, licenses: map<Id, License>, sub: Id, p: Id) {
    && p in pairings && pairings[p].status == PairingActive
    && pairings[p].license in licenses && licenses[pairings[p].license].sub == sub
  }

  ghost predicate AllLicenses(licenses: map<Id, License>, sub: Id, status: LicenseStatus) {
    forall l | l in licenses && licenses[l].sub == sub :: licenses[l].status == status
  }

  /** The grace deadline a sync leaves: kept while past due, set when it becomes so, cleared otherwise. */
  predicate DeadlineRight(st: Store, sub: StripeSub, m: Subscription, now: Time, grace: Time) {
    var had := if sub.id in st.subs then st.subs[sub.id].graceUntil else 0;
    m.graceUntil == if sub.status != SubPastDue then 0 else if had != 0 then had else now + grace
  }

  /** The mirror is what Stripe reports, under the account, with its grace deadline. */
  lemma SyncMirrors(st: Store, sub: StripeSub, account: Id, now: Time, grace: Time, w: World)
    ensures var after := SyncSubscription(st, sub, account, now, grace, w).0;
            && sub.id in after.subs && (forall s | s != sub.id :: s in after.subs <==> s in st.subs)
            && (forall s | s in st.subs && s != sub.id :: after.subs[s] == st.subs[s])
            && var m := after.subs[sub.id];
               && m.account == account && m.status == sub.status && m.maxPairs == sub.maxPairs
               && m.periodEnd == sub.periodEnd && m.updatedAt == now && DeadlineRight(st, sub, m, now, grace)
  {
    SyncSettles(st, sub, account, now, grace, w);
    hide SyncSubscription, Honored;
  }

  /**
   A sync reports an error exactly when the mirror it leaves is not in good standing and
   announcing the cutoff of a pairing active on one of the subscription's licenses fails: it
   announces all of those then, and none otherwise.
   */
  lemma SyncAnnouncesExactly(st: Store, sub: StripeSub, account: Id, now: Time, grace: Time, w: World)
    ensures var (after, ok) := SyncSubscription(st, sub, account, now, grace, w);
            && sub.id in after.subs
            && (!ok <==> && !InGoodStanding(after.subs[sub.id], now)
                         && exists p :: p in w.fails && ActiveUnder(st.pairings, after.licenses, sub.id, p))
  {
    var mid := Provisioned(st, sub, account, now, grace, w);
    var after := SyncSubscription(st, sub, account, now, grace, w).0;
    SyncSettles(st, sub, account, now, grace, w);
    SyncFailsExactlyWhen(st, sub, account, now, grace, w);
    ProvisionedIs(st, sub, account, now, grace, w);
    SyncKeepsListing(st, sub, account, now, grace, w);
    IssuableOrEnforced(after.subs[sub.id], now);
    hide SyncSubscription, Provisioned, Mirror, Evaluate, Honored, InGoodStanding;
    assert forall p :: ActiveUnder(st.pairings, after.licenses, sub.id, p) <==>
                       p in ActiveOn(mid.pairings, LicensesOf(mid.licenses, sub.id)) by {
      assert forall l :: l in after.licenses && after.licenses[l].sub == sub.id <==>
                         l in LicensesOf(after.licenses, sub.id);
    }
    hide ActiveUnder, ActiveOn;
  }

  lemma SyncKeepsListing(st: Store, sub: StripeSub, account: Id, now: Time, grace: Time, w: World)
    ensures LicensesOf(SyncSubscription(st, sub, account, now, grace, w).0.licenses, sub.id) ==
            LicensesOf(Provisioned(st, sub, account, now, grace, w).licenses, sub.id)
  {
    SyncCases(st, sub, account, now, grace, w);
    hide SyncSubscription, Provisioned, Mirror, OnlyRevoked, OthersUntouched, ActiveOn;
  }

  /**
   What a sync leaves, told by the mirror's status and deadline. In good standing every
   license is active and no pairing is touched; paused, neither licenses nor pairings are;
   over, a sync without an error leaves every license revoked and no pairing active.
   */
  lemma SyncMeans(st: Store, sub: StripeSub, account: Id, now: Time, grace: Time, w: World)
    ensures var (after, ok) := SyncSubscription(st, sub, account, now, grace, w);
            && sub.id in after.subs
            && var m := after.subs[sub.id];
               && (InGoodStanding(m, now) ==>
                     after.pairings == st.pairings && AllLicenses(after.licenses, sub.id, LicenseActive))
               && (m.status == SubPaused ==>
                     && after.pairings == st.pairings
                     && forall l | l in st.licenses :: l in after.licenses && after.licenses[l] == st.licenses[l])
               && (Over(m, now) && ok ==>
                     && AllLicenses(after.licenses, sub.id, LicenseRevoked)
                     && forall p :: !ActiveUnder(after.pairings, after.licenses, sub.id, p))
  {
    var (after, ok) := SyncSubscription(st, sub, account, now, grace, w);
    SyncSettles(st, sub, account, now, grace, w);
    IssuableOrEnforced(after.subs[sub.id], now);
    hide SyncSubscription, Mirror, Evaluate, InGoodStanding, Over;
    var ids := LicensesOf(after.licenses, sub.id);
    assert forall l :: l in after.licenses && after.licenses[l].sub == sub.id <==> l in ids;
    assert forall p :: ActiveUnder(after.pairings, after.licenses, sub.id, p) <==> p in ActiveOn(after.pairings, ids);
    hide LicensesOf, ActiveUnder, ActiveOn;
  }

  // ---------------------------------------------------------------------------
  // What is announced
  // ---------------------------------------------------------------------------

  /** A cut announces its pairings in order, all of them unless one fails, and none that fails. */
  lemma {:induction false} CutPublishes(ids: seq<Id>, fails: set<Id>)
    ensures var told := CutPublished(ids, fails);
            && told <= ids && (forall p | p in told :: p !in fails)
            && (told == ids <==> forall p | p in ids :: p !in fails)
    decreases |ids|
  {
    if ids != [] {
      assert ids == [ids[0]] + ids[1..];
      CutPublishes(ids[1..], fails);
    }
  }

  /** Enforcement announces active pairings of the licenses only, and all of them if it goes through. */
  lemma {:induction false} EnforcePublishes(st: Store, ids: seq<Id>, revoke: bool, fails: set<Id>)
    requires Distinct(ids)
    ensures var told := Elements(EnforcePublished(st, ids, revoke, fails));
            && told <= ActiveOn(st.pairings, Elements(ids)) && told !! fails
            && (EnforceAll(st, ids, revoke, fails).1 ==> told == ActiveOn(st.pairings, Elements(ids)))
    decreases |ids|
  {
    if ids == [] {
      NothingLeft(st, revoke, fails);
      NoCutoff(st);
    } else {
      var head, rest := ids[0], Elements(ids[1..]);
      var first := CutPublished(Sorted(ActivePairs(st.pairings, head)), fails);
      HeadAndRest(ids);
      HeadPublishes(st.pairings, head, fails);
      EnforceOneIs(st, head, rest, revoke, fails);
      SplitCutoff(st, head, rest);
      EnforceUnfolds(st, ids, 0, revoke, fails);
      var (next, ok) := EnforceOne(st, head, revoke, fails);
      assert ids[0..] == ids;
      hide EnforceOne, EnforceAll, EnforcePublished, CutPublished, ActiveOn, ActivePairs, Sorted, Distinct, Cutoff,
        OnlyEnforced;
      if ok {
        EnforcePublishes(next, ids[1..], revoke, fails);
        ElementsJoin(first, EnforcePublished(next, ids[1..], revoke, fails));
      } else {
        ElementsJoin(first, []);
        assert Elements([]) == {};
      }
      hide Elements;
    }
  }

  lemma ElementsJoin(a: seq<Id>, b: seq<Id>)
    ensures Elements(a + b) == Elements(a) + Elements(b)
  {
  }

  lemma HeadPublishes(pairings: map<Id, Pairing>, license: Id, fails: set<Id>)
    ensures var told := Elements(CutPublished(Sorted(ActivePairs(pairings, license)), fails));
            && told <= ActiveOn(pairings, {license}) && told !! fails
            && (ActiveOn(pairings, {license}) !! fails ==> told == ActiveOn(pairings, {license}))
  {
    var ids := Sorted(ActivePairs(pairings, license));
    CutPublishes(ids, fails);
    assert Elements(ids) == ActivePairs(pairings, license) == ActiveOn(pairings, {license});
    assert forall p | p in ids :: p in Elements(ids);
    hide CutPublished, Sorted, ActivePairs, ActiveOn;
  }

  /**
   A sync that leaves the mirror in good standing announces nothing. Any other one announces
   only pairings active on the subscription's licenses, and every one of them unless it
   reports an error.
   */
  lemma SyncPublishes(st: Store, sub: StripeSub, account: Id, now: Time, grace: Time, w: World)
    ensures var (after, ok) := SyncSubscription(st, sub, account, now, grace, w);
            var told := SyncPublished(st, sub, account, now, grace, w);
            && sub.id in after.subs
            && (InGoodStanding(after.subs[sub.id], now) ==> told == [])
            && (forall p | p in told :: p !in w.fails && ActiveUnder(st.pairings, after.licenses, sub.id, p))
            && (!InGoodStanding(after.subs[sub.id], now) && ok ==>
                  forall p :: ActiveUnder(st.pairings, after.licenses, sub.id, p) ==> p in told)
  {
    var mid := Provisioned(st, sub, account, now, grace, w);
    var (after, ok) := SyncSubscription(st, sub, account, now, grace, w);
    var behavior := Evaluate(Mirror(st, sub, account, now, grace), now);
    SyncSettles(st, sub, account, now, grace, w);
    ProvisionedIs(st, sub, account, now, grace, w);
    SyncKeepsListing(st, sub, account, now, grace, w);
    IssuableOrEnforced(after.subs[sub.id], now);
    SubPublishes(mid, sub.id, behavior, w.fails);
    var ids := LicensesOf(mid.licenses, sub.id);
    assert forall l :: l in after.licenses && after.licenses[l].sub == sub.id <==>
                       l in LicensesOf(after.licenses, sub.id);
    assert forall p :: ActiveUnder(st.pairings, after.licenses, sub.id, p) <==> p in ActiveOn(mid.pairings, ids);
    assert Enforced(behavior) ==> ok == Enforce(mid, sub.id, behavior, w.fails).1;
    hide SubPublished, EnsureLicenses, Mirror, Evaluate, Honored, InGoodStanding, Over, Enforce, Reactivate;
    hide ActiveUnder, ActiveOn, LicensesOf;
  }

  lemma SubPublishes(st: Store, sub: Id, behavior: Behavior, fails: set<Id>)
    ensures var told := SubPublished(st, sub, behavior, fails);
            var ids := LicensesOf(st.licenses, sub);
            && (forall p | p in told :: p !in fails && p in ActiveOn(st.pairings, ids))
            && (Enforce(st, sub, behavior, fails).1 ==> forall p | p in ActiveOn(st.pairings, ids) :: p in told)
  {
    var listed := Sorted(LicensesOf(st.licenses, sub));
    var told := SubPublished(st, sub, behavior, fails);
    assert Distinct(listed) && Elements(listed) == LicensesOf(st.licenses, sub);
    EnforcePublishes(st, listed, behavior == Revoked, fails);
    assert forall p :: p in told <==> p in Elements(told);
    hide EnforceAll, EnforcePublished, Sorted, LicensesOf, ActiveOn;
  }
}
