/**
 What overlapping requests can do to each other: what a serial run keeps and overlapping
 completions may break, and what a phone that was replaced can still get.
 */
module AuthOverlap {
  import opened Options
  import opened Roles
  import opened AuthStore
  import opened Entitlement
  import opened AuthRaces
  import AuthSerial

  lemma {:induction false} ExecChains(s: State, a: seq<Step>, b: seq<Step>)
    ensures Exec(s, a + b) == Exec(Exec(s, a), b)
    decreases |a|
  {
    hide Next, Enabled;
    if a == [] {
      assert a + b == b;
    } else {
      assert (a + b)[1..] == a[1..] + b;
      ExecChains(if Enabled(s, a[0]) then Next(s, a[0]) else s, a[1..], b);
    }
  }

  /** A request that is stepped `n` times in a row. */
  function Gos(r: ReqId, pick: Id, n: nat): seq<Step>
    decreases n
  {
    if n == 0 then [] else [Go(r, pick)] + Gos(r, pick, n - 1)
  }

  // ---------------------------------------------------------------------------
  // The reads of a completion
  // ---------------------------------------------------------------------------

  /** Only reads lie ahead for `n` actions. */
  predicate ReadsThrough(st: Store, env: Env, q: Req, c: Completion, n: nat)
    requires q.Complete?
    decreases n
  {
    n == 0
    || (OnlyReads(c) && ReadsThrough(st, env, q, ReadComplete(st, env, q.token, q.mobile, q.key, c), n - 1))
  }

  /** What the completion knows after them. */
  function ReadOn(st: Store, env: Env, q: Req, c: Completion, n: nat): Completion
    requires q.Complete? && ReadsThrough(st, env, q, c, n)
    decreases n
  {
    if n == 0 then c else ReadOn(st, env, q, ReadComplete(st, env, q.token, q.mobile, q.key, c), n - 1)
  }

  lemma GoReads(s: State, r: ReqId, pick: Id)
    requires r in s.reqs && s.reqs[r].Complete? && OnlyReads(s.reqs[r].c)
    ensures var q := s.reqs[r];
            && Enabled(s, Go(r, pick))
            && Next(s, Go(r, pick)) ==
               s.(reqs := s.reqs[r :=
                  q.(c := ReadComplete(s.store, Env(s.now, s.config, pick), q.token, q.mobile, q.key, q.c))])
  {
    hide ReadComplete;
  }

  lemma {:induction false} ReadsOnly(s: State, r: ReqId, pick: Id, n: nat)
    requires r in s.reqs && s.reqs[r].Complete?
    requires ReadsThrough(s.store, Env(s.now, s.config, pick), s.reqs[r], s.reqs[r].c, n)
    ensures var q := s.reqs[r];
            Exec(s, Gos(r, pick, n)) ==
            s.(reqs := s.reqs[r := q.(c := ReadOn(s.store, Env(s.now, s.config, pick), q, q.c, n))])
    decreases n
  {
    var q, env := s.reqs[r], Env(s.now, s.config, pick);
    if n == 0 {
      assert s.reqs[r := q] == s.reqs;
    } else {
      var c := ReadComplete(s.store, env, q.token, q.mobile, q.key, q.c);
      var s' := s.(reqs := s.reqs[r := q.(c := c)]);
      GoReads(s, r, pick);
      hide Next, Enabled, ReadComplete;
      SameReads(s.store, env, q, q.(c := c), c, n - 1);
      ReadsOnly(s', r, pick, n - 1);
      assert Gos(r, pick, n)[1..] == Gos(r, pick, n - 1);
      assert Exec(s, Gos(r, pick, n)) == Exec(s', Gos(r, pick, n - 1));
    }
  }

  /** Reading depends on the request's own data, not on how far the record says it is. */
  lemma {:induction false} SameReads(st: Store, env: Env, q: Req, q': Req, c: Completion, n: nat)
    requires q.Complete? && q'.Complete? && q'.token == q.token && q'.mobile == q.mobile && q'.key == q.key
    requires ReadsThrough(st, env, q, c, n)
    ensures ReadsThrough(st, env, q', c, n) && ReadOn(st, env, q', c, n) == ReadOn(st, env, q, c, n)
    decreases n
  {
    hide ReadComplete;
    if n > 0 {
      SameReads(st, env, q, q', ReadComplete(st, env, q.token, q.mobile, q.key, c), n - 1);
    }
  }

  lemma OneRead(st: Store, env: Env, q: Req, c: Completion, n: nat)
    requires q.Complete? && OnlyReads(c) && n > 0
    requires ReadsThrough(st, env, q, ReadComplete(st, env, q.token, q.mobile, q.key, c), n - 1)
    ensures ReadsThrough(st, env, q, c, n)
    ensures ReadOn(st, env, q, c, n) ==
            ReadOn(st, env, q, ReadComplete(st, env, q.token, q.mobile, q.key, c), n - 1)
  {
    hide ReadComplete;
  }

  /** The completion passes every check, and its desktop has no pairing on the license yet. */
  ghost predicate Passes(st: Store, config: Config, now: Time, q: Req, pt: PairingToken, lic: License) {
    && q.Complete? && q.token in st.tokens && st.tokens[q.token] == pt && pt.Active(now)
    && pt.license in st.licenses && st.licenses[pt.license] == lic && lic.sub in st.subs
    && LicenseIssuable(st, config, now, lic) && q.key != []
    && DeviceForRole(st.devices, q.mobile, pt.account, Mobile)
    && pt.desktop in st.devices && st.devices[pt.desktop].key != []
    && (forall id :: !ReusesPairing(st, pt, id))
    && |ActivePairs(st.pairings, pt.license)| < st.subs[lic.sub].maxPairs
  }

  lemma PassesReads(st: Store, env: Env, q: Req, pt: PairingToken, lic: License)
    requires Passes(st, env.config, env.now, q, pt, lic)
    ensures ReadsThrough(st, env, q, CStart, 8)
    ensures ReadOn(st, env, q, CStart, 8) == CPlanned(pt, env.pick, Insert(st.subs[lic.sub].maxPairs))
  {
    var maxPairs := st.subs[lic.sub].maxPairs;
    hide ReadsThrough, ReadOn, ActivePairs, LicenseIssuable, DeviceForRole, ReusesPairing;
    ReadsNothing(st, env, q, CPlanned(pt, env.pick, Insert(maxPairs)));
    OneRead(st, env, q, CCount(pt, maxPairs), 1);
    OneRead(st, env, q, CCapacity(pt, lic), 2);
    OneRead(st, env, q, CDesktop(pt, lic), 3);
    OneRead(st, env, q, CMobile(pt, lic), 4);
    OneRead(st, env, q, CIssuable(pt, lic), 5);
    OneRead(st, env, q, CLicense(pt, lic), 6);
    OneRead(st, env, q, CToken(pt), 7);
    OneRead(st, env, q, CStart, 8);
  }

  lemma ReadsNothing(st: Store, env: Env, q: Req, c: Completion)
    requires q.Complete?
    ensures ReadsThrough(st, env, q, c, 0) && ReadOn(st, env, q, c, 0) == c
  {
  }

  // ---------------------------------------------------------------------------
  // Its writes, up to the pairing
  // ---------------------------------------------------------------------------

  ghost predicate Planned(s: State, r: ReqId, pt: PairingToken, pair: Id, maxPairs: nat) {
    r in s.reqs && s.reqs[r].Complete? && s.reqs[r].c == CPlanned(pt, pair, Insert(maxPairs))
  }

  /** Everything but the token, the phone's key and the pairing stays, and so do the other requests. */
  ghost predicate OnlyPaired(s: State, s': State, r: ReqId, pt: PairingToken, pair: Id) {
    && r in s.reqs && s.reqs[r].Complete? && s'.now == s.now && s'.config == s.config
    && s'.store.pairings == s.store.pairings[pair := NewPairing(pt, s.reqs[r].mobile, s.now)]
    && s'.store.devices.Keys == s.store.devices.Keys
    && (forall t | t in s.store.tokens && t != s.reqs[r].token ::
          t in s'.store.tokens && s'.store.tokens[t] == s.store.tokens[t])
    && (forall a | a in s.reqs && a != r :: a in s'.reqs && s'.reqs[a] == s.reqs[a])
  }

  /** The token of the request is unspent, and its phone known. */
  ghost predicate MayWrite(s: State, r: ReqId) {
    && r in s.reqs && s.reqs[r].Complete? && s.reqs[r].mobile in s.store.devices
    && s.reqs[r].token in s.store.tokens && s.store.tokens[s.reqs[r].token].consumedAt == 0
  }

  lemma InsertsNow(s: State, r: ReqId, pt: PairingToken, pair: Id, maxPairs: nat)
    requires Planned(s, r, pt, pair, maxPairs) && MayWrite(s, r)
    requires pair !in s.store.pairings && |ActivePairs(s.store.pairings, pt.license)| < maxPairs
    ensures OnlyPaired(s, Exec(s, Gos(r, pair, 3)), r, pt, pair)
  {
    var q, env, plan := s.reqs[r], Env(s.now, s.config, pair), Insert(maxPairs);
    var used := s.store.(tokens := ConsumePairingToken(s.store.tokens, q.token, pair, s.now).0);
    var keyed := SetKey(used, q.mobile, q.key);
    var paired := keyed.(pairings := keyed.pairings[pair := NewPairing(pt, q.mobile, s.now)]);
    var s1 := s.(store := used, reqs := s.reqs[r := q.(c := CUsed(pt, pair, plan))]);
    var s2 := s1.(store := keyed, reqs := s1.reqs[r := q.(c := CKeyed(pt, pair, plan))]);
    var s3 := s2.(store := paired, reqs := s2.reqs[r := q.(c := CPaired(pt, pair, plan))]);
    InsertWrites(s.store, env, q, pt, pair, maxPairs);
    hide Next, Enabled, Exec, NewPairing, Gos, ActivePairs, WriteComplete;
    GoWrites(s, r, pair);
    GoWrites(s1, r, pair);
    GoWrites(s2, r, pair);
    ThreeSteps(s, s1, s2, s3, r, pair);
    hide OnlyPaired;
    WroteOnly(s, s3, r, pt, pair);
  }

  lemma WroteOnly(s: State, s': State, r: ReqId, pt: PairingToken, pair: Id)
    requires MayWrite(s, r) && s'.now == s.now && s'.config == s.config
    requires r in s'.reqs && s'.reqs == s.reqs[r := s'.reqs[r]]
    requires s'.store.tokens == ConsumePairingToken(s.store.tokens, s.reqs[r].token, pair, s.now).0
    requires s'.store.devices == SetKey(s.store, s.reqs[r].mobile, s.reqs[r].key).devices
    requires s'.store.pairings == s.store.pairings[pair := NewPairing(pt, s.reqs[r].mobile, s.now)]
    ensures OnlyPaired(s, s', r, pt, pair)
  {
  }

  /** Token, key and pairing, one after the other. */
  lemma InsertWrites(st: Store, env: Env, q: Req, pt: PairingToken, pair: Id, maxPairs: nat)
    requires q.Complete? && q.token in st.tokens && st.tokens[q.token].consumedAt == 0 && q.mobile in st.devices
    requires pair !in st.pairings && |ActivePairs(st.pairings, pt.license)| < maxPairs
    ensures var used := st.(tokens := ConsumePairingToken(st.tokens, q.token, pair, env.now).0);
            var keyed := SetKey(used, q.mobile, q.key);
            var paired := keyed.(pairings := st.pairings[pair := NewPairing(pt, q.mobile, env.now)]);
            var plan := Insert(maxPairs);
            && WriteComplete(st, env, q.token, q.mobile, q.key, CPlanned(pt, pair, plan)) ==
               (used, CUsed(pt, pair, plan))
            && WriteComplete(used, env, q.token, q.mobile, q.key, CUsed(pt, pair, plan)) ==
               (keyed, CKeyed(pt, pair, plan))
            && WriteComplete(keyed, env, q.token, q.mobile, q.key, CKeyed(pt, pair, plan)) ==
               (paired, CPaired(pt, pair, plan))
  {
    hide ActivePairs;
  }

  lemma GoWrites(s: State, r: ReqId, pick: Id)
    requires r in s.reqs && s.reqs[r].Complete? && !OnlyReads(s.reqs[r].c)
    ensures var q := s.reqs[r];
            var (store, c) := WriteComplete(s.store, Env(s.now, s.config, pick), q.token, q.mobile, q.key, q.c);
            && Enabled(s, Go(r, pick))
            && Next(s, Go(r, pick)) == s.(store := store, reqs := s.reqs[r := q.(c := c)])
  {
    hide WriteComplete;
  }

  lemma ThreeSteps(s: State, s1: State, s2: State, s3: State, r: ReqId, pick: Id)
    requires Enabled(s, Go(r, pick)) && Next(s, Go(r, pick)) == s1
    requires Enabled(s1, Go(r, pick)) && Next(s1, Go(r, pick)) == s2
    requires Enabled(s2, Go(r, pick)) && Next(s2, Go(r, pick)) == s3
    ensures Exec(s, Gos(r, pick, 3)) == s3
  {
    hide Next, Enabled;
    var go := Go(r, pick);
    assert Gos(r, pick, 1) == [go] && [go][1..] == [];
    assert Gos(r, pick, 2)[1..] == Gos(r, pick, 1) && Gos(r, pick, 3)[1..] == Gos(r, pick, 2);
    assert Exec(s2, Gos(r, pick, 1)) == s3;
    assert Exec(s1, Gos(r, pick, 2)) == s3;
  }

  // ---------------------------------------------------------------------------
  // Two completions for one desktop
  // ---------------------------------------------------------------------------

  /** Both requests read everything before either writes. */
  function ReadBoth(a: ReqId, x: Id, b: ReqId, y: Id): seq<Step> {
    Gos(a, x, 8) + Gos(b, y, 8)
  }

  function WriteBoth(a: ReqId, x: Id, b: ReqId, y: Id): seq<Step> {
    Gos(a, x, 3) + Gos(b, y, 3)
  }

  /** Two completions at their start, with tokens of one license and one desktop, that would both pass. */
  ghost predicate Rivals(s: State, a: ReqId, b: ReqId, pa: PairingToken, pb: PairingToken, lic: License) {
    && a in s.reqs && b in s.reqs && a != b && s.reqs[a].Complete? && s.reqs[b].Complete?
    && s.reqs[a].c == CStart && s.reqs[b].c == CStart && s.reqs[a].token != s.reqs[b].token
    && Passes(s.store, s.config, s.now, s.reqs[a], pa, lic) && Passes(s.store, s.config, s.now, s.reqs[b], pb, lic)
    && pa.license == pb.license && pa.desktop == pb.desktop
  }

  lemma PassesPlans(s: State, r: ReqId, pick: Id, pt: PairingToken, lic: License)
    requires r in s.reqs && Passes(s.store, s.config, s.now, s.reqs[r], pt, lic) && s.reqs[r].c == CStart
    ensures Exec(s, Gos(r, pick, 8)) ==
            s.(reqs := s.reqs[r := s.reqs[r].(c := CPlanned(pt, pick, Insert(s.store.subs[lic.sub].maxPairs)))])
  {
    PassesReads(s.store, Env(s.now, s.config, pick), s.reqs[r], pt, lic);
    hide Exec, Gos, ReadsThrough, ReadOn;
    ReadsOnly(s, r, pick, 8);
  }

  lemma BothPlan(s: State, a: ReqId, b: ReqId, pa: PairingToken, pb: PairingToken, lic: License, x: Id, y: Id)
    requires Rivals(s, a, b, pa, pb, lic)
    ensures var maxPairs := s.store.subs[lic.sub].maxPairs;
            Exec(s, ReadBoth(a, x, b, y)) ==
            s.(reqs := s.reqs[a := s.reqs[a].(c := CPlanned(pa, x, Insert(maxPairs)))]
                             [b := s.reqs[b].(c := CPlanned(pb, y, Insert(maxPairs)))])
  {
    hide Passes, Exec, Gos;
    PassesPlans(s, a, x, pa, lic);
    PassesPlans(Exec(s, Gos(a, x, 8)), b, y, pb, lic);
    ExecChains(s, Gos(a, x, 8), Gos(b, y, 8));
  }

  /** Two active pairings of one license with one desktop. */
  lemma TwoOnOneDesktop(pairings: map<Id, Pairing>, x: Id, y: Id)
    requires x in pairings && y in pairings && x != y && pairings[x].desktop == pairings[y].desktop
    requires ActiveFor(pairings[x], pairings[y].license) && ActiveFor(pairings[y], pairings[y].license)
    ensures !AuthSerial.OnePerDesktop(pairings)
  {
  }

  lemma PlannedBothPair(
      s: State, a: ReqId, b: ReqId, pa: PairingToken, pb: PairingToken, x: Id, y: Id, maxPairs: nat)
    requires Planned(s, a, pa, x, maxPairs) && MayWrite(s, a) && Planned(s, b, pb, y, maxPairs) && MayWrite(s, b)
    requires a != b && s.reqs[a].token != s.reqs[b].token && pa.license == pb.license && pa.desktop == pb.desktop
    requires x != y && x !in s.store.pairings && y !in s.store.pairings
    requires |ActivePairs(s.store.pairings, pa.license)| + 1 < maxPairs
    ensures !AuthSerial.OnePerDesktop(Exec(s, WriteBoth(a, x, b, y)).store.pairings)
  {
    var s1 := Exec(s, Gos(a, x, 3));
    var s2 := Exec(s1, Gos(b, y, 3));
    ActiveAfterInsert(s.store.pairings, x, NewPairing(pa, s.reqs[a].mobile, s.now), pa.license);
    hide Exec, Gos, ActivePairs, AuthSerial.OnePerDesktop;
    InsertsNow(s, a, pa, x, maxPairs);
    InsertsNow(s1, b, pb, y, maxPairs);
    ExecChains(s, Gos(a, x, 3), Gos(b, y, 3));
    TwoOnOneDesktop(s2.store.pairings, x, y);
  }

  lemma RivalsPlan(s: State, a: ReqId, b: ReqId, pa: PairingToken, pb: PairingToken, lic: License, x: Id, y: Id)
    requires Rivals(s, a, b, pa, pb, lic)
    ensures a != b && lic.sub in s.store.subs && pa.license == pb.license && pa.desktop == pb.desktop
    ensures var s', maxPairs := Exec(s, ReadBoth(a, x, b, y)), s.store.subs[lic.sub].maxPairs;
            && s'.store == s.store
            && Planned(s', a, pa, x, maxPairs) && MayWrite(s', a)
            && Planned(s', b, pb, y, maxPairs) && MayWrite(s', b)
            && s'.reqs[a].token != s'.reqs[b].token
  {
    assert MayWrite(s, a) && MayWrite(s, b);
    BothPlan(s, a, b, pa, pb, lic, x, y);
    hide Passes, Exec, ReadBoth, MayWrite;
    PlanningKeeps(s, Exec(s, ReadBoth(a, x, b, y)), a);
    PlanningKeeps(s, Exec(s, ReadBoth(a, x, b, y)), b);
  }

  lemma PlanningKeeps(s: State, s': State, r: ReqId)
    requires MayWrite(s, r) && s'.store == s.store && r in s.reqs && r in s'.reqs
    requires s.reqs[r].Complete? && s'.reqs[r].Complete? && s'.reqs[r] == s.reqs[r].(c := s'.reqs[r].c)
    ensures MayWrite(s', r)
  {
  }

  /** If there is room for two, both insert: the license ends up with two active pairings of one desktop. */
  lemma RivalsBothPair(s: State, a: ReqId, b: ReqId, pa: PairingToken, pb: PairingToken, lic: License, x: Id, y: Id)
    requires Rivals(s, a, b, pa, pb, lic) && x != y && x !in s.store.pairings && y !in s.store.pairings
    requires |ActivePairs(s.store.pairings, pa.license)| + 1 < s.store.subs[lic.sub].maxPairs
    ensures !AuthSerial.OnePerDesktop(Exec(s, ReadBoth(a, x, b, y) + WriteBoth(a, x, b, y)).store.pairings)
  {
    hide *;
    RivalsPlan(s, a, b, pa, pb, lic, x, y);
    PlannedBothPair(Exec(s, ReadBoth(a, x, b, y)), a, b, pa, pb, x, y, s.store.subs[lic.sub].maxPairs);
    ExecChains(s, ReadBoth(a, x, b, y), WriteBoth(a, x, b, y));
  }

  // ---------------------------------------------------------------------------
  // Exactly when one desktop has one pairing
  // ---------------------------------------------------------------------------

  /** No subscription is ever given a max_pairs above `m`. */
  ghost predicate LimitsUpTo(steps: seq<Step>, m: nat) {
    forall i | 0 <= i < |steps| && steps[i].External? && steps[i].change.PutSub? :: steps[i].change.sub.maxPairs <= m
  }

  ghost predicate PeaksUpTo(s: State, m: nat) {
    forall sub | sub in s.peak :: s.peak[sub] <= m
  }

  lemma {:induction false} RunPeaks(s: State, steps: seq<Step>, m: nat)
    requires PeaksUpTo(s, m) && LimitsUpTo(steps, m)
    ensures PeaksUpTo(Exec(s, steps), m)
    decreases |steps|
  {
    hide Act, Changed;
    if steps != [] {
      assert PeaksUpTo(if Enabled(s, steps[0]) then Next(s, steps[0]) else s, m);
      RunPeaks(if Enabled(s, steps[0]) then Next(s, steps[0]) else s, steps[1..], m);
    }
  }

  lemma AtMostOne(pairings: map<Id, Pairing>, licenses: map<Id, License>, peak: map<Id, nat>)
    requires Fits(pairings, licenses, peak) && forall sub | sub in peak :: peak[sub] <= 1
    ensures AuthSerial.OnePerDesktop(pairings)
  {
    forall p, q | p in pairings && q in pairings && p != q
                  && pairings[p].status == PairingActive && pairings[q].status == PairingActive
      ensures pairings[p].license != pairings[q].license
    {
      var l := pairings[p].license;
      assert |ActivePairs(pairings, l)| <= PeakIn(peak, licenses[l].sub) <= 1;
      if pairings[q].license == l {
        TwoAtLeast(ActivePairs(pairings, l), p, q);
      }
    }
  }

  lemma TwoAtLeast(s: set<Id>, p: Id, q: Id)
    requires p in s && q in s && p != q
    ensures |s| >= 2
  {
    assert s == s - {p} - {q} + {p} + {q};
  }

  const PLAN := Subscription(0, SubActive, 2, 0, 0, 0)
  const LICENSE := License(0, 4, 0, LicenseActive, 0)
  const DESKTOP := Device(0, Desktop, [1], 0)
  const PHONE := Device(0, Mobile, [1], 0)

  function FreshToken(now: Time): PairingToken {
    PairingToken(0, 5, 1, now + 1, 0, 0)
  }

  /** An account with a license for two pairings, a desktop and two phones. */
  function Furnished(): Store {
    EmptyStore().(subs := map[4 := PLAN], licenses := map[5 := LICENSE],
                  devices := map[1 := DESKTOP][2 := PHONE][3 := PHONE])
  }

  function WithTokens(st: Store, pt: PairingToken): Store {
    st.(tokens := map[6 := pt][7 := pt])
  }

  /** Changes made from outside, one after the other. */
  function Externals(changes: seq<Change>): seq<Step>
    decreases |changes|
  {
    if changes == [] then [] else [External(changes[0])] + Externals(changes[1..])
  }

  function ChangedBy(st: Store, changes: seq<Change>): Store
    decreases |changes|
  {
    if changes == [] then st else ChangedBy(Changed(st, changes[0]), changes[1..])
  }

  lemma {:induction false} ExternalsChange(s: State, changes: seq<Change>)
    ensures var s' := Exec(s, Externals(changes));
            s' == s.(store := ChangedBy(s.store, changes), peak := s'.peak)
    decreases |changes|
  {
    hide Changed;
    if changes != [] {
      var steps := Externals(changes);
      assert steps[1..] == Externals(changes[1..]);
      ExternalsChange(Next(s, steps[0]), changes[1..]);
    }
  }

  lemma {:induction false} ChangesChain(st: Store, a: seq<Change>, b: seq<Change>)
    ensures ChangedBy(st, a + b) == ChangedBy(ChangedBy(st, a), b)
    decreases |a|
  {
    hide Changed;
    if a == [] {
      assert a + b == b;
    } else {
      assert (a + b)[1..] == a[1..] + b;
      ChangesChain(Changed(st, a[0]), a[1..], b);
    }
  }

  lemma OneChange(st: Store, change: Change)
    ensures ChangedBy(st, [change]) == Changed(st, change)
  {
    hide Changed;
    assert [change][1..] == [];
    assert ChangedBy(st, [change]) == ChangedBy(Changed(st, change), []);
  }

  const PURCHASE := [PutSub(4, PLAN)] + [NewLicense(5, LICENSE)]
  const DEVICES := [NewDevice(1, DESKTOP)] + [NewDevice(2, PHONE)] + [NewDevice(3, PHONE)]

  function Tokens(pt: PairingToken): seq<Change> {
    [NewToken(6, pt)] + [NewToken(7, pt)]
  }

  lemma Purchased(st: Store)
    requires st.subs == map[] && st.licenses == map[]
    ensures ChangedBy(st, PURCHASE) == st.(subs := map[4 := PLAN], licenses := map[5 := LICENSE])
  {
    hide ChangedBy;
    ChangesChain(st, [PutSub(4, PLAN)], [NewLicense(5, LICENSE)]);
    OneChange(st, PutSub(4, PLAN));
    OneChange(Changed(st, PutSub(4, PLAN)), NewLicense(5, LICENSE));
  }

  lemma DevicesRegistered(st: Store)
    requires st.devices == map[]
    ensures ChangedBy(st, DEVICES) == st.(devices := map[1 := DESKTOP][2 := PHONE][3 := PHONE])
  {
    hide ChangedBy;
    var one := st.(devices := map[1 := DESKTOP]);
    var two := st.(devices := map[1 := DESKTOP][2 := PHONE]);
    ChangesChain(st, [NewDevice(1, DESKTOP)] + [NewDevice(2, PHONE)], [NewDevice(3, PHONE)]);
    ChangesChain(st, [NewDevice(1, DESKTOP)], [NewDevice(2, PHONE)]);
    OneChange(st, NewDevice(1, DESKTOP));
    OneChange(one, NewDevice(2, PHONE));
    OneChange(two, NewDevice(3, PHONE));
  }

  lemma TokensGiven(st: Store, pt: PairingToken)
    requires st.tokens == map[] && pt.consumedAt == 0
    ensures ChangedBy(st, Tokens(pt)) == WithTokens(st, pt)
  {
    hide ChangedBy;
    ChangesChain(st, [NewToken(6, pt)], [NewToken(7, pt)]);
    OneChange(st, NewToken(6, pt));
    OneChange(st.(tokens := map[6 := pt]), NewToken(7, pt));
  }

  function Furnish(now: Time): seq<Change> {
    PURCHASE + DEVICES + Tokens(FreshToken(now))
  }

  lemma FurnishFurnishes(now: Time)
    ensures ChangedBy(EmptyStore(), Furnish(now)) == WithTokens(Furnished(), FreshToken(now))
  {
    hide ChangedBy, Tokens, WithTokens;
    ChangesChain(EmptyStore(), PURCHASE + DEVICES, Tokens(FreshToken(now)));
    ChangesChain(EmptyStore(), PURCHASE, DEVICES);
    Purchased(EmptyStore());
    DevicesRegistered(ChangedBy(EmptyStore(), PURCHASE));
    TokensGiven(Furnished(), FreshToken(now));
  }

  const FIRST := Complete(6, 2, [1], CStart)
  const SECOND := Complete(7, 3, [1], CStart)

  function Stage(now: Time): seq<Step> {
    Externals(Furnish(now)) + [Begin(0, FIRST), Begin(1, SECOND)]
  }

  lemma TwoBegin(s: State, q: Req, q': Req)
    requires s.reqs == map[] && AtStart(q) && AtStart(q')
    ensures var s' := Exec(s, [Begin(0, q), Begin(1, q')]);
            s' == s.(reqs := map[0 := q][1 := q'], born := s'.born)
  {
    var first := Next(s, Begin(0, q));
    var steps := [Begin(0, q), Begin(1, q')];
    assert Exec(s, steps) == Exec(first, steps[1..]);
    assert steps[1..] == [Begin(1, q')] && steps[1..][1..] == [];
    hide RevokedPairs, AtStart;
    assert Exec(first, steps[1..]) == Next(first, Begin(1, q'));
  }

  lemma StageIsSet(now: Time, config: Config)
    ensures var s := Exec(Init(now, config), Stage(now));
            && s.store == WithTokens(Furnished(), FreshToken(now)) && s.now == now && s.config == config
            && s.reqs == map[0 := FIRST][1 := SECOND]
  {
    var s := Exec(Init(now, config), Externals(Furnish(now)));
    ExternalsChange(Init(now, config), Furnish(now));
    FurnishFurnishes(now);
    ExecChains(Init(now, config), Externals(Furnish(now)), [Begin(0, FIRST), Begin(1, SECOND)]);
    hide Furnished, WithTokens, Furnish, Externals, ChangedBy, Exec;
    TwoBegin(s, FIRST, SECOND);
  }

  lemma StagedAreRivals(s: State)
    requires s.now > 0 && s.store == WithTokens(Furnished(), FreshToken(s.now))
    requires s.reqs == map[0 := FIRST][1 := SECOND]
    ensures Rivals(s, 0, 1, FreshToken(s.now), FreshToken(s.now), LICENSE)
    ensures s.store.pairings == map[] && ActivePairs(s.store.pairings, 5) == {} && s.store.subs[4].maxPairs == 2
  {
  }

  function BreakingRun(now: Time): seq<Step> {
    Stage(now) + (ReadBoth(0, 8, 1, 9) + WriteBoth(0, 8, 1, 9))
  }

  lemma BreakingRunBreaks(now: Time, config: Config)
    requires now > 0
    ensures !AuthSerial.OnePerDesktop(Exec(Init(now, config), BreakingRun(now)).store.pairings)
  {
    var s := Exec(Init(now, config), Stage(now));
    StageIsSet(now, config);
    StagedAreRivals(s);
    hide Exec, Stage, Furnished, WithTokens, ReadBoth, WriteBoth, Rivals, ActivePairs, AuthSerial.OnePerDesktop;
    RivalsBothPair(s, 0, 1, FreshToken(now), FreshToken(now), LICENSE, 8, 9);
    ExecChains(Init(now, config), Stage(now), ReadBoth(0, 8, 1, 9) + WriteBoth(0, 8, 1, 9));
  }

  lemma {:induction false} GosAre(r: ReqId, pick: Id, n: nat)
    ensures forall i | 0 <= i < |Gos(r, pick, n)| :: Gos(r, pick, n)[i] == Go(r, pick)
    decreases n
  {
    if n > 0 {
      GosAre(r, pick, n - 1);
    }
  }

  lemma {:induction false} ExternalsAre(changes: seq<Change>)
    ensures |Externals(changes)| == |changes|
    ensures forall i | 0 <= i < |changes| :: Externals(changes)[i] == External(changes[i])
    decreases |changes|
  {
    if changes != [] {
      ExternalsAre(changes[1..]);
    }
  }

  lemma BreakingRunLimits(now: Time)
    ensures LimitsUpTo(BreakingRun(now), 2)
  {
    ExternalsAre(Furnish(now));
    assert forall c | c in Furnish(now) && c.PutSub? :: c.sub.maxPairs <= 2;
    GosAre(0, 8, 8);
    GosAre(1, 9, 8);
    GosAre(0, 8, 3);
    GosAre(1, 9, 3);
    hide Gos, Externals, Furnish;
  }

  /**
   One pairing per license and desktop, which every serial run keeps, is kept under every
   interleaving exactly when no plan allows more than one pairing: two completions for one
   desktop that both look before either inserts can both insert.
   */
  lemma {:induction false} OnePerDesktopExactlyWhen(config: Config, m: nat)
    ensures (forall now, steps | now > 0 && LimitsUpTo(steps, m) ::
               AuthSerial.OnePerDesktop(Exec(Init(now, config), steps).store.pairings)) <==>
            m <= 1
  {
    hide Exec, AuthSerial.OnePerDesktop, BreakingRun;
    if m <= 1 {
      forall now, steps | now > 0 && LimitsUpTo(steps, m)
        ensures AuthSerial.OnePerDesktop(Exec(Init(now, config), steps).store.pairings)
      {
        var s := Exec(Init(now, config), steps);
        RunPeaks(Init(now, config), steps, m);
        RunCapacity(Init(now, config), steps);
        AtMostOne(s.store.pairings, s.store.licenses, s.peak);
      }
    } else {
      BreakingRunLimits(1);
      BreakingRunBreaks(1, config);
      assert LimitsUpTo(BreakingRun(1), m);
    }
  }

  // ---------------------------------------------------------------------------
  // A phone that was replaced
  // ---------------------------------------------------------------------------

  /** The pairing has another phone than this one. */
  predicate Replaced(st: Store, pair: Id, phone: Id) {
    && pair in st.pairings && st.pairings[pair].mobile != phone
    && phone in st.devices && st.devices[phone].role == Mobile
  }

  /** The phone is not written back to the pairing in the whole run. */
  ghost predicate StaysReplaced(s: State, steps: seq<Step>, pair: Id, phone: Id)
    decreases |steps|
  {
    && Replaced(s.store, pair, phone)
    && (steps != [] ==> StaysReplaced(if Enabled(s, steps[0]) then Next(s, steps[0]) else s, steps[1..], pair, phone))
  }

  /** The device and pair a request is about to mint a token for. */
  function Minting(q: Req): Option<(Id, Id)> {
    match q
    case Refresh(_, RUsed(rt)) => Some((rt.device, rt.pair))
    case Issue(_, device, pair, IIssuable) => Some((device, pair))
    case _ => None
  }

  /** The request has not got past the check of the phone against the pairing. */
  predicate NotPast(q: Req, pair: Id, phone: Id) {
    match q
    case Refresh(_, RPairing(rt, p)) => rt.pair == pair ==> p.mobile != phone
    case Refresh(_, RDevice(rt, _)) => rt.pair != pair || rt.device != phone
    case Refresh(_, RLicense(rt, _)) => rt.pair != pair || rt.device != phone
    case Refresh(_, RIssuable(rt)) => rt.pair != pair || rt.device != phone
    case Refresh(_, RUsed(rt)) => rt.pair != pair || rt.device != phone
    case Issue(_, _, of, IPairing(p)) => of == pair ==> p.mobile != phone
    case Issue(_, device, of, IDevice(_)) => of != pair || device != phone
    case Issue(_, device, of, ILicense(_)) => of != pair || device != phone
    case Issue(_, device, of, IIssuable) => of != pair || device != phone
    case _ => true
  }

  lemma ActNotPast(st: Store, env: Env, q: Req, pair: Id, phone: Id)
    requires Replaced(st, pair, phone) && NotPast(q, pair, phone)
    ensures NotPast(Act(st, env, q).1, pair, phone)
  {
    hide ActComplete, ActUnpair, LicenseIssuable, ConsumeRefreshToken, RevokeByDevice, RevokeRefreshToken;
  }

  lemma {:induction false} LateStaysOut(s: State, steps: seq<Step>, pair: Id, phone: Id, r: ReqId)
    requires StaysReplaced(s, steps, pair, phone)
    requires r in s.reqs ==> NotPast(s.reqs[r], pair, phone)
    ensures var s' := Exec(s, steps);
            r in s'.reqs ==> NotPast(s'.reqs[r], pair, phone)
    decreases |steps|
  {
    if steps != [] {
      var s' := if Enabled(s, steps[0]) then Next(s, steps[0]) else s;
      if steps[0].Go? && steps[0].r == r && r in s.reqs {
        ActNotPast(s.store, Env(s.now, s.config, steps[0].pick), s.reqs[r], pair, phone);
      }
      hide Act, Changed, Replaced;
      assert r in s'.reqs ==> NotPast(s'.reqs[r], pair, phone);
      LateStaysOut(s', steps[1..], pair, phone, r);
    }
  }

  /**
   Under every interleaving, from the moment a pairing has another phone, and until the old
   one is paired again, no issue or refresh request that begins from then on mints a token
   for the old phone on that pairing.
   */
  lemma {:induction false} ReplacedPhoneGetsNoToken(
      now: Time, config: Config, before: seq<Step>, after: seq<Step>, pair: Id, phone: Id, r: ReqId)
    requires StaysReplaced(Exec(Init(now, config), before), after, pair, phone)
    ensures var s := Exec(Exec(Init(now, config), before), after);
            r !in Exec(Init(now, config), before).reqs && r in s.reqs ==> Minting(s.reqs[r]) != Some((phone, pair))
  {
    if r !in Exec(Init(now, config), before).reqs {
      hide Exec, StaysReplaced;
      LateStaysOut(Exec(Init(now, config), before), after, pair, phone, r);
    }
  }
}
