/**
 The auth handlers under every interleaving: each request is a sequence of atomic store
 operations, with the values it read kept in between, and any number of requests,
 billing updates and revocations run side by side.
 */
module AuthRaces {
  import opened Options
  import opened Roles
  import opened AuthStore
  import opened Entitlement

  type ReqId = nat

  // ---------------------------------------------------------------------------
  // Requests
  // ---------------------------------------------------------------------------

  /** How a completion means to end: reuse the desktop's pairing, or insert one under a limit. */
  datatype Plan = Replace(evicted: Id) | Insert(maxPairs: nat)

  datatype Completion =
    | CStart
    | CToken(pt: PairingToken)                          // the token was read and is active
    | CLicense(pt: PairingToken, lic: License)          // its license was read
    | CIssuable(pt: PairingToken, lic: License)         // the license allows issuing
    | CMobile(pt: PairingToken, lic: License)           // the phone is the account's
    | CDesktop(pt: PairingToken, lic: License)          // the desktop has a key on file
    | CCapacity(pt: PairingToken, lic: License)         // no active pairing with this desktop
    | CCount(pt: PairingToken, maxPairs: nat)           // max_pairs was read
    | CPlanned(pt: PairingToken, pair: Id, plan: Plan)  // the advisory checks passed
    | CUsed(pt: PairingToken, pair: Id, plan: Plan)     // the token is consumed
    | CKeyed(pt: PairingToken, pair: Id, plan: Plan)    // the phone's key is stored
    | CPaired(pt: PairingToken, pair: Id, plan: Plan)   // the pairing is written
    | CCred(pt: PairingToken, pair: Id)
    | CDone(ok: bool)

  datatype Refreshing =
    | RStart
    | RReuse(device: Id)                                // a revoked token was presented
    | RToken(rt: RefreshToken)
    | RPairing(rt: RefreshToken, p: Pairing)
    | RDevice(rt: RefreshToken, p: Pairing)
    | RLicense(rt: RefreshToken, lic: License)          // the pairing's license was read
    | RRevoke                                           // refuse, and revoke the token
    | RIssuable(rt: RefreshToken)
    | RUsed(rt: RefreshToken)                           // the token is consumed, its successor not yet stored
    | RDone(minted: Option<Id>)                         // the pair a token was minted for

  datatype Issuing =
    | IStart
    | IPairing(p: Pairing)
    | IDevice(p: Pairing)
    | ILicense(lic: License)
    | IIssuable
    | IDone(minted: Option<Id>)

  datatype Unpairing = UStart | URevoke | UCred | UDone

  datatype Req =
    | Complete(token: Id, mobile: Id, key: seq<nat>, c: Completion)
    | Refresh(token: Id, r: Refreshing)
    | Issue(account: Id, device: Id, pair: Id, i: Issuing)
    | Unpair(account: Id, pair: Id, u: Unpairing)

  predicate AtStart(q: Req) {
    match q
    case Complete(_, _, _, c) => c.CStart?
    case Refresh(_, r) => r.RStart?
    case Issue(_, _, _, i) => i.IStart?
    case Unpair(_, _, u) => u.UStart?
  }

  /** The clock, the configuration, and the random id or choice an action may use. */
  datatype Env = Env(now: Time, config: Config, pick: Id)

  /** An active pairing of the license with the desktop, as `activePairingForDesktop` looks for. */
  predicate ReusesPairing(st: Store, pt: PairingToken, id: Id) {
    id in st.pairings && ActiveFor(st.pairings[id], pt.license) && st.pairings[id].desktop == pt.desktop
  }

  /** Up to the consumption of its token a completion only reads. */
  predicate OnlyReads(c: Completion) {
    c.CStart? || c.CToken? || c.CLicense? || c.CIssuable? || c.CMobile? || c.CDesktop? || c.CCapacity? || c.CCount?
  }

  /** The next read of a completion. Which matching pairing is reused is a choice. */
  function ReadComplete(st: Store, env: Env, token: Id, mobile: Id, key: seq<nat>, c: Completion): Completion
    requires OnlyReads(c)
  {
    match c
    case CStart =>
      if token in st.tokens && st.tokens[token].Active(env.now) then CToken(st.tokens[token]) else CDone(false)
    case CToken(pt) => if pt.license in st.licenses then CLicense(pt, st.licenses[pt.license]) else CDone(false)
    case CLicense(pt, lic) =>
      if LicenseIssuable(st, env.config, env.now, lic) && key != [] then CIssuable(pt, lic) else CDone(false)
    case CIssuable(pt, lic) =>
      if DeviceForRole(st.devices, mobile, pt.account, Mobile) then CMobile(pt, lic) else CDone(false)
    case CMobile(pt, lic) =>
      if pt.desktop in st.devices && st.devices[pt.desktop].key != [] then CDesktop(pt, lic) else CDone(false)
    case CDesktop(pt, lic) =>
      if ReusesPairing(st, pt, env.pick) then CPlanned(pt, env.pick, Replace(st.pairings[env.pick].mobile))
      else if exists id | id in st.pairings :: ReusesPairing(st, pt, id) then c
      else CCapacity(pt, lic)
    case CCapacity(pt, lic) => if lic.sub in st.subs then CCount(pt, st.subs[lic.sub].maxPairs) else CDone(false)
    case CCount(pt, maxPairs) =>
      if |ActivePairs(st.pairings, pt.license)| < maxPairs then CPlanned(pt, env.pick, Insert(maxPairs))
      else CDone(false)
  }

  /** The next write of a completion: the token first, so that a replay can never get further. */
  function WriteComplete(st: Store, env: Env, token: Id, mobile: Id, key: seq<nat>, c: Completion)
    : (r: (Store, Completion))
    requires !OnlyReads(c)
    ensures r.0 == st.(tokens := r.0.tokens, devices := r.0.devices, pairings := r.0.pairings,
                       refresh := r.0.refresh, creds := r.0.creds)
  {
    match c
    case CPlanned(pt, pair, plan) =>
      var (tokens, err) := ConsumePairingToken(st.tokens, token, pair, env.now);
      (st.(tokens := tokens), if err.Ok? then CUsed(pt, pair, plan) else CDone(false))
    case CUsed(pt, pair, plan) =>
      (if mobile in st.devices then SetKey(st, mobile, key) else st, CKeyed(pt, pair, plan))
    case CKeyed(pt, pair, Replace(evicted)) =>
      (st.(pairings := UpdatePairingDevices(st.pairings, pair, mobile, pt.desktop)),
       CPaired(pt, pair, Replace(evicted)))
    case CKeyed(pt, pair, Insert(maxPairs)) =>
      var (pairings, err) := CreatePairingWithinCapacity(st.pairings, pair, NewPairing(pt, mobile, env.now), maxPairs);
      (st.(pairings := pairings), if err.Ok? then CPaired(pt, pair, Insert(maxPairs)) else CDone(false))
    case CPaired(pt, pair, plan) =>
      (if plan.Replace? && plan.evicted != mobile
       then st.(refresh := RevokeByDevice(st.refresh, plan.evicted, env.now)) else st,
       CCred(pt, pair))
    case CCred(pt, pair) =>
      (st.(creds := st.creds[pair := Credential(pt.account, pt.license, mobile, env.pick, env.now, 0)]), CDone(true))
    case CDone(_) => (st, c)
  }

  /** The next store operation of a pairing completion. */
  function ActComplete(st: Store, env: Env, token: Id, mobile: Id, key: seq<nat>, c: Completion)
    : (r: (Store, Completion))
    ensures r.0 == st.(tokens := r.0.tokens, devices := r.0.devices, pairings := r.0.pairings,
                       refresh := r.0.refresh, creds := r.0.creds)
  {
    if OnlyReads(c) then (st, ReadComplete(st, env, token, mobile, key, c))
    else WriteComplete(st, env, token, mobile, key, c)
  }

  /** The next store operation of a refresh. */
  function ActRefresh(st: Store, env: Env, token: Id, r: Refreshing): (out: (Store, Refreshing))
    ensures out.0 == st.(refresh := out.0.refresh)
  {
    match r
    case RStart =>
      if token !in st.refresh then (st, RDone(None))
      else if st.refresh[token].Active(env.now) then (st, RToken(st.refresh[token]))
      else if st.refresh[token].revokedAt != 0 then (st, RReuse(st.refresh[token].device))
      else (st, RDone(None))
    case RReuse(device) => (st.(refresh := RevokeByDevice(st.refresh, device, env.now)), RDone(None))
    case RToken(rt) =>
      if rt.pair in st.pairings && st.pairings[rt.pair].status == PairingActive
      then (st, RPairing(rt, st.pairings[rt.pair])) else (st, RRevoke)
    case RPairing(rt, p) =>
      if rt.device !in st.devices || st.devices[rt.device].account != rt.account then (st, RDone(None))
      else if PairingHasDevice(p, rt.device, st.devices[rt.device]) then (st, RDevice(rt, p))
      else (st, RRevoke)
    case RDevice(rt, p) =>
      (st, if p.license in st.licenses then RLicense(rt, st.licenses[p.license]) else RRevoke)
    case RLicense(rt, lic) =>
      (st, if LicenseIssuable(st, env.config, env.now, lic) then RIssuable(rt) else RRevoke)
    case RRevoke => (st.(refresh := RevokeRefreshToken(st.refresh, token, env.now)), RDone(None))
    case RIssuable(rt) =>
      var (refresh, err) := ConsumeRefreshToken(st.refresh, token, env.now);
      (st.(refresh := refresh), if err.Ok? then RUsed(rt) else RDone(None))
    case RUsed(rt) =>
      (st.(refresh := st.refresh[env.pick := NewRefreshToken(env.config, env.now, rt.device, rt.account, rt.pair)]),
       RDone(Some(rt.pair)))
    case RDone(_) => (st, r)
  }

  function ActIssue(st: Store, env: Env, account: Id, device: Id, pair: Id, i: Issuing): (out: (Store, Issuing))
    ensures out.0 == st.(refresh := out.0.refresh)
  {
    match i
    case IStart =>
      if pair in st.pairings && st.pairings[pair].account == account && st.pairings[pair].status == PairingActive
      then (st, IPairing(st.pairings[pair])) else (st, IDone(None))
    case IPairing(p) =>
      if device in st.devices && st.devices[device].account == account
         && PairingHasDevice(p, device, st.devices[device])
      then (st, IDevice(p)) else (st, IDone(None))
    case IDevice(p) => (st, if p.license in st.licenses then ILicense(st.licenses[p.license]) else IDone(None))
    case ILicense(lic) => (st, if LicenseIssuable(st, env.config, env.now, lic) then IIssuable else IDone(None))
    case IIssuable =>
      (st.(refresh := st.refresh[env.pick := NewRefreshToken(env.config, env.now, device, account, pair)]),
       IDone(Some(pair)))
    case IDone(_) => (st, i)
  }

  function ActUnpair(st: Store, env: Env, account: Id, pair: Id, u: Unpairing): (out: (Store, Unpairing))
    ensures out.0 == st.(pairings := out.0.pairings, creds := out.0.creds)
  {
    match u
    case UStart => if pair in st.pairings && st.pairings[pair].account == account then (st, URevoke) else (st, UDone)
    case URevoke => (st.(pairings := SetPairingStatus(st.pairings, pair, PairingRevoked)), UCred)
    case UCred => (st.(creds := RevokeCredential(st.creds, pair, env.now)), UDone)
    case UDone => (st, u)
  }

  function Act(st: Store, env: Env, q: Req): (Store, Req) {
    match q
    case Complete(token, mobile, key, c) =>
      var (st', c') := ActComplete(st, env, token, mobile, key, c); (st', q.(c := c'))
    case Refresh(token, r) => var (st', r') := ActRefresh(st, env, token, r); (st', q.(r := r'))
    case Issue(account, device, pair, i) =>
      var (st', i') := ActIssue(st, env, account, device, pair, i); (st', q.(i := i'))
    case Unpair(account, pair, u) => var (st', u') := ActUnpair(st, env, account, pair, u); (st', q.(u := u'))
  }

  /** The action stores a new refresh token. */
  predicate Mints(q: Req) {
    (q.Refresh? && q.r.RUsed?) || (q.Issue? && q.i.IIssuable?)
  }

  /** The pair a finished request minted a token for, if any. */
  function MintedFor(q: Req): Option<Id> {
    match q
    case Refresh(_, RDone(minted)) => minted
    case Issue(_, _, _, IDone(minted)) => minted
    case _ => None
  }

  // ---------------------------------------------------------------------------
  // Runs
  // ---------------------------------------------------------------------------

  function PeakIn(peak: map<Id, nat>, sub: Id): nat {
    if sub in peak then peak[sub] else 0
  }

  /**
   The store with all requests ever begun, and three records for the statements below: the
   largest max_pairs each subscription has carried, the issuances to each device, and
   the pairings that were already revoked when each request began.
   */
  datatype State = State(store: Store, reqs: map<ReqId, Req>, now: Time, config: Config,
                         peak: map<Id, nat>, issued: map<Id, nat>, born: map<ReqId, set<Id>>)
  {
    function Peak(sub: Id): nat {
      PeakIn(peak, sub)
    }
    function Issued(device: Id): nat {
      if device in issued then issued[device] else 0
    }
  }

  /** What billing, device registration and token creation do to the store while requests are in flight. */
  datatype Change =
    | PutSub(id: Id, sub: Subscription)
    | NewLicense(id: Id, lic: License)
    | SetLicense(id: Id, status: LicenseStatus)
    | Cut(pair: Id)
    | NewToken(id: Id, pt: PairingToken)
    | NewDevice(id: Id, d: Device)
    | KeyDevice(id: Id, deviceKey: seq<nat>)

  datatype Step = Begin(r: ReqId, q: Req) | Go(r: ReqId, pick: Id) | External(change: Change) | Tick(time: nat)

  function Changed(st: Store, change: Change): Store {
    match change
    case PutSub(id, sub) => st.(subs := st.subs[id := sub])
    case NewLicense(id, lic) => if id in st.licenses then st else st.(licenses := st.licenses[id := lic])
    case SetLicense(id, status) =>
      if id in st.licenses then st.(licenses := st.licenses[id := st.licenses[id].(status := status)]) else st
    case Cut(pair) => st.(pairings := SetPairingStatus(st.pairings, pair, PairingRevoked))
    case NewToken(id, pt) => if id in st.tokens then st else st.(tokens := st.tokens[id := pt.(consumedAt := 0)])
    case NewDevice(id, d) => if id in st.devices then st else st.(devices := st.devices[id := d])
    case KeyDevice(id, key) => if id in st.devices then SetKey(st, id, key) else st
  }

  function RevokedPairs(st: Store): set<Id> {
    set p | p in st.pairings && st.pairings[p].status == PairingRevoked
  }

  predicate Enabled(s: State, step: Step) {
    match step
    case Begin(r, q) => r !in s.reqs && AtStart(q)
    case Go(r, pick) => r in s.reqs && (Mints(s.reqs[r]) ==> pick !in s.store.refresh)
    case External(_) => true
    case Tick(_) => true
  }

  function Next(s: State, step: Step): State
    requires Enabled(s, step)
  {
    match step
    case Begin(r, q) => s.(reqs := s.reqs[r := q], born := s.born[r := RevokedPairs(s.store)])
    case Go(r, pick) =>
      var q := s.reqs[r];
      var (store, q') := Act(s.store, Env(s.now, s.config, pick), q);
      s.(store := store, reqs := s.reqs[r := q'],
         issued := if q.Issue? && Mints(q) then s.issued[q.device := s.Issued(q.device) + 1] else s.issued)
    case External(change) =>
      s.(store := Changed(s.store, change),
         peak := if change.PutSub? then s.peak[change.id := Max(s.Peak(change.id), change.sub.maxPairs)] else s.peak)
    case Tick(time) => s.(now := s.now + time)
  }

  function Exec(s: State, steps: seq<Step>): State
    decreases |steps|
  {
    if steps == [] then s
    else Exec(if Enabled(s, steps[0]) then Next(s, steps[0]) else s, steps[1..])
  }

  /** An empty service whose clock has started. */
  function Init(now: Time, config: Config): State {
    State(EmptyStore(), map[], now, config, map[], map[], map[])
  }

  // ---------------------------------------------------------------------------
  // What no operation undoes
  // ---------------------------------------------------------------------------

  /** Licenses keep their subscription. */
  ghost predicate LicensesKept(a: map<Id, License>, b: map<Id, License>) {
    forall l | l in a :: l in b && b[l].sub == a[l].sub
  }

  /** Pairings keep their license, and a revoked pairing stays revoked. */
  ghost predicate PairingsKept(a: map<Id, Pairing>, b: map<Id, Pairing>) {
    forall p | p in a ::
      p in b && b[p].license == a[p].license && (a[p].status == PairingRevoked ==> b[p].status == PairingRevoked)
  }

  /** A consumed pairing token stays consumed. */
  ghost predicate TokensKept(a: map<Id, PairingToken>, b: map<Id, PairingToken>) {
    forall t | t in a :: t in b && (a[t].consumedAt != 0 ==> b[t].consumedAt != 0)
  }

  /** A refresh token keeps its device, and a revoked one stays revoked. */
  ghost predicate RefreshKept(a: map<Id, RefreshToken>, b: map<Id, RefreshToken>) {
    forall t | t in a :: t in b && b[t].device == a[t].device && (a[t].revokedAt != 0 ==> b[t].revokedAt != 0)
  }

  ghost predicate Evolves(st: Store, st': Store) {
    && LicensesKept(st.licenses, st'.licenses) && PairingsKept(st.pairings, st'.pairings)
    && TokensKept(st.tokens, st'.tokens) && RefreshKept(st.refresh, st'.refresh)
  }

  lemma EvolvesToItself(st: Store)
    ensures Evolves(st, st)
  {
  }

  lemma PairingOpsKeep(pairings: map<Id, Pairing>, id: Id, mobile: Id, desktop: Id, p: Pairing, maxPairs: nat)
    ensures PairingsKept(pairings, UpdatePairingDevices(pairings, id, mobile, desktop))
    ensures PairingsKept(pairings, SetPairingStatus(pairings, id, PairingRevoked))
    ensures PairingsKept(pairings, CreatePairingWithinCapacity(pairings, id, p, maxPairs).0)
  {
  }

  lemma TokenOpsKeep(tokens: map<Id, PairingToken>, id: Id, pair: Id, now: Time)
    requires now != 0
    ensures TokensKept(tokens, ConsumePairingToken(tokens, id, pair, now).0)
  {
  }

  lemma RevokeDeviceKeeps(refresh: map<Id, RefreshToken>, device: Id, now: Time)
    requires now != 0
    ensures RefreshKept(refresh, RevokeByDevice(refresh, device, now))
  {
  }

  lemma WriteEvolves(st: Store, env: Env, token: Id, mobile: Id, key: seq<nat>, c: Completion)
    requires env.now != 0 && !OnlyReads(c)
    ensures Evolves(st, WriteComplete(st, env, token, mobile, key, c).0)
  {
    EvolvesToItself(st);
    hide PairingsKept, TokensKept, RefreshKept, LicensesKept, CreatePairingWithinCapacity, RevokeByDevice;
    match c
    case CPlanned(pt, pair, plan) => TokenOpsKeep(st.tokens, token, pair, env.now);
    case CUsed(_, _, _) =>
    case CKeyed(pt, pair, plan) =>
      PairingOpsKeep(st.pairings, pair, mobile, pt.desktop, NewPairing(pt, mobile, env.now),
                     if plan.Insert? then plan.maxPairs else 0);
    case CPaired(pt, pair, plan) =>
      if plan.Replace? {
        RevokeDeviceKeeps(st.refresh, plan.evicted, env.now);
      }
    case CCred(_, _) =>
    case CDone(_) =>
  }

  lemma CompleteEvolves(st: Store, env: Env, token: Id, mobile: Id, key: seq<nat>, c: Completion)
    requires env.now != 0
    ensures Evolves(st, ActComplete(st, env, token, mobile, key, c).0)
  {
    EvolvesToItself(st);
    hide Evolves, ReadComplete, WriteComplete;
    if !OnlyReads(c) {
      WriteEvolves(st, env, token, mobile, key, c);
    }
  }

  lemma RefreshEvolves(st: Store, env: Env, token: Id, r: Refreshing)
    requires env.now != 0 && (r.RUsed? ==> env.pick !in st.refresh)
    ensures Evolves(st, ActRefresh(st, env, token, r).0)
  {
  }

  lemma IssueEvolves(st: Store, env: Env, account: Id, device: Id, pair: Id, i: Issuing)
    requires i.IIssuable? ==> env.pick !in st.refresh
    ensures Evolves(st, ActIssue(st, env, account, device, pair, i).0)
  {
  }

  lemma UnpairEvolves(st: Store, env: Env, account: Id, pair: Id, u: Unpairing)
    ensures Evolves(st, ActUnpair(st, env, account, pair, u).0)
  {
  }

  lemma ActEvolves(st: Store, env: Env, q: Req)
    requires env.now != 0 && (Mints(q) ==> env.pick !in st.refresh)
    ensures Evolves(st, Act(st, env, q).0)
  {
    hide Evolves, ActComplete, ActRefresh, ActIssue, ActUnpair;
    match q
    case Complete(token, mobile, key, c) => CompleteEvolves(st, env, token, mobile, key, c);
    case Refresh(token, r) => RefreshEvolves(st, env, token, r);
    case Issue(account, device, pair, i) => IssueEvolves(st, env, account, device, pair, i);
    case Unpair(account, pair, u) => UnpairEvolves(st, env, account, pair, u);
  }

  lemma ChangeEvolves(st: Store, change: Change)
    ensures Evolves(st, Changed(st, change))
  {
    EvolvesToItself(st);
    hide PairingsKept, TokensKept, RefreshKept;
    match change
    case PutSub(_, _) =>
    case NewLicense(_, _) =>
    case SetLicense(_, _) =>
    case Cut(pair) => CutKeeps(st.pairings, pair);
    case NewToken(id, pt) => NewTokenKeeps(st.tokens, id, pt);
    case NewDevice(_, _) =>
    case KeyDevice(_, _) =>
  }

  lemma CutKeeps(pairings: map<Id, Pairing>, id: Id)
    ensures PairingsKept(pairings, SetPairingStatus(pairings, id, PairingRevoked))
  {
  }

  lemma NewTokenKeeps(tokens: map<Id, PairingToken>, id: Id, pt: PairingToken)
    ensures id !in tokens ==> TokensKept(tokens, tokens[id := pt.(consumedAt := 0)])
  {
  }

  lemma StepEvolves(s: State, step: Step)
    requires Enabled(s, step) && s.now > 0
    ensures Evolves(s.store, Next(s, step).store) && Next(s, step).now > 0
  {
    hide Evolves, Act, Changed;
    EvolvesToItself(s.store);
    match step
    case Begin(_, _) =>
    case Go(r, pick) => ActEvolves(s.store, Env(s.now, s.config, pick), s.reqs[r]);
    case External(change) => ChangeEvolves(s.store, change);
    case Tick(_) =>
  }

  // ---------------------------------------------------------------------------
  // Revocation is final
  // ---------------------------------------------------------------------------

  lemma {:induction false} RevokedForEver(s: State, steps: seq<Step>)
    requires s.now > 0
    ensures RevokedPairs(s.store) <= RevokedPairs(Exec(s, steps).store)
    decreases |steps|
  {
    if steps != [] {
      if Enabled(s, steps[0]) {
        var s' := Next(s, steps[0]);
        StepEvolves(s, steps[0]);
        assert RevokedPairs(s.store) <= RevokedPairs(s'.store);
        RevokedForEver(s', steps[1..]);
      } else {
        RevokedForEver(s, steps[1..]);
      }
    }
  }

  /** The pair a request is past checking, or has minted for. */
  function Checked(q: Req): Option<Id> {
    match q
    case Refresh(_, RPairing(rt, _)) => Some(rt.pair)
    case Refresh(_, RDevice(rt, _)) => Some(rt.pair)
    case Refresh(_, RLicense(rt, _)) => Some(rt.pair)
    case Refresh(_, RIssuable(rt)) => Some(rt.pair)
    case Refresh(_, RUsed(rt)) => Some(rt.pair)
    case Refresh(_, RDone(minted)) => minted
    case Issue(_, _, pair, IPairing(_)) => Some(pair)
    case Issue(_, _, pair, IDevice(_)) => Some(pair)
    case Issue(_, _, pair, ILicense(_)) => Some(pair)
    case Issue(_, _, pair, IIssuable) => Some(pair)
    case Issue(_, _, _, IDone(minted)) => minted
    case _ => None
  }

  /** A request that got past the pairing check found a pair that was not revoked when it began. */
  ghost predicate ChecksFresh(s: State) {
    && s.born.Keys == s.reqs.Keys
    && (forall r | r in s.reqs :: s.born[r] <= RevokedPairs(s.store))
    && (forall r | r in s.reqs && Checked(s.reqs[r]).Some? :: Checked(s.reqs[r]).value !in s.born[r])
  }

  lemma ActChecks(st: Store, env: Env, q: Req)
    ensures var q' := Act(st, env, q).1;
            Checked(q').Some? ==> Checked(q') == Checked(q) || Checked(q').value !in RevokedPairs(st)
  {
    hide ActComplete, ActUnpair, LicenseIssuable, PairingHasDevice, ConsumeRefreshToken, RevokeByDevice,
      RevokeRefreshToken;
  }

  lemma StepChecksFresh(s: State, step: Step)
    requires ChecksFresh(s) && Enabled(s, step) && s.now > 0
    ensures ChecksFresh(Next(s, step))
  {
    var s' := Next(s, step);
    assert RevokedPairs(s.store) <= RevokedPairs(s'.store) by {
      StepEvolves(s, step);
    }
    if step.Go? {
      ActChecks(s.store, Env(s.now, s.config, step.pick), s.reqs[step.r]);
    }
    hide Act, Changed;
  }

  /** From the moment pair `p` is revoked, every request that begins carries that with it. */
  lemma {:induction false} BornKnowing(s: State, steps: seq<Step>, r: ReqId, p: Id)
    requires ChecksFresh(s) && s.now > 0 && p in RevokedPairs(s.store)
    requires r in s.reqs ==> p in s.born[r]
    ensures var s' := Exec(s, steps);
            ChecksFresh(s') && (r in s'.reqs ==> p in s'.born[r])
    decreases |steps|
  {
    hide ChecksFresh, Act, Changed, RevokedPairs;
    if steps != [] {
      if Enabled(s, steps[0]) {
        var s' := Next(s, steps[0]);
        StepChecksFresh(s, steps[0]);
        StepRevokes(s, steps[0]);
        BornKnowing(s', steps[1..], r, p);
      } else {
        BornKnowing(s, steps[1..], r, p);
      }
    }
  }

  lemma StepRevokes(s: State, step: Step)
    requires Enabled(s, step) && s.now > 0
    ensures RevokedPairs(s.store) <= RevokedPairs(Next(s, step).store) && Next(s, step).now > 0
  {
    StepEvolves(s, step);
  }

  lemma {:induction false} RunChecksFresh(s: State, steps: seq<Step>)
    requires ChecksFresh(s) && s.now > 0
    ensures ChecksFresh(Exec(s, steps)) && Exec(s, steps).now > 0
    decreases |steps|
  {
    hide ChecksFresh, Act, Changed;
    if steps != [] {
      if Enabled(s, steps[0]) {
        StepChecksFresh(s, steps[0]);
        StepEvolves(s, steps[0]);
        RunChecksFresh(Next(s, steps[0]), steps[1..]);
      } else {
        RunChecksFresh(s, steps[1..]);
      }
    }
  }

  /**
   Revocation is final: after any run, a pairing that is revoked is never active again, and
   no issue or refresh request that begins from then on ever mints a token for it.
   */
  lemma {:induction false} NoTokenAfterRevocation(
      now: Time, config: Config, before: seq<Step>, after: seq<Step>, p: Id, r: ReqId)
    requires now > 0
    requires p in RevokedPairs(Exec(Init(now, config), before).store)
    ensures var s := Exec(Exec(Init(now, config), before), after);
            && p in s.store.pairings && s.store.pairings[p].status == PairingRevoked
            && (r !in Exec(Init(now, config), before).reqs && r in s.reqs ==> MintedFor(s.reqs[r]) != Some(p))
  {
    var mid := Exec(Init(now, config), before);
    RunChecksFresh(Init(now, config), before);
    RevokedForEver(mid, after);
    if r !in mid.reqs {
      BornKnowing(mid, after, r, p);
    }
  }

  // ---------------------------------------------------------------------------
  // Single use
  // ---------------------------------------------------------------------------

  /** The request has consumed its pairing token and has not failed since. */
  predicate UsedToken(q: Req) {
    q.Complete? && (q.c.CUsed? || q.c.CKeyed? || q.c.CPaired? || q.c.CCred? || q.c == CDone(true))
  }

  /** The request has consumed its refresh token. */
  predicate UsedRefresh(q: Req) {
    q.Refresh? && (q.r.RUsed? || (q.r.RDone? && q.r.minted.Some?))
  }

  predicate ConsumedToken(st: Store, id: Id) {
    id in st.tokens && st.tokens[id].consumedAt != 0
  }

  predicate RevokedToken(st: Store, id: Id) {
    id in st.refresh && st.refresh[id].revokedAt != 0
  }

  /** Whoever used a pairing token left it consumed, and nobody else used it. */
  ghost predicate TokensUsedOnce(s: State) {
    && (forall r | r in s.reqs && UsedToken(s.reqs[r]) :: ConsumedToken(s.store, s.reqs[r].token))
    && (forall a, b | a in s.reqs && b in s.reqs && a != b && UsedToken(s.reqs[a]) && UsedToken(s.reqs[b]) ::
          s.reqs[a].token != s.reqs[b].token)
  }

  /** Whoever used a refresh token left it revoked, and nobody else used it. */
  ghost predicate RefreshUsedOnce(s: State) {
    && (forall r | r in s.reqs && UsedRefresh(s.reqs[r]) :: RevokedToken(s.store, s.reqs[r].token))
    && (forall a, b | a in s.reqs && b in s.reqs && a != b && UsedRefresh(s.reqs[a]) && UsedRefresh(s.reqs[b]) ::
          s.reqs[a].token != s.reqs[b].token)
  }

  lemma CompleteUses(st: Store, env: Env, token: Id, mobile: Id, key: seq<nat>, c: Completion)
    requires env.now != 0
    ensures var (st', c') := ActComplete(st, env, token, mobile, key, c);
            UsedToken(Complete(token, mobile, key, c')) && !UsedToken(Complete(token, mobile, key, c)) ==>
              !ConsumedToken(st, token) && ConsumedToken(st', token)
  {
  }

  lemma RefreshUses(st: Store, env: Env, token: Id, r: Refreshing)
    requires env.now != 0
    ensures var (st', r') := ActRefresh(st, env, token, r);
            UsedRefresh(Refresh(token, r')) && !UsedRefresh(Refresh(token, r)) ==>
              !RevokedToken(st, token) && RevokedToken(st', token)
  {
  }

  /** An action that makes its request a user of a token found the token unused and leaves it used. */
  lemma ActUses(st: Store, env: Env, q: Req)
    requires env.now != 0
    ensures var (st', q') := Act(st, env, q);
            && (q'.Complete? <==> q.Complete?) && (q'.Refresh? <==> q.Refresh?)
            && (q.Complete? || q.Refresh? ==> q'.token == q.token)
            && (UsedToken(q') && !UsedToken(q) ==> !ConsumedToken(st, q.token) && ConsumedToken(st', q.token))
            && (UsedRefresh(q') && !UsedRefresh(q) ==> !RevokedToken(st, q.token) && RevokedToken(st', q.token))
  {
    hide ActComplete, ActRefresh, ActIssue, ActUnpair;
    match q
    case Complete(token, mobile, key, c) => CompleteUses(st, env, token, mobile, key, c);
    case Refresh(token, r) => RefreshUses(st, env, token, r);
    case Issue(_, _, _, _) =>
    case Unpair(_, _, _) =>
  }

  lemma UsedStaysUsed(s: State, step: Step)
    requires Enabled(s, step) && s.now > 0
    ensures forall id | ConsumedToken(s.store, id) :: ConsumedToken(Next(s, step).store, id)
    ensures forall id | RevokedToken(s.store, id) :: RevokedToken(Next(s, step).store, id)
  {
    StepEvolves(s, step);
    hide Act, Changed;
  }

  lemma StepTokensOnce(s: State, step: Step)
    requires TokensUsedOnce(s) && Enabled(s, step) && s.now > 0
    ensures TokensUsedOnce(Next(s, step))
  {
    UsedStaysUsed(s, step);
    hide Act, Changed, ConsumedToken;
    if step.Go? {
      ActUses(s.store, Env(s.now, s.config, step.pick), s.reqs[step.r]);
    }
  }

  lemma StepRefreshOnce(s: State, step: Step)
    requires RefreshUsedOnce(s) && Enabled(s, step) && s.now > 0
    ensures RefreshUsedOnce(Next(s, step))
  {
    UsedStaysUsed(s, step);
    hide Act, Changed, RevokedToken;
    if step.Go? {
      ActUses(s.store, Env(s.now, s.config, step.pick), s.reqs[step.r]);
    }
  }

  lemma {:induction false} RunSingleUse(s: State, steps: seq<Step>)
    requires TokensUsedOnce(s) && RefreshUsedOnce(s) && s.now > 0
    ensures TokensUsedOnce(Exec(s, steps)) && RefreshUsedOnce(Exec(s, steps))
    decreases |steps|
  {
    hide TokensUsedOnce, RefreshUsedOnce, Act, Changed;
    if steps != [] {
      if Enabled(s, steps[0]) {
        StepTokensOnce(s, steps[0]);
        StepRefreshOnce(s, steps[0]);
        StepEvolves(s, steps[0]);
        RunSingleUse(Next(s, steps[0]), steps[1..]);
      } else {
        RunSingleUse(s, steps[1..]);
      }
    }
  }

  /** On every run each pairing token leads to at most one successful completion. */
  lemma {:induction false} TokenCompletesAtMostOnce(now: Time, config: Config, steps: seq<Step>, a: ReqId, b: ReqId)
    requires now > 0
    ensures var reqs := Exec(Init(now, config), steps).reqs;
            (&& a in reqs && b in reqs && reqs[a].Complete? && reqs[b].Complete? && reqs[a].token == reqs[b].token
             && reqs[a].c == CDone(true) && reqs[b].c == CDone(true)) ==> a == b
  {
    RunSingleUse(Init(now, config), steps);
  }

  /** On every run each refresh token yields at most one new token pair. */
  lemma {:induction false} RefreshMintsAtMostOnce(now: Time, config: Config, steps: seq<Step>, a: ReqId, b: ReqId)
    requires now > 0
    ensures var reqs := Exec(Init(now, config), steps).reqs;
            (&& a in reqs && b in reqs && reqs[a].Refresh? && reqs[b].Refresh? && reqs[a].token == reqs[b].token
             && MintedFor(reqs[a]).Some? && MintedFor(reqs[b]).Some?) ==> a == b
  {
    RunSingleUse(Init(now, config), steps);
  }

  // ---------------------------------------------------------------------------
  // Capacity
  // ---------------------------------------------------------------------------

  /** The subscription whose limit the completion relies on is its license's. */
  predicate LicenseRead(st: Store, c: Completion) {
    match c
    case CLicense(pt, lic) => pt.license in st.licenses && st.licenses[pt.license].sub == lic.sub
    case CIssuable(pt, lic) => pt.license in st.licenses && st.licenses[pt.license].sub == lic.sub
    case CMobile(pt, lic) => pt.license in st.licenses && st.licenses[pt.license].sub == lic.sub
    case CDesktop(pt, lic) => pt.license in st.licenses && st.licenses[pt.license].sub == lic.sub
    case CCapacity(pt, lic) => pt.license in st.licenses && st.licenses[pt.license].sub == lic.sub
    case CCount(pt, _) => pt.license in st.licenses
    case CPlanned(pt, _, _) => pt.license in st.licenses
    case CUsed(pt, _, _) => pt.license in st.licenses
    case CKeyed(pt, _, _) => pt.license in st.licenses
    case _ => true
  }

  /** The limit a completion has read, with the license it applies to. */
  function Limit(c: Completion): Option<(Id, nat)> {
    match c
    case CCount(pt, maxPairs) => Some((pt.license, maxPairs))
    case CPlanned(pt, _, Insert(maxPairs)) => Some((pt.license, maxPairs))
    case CUsed(pt, _, Insert(maxPairs)) => Some((pt.license, maxPairs))
    case CKeyed(pt, _, Insert(maxPairs)) => Some((pt.license, maxPairs))
    case _ => None
  }

  /** A limit read at some time is at most the largest its subscription has carried. */
  predicate LimitCarried(s: State, c: Completion) {
    Limit(c).Some? ==>
      var (l, m) := Limit(c).value;
      l in s.store.licenses && m <= s.Peak(s.store.licenses[l].sub)
  }

  ghost predicate LimitsRight(s: State) {
    && (forall id | id in s.store.subs :: s.store.subs[id].maxPairs <= s.Peak(id))
    && (forall r | r in s.reqs && s.reqs[r].Complete? ::
         LicenseRead(s.store, s.reqs[r].c) && LimitCarried(s, s.reqs[r].c))
  }

  /** Limits only come from subscriptions. */
  lemma ActLimits(s: State, env: Env, token: Id, mobile: Id, key: seq<nat>, c: Completion)
    requires forall id | id in s.store.subs :: s.store.subs[id].maxPairs <= s.Peak(id)
    requires LicenseRead(s.store, c) && LimitCarried(s, c)
    ensures var c' := ActComplete(s.store, env, token, mobile, key, c).1;
            LicenseRead(s.store, c') && LimitCarried(s, c')
  {
    hide ReadComplete, WriteComplete;
    if OnlyReads(c) {
      ReadLimits(s, env, token, mobile, key, c);
    } else {
      WriteLimits(s, env, token, mobile, key, c);
    }
  }

  lemma ReadLimits(s: State, env: Env, token: Id, mobile: Id, key: seq<nat>, c: Completion)
    requires forall id | id in s.store.subs :: s.store.subs[id].maxPairs <= s.Peak(id)
    requires OnlyReads(c) && LicenseRead(s.store, c) && LimitCarried(s, c)
    ensures var c' := ReadComplete(s.store, env, token, mobile, key, c);
            LicenseRead(s.store, c') && LimitCarried(s, c')
  {
    hide ActivePairs, LicenseIssuable, DeviceForRole, ReusesPairing;
  }

  lemma WriteLimits(s: State, env: Env, token: Id, mobile: Id, key: seq<nat>, c: Completion)
    requires !OnlyReads(c) && LicenseRead(s.store, c) && LimitCarried(s, c)
    ensures var c' := WriteComplete(s.store, env, token, mobile, key, c).1;
            LicenseRead(s.store, c') && LimitCarried(s, c')
  {
    hide ActivePairs, RevokeByDevice, UpdatePairingDevices, CreatePairingWithinCapacity, ConsumePairingToken;
  }

  /** No request touches licenses or subscriptions. */
  lemma ActsLeaveLicenses(st: Store, env: Env, q: Req)
    ensures Act(st, env, q).0.licenses == st.licenses && Act(st, env, q).0.subs == st.subs
    ensures Act(st, env, q).1.Complete? <==> q.Complete?
    ensures q.Complete? ==> Act(st, env, q) == (ActComplete(st, env, q.token, q.mobile, q.key, q.c).0,
                                                q.(c := ActComplete(st, env, q.token, q.mobile, q.key, q.c).1))
  {
  }

  /** Peaks only rise and licenses keep their subscription. */
  lemma LimitsSurvive(s: State, s': State, c: Completion)
    requires LicenseRead(s.store, c) && LimitCarried(s, c)
    requires LicensesKept(s.store.licenses, s'.store.licenses)
    requires forall id :: s.Peak(id) <= s'.Peak(id)
    ensures LicenseRead(s'.store, c) && LimitCarried(s', c)
  {
  }

  lemma GoKeepsLimits(s: State, r: ReqId, pick: Id)
    requires LimitsRight(s) && Enabled(s, Go(r, pick))
    ensures LimitsRight(Next(s, Go(r, pick)))
  {
    var s' := Next(s, Go(r, pick));
    var env, q := Env(s.now, s.config, pick), s.reqs[r];
    ActsLeaveLicenses(s.store, env, q);
    if q.Complete? {
      ActLimits(s, env, q.token, q.mobile, q.key, q.c);
    }
    hide Act, ActComplete;
    forall id ensures s'.Peak(id) == s.Peak(id) {
    }
    forall a | a in s'.reqs && s'.reqs[a].Complete?
      ensures LicenseRead(s'.store, s'.reqs[a].c) && LimitCarried(s', s'.reqs[a].c)
    {
      LimitsSurvive(s, s', s'.reqs[a].c);
    }
  }

  lemma ExternalKeepsLimits(s: State, change: Change)
    requires LimitsRight(s)
    ensures LimitsRight(Next(s, External(change)))
  {
    var s' := Next(s, External(change));
    ChangeEvolves(s.store, change);
    assert forall id :: s.Peak(id) <= s'.Peak(id);
    assert forall id | id in s'.store.subs :: s'.store.subs[id].maxPairs <= s'.Peak(id);
    hide Changed;
    forall a | a in s'.reqs && s'.reqs[a].Complete?
      ensures LicenseRead(s'.store, s'.reqs[a].c) && LimitCarried(s', s'.reqs[a].c)
    {
      LimitsSurvive(s, s', s'.reqs[a].c);
    }
  }

  lemma StepLimits(s: State, step: Step)
    requires LimitsRight(s) && Enabled(s, step)
    ensures LimitsRight(Next(s, step))
  {
    hide Act, Changed;
    match step
    case Begin(r, q) =>
    case Go(r, pick) => GoKeepsLimits(s, r, pick);
    case External(change) => ExternalKeepsLimits(s, change);
    case Tick(_) =>
  }

  // --- the pairings themselves ---

  /** The pairings of every license fit under the given bounds, and every pairing has a license. */
  ghost predicate Fits(pairings: map<Id, Pairing>, licenses: map<Id, License>, peak: map<Id, nat>) {
    && (forall p | p in pairings :: pairings[p].license in licenses)
    && (forall l | l in licenses :: |ActivePairs(pairings, l)| <= PeakIn(peak, licenses[l].sub))
  }

  lemma RevokeFits(pairings: map<Id, Pairing>, licenses: map<Id, License>, peak: map<Id, nat>, pair: Id)
    requires Fits(pairings, licenses, peak)
    ensures Fits(SetPairingStatus(pairings, pair, PairingRevoked), licenses, peak)
  {
    if pair in pairings {
      forall l | l in licenses
        ensures |ActivePairs(SetPairingStatus(pairings, pair, PairingRevoked), l)| <= |ActivePairs(pairings, l)|
      {
        ActiveAfterChange(pairings, pair, pairings[pair].(status := PairingRevoked), l);
      }
    }
  }

  lemma UpdateFits(pairings: map<Id, Pairing>, licenses: map<Id, License>, peak: map<Id, nat>, pair: Id, mobile: Id,
      desktop: Id)
    requires Fits(pairings, licenses, peak)
    ensures Fits(UpdatePairingDevices(pairings, pair, mobile, desktop), licenses, peak)
  {
    if pair in pairings {
      forall l | l in licenses
        ensures |ActivePairs(UpdatePairingDevices(pairings, pair, mobile, desktop), l)| <= |ActivePairs(pairings, l)|
      {
        ActiveAfterChange(pairings, pair, pairings[pair].(mobile := mobile, desktop := desktop), l);
      }
    }
  }

  /** The atomic insertion respects any limit that its license's subscription has carried. */
  lemma CreateFits(pairings: map<Id, Pairing>, licenses: map<Id, License>, peak: map<Id, nat>, id: Id, p: Pairing,
      maxPairs: nat)
    requires Fits(pairings, licenses, peak)
    requires p.license in licenses && maxPairs <= PeakIn(peak, licenses[p.license].sub)
    ensures Fits(CreatePairingWithinCapacity(pairings, id, p, maxPairs).0, licenses, peak)
  {
    if id !in pairings {
      forall l | l in licenses && |ActivePairs(pairings, p.license)| < maxPairs
        ensures |ActivePairs(pairings[id := p], l)| <= PeakIn(peak, licenses[l].sub)
      {
        ActiveAfterInsert(pairings, id, p, l);
      }
    }
  }

  ghost predicate WithinCapacity(s: State) {
    Fits(s.store.pairings, s.store.licenses, s.peak)
  }

  lemma WriteFits(st: Store, env: Env, token: Id, mobile: Id, key: seq<nat>, c: Completion, peak: map<Id, nat>)
    requires Fits(st.pairings, st.licenses, peak) && !OnlyReads(c)
    requires c.CKeyed? && c.plan.Insert? ==>
               c.pt.license in st.licenses && c.plan.maxPairs <= PeakIn(peak, st.licenses[c.pt.license].sub)
    ensures Fits(WriteComplete(st, env, token, mobile, key, c).0.pairings, st.licenses, peak)
  {
    hide Fits, CreatePairingWithinCapacity, UpdatePairingDevices, RevokeByDevice, ConsumePairingToken;
    match c
    case CUsed(_, _, _) =>
    case CKeyed(pt, pair, Replace(_)) => UpdateFits(st.pairings, st.licenses, peak, pair, mobile, pt.desktop);
    case CKeyed(pt, pair, Insert(maxPairs)) =>
      CreateFits(st.pairings, st.licenses, peak, pair, NewPairing(pt, mobile, env.now), maxPairs);
    case CPlanned(_, _, _) =>
    case CPaired(_, _, _) =>
    case CCred(_, _) =>
    case CDone(_) =>
  }

  lemma CompleteFits(st: Store, env: Env, token: Id, mobile: Id, key: seq<nat>, c: Completion, peak: map<Id, nat>)
    requires Fits(st.pairings, st.licenses, peak)
    requires c.CKeyed? && c.plan.Insert? ==>
               c.pt.license in st.licenses && c.plan.maxPairs <= PeakIn(peak, st.licenses[c.pt.license].sub)
    ensures Fits(ActComplete(st, env, token, mobile, key, c).0.pairings, st.licenses, peak)
  {
    hide Fits, ReadComplete, WriteComplete;
    if !OnlyReads(c) {
      WriteFits(st, env, token, mobile, key, c, peak);
    }
  }

  lemma ActFits(st: Store, env: Env, q: Req, peak: map<Id, nat>)
    requires Fits(st.pairings, st.licenses, peak)
    requires q.Complete? && q.c.CKeyed? && q.c.plan.Insert? ==>
               q.c.pt.license in st.licenses && q.c.plan.maxPairs <= PeakIn(peak, st.licenses[q.c.pt.license].sub)
    ensures Fits(Act(st, env, q).0.pairings, st.licenses, peak)
  {
    hide Fits, ActComplete, ActRefresh, ActIssue, SetPairingStatus;
    match q
    case Complete(token, mobile, key, c) => CompleteFits(st, env, token, mobile, key, c, peak);
    case Refresh(_, _) =>
    case Issue(_, _, _, _) =>
    case Unpair(_, pair, _) => RevokeFits(st.pairings, st.licenses, peak, pair);
  }

  lemma GoKeepsCapacity(s: State, r: ReqId, pick: Id)
    requires LimitsRight(s) && WithinCapacity(s) && Enabled(s, Go(r, pick))
    ensures WithinCapacity(Next(s, Go(r, pick)))
  {
    var env, q := Env(s.now, s.config, pick), s.reqs[r];
    assert q.Complete? ==> LicenseRead(s.store, q.c) && LimitCarried(s, q.c);
    ActsLeaveLicenses(s.store, env, q);
    ActFits(s.store, env, q, s.peak);
    hide Act, Fits, LimitsRight;
  }

  lemma ExternalKeepsCapacity(s: State, change: Change)
    requires WithinCapacity(s)
    ensures WithinCapacity(Next(s, External(change)))
  {
    var pairings, licenses, peak := s.store.pairings, s.store.licenses, s.peak;
    hide Fits;
    match change
    case PutSub(id, sub) => HigherPeakFits(pairings, licenses, peak, id, Max(s.Peak(id), sub.maxPairs));
    case NewLicense(id, lic) =>
      if id !in licenses {
        NewLicenseFits(pairings, licenses, peak, id, lic);
      }
    case SetLicense(id, status) =>
      if id in licenses {
        SameSubFits(pairings, licenses, peak, id, licenses[id].(status := status));
      }
    case Cut(pair) => RevokeFits(pairings, licenses, peak, pair);
    case NewToken(_, _) =>
    case NewDevice(_, _) =>
    case KeyDevice(_, _) =>
  }

  lemma HigherPeakFits(pairings: map<Id, Pairing>, licenses: map<Id, License>, peak: map<Id, nat>, id: Id, m: nat)
    requires Fits(pairings, licenses, peak) && PeakIn(peak, id) <= m
    ensures Fits(pairings, licenses, peak[id := m])
  {
  }

  lemma SameSubFits(pairings: map<Id, Pairing>, licenses: map<Id, License>, peak: map<Id, nat>, id: Id, lic: License)
    requires Fits(pairings, licenses, peak) && id in licenses && lic.sub == licenses[id].sub
    ensures Fits(pairings, licenses[id := lic], peak)
  {
  }

  /** A new license has no pairings yet. */
  lemma NewLicenseFits(pairings: map<Id, Pairing>, licenses: map<Id, License>, peak: map<Id, nat>, id: Id, lic: License)
    requires Fits(pairings, licenses, peak) && id !in licenses
    ensures Fits(pairings, licenses[id := lic], peak)
  {
  }

  lemma StepCapacity(s: State, step: Step)
    requires LimitsRight(s) && WithinCapacity(s) && Enabled(s, step)
    ensures WithinCapacity(Next(s, step))
  {
    hide Act, Changed, LimitsRight;
    match step
    case Begin(_, _) =>
    case Go(r, pick) => GoKeepsCapacity(s, r, pick);
    case External(change) => ExternalKeepsCapacity(s, change);
    case Tick(_) =>
  }

  lemma {:induction false} RunCapacity(s: State, steps: seq<Step>)
    requires LimitsRight(s) && WithinCapacity(s)
    ensures LimitsRight(Exec(s, steps)) && WithinCapacity(Exec(s, steps))
    decreases |steps|
  {
    hide LimitsRight, WithinCapacity, Act, Changed;
    if steps != [] {
      if Enabled(s, steps[0]) {
        StepLimits(s, steps[0]);
        StepCapacity(s, steps[0]);
        RunCapacity(Next(s, steps[0]), steps[1..]);
      } else {
        RunCapacity(s, steps[1..]);
      }
    }
  }

  /**
   On every run the active pairings of a license never outnumber the largest max_pairs its
   subscription has carried, although a completion reads max_pairs before it inserts.
   */
  lemma {:induction false} PairingsNeverExceedPeak(now: Time, config: Config, steps: seq<Step>, license: Id)
    ensures var s := Exec(Init(now, config), steps);
            license in s.store.licenses ==>
              |ActivePairs(s.store.pairings, license)| <= s.Peak(s.store.licenses[license].sub)
  {
    RunCapacity(Init(now, config), steps);
  }

  // ---------------------------------------------------------------------------
  // Refresh tokens are conserved
  // ---------------------------------------------------------------------------

  /** The live refresh tokens of a device. */
  function Unrevoked(refresh: map<Id, RefreshToken>, device: Id): set<Id> {
    set t | t in refresh && refresh[t].device == device && refresh[t].revokedAt == 0
  }

  predicate Rotating(q: Req, device: Id) {
    q.Refresh? && q.r.RUsed? && q.r.rt.device == device
  }

  /** The rotations of a device's tokens that are between consuming the old and storing the new one. */
  function InFlight(reqs: map<ReqId, Req>, device: Id): set<ReqId> {
    set r | r in reqs && Rotating(reqs[r], device)
  }

  /** The token record a refresh request carries, if it has read one. */
  function Carried(r: Refreshing): Option<RefreshToken> {
    match r
    case RToken(rt) => Some(rt)
    case RPairing(rt, _) => Some(rt)
    case RDevice(rt, _) => Some(rt)
    case RLicense(rt, _) => Some(rt)
    case RIssuable(rt) => Some(rt)
    case RUsed(rt) => Some(rt)
    case _ => None
  }

  /** A request carries its own token's device. */
  ghost predicate CarriedRight(s: State) {
    forall r | r in s.reqs && s.reqs[r].Refresh? && Carried(s.reqs[r].r).Some? ::
      s.reqs[r].token in s.store.refresh && s.store.refresh[s.reqs[r].token].device == Carried(s.reqs[r].r).value.device
  }

  ghost predicate Conserved(s: State) {
    forall d :: |Unrevoked(s.store.refresh, d)| + |InFlight(s.reqs, d)| <= s.Issued(d)
  }

  lemma RefreshCarries(st: Store, env: Env, token: Id, r: Refreshing)
    requires Carried(r).Some? ==> token in st.refresh && st.refresh[token].device == Carried(r).value.device
    ensures var r' := ActRefresh(st, env, token, r).1;
            Carried(r').Some? ==> token in st.refresh && st.refresh[token].device == Carried(r').value.device
  {
  }

  lemma StepCarried(s: State, step: Step)
    requires CarriedRight(s) && Enabled(s, step) && s.now > 0
    ensures CarriedRight(Next(s, step))
  {
    StepEvolves(s, step);
    if step.Go? && s.reqs[step.r].Refresh? {
      RefreshCarries(s.store, Env(s.now, s.config, step.pick), s.reqs[step.r].token, s.reqs[step.r].r);
    }
    hide ActComplete, ActRefresh, ActIssue, ActUnpair, Changed;
  }

  /** Revoking never adds a live token. */
  lemma FewerUnrevoked(a: map<Id, RefreshToken>, b: map<Id, RefreshToken>, device: Id)
    requires b.Keys == a.Keys && RefreshKept(a, b)
    ensures |Unrevoked(b, device)| <= |Unrevoked(a, device)|
  {
    SubsetCardinality(Unrevoked(b, device), Unrevoked(a, device));
  }

  lemma ConsumeMovesOne(refresh: map<Id, RefreshToken>, token: Id, now: Time, device: Id)
    requires token in refresh && refresh[token].revokedAt == 0 && now != 0
    ensures var after := refresh[token := refresh[token].(revokedAt := now)];
            |Unrevoked(after, device)| + (if refresh[token].device == device then 1 else 0) ==
                |Unrevoked(refresh, device)|
  {
    var after := refresh[token := refresh[token].(revokedAt := now)];
    assert Unrevoked(after, device) == Unrevoked(refresh, device) - {token};
  }

  lemma StoreAddsOne(refresh: map<Id, RefreshToken>, id: Id, rt: RefreshToken, device: Id)
    requires id !in refresh && rt.revokedAt == 0
    ensures |Unrevoked(refresh[id := rt], device)| ==
            |Unrevoked(refresh, device)| + if rt.device == device then 1 else 0
  {
    assert Unrevoked(refresh[id := rt], device) ==
           if rt.device == device then Unrevoked(refresh, device) + {id} else Unrevoked(refresh, device);
  }

  lemma FlightAfter(reqs: map<ReqId, Req>, r: ReqId, q: Req, device: Id)
    ensures |InFlight(reqs[r := q], device)| ==
            |InFlight(reqs, device)| - (if r in InFlight(reqs, device) then 1 else 0)
              + (if Rotating(q, device) then 1 else 0)
  {
    hide Rotating;
    var before, after := InFlight(reqs, device), InFlight(reqs[r := q], device);
    assert before - {r} == after - {r};
    assert r in after <==> Rotating(q, device);
    WithoutOne(before, r);
    WithoutOne(after, r);
  }

  lemma WithoutOne(s: set<ReqId>, r: ReqId)
    ensures |s - {r}| == |s| - if r in s then 1 else 0
  {
    if r !in s {
      assert s - {r} == s;
    }
  }

  /** 1 while the request holds a consumed token of the device that has no successor yet. */
  function Debt(q: Req, device: Id): nat {
    if Rotating(q, device) then 1 else 0
  }

  lemma RefreshConserves(st: Store, env: Env, token: Id, r: Refreshing, device: Id)
    requires env.now != 0 && (r.RUsed? ==> env.pick !in st.refresh)
    requires Carried(r).Some? ==> token in st.refresh && st.refresh[token].device == Carried(r).value.device
    ensures var (st', r') := ActRefresh(st, env, token, r);
            |Unrevoked(st'.refresh, device)| + Debt(Refresh(token, r'), device) <=
            |Unrevoked(st.refresh, device)| + Debt(Refresh(token, r), device)
  {
    RefreshEvolves(st, env, token, r);
    hide LicenseIssuable, Unrevoked, PairingHasDevice;
    match r
    case RReuse(_) => FewerUnrevoked(st.refresh, ActRefresh(st, env, token, r).0.refresh, device);
    case RRevoke => FewerUnrevoked(st.refresh, ActRefresh(st, env, token, r).0.refresh, device);
    case RIssuable(rt) =>
      if st.refresh[token].revokedAt == 0 {
        ConsumeMovesOne(st.refresh, token, env.now, device);
      }
    case RUsed(rt) =>
      StoreAddsOne(st.refresh, env.pick,
                   NewRefreshToken(env.config, env.now, rt.device, rt.account, rt.pair), device);
    case _ =>
  }

  lemma IssueAddsOne(st: Store, env: Env, account: Id, device: Id, pair: Id, i: Issuing, d: Id)
    requires i.IIssuable? ==> env.pick !in st.refresh
    ensures |Unrevoked(ActIssue(st, env, account, device, pair, i).0.refresh, d)| ==
            |Unrevoked(st.refresh, d)| + if i.IIssuable? && device == d then 1 else 0
  {
    hide LicenseIssuable, Unrevoked, PairingHasDevice;
    if i.IIssuable? {
      StoreAddsOne(st.refresh, env.pick, NewRefreshToken(env.config, env.now, device, account, pair), d);
    }
  }

  lemma CompleteRevokes(st: Store, env: Env, token: Id, mobile: Id, key: seq<nat>, c: Completion, device: Id)
    requires env.now != 0
    ensures |Unrevoked(ActComplete(st, env, token, mobile, key, c).0.refresh, device)| <=
            |Unrevoked(st.refresh, device)|
  {
    hide Unrevoked, RevokeByDevice, ReadComplete, CreatePairingWithinCapacity;
    if c.CPaired? && c.plan.Replace? {
      RevokeDeviceKeeps(st.refresh, c.plan.evicted, env.now);
      RevokedKeys(st.refresh, c.plan.evicted, env.now);
      FewerUnrevoked(st.refresh, RevokeByDevice(st.refresh, c.plan.evicted, env.now), device);
    }
  }

  /** The refresh-token account of one action: live tokens plus debts grow only by an issuance. */
  lemma ActConserves(st: Store, env: Env, q: Req, device: Id)
    requires env.now != 0 && (Mints(q) ==> env.pick !in st.refresh)
    requires q.Refresh? && Carried(q.r).Some? ==>
               q.token in st.refresh && st.refresh[q.token].device == Carried(q.r).value.device
    ensures var (st', q') := Act(st, env, q);
            |Unrevoked(st'.refresh, device)| + Debt(q', device) <=
            |Unrevoked(st.refresh, device)| + Debt(q, device)
              + if q.Issue? && Mints(q) && q.device == device then 1 else 0
  {
    hide Unrevoked, ActComplete, ActRefresh, ActIssue, ActUnpair;
    match q
    case Complete(token, mobile, key, c) => CompleteRevokes(st, env, token, mobile, key, c, device);
    case Refresh(token, r) => RefreshConserves(st, env, token, r, device);
    case Issue(account, dev, pair, i) => IssueAddsOne(st, env, account, dev, pair, i, device);
    case Unpair(_, _, _) =>
  }

  lemma GoConserves(s: State, r: ReqId, pick: Id, device: Id)
    requires CarriedRight(s) && s.now > 0 && Enabled(s, Go(r, pick))
    requires |Unrevoked(s.store.refresh, device)| + |InFlight(s.reqs, device)| <= s.Issued(device)
    ensures var s' := Next(s, Go(r, pick));
            |Unrevoked(s'.store.refresh, device)| + |InFlight(s'.reqs, device)| <= s'.Issued(device)
  {
    var env, q := Env(s.now, s.config, pick), s.reqs[r];
    ActConserves(s.store, env, q, device);
    FlightAfter(s.reqs, r, Act(s.store, env, q).1, device);
    assert r in InFlight(s.reqs, device) <==> Rotating(q, device);
    hide Act, Unrevoked, InFlight, Rotating, CarriedRight;
  }

  lemma StepConserves(s: State, step: Step)
    requires Conserved(s) && CarriedRight(s) && Enabled(s, step) && s.now > 0
    ensures Conserved(Next(s, step))
  {
    var s' := Next(s, step);
    hide Act, Changed, Unrevoked, InFlight, CarriedRight;
    forall d
      ensures |Unrevoked(s'.store.refresh, d)| + |InFlight(s'.reqs, d)| <= s'.Issued(d)
    {
      match step
      case Begin(r, q) => BeginsFree(s.reqs, r, q, d);
      case Go(r, pick) => GoConserves(s, r, pick, d);
      case External(change) => ChangesNoRefresh(s.store, change);
      case Tick(_) =>
    }
  }

  lemma BeginsFree(reqs: map<ReqId, Req>, r: ReqId, q: Req, device: Id)
    requires r !in reqs && AtStart(q)
    ensures InFlight(reqs[r := q], device) == InFlight(reqs, device)
  {
  }

  lemma ChangesNoRefresh(st: Store, change: Change)
    ensures Changed(st, change).refresh == st.refresh
  {
  }

  lemma {:induction false} RunConserves(s: State, steps: seq<Step>)
    requires Conserved(s) && CarriedRight(s) && s.now > 0
    ensures Conserved(Exec(s, steps))
    decreases |steps|
  {
    hide Conserved, CarriedRight, Act, Changed;
    if steps != [] {
      if Enabled(s, steps[0]) {
        StepConserves(s, steps[0]);
        StepCarried(s, steps[0]);
        StepEvolves(s, steps[0]);
        RunConserves(Next(s, steps[0]), steps[1..]);
      } else {
        RunConserves(s, steps[1..]);
      }
    }
  }

  /**
   On every run the live refresh tokens of a device, with the rotations that have consumed
   one and not yet stored its successor, never outnumber the issuances to that device.
   */
  lemma {:induction false} LiveTokensNeverExceedIssuances(now: Time, config: Config, steps: seq<Step>, device: Id)
    requires now > 0
    ensures var s := Exec(Init(now, config), steps);
            |Unrevoked(s.store.refresh, device)| + |InFlight(s.reqs, device)| <= s.Issued(device)
  {
    RunConserves(Init(now, config), steps);
  }
}
