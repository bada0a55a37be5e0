/**
 The two views of a handler agree: a request of the race model that is stepped alone, from
 its start to its end, leaves the store and the answer of the handler run at once.

 The race model does not turn the generator, so the stores are compared up to `nextId`; the
 ids it picks are the ones the handler draws.
 */
module AuthAlone {
  import opened Options
  import opened Roles
  import opened AuthStore
  import opened Entitlement
  import opened Billing
  import opened AuthHandlers
  import Races = AuthRaces

  /** The same store up to the generator. */
  predicate SameStore(a: Store, b: Store) {
    a.(nextId := b.nextId) == b
  }

  // ---------------------------------------------------------------------------
  // Refresh
  // ---------------------------------------------------------------------------

  function RefreshAlone(st: Store, env: Races.Env, token: Id, r: Races.Refreshing, n: nat): (Store, Races.Refreshing)
    decreases n
  {
    if n == 0 || r.RDone? then (st, r)
    else
      var (st', r') := Races.ActRefresh(st, env, token, r);
      RefreshAlone(st', env, token, r', n - 1)
  }

  /** The reads of a refresh, up to the verdict. */
  lemma RefreshReads(st: Store, env: Races.Env, token: Id)
    ensures var v := Judge(st, env.config, token, env.now);
            RefreshAlone(st, env, token, Races.RStart, 7) ==
            match v
            case Refused => (st, Races.RDone(None))
            case Reused => RefreshAlone(st, env, token, Races.RReuse(st.refresh[token].device), 6)
            case Withdrawn => (st.(refresh := RevokeRefreshToken(st.refresh, token, env.now)), Races.RDone(None))
            case Granted => RefreshAlone(st, env, token, Races.RIssuable(st.refresh[token]), 2)
  {
    hide RevokeByDevice, RevokeRefreshToken, LicenseIssuable, PairingHasDevice, ConsumeRefreshToken;
    if token in st.refresh && st.refresh[token].Active(env.now) {
      var rt := st.refresh[token];
      assert RefreshAlone(st, env, token, Races.RStart, 7) == RefreshAlone(st, env, token, Races.RToken(rt), 6);
      if rt.pair in st.pairings && st.pairings[rt.pair].status == PairingActive {
        var p := st.pairings[rt.pair];
        assert RefreshAlone(st, env, token, Races.RToken(rt), 6) ==
               RefreshAlone(st, env, token, Races.RPairing(rt, p), 5);
        if rt.device in st.devices && st.devices[rt.device].account == rt.account
           && PairingHasDevice(p, rt.device, st.devices[rt.device]) {
          assert RefreshAlone(st, env, token, Races.RPairing(rt, p), 5) ==
                 RefreshAlone(st, env, token, Races.RDevice(rt, p), 4);
        }
      }
    }
  }

  lemma RefreshWrites(st: Store, env: Races.Env, token: Id, rt: RefreshToken)
    requires token in st.refresh && st.refresh[token] == rt && rt.revokedAt == 0
    ensures RefreshAlone(st, env, token, Races.RIssuable(rt), 2) ==
            (st.(refresh := st.refresh[token := rt.(revokedAt := env.now)]
                              [env.pick := NewRefreshToken(env.config, env.now, rt.device, rt.account, rt.pair)]),
             Races.RDone(Some(rt.pair)))
  {
    var used := st.(refresh := st.refresh[token := rt.(revokedAt := env.now)]);
    assert RefreshAlone(st, env, token, Races.RIssuable(rt), 2) == RefreshAlone(used, env, token, Races.RUsed(rt), 1);
  }

  lemma ReuseAlone(st: Store, env: Races.Env, token: Id, device: Id)
    ensures RefreshAlone(st, env, token, Races.RReuse(device), 6) ==
            (st.(refresh := RevokeByDevice(st.refresh, device, env.now)), Races.RDone(None))
  {
    hide RevokeByDevice;
  }

  lemma RefreshAloneJudges(st: Store, env: Races.Env, token: Id)
    requires env.pick == st.nextId
    ensures var (end, r) := RefreshAlone(st, env, token, Races.RStart, 7);
            && end == st.(refresh := Judged(st, env.config, token, env.now)) && r.RDone?
            && (r.minted.Some? <==> Judge(st, env.config, token, env.now).Granted?)
  {
    RefreshReads(st, env, token);
    hide Judge, RevokeByDevice, RevokeRefreshToken, RefreshAlone, NewRefreshToken;
    match Judge(st, env.config, token, env.now)
    case Refused =>
    case Reused => ReuseAlone(st, env, token, st.refresh[token].device);
    case Withdrawn =>
    case Granted => RefreshWrites(st, env, token, st.refresh[token]);
  }

  /** A refresh stepped alone is the refresh handler. */
  lemma RefreshAloneIsHandler(st: Store, config: Config, token: Id, now: Time)
    ensures var (end, r) := RefreshAlone(st, Races.Env(now, config, st.nextId), token, Races.RStart, 7);
            var (after, next) := RefreshTokens(st, config, token, now);
            SameStore(end, after) && r.RDone? && (r.minted.Some? <==> next.Some?)
  {
    hide RefreshAlone, Judged;
    RefreshAloneJudges(st, Races.Env(now, config, st.nextId), token);
  }

  // ---------------------------------------------------------------------------
  // Issue and unpair
  // ---------------------------------------------------------------------------

  function IssueAlone(st: Store, env: Races.Env, account: Id, device: Id, pair: Id, i: Races.Issuing, n: nat)
    : (Store, Races.Issuing)
    decreases n
  {
    if n == 0 || i.IDone? then (st, i)
    else
      var (st', i') := Races.ActIssue(st, env, account, device, pair, i);
      IssueAlone(st', env, account, device, pair, i', n - 1)
  }

  /** The account a caller's request runs under, when it gets past authentication and its scope. */
  function Scoped(st: Store, caller: Caller, device: Id, pair: Id): Option<Id> {
    var account := Authenticate(st, caller);
    if account.None? || (caller.ByPair? && (caller.pair != pair || st.creds[caller.pair].mobile != device)) then None
    else account
  }

  /** An issuance stepped alone is the issue handler, for every caller in its scope; the others are refused at once. */
  lemma IssueAloneIsHandler(st: Store, config: Config, caller: Caller, device: Id, pair: Id, now: Time)
    ensures var (after, next) := IssueToken(st, config, caller, device, pair, now);
            match Scoped(st, caller, device, pair)
            case None => (after, next) == (st, None)
            case Some(account) =>
              var (end, i) := IssueAlone(st, Races.Env(now, config, st.nextId), account, device, pair, Races.IStart, 5);
              SameStore(end, after) && i.IDone? && (i.minted.Some? <==> next.Some?)
  {
    hide LicenseIssuable, PairingHasDevice;
    var scoped := Scoped(st, caller, device, pair);
    if scoped.Some? {
      IssueReads(st, Races.Env(now, config, st.nextId), scoped.value, device, pair);
    }
  }

  lemma IssueReads(st: Store, env: Races.Env, account: Id, device: Id, pair: Id)
    ensures IssueAlone(st, env, account, device, pair, Races.IStart, 5) ==
            if pair in st.pairings && st.pairings[pair].account == account
               && MayConnect(st, env.config, account, device, pair, env.now)
            then (st.(refresh := st.refresh[env.pick := NewRefreshToken(env.config, env.now, device, account, pair)]),
                  Races.IDone(Some(pair)))
            else (st, Races.IDone(None))
  {
    hide LicenseIssuable, PairingHasDevice;
    if pair in st.pairings && st.pairings[pair].account == account && st.pairings[pair].status == PairingActive {
      var p := st.pairings[pair];
      assert IssueAlone(st, env, account, device, pair, Races.IStart, 5) ==
             IssueAlone(st, env, account, device, pair, Races.IPairing(p), 4);
      if device in st.devices && st.devices[device].account == account
         && PairingHasDevice(p, device, st.devices[device]) {
        assert IssueAlone(st, env, account, device, pair, Races.IPairing(p), 4) ==
               IssueAlone(st, env, account, device, pair, Races.IDevice(p), 3);
      }
    }
  }

  function UnpairAlone(st: Store, env: Races.Env, account: Id, pair: Id, u: Races.Unpairing, n: nat)
    : (Store, Races.Unpairing)
    decreases n
  {
    if n == 0 || u.UDone? then (st, u)
    else
      var (st', u') := Races.ActUnpair(st, env, account, pair, u);
      UnpairAlone(st', env, account, pair, u', n - 1)
  }

  /** An unpairing stepped alone is the unpair handler. */
  lemma UnpairAloneIsHandler(st: Store, env: Races.Env, caller: Caller, pair: Id)
    ensures var (after, ok) := Unpair(st, caller, pair, env.now);
            var account := Authenticate(st, caller);
            if account.None? || (caller.ByPair? && caller.pair != pair) then (after, ok) == (st, false)
            else UnpairAlone(st, env, account.value, pair, Races.UStart, 3) == (after, Races.UDone)
  {
    hide SetPairingStatus, RevokeCredential;
    var account := Authenticate(st, caller);
    if account.Some? && pair in st.pairings && st.pairings[pair].account == account.value {
      var cut := st.(pairings := SetPairingStatus(st.pairings, pair, PairingRevoked));
      assert UnpairAlone(st, env, account.value, pair, Races.UStart, 3) ==
             UnpairAlone(st, env, account.value, pair, Races.URevoke, 2);
      assert UnpairAlone(st, env, account.value, pair, Races.URevoke, 2) ==
             UnpairAlone(cut, env, account.value, pair, Races.UCred, 1);
    }
  }

  // ---------------------------------------------------------------------------
  // Completion
  // ---------------------------------------------------------------------------

  /** What the handler picks at a position: the lowest pairing to reuse, the new pair, the secret. */
  function PickFor(st: Store, c: Races.Completion): Id {
    match c
    case CDesktop(pt, _) =>
      var reuse := PairedWith(st.pairings, pt.license, pt.desktop);
      if reuse != {} then MinOf(reuse) else 0
    case CCount(_, _) => st.nextId
    case CCred(_, pair) => if pair == st.nextId then st.nextId + 1 else st.nextId
    case _ => 0
  }

  datatype Request = Request(token: Id, mobile: Id, key: seq<nat>, config: Config, now: Time)

  function CompleteAlone(st: Store, q: Request, c: Races.Completion, n: nat): (Store, Races.Completion)
    decreases n
  {
    if n == 0 || c.CDone? then (st, c)
    else
      var (st', c') := Races.ActComplete(st, Races.Env(q.now, q.config, PickFor(st, c)), q.token, q.mobile, q.key, c);
      CompleteAlone(st', q, c', n - 1)
  }

  /** One action of a completion. */
  lemma OneAction(st: Store, q: Request, c: Races.Completion, n: nat)
    requires n > 0 && !c.CDone?
    ensures var env := Races.Env(q.now, q.config, PickFor(st, c));
            var (st', c') := Races.ActComplete(st, env, q.token, q.mobile, q.key, c);
            CompleteAlone(st, q, c, n) == CompleteAlone(st', q, c', n - 1)
  {
    hide Races.ActComplete, PickFor;
  }

  lemma DoneStays(st: Store, q: Request, ok: bool, n: nat)
    ensures CompleteAlone(st, q, Races.CDone(ok), n) == (st, Races.CDone(ok))
  {
  }

  lemma FirstWrites(st: Store, q: Request, pt: PairingToken, pair: Id, plan: Races.Plan, n: nat)
    requires n >= 2 && q.token in st.tokens && st.tokens[q.token] == pt && pt.consumedAt == 0 && q.mobile in st.devices
    ensures CompleteAlone(st, q, Races.CPlanned(pt, pair, plan), n) ==
            CompleteAlone(Keyed(st, q.token, q.mobile, q.key, pair, q.now), q, Races.CKeyed(pt, pair, plan), n - 2)
  {
    var used := st.(tokens := st.tokens[q.token := pt.(consumedAt := q.now, resultPair := pair)]);
    hide CompleteAlone;
    OneAction(st, q, Races.CPlanned(pt, pair, plan), n);
    OneAction(used, q, Races.CUsed(pt, pair, plan), n - 1);
  }

  function Replaced(st: Store, q: Request, pt: PairingToken, pair: Id, evicted: Id): Store {
    st.(pairings := UpdatePairingDevices(st.pairings, pair, q.mobile, pt.desktop),
        refresh := if evicted != q.mobile then RevokeByDevice(st.refresh, evicted, q.now) else st.refresh,
        creds := st.creds[pair := Credential(pt.account, pt.license, q.mobile, st.nextId, q.now, 0)])
  }

  lemma ReplaceWrites(st: Store, q: Request, pt: PairingToken, pair: Id, evicted: Id, n: nat)
    requires n >= 3 && pair != st.nextId
    ensures CompleteAlone(st, q, Races.CKeyed(pt, pair, Races.Replace(evicted)), n) ==
            (Replaced(st, q, pt, pair, evicted), Races.CDone(true))
  {
    var paired := st.(pairings := UpdatePairingDevices(st.pairings, pair, q.mobile, pt.desktop));
    var cut := paired.(refresh :=
        if evicted != q.mobile then RevokeByDevice(st.refresh, evicted, q.now) else st.refresh);
    hide CompleteAlone, UpdatePairingDevices, RevokeByDevice;
    OneAction(st, q, Races.CKeyed(pt, pair, Races.Replace(evicted)), n);
    OneAction(paired, q, Races.CPaired(pt, pair, Races.Replace(evicted)), n - 1);
    OneAction(cut, q, Races.CCred(pt, pair), n - 2);
    DoneStays(Replaced(st, q, pt, pair, evicted), q, true, n - 3);
  }

  function Inserted(st: Store, q: Request, pt: PairingToken): Store {
    st.(pairings := st.pairings[st.nextId := NewPairing(pt, q.mobile, q.now)],
        creds := st.creds[st.nextId := Credential(pt.account, pt.license, q.mobile, st.nextId + 1, q.now, 0)])
  }

  predicate Inserts(st: Store, q: Request, pt: PairingToken, maxPairs: nat) {
    CreatePairingWithinCapacity(st.pairings, st.nextId, NewPairing(pt, q.mobile, q.now), maxPairs).1.Ok?
  }

  lemma InsertWrites(st: Store, q: Request, pt: PairingToken, maxPairs: nat, n: nat)
    requires n >= 3
    ensures CompleteAlone(st, q, Races.CKeyed(pt, st.nextId, Races.Insert(maxPairs)), n) ==
            if Inserts(st, q, pt, maxPairs) then (Inserted(st, q, pt), Races.CDone(true)) else (st, Races.CDone(false))
  {
    var pair, p := st.nextId, NewPairing(pt, q.mobile, q.now);
    var (pairings, err) := CreatePairingWithinCapacity(st.pairings, pair, p, maxPairs);
    assert pairings == if err.Ok? then st.pairings[pair := p] else st.pairings;
    var paired := st.(pairings := pairings);
    hide CompleteAlone, CreatePairingWithinCapacity, NewPairing;
    OneAction(st, q, Races.CKeyed(pt, pair, Races.Insert(maxPairs)), n);
    if err.Ok? {
      OneAction(paired, q, Races.CPaired(pt, pair, Races.Insert(maxPairs)), n - 1);
      OneAction(paired, q, Races.CCred(pt, pair), n - 2);
      DoneStays(Inserted(st, q, pt), q, true, n - 3);
    } else {
      DoneStays(st, q, false, n - 1);
    }
  }

  /** The plan a completion makes for its writes. */
  function Planned(st: Store, pt: PairingToken, maxPairs: nat): Races.Completion {
    var reuse := PairedWith(st.pairings, pt.license, pt.desktop);
    if reuse != {} then Races.CPlanned(pt, MinOf(reuse), Races.Replace(st.pairings[MinOf(reuse)].mobile))
    else Races.CPlanned(pt, st.nextId, Races.Insert(maxPairs))
  }

  /** The request's token is unspent, its phone known, and the next id unused. */
  predicate Ready(st: Store, q: Request) {
    && q.token in st.tokens && st.tokens[q.token].consumedAt == 0
    && q.mobile in st.devices && st.nextId !in st.pairings
  }

  lemma ReplacedIsFinished(st: Store, q: Request, pair: Id)
    requires Ready(st, q) && PairedWith(st.pairings, st.tokens[q.token].license, st.tokens[q.token].desktop) != {}
    requires pair == MinOf(PairedWith(st.pairings, st.tokens[q.token].license, st.tokens[q.token].desktop))
    ensures pair in st.pairings
    ensures var keyed := Keyed(st, q.token, q.mobile, q.key, pair, q.now);
            SameStore(Replaced(keyed, q, st.tokens[q.token], pair, st.pairings[pair].mobile),
                      Finish(st, q.token, q.mobile, q.key, q.now).0)
  {
    assert pair in st.pairings;
    hide PairedWith, MinOf, UpdatePairingDevices, RevokeByDevice;
  }

  lemma InsertedIsFinished(st: Store, q: Request)
    requires Ready(st, q) && PairedWith(st.pairings, st.tokens[q.token].license, st.tokens[q.token].desktop) == {}
    ensures SameStore(Inserted(Keyed(st, q.token, q.mobile, q.key, st.nextId, q.now), q, st.tokens[q.token]),
                      Finish(st, q.token, q.mobile, q.key, q.now).0)
    ensures SameStore(Keyed(st, q.token, q.mobile, q.key, st.nextId, q.now), Spent(st, q.token, q.mobile, q.key, q.now))
  {
    hide PairedWith, NewPairing;
  }

  lemma ReplaceAlone(st: Store, q: Request, maxPairs: nat)
    requires Ready(st, q) && PairedWith(st.pairings, st.tokens[q.token].license, st.tokens[q.token].desktop) != {}
    ensures var (end, c) := CompleteAlone(st, q, Planned(st, st.tokens[q.token], maxPairs), 5);
            SameStore(end, Finish(st, q.token, q.mobile, q.key, q.now).0) && c == Races.CDone(true)
  {
    var pt := st.tokens[q.token];
    var pair := MinOf(PairedWith(st.pairings, pt.license, pt.desktop));
    ReplacedIsFinished(st, q, pair);
    assert Planned(st, pt, maxPairs) == Races.CPlanned(pt, pair, Races.Replace(st.pairings[pair].mobile));
    assert q.token in st.tokens && q.mobile in st.devices && pt.consumedAt == 0 && pair != st.nextId;
    hide *;
    FirstWrites(st, q, pt, pair, Races.Replace(st.pairings[pair].mobile), 5);
    ReplaceWrites(Keyed(st, q.token, q.mobile, q.key, pair, q.now), q, pt, pair, st.pairings[pair].mobile, 3);
  }

  lemma AcceptedInserts(st: Store, q: Request, maxPairs: nat)
    requires Ready(st, q) && PairedWith(st.pairings, st.tokens[q.token].license, st.tokens[q.token].desktop) == {}
    ensures InsertAccepted(st, st.tokens[q.token], q.mobile, maxPairs, q.now) <==>
            Inserts(Keyed(st, q.token, q.mobile, q.key, st.nextId, q.now), q, st.tokens[q.token], maxPairs)
  {
    hide PairedWith, CreatePairingWithinCapacity, NewPairing;
  }

  lemma InsertAlone(st: Store, q: Request, maxPairs: nat)
    requires Ready(st, q) && PairedWith(st.pairings, st.tokens[q.token].license, st.tokens[q.token].desktop) == {}
    ensures var (end, c) := CompleteAlone(st, q, Planned(st, st.tokens[q.token], maxPairs), 5);
            if InsertAccepted(st, st.tokens[q.token], q.mobile, maxPairs, q.now)
            then SameStore(end, Finish(st, q.token, q.mobile, q.key, q.now).0) && c == Races.CDone(true)
            else SameStore(end, Spent(st, q.token, q.mobile, q.key, q.now)) && c == Races.CDone(false)
  {
    var pt := st.tokens[q.token];
    InsertedIsFinished(st, q);
    assert Planned(st, pt, maxPairs) == Races.CPlanned(pt, st.nextId, Races.Insert(maxPairs));
    assert q.token in st.tokens && q.mobile in st.devices && pt.consumedAt == 0;
    AcceptedInserts(st, q, maxPairs);
    hide *;
    FirstWrites(st, q, pt, st.nextId, Races.Insert(maxPairs), 5);
    InsertWrites(Keyed(st, q.token, q.mobile, q.key, st.nextId, q.now), q, pt, maxPairs, 3);
  }

  /** From the plan on, a completion stepped alone writes what the handler writes. */
  lemma WritesAlone(st: Store, q: Request, maxPairs: nat)
    requires Ready(st, q)
    ensures var (end, c) := CompleteAlone(st, q, Planned(st, st.tokens[q.token], maxPairs), 5);
            var (after, pair) := WriteOut(st, q.token, q.mobile, q.key, maxPairs, q.now);
            SameStore(end, after) && c == Races.CDone(pair.Some?)
  {
    var reuse := PairedWith(st.pairings, st.tokens[q.token].license, st.tokens[q.token].desktop);
    if reuse != {} {
      ReplaceAlone(st, q, maxPairs);
    } else {
      InsertAlone(st, q, maxPairs);
    }
    hide CompleteAlone, Finish, Spent, Planned, PairedWith, SameStore, CreatePairingWithinCapacity;
  }

  predicate Checked(st: Store, q: Request) {
    && q.token in st.tokens && st.tokens[q.token].Active(q.now)
    && var pt := st.tokens[q.token];
       pt.license in st.licenses && LicenseIssuable(st, q.config, q.now, st.licenses[pt.license]) && q.key != []
  }

  /** The reads up to the license. */
  lemma LicenseReads(st: Store, q: Request)
    ensures CompleteAlone(st, q, Races.CStart, 13) ==
            if Checked(st, q) then
              CompleteAlone(st, q, Races.CIssuable(st.tokens[q.token], st.licenses[st.tokens[q.token].license]), 10)
            else (st, Races.CDone(false))
  {
    hide CompleteAlone, LicenseIssuable;
    OneAction(st, q, Races.CStart, 13);
    if q.token in st.tokens && st.tokens[q.token].Active(q.now) {
      var pt := st.tokens[q.token];
      OneAction(st, q, Races.CToken(pt), 12);
      if pt.license in st.licenses {
        OneAction(st, q, Races.CLicense(pt, st.licenses[pt.license]), 11);
        DoneStays(st, q, false, 10);
      } else {
        DoneStays(st, q, false, 11);
      }
    } else {
      DoneStays(st, q, false, 12);
    }
  }

  predicate DevicesGood(st: Store, q: Request, pt: PairingToken) {
    && DeviceForRole(st.devices, q.mobile, pt.account, Mobile)
    && pt.desktop in st.devices && st.devices[pt.desktop].key != []
  }

  /** The reads of the devices. */
  lemma DeviceReads(st: Store, q: Request, pt: PairingToken, lic: License)
    ensures CompleteAlone(st, q, Races.CIssuable(pt, lic), 10) ==
            if DevicesGood(st, q, pt) then CompleteAlone(st, q, Races.CDesktop(pt, lic), 8)
            else (st, Races.CDone(false))
  {
    hide CompleteAlone;
    OneAction(st, q, Races.CIssuable(pt, lic), 10);
    if DeviceForRole(st.devices, q.mobile, pt.account, Mobile) {
      OneAction(st, q, Races.CMobile(pt, lic), 9);
      DoneStays(st, q, false, 8);
    } else {
      DoneStays(st, q, false, 9);
    }
  }

  lemma ReusesIsPaired(st: Store, pt: PairingToken)
    ensures forall id :: Races.ReusesPairing(st, pt, id) <==> id in PairedWith(st.pairings, pt.license, pt.desktop)
  {
  }

  lemma StepsToSpare(st: Store, q: Request, c: Races.Completion, n: nat, m: nat)
    requires n <= m && CompleteAlone(st, q, c, n).1.CDone?
    ensures CompleteAlone(st, q, c, m) == CompleteAlone(st, q, c, n)
    decreases n
  {
  }

  /** The reads that make the plan. */
  lemma PlanReads(st: Store, q: Request, pt: PairingToken, lic: License)
    requires pt.license in st.licenses && st.licenses[pt.license] == lic
    ensures var all := CompleteAlone(st, q, Races.CDesktop(pt, lic), 8);
            if PairedWith(st.pairings, pt.license, pt.desktop) != {} then
              all == CompleteAlone(st, q, Planned(st, pt, LimitOf(st, pt.license)), 7)
            else if CapacityAvailable(st, pt.license) then
              all == CompleteAlone(st, q, Planned(st, pt, LimitOf(st, pt.license)), 5)
            else all == (st, Races.CDone(false))
  {
    ReusesIsPaired(st, pt);
    var reuse := PairedWith(st.pairings, pt.license, pt.desktop);
    hide CompleteAlone, PairedWith, ActivePairs, Races.ReusesPairing;
    OneAction(st, q, Races.CDesktop(pt, lic), 8);
    if reuse != {} {
      assert Races.ReusesPairing(st, pt, MinOf(reuse));
    } else {
      OneAction(st, q, Races.CCapacity(pt, lic), 7);
      if lic.sub in st.subs {
        OneAction(st, q, Races.CCount(pt, st.subs[lic.sub].maxPairs), 6);
        DoneStays(st, q, false, 5);
      } else {
        DoneStays(st, q, false, 6);
      }
    }
  }

  /** From its plan a completion needs five actions. */
  lemma PlanIsDone(st: Store, q: Request, maxPairs: nat, n: nat)
    requires Ready(st, q) && n >= 5
    ensures var (end, c) := CompleteAlone(st, q, Planned(st, st.tokens[q.token], maxPairs), n);
            var (after, pair) := WriteOut(st, q.token, q.mobile, q.key, maxPairs, q.now);
            SameStore(end, after) && c == Races.CDone(pair.Some?)
  {
    WritesAlone(st, q, maxPairs);
    hide CompleteAlone, WriteOut, Planned;
    StepsToSpare(st, q, Planned(st, st.tokens[q.token], maxPairs), 5, n);
  }

  /** Once its phone is known, a completion stepped alone checks and writes what the handler does. */
  lemma CompletionFromPhone(st: Store, q: Request)
    requires st.nextId !in st.pairings
    ensures var (end, c) := CompleteAlone(st, q, Races.CStart, 13);
            if Checked(st, q) && DevicesGood(st, q, st.tokens[q.token])
               && MayPair(st, st.tokens[q.token].license, st.tokens[q.token].desktop) then
              var maxPairs := LimitOf(st, st.tokens[q.token].license);
            var (after, pair) := WriteOut(st, q.token, q.mobile, q.key, maxPairs, q.now);
              SameStore(end, after) && c == Races.CDone(pair.Some?)
            else (end, c) == (st, Races.CDone(false))
  {
    hide CompleteAlone, WriteOut, Planned, PairedWith, CapacityAvailable, LicenseIssuable, SameStore;
    LicenseReads(st, q);
    if Checked(st, q) {
      var pt := st.tokens[q.token];
      var lic := st.licenses[pt.license];
      DeviceReads(st, q, pt, lic);
      if DevicesGood(st, q, pt) {
        PlanReads(st, q, pt, lic);
        PlanIsDone(st, q, LimitOf(st, pt.license), 7);
        PlanIsDone(st, q, LimitOf(st, pt.license), 5);
      }
    }
  }

  /** The handler, with its checks in three groups. */
  lemma HandlerInGroups(st: Store, q: Request)
    ensures CompletePairing(st, q.config, q.token, Some(q.mobile), q.key, q.now) ==
            if Checked(st, q) && DevicesGood(st, q, st.tokens[q.token])
               && MayPair(st, st.tokens[q.token].license, st.tokens[q.token].desktop)
            then WriteOut(st, q.token, q.mobile, q.key, LimitOf(st, st.tokens[q.token].license), q.now)
            else (st, None)
  {
    hide WriteOut, MayPair, LicenseIssuable, LimitOf;
  }

  /** A completion that names its phone, stepped alone, is the completion handler. */
  lemma CompletionAloneIsHandler(st: Store, config: Config, token: Id, mobile: Id, key: seq<nat>, now: Time)
    requires st.nextId !in st.pairings
    ensures var (end, c) := CompleteAlone(st, Request(token, mobile, key, config, now), Races.CStart, 13);
            var (after, pair) := CompletePairing(st, config, token, Some(mobile), key, now);
            SameStore(end, after) && c == Races.CDone(pair.Some?)
  {
    var q := Request(token, mobile, key, config, now);
    hide CompleteAlone, WriteOut, MayPair, Checked, DevicesGood, CompletePairing, LimitOf;
    CompletionFromPhone(st, q);
    HandlerInGroups(st, q);
  }

  /**
   A completion that names no phone is the registration of its phone followed by a completion
   stepped alone, unless it is refused before it gets to the phone or none can be registered.
   */
  lemma RegisteredCompletionIsHandler(st: Store, config: Config, token: Id, key: seq<nat>, now: Time)
    requires Checked(st, Request(token, 0, key, config, now))
    requires forall p | p in st.pairings :: p < st.nextId
    ensures var (known, phone) := ResolveMobile(st, config, st.tokens[token].account, None, key, now);
            var (after, pair) := CompletePairing(st, config, token, None, key, now);
            match phone
            case None => (after, pair) == (known, None)
            case Some(mobile) =>
              var (end, c) := CompleteAlone(known, Request(token, mobile, key, config, now), Races.CStart, 13);
              SameStore(end, after) && c == Races.CDone(pair.Some?)
  {
    var (known, phone) := ResolveMobile(st, config, st.tokens[token].account, None, key, now);
    hide CompleteAlone, WriteOut, MayPair, LicenseIssuable, ResolveMobile, LimitOf;
    if phone.Some? {
      CompletionFromPhone(known, Request(token, phone.value, key, config, now));
      SameLicenses(st, known, config, token, now);
    }
  }

  lemma SameLicenses(st: Store, known: Store, config: Config, token: Id, now: Time)
    requires known == st.(devices := known.devices, nextId := known.nextId)
    ensures forall lic :: LicenseIssuable(known, config, now, lic) <==> LicenseIssuable(st, config, now, lic)
  {
  }
}
