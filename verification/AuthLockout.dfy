/**
 A phone that a completion replaced stays locked out of the pair, however the service goes
 on, until a completion pairs it there again.
 */
module AuthLockout {
  import opened Options
  import opened Roles
  import opened AuthStore
  import opened Entitlement
  import opened Billing
  import opened BillingSync
  import BillingRuns
  import opened AuthHandlers
  import opened AuthSerial
  import opened AuthPairing

  /** The pair has another phone, no live token of the phone for it, and another secret. */
  ghost predicate LockedOut(st: Store, pair: Id, phone: Id, secret: Id) {
    && pair in st.pairings && st.pairings[pair].mobile != phone
    && DeviceIsMobile(st.devices, phone)
    && secret < st.nextId && (pair in st.creds ==> st.creds[pair].secret != secret)
    && NoLiveToken(st.refresh, pair, phone)
  }

  predicate DeviceIsMobile(devices: map<Id, Device>, phone: Id) {
    phone in devices && devices[phone].role == Mobile
  }

  ghost predicate NoLiveToken(refresh: map<Id, RefreshToken>, pair: Id, phone: Id) {
    forall t | t in refresh && refresh[t].device == phone && refresh[t].pair == pair :: refresh[t].revokedAt != 0
  }

  /** The call completes a pairing of the phone with the pair. */
  predicate Repairs(st: Store, settings: Settings, c: Timed, pair: Id, phone: Id) {
    && c.call.Complete?
    && var (after, result) := CompletePairing(st, settings.config, c.call.token, c.call.mobile, c.call.phoneKey, c.now);
       result == Some(pair) && pair in after.pairings && after.pairings[pair].mobile == phone
  }

  predicate NeverRepaired(st: Store, settings: Settings, calls: seq<Timed>, pair: Id, phone: Id)
    decreases |calls|
  {
    calls == []
    || (&& !Repairs(st, settings, calls[0], pair, phone)
        && NeverRepaired(Step(st, settings, calls[0]), settings, calls[1..], pair, phone))
  }

  // ---------------------------------------------------------------------------
  // Every call keeps the phone out
  // ---------------------------------------------------------------------------

  /** A step that leaves the pair's phone and the tokens alone, and draws no secret for the pair. */
  ghost predicate Bystander(st: Store, after: Store, pair: Id) {
    && (pair in st.pairings ==> pair in after.pairings && after.pairings[pair].mobile == st.pairings[pair].mobile)
    && DevicesKept(st.devices, after.devices) && st.nextId <= after.nextId
    && (pair in after.creds ==> pair in st.creds && after.creds[pair].secret == st.creds[pair].secret)
    && after.refresh == st.refresh
  }

  lemma BystanderKeeps(st: Store, after: Store, pair: Id, phone: Id, secret: Id)
    requires LockedOut(st, pair, phone, secret) && Bystander(st, after, pair)
    ensures LockedOut(after, pair, phone, secret)
  {
  }

  lemma BilledIsBystander(st: Store, after: Store, pair: Id)
    requires BillFrame(st, after)
    ensures Bystander(st, after, pair)
  {
  }

  lemma LeaveIsBystander(st: Store, caller: Caller, other: Id, now: Time, pair: Id)
    ensures Bystander(st, Unpair(st, caller, other, now).0, pair)
  {
    hide Authenticate, SetPairingStatus, RevokeCredential;
    RevokingIsBystander(st, other, now, pair);
  }

  lemma RevokingIsBystander(st: Store, other: Id, now: Time, pair: Id)
    ensures Bystander(st, st, pair)
    ensures Bystander(st, st.(pairings := SetPairingStatus(st.pairings, other, PairingRevoked),
                              creds := RevokeCredential(st.creds, other, now)), pair)
  {
  }

  lemma RegisterIsBystander(st: Store, config: Config, account: Id, role: Role, key: seq<nat>, now: Time, pair: Id)
    requires Drawn(st)
    ensures Bystander(st, RegisterOrFind(st, config, account, role, key, now).0, pair)
  {
    RegisteringKeepsDevices(st, config, account, role, key, now);
    hide RegisterOrFind, Drawn, DevicesKept;
  }

  lemma NewTokenIsBystander(st: Store, config: Config, account: Id, license: Id, desktop: Id, key: Option<seq<nat>>,
      now: Time, pair: Id)
    ensures Bystander(st, CreatePairingToken(st, config, account, license, desktop, key, now).0, pair)
  {
    assert DevicesKept(st.devices, CreatePairingToken(st, config, account, license, desktop, key, now).0.devices) by {
      hide LicenseIssuable, MayPair;
    }
    hide CreatePairingToken, DevicesKept;
  }

  /** Whatever is issued is not for the locked-out phone. */
  lemma IssueKeepsOut(st: Store, config: Config, caller: Caller, device: Id, other: Id, now: Time, pair: Id,
      phone: Id, secret: Id)
    requires LockedOut(st, pair, phone, secret)
    ensures LockedOut(IssueToken(st, config, caller, device, other, now).0, pair, phone, secret)
  {
    if device == phone && other == pair {
      EvictedCannotConnect(st, config, caller, device, other, now);
    } else {
      hide MayConnect, Authenticate;
    }
  }

  lemma JudgedKeepsOut(st: Store, config: Config, token: Id, now: Time, pair: Id, phone: Id)
    requires NoLiveToken(st.refresh, pair, phone) && now != 0
    ensures NoLiveToken(Judged(st, config, token, now), pair, phone)
  {
    hide Judge;
  }

  lemma RefreshKeepsOut(st: Store, config: Config, token: Id, now: Time, pair: Id, phone: Id, secret: Id)
    requires LockedOut(st, pair, phone, secret) && now != 0
    ensures LockedOut(RefreshTokens(st, config, token, now).0, pair, phone, secret)
  {
    JudgedKeepsOut(st, config, token, now, pair, phone);
    hide Judged, Judge, NoLiveToken;
  }

  lemma CompletionKeepsPhone(
      st: Store, config: Config, token: Id, mobile: Option<Id>, key: seq<nat>, now: Time, phone: Id)
    requires Drawn(st) && DeviceIsMobile(st.devices, phone)
    ensures DeviceIsMobile(CompletePairing(st, config, token, mobile, key, now).0.devices, phone)
  {
    CompletionKeepsDevices(st, config, token, mobile, key, now);
    hide CompletePairing;
  }

  /** A completion for another pair, or for another phone, keeps the phone out. */
  lemma CompletionKeepsOut(st: Store, settings: Settings, c: Timed, pair: Id, phone: Id, secret: Id)
    requires Sound(st) && LockedOut(st, pair, phone, secret) && c.now != 0
    requires c.call.Complete? && !Repairs(st, settings, c, pair, phone)
    ensures LockedOut(Step(st, settings, c), pair, phone, secret)
  {
    var config, token, mobile, key, now := settings.config, c.call.token, c.call.mobile, c.call.phoneKey, c.now;
    assert Drawn(st);
    hide CompletePairing, Sound, Drawn, NoLiveToken;
    var (after, result) := CompletePairing(st, config, token, mobile, key, now);
    CompletionKeepsPhone(st, config, token, mobile, key, now, phone);
    CompletionTokens(st, config, token, mobile, key, now, pair, phone);
    if result.None? {
      RefusedCompletionWritesNothing(st, config, token, mobile, key, now);
    } else {
      CompletionMeans(st, config, token, mobile, key, now, None, [], 0);
      CompletionCredential(st, config, token, mobile, key, now);
      assert pair != result.value ==> after.pairings[pair] == st.pairings[pair];
    }
  }

  lemma RevokingKeepsNoLive(refresh: map<Id, RefreshToken>, device: Id, now: Time, pair: Id, phone: Id)
    requires NoLiveToken(refresh, pair, phone)
    ensures NoLiveToken(RevokeByDevice(refresh, device, now), pair, phone)
  {
  }

  lemma FinishTokens(st: Store, token: Id, mobile: Id, key: seq<nat>, now: Time, pair: Id, phone: Id)
    requires token in st.tokens && mobile in st.devices && NoLiveToken(st.refresh, pair, phone)
    ensures NoLiveToken(Finish(st, token, mobile, key, now).0.refresh, pair, phone)
  {
    var pt := st.tokens[token];
    var reuse := PairedWith(st.pairings, pt.license, pt.desktop);
    if reuse != {} {
      RevokingKeepsNoLive(st.refresh, st.pairings[MinOf(reuse)].mobile, now, pair, phone);
    }
    hide RevokeByDevice, NoLiveToken, PairedWith, MinOf;
  }

  lemma CompletionTokens(st: Store, config: Config, token: Id, mobile: Option<Id>, key: seq<nat>, now: Time, pair: Id,
      phone: Id)
    requires NoLiveToken(st.refresh, pair, phone)
    ensures NoLiveToken(CompletePairing(st, config, token, mobile, key, now).0.refresh, pair, phone)
  {
    hide LicenseIssuable, MayPair, ResolveMobile, Finish, NoLiveToken, InsertAccepted;
    if token in st.tokens {
      var (known, found) := ResolveMobile(st, config, st.tokens[token].account, mobile, key, now);
      if found.Some? {
        FinishTokens(known, token, found.value, key, now, pair, phone);
      }
    }
  }

  /** A successful completion changes only its own pair's credential, and draws that secret fresh. */
  lemma CompletionCredential(st: Store, config: Config, token: Id, mobile: Option<Id>, key: seq<nat>, now: Time)
    requires Sound(st) && CompletePairing(st, config, token, mobile, key, now).1.Some?
    ensures var (after, pair) := CompletePairing(st, config, token, mobile, key, now);
            && st.nextId <= after.nextId
            && pair.value in after.creds && after.creds[pair.value].secret >= st.nextId
            && (forall p | p in after.creds && p != pair.value :: p in st.creds && after.creds[p] == st.creds[p])
  {
    CompletionFinishes(st, config, token, mobile, key, now);
    var (known, found) := ResolveMobile(st, config, st.tokens[token].account, mobile, key, now);
    hide CompletePairing, ResolveMobile, Sound;
    FinishCredential(known, token, found.value, key, now);
  }

  lemma FinishCredential(st: Store, token: Id, mobile: Id, key: seq<nat>, now: Time)
    requires token in st.tokens && mobile in st.devices
    ensures var (after, pair) := Finish(st, token, mobile, key, now);
            && st.nextId <= after.nextId
            && pair in after.creds && after.creds[pair].secret >= st.nextId
            && (forall p | p in after.creds && p != pair :: p in st.creds && after.creds[p] == st.creds[p])
  {
    hide PairedWith, MinOf, RevokeByDevice;
  }

  /** Calls that have nothing to do with the pair's phone. */
  predicate IsBystander(call: Call) {
    call.Register? || call.NewToken? || call.Leave? || call.Open? || (call.Bill? && !call.event.Elsewhere?)
  }

  lemma StepIsBystander(st: Store, settings: Settings, c: Timed, pair: Id)
    requires Drawn(st) && IsBystander(c.call)
    ensures Bystander(st, Step(st, settings, c), pair)
  {
    hide RegisterOrFind, CreatePairingToken, Unpair, OpenLicense, BillingRuns.Apply;
    hide Drawn, Bystander, BillFrame;
    match c.call
    case Register(account, role, key) => RegisterIsBystander(st, settings.config, account, role, key, c.now, pair);
    case NewToken(account, license, desktop, key) =>
      NewTokenIsBystander(st, settings.config, account, license, desktop, key, c.now, pair);
    case Leave(caller, other) => LeaveIsBystander(st, caller, other, c.now, pair);
    case Open(account, keys) =>
      OpenIsFramed(st, account, c.now, keys);
      BilledIsBystander(st, OpenLicense(st, account, c.now, keys).0, pair);
    case Bill(world, event) =>
      var e := BillingRuns.Entry(c.now, world, event);
      BillIsFramed(st, e, settings.grace);
      BilledIsBystander(st, BillingRuns.Apply(st, e, settings.grace), pair);
  }

  lemma StepKeepsOut(st: Store, settings: Settings, c: Timed, pair: Id, phone: Id, secret: Id)
    requires Sound(st) && LockedOut(st, pair, phone, secret) && c.now != 0 && !Repairs(st, settings, c, pair, phone)
    ensures LockedOut(Step(st, settings, c), pair, phone, secret)
  {
    assert Drawn(st);
    hide Sound, LockedOut, Drawn, Bystander, Repairs;
    if IsBystander(c.call) {
      StepIsBystander(st, settings, c, pair);
      hide Step;
      BystanderKeeps(st, Step(st, settings, c), pair, phone, secret);
    } else if c.call.Complete? {
      hide Step;
      CompletionKeepsOut(st, settings, c, pair, phone, secret);
    } else if c.call.Issue? {
      IssueKeepsOut(st, settings.config, c.call.caller, c.call.device, c.call.pair, c.now, pair, phone, secret);
    } else if c.call.Refresh? {
      RefreshKeepsOut(st, settings.config, c.call.token, c.now, pair, phone, secret);
    }
  }

  lemma {:induction false} RunKeepsOut(st: Store, settings: Settings, calls: seq<Timed>, pair: Id, phone: Id,
      secret: Id)
    requires Sound(st) && LockedOut(st, pair, phone, secret) && NeverRepaired(st, settings, calls, pair, phone)
    requires forall i | 0 <= i < |calls| :: calls[i].now != 0
    ensures LockedOut(Run(st, settings, calls), pair, phone, secret)
    decreases |calls|
  {
    hide Sound, LockedOut, Step, Repairs;
    if calls != [] {
      StepSound(st, settings, calls[0]);
      StepKeepsOut(st, settings, calls[0], pair, phone, secret);
      RunKeepsOut(Step(st, settings, calls[0]), settings, calls[1..], pair, phone, secret);
    }
  }

  // ---------------------------------------------------------------------------
  // From the completion on
  // ---------------------------------------------------------------------------

  /** What being locked out means for any further request. */
  lemma LockedOutIsRefused(st: Store, config: Config, pair: Id, phone: Id, secret: Id, caller: Caller, token: Id,
      now: Time)
    requires LockedOut(st, pair, phone, secret)
    ensures IssueToken(st, config, caller, phone, pair, now) == (st, None)
    ensures Authenticate(st, ByPair(pair, secret)) == None
    ensures token in st.refresh && st.refresh[token].device == phone && st.refresh[token].pair == pair ==>
              RefreshTokens(st, config, token, now).1.None?
  {
    EvictedCannotConnect(st, config, caller, phone, pair, now);
    if token in st.refresh && st.refresh[token].device == phone && st.refresh[token].pair == pair {
      RevokedIsRefused(st, config, token, now);
    }
    hide IssueToken, RefreshTokens;
  }

  /** A completion that replaces a phone locks it out. */
  lemma ReplacementLocksOut(st: Store, config: Config, token: Id, mobile: Option<Id>, key: seq<nat>, now: Time,
      pair: Id)
    requires Sound(st) && SecretsDrawn(st) && now != 0 && pair in st.pairings
    requires var (after, result) := CompletePairing(st, config, token, mobile, key, now);
             result == Some(pair) && pair in after.pairings && after.pairings[pair].mobile != st.pairings[pair].mobile
    ensures pair in st.creds
    ensures LockedOut(CompletePairing(st, config, token, mobile, key, now).0, pair, st.pairings[pair].mobile,
            st.creds[pair].secret)
  {
    EvictedPhoneIsLockedOut(st, config, token, mobile, key, now, ByAccount(0), 0);
    CompletionCredential(st, config, token, mobile, key, now);
    CompletionKeepsDevices(st, config, token, mobile, key, now);
    assert PairOwned(st.licenses, st.devices, st.pairings[pair]);
    hide CompletePairing, Sound, IssueToken;
  }

  /**
   From any reachable state, and on every continuation in which no completion pairs the phone
   with the pair again: a phone that was replaced gets no token for the pair from any caller
   or by any refresh, and the secret it held is refused.
   */
  lemma {:induction false} ReplacedPhoneStaysLockedOut(
      settings: Settings, before: seq<Timed>, token: Id, mobile: Option<Id>, key: seq<nat>, now: Time, pair: Id,
      after: seq<Timed>, caller: Caller, refresh: Id, later: Time)
    requires now != 0 && forall i | 0 <= i < |after| :: after[i].now != 0
    requires var st := Run(EmptyStore(), settings, before);
             var (paired, result) := CompletePairing(st, settings.config, token, mobile, key, now);
             && pair in st.pairings && result == Some(pair)
             && pair in paired.pairings && paired.pairings[pair].mobile != st.pairings[pair].mobile
             && NeverRepaired(paired, settings, after, pair, st.pairings[pair].mobile)
    ensures var st := Run(EmptyStore(), settings, before);
            var phone := st.pairings[pair].mobile;
            var end := Run(CompletePairing(st, settings.config, token, mobile, key, now).0, settings, after);
            && IssueToken(end, settings.config, caller, phone, pair, later) == (end, None)
            && (refresh in end.refresh && end.refresh[refresh].device == phone && end.refresh[refresh].pair == pair ==>
                  RefreshTokens(end, settings.config, refresh, later).1.None?)
            && pair in st.creds && Authenticate(end, ByPair(pair, st.creds[pair].secret)) == None
  {
    var st := Run(EmptyStore(), settings, before);
    RunSound(EmptyStore(), settings, before);
    RunSecrets(EmptyStore(), settings, before);
    hide Run, CompletePairing, Sound, LockedOut, SecretsDrawn, NeverRepaired, IssueToken, RefreshTokens;
    hide Authenticate, Repairs, EmptyStore;
    var paired := CompletePairing(st, settings.config, token, mobile, key, now).0;
    var phone := st.pairings[pair].mobile;
    CompleteSound(st, settings.config, token, mobile, key, now);
    ReplacementLocksOut(st, settings.config, token, mobile, key, now, pair);
    RunKeepsOut(paired, settings, after, pair, phone, st.creds[pair].secret);
    LockedOutIsRefused(Run(paired, settings, after), settings.config, pair, phone, st.creds[pair].secret, caller,
        refresh, later);
  }
}
