/**
 The auth handlers run one at a time: what each does to the store, and the service object
 that carries it out in the handlers' own order of store operations.

 A handler answers None when it refuses. Fresh ids and secrets come from the store's
 generator. The account secret is checked before a handler is entered.
 */
module AuthHandlers {
  import opened Options
  import opened Roles
  import opened AuthStore
  import opened Entitlement
  import opened Billing

  // ---------------------------------------------------------------------------
  // Devices
  // ---------------------------------------------------------------------------

  function Matching(devices: map<Id, Device>, account: Id, role: Role, key: seq<nat>): set<Id> {
    set id | id in devices && Matches(devices[id], account, role, key)
  }

  /** The device with this key, the oldest if there are several; else a new one under the account's cap. */
  function RegisterOrFind(st: Store, config: Config, account: Id, role: Role, key: seq<nat>, now: Time)
    : (r: (Store, Option<Id>))
    ensures r.0 == st.(devices := r.0.devices, nextId := r.0.nextId) && st.nextId <= r.0.nextId
    ensures r.1.Some? ==> DeviceForRole(r.0.devices, r.1.value, account, role)
  {
    var found := Matching(st.devices, account, role, key);
    if key != [] && found != {} then (st, Some(MinOf(found)))
    else if |DevicesOf(st.devices, account)| >= config.deviceCap then (st, None)
    else (st.(devices := st.devices[st.nextId := Device(account, role, key, now)], nextId := st.nextId + 1),
          Some(st.nextId))
  }

  // ---------------------------------------------------------------------------
  // Open licenses
  // ---------------------------------------------------------------------------

  const OPEN_LICENSE_MAX_PAIRS := 1

  /** About a hundred years, in seconds; nothing depends on it. */
  const OPEN_PERIOD: Time := 3_155_760_000

  function LicensesOfAccount(licenses: map<Id, License>, account: Id): set<Id> {
    set l | l in licenses && licenses[l].account == account
  }

  function ActiveLicenses(licenses: map<Id, License>, account: Id): set<Id> {
    set l | l in licenses && licenses[l].account == account && licenses[l].status == LicenseActive
  }

  /** Without billing, an account's first active license, or a new one with its own subscription. */
  function OpenLicense(st: Store, account: Id, now: Time, keys: seq<Id>): (Store, Id) {
    if ActiveLicenses(st.licenses, account) != {} then (st, MinOf(ActiveLicenses(st.licenses, account)))
    else
      var sub, lic := st.nextId, DrawKey(st.licenses.Keys, keys);
      (st.(subs := st.subs[sub := OpenSubscription(account, now)],
           licenses := st.licenses[lic := License(account, sub, 0, LicenseActive, now)], nextId := st.nextId + 1), lic)
  }

  function OpenSubscription(account: Id, now: Time): Subscription {
    Subscription(account, SubActive, OPEN_LICENSE_MAX_PAIRS, now + OPEN_PERIOD, 0, now)
  }

  /** Asking again, at any time, gives the same license and creates nothing. */
  lemma OpeningTwiceIsOpeningOnce(st: Store, account: Id, now: Time, keys: seq<Id>, later: Time, others: seq<Id>)
    ensures var (after, lic) := OpenLicense(st, account, now, keys);
            OpenLicense(after, account, later, others) == (after, lic)
  {
    var (after, lic) := OpenLicense(st, account, now, keys);
    assert lic in ActiveLicenses(after.licenses, account);
    assert ActiveLicenses(st.licenses, account) == {} ==> ActiveLicenses(after.licenses, account) == {lic};
  }

  // ---------------------------------------------------------------------------
  // Pairing
  // ---------------------------------------------------------------------------

  /** The active pairings of a license with a desktop. */
  function PairedWith(pairings: map<Id, Pairing>, license: Id, desktop: Id): set<Id> {
    set id | id in pairings && ActiveFor(pairings[id], license) && pairings[id].desktop == desktop
  }

  predicate CapacityAvailable(st: Store, license: Id)
    requires license in st.licenses
  {
    var sub := st.licenses[license].sub;
    sub in st.subs && |ActivePairs(st.pairings, license)| < st.subs[sub].maxPairs
  }

  predicate MayPair(st: Store, license: Id, desktop: Id)
    requires license in st.licenses
  {
    PairedWith(st.pairings, license, desktop) != {} || CapacityAvailable(st, license)
  }

  /** A one-time pairing token for a desktop; a key given along is stored even when the call then fails. */
  function CreatePairingToken(st: Store, config: Config, account: Id, license: Id, desktop: Id, key: Option<seq<nat>>,
      now: Time)
    : (r: (Store, Option<Id>))
    ensures r.0 == st.(devices := r.0.devices, tokens := r.0.tokens, nextId := r.0.nextId) && st.nextId <= r.0.nextId
  {
    if license !in st.licenses || st.licenses[license].account != account then (st, None)
    else if !LicenseIssuable(st, config, now, st.licenses[license]) then (st, None)
    else if !DeviceForRole(st.devices, desktop, account, Desktop) then (st, None)
    else if !MayPair(st, license, desktop) then (st, None)
    else
      var keyed := if key.Some? then SetKey(st, desktop, key.value) else st;
      if keyed.devices[desktop].key == [] then (keyed, None)
      else
        var pt := PairingToken(account, license, desktop, now + config.pairingTokenTtl, 0, 0);
        (keyed.(tokens := keyed.tokens[keyed.nextId := pt], nextId := keyed.nextId + 1), Some(keyed.nextId))
  }

  /** The phone of a completion: the one it names, or the one its key belongs to. */
  function ResolveMobile(st: Store, config: Config, account: Id, mobile: Option<Id>, key: seq<nat>, now: Time)
    : (r: (Store, Option<Id>))
    ensures r.0 == st.(devices := r.0.devices, nextId := r.0.nextId) && st.nextId <= r.0.nextId
    ensures r.1.Some? ==> DeviceForRole(r.0.devices, r.1.value, account, Mobile) && (mobile.Some? ==> r.1 == mobile)
  {
    match mobile
    case Some(id) => (st, if DeviceForRole(st.devices, id, account, Mobile) then mobile else None)
    case None => RegisterOrFind(st, config, account, Mobile, key, now)
  }

  /** The pairing of a completion: the desktop's present one with the new phone, or a new one. */
  function Pair(st: Store, pt: PairingToken, mobile: Id, now: Time): (r: (Store, Id))
    ensures r.0 == st.(pairings := r.0.pairings, refresh := r.0.refresh, nextId := r.0.nextId)
    ensures st.nextId <= r.0.nextId
  {
    var reuse := PairedWith(st.pairings, pt.license, pt.desktop);
    if reuse != {} then
      var pair := MinOf(reuse);
      var evicted := st.pairings[pair].mobile;
      (st.(pairings := UpdatePairingDevices(st.pairings, pair, mobile, pt.desktop),
           refresh := if evicted != mobile then RevokeByDevice(st.refresh, evicted, now) else st.refresh), pair)
    else
      (st.(pairings := st.pairings[st.nextId := NewPairing(pt, mobile, now)], nextId := st.nextId + 1), st.nextId)
  }

  /** A credential with a fresh secret, replacing the pair's previous one. */
  function Accredit(st: Store, pt: PairingToken, pair: Id, mobile: Id, now: Time): Store {
    st.(creds := st.creds[pair := Credential(pt.account, pt.license, mobile, st.nextId, now, 0)],
        nextId := st.nextId + 1)
  }

  /** After the token and the phone's key, which every completion writes first. */
  function Keyed(st: Store, token: Id, mobile: Id, key: seq<nat>, pair: Id, now: Time): (r: Store)
    requires token in st.tokens && mobile in st.devices
    ensures r == st.(tokens := r.tokens, devices := r.devices)
  {
    SetKey(st.(tokens := st.tokens[token := st.tokens[token].(consumedAt := now, resultPair := pair)]), mobile, key)
  }

  /** The pairing a completion announces: the desktop's present one, or a new one. */
  function ResultPair(st: Store, pt: PairingToken): Id {
    var reuse := PairedWith(st.pairings, pt.license, pt.desktop);
    if reuse != {} then MinOf(reuse) else st.nextId
  }

  /** What a completion writes once its checks have passed. */
  function Finish(st: Store, token: Id, mobile: Id, key: seq<nat>, now: Time): (Store, Id)
    requires token in st.tokens && mobile in st.devices
  {
    var pt := st.tokens[token];
    var (paired, pair) := Pair(Keyed(st, token, mobile, key, ResultPair(st, pt), now), pt, mobile, now);
    (Accredit(paired, pt, pair, mobile, now), pair)
  }

  /** The store counts again when it inserts a new pairing. */
  predicate InsertAccepted(st: Store, pt: PairingToken, mobile: Id, maxPairs: nat, now: Time) {
    || PairedWith(st.pairings, pt.license, pt.desktop) != {}
    || CreatePairingWithinCapacity(st.pairings, st.nextId, NewPairing(pt, mobile, now), maxPairs).1.Ok?
  }

  /** What an insertion that is refused after all leaves behind: a spent token and the phone's key. */
  function Spent(st: Store, token: Id, mobile: Id, key: seq<nat>, now: Time): Store
    requires token in st.tokens && mobile in st.devices
  {
    Keyed(st, token, mobile, key, st.nextId, now).(nextId := st.nextId + 1)
  }

  /** The writes of a completion; `maxPairs` is the limit read before. */
  function WriteOut(st: Store, token: Id, mobile: Id, key: seq<nat>, maxPairs: nat, now: Time): (Store, Option<Id>)
    requires token in st.tokens && mobile in st.devices
  {
    if InsertAccepted(st, st.tokens[token], mobile, maxPairs, now) then
      var (paired, pair) := Finish(st, token, mobile, key, now);
      (paired, Some(pair))
    else (Spent(st, token, mobile, key, now), None)
  }

  function LimitOf(st: Store, license: Id): nat {
    if license in st.licenses && st.licenses[license].sub in st.subs
    then st.subs[st.licenses[license].sub].maxPairs else 0
  }

  /** Completes a pairing with its one-time token. */
  function CompletePairing(st: Store, config: Config, token: Id, mobile: Option<Id>, key: seq<nat>, now: Time)
    : (Store, Option<Id>)
  {
    if token !in st.tokens || !st.tokens[token].Active(now) then (st, None)
    else
      var pt := st.tokens[token];
      if pt.license !in st.licenses || !LicenseIssuable(st, config, now, st.licenses[pt.license]) || key == []
      then (st, None)
      else
        var (known, phone) := ResolveMobile(st, config, pt.account, mobile, key, now);
        if phone.None? then (known, None)
        else if pt.desktop !in known.devices || known.devices[pt.desktop].key == [] then (known, None)
        else if !MayPair(known, pt.license, pt.desktop) then (known, None)
        else WriteOut(known, token, phone.value, key, LimitOf(known, pt.license), now)
  }

  /**
   One at a time, the count at the insertion never refuses what the advisory count let pass,
   and the new pairing fits under max_pairs.
   */
  lemma RecountAccepts(st: Store, token: Id, mobile: Id, key: seq<nat>, now: Time)
    requires token in st.tokens && mobile in st.devices && st.nextId !in st.pairings
    requires st.tokens[token].license in st.licenses && MayPair(st, st.tokens[token].license, st.tokens[token].desktop)
    ensures var (paired, pair) := Finish(st, token, mobile, key, now);
            WriteOut(st, token, mobile, key, LimitOf(st, st.tokens[token].license), now) == (paired, Some(pair))
    ensures var pt := st.tokens[token];
            PairedWith(st.pairings, pt.license, pt.desktop) == {} ==>
              |ActivePairs(Finish(st, token, mobile, key, now).0.pairings, pt.license)| ==
              |ActivePairs(st.pairings, pt.license)| + 1 <= LimitOf(st, pt.license)
  {
    var pt := st.tokens[token];
    ActiveAfterInsert(st.pairings, st.nextId, NewPairing(pt, mobile, now), pt.license);
    hide Spent, PairedWith, ActivePairs;
  }

  // ---------------------------------------------------------------------------
  // Callers
  // ---------------------------------------------------------------------------

  /** The desktop with its account, or a phone with its pair's secret. */
  datatype Caller = ByAccount(account: Id) | ByPair(pair: Id, secret: Id)

  /** The account a caller acts for. */
  function Authenticate(st: Store, caller: Caller): Option<Id> {
    match caller
    case ByAccount(account) => Some(account)
    case ByPair(pair, secret) =>
      if pair in st.creds && st.creds[pair].revokedAt == 0 && st.creds[pair].secret == secret
      then Some(st.creds[pair].account) else None
  }

  function Unpair(st: Store, caller: Caller, pair: Id, now: Time): (r: (Store, bool))
    ensures r.0 == st.(pairings := r.0.pairings, creds := r.0.creds)
  {
    var account := Authenticate(st, caller);
    if account.None? || (caller.ByPair? && caller.pair != pair) then (st, false)
    else if pair !in st.pairings || st.pairings[pair].account != account.value then (st, false)
    else
      (st.(pairings := SetPairingStatus(st.pairings, pair, PairingRevoked),
           creds := RevokeCredential(st.creds, pair, now)), true)
  }

  // ---------------------------------------------------------------------------
  // Tokens
  // ---------------------------------------------------------------------------

  /** A pairing that is active, has the device as a member and a license that allows issuing. */
  predicate MayConnect(st: Store, config: Config, account: Id, device: Id, pair: Id, now: Time) {
    && pair in st.pairings && st.pairings[pair].status == PairingActive
    && device in st.devices && st.devices[device].account == account
    && PairingHasDevice(st.pairings[pair], device, st.devices[device])
    && st.pairings[pair].license in st.licenses
    && LicenseIssuable(st, config, now, st.licenses[st.pairings[pair].license])
  }

  function PutRefresh(st: Store, rt: RefreshToken): (Store, Option<Id>) {
    (st.(refresh := st.refresh[st.nextId := rt], nextId := st.nextId + 1), Some(st.nextId))
  }

  function IssueToken(st: Store, config: Config, caller: Caller, device: Id, pair: Id, now: Time)
    : (r: (Store, Option<Id>))
    ensures r.0 == st.(refresh := r.0.refresh, nextId := r.0.nextId) && st.nextId <= r.0.nextId
  {
    var account := Authenticate(st, caller);
    if account.None? then (st, None)
    else if caller.ByPair? && (caller.pair != pair || st.creds[caller.pair].mobile != device) then (st, None)
    else if pair !in st.pairings || st.pairings[pair].account != account.value then (st, None)
    else if !MayConnect(st, config, account.value, device, pair, now) then (st, None)
    else PutRefresh(st, NewRefreshToken(config, now, device, account.value, pair))
  }

  /**
   What becomes of a refresh: a token that is unknown, expired or at odds with its device is
   refused; one that was revoked before is a reuse; one whose pairing or license no longer
   allows it is withdrawn.
   */
  datatype Verdict = Refused | Reused | Withdrawn | Granted

  function Judge(st: Store, config: Config, token: Id, now: Time): (v: Verdict)
    ensures !v.Refused? ==> token in st.refresh
    ensures v.Granted? ==> st.refresh[token].revokedAt == 0
  {
    if token !in st.refresh then Refused
    else
      var rt := st.refresh[token];
      if !rt.Active(now) then if rt.revokedAt != 0 then Reused else Refused
      else if rt.pair !in st.pairings || st.pairings[rt.pair].status != PairingActive then Withdrawn
      else if rt.device !in st.devices || st.devices[rt.device].account != rt.account then Refused
      else if MayConnect(st, config, rt.account, rt.device, rt.pair, now) then Granted
      else Withdrawn
  }

  /** The tokens after a verdict; a reused token takes its device's whole chain with it. */
  function Judged(st: Store, config: Config, token: Id, now: Time): map<Id, RefreshToken> {
    match Judge(st, config, token, now)
    case Refused => st.refresh
    case Reused => RevokeByDevice(st.refresh, st.refresh[token].device, now)
    case Withdrawn => RevokeRefreshToken(st.refresh, token, now)
    case Granted =>
      var rt := st.refresh[token];
      st.refresh[token := rt.(revokedAt := now)][st.nextId :=
          NewRefreshToken(config, now, rt.device, rt.account, rt.pair)]
  }

  /** Rotates a refresh token, or refuses. */
  function RefreshTokens(st: Store, config: Config, token: Id, now: Time): (r: (Store, Option<Id>))
    ensures r.0 == st.(refresh := r.0.refresh, nextId := r.0.nextId) && st.nextId <= r.0.nextId
  {
    var granted := Judge(st, config, token, now).Granted?;
    (st.(refresh := Judged(st, config, token, now), nextId := if granted then st.nextId + 1 else st.nextId),
     if granted then Some(st.nextId) else None)
  }

  lemma FirstActiveIsLowest(licenses: map<Id, License>, account: Id, listed: seq<Id>, i: nat)
    requires listed == Sorted(LicensesOfAccount(licenses, account)) && i < |listed|
    requires forall j | 0 <= j < |listed| :: listed[j] in licenses
    requires licenses[listed[i]].status == LicenseActive && forall j | 0 <= j < i ::
             licenses[listed[j]].status != LicenseActive
    ensures ActiveLicenses(licenses, account) != {} && listed[i] == MinOf(ActiveLicenses(licenses, account))
  {
    var all := ActiveLicenses(licenses, account);
    assert listed[i] in listed && listed[i] in all;
    var id := MinOf(all);
    assert id in LicensesOfAccount(licenses, account) && id in listed;
    var j :| 0 <= j < |listed| && listed[j] == id;
  }

  lemma NoneActive(licenses: map<Id, License>, account: Id, listed: seq<Id>)
    requires listed == Sorted(LicensesOfAccount(licenses, account))
    requires forall j | 0 <= j < |listed| :: listed[j] in licenses && licenses[listed[j]].status != LicenseActive
    ensures ActiveLicenses(licenses, account) == {}
  {
    assert ActiveLicenses(licenses, account) <= LicensesOfAccount(licenses, account);
    assert forall id | id in LicensesOfAccount(licenses, account) :: id in listed;
  }

  /** In a sorted listing the first pairing with the desktop is the lowest one. */
  lemma FirstMatchIsLowest(pairings: map<Id, Pairing>, license: Id, desktop: Id, pairs: seq<Id>, i: nat)
    requires pairs == Sorted(ActivePairs(pairings, license)) && i < |pairs|
    requires forall j | 0 <= j < |pairs| :: pairs[j] in pairings
    requires pairings[pairs[i]].desktop == desktop && forall j | 0 <= j < i :: pairings[pairs[j]].desktop != desktop
    ensures PairedWith(pairings, license, desktop) != {} && pairs[i] == MinOf(PairedWith(pairings, license, desktop))
  {
    var all := PairedWith(pairings, license, desktop);
    assert pairs[i] in pairs && pairs[i] in all;
    var id := MinOf(all);
    assert id in ActivePairs(pairings, license) && id in pairs;
    var j :| 0 <= j < |pairs| && pairs[j] == id;
  }

  lemma NoMatchNoPairing(pairings: map<Id, Pairing>, license: Id, desktop: Id, pairs: seq<Id>)
    requires pairs == Sorted(ActivePairs(pairings, license))
    requires forall j | 0 <= j < |pairs| :: pairs[j] in pairings && pairings[pairs[j]].desktop != desktop
    ensures PairedWith(pairings, license, desktop) == {}
  {
    assert PairedWith(pairings, license, desktop) <= ActivePairs(pairings, license);
    assert forall id | id in ActivePairs(pairings, license) :: id in pairs;
  }

  // ---------------------------------------------------------------------------
  // The service
  // ---------------------------------------------------------------------------

  class AuthService {
    var st: Store
    const config: Config

    constructor (config: Config)
      ensures st == EmptyStore() && this.config == config
    {
      this.config := config;
      st := EmptyStore();
    }

    method FindOrRegister(account: Id, role: Role, key: seq<nat>, now: Time) returns (device: Option<Id>)
      modifies this`st
      ensures (st, device) == RegisterOrFind(old(st), config, account, role, key, now)
    {
      if key != [] {
        device := FindDevice(account, role, key);
        if device.Some? {
          return;
        }
      }
      var count := CountDevices(account);
      if count >= config.deviceCap {
        return None;
      }
      device := Some(st.nextId);
      st := st.(devices := st.devices[st.nextId := Device(account, role, key, now)], nextId := st.nextId + 1);
    }

    method FindDevice(account: Id, role: Role, key: seq<nat>) returns (found: Option<Id>)
      ensures found == if Matching(st.devices, account, role, key) == {} then None
                       else Some(MinOf(Matching(st.devices, account, role, key)))
    {
      found := None;
      var rest := st.devices.Keys;
      while rest != {}
        invariant rest <= st.devices.Keys
        invariant found.Some? ==> found.value in Matching(st.devices, account, role, key)
        invariant forall id | id in Matching(st.devices, account, role, key) && id !in rest ::
                  found.Some? && found.value <= id
        decreases |rest|
      {
        var id :| id in rest;
        rest := rest - {id};
        if Matches(st.devices[id], account, role, key) && (found.None? || id < found.value) {
          found := Some(id);
        }
      }
    }

    method CountDevices(account: Id) returns (n: nat)
      ensures n == |DevicesOf(st.devices, account)|
    {
      n := 0;
      var rest := st.devices.Keys;
      ghost var counted: set<Id> := {};
      while rest != {}
        invariant rest <= st.devices.Keys
        invariant counted == set id | id in st.devices && id !in rest && st.devices[id].account == account
        invariant n == |counted|
        decreases |rest|
      {
        var id :| id in rest;
        rest := rest - {id};
        if st.devices[id].account == account {
          counted := counted + {id};
          n := n + 1;
        }
      }
      assert counted == DevicesOf(st.devices, account);
    }

    method ProvisionOpenLicense(account: Id, now: Time, keys: seq<Id>) returns (license: Id)
      modifies this`st
      ensures (st, license) == OpenLicense(old(st), account, now, keys)
    {
      var existing := Sorted(LicensesOfAccount(st.licenses, account));
      assert forall j | 0 <= j < |existing| ::
          existing[j] in existing && existing[j] in LicensesOfAccount(st.licenses, account);
      hide Sorted, MinOf;
      for i := 0 to |existing|
        invariant st == old(st)
        invariant forall j | 0 <= j < i :: st.licenses[existing[j]].status != LicenseActive
      {
        if st.licenses[existing[i]].status == LicenseActive {
          FirstActiveIsLowest(st.licenses, account, existing, i);
          return existing[i];
        }
      }
      NoneActive(st.licenses, account, existing);
      var sub := st.nextId;
      license := DrawKey(st.licenses.Keys, keys);
      hide ActiveLicenses, LicensesOfAccount, DrawKey, OpenSubscription;
      st := st.(subs := st.subs[sub := OpenSubscription(account, now)]);
      st := st.(licenses := st.licenses[license := License(account, sub, 0, LicenseActive, now)], nextId := sub + 1);
    }

    /** The desktop's pairing in the sorted listing of the license's active pairings. */
    method ActivePairingForDesktop(license: Id, desktop: Id) returns (found: Option<Id>)
      ensures found == if PairedWith(st.pairings, license, desktop) == {} then None
                       else Some(MinOf(PairedWith(st.pairings, license, desktop)))
    {
      var pairs := Sorted(ActivePairs(st.pairings, license));
      assert forall j | 0 <= j < |pairs| :: pairs[j] in pairs && pairs[j] in ActivePairs(st.pairings, license);
      hide Sorted, ActivePairs, MinOf;
      for i := 0 to |pairs|
        invariant forall j | 0 <= j < i :: st.pairings[pairs[j]].desktop != desktop
      {
        if st.pairings[pairs[i]].desktop == desktop {
          FirstMatchIsLowest(st.pairings, license, desktop, pairs, i);
          return Some(pairs[i]);
        }
      }
      NoMatchNoPairing(st.pairings, license, desktop, pairs);
      return None;
    }

    method CreateToken(account: Id, license: Id, desktop: Id, key: Option<seq<nat>>,
        now: Time)
      returns (token: Option<Id>)
      modifies this`st
      ensures (st, token) == CreatePairingToken(old(st), config, account, license, desktop, key, now)
    {
      if license !in st.licenses || st.licenses[license].account != account {
        return None;
      }
      if !LicenseIssuable(st, config, now, st.licenses[license]) {
        return None;
      }
      if !DeviceForRole(st.devices, desktop, account, Desktop) {
        return None;
      }
      var existing := ActivePairingForDesktop(license, desktop);
      if existing.None? && !CapacityAvailable(st, license) {
        return None;
      }
      if key.Some? {
        st := SetKey(st, desktop, key.value);
      }
      if st.devices[desktop].key == [] {
        return None;
      }
      token := Some(st.nextId);
      var pt := PairingToken(account, license, desktop, now + config.pairingTokenTtl, 0, 0);
      st := st.(tokens := st.tokens[st.nextId := pt], nextId := st.nextId + 1);
    }

    method Complete(token: Id, mobile: Option<Id>, key: seq<nat>, now: Time) returns (pair: Option<Id>)
      modifies this`st
      ensures (st, pair) == CompletePairing(old(st), config, token, mobile, key, now)
    {
      hide WriteOut, ResolveMobile, MinOf;
      if token !in st.tokens || !st.tokens[token].Active(now) {
        return None;
      }
      var pt := st.tokens[token];
      if pt.license !in st.licenses || !LicenseIssuable(st, config, now, st.licenses[pt.license]) || key == [] {
        return None;
      }
      var phone := MobileFor(pt.account, mobile, key, now);
      if phone.None? {
        return None;
      }
      if pt.desktop !in st.devices || st.devices[pt.desktop].key == [] {
        return None;
      }
      var existing := ActivePairingForDesktop(pt.license, pt.desktop);
      if existing.None? && !CapacityAvailable(st, pt.license) {
        return None;
      }
      var maxPairs := if pt.license in st.licenses && st.licenses[pt.license].sub in st.subs
                      then st.subs[st.licenses[pt.license].sub].maxPairs else 0;
      pair := WritePairing(token, existing, phone.value, key, maxPairs, now);
    }

    method MobileFor(account: Id, mobile: Option<Id>, key: seq<nat>, now: Time) returns (phone: Option<Id>)
      modifies this`st
      ensures (st, phone) == ResolveMobile(old(st), config, account, mobile, key, now)
      ensures phone.Some? ==> phone.value in st.devices
      ensures st == old(st).(devices := st.devices, nextId := st.nextId)
    {
      if mobile.Some? {
        return if DeviceForRole(st.devices, mobile.value, account, Mobile) then mobile else None;
      }
      phone := FindOrRegister(account, Mobile, key, now);
    }

    /** The token first, then the phone's key, the pairing, the evicted phone's tokens, and the credential. */
    method WritePairing(token: Id, existing: Option<Id>, mobile: Id, key: seq<nat>, maxPairs: nat, now: Time)
      returns (result: Option<Id>)
      requires token in st.tokens && mobile in st.devices
      requires var reuse := PairedWith(st.pairings, st.tokens[token].license, st.tokens[token].desktop);
               existing == if reuse == {} then None else Some(MinOf(reuse))
      modifies this`st
      ensures (st, result) == WriteOut(old(st), token, mobile, key, maxPairs, now)
    {
      hide RevokeByDevice, ActivePairs;
      assert existing.Some? ==> existing.value in st.pairings;
      var pt := st.tokens[token];
      var pair := if existing.Some? then existing.value else st.nextId;
      st := st.(tokens := st.tokens[token := pt.(consumedAt := now, resultPair := pair)]);
      st := SetKey(st, mobile, key);
      if existing.Some? {
        var evicted := st.pairings[pair].mobile;
        st := st.(pairings := UpdatePairingDevices(st.pairings, pair, mobile, pt.desktop));
        if evicted != mobile {
          st := st.(refresh := RevokeByDevice(st.refresh, evicted, now));
        }
      } else {
        var (pairings, err) := CreatePairingWithinCapacity(st.pairings, pair, NewPairing(pt, mobile, now), maxPairs);
        st := st.(pairings := pairings, nextId := st.nextId + 1);
        if err != Ok {
          return None;
        }
      }
      st := st.(creds := st.creds[pair := Credential(pt.account, pt.license, mobile, st.nextId, now, 0)],
                nextId := st.nextId + 1);
      return Some(pair);
    }

    method UnpairDevices(caller: Caller, pair: Id, now: Time) returns (ok: bool)
      modifies this`st
      ensures (st, ok) == Unpair(old(st), caller, pair, now)
    {
      var account := Authenticate(st, caller);
      if account.None? || (caller.ByPair? && caller.pair != pair) {
        return false;
      }
      if pair !in st.pairings || st.pairings[pair].account != account.value {
        return false;
      }
      st := st.(pairings := SetPairingStatus(st.pairings, pair, PairingRevoked));
      st := st.(creds := RevokeCredential(st.creds, pair, now));
      return true;
    }

    method Issue(caller: Caller, device: Id, pair: Id, now: Time) returns (token: Option<Id>)
      modifies this`st
      ensures (st, token) == IssueToken(old(st), config, caller, device, pair, now)
    {
      var account := Authenticate(st, caller);
      if account.None? {
        return None;
      }
      if caller.ByPair? && (caller.pair != pair || st.creds[caller.pair].mobile != device) {
        return None;
      }
      if pair !in st.pairings || st.pairings[pair].account != account.value
         || st.pairings[pair].status != PairingActive {
        return None;
      }
      var p := st.pairings[pair];
      if device !in st.devices || st.devices[device].account != account.value
         || !PairingHasDevice(p, device, st.devices[device]) {
        return None;
      }
      if p.license !in st.licenses || !LicenseIssuable(st, config, now, st.licenses[p.license]) {
        return None;
      }
      token := Some(st.nextId);
      st := st.(refresh := st.refresh[st.nextId := NewRefreshToken(config, now, device, account.value, pair)],
          nextId := st.nextId + 1);
    }

    /** The checks of a refresh, in the handler's order. */
    method JudgeRefresh(token: Id, now: Time) returns (v: Verdict)
      ensures v == Judge(st, config, token, now)
    {
      if token !in st.refresh {
        return Refused;
      }
      var rt := st.refresh[token];
      if !rt.Active(now) {
        return if rt.revokedAt != 0 then Reused else Refused;
      }
      if rt.pair !in st.pairings || st.pairings[rt.pair].status != PairingActive {
        return Withdrawn;
      }
      var p := st.pairings[rt.pair];
      if rt.device !in st.devices || st.devices[rt.device].account != rt.account {
        return Refused;
      }
      if !PairingHasDevice(p, rt.device, st.devices[rt.device]) {
        return Withdrawn;
      }
      if p.license !in st.licenses || !LicenseIssuable(st, config, now, st.licenses[p.license]) {
        return Withdrawn;
      }
      return Granted;
    }

    method Refresh(token: Id, now: Time) returns (next: Option<Id>)
      modifies this`st
      ensures (st, next) == RefreshTokens(old(st), config, token, now)
    {
      hide RevokeByDevice, Judge;
      var verdict := JudgeRefresh(token, now);
      next := None;
      match verdict {
        case Refused =>
        case Reused =>
          st := st.(refresh := RevokeByDevice(st.refresh, st.refresh[token].device, now));
        case Withdrawn =>
          st := st.(refresh := RevokeRefreshToken(st.refresh, token, now));
        case Granted =>
          var rt := st.refresh[token];
          st := st.(refresh := st.refresh[token := rt.(revokedAt := now)]);
          next := Some(st.nextId);
          st := st.(refresh := st.refresh[st.nextId := NewRefreshToken(config, now, rt.device, rt.account, rt.pair)],
              nextId := st.nextId + 1);
      }
    }
  }
}
