/**
 The store of the auth service: its records, the operations the handlers build on,
 and the in-memory store that carries them out in place.

 Ids are opaque numbers; secrets are named by their hashes. Time 0 is the zero time.
 */
module AuthStore {
  import opened Options
  import opened Roles

  type Id = nat
  type Time = int

  datatype SubStatus =
    | SubTrialing | SubActive | SubPastDue | SubCanceled | SubUnpaid | SubIncompleteExpired | SubPaused
    | SubUnknown(name: string)

  datatype LicenseStatus = LicenseActive | LicenseRevoked

  datatype PairingStatus = PairingActive | PairingRevoked

  datatype Account = Account(customer: Id, createdAt: Time)

  datatype Subscription = Subscription(account: Id, status: SubStatus, maxPairs: nat,
                                       periodEnd: Time, graceUntil: Time, updatedAt: Time)

  datatype License = License(account: Id, sub: Id, item: Id, status: LicenseStatus, createdAt: Time)

  datatype Device = Device(account: Id, role: Role, key: seq<nat>, createdAt: Time)

  datatype Pairing = Pairing(license: Id, account: Id, mobile: Id, desktop: Id, status: PairingStatus, createdAt: Time)

  datatype RefreshToken = RefreshToken(device: Id, account: Id, pair: Id, expiresAt: Time, revokedAt: Time)
  {
    predicate Active(now: Time) {
      revokedAt == 0 && now < expiresAt
    }
  }

  datatype PairingToken = PairingToken(account: Id, license: Id, desktop: Id, expiresAt: Time, consumedAt: Time,
      resultPair: Id)
  {
    predicate Active(now: Time) {
      consumedAt == 0 && now < expiresAt
    }
  }

  datatype Credential = Credential(account: Id, license: Id, mobile: Id, secret: Id, createdAt: Time, revokedAt: Time)

  /** `nextId` is the next id the random generator will give out. */
  datatype Store = Store(
    nextId: Id,
    customers: map<Id, Id>,
    accounts: map<Id, Account>,
    subs: map<Id, Subscription>,
    licenses: map<Id, License>,
    devices: map<Id, Device>,
    pairings: map<Id, Pairing>,
    refresh: map<Id, RefreshToken>,
    tokens: map<Id, PairingToken>,
    creds: map<Id, Credential>)

  /** The settings of the service: billing on or off, token lifetimes, devices per account. */
  datatype Config = Config(billing: bool, refreshTtl: Time, pairingTokenTtl: Time, deviceCap: nat)

  function EmptyStore(): Store {
    Store(1, map[], map[], map[], map[], map[], map[], map[], map[], map[])
  }

  // ---------------------------------------------------------------------------
  // Pairings
  // ---------------------------------------------------------------------------

  predicate ActiveFor(p: Pairing, license: Id) {
    p.license == license && p.status == PairingActive
  }

  /** The active pairings of a license. */
  function ActivePairs(pairings: map<Id, Pairing>, license: Id): set<Id> {
    set id | id in pairings && ActiveFor(pairings[id], license)
  }

  datatype StoreError = Ok | NotFound | Conflict | CapacityExceeded

  /** Counts and inserts at once, so that racing completions cannot both see a free place. */
  function CreatePairingWithinCapacity(pairings: map<Id, Pairing>, id: Id, p: Pairing, maxPairs: nat)
    : (map<Id, Pairing>, StoreError)
  {
    if id in pairings then (pairings, Conflict)
    else if |ActivePairs(pairings, p.license)| >= maxPairs then (pairings, CapacityExceeded)
    else (pairings[id := p], Ok)
  }

  function NewPairing(pt: PairingToken, mobile: Id, now: Time): Pairing {
    Pairing(pt.license, pt.account, mobile, pt.desktop, PairingActive, now)
  }

  function SetPairingStatus(pairings: map<Id, Pairing>, id: Id, status: PairingStatus): map<Id, Pairing> {
    if id in pairings then pairings[id := pairings[id].(status := status)] else pairings
  }

  function UpdatePairingDevices(pairings: map<Id, Pairing>, id: Id, mobile: Id, desktop: Id): map<Id, Pairing> {
    if id in pairings then pairings[id := pairings[id].(mobile := mobile, desktop := desktop)] else pairings
  }

  // ---------------------------------------------------------------------------
  // Single-use tokens
  // ---------------------------------------------------------------------------

  function ConsumePairingToken(tokens: map<Id, PairingToken>, id: Id, pair: Id, now: Time)
    : (map<Id, PairingToken>, StoreError)
  {
    if id !in tokens then (tokens, NotFound)
    else if tokens[id].consumedAt != 0 then (tokens, Conflict)
    else (tokens[id := tokens[id].(consumedAt := now, resultPair := pair)], Ok)
  }

  function ConsumeRefreshToken(refresh: map<Id, RefreshToken>, id: Id, now: Time): (map<Id, RefreshToken>, StoreError) {
    if id !in refresh then (refresh, NotFound)
    else if refresh[id].revokedAt != 0 then (refresh, Conflict)
    else (refresh[id := refresh[id].(revokedAt := now)], Ok)
  }

  function RevokeRefreshToken(refresh: map<Id, RefreshToken>, id: Id, now: Time): map<Id, RefreshToken> {
    if id in refresh && refresh[id].revokedAt == 0 then refresh[id := refresh[id].(revokedAt := now)] else refresh
  }

  function RevokeByDevice(refresh: map<Id, RefreshToken>, device: Id, now: Time): map<Id, RefreshToken> {
    map id | id in refresh ::
      if refresh[id].device == device && refresh[id].revokedAt == 0 then refresh[id].(revokedAt := now) else refresh[id]
  }

  function NewRefreshToken(config: Config, now: Time, device: Id, account: Id, pair: Id): RefreshToken {
    RefreshToken(device, account, pair, now + config.refreshTtl, 0)
  }

  function RevokeCredential(creds: map<Id, Credential>, pair: Id, now: Time): map<Id, Credential> {
    if pair in creds && creds[pair].revokedAt == 0 then creds[pair := creds[pair].(revokedAt := now)] else creds
  }

  // ---------------------------------------------------------------------------
  // Devices
  // ---------------------------------------------------------------------------

  predicate Matches(d: Device, account: Id, role: Role, key: seq<nat>) {
    d.account == account && d.role == role && d.key == key
  }

  predicate PairingHasDevice(p: Pairing, device: Id, d: Device) {
    match d.role
    case Mobile => p.mobile == device
    case Desktop => p.desktop == device
  }

  /** The account's own device, in the role asked for. */
  predicate DeviceForRole(devices: map<Id, Device>, device: Id, account: Id, role: Role) {
    device in devices && devices[device].account == account && devices[device].role == role
  }

  function SetKey(st: Store, device: Id, key: seq<nat>): Store
    requires device in st.devices
  {
    st.(devices := st.devices[device := st.devices[device].(key := key)])
  }

  function DevicesOf(devices: map<Id, Device>, account: Id): set<Id> {
    set id | id in devices && devices[id].account == account
  }

  // ---------------------------------------------------------------------------
  // The in-memory store
  // ---------------------------------------------------------------------------

  class MemoryStore {
    var pairings: map<Id, Pairing>
    var refresh: map<Id, RefreshToken>
    var tokens: map<Id, PairingToken>

    method CountActivePairs(license: Id) returns (n: nat)
      ensures n == |ActivePairs(pairings, license)|
    {
      n := 0;
      var rest := pairings.Keys;
      ghost var counted: set<Id> := {};
      while rest != {}
        invariant rest <= pairings.Keys
        invariant counted == set id | id in pairings && id !in rest && ActiveFor(pairings[id], license)
        invariant n == |counted|
        decreases |rest|
      {
        var id :| id in rest;
        rest := rest - {id};
        if ActiveFor(pairings[id], license) {
          counted := counted + {id};
          n := n + 1;
        }
      }
      assert counted == ActivePairs(pairings, license);
    }

    method CreateWithinCapacity(id: Id, p: Pairing, maxPairs: nat) returns (err: StoreError)
      modifies this`pairings
      ensures (pairings, err) == CreatePairingWithinCapacity(old(pairings), id, p, maxPairs)
      ensures err.Ok? && p.status == PairingActive ==>
                |ActivePairs(pairings, p.license)| == |ActivePairs(old(pairings), p.license)| + 1 <= maxPairs
    {
      if id in pairings {
        return Conflict;
      }
      var inUse := CountActivePairs(p.license);
      if inUse >= maxPairs {
        return CapacityExceeded;
      }
      pairings := pairings[id := p];
      ActiveAfterInsert(old(pairings), id, p, p.license);
      return Ok;
    }

    method RevokeDevice(device: Id, now: Time)
      requires now != 0
      modifies this`refresh
      ensures refresh == RevokeByDevice(old(refresh), device, now)
      ensures forall id | id in refresh && refresh[id].device == device :: refresh[id].revokedAt != 0
    {
      var rest := refresh.Keys;
      while rest != {}
        invariant rest <= refresh.Keys == old(refresh).Keys
        invariant forall id | id in rest :: refresh[id] == old(refresh)[id]
        invariant forall id | id in refresh && id !in rest ::
                  refresh[id] == RevokeByDevice(old(refresh), device, now)[id]
        decreases |rest|
      {
        var id :| id in rest;
        rest := rest - {id};
        var r := refresh[id];
        if r.device == device && r.revokedAt == 0 {
          refresh := refresh[id := r.(revokedAt := now)];
        }
      }
    }

    method ConsumeRefresh(id: Id, now: Time) returns (err: StoreError)
      modifies this`refresh
      ensures (refresh, err) == ConsumeRefreshToken(old(refresh), id, now)
    {
      if id !in refresh {
        return NotFound;
      }
      if refresh[id].revokedAt != 0 {
        return Conflict;
      }
      refresh := refresh[id := refresh[id].(revokedAt := now)];
      return Ok;
    }

    method ConsumeToken(id: Id, pair: Id, now: Time) returns (err: StoreError)
      modifies this`tokens
      ensures (tokens, err) == ConsumePairingToken(old(tokens), id, pair, now)
    {
      if id !in tokens {
        return NotFound;
      }
      if tokens[id].consumedAt != 0 {
        return Conflict;
      }
      tokens := tokens[id := tokens[id].(consumedAt := now, resultPair := pair)];
      return Ok;
    }
  }

  // ---------------------------------------------------------------------------
  // Counting
  // ---------------------------------------------------------------------------

  lemma ActiveAfterInsert(pairings: map<Id, Pairing>, id: Id, p: Pairing, license: Id)
    requires id !in pairings
    ensures ActivePairs(pairings[id := p], license) ==
            if ActiveFor(p, license) then ActivePairs(pairings, license) + {id} else ActivePairs(pairings, license)
    ensures id !in ActivePairs(pairings, license)
  {
  }

  lemma ActiveAfterChange(pairings: map<Id, Pairing>, id: Id, p: Pairing, license: Id)
    requires id in pairings && p.license == pairings[id].license
    requires p.status == PairingActive ==> pairings[id].status == PairingActive
    ensures ActivePairs(pairings[id := p], license) <= ActivePairs(pairings, license)
    ensures |ActivePairs(pairings[id := p], license)| <= |ActivePairs(pairings, license)|
  {
    SubsetCardinality(ActivePairs(pairings[id := p], license), ActivePairs(pairings, license));
  }

  lemma SubsetCardinality<T>(a: set<T>, b: set<T>)
    requires a <= b
    ensures |a| <= |b|
  {
    assert b == a + (b - a);
  }

  lemma RevokedKeys(refresh: map<Id, RefreshToken>, device: Id, now: Time)
    ensures RevokeByDevice(refresh, device, now).Keys == refresh.Keys
  {
  }

  function Max(a: nat, b: nat): nat {
    if a < b then b else a
  }

  ghost predicate Distinct(ids: seq<Id>) {
    forall i, j | 0 <= i < j < |ids| :: ids[i] != ids[j]
  }
}
