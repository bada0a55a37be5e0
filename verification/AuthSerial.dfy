/**
 Whole serial runs of the auth handlers and the billing processor on one store: who owns
 what, who may pair with whom, and what becomes of a device whose revoked token is reused.
 */
module AuthSerial {
  import opened Options
  import opened Roles
  import opened AuthStore
  import opened Entitlement
  import opened Billing
  import opened BillingSync
  import BillingRuns
  import Reconciliation
  import opened AuthHandlers

  datatype Call =
    | Register(account: Id, role: Role, key: seq<nat>)
    | NewToken(account: Id, license: Id, desktop: Id, newKey: Option<seq<nat>>)
    | Complete(token: Id, mobile: Option<Id>, phoneKey: seq<nat>)
    | Leave(caller: Caller, pair: Id)
    | Issue(caller: Caller, device: Id, pair: Id)
    | Refresh(token: Id)
    | Open(account: Id, keys: seq<Id>)
    | Bill(world: World, event: BillingRuns.Event)

  datatype Timed = Timed(now: Time, call: Call)

  /** The service's settings, with the billing grace period. */
  datatype Settings = Settings(config: Config, grace: Time)

  function Step(st: Store, settings: Settings, c: Timed): Store {
    match c.call
    case Register(account, role, key) => RegisterOrFind(st, settings.config, account, role, key, c.now).0
    case NewToken(account, license, desktop, key) =>
      CreatePairingToken(st, settings.config, account, license, desktop, key, c.now).0
    case Complete(token, mobile, key) => CompletePairing(st, settings.config, token, mobile, key, c.now).0
    case Leave(caller, pair) => Unpair(st, caller, pair, c.now).0
    case Issue(caller, device, pair) => IssueToken(st, settings.config, caller, device, pair, c.now).0
    case Refresh(token) => RefreshTokens(st, settings.config, token, c.now).0
    case Open(account, keys) => OpenLicense(st, account, c.now, keys).0
    case Bill(world, event) =>
      if event.Elsewhere? then st else BillingRuns.Apply(st, BillingRuns.Entry(c.now, world, event), settings.grace)
  }

  function Run(st: Store, settings: Settings, calls: seq<Timed>): Store
    decreases |calls|
  {
    if calls == [] then st else Run(Step(st, settings, calls[0]), settings, calls[1..])
  }

  // ---------------------------------------------------------------------------
  // What holds between calls
  // ---------------------------------------------------------------------------

  predicate LicenseIs(licenses: map<Id, License>, id: Id, account: Id) {
    id in licenses && licenses[id].account == account
  }

  /** License and both devices belong to the pairing's account, in the right roles. */
  predicate PairOwned(licenses: map<Id, License>, devices: map<Id, Device>, p: Pairing) {
    && LicenseIs(licenses, p.license, p.account)
    && DeviceForRole(devices, p.mobile, p.account, Mobile) && DeviceForRole(devices, p.desktop, p.account, Desktop)
  }

  predicate TokenOwned(licenses: map<Id, License>, devices: map<Id, Device>, pt: PairingToken) {
    LicenseIs(licenses, pt.license, pt.account) && DeviceForRole(devices, pt.desktop, pt.account, Desktop)
  }

  ghost predicate PairsOwned(licenses: map<Id, License>, devices: map<Id, Device>, pairings: map<Id, Pairing>) {
    forall p | p in pairings :: PairOwned(licenses, devices, pairings[p])
  }

  ghost predicate TokensOwned(licenses: map<Id, License>, devices: map<Id, Device>, tokens: map<Id, PairingToken>) {
    forall t | t in tokens :: TokenOwned(licenses, devices, tokens[t])
  }

  /** At most one active pairing per license and desktop. */
  ghost predicate OnePerDesktop(pairings: map<Id, Pairing>) {
    forall p, q | p in pairings && q in pairings
                  && pairings[p].status == PairingActive && pairings[q].status == PairingActive
                  && pairings[p].license == pairings[q].license && pairings[p].desktop == pairings[q].desktop :: p == q
  }

  predicate CredentialFor(c: Credential, p: Pairing) {
    c.revokedAt == 0 && c.mobile == p.mobile && c.account == p.account && c.license == p.license
  }

  /** Every active pairing has a live credential that names its present phone. */
  ghost predicate Accredited(pairings: map<Id, Pairing>, creds: map<Id, Credential>) {
    forall p | p in pairings && pairings[p].status == PairingActive ::
        p in creds && CredentialFor(creds[p], pairings[p])
  }

  /** Ids come from the generator. */
  ghost predicate Drawn(st: Store) {
    && (forall id | id in st.devices :: id < st.nextId) && (forall id | id in st.pairings :: id < st.nextId)
    && (forall id | id in st.tokens :: id < st.nextId) && (forall id | id in st.refresh :: id < st.nextId)
  }

  ghost predicate Sound(st: Store) {
    && Drawn(st)
    && PairsOwned(st.licenses, st.devices, st.pairings) && TokensOwned(st.licenses, st.devices, st.tokens)
    && OnePerDesktop(st.pairings) && Accredited(st.pairings, st.creds)
  }

  // --- ownership survives what keeps accounts and roles ---

  ghost predicate DevicesKept(a: map<Id, Device>, b: map<Id, Device>) {
    forall d | d in a :: d in b && b[d].account == a[d].account && b[d].role == a[d].role
  }

  ghost predicate LicensesKeepAccount(a: map<Id, License>, b: map<Id, License>) {
    forall l | l in a :: l in b && b[l].account == a[l].account
  }

  lemma OwnershipSurvives(st: Store, licenses: map<Id, License>, devices: map<Id, Device>)
    requires PairsOwned(st.licenses, st.devices, st.pairings) && TokensOwned(st.licenses, st.devices, st.tokens)
    requires LicensesKeepAccount(st.licenses, licenses) && DevicesKept(st.devices, devices)
    ensures PairsOwned(licenses, devices, st.pairings) && TokensOwned(licenses, devices, st.tokens)
  {
  }

  // ---------------------------------------------------------------------------
  // Devices and pairing tokens
  // ---------------------------------------------------------------------------

  lemma AddDeviceSound(st: Store, d: Device)
    requires Sound(st)
    ensures var devices := st.devices[st.nextId := d];
            Sound(st.(devices := devices, nextId := st.nextId + 1)) && DevicesKept(st.devices, devices)
  {
  }

  lemma RegisterSound(st: Store, config: Config, account: Id, role: Role, key: seq<nat>, now: Time)
    requires Sound(st)
    ensures var (st', device) := RegisterOrFind(st, config, account, role, key, now);
            && Sound(st') && (device.Some? ==> DeviceForRole(st'.devices, device.value, account, role))
            && st' == st.(devices := st'.devices, nextId := st'.nextId)
  {
    hide Sound, DevicesOf;
    AddDeviceSound(st, Device(account, role, key, now));
  }

  lemma SetKeySound(st: Store, device: Id, key: seq<nat>)
    requires Sound(st) && device in st.devices
    ensures Sound(SetKey(st, device, key)) && DevicesKept(st.devices, SetKey(st, device, key).devices)
  {
  }

  lemma AddTokenSound(st: Store, pt: PairingToken)
    requires Sound(st) && TokenOwned(st.licenses, st.devices, pt)
    ensures Sound(st.(tokens := st.tokens[st.nextId := pt], nextId := st.nextId + 1))
  {
  }

  lemma NewTokenSound(st: Store, config: Config, account: Id, license: Id, desktop: Id, key: Option<seq<nat>>,
      now: Time)
    requires Sound(st)
    ensures Sound(CreatePairingToken(st, config, account, license, desktop, key, now).0)
  {
    hide Sound, LicenseIssuable, MayPair;
    if DeviceForRole(st.devices, desktop, account, Desktop) {
      var keyed := if key.Some? then SetKey(st, desktop, key.value) else st;
      if key.Some? {
        SetKeySound(st, desktop, key.value);
      }
      var pt := PairingToken(account, license, desktop, now + config.pairingTokenTtl, 0, 0);
      if license in st.licenses && st.licenses[license].account == account {
        AddTokenSound(keyed, pt);
      }
    }
  }

  // ---------------------------------------------------------------------------
  // Completion
  // ---------------------------------------------------------------------------

  lemma PairKeepsOne(pairings: map<Id, Pairing>, id: Id, p: Pairing)
    requires OnePerDesktop(pairings) && id !in pairings && PairedWith(pairings, p.license, p.desktop) == {}
    ensures OnePerDesktop(pairings[id := p])
  {
    assert forall q | q in pairings && pairings[q].status == PairingActive
                      && pairings[q].license == p.license && pairings[q].desktop == p.desktop ::
             q in PairedWith(pairings, p.license, p.desktop);
  }

  /** Replacing the phone of the desktop's own pairing. */
  lemma RepairSound(st: Store, pt: PairingToken, pair: Id, mobile: Id, secret: Id, now: Time)
    requires Sound(st) && TokenOwned(st.licenses, st.devices, pt)
    requires DeviceForRole(st.devices, mobile, pt.account, Mobile)
    requires pair in PairedWith(st.pairings, pt.license, pt.desktop)
    ensures var pairings := UpdatePairingDevices(st.pairings, pair, mobile, pt.desktop);
            var creds := st.creds[pair := Credential(pt.account, pt.license, mobile, secret, now, 0)];
            && PairsOwned(st.licenses, st.devices, pairings) && OnePerDesktop(pairings) && Accredited(pairings, creds)
            && pairings.Keys == st.pairings.Keys
  {
  }

  lemma InsertSound(st: Store, pt: PairingToken, mobile: Id, secret: Id, now: Time)
    requires Sound(st) && TokenOwned(st.licenses, st.devices, pt)
    requires DeviceForRole(st.devices, mobile, pt.account, Mobile)
    requires PairedWith(st.pairings, pt.license, pt.desktop) == {}
    ensures var pairings := st.pairings[st.nextId :=
            Pairing(pt.license, pt.account, mobile, pt.desktop, PairingActive, now)];
            var creds := st.creds[st.nextId := Credential(pt.account, pt.license, mobile, secret, now, 0)];
            && PairsOwned(st.licenses, st.devices, pairings) && OnePerDesktop(pairings) && Accredited(pairings, creds)
  {
    PairKeepsOne(st.pairings, st.nextId, Pairing(pt.license, pt.account, mobile, pt.desktop, PairingActive, now));
    hide OnePerDesktop, PairedWith;
  }

  lemma PairSound(st: Store, pt: PairingToken, mobile: Id, now: Time)
    requires Sound(st) && TokenOwned(st.licenses, st.devices, pt)
    requires DeviceForRole(st.devices, mobile, pt.account, Mobile)
    ensures var (paired, pair) := Pair(st, pt, mobile, now);
            Sound(Accredit(paired, pt, pair, mobile, now))
  {
    var reuse := PairedWith(st.pairings, pt.license, pt.desktop);
    if reuse != {} {
      var pair := MinOf(reuse);
      RepairSound(st, pt, pair, mobile, st.nextId, now);
      RevokedKeys(st.refresh, st.pairings[pair].mobile, now);
    } else {
      InsertSound(st, pt, mobile, st.nextId + 1, now);
    }
    hide PairsOwned, TokensOwned, OnePerDesktop, Accredited, PairedWith, RevokeByDevice, UpdatePairingDevices,
        TokenOwned, MinOf;
  }

  lemma ConsumeSound(st: Store, token: Id, pair: Id, now: Time)
    requires Sound(st) && token in st.tokens
    ensures Sound(st.(tokens := st.tokens[token := st.tokens[token].(consumedAt := now, resultPair := pair)]))
  {
  }

  lemma KeyedSound(st: Store, token: Id, mobile: Id, key: seq<nat>, pair: Id, now: Time)
    requires Sound(st) && token in st.tokens && DeviceForRole(st.devices, mobile, st.tokens[token].account, Mobile)
    ensures var keyed, pt := Keyed(st, token, mobile, key, pair, now), st.tokens[token];
            && Sound(keyed) && TokenOwned(keyed.licenses, keyed.devices, pt)
            && DeviceForRole(keyed.devices, mobile, pt.account, Mobile)
  {
    var used := st.(tokens := st.tokens[token := st.tokens[token].(consumedAt := now, resultPair := pair)]);
    ConsumeSound(st, token, pair, now);
    SetKeySound(used, mobile, key);
    assert TokenOwned(st.licenses, st.devices, st.tokens[token]);
    hide Sound;
  }

  lemma FinishSound(st: Store, token: Id, mobile: Id, key: seq<nat>, now: Time)
    requires Sound(st) && token in st.tokens && DeviceForRole(st.devices, mobile, st.tokens[token].account, Mobile)
    ensures Sound(Finish(st, token, mobile, key, now).0)
  {
    var pt, result := st.tokens[token], ResultPair(st, st.tokens[token]);
    KeyedSound(st, token, mobile, key, result, now);
    hide Sound, Keyed, ResultPair, Pair, Accredit, TokenOwned, DeviceForRole;
    PairSound(Keyed(st, token, mobile, key, result, now), pt, mobile, now);
  }

  lemma ResolveMobileSound(st: Store, config: Config, account: Id, mobile: Option<Id>, key: seq<nat>, now: Time)
    requires Sound(st)
    ensures var (st', phone) := ResolveMobile(st, config, account, mobile, key, now);
            && Sound(st') && (phone.Some? ==> DeviceForRole(st'.devices, phone.value, account, Mobile))
            && st'.tokens == st.tokens && st'.refresh == st.refresh
  {
    hide Sound;
    if mobile.None? {
      RegisterSound(st, config, account, Mobile, key, now);
    }
  }

  lemma WrittenIsFinished(st: Store, known: Store, token: Id, phone: Id, key: seq<nat>, now: Time)
    requires Sound(known) && known == st.(devices := known.devices, nextId := known.nextId)
    requires token in st.tokens && phone in known.devices
    ensures var pt := st.tokens[token];
            var (paired, pair) := Finish(known, token, phone, key, now);
            pt.license in st.licenses && MayPair(known, pt.license, pt.desktop) ==>
              WriteOut(known, token, phone, key, LimitOf(known, pt.license), now) == (paired, Some(pair))
  {
    assert known.nextId !in known.pairings;
    hide Sound, Finish, WriteOut, MayPair;
    if st.tokens[token].license in st.licenses && MayPair(known, st.tokens[token].license, st.tokens[token].desktop) {
      RecountAccepts(known, token, phone, key, now);
    }
  }

  lemma CompleteSound(st: Store, config: Config, token: Id, mobile: Option<Id>, key: seq<nat>, now: Time)
    requires Sound(st)
    ensures Sound(CompletePairing(st, config, token, mobile, key, now).0)
  {
    hide Sound, ResolveMobile, WriteOut, Finish, LicenseIssuable, MayPair;
    if token in st.tokens {
      var account := st.tokens[token].account;
      ResolveMobileSound(st, config, account, mobile, key, now);
      var (known, phone) := ResolveMobile(st, config, account, mobile, key, now);
      if phone.Some? {
        WrittenIsFinished(st, known, token, phone.value, key, now);
        FinishSound(known, token, phone.value, key, now);
      }
    }
  }

  // ---------------------------------------------------------------------------
  // Unpairing and refresh tokens
  // ---------------------------------------------------------------------------

  lemma FewerActiveSound(st: Store, pairings: map<Id, Pairing>)
    requires Sound(st) && OnlyRevoked(st.pairings, pairings)
    ensures Sound(st.(pairings := pairings))
  {
  }

  lemma LeaveSound(st: Store, caller: Caller, pair: Id, now: Time)
    requires Sound(st)
    ensures Sound(Unpair(st, caller, pair, now).0)
  {
    if pair in st.pairings {
      var pairings := SetPairingStatus(st.pairings, pair, PairingRevoked);
      FewerActiveSound(st, pairings);
      assert Accredited(pairings, RevokeCredential(st.creds, pair, now)) by {
        hide CredentialFor;
      }
      hide PairsOwned, TokensOwned, OnePerDesktop, Accredited, SetPairingStatus, RevokeCredential;
    }
  }

  lemma IssueSound(st: Store, config: Config, caller: Caller, device: Id, pair: Id, now: Time)
    requires Sound(st)
    ensures Sound(IssueToken(st, config, caller, device, pair, now).0)
  {
  }

  lemma RefreshSound(st: Store, config: Config, token: Id, now: Time)
    requires Sound(st)
    ensures Sound(RefreshTokens(st, config, token, now).0)
  {
  }

  // ---------------------------------------------------------------------------
  // Billing
  // ---------------------------------------------------------------------------

  /** What billing leaves alone: it only revokes pairings, and licenses keep their account. */
  ghost predicate BillFrame(a: Store, b: Store) {
    && b == a.(nextId := b.nextId, customers := b.customers, accounts := b.accounts, subs := b.subs,
         licenses := b.licenses, pairings := b.pairings)
    && a.nextId <= b.nextId
    && LicensesKeepAccount(a.licenses, b.licenses) && OnlyRevoked(a.pairings, b.pairings)
  }

  lemma FrameChains(a: Store, b: Store, c: Store)
    requires BillFrame(a, b) && BillFrame(b, c)
    ensures BillFrame(a, c)
  {
  }

  lemma SyncIsFramed(st: Store, sub: StripeSub, account: Id, now: Time, grace: Time, w: World)
    ensures BillFrame(st, SyncSubscription(st, sub, account, now, grace, w).0)
  {
    SyncCounts(st, sub, account, now, grace, w);
    hide SyncSubscription, LicensesOf, OnlyRevoked;
  }

  lemma ResolveIsFramed(st: Store, customer: Id, now: Time)
    ensures BillFrame(st, ResolveAccount(st, customer, now).0)
  {
  }

  lemma LinkIsFramed(st: Store, account: Id, customer: Id, now: Time)
    ensures BillFrame(st, UpsertAccount(st, account, customer, now))
  {
  }

  lemma MirrorIsFramed(st: Store, id: Id, mirror: Subscription)
    ensures BillFrame(st, st.(subs := st.subs[id := mirror]))
  {
  }

  lemma UpsertIsFramed(st: Store, sub: StripeSub, now: Time, grace: Time, w: World)
    ensures BillFrame(st, SubscriptionUpserted(st, sub, now, grace, w).0)
  {
    ResolveIsFramed(st, sub.customer, now);
    var (mid, account) := ResolveAccount(st, sub.customer, now);
    SyncIsFramed(mid, sub, account, now, grace, w);
    FrameChains(st, mid, SyncSubscription(mid, sub, account, now, grace, w).0);
    MirrorIsFramed(st, 0, Subscription(0, SubActive, 0, 0, 0, 0));
    hide SyncSubscription, ResolveAccount;
  }

  lemma EnforceIsFramed(st: Store, sub: Id, fails: set<Id>)
    ensures BillFrame(st, Enforce(st, sub, Revoked, fails).0)
  {
    EnforceIs(st, sub, Revoked, fails);
    hide Enforce, LicensesOf, OnlyRevoked;
  }

  lemma ReactivateIsFramed(st: Store, sub: Id)
    ensures BillFrame(st, Reactivate(st, sub))
  {
    ReactivateIs(st, sub);
    hide Reactivate;
  }

  lemma FrameIsReflexive(st: Store)
    ensures BillFrame(st, st)
  {
  }

  lemma DeletedIsFramed(st: Store, sub: StripeSub, now: Time, fails: set<Id>)
    ensures BillFrame(st, SubscriptionDeleted(st, sub, now, fails).0)
  {
    FrameIsReflexive(st);
    ResolveIsFramed(st, sub.customer, now);
    hide Enforce, ResolveAccount, LicensesKeepAccount, OnlyRevoked;
    var (mid, account) := ResolveAccount(st, sub.customer, now);
    var mirror := Subscription(account, SubCanceled, sub.maxPairs, 0, 0, now);
    var mirrored := mid.(subs := mid.subs[sub.id := mirror]);
    MirrorIsFramed(mid, sub.id, mirror);
    EnforceIsFramed(mirrored, sub.id, fails);
    hide BillFrame;
    FrameChains(st, mid, mirrored);
    FrameChains(st, mirrored, Enforce(mirrored, sub.id, Revoked, fails).0);
  }

  lemma CheckoutIsFramed(st: Store, customer: Id, ref: Option<Id>, fetched: Option<StripeSub>, now: Time, grace: Time,
      w: World)
    ensures BillFrame(st, CheckoutCompleted(st, customer, ref, fetched, now, grace, w).0)
  {
    FrameIsReflexive(st);
    ResolveIsFramed(st, customer, now);
    hide SyncSubscription, ResolveAccount, UpsertAccount, LicensesKeepAccount, OnlyRevoked;
    var (mid, account) := if ref.Some? then (st, ref.value) else ResolveAccount(st, customer, now);
    var linked := UpsertAccount(mid, account, customer, now);
    LinkIsFramed(mid, account, customer, now);
    FrameChains(st, mid, linked);
    if fetched.Some? {
      SyncIsFramed(linked, fetched.value, account, now, grace, w);
      FrameChains(st, linked, SyncSubscription(linked, fetched.value, account, now, grace, w).0);
    }
    hide BillFrame;
  }

  lemma PaidIsFramed(st: Store, sub: Id, now: Time)
    ensures BillFrame(st, InvoicePaid(st, sub, now).0)
  {
    FrameIsReflexive(st);
    if sub in st.subs {
      var mirror := MirrorPaid(st.subs[sub], now);
      var mirrored := st.(subs := st.subs[sub := mirror]);
      MirrorIsFramed(st, sub, mirror);
      ReactivateIsFramed(mirrored, sub);
      FrameChains(st, mirrored, Reactivate(mirrored, sub));
      hide Reactivate, BillFrame;
    }
  }

  lemma FailedIsFramed(st: Store, sub: Id, now: Time, grace: Time)
    ensures BillFrame(st, PaymentFailed(st, sub, now, grace).0)
  {
  }

  lemma {:induction false} ReconcileIsFramed(st: Store, subs: seq<StripeSub>, now: Time, grace: Time, w: World)
    ensures BillFrame(st, ReconcileAll(st, subs, now, grace, w).0)
    decreases |subs|
  {
    FrameIsReflexive(st);
    if subs != [] {
      var next := SubscriptionUpserted(st, subs[0], now, grace, w).0;
      UpsertIsFramed(st, subs[0], now, grace, w);
      hide SubscriptionUpserted, LicensesKeepAccount, OnlyRevoked;
      ReconcileIsFramed(next, subs[1..], now, grace, w);
      hide BillFrame;
      FrameChains(st, next, ReconcileAll(next, subs[1..], now, grace, w).0);
    }
  }

  lemma BillIsFramed(st: Store, e: BillingRuns.Entry, grace: Time)
    requires !e.event.Elsewhere?
    ensures BillFrame(st, BillingRuns.Apply(st, e, grace))
  {
    hide BillFrame;
    match e.event
    case Upserted(sub) => UpsertIsFramed(st, sub, e.now, grace, e.world);
    case Deleted(sub) => DeletedIsFramed(st, sub, e.now, e.world.fails);
    case Checkout(customer, ref, fetched) => CheckoutIsFramed(st, customer, ref, fetched, e.now, grace, e.world);
    case Failed(id) => FailedIsFramed(st, id, e.now, grace);
    case Paid(id) => PaidIsFramed(st, id, e.now);
    case Reconciled(subs) => ReconcileIsFramed(st, subs, e.now, grace, e.world);
  }

  lemma OpenIsFramed(st: Store, account: Id, now: Time, keys: seq<Id>)
    ensures BillFrame(st, OpenLicense(st, account, now, keys).0)
  {
    FrameIsReflexive(st);
    var key, lic := DrawKey(st.licenses.Keys, keys), License(account, st.nextId, 0, LicenseActive, now);
    var mirrored := st.(subs := st.subs[st.nextId := OpenSubscription(account, now)]);
    MirrorIsFramed(st, st.nextId, OpenSubscription(account, now));
    NewLicenseIsFramed(mirrored, key, lic);
    hide MinOf, ActiveLicenses, BillFrame, DrawKey, OpenSubscription;
    FrameChains(st, mirrored, mirrored.(licenses := st.licenses[key := lic], nextId := st.nextId + 1));
  }

  lemma NewLicenseIsFramed(st: Store, key: Id, lic: License)
    requires key !in st.licenses
    ensures BillFrame(st, st.(licenses := st.licenses[key := lic], nextId := st.nextId + 1))
  {
  }

  lemma FramedIsSound(st: Store, st': Store)
    requires Sound(st) && BillFrame(st, st')
    ensures Sound(st')
  {
    FewerActiveSound(st, st'.pairings);
    hide OnePerDesktop, Accredited, PairsOwned, TokensOwned;
    OwnershipSurvives(st.(pairings := st'.pairings), st'.licenses, st'.devices) by {
      assert DevicesKept(st.devices, st'.devices);
    }
  }

  // ---------------------------------------------------------------------------
  // Runs
  // ---------------------------------------------------------------------------

  lemma StepSound(st: Store, settings: Settings, c: Timed)
    requires Sound(st)
    ensures Sound(Step(st, settings, c))
  {
    hide Sound;
    match c.call
    case Register(account, role, key) => RegisterSound(st, settings.config, account, role, key, c.now);
    case NewToken(account, license, desktop, key) =>
      NewTokenSound(st, settings.config, account, license, desktop, key, c.now);
    case Complete(token, mobile, key) => CompleteSound(st, settings.config, token, mobile, key, c.now);
    case Leave(caller, pair) => LeaveSound(st, caller, pair, c.now);
    case Issue(caller, device, pair) => IssueSound(st, settings.config, caller, device, pair, c.now);
    case Refresh(token) => RefreshSound(st, settings.config, token, c.now);
    case Open(account, keys) =>
      OpenIsFramed(st, account, c.now, keys);
      FramedIsSound(st, OpenLicense(st, account, c.now, keys).0);
    case Bill(world, event) =>
      if !event.Elsewhere? {
        var e := BillingRuns.Entry(c.now, world, event);
        BillIsFramed(st, e, settings.grace);
        FramedIsSound(st, BillingRuns.Apply(st, e, settings.grace));
      }
  }

  lemma {:induction false} RunSound(st: Store, settings: Settings, calls: seq<Timed>)
    requires Sound(st)
    ensures Sound(Run(st, settings, calls))
    decreases |calls|
  {
    hide Sound, Step;
    if calls != [] {
      StepSound(st, settings, calls[0]);
      RunSound(Step(st, settings, calls[0]), settings, calls[1..]);
    }
  }

  /**
   After any serial run the license and both devices of every pairing belong to the pairing's
   account in the right roles; no license has two active pairings with one desktop; and every
   active pairing has a live credential naming its present phone, account and license.
   */
  lemma {:induction false} EveryRunKeepsOwnership(settings: Settings, calls: seq<Timed>, p: Id, q: Id)
    ensures var st := Run(EmptyStore(), settings, calls);
            p in st.pairings ==>
              var pairing := st.pairings[p];
              && pairing.license in st.licenses && st.licenses[pairing.license].account == pairing.account
              && DeviceForRole(st.devices, pairing.mobile, pairing.account, Mobile)
              && DeviceForRole(st.devices, pairing.desktop, pairing.account, Desktop)
              && (pairing.status == PairingActive ==>
                    && (q in st.pairings && q != p && st.pairings[q].license == pairing.license ==>
                          st.pairings[q].desktop != pairing.desktop || st.pairings[q].status == PairingRevoked)
                    && p in st.creds && CredentialFor(st.creds[p], pairing))
  {
    RunSound(EmptyStore(), settings, calls);
    hide Run;
    var st := Run(EmptyStore(), settings, calls);
    if p in st.pairings {
      assert PairOwned(st.licenses, st.devices, st.pairings[p]);
    }
  }

  lemma RunKnowsLicenses(settings: Settings, calls: seq<Timed>)
    ensures Reconciliation.LicensesKnown(Run(EmptyStore(), settings, calls))
  {
    var st := Run(EmptyStore(), settings, calls);
    RunSound(EmptyStore(), settings, calls);
    hide Run;
    assert forall p | p in st.pairings :: PairOwned(st.licenses, st.devices, st.pairings[p]);
  }

  /**
   After any serial run, reconciling a list of distinct subscriptions twice at one instant
   changes the store in the second pass exactly when a failed announcement came too early in
   the first; and for every draw of license keys exactly when it disturbed the first.
   */
  lemma {:induction false} ReconcilingTwiceAfterAnyRun(
      settings: Settings, calls: seq<Timed>, subs: seq<StripeSub>, now: Time, w: World, later: World)
    requires Reconciliation.DistinctSubs(subs) && later.fails == {}
    ensures var st := Run(EmptyStore(), settings, calls);
            var after := ReconcileAll(st, subs, now, settings.grace, w).0;
            ReconcileAll(after, subs, now, settings.grace, later).0 == after <==>
            Reconciliation.AllSettle(st, subs, now, settings.grace, w)
    ensures var st := Run(EmptyStore(), settings, calls);
            (forall keys ::
               var after := ReconcileAll(st, subs, now, settings.grace, World(w.fails, keys)).0;
               ReconcileAll(after, subs, now, settings.grace, later).0 == after) <==>
            forall i | 0 <= i < |subs| :: Reconciliation.Undisturbed(st, subs[i], now, settings.grace, w.fails)
  {
    RunKnowsLicenses(settings, calls);
    var st := Run(EmptyStore(), settings, calls);
    hide Run, ReconcileAll, Reconciliation.Undisturbed, Reconciliation.AllSettle, Reconciliation.LicensesKnown;
    Reconciliation.ReconcileIdempotentExactlyWhen(st, subs, now, settings.grace, w, later);
    Reconciliation.IdempotentForEveryDrawExactlyWhen(st, subs, now, settings.grace, w.fails, later);
  }

  // ---------------------------------------------------------------------------
  // Reuse of a refresh token
  // ---------------------------------------------------------------------------

  /** Every refresh token of the device is revoked. */
  ghost predicate AllRevoked(refresh: map<Id, RefreshToken>, device: Id) {
    forall t | t in refresh && refresh[t].device == device :: refresh[t].revokedAt != 0
  }

  predicate IssuesTo(call: Call, device: Id) {
    call.Issue? && call.device == device
  }

  lemma RefreshKeepsRevoked(st: Store, config: Config, token: Id, now: Time, device: Id)
    requires AllRevoked(st.refresh, device) && now != 0
    ensures AllRevoked(RefreshTokens(st, config, token, now).0.refresh, device)
  {
  }

  lemma RevokedIsRefused(st: Store, config: Config, token: Id, now: Time)
    requires token in st.refresh && st.refresh[token].revokedAt != 0
    ensures RefreshTokens(st, config, token, now).1.None?
  {
  }

  /** A completion at most revokes the evicted phone's tokens. */
  lemma CompletionRefresh(st: Store, config: Config, token: Id, mobile: Option<Id>, key: seq<nat>, now: Time,
      device: Id)
    requires AllRevoked(st.refresh, device)
    ensures AllRevoked(CompletePairing(st, config, token, mobile, key, now).0.refresh, device)
  {
    hide Finish, AllRevoked, LicenseIssuable, MayPair, ResolveMobile;
    if token in st.tokens {
      var account := st.tokens[token].account;
      var (known, phone) := ResolveMobile(st, config, account, mobile, key, now);
      if phone.Some? {
        FinishRefresh(known, token, phone.value, key, now, device);
      }
    }
  }

  lemma FinishRefresh(st: Store, token: Id, mobile: Id, key: seq<nat>, now: Time, device: Id)
    requires token in st.tokens && mobile in st.devices && AllRevoked(st.refresh, device)
    ensures AllRevoked(Finish(st, token, mobile, key, now).0.refresh, device)
  {
  }

  lemma IssueKeepsRevoked(st: Store, config: Config, caller: Caller, to: Id, pair: Id, now: Time, device: Id)
    requires AllRevoked(st.refresh, device) && to != device
    ensures AllRevoked(IssueToken(st, config, caller, to, pair, now).0.refresh, device)
  {
  }

  lemma StepKeepsRevoked(st: Store, settings: Settings, c: Timed, device: Id)
    requires AllRevoked(st.refresh, device) && c.now != 0 && !IssuesTo(c.call, device)
    ensures AllRevoked(Step(st, settings, c).refresh, device)
  {
    hide AllRevoked, RegisterOrFind, CreatePairingToken, CompletePairing, Unpair, IssueToken, RefreshTokens,
        OpenLicense, BillingRuns.Apply;
    match c.call
    case Register(_, _, _) =>
    case NewToken(_, _, _, _) =>
    case Complete(token, mobile, key) => CompletionRefresh(st, settings.config, token, mobile, key, c.now, device);
    case Leave(_, _) =>
    case Issue(caller, to, pair) => IssueKeepsRevoked(st, settings.config, caller, to, pair, c.now, device);
    case Refresh(token) => RefreshKeepsRevoked(st, settings.config, token, c.now, device);
    case Open(account, keys) => OpenIsFramed(st, account, c.now, keys);
    case Bill(world, event) =>
      if !event.Elsewhere? {
        BillIsFramed(st, BillingRuns.Entry(c.now, world, event), settings.grace);
      }
  }

  lemma {:induction false} RunKeepsRevoked(st: Store, settings: Settings, calls: seq<Timed>, device: Id)
    requires Sound(st) && AllRevoked(st.refresh, device)
    requires forall i | 0 <= i < |calls| :: calls[i].now != 0 && !IssuesTo(calls[i].call, device)
    ensures Sound(Run(st, settings, calls)) && AllRevoked(Run(st, settings, calls).refresh, device)
    decreases |calls|
  {
    hide Sound, Step, AllRevoked;
    if calls != [] {
      StepSound(st, settings, calls[0]);
      StepKeepsRevoked(st, settings, calls[0], device);
      RunKeepsRevoked(Step(st, settings, calls[0]), settings, calls[1..], device);
    }
  }

  lemma ReuseRevokesAll(st: Store, config: Config, token: Id, now: Time)
    requires token in st.refresh && st.refresh[token].revokedAt != 0 && now != 0
    ensures var (st', next) := RefreshTokens(st, config, token, now);
            next.None? && AllRevoked(st'.refresh, st.refresh[token].device)
  {
  }

  /**
   Reuse detection: whoever presents a refresh token that was already revoked is refused and
   takes down every token of that device. Until a new issuance to the device, however the
   run goes on, each refresh with one of its tokens is refused.
   */
  lemma {:induction false} ReuseKillsTheDevice(
      settings: Settings, before: seq<Timed>, token: Id, now: Time, after: seq<Timed>, later: Id, time: Time)
    requires now != 0 && time != 0
    requires var st := Run(EmptyStore(), settings, before);
             && token in st.refresh && st.refresh[token].revokedAt != 0
             && (forall i | 0 <= i < |after| :: after[i].now != 0 && !IssuesTo(after[i].call, st.refresh[token].device))
    ensures var st := Run(EmptyStore(), settings, before);
            var (reused, next) := RefreshTokens(st, settings.config, token, now);
            var end := Run(reused, settings, after);
            && next.None?
            && (later in end.refresh && end.refresh[later].device == st.refresh[token].device ==>
                  end.refresh[later].revokedAt != 0 && RefreshTokens(end, settings.config, later, time).1.None?)
  {
    var st := Run(EmptyStore(), settings, before);
    var device := st.refresh[token].device;
    RunSound(EmptyStore(), settings, before);
    ReuseRevokesAll(st, settings.config, token, now);
    RefreshSound(st, settings.config, token, now);
    var reused := RefreshTokens(st, settings.config, token, now).0;
    RunKeepsRevoked(reused, settings, after, device);
    var end := Run(reused, settings, after);
    hide Run, RefreshTokens, Sound;
    if later in end.refresh && end.refresh[later].device == device {
      RevokedIsRefused(end, settings.config, later, time);
    }
  }
}
