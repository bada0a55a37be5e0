/**
 The answers of the auth handlers, told by the fields of the records they look at: exactly
 when a device is registered, a pairing token made, a pairing completed or undone, and how
 long what was handed out is good for.
 */
module AuthAnswers {
  import opened Options
  import opened Roles
  import opened AuthStore
  import opened Entitlement
  import opened Billing
  import opened BillingSync
  import BillingRuns
  import opened AuthHandlers
  import opened AuthSerial
  import opened AuthPairing

  // ---------------------------------------------------------------------------
  // Registering a device
  // ---------------------------------------------------------------------------

  /** The device is the account's, in this role and with this key. */
  predicate KeyOnFile(devices: map<Id, Device>, account: Id, role: Role, key: seq<nat>, d: Id) {
    d in devices && devices[d].account == account && devices[d].role == role && devices[d].key == key
  }

  predicate Known(devices: map<Id, Device>, account: Id, role: Role, key: seq<nat>) {
    key != [] && exists d | d in devices :: KeyOnFile(devices, account, role, key, d)
  }

  /** The account has fewer devices than the cap. */
  predicate UnderCap(devices: map<Id, Device>, account: Id, cap: nat) {
    |set d | d in devices && devices[d].account == account| < cap
  }

  /**
   A device is found by its key or, under the cap, made anew: the oldest with the key if there
   is one, else a new record with just these fields; a refusal changes nothing.
   */
  lemma RegistersExactlyWhen(st: Store, config: Config, account: Id, role: Role, key: seq<nat>, now: Time)
    ensures var (after, id) := RegisterOrFind(st, config, account, role, key, now);
            && (id.Some? <==>
                Known(st.devices, account, role, key) || UnderCap(st.devices, account, config.deviceCap))
            && (Known(st.devices, account, role, key) ==>
                  && after == st && KeyOnFile(st.devices, account, role, key, id.value)
                  && forall d :: KeyOnFile(st.devices, account, role, key, d) ==> id.value <= d)
            && (id.Some? && !Known(st.devices, account, role, key) ==>
                  && id.value == st.nextId
                  && after.devices == st.devices[id.value := Device(account, role, key, now)])
            && (id.None? ==> after == st)
  {
    MatchingMeans(st.devices, account, role, key);
    assert DevicesOf(st.devices, account) == set d | d in st.devices && st.devices[d].account == account;
    hide Matching, MinOf, KeyOnFile, DevicesOf;
  }

  lemma MatchingMeans(devices: map<Id, Device>, account: Id, role: Role, key: seq<nat>)
    ensures var found := Matching(devices, account, role, key);
            && (found != {} <==> exists d | d in devices :: KeyOnFile(devices, account, role, key, d))
            && (found != {} ==> KeyOnFile(devices, account, role, key, MinOf(found)))
            && (found != {} ==> forall d :: KeyOnFile(devices, account, role, key, d) ==> MinOf(found) <= d)
  {
    var found := Matching(devices, account, role, key);
    assert forall d :: d in found <==> KeyOnFile(devices, account, role, key, d);
    hide Matching, KeyOnFile;
    if found != {} {
      assert MinOf(found) in found && MinOf(found) in devices;
    }
  }

  // ---------------------------------------------------------------------------
  // Pairing tokens and pairings
  // ---------------------------------------------------------------------------

  /** The license is active and, with billing, its subscription in good standing. */
  predicate LicenseGood(st: Store, config: Config, license: Id, now: Time) {
    && license in st.licenses && st.licenses[license].status == LicenseActive
    && (config.billing ==>
          st.licenses[license].sub in st.subs && InGoodStanding(st.subs[st.licenses[license].sub], now))
  }

  predicate OnLicense(pairings: map<Id, Pairing>, license: Id, p: Id) {
    p in pairings && pairings[p].license == license && pairings[p].status == PairingActive
  }

  /** The desktop is paired on the license already, or the license has room for one more pairing. */
  predicate HasPlace(st: Store, license: Id, desktop: Id) {
    || (exists p | p in st.pairings :: OnLicense(st.pairings, license, p) && st.pairings[p].desktop == desktop)
    || (&& license in st.licenses && st.licenses[license].sub in st.subs
        && |set p | p in st.pairings && OnLicense(st.pairings, license, p)| <
           st.subs[st.licenses[license].sub].maxPairs)
  }

  lemma PlaceMeans(st: Store, license: Id, desktop: Id)
    requires license in st.licenses
    ensures MayPair(st, license, desktop) <==> HasPlace(st, license, desktop)
  {
    var reuse := PairedWith(st.pairings, license, desktop);
    assert ActivePairs(st.pairings, license) == set p | p in st.pairings && OnLicense(st.pairings, license, p);
    if reuse != {} {
      var p :| p in reuse;
      assert OnLicense(st.pairings, license, p);
    }
    if p :| p in st.pairings && OnLicense(st.pairings, license, p) && st.pairings[p].desktop == desktop {
      assert p in reuse;
    }
    hide PairedWith, ActivePairs, OnLicense;
  }

  lemma GoodMeans(st: Store, config: Config, license: Id, now: Time)
    requires license in st.licenses
    ensures LicenseIssuable(st, config, now, st.licenses[license]) <==> LicenseGood(st, config, license, now)
  {
  }

  /** The desktop has a key: the one given now, or the one on file. */
  predicate DesktopKeyed(st: Store, desktop: Id, key: Option<seq<nat>>)
    requires desktop in st.devices
  {
    if key.Some? then key.value != [] else st.devices[desktop].key != []
  }

  /**
   An account gets a pairing token exactly for its own good license, its own desktop with a
   key, and a place on the license.
   */
  lemma TokenMadeExactlyWhen(
      st: Store, config: Config, account: Id, license: Id, desktop: Id, key: Option<seq<nat>>, now: Time)
    ensures CreatePairingToken(st, config, account, license, desktop, key, now).1.Some? <==>
            && LicenseGood(st, config, license, now) && st.licenses[license].account == account
            && desktop in st.devices && st.devices[desktop].account == account
            && st.devices[desktop].role == Desktop && DesktopKeyed(st, desktop, key)
            && HasPlace(st, license, desktop)
  {
    if license in st.licenses {
      PlaceMeans(st, license, desktop);
      GoodMeans(st, config, license, now);
    }
    hide MayPair, HasPlace, LicenseIssuable, Evaluate, InGoodStanding;
  }

  /** The token is for just that and for its own lifetime; a key given along is stored. */
  lemma TokenMadeIs(
      st: Store, config: Config, account: Id, license: Id, desktop: Id, key: Option<seq<nat>>, now: Time)
    ensures var (after, token) := CreatePairingToken(st, config, account, license, desktop, key, now);
            && (token.Some? ==>
                  && token.value == st.nextId
                  && after.tokens == st.tokens[token.value :=
                       PairingToken(account, license, desktop, now + config.pairingTokenTtl, 0, 0)]
                  && desktop in st.devices
                  && after.devices == if key.None? then st.devices
                                      else st.devices[desktop := st.devices[desktop].(key := key.value)])
            && (token.None? ==> after.tokens == st.tokens)
  {
    hide MayPair, LicenseIssuable;
  }

  /** The phone a completion is for: the account's own, or one that can be found or registered by its key. */
  predicate PhoneAtHand(st: Store, config: Config, account: Id, mobile: Option<Id>, key: seq<nat>) {
    match mobile
    case Some(id) => id in st.devices && st.devices[id].account == account && st.devices[id].role == Mobile
    case None => Known(st.devices, account, Mobile, key) || UnderCap(st.devices, account, config.deviceCap)
  }

  /** What else a completion asks for besides an unspent token that has not expired. */
  predicate Completable(
      st: Store, config: Config, account: Id, license: Id, desktop: Id, mobile: Option<Id>, key: seq<nat>, now: Time)
  {
    && LicenseGood(st, config, license, now) && key != []
    && PhoneAtHand(st, config, account, mobile, key)
    && desktop in st.devices && st.devices[desktop].key != []
    && HasPlace(st, license, desktop)
  }

  lemma PhoneMeans(st: Store, config: Config, account: Id, mobile: Option<Id>, key: seq<nat>, now: Time, desktop: Id)
    requires Drawn(st)
    ensures var (known, phone) := ResolveMobile(st, config, account, mobile, key, now);
            && (phone.Some? <==> PhoneAtHand(st, config, account, mobile, key))
            && (desktop in st.devices ==> desktop in known.devices && known.devices[desktop] == st.devices[desktop])
            && (desktop in known.devices && desktop !in st.devices ==> desktop == st.nextId)
  {
    if mobile.None? {
      RegistersExactlyWhen(st, config, account, Mobile, key, now);
    }
    hide RegisterOrFind, Known, UnderCap, KeyOnFile;
  }

  /** A completion whose checks have all passed is written out. */
  lemma WritesWhenItMay(st: Store, token: Id, mobile: Id, key: seq<nat>, now: Time)
    requires Sound(st) && token in st.tokens && mobile in st.devices
    requires st.tokens[token].license in st.licenses && MayPair(st, st.tokens[token].license, st.tokens[token].desktop)
    ensures WriteOut(st, token, mobile, key, LimitOf(st, st.tokens[token].license), now).1.Some?
  {
    assert st.nextId !in st.pairings;
    hide Sound, WriteOut, Finish, MayPair;
    RecountAccepts(st, token, mobile, key, now);
  }

  /**
   A pairing is completed exactly with an unspent token before its expiry, on a good license
   with a place for the token's desktop, which has a key, and for a phone at hand with a key.
   */
  lemma CompletesExactlyWhen(st: Store, config: Config, token: Id, mobile: Option<Id>, key: seq<nat>, now: Time)
    requires Sound(st)
    ensures CompletePairing(st, config, token, mobile, key, now).1.Some? <==>
            && token in st.tokens && st.tokens[token].consumedAt == 0 && now < st.tokens[token].expiresAt
            && var pt := st.tokens[token];
               Completable(st, config, pt.account, pt.license, pt.desktop, mobile, key, now)
  {
    if token in st.tokens {
      var pt := st.tokens[token];
      assert Drawn(st) && TokenOwned(st.licenses, st.devices, pt);
      var (known, phone) := ResolveMobile(st, config, pt.account, mobile, key, now);
      PhoneMeans(st, config, pt.account, mobile, key, now, pt.desktop);
      ResolveMobileSound(st, config, pt.account, mobile, key, now);
      PlaceMeans(st, pt.license, pt.desktop);
      GoodMeans(st, config, pt.license, now);
      SamePlace(st, known, pt.license, pt.desktop);
      hide Sound, ResolveMobile, LicenseIssuable, MayPair, WriteOut, LimitOf, LicenseGood, PhoneAtHand, HasPlace;
      if phone.Some? && MayPair(known, pt.license, pt.desktop) {
        WritesWhenItMay(known, token, phone.value, key, now);
      }
    }
  }

  lemma SamePlace(st: Store, known: Store, license: Id, desktop: Id)
    requires license in st.licenses && known == st.(devices := known.devices, nextId := known.nextId)
    ensures MayPair(known, license, desktop) <==> MayPair(st, license, desktop)
  {
  }

  /** Only the tokens of the replaced phone are revoked, and none if it is the same phone again. */
  ghost predicate OnlyEvicts(a: map<Id, RefreshToken>, b: map<Id, RefreshToken>, evicted: Id, mobile: Id) {
    if evicted == mobile then b == a
    else
      && b.Keys == a.Keys && AllRevoked(b, evicted)
      && forall t | t in a && (a[t].device != evicted || a[t].revokedAt != 0) :: b[t] == a[t]
  }

  /** The pairing keeps all but its phone, or is new with just the token's data. */
  predicate PairWritten(before: map<Id, Pairing>, p: Pairing, pair: Id, pt: PairingToken, now: Time) {
    if pair in before then p == before[pair].(mobile := p.mobile, desktop := pt.desktop)
    else p == Pairing(pt.license, pt.account, p.mobile, pt.desktop, PairingActive, now)
  }

  lemma FinishTouches(st: Store, token: Id, mobile: Id, key: seq<nat>, now: Time)
    requires Sound(st) && token in st.tokens && mobile in st.devices && now != 0
    ensures var (after, pair) := Finish(st, token, mobile, key, now);
            var pt := st.tokens[token];
            && pair in after.pairings && PairWritten(st.pairings, after.pairings[pair], pair, pt, now)
            && (pair in st.pairings ==> OnlyEvicts(st.refresh, after.refresh, st.pairings[pair].mobile, mobile))
            && (pair !in st.pairings ==> after.refresh == st.refresh)
            && after.tokens == st.tokens[token := pt.(consumedAt := now, resultPair := pair)]
            && after.devices == st.devices[mobile := st.devices[mobile].(key := key)]
            && pair in after.creds && after.creds == st.creds[pair := after.creds[pair]]
            && after.creds[pair].secret >= st.nextId
            && after.creds[pair] ==
               Credential(pt.account, pt.license, mobile, after.creds[pair].secret, now, 0)
  {
    assert st.nextId !in st.pairings;
    var reuse := PairedWith(st.pairings, st.tokens[token].license, st.tokens[token].desktop);
    if reuse != {} {
      assert MinOf(reuse) in reuse && MinOf(reuse) in st.pairings;
      RevokingOnly(st.refresh, st.pairings[MinOf(reuse)].mobile, now);
    }
    hide Sound, PairedWith, MinOf, RevokeByDevice, AllRevoked;
  }

  lemma RevokingOnly(refresh: map<Id, RefreshToken>, device: Id, now: Time)
    requires now != 0
    ensures var after := RevokeByDevice(refresh, device, now);
            && after.Keys == refresh.Keys && AllRevoked(after, device)
            && forall t | t in refresh && (refresh[t].device != device || refresh[t].revokedAt != 0) ::
                 after[t] == refresh[t]
  {
  }

  /**
   What a successful completion writes, all of it: the pairing with its phone, the phone's
   key, the spent token, a credential with a secret drawn now, and, only if the desktop's
   pairing had another phone, the revocation of that phone's tokens.
   */
  lemma CompletionWrites(st: Store, config: Config, token: Id, mobile: Option<Id>, key: seq<nat>, now: Time)
    requires Sound(st) && now != 0
    ensures var (after, pair) := CompletePairing(st, config, token, mobile, key, now);
            pair.Some? ==>
              && token in st.tokens && pair.value in after.pairings
              && var pt, p := st.tokens[token], after.pairings[pair.value];
                 && PairWritten(st.pairings, p, pair.value, pt, now)
                 && (pair.value in st.pairings ==>
                       OnlyEvicts(st.refresh, after.refresh, st.pairings[pair.value].mobile, p.mobile))
                 && (pair.value !in st.pairings ==> after.refresh == st.refresh)
                 && after.tokens == st.tokens[token := pt.(consumedAt := now, resultPair := pair.value)]
                 && pair.value in after.creds && after.creds == st.creds[pair.value := after.creds[pair.value]]
                 && after.creds[pair.value].secret >= st.nextId
                 && after.creds[pair.value] ==
                    Credential(pt.account, pt.license, p.mobile, after.creds[pair.value].secret, now, 0)
                 && p.mobile in after.devices && after.devices[p.mobile].key == key
  {
    var (after, pair) := CompletePairing(st, config, token, mobile, key, now);
    if pair.Some? {
      CompletionFinishes(st, config, token, mobile, key, now);
      var (known, phone) := ResolveMobile(st, config, st.tokens[token].account, mobile, key, now);
      ResolveMobileSound(st, config, st.tokens[token].account, mobile, key, now);
      hide Sound, Finish, ResolveMobile, CompletePairing, OnlyEvicts;
      FinishTouches(known, token, phone.value, key, now);
      FinishMeans(known, token, phone.value, key, now);
      PhoneIsPaired(after.pairings[pair.value], st.tokens[token], phone.value);
    }
  }

  // ---------------------------------------------------------------------------
  // Unpairing
  // ---------------------------------------------------------------------------

  /** The caller speaks for the pairing: as its account, or with the live secret of the pair. */
  predicate SpeaksFor(st: Store, caller: Caller, pair: Id) {
    && pair in st.pairings
    && match caller
       case ByAccount(account) => account == st.pairings[pair].account
       case ByPair(bearer, secret) =>
         && bearer == pair && pair in st.creds && st.creds[pair].revokedAt == 0 && st.creds[pair].secret == secret
         && st.creds[pair].account == st.pairings[pair].account
  }

  /**
   A pairing is undone exactly for those who speak for it: it is revoked, no secret of the
   pair is good any more, and nothing else changes; for anyone else nothing changes at all.
   */
  lemma UndoneExactlyWhen(st: Store, caller: Caller, pair: Id, now: Time, secret: Id)
    requires now != 0
    ensures var (after, ok) := Unpair(st, caller, pair, now);
            && (ok <==> SpeaksFor(st, caller, pair))
            && (!ok ==> after == st)
            && (ok ==>
                  && after.pairings == st.pairings[pair := st.pairings[pair].(status := PairingRevoked)]
                  && Authenticate(after, ByPair(pair, secret)) == None
                  && after.creds.Keys == st.creds.Keys
                  && forall p | p in st.creds && p != pair :: after.creds[p] == st.creds[p])
  {
  }

  // ---------------------------------------------------------------------------
  // Open licenses
  // ---------------------------------------------------------------------------

  predicate ActiveOf(licenses: map<Id, License>, account: Id, l: Id) {
    l in licenses && licenses[l].account == account && licenses[l].status == LicenseActive
  }

  /**
   Without billing an account gets its first active license, or a new one for one pairing,
   under a subscription of its own that stays in good standing.
   */
  lemma OpenLicenseMeans(st: Store, account: Id, now: Time, keys: seq<Id>, later: Time)
    ensures var (after, license) := OpenLicense(st, account, now, keys);
            && ActiveOf(after.licenses, account, license)
            && ((exists l | l in st.licenses :: ActiveOf(st.licenses, account, l)) ==>
                  after == st && forall l :: ActiveOf(st.licenses, account, l) ==> license <= l)
            && ((forall l :: !ActiveOf(st.licenses, account, l)) ==>
                  && license !in st.licenses && after.licenses == st.licenses[license := after.licenses[license]]
                  && var sub := after.licenses[license].sub;
                     && sub in after.subs && after.subs[sub].account == account && after.subs[sub].maxPairs == 1
                     && InGoodStanding(after.subs[sub], later))
  {
    assert forall l :: l in ActiveLicenses(st.licenses, account) <==> ActiveOf(st.licenses, account, l);
    if l :| l in st.licenses && ActiveOf(st.licenses, account, l) {
      assert l in ActiveLicenses(st.licenses, account);
    }
    if ActiveLicenses(st.licenses, account) != {} {
      assert MinOf(ActiveLicenses(st.licenses, account)) in ActiveLicenses(st.licenses, account);
    }
    hide MinOf, ActiveLicenses, DrawKey;
  }

  // ---------------------------------------------------------------------------
  // How long tokens are good for
  // ---------------------------------------------------------------------------

  /** Refresh and pairing tokens stay on record; only when they were revoked or spent may change. */
  ghost predicate TokensStay(a: Store, b: Store) {
    && (forall t | t in a.refresh ::
          t in b.refresh && b.refresh[t] == a.refresh[t].(revokedAt := b.refresh[t].revokedAt))
    && (forall t | t in a.tokens ::
          t in b.tokens && b.tokens[t] ==
            a.tokens[t].(consumedAt := b.tokens[t].consumedAt, resultPair := b.tokens[t].resultPair))
  }

  lemma SameTokensStay(a: Store, b: Store)
    requires b.refresh == a.refresh && b.tokens == a.tokens
    ensures TokensStay(a, b)
  {
  }

  lemma TokensStayChains(a: Store, b: Store, c: Store)
    requires TokensStay(a, b) && TokensStay(b, c)
    ensures TokensStay(a, c)
  {
  }

  lemma KeyedTokensStay(st: Store, token: Id, mobile: Id, key: seq<nat>, pair: Id, now: Time)
    requires token in st.tokens && mobile in st.devices
    ensures TokensStay(st, Keyed(st, token, mobile, key, pair, now))
  {
  }

  lemma PairTokensStay(st: Store, pt: PairingToken, mobile: Id, now: Time)
    ensures TokensStay(st, Pair(st, pt, mobile, now).0)
  {
    var reuse := PairedWith(st.pairings, pt.license, pt.desktop);
    SameTokensStay(st, st.(pairings := Pair(st, pt, mobile, now).0.pairings));
    if reuse != {} {
      assert MinOf(reuse) in reuse && MinOf(reuse) in st.pairings;
      RevokingStays(st.refresh, st.pairings[MinOf(reuse)].mobile, now);
    }
    hide MinOf, PairedWith, UpdatePairingDevices, NewPairing, RevokeByDevice;
  }

  lemma RevokingStays(refresh: map<Id, RefreshToken>, device: Id, now: Time)
    ensures var after := RevokeByDevice(refresh, device, now);
            forall t | t in refresh :: t in after && after[t] == refresh[t].(revokedAt := after[t].revokedAt)
  {
  }

  lemma FinishTokensStay(st: Store, token: Id, mobile: Id, key: seq<nat>, now: Time)
    requires token in st.tokens && mobile in st.devices
    ensures TokensStay(st, Finish(st, token, mobile, key, now).0) && TokensStay(st, Spent(st, token, mobile, key, now))
  {
    var pt := st.tokens[token];
    var keyed := Keyed(st, token, mobile, key, ResultPair(st, pt), now);
    var (paired, pair) := Pair(keyed, pt, mobile, now);
    KeyedTokensStay(st, token, mobile, key, ResultPair(st, pt), now);
    KeyedTokensStay(st, token, mobile, key, st.nextId, now);
    PairTokensStay(keyed, pt, mobile, now);
    TokensStayChains(st, keyed, paired);
    hide Keyed, Pair, ResultPair;
  }

  lemma CompleteTokensStay(st: Store, config: Config, token: Id, mobile: Option<Id>, key: seq<nat>, now: Time)
    ensures TokensStay(st, CompletePairing(st, config, token, mobile, key, now).0)
  {
    SameTokensStay(st, st);
    if token in st.tokens {
      var (known, phone) := ResolveMobile(st, config, st.tokens[token].account, mobile, key, now);
      SameTokensStay(st, known);
      if phone.Some? {
        FinishTokensStay(known, token, phone.value, key, now);
        TokensStayChains(st, known, Finish(known, token, phone.value, key, now).0);
        TokensStayChains(st, known, Spent(known, token, phone.value, key, now));
      }
    }
    hide TokensStay, ResolveMobile, Finish, Spent, LicenseIssuable, MayPair, InsertAccepted;
  }

  lemma RefreshTokensStay(st: Store, config: Config, token: Id, now: Time)
    requires Drawn(st)
    ensures TokensStay(st, RefreshTokens(st, config, token, now).0)
  {
    hide MayConnect;
  }

  lemma NewTokenStays(
      st: Store, config: Config, account: Id, license: Id, desktop: Id, key: Option<seq<nat>>, now: Time)
    requires Drawn(st)
    ensures TokensStay(st, CreatePairingToken(st, config, account, license, desktop, key, now).0)
  {
    TokenMadeIs(st, config, account, license, desktop, key, now);
    hide CreatePairingToken;
  }

  lemma IssueStays(st: Store, config: Config, caller: Caller, device: Id, pair: Id, now: Time)
    requires Drawn(st)
    ensures TokensStay(st, IssueToken(st, config, caller, device, pair, now).0)
  {
    hide Authenticate, MayConnect;
  }

  lemma FramedStays(st: Store, after: Store)
    requires BillFrame(st, after)
    ensures TokensStay(st, after) && after.devices == st.devices
  {
    hide OnlyRevoked, LicensesKeepAccount;
    SameTokensStay(st, after);
  }

  /** Calls that touch neither kind of token. */
  lemma BystanderStays(st: Store, settings: Settings, c: Timed)
    requires c.call.Register? || c.call.Leave?
    ensures TokensStay(st, Step(st, settings, c))
  {
    hide RegisterOrFind, Unpair, TokensStay;
    SameTokensStay(st, Step(st, settings, c));
  }

  lemma StepTokensStay(st: Store, settings: Settings, c: Timed)
    requires Sound(st)
    ensures TokensStay(st, Step(st, settings, c))
  {
    assert Drawn(st);
    SameTokensStay(st, st);
    hide Sound, Drawn, TokensStay, BillFrame;
    if c.call.Register? || c.call.Leave? {
      hide Step;
      BystanderStays(st, settings, c);
    } else {
      hide CreatePairingToken, CompletePairing, IssueToken, RefreshTokens, OpenLicense, BillingRuns.Apply;
      match c.call
      case NewToken(account, license, desktop, key) =>
        NewTokenStays(st, settings.config, account, license, desktop, key, c.now);
      case Complete(token, mobile, key) => CompleteTokensStay(st, settings.config, token, mobile, key, c.now);
      case Issue(caller, device, pair) => IssueStays(st, settings.config, caller, device, pair, c.now);
      case Refresh(token) => RefreshTokensStay(st, settings.config, token, c.now);
      case Open(account, keys) =>
        OpenIsFramed(st, account, c.now, keys);
        FramedStays(st, OpenLicense(st, account, c.now, keys).0);
      case Bill(world, event) =>
        if !event.Elsewhere? {
          var e := BillingRuns.Entry(c.now, world, event);
          BillIsFramed(st, e, settings.grace);
          FramedStays(st, BillingRuns.Apply(st, e, settings.grace));
        }
    }
  }

  lemma {:induction false} RunTokensStay(st: Store, settings: Settings, calls: seq<Timed>)
    requires Sound(st)
    ensures TokensStay(st, Run(st, settings, calls))
    decreases |calls|
  {
    SameTokensStay(st, st);
    hide Sound, Step, TokensStay;
    if calls != [] {
      var next := Step(st, settings, calls[0]);
      StepSound(st, settings, calls[0]);
      StepTokensStay(st, settings, calls[0]);
      RunTokensStay(next, settings, calls[1..]);
      TokensStayChains(st, next, Run(next, settings, calls[1..]));
    }
  }

  /** What an issuance hands out: a fresh, live token of just this device and pair. */
  lemma IssuedIs(st: Store, config: Config, caller: Caller, device: Id, pair: Id, now: Time)
    ensures var (after, t) := IssueToken(st, config, caller, device, pair, now);
            t.Some? ==>
              && t.value == st.nextId && t.value in after.refresh
              && var rt := after.refresh[t.value];
                 && rt.device == device && rt.pair == pair && rt.revokedAt == 0
                 && rt.expiresAt == now + config.refreshTtl
  {
    hide MayConnect, Authenticate;
  }

  /** What a rotation hands out: a fresh, live token of the old one's device and pair. */
  lemma RotatedIs(st: Store, config: Config, token: Id, now: Time)
    ensures var (after, t) := RefreshTokens(st, config, token, now);
            t.Some? ==>
              && token in st.refresh && t.value == st.nextId && t.value in after.refresh
              && var rt := after.refresh[t.value];
                 && rt.device == st.refresh[token].device && rt.pair == st.refresh[token].pair && rt.revokedAt == 0
                 && rt.expiresAt == now + config.refreshTtl
  {
    hide MayConnect;
  }

  /** A token of this device and pair that was handed out at `now` and has not been revoked since. */
  lemma TokenLives(st: Store, settings: Settings, after: seq<Timed>, t: Id, now: Time, later: Time)
    requires Sound(st) && RefreshRight(st)
    requires t in st.refresh && st.refresh[t].expiresAt == now + settings.config.refreshTtl
    ensures var end := Run(st, settings, after);
            && t in end.refresh
            && (RefreshTokens(end, settings.config, t, later).1.Some? <==>
                && end.refresh[t].revokedAt == 0 && later < now + settings.config.refreshTtl
                && Entitled(end, settings.config, st.refresh[t].device, st.refresh[t].pair, later))
  {
    var end := Run(st, settings, after);
    RunTokensStay(st, settings, after);
    RunSound(st, settings, after);
    RunRight(st, settings, after);
    hide Run, Sound, RefreshRight, RefreshTokens, Entitled;
    RefreshedExactlyWhenEntitled(end, settings.config, t, later);
  }

  /**
   After any serial run: a token issued at `now` is for the device and pair asked for, and at
   any time of any continuation it can be refreshed exactly while it is not revoked, its
   lifetime has not passed since `now`, and its device is entitled.
   */
  lemma {:induction false} IssuedTokenLives(
      settings: Settings, before: seq<Timed>, caller: Caller, device: Id, pair: Id, now: Time, after: seq<Timed>,
      later: Time)
    ensures var (issued, t) :=
              IssueToken(Run(EmptyStore(), settings, before), settings.config, caller, device, pair, now);
            var end := Run(issued, settings, after);
            t.Some? ==>
              && t.value in end.refresh
              && (RefreshTokens(end, settings.config, t.value, later).1.Some? <==>
                  && end.refresh[t.value].revokedAt == 0 && later < now + settings.config.refreshTtl
                  && Entitled(end, settings.config, device, pair, later))
  {
    var st := Run(EmptyStore(), settings, before);
    RunSound(EmptyStore(), settings, before);
    RunRight(EmptyStore(), settings, before);
    IssueSound(st, settings.config, caller, device, pair, now);
    IssueRight(st, settings.config, caller, device, pair, now);
    IssuedIs(st, settings.config, caller, device, pair, now);
    hide Run, Sound, RefreshRight, RefreshTokens, Entitled, IssueToken;
    var (issued, t) := IssueToken(st, settings.config, caller, device, pair, now);
    if t.Some? {
      TokenLives(issued, settings, after, t.value, now, later);
    }
  }

  /** The same for a token that a refresh hands out: it is for the old token's device and pair. */
  lemma {:induction false} RotatedTokenLives(
      settings: Settings, before: seq<Timed>, token: Id, now: Time, after: seq<Timed>, later: Time)
    ensures var st := Run(EmptyStore(), settings, before);
            var (rotated, t) := RefreshTokens(st, settings.config, token, now);
            var end := Run(rotated, settings, after);
            t.Some? ==>
              && token in st.refresh && t.value in end.refresh
              && (RefreshTokens(end, settings.config, t.value, later).1.Some? <==>
                  && end.refresh[t.value].revokedAt == 0 && later < now + settings.config.refreshTtl
                  && Entitled(end, settings.config, st.refresh[token].device, st.refresh[token].pair, later))
  {
    var st := Run(EmptyStore(), settings, before);
    RunSound(EmptyStore(), settings, before);
    RunRight(EmptyStore(), settings, before);
    RefreshSound(st, settings.config, token, now);
    JudgedRight(st, settings.config, token, now);
    RotatedIs(st, settings.config, token, now);
    hide Run, Sound, RefreshRight, RefreshTokens, Entitled;
    var (rotated, t) := RefreshTokens(st, settings.config, token, now);
    if t.Some? {
      TokenLives(rotated, settings, after, t.value, now, later);
    }
  }

  /**
   After any serial run: a pairing token made at `now` completes a pairing at any time of any
   continuation exactly while it is unspent, its lifetime has not passed since `now`, and the
   rest of what a completion asks for holds.
   */
  lemma {:induction false} PairingTokenLives(
      settings: Settings, before: seq<Timed>, account: Id, license: Id, desktop: Id, desktopKey: Option<seq<nat>>,
      now: Time, after: seq<Timed>, mobile: Option<Id>, key: seq<nat>, later: Time)
    ensures var st := Run(EmptyStore(), settings, before);
            var (made, token) :=
              CreatePairingToken(st, settings.config, account, license, desktop, desktopKey, now);
            var end := Run(made, settings, after);
            token.Some? ==>
              && token.value in end.tokens
              && (CompletePairing(end, settings.config, token.value, mobile, key, later).1.Some? <==>
                  && end.tokens[token.value].consumedAt == 0 && later < now + settings.config.pairingTokenTtl
                  && Completable(end, settings.config, account, license, desktop, mobile, key, later))
  {
    var st := Run(EmptyStore(), settings, before);
    var (made, token) := CreatePairingToken(st, settings.config, account, license, desktop, desktopKey, now);
    RunSound(EmptyStore(), settings, before);
    NewTokenSound(st, settings.config, account, license, desktop, desktopKey, now);
    TokenMadeIs(st, settings.config, account, license, desktop, desktopKey, now);
    RunTokensStay(made, settings, after);
    RunSound(made, settings, after);
    hide Run, Sound, CreatePairingToken, CompletePairing, Completable;
    if token.Some? {
      CompletesExactlyWhen(Run(made, settings, after), settings.config, token.value, mobile, key, later);
    }
  }

  // ---------------------------------------------------------------------------
  // What a refresh leaves behind
  // ---------------------------------------------------------------------------

  /** Only this token changed, and it is revoked now. */
  ghost predicate OnlyRevokes(a: map<Id, RefreshToken>, b: map<Id, RefreshToken>, token: Id) {
    && token in a && a.Keys <= b.Keys && b[token].revokedAt != 0
    && forall t | t in a && t != token :: b[t] == a[t]
  }

  /**
   A granted refresh revokes the old token and adds the new one. A live token whose device is
   no longer entitled is revoked; an expired or unknown one changes nothing; one that was
   revoked before takes all tokens of its device with it, and no others.
   */
  lemma RefreshLeaves(st: Store, config: Config, token: Id, now: Time)
    requires Sound(st) && RefreshRight(st) && now != 0
    ensures var (after, t) := RefreshTokens(st, config, token, now);
            && (t.Some? ==> OnlyRevokes(st.refresh, after.refresh, token)
                            && after.refresh.Keys == st.refresh.Keys + {t.value})
            && (token !in st.refresh ==> after == st)
            && (token in st.refresh && t.None? ==>
                  var rt := st.refresh[token];
                  && after.refresh.Keys == st.refresh.Keys
                  && (rt.revokedAt == 0 && now < rt.expiresAt ==> OnlyRevokes(st.refresh, after.refresh, token))
                  && (rt.revokedAt == 0 && rt.expiresAt <= now ==> after == st)
                  && (rt.revokedAt != 0 ==>
                        && AllRevoked(after.refresh, rt.device)
                        && forall x | x in st.refresh && st.refresh[x].device != rt.device ::
                             after.refresh[x] == st.refresh[x]))
  {
    assert st.nextId !in st.refresh;
    if token in st.refresh {
      assert TokenRight(st.pairings, st.devices, st.refresh[token]);
    }
    hide Sound, RefreshRight, MayConnect;
  }

  // ---------------------------------------------------------------------------
  // The device cap
  // ---------------------------------------------------------------------------

  /** Every account has at most `cap` devices. */
  ghost predicate WithinCap(devices: map<Id, Device>, cap: nat) {
    forall account :: |DevicesOf(devices, account)| <= cap
  }

  /** Devices keep their account. */
  ghost predicate SameAccounts(a: map<Id, Device>, b: map<Id, Device>) {
    a.Keys == b.Keys && forall d | d in a :: b[d].account == a[d].account
  }

  lemma SameAccountsCap(a: map<Id, Device>, b: map<Id, Device>, cap: nat)
    requires WithinCap(a, cap) && SameAccounts(a, b)
    ensures WithinCap(b, cap)
  {
    forall account ensures DevicesOf(b, account) == DevicesOf(a, account) {
    }
    hide DevicesOf;
  }

  lemma RegisterCap(st: Store, config: Config, account: Id, role: Role, key: seq<nat>, now: Time)
    requires Drawn(st) && WithinCap(st.devices, config.deviceCap)
    ensures WithinCap(RegisterOrFind(st, config, account, role, key, now).0.devices, config.deviceCap)
  {
    var after := RegisterOrFind(st, config, account, role, key, now).0.devices;
    RegistersExactlyWhen(st, config, account, role, key, now);
    hide RegisterOrFind, Known, KeyOnFile;
    if after != st.devices {
      assert after == st.devices[st.nextId := Device(account, role, key, now)] && st.nextId !in st.devices;
      forall a ensures |DevicesOf(after, a)| <= config.deviceCap {
        assert DevicesOf(after, a) == DevicesOf(st.devices, a) + if a == account then {st.nextId} else {};
        assert DevicesOf(st.devices, a) == set d | d in st.devices && st.devices[d].account == a;
      }
    }
  }

  lemma ResolveCap(st: Store, config: Config, account: Id, mobile: Option<Id>, key: seq<nat>, now: Time)
    requires Drawn(st) && WithinCap(st.devices, config.deviceCap)
    ensures WithinCap(ResolveMobile(st, config, account, mobile, key, now).0.devices, config.deviceCap)
  {
    RegisterCap(st, config, account, Mobile, key, now);
    hide RegisterOrFind, WithinCap, Drawn;
  }

  lemma WriteOutCap(st: Store, token: Id, mobile: Id, key: seq<nat>, maxPairs: nat, now: Time, cap: nat)
    requires token in st.tokens && mobile in st.devices && WithinCap(st.devices, cap)
    ensures WithinCap(WriteOut(st, token, mobile, key, maxPairs, now).0.devices, cap)
  {
    var keyed := st.devices[mobile := st.devices[mobile].(key := key)];
    SameAccountsCap(st.devices, keyed, cap);
    KeyedDevices(st, token, mobile, key, ResultPair(st, st.tokens[token]), now);
    KeyedDevices(st, token, mobile, key, st.nextId, now);
    hide WithinCap, InsertAccepted, Keyed, Pair, ResultPair;
    assert WriteOut(st, token, mobile, key, maxPairs, now).0.devices == keyed;
  }

  lemma KeyedDevices(st: Store, token: Id, mobile: Id, key: seq<nat>, pair: Id, now: Time)
    requires token in st.tokens && mobile in st.devices
    ensures Keyed(st, token, mobile, key, pair, now).devices ==
            st.devices[mobile := st.devices[mobile].(key := key)]
  {
  }

  lemma CompleteCap(st: Store, config: Config, token: Id, mobile: Option<Id>, key: seq<nat>, now: Time)
    requires Drawn(st) && WithinCap(st.devices, config.deviceCap)
    ensures WithinCap(CompletePairing(st, config, token, mobile, key, now).0.devices, config.deviceCap)
  {
    hide WithinCap, Drawn, ResolveMobile, WriteOut, LicenseIssuable, MayPair;
    if token in st.tokens {
      var account := st.tokens[token].account;
      var (known, phone) := ResolveMobile(st, config, account, mobile, key, now);
      ResolveCap(st, config, account, mobile, key, now);
      if phone.Some? {
        WriteOutCap(known, token, phone.value, key, LimitOf(known, st.tokens[token].license), now, config.deviceCap);
      }
    }
  }

  lemma NewTokenCap(st: Store, config: Config, account: Id, license: Id, desktop: Id, key: Option<seq<nat>>, now: Time)
    requires WithinCap(st.devices, config.deviceCap)
    ensures WithinCap(CreatePairingToken(st, config, account, license, desktop, key, now).0.devices, config.deviceCap)
  {
    SameAccountsCap(st.devices, CreatePairingToken(st, config, account, license, desktop, key, now).0.devices,
                    config.deviceCap);
    hide WithinCap, LicenseIssuable, MayPair;
  }

  lemma StepCap(st: Store, settings: Settings, c: Timed)
    requires Sound(st) && WithinCap(st.devices, settings.config.deviceCap)
    ensures WithinCap(Step(st, settings, c).devices, settings.config.deviceCap)
  {
    assert Drawn(st);
    hide Sound, Drawn, WithinCap, BillFrame;
    hide RegisterOrFind, CreatePairingToken, CompletePairing, Unpair, IssueToken, RefreshTokens, OpenLicense,
      BillingRuns.Apply;
    match c.call
    case Register(account, role, key) => RegisterCap(st, settings.config, account, role, key, c.now);
    case NewToken(account, license, desktop, key) =>
      NewTokenCap(st, settings.config, account, license, desktop, key, c.now);
    case Complete(token, mobile, key) => CompleteCap(st, settings.config, token, mobile, key, c.now);
    case Leave(_, _) =>
    case Issue(_, _, _) =>
    case Refresh(_) =>
    case Open(account, keys) =>
      OpenIsFramed(st, account, c.now, keys);
      FramedStays(st, OpenLicense(st, account, c.now, keys).0);
    case Bill(world, event) =>
      if !event.Elsewhere? {
        var e := BillingRuns.Entry(c.now, world, event);
        BillIsFramed(st, e, settings.grace);
        FramedStays(st, BillingRuns.Apply(st, e, settings.grace));
      }
  }

  lemma {:induction false} RunCap(st: Store, settings: Settings, calls: seq<Timed>)
    requires Sound(st) && WithinCap(st.devices, settings.config.deviceCap)
    ensures WithinCap(Run(st, settings, calls).devices, settings.config.deviceCap)
    decreases |calls|
  {
    hide Sound, Step, WithinCap;
    if calls != [] {
      StepSound(st, settings, calls[0]);
      StepCap(st, settings, calls[0]);
      RunCap(Step(st, settings, calls[0]), settings, calls[1..]);
    }
  }

  /** After any serial run no account has more devices than the cap. */
  lemma {:induction false} DeviceCapHolds(settings: Settings, calls: seq<Timed>, account: Id)
    ensures |DevicesOf(Run(EmptyStore(), settings, calls).devices, account)| <= settings.config.deviceCap
  {
    assert WithinCap(EmptyStore().devices, settings.config.deviceCap) by {
      assert forall a :: DevicesOf(EmptyStore().devices, a) == {};
    }
    RunCap(EmptyStore(), settings, calls);
  }
}
