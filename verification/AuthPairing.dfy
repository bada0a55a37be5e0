/**
 What a completed pairing amounts to: the pairing it leaves, the phone it locks out, and
 the accounts that refresh tokens stay in.
 */
module AuthPairing {
  import opened Options
  import opened Roles
  import opened AuthStore
  import opened Entitlement
  import opened Billing
  import opened BillingSync
  import BillingRuns
  import opened AuthHandlers
  import opened AuthSerial

  // ---------------------------------------------------------------------------
  // The pairing a completion leaves
  // ---------------------------------------------------------------------------

  /** The pairing is the token's: its desktop, license and account, with this phone. */
  predicate PairedAs(p: Pairing, pt: PairingToken, mobile: Id) {
    && p.status == PairingActive && p.license == pt.license && p.account == pt.account
    && p.desktop == pt.desktop && p.mobile == mobile
  }

  /** Only the one pairing changed, and it was the desktop's own or is new. */
  ghost predicate OnlyThisPair(before: map<Id, Pairing>, after: map<Id, Pairing>, pt: PairingToken, pair: Id) {
    && after.Keys == before.Keys + {pair}
    && (forall q | q in before && q != pair :: after[q] == before[q])
    && (pair in before ==> ActiveFor(before[pair], pt.license) && before[pair].desktop == pt.desktop)
  }

  lemma FinishMeans(st: Store, token: Id, mobile: Id, key: seq<nat>, now: Time)
    requires Sound(st) && token in st.tokens && mobile in st.devices
    ensures var (after, pair) := Finish(st, token, mobile, key, now);
            var pt := st.tokens[token];
            && pair in after.pairings && PairedAs(after.pairings[pair], pt, mobile)
            && OnlyThisPair(st.pairings, after.pairings, pt, pair)
            && mobile in after.devices && after.devices[mobile].key == key
            && token in after.tokens && after.tokens[token].consumedAt == now && after.tokens[token].resultPair == pair
            && pair in after.creds && after.creds[pair].secret >= st.nextId
  {
    var pt := st.tokens[token];
    var keyed := Keyed(st, token, mobile, key, ResultPair(st, st.tokens[token]), now);
    assert st.nextId !in st.pairings && TokenOwned(st.licenses, st.devices, pt);
    PairMeans(keyed, pt, mobile, now) by {
      assert keyed.licenses == st.licenses && keyed.pairings == st.pairings;
      assert forall p | p in st.pairings :: PairOwned(st.licenses, st.devices, st.pairings[p]);
    }
    hide Sound, PairedWith, MinOf, Pair, PairedAs, OnlyThisPair, TokenOwned;
  }

  /** Pairings and tokens of one license have one account. */
  lemma PairMeans(st: Store, pt: PairingToken, mobile: Id, now: Time)
    requires st.nextId !in st.pairings && pt.license in st.licenses && st.licenses[pt.license].account == pt.account
    requires forall p | p in st.pairings && st.pairings[p].license == pt.license :: st.pairings[p].account == pt.account
    ensures var (paired, pair) := Pair(st, pt, mobile, now);
            var reuse := PairedWith(st.pairings, pt.license, pt.desktop);
            && pair == (if reuse != {} then MinOf(reuse) else st.nextId)
            && pair in paired.pairings && PairedAs(paired.pairings[pair], pt, mobile)
            && OnlyThisPair(st.pairings, paired.pairings, pt, pair)
  {
    hide RevokeByDevice;
  }

  /** A consumed token completes nothing. */
  lemma UsedTokenIsRefused(st: Store, config: Config, token: Id, mobile: Option<Id>, key: seq<nat>, now: Time)
    requires token in st.tokens && st.tokens[token].consumedAt != 0
    ensures CompletePairing(st, config, token, mobile, key, now) == (st, None)
  {
  }

  /**
   A completion that succeeds leaves one active pairing of the token's desktop, license and
   account with the phone, whose key is stored; the token records it and is spent, so that it
   completes nothing again; and no other pairing is touched.
   */
  lemma CompletionMeans(st: Store, config: Config, token: Id, mobile: Option<Id>, key: seq<nat>, now: Time,
                        again: Option<Id>, otherKey: seq<nat>, later: Time)
    requires Sound(st) && now != 0
    ensures var (after, pair) := CompletePairing(st, config, token, mobile, key, now);
            pair.Some? ==>
              && token in st.tokens && pair.value in after.pairings
              && var pt, p := st.tokens[token], after.pairings[pair.value];
                 && PairedAs(p, pt, p.mobile) && (mobile.Some? ==> p.mobile == mobile.value)
                 && p.mobile in after.devices && after.devices[p.mobile].key == key
                 && OnlyThisPair(st.pairings, after.pairings, pt, pair.value)
                 && token in after.tokens && after.tokens[token].resultPair == pair.value
                 && CompletePairing(after, config, token, again, otherKey, later) == (after, None)
  {
    var (after, pair) := CompletePairing(st, config, token, mobile, key, now);
    if pair.Some? {
      CompletionFinishes(st, config, token, mobile, key, now);
      var (known, phone) := ResolveMobile(st, config, st.tokens[token].account, mobile, key, now);
      ResolveMobileSound(st, config, st.tokens[token].account, mobile, key, now);
      hide Sound, Finish, ResolveMobile, CompletePairing, PairedAs, OnlyThisPair;
      FinishMeans(known, token, phone.value, key, now);
      PhoneIsPaired(after.pairings[pair.value], st.tokens[token], phone.value);
      UsedTokenIsRefused(after, config, token, again, otherKey, later);
    }
  }

  lemma PhoneIsPaired(p: Pairing, pt: PairingToken, mobile: Id)
    requires PairedAs(p, pt, mobile)
    ensures p.mobile == mobile
  {
  }

  /** Success means that every check passed and the rest was written. */
  lemma CompletionFinishes(st: Store, config: Config, token: Id, mobile: Option<Id>, key: seq<nat>, now: Time)
    requires CompletePairing(st, config, token, mobile, key, now).1.Some?
    ensures token in st.tokens
    ensures var (known, phone) := ResolveMobile(st, config, st.tokens[token].account, mobile, key, now);
            && phone.Some? && (mobile.Some? ==> phone == mobile)
            && known == st.(devices := known.devices, nextId := known.nextId) && st.nextId <= known.nextId
            && phone.value in known.devices
            && var (after, pair) := Finish(known, token, phone.value, key, now);
               CompletePairing(st, config, token, mobile, key, now) == (after, Some(pair))
  {
  }

  /** A completion that is refused has at most registered the phone: no token, pairing or credential changes. */
  lemma RefusedCompletionWritesNothing(st: Store, config: Config, token: Id, mobile: Option<Id>, key: seq<nat>,
      now: Time)
    requires Drawn(st)
    ensures var (after, pair) := CompletePairing(st, config, token, mobile, key, now);
            pair.None? ==>
              && after == st.(devices := after.devices, nextId := after.nextId)
              && DevicesKept(st.devices, after.devices)
  {
  }

  // ---------------------------------------------------------------------------
  // The phone that is replaced
  // ---------------------------------------------------------------------------

  ghost predicate SecretsDrawn(st: Store) {
    forall p | p in st.creds :: st.creds[p].secret < st.nextId
  }

  lemma FinishEvicts(st: Store, token: Id, mobile: Id, key: seq<nat>, now: Time)
    requires token in st.tokens && mobile in st.devices && now != 0
    ensures var (after, pair) := Finish(st, token, mobile, key, now);
            pair in st.pairings && pair < st.nextId && st.pairings[pair].mobile != mobile ==>
                AllRevoked(after.refresh, st.pairings[pair].mobile)
  {
  }

  lemma EvictedCannotConnect(st: Store, config: Config, caller: Caller, device: Id, pair: Id, now: Time)
    requires device in st.devices && st.devices[device].role == Mobile
    requires pair in st.pairings && st.pairings[pair].mobile != device
    ensures IssueToken(st, config, caller, device, pair, now) == (st, None)
  {
  }

  /**
   Replacing a phone locks the old one out of the pair: all its refresh tokens are revoked, no
   caller gets a token for it there, and the secret that was valid until then is refused.
   */
  lemma EvictedPhoneIsLockedOut(st: Store, config: Config, token: Id, mobile: Option<Id>, key: seq<nat>, now: Time,
                                caller: Caller, later: Time)
    requires Sound(st) && SecretsDrawn(st) && now != 0
    ensures var (after, pair) := CompletePairing(st, config, token, mobile, key, now);
            pair.Some? && pair.value in st.pairings && pair.value in after.pairings
            && st.pairings[pair.value].mobile != after.pairings[pair.value].mobile ==>
              var evicted := st.pairings[pair.value].mobile;
              && AllRevoked(after.refresh, evicted)
              && IssueToken(after, config, caller, evicted, pair.value, later) == (after, None)
              && pair.value in st.creds && Authenticate(after, ByPair(pair.value, st.creds[pair.value].secret)) == None
  {
    var (after, pair) := CompletePairing(st, config, token, mobile, key, now);
    if pair.Some? && pair.value in st.pairings && pair.value in after.pairings
       && st.pairings[pair.value].mobile != after.pairings[pair.value].mobile {
      var evicted := st.pairings[pair.value].mobile;
      CompletionFinishes(st, config, token, mobile, key, now);
      CompleteSound(st, config, token, mobile, key, now);
      assert pair.value < st.nextId && PairOwned(st.licenses, st.devices, st.pairings[pair.value]);
      var (known, phone) := ResolveMobile(st, config, st.tokens[token].account, mobile, key, now);
      ResolveMobileSound(st, config, st.tokens[token].account, mobile, key, now);
      CompletionKeepsDevices(st, config, token, mobile, key, now);
      EvictedWasAccredited(st, after, known, token, phone.value, key, now, pair.value);
      hide Sound, Finish, ResolveMobile, CompletePairing, AllRevoked;
      FinishEvicts(known, token, phone.value, key, now);
      EvictedCannotConnect(after, config, caller, evicted, pair.value, later);
    }
  }

  lemma RegisteringKeepsDevices(st: Store, config: Config, account: Id, role: Role, key: seq<nat>, now: Time)
    requires Drawn(st)
    ensures DevicesKept(st.devices, RegisterOrFind(st, config, account, role, key, now).0.devices)
  {
    hide MinOf, Matching, DevicesOf;
  }

  lemma ResolvingKeepsDevices(st: Store, config: Config, account: Id, mobile: Option<Id>, key: seq<nat>, now: Time)
    requires Drawn(st)
    ensures DevicesKept(st.devices, ResolveMobile(st, config, account, mobile, key, now).0.devices)
  {
    RegisteringKeepsDevices(st, config, account, Mobile, key, now);
    hide RegisterOrFind, Drawn;
  }

  lemma FinishKeepsDevices(st: Store, token: Id, mobile: Id, key: seq<nat>, now: Time)
    requires token in st.tokens && mobile in st.devices
    ensures DevicesKept(st.devices, Finish(st, token, mobile, key, now).0.devices)
  {
  }

  lemma WritingKeepsDevices(st: Store, token: Id, mobile: Id, key: seq<nat>, maxPairs: nat, now: Time)
    requires token in st.tokens && mobile in st.devices
    ensures DevicesKept(st.devices, WriteOut(st, token, mobile, key, maxPairs, now).0.devices)
  {
    FinishKeepsDevices(st, token, mobile, key, now);
    hide Finish, InsertAccepted;
  }

  lemma CompletionKeepsDevices(st: Store, config: Config, token: Id, mobile: Option<Id>, key: seq<nat>, now: Time)
    requires Drawn(st)
    ensures DevicesKept(st.devices, CompletePairing(st, config, token, mobile, key, now).0.devices)
  {
    hide LicenseIssuable, MayPair, WriteOut, ResolveMobile;
    if token in st.tokens {
      var account := st.tokens[token].account;
      var (known, phone) := ResolveMobile(st, config, account, mobile, key, now);
      ResolvingKeepsDevices(st, config, account, mobile, key, now);
      if phone.Some? {
        WritingKeepsDevices(known, token, phone.value, key, LimitOf(known, st.tokens[token].license), now);
      }
    }
  }

  /** The old credential was live; the new one has a secret drawn since. */
  lemma EvictedWasAccredited(st: Store, after: Store, known: Store, token: Id, phone: Id, key: seq<nat>, now: Time,
      pair: Id)
    requires Sound(st) && SecretsDrawn(st) && Sound(known)
    requires known == st.(devices := known.devices, nextId := known.nextId) && st.nextId <= known.nextId
    requires token in st.tokens && phone in known.devices
    requires (after, pair) == Finish(known, token, phone, key, now) && pair in st.pairings
    ensures after.pairings[pair].mobile == phone
    ensures pair in st.creds && Authenticate(after, ByPair(pair, st.creds[pair].secret)) == None
  {
  }

  // ---------------------------------------------------------------------------
  // Secrets are drawn fresh on every run
  // ---------------------------------------------------------------------------

  lemma CompletionSecrets(st: Store, config: Config, token: Id, mobile: Option<Id>, key: seq<nat>, now: Time)
    requires SecretsDrawn(st)
    ensures SecretsDrawn(CompletePairing(st, config, token, mobile, key, now).0)
  {
    hide LicenseIssuable, MayPair, ResolveMobile, Finish, InsertAccepted, SecretsDrawn;
    if token in st.tokens {
      var (known, phone) := ResolveMobile(st, config, st.tokens[token].account, mobile, key, now);
      SecretsStayDrawn(st, known);
      if phone.Some? {
        FinishSecrets(known, token, phone.value, key, now);
        SecretsStayDrawn(known, Spent(known, token, phone.value, key, now));
      }
    }
  }

  lemma SecretsStayDrawn(st: Store, after: Store)
    requires SecretsDrawn(st) && after.creds == st.creds && st.nextId <= after.nextId
    ensures SecretsDrawn(after)
  {
  }

  lemma FinishSecrets(st: Store, token: Id, mobile: Id, key: seq<nat>, now: Time)
    requires token in st.tokens && mobile in st.devices && SecretsDrawn(st)
    ensures SecretsDrawn(Finish(st, token, mobile, key, now).0)
  {
    hide MinOf, PairedWith, RevokeByDevice;
  }

  lemma StepSecrets(st: Store, settings: Settings, c: Timed)
    requires SecretsDrawn(st)
    ensures SecretsDrawn(Step(st, settings, c))
  {
    hide RegisterOrFind, CreatePairingToken, CompletePairing, IssueToken, RefreshTokens, OpenLicense, BillingRuns.Apply;
    match c.call
    case Register(_, _, _) =>
    case NewToken(_, _, _, _) =>
    case Complete(token, mobile, key) => CompletionSecrets(st, settings.config, token, mobile, key, c.now);
    case Leave(_, _) => hide Authenticate;
    case Issue(_, _, _) =>
    case Refresh(_) =>
    case Open(account, keys) => OpenIsFramed(st, account, c.now, keys);
    case Bill(world, event) =>
      if !event.Elsewhere? {
        BillIsFramed(st, BillingRuns.Entry(c.now, world, event), settings.grace);
      }
  }

  lemma {:induction false} RunSecrets(st: Store, settings: Settings, calls: seq<Timed>)
    requires Sound(st) && SecretsDrawn(st)
    ensures SecretsDrawn(Run(st, settings, calls))
    decreases |calls|
  {
    hide Sound, Step, SecretsDrawn;
    if calls != [] {
      StepSound(st, settings, calls[0]);
      StepSecrets(st, settings, calls[0]);
      RunSecrets(Step(st, settings, calls[0]), settings, calls[1..]);
    }
  }

  // ---------------------------------------------------------------------------
  // Refresh tokens stay in their account
  // ---------------------------------------------------------------------------

  predicate TokenRight(pairings: map<Id, Pairing>, devices: map<Id, Device>, rt: RefreshToken) {
    && rt.pair in pairings && pairings[rt.pair].account == rt.account
    && rt.device in devices && devices[rt.device].account == rt.account
  }

  ghost predicate RefreshRight(st: Store) {
    forall t | t in st.refresh :: TokenRight(st.pairings, st.devices, st.refresh[t])
  }

  ghost predicate AccountsKept(a: map<Id, Pairing>, b: map<Id, Pairing>) {
    forall p | p in a :: p in b && b[p].account == a[p].account
  }

  /** Nothing but revocation times changes. */
  ghost predicate OnlyTimes(a: map<Id, RefreshToken>, b: map<Id, RefreshToken>) {
    forall t | t in b :: t in a && b[t] == a[t].(revokedAt := b[t].revokedAt)
  }

  lemma RightSurvives(st: Store, st': Store)
    requires RefreshRight(st)
    requires AccountsKept(st.pairings, st'.pairings) && DevicesKept(st.devices, st'.devices)
    requires OnlyTimes(st.refresh, st'.refresh)
    ensures RefreshRight(st')
  {
  }

  lemma IssueRight(st: Store, config: Config, caller: Caller, device: Id, pair: Id, now: Time)
    requires RefreshRight(st)
    ensures RefreshRight(IssueToken(st, config, caller, device, pair, now).0)
  {
  }

  /** Only a token whose device still belongs to its account is rotated. */
  lemma JudgedRight(st: Store, config: Config, token: Id, now: Time)
    requires RefreshRight(st)
    ensures RefreshRight(RefreshTokens(st, config, token, now).0)
  {
  }

  lemma RevokingOnlyTimes(refresh: map<Id, RefreshToken>, device: Id, now: Time)
    ensures OnlyTimes(refresh, RevokeByDevice(refresh, device, now)) && OnlyTimes(refresh, refresh)
  {
  }

  lemma RepairKeepsAccounts(pairings: map<Id, Pairing>, pair: Id, mobile: Id, desktop: Id, unused: Id, p: Pairing)
    ensures AccountsKept(pairings, UpdatePairingDevices(pairings, pair, mobile, desktop))
    ensures unused !in pairings ==> AccountsKept(pairings, pairings[unused := p])
  {
  }

  lemma PairKeepsAccounts(st: Store, pt: PairingToken, mobile: Id, now: Time)
    requires st.nextId !in st.pairings
    ensures var paired := Pair(st, pt, mobile, now).0;
            AccountsKept(st.pairings, paired.pairings) && OnlyTimes(st.refresh, paired.refresh)
  {
    var reuse := PairedWith(st.pairings, pt.license, pt.desktop);
    assert reuse != {} ==> MinOf(reuse) in st.pairings;
    hide AccountsKept, OnlyTimes, RevokeByDevice, UpdatePairingDevices, PairedWith;
    var pair := if reuse != {} then MinOf(reuse) else st.nextId;
    var evicted := if reuse != {} && pair in st.pairings then st.pairings[pair].mobile else mobile;
    RevokingOnlyTimes(st.refresh, evicted, now);
    RepairKeepsAccounts(st.pairings, pair, mobile, pt.desktop, st.nextId,
                        Pairing(pt.license, pt.account, mobile, pt.desktop, PairingActive, now));
  }

  lemma FinishPairs(st: Store, token: Id, mobile: Id, key: seq<nat>, now: Time)
    requires token in st.tokens && mobile in st.devices
    ensures var keyed := Keyed(st, token, mobile, key, ResultPair(st, st.tokens[token]), now);
            var (paired, after) :=
              (Pair(keyed, st.tokens[token], mobile, now).0, Finish(st, token, mobile, key, now).0);
            && keyed.pairings == st.pairings && keyed.refresh == st.refresh && keyed.nextId == st.nextId
            && after.pairings == paired.pairings && after.refresh == paired.refresh
  {
  }

  lemma FinishRight(st: Store, token: Id, mobile: Id, key: seq<nat>, now: Time)
    requires Sound(st) && RefreshRight(st) && token in st.tokens && mobile in st.devices
    ensures RefreshRight(Finish(st, token, mobile, key, now).0)
  {
    assert st.nextId !in st.pairings;
    hide Finish, Keyed, AccountsKept, OnlyTimes, DevicesKept, RefreshRight, Pair;
    FinishPairs(st, token, mobile, key, now);
    FinishKeepsDevices(st, token, mobile, key, now);
    PairKeepsAccounts(Keyed(st, token, mobile, key, ResultPair(st, st.tokens[token]), now), st.tokens[token],
                      mobile, now);
    RightSurvives(st, Finish(st, token, mobile, key, now).0);
  }

  lemma CompletionRight(st: Store, config: Config, token: Id, mobile: Option<Id>, key: seq<nat>, now: Time)
    requires Sound(st) && RefreshRight(st)
    ensures RefreshRight(CompletePairing(st, config, token, mobile, key, now).0)
  {
    if token in st.tokens {
      var account := st.tokens[token].account;
      var (known, phone) := ResolveMobile(st, config, account, mobile, key, now);
      ResolvingKeepsDevices(st, config, account, mobile, key, now);
      ResolveMobileSound(st, config, account, mobile, key, now);
      hide LicenseIssuable, MayPair, Finish, ResolveMobile, RefreshRight, DevicesKept;
      RightSurvives(st, known);
      if phone.Some? {
        FinishRight(known, token, phone.value, key, now);
      }
    }
  }

  lemma LeaveRight(st: Store, caller: Caller, pair: Id, now: Time)
    requires RefreshRight(st)
    ensures RefreshRight(Unpair(st, caller, pair, now).0)
  {
  }

  lemma FramedIsRight(st: Store, st': Store)
    requires RefreshRight(st) && BillFrame(st, st')
    ensures RefreshRight(st')
  {
  }

  lemma BillRight(st: Store, e: BillingRuns.Entry, grace: Time)
    requires RefreshRight(st) && !e.event.Elsewhere?
    ensures RefreshRight(BillingRuns.Apply(st, e, grace))
  {
    hide RefreshRight, BillFrame, BillingRuns.Apply;
    BillIsFramed(st, e, grace);
    FramedIsRight(st, BillingRuns.Apply(st, e, grace));
  }

  lemma OpenRight(st: Store, account: Id, now: Time, keys: seq<Id>)
    requires RefreshRight(st)
    ensures RefreshRight(OpenLicense(st, account, now, keys).0)
  {
  }

  lemma RegisterRight(st: Store, config: Config, account: Id, role: Role, key: seq<nat>, now: Time)
    requires Drawn(st) && RefreshRight(st)
    ensures RefreshRight(RegisterOrFind(st, config, account, role, key, now).0)
  {
  }

  lemma NewTokenRight(st: Store, config: Config, account: Id, license: Id, desktop: Id, key: Option<seq<nat>>,
      now: Time)
    requires RefreshRight(st)
    ensures RefreshRight(CreatePairingToken(st, config, account, license, desktop, key, now).0)
  {
  }

  lemma StepRight(st: Store, settings: Settings, c: Timed)
    requires Sound(st) && RefreshRight(st)
    ensures RefreshRight(Step(st, settings, c))
  {
    assert Drawn(st);
    hide RegisterOrFind, CreatePairingToken, CompletePairing, IssueToken, RefreshTokens, Unpair, OpenLicense,
        BillingRuns.Apply;
    hide Sound, RefreshRight, Drawn;
    match c.call
    case Register(account, role, key) => RegisterRight(st, settings.config, account, role, key, c.now);
    case NewToken(account, license, desktop, key) =>
      NewTokenRight(st, settings.config, account, license, desktop, key, c.now);
    case Complete(token, mobile, key) => CompletionRight(st, settings.config, token, mobile, key, c.now);
    case Leave(caller, pair) => LeaveRight(st, caller, pair, c.now);
    case Issue(caller, device, pair) => IssueRight(st, settings.config, caller, device, pair, c.now);
    case Refresh(token) => JudgedRight(st, settings.config, token, c.now);
    case Open(account, keys) => OpenRight(st, account, c.now, keys);
    case Bill(world, event) =>
      if !event.Elsewhere? {
        BillRight(st, BillingRuns.Entry(c.now, world, event), settings.grace);
      }
  }

  lemma {:induction false} RunRight(st: Store, settings: Settings, calls: seq<Timed>)
    requires Sound(st) && RefreshRight(st)
    ensures RefreshRight(Run(st, settings, calls))
    decreases |calls|
  {
    hide Sound, Step, RefreshRight;
    if calls != [] {
      StepSound(st, settings, calls[0]);
      StepRight(st, settings, calls[0]);
      RunRight(Step(st, settings, calls[0]), settings, calls[1..]);
    }
  }

  /** After any serial run the pair and the device of every refresh token belong to the token's account. */
  lemma {:induction false} RefreshTokensStayInAccount(settings: Settings, calls: seq<Timed>, t: Id)
    ensures var st := Run(EmptyStore(), settings, calls);
            t in st.refresh ==>
              && st.refresh[t].pair in st.pairings && st.pairings[st.refresh[t].pair].account == st.refresh[t].account
              && st.refresh[t].device in st.devices && st.devices[st.refresh[t].device].account == st.refresh[t].account
  {
    RunRight(EmptyStore(), settings, calls);
    hide Run;
  }

  // ---------------------------------------------------------------------------
  // Who gets a token
  // ---------------------------------------------------------------------------

  /** The pairing is active, the device is its phone or its desktop, and its license is good now. */
  predicate Entitled(st: Store, config: Config, device: Id, pair: Id, now: Time) {
    && pair in st.pairings && st.pairings[pair].status == PairingActive
    && (device == st.pairings[pair].mobile || device == st.pairings[pair].desktop)
    && st.pairings[pair].license in st.licenses
    && var lic := st.licenses[st.pairings[pair].license];
       && lic.status == LicenseActive
       && (config.billing ==> lic.sub in st.subs && InGoodStanding(st.subs[lic.sub], now))
  }

  /** Between calls, membership by role and by place in the pairing are the same. */
  lemma MembersMayConnect(st: Store, config: Config, account: Id, device: Id, pair: Id, now: Time)
    requires PairsOwned(st.licenses, st.devices, st.pairings)
    requires pair in st.pairings && st.pairings[pair].account == account
    ensures MayConnect(st, config, account, device, pair, now) <==> Entitled(st, config, device, pair, now)
  {
    assert PairOwned(st.licenses, st.devices, st.pairings[pair]);
  }

  /** The account's own caller is issued a token exactly for its entitled devices. */
  lemma IssuedExactlyWhenEntitled(st: Store, config: Config, account: Id, device: Id, pair: Id, now: Time)
    requires Sound(st)
    ensures IssueToken(st, config, ByAccount(account), device, pair, now).1.Some? <==>
            pair in st.pairings && st.pairings[pair].account == account && Entitled(st, config, device, pair, now)
  {
    if pair in st.pairings && st.pairings[pair].account == account {
      MembersMayConnect(st, config, account, device, pair, now);
    }
    hide Sound, MayConnect, Entitled;
  }

  /** A bearer is issued a token exactly with the pair's live secret and for the pair's entitled phone. */
  lemma PhoneIssuedExactlyWhenEntitled(st: Store, config: Config, bearer: Id, secret: Id, device: Id, pair: Id,
      now: Time)
    requires Sound(st)
    ensures IssueToken(st, config, ByPair(bearer, secret), device, pair, now).1.Some? <==>
            && bearer == pair && pair in st.creds && st.creds[pair].revokedAt == 0 && st.creds[pair].secret == secret
            && Entitled(st, config, device, pair, now) && device == st.pairings[pair].mobile
  {
    if pair in st.pairings {
      assert st.pairings[pair].status == PairingActive ==>
          pair in st.creds && CredentialFor(st.creds[pair], st.pairings[pair]);
      MembersMayConnect(st, config, st.pairings[pair].account, device, pair, now);
    }
    hide Sound, LicenseIssuable, PairingHasDevice;
  }

  /** A refresh is granted exactly when its token is live and its device is still entitled. */
  lemma RefreshedExactlyWhenEntitled(st: Store, config: Config, token: Id, now: Time)
    requires Sound(st) && RefreshRight(st)
    ensures RefreshTokens(st, config, token, now).1.Some? <==>
            && token in st.refresh && st.refresh[token].revokedAt == 0 && now < st.refresh[token].expiresAt
            && Entitled(st, config, st.refresh[token].device, st.refresh[token].pair, now)
  {
    if token in st.refresh {
      var rt := st.refresh[token];
      assert TokenRight(st.pairings, st.devices, rt);
      MembersMayConnect(st, config, rt.account, rt.device, rt.pair, now);
    }
    hide Sound, RefreshRight, MayConnect, Entitled, Judged;
  }
}
