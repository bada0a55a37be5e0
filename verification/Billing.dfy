/**
 The billing processor: how one Stripe subscription is mirrored, provisioned and enforced.
 A handler runs at one instant. Whether publishing a revocation fails and which license keys
 are drawn is part of its input.
 */
module Billing {
  import opened Options
  import opened AuthStore
  import opened Entitlement

  /** A subscription as Stripe reports it; customer 0 stands for a missing customer. */
  datatype StripeSub = StripeSub(id: Id, customer: Id, status: SubStatus, maxPairs: nat, periodEnd: Time, item: Id)

  /** What a handler does not decide: the pairings whose announcement fails, and the keys drawn for a subscription. */
  datatype World = World(fails: set<Id>, keys: map<Id, seq<Id>>)
  {
    function KeysFor(sub: Id): seq<Id> {
      if sub in keys then keys[sub] else []
    }
  }

  // ---------------------------------------------------------------------------
  // Sorted listings
  // ---------------------------------------------------------------------------

  lemma {:induction false} MinExists(s: set<Id>) returns (m: Id)
    requires s != {}
    ensures m in s && forall x | x in s :: m <= x
    decreases |s|
  {
    var some :| some in s;
    m := some;
    if s - {some} != {} {
      var rest := MinExists(s - {some});
      m := if rest < some then rest else some;
    }
    assert s == s - {some} + {some};
  }

  function MinOf(s: set<Id>): (m: Id)
    requires s != {}
    ensures m in s && forall x | x in s :: m <= x
  {
    assert exists m :: m in s && forall x | x in s :: m <= x by {
      var m := MinExists(s);
    }
    var m :| m in s && forall x | x in s :: m <= x;
    m
  }

  /** The ids in ascending order, as the store lists its records. */
  function Sorted(s: set<Id>): (ids: seq<Id>)
    ensures forall x :: x in ids <==> x in s
    ensures forall i, j | 0 <= i < j < |ids| :: ids[i] < ids[j]
    decreases |s|
  {
    if s == {} then []
    else
      var m := MinOf(s);
      [m] + Sorted(s - {m})
  }

  /** An id above all the given ones. */
  function Above(s: set<Id>): (id: Id)
    ensures forall x | x in s :: x < id
  {
    var ids := Sorted(s);
    if ids == [] then 0 else ids[|ids| - 1] + 1
  }

  function LicensesOf(licenses: map<Id, License>, sub: Id): set<Id> {
    set l | l in licenses && licenses[l].sub == sub
  }

  // ---------------------------------------------------------------------------
  // Accounts
  // ---------------------------------------------------------------------------

  function UpsertAccount(st: Store, id: Id, customer: Id, now: Time): Store {
    st.(accounts := st.accounts[id := Account(customer, now)], customers := st.customers[customer := id])
  }

  /** The account of a customer, created when it is the customer's first event. */
  function ResolveAccount(st: Store, customer: Id, now: Time): (Store, Id) {
    if customer in st.customers then (st, st.customers[customer])
    else (UpsertAccount(st, st.nextId, customer, now).(nextId := st.nextId + 1), st.nextId)
  }

  // ---------------------------------------------------------------------------
  // Licenses
  // ---------------------------------------------------------------------------

  /** The next drawn key; keys are random, so any unused one may come up. */
  function DrawKey(used: set<Id>, keys: seq<Id>): (k: Id)
    ensures k !in used
    ensures keys != [] && keys[0] !in used ==> k == keys[0]
  {
    if keys != [] && keys[0] !in used then keys[0] else Above(used)
  }

  function Undrawn(keys: seq<Id>): seq<Id> {
    if keys == [] then [] else keys[1..]
  }

  /** `n` new licenses like `lic`, each under a drawn key. */
  function AddLicenses(licenses: map<Id, License>, lic: License, n: nat, keys: seq<Id>): map<Id, License>
    decreases n
  {
    if n == 0 then licenses
    else AddLicenses(licenses[DrawKey(licenses.Keys, keys) := lic], lic, n - 1, Undrawn(keys))
  }

  function Missing(have: nat, maxPairs: nat): nat {
    if have < maxPairs then maxPairs - have else 0
  }

  function EnsureLicenses(st: Store, sub: StripeSub, account: Id, now: Time, keys: seq<Id>): Store {
    st.(licenses := AddLicenses(st.licenses, License(account, sub.id, sub.item, LicenseActive, now),
                                Missing(|LicensesOf(st.licenses, sub.id)|, sub.maxPairs), keys))
  }

  function SetLicenseStatus(licenses: map<Id, License>, id: Id, status: LicenseStatus): map<Id, License> {
    if id in licenses then licenses[id := licenses[id].(status := status)] else licenses
  }

  /** Reactivation, license by license. */
  function ReactivateAll(licenses: map<Id, License>, ids: seq<Id>): map<Id, License>
    decreases |ids|
  {
    if ids == [] then licenses else ReactivateAll(SetLicenseStatus(licenses, ids[0], LicenseActive), ids[1..])
  }

  function Reactivate(st: Store, sub: Id): Store {
    st.(licenses := ReactivateAll(st.licenses, Sorted(LicensesOf(st.licenses, sub))))
  }

  /** Revokes and announces the pairings in turn; a failed announcement stops the handler there. */
  function CutAll(pairings: map<Id, Pairing>, ids: seq<Id>, revoke: bool, fails: set<Id>): (map<Id, Pairing>, bool)
    decreases |ids|
  {
    if ids == [] then (pairings, true)
    else
      var after := if revoke then SetPairingStatus(pairings, ids[0], PairingRevoked) else pairings;
      if ids[0] in fails then (after, false) else CutAll(after, ids[1..], revoke, fails)
  }

  /** Enforcement of one license. */
  function EnforceOne(st: Store, license: Id, revoke: bool, fails: set<Id>): (Store, bool) {
    var licenses := if revoke then SetLicenseStatus(st.licenses, license, LicenseRevoked) else st.licenses;
    var (pairings, ok) := CutAll(st.pairings, Sorted(ActivePairs(st.pairings, license)), revoke, fails);
    (st.(licenses := licenses, pairings := pairings), ok)
  }

  function EnforceAll(st: Store, ids: seq<Id>, revoke: bool, fails: set<Id>): (Store, bool)
    decreases |ids|
  {
    if ids == [] then (st, true)
    else
      var (after, ok) := EnforceOne(st, ids[0], revoke, fails);
      if ok then EnforceAll(after, ids[1..], revoke, fails) else (after, false)
  }

  function Enforce(st: Store, sub: Id, behavior: Behavior, fails: set<Id>): (Store, bool) {
    EnforceAll(st, Sorted(LicensesOf(st.licenses, sub)), behavior == Revoked, fails)
  }

  // ---------------------------------------------------------------------------
  // What is published
  // ---------------------------------------------------------------------------

  /** The pairings announced in turn, up to the first failure. */
  function CutPublished(ids: seq<Id>, fails: set<Id>): seq<Id>
    decreases |ids|
  {
    if ids == [] || ids[0] in fails then [] else [ids[0]] + CutPublished(ids[1..], fails)
  }

  function EnforcePublished(st: Store, ids: seq<Id>, revoke: bool, fails: set<Id>): seq<Id>
    decreases |ids|
  {
    if ids == [] then []
    else
      var (after, ok) := EnforceOne(st, ids[0], revoke, fails);
      CutPublished(Sorted(ActivePairs(st.pairings, ids[0])), fails) +
      if ok then EnforcePublished(after, ids[1..], revoke, fails) else []
  }

  function SubPublished(st: Store, sub: Id, behavior: Behavior, fails: set<Id>): seq<Id> {
    EnforcePublished(st, Sorted(LicensesOf(st.licenses, sub)), behavior == Revoked, fails)
  }

  // ---------------------------------------------------------------------------
  // The mirror
  // ---------------------------------------------------------------------------

  function MirrorGrace(st: Store, sub: StripeSub, now: Time, grace: Time): Time {
    var had := if sub.id in st.subs then st.subs[sub.id].graceUntil else 0;
    if sub.status != SubPastDue then 0 else if had == 0 then now + grace else had
  }

  function Mirror(st: Store, sub: StripeSub, account: Id, now: Time, grace: Time): Subscription {
    Subscription(account, sub.status, sub.maxPairs, sub.periodEnd, MirrorGrace(st, sub, now, grace), now)
  }

  /** Mirrors, provisions, then enforces or reactivates by what the mirror now evaluates to. */
  function SyncSubscription(st: Store, sub: StripeSub, account: Id, now: Time, grace: Time, w: World): (Store, bool) {
    var mirror := Mirror(st, sub, account, now, grace);
    var provisioned :=
      EnsureLicenses(st.(subs := st.subs[sub.id := mirror]), sub, account, now, w.KeysFor(sub.id));
    var behavior := Evaluate(mirror, now);
    if Enforced(behavior) then Enforce(provisioned, sub.id, behavior, w.fails)
    else (Reactivate(provisioned, sub.id), true)
  }

  function SyncPublished(st: Store, sub: StripeSub, account: Id, now: Time, grace: Time, w: World): seq<Id> {
    var mirror := Mirror(st, sub, account, now, grace);
    var provisioned :=
      EnsureLicenses(st.(subs := st.subs[sub.id := mirror]), sub, account, now, w.KeysFor(sub.id));
    var behavior := Evaluate(mirror, now);
    if Enforced(behavior) then SubPublished(provisioned, sub.id, behavior, w.fails) else []
  }

  function SubscriptionUpserted(st: Store, sub: StripeSub, now: Time, grace: Time, w: World): (Store, bool) {
    if sub.customer == 0 then (st, false)
    else
      var (st', account) := ResolveAccount(st, sub.customer, now);
      SyncSubscription(st', sub, account, now, grace, w)
  }

  function UpsertedPublished(st: Store, sub: StripeSub, now: Time, grace: Time, w: World): seq<Id> {
    if sub.customer == 0 then []
    else
      var (st', account) := ResolveAccount(st, sub.customer, now);
      SyncPublished(st', sub, account, now, grace, w)
  }

  function SubscriptionDeleted(st: Store, sub: StripeSub, now: Time, fails: set<Id>): (Store, bool) {
    if sub.customer == 0 then (st, false)
    else
      var (st', account) := ResolveAccount(st, sub.customer, now);
      var mirror := Subscription(account, SubCanceled, sub.maxPairs, 0, 0, now);
      Enforce(st'.(subs := st'.subs[sub.id := mirror]), sub.id, Revoked, fails)
  }

  function DeletedPublished(st: Store, sub: StripeSub, now: Time, fails: set<Id>): seq<Id> {
    if sub.customer == 0 then []
    else
      var (st', account) := ResolveAccount(st, sub.customer, now);
      var mirror := Subscription(account, SubCanceled, sub.maxPairs, 0, 0, now);
      SubPublished(st'.(subs := st'.subs[sub.id := mirror]), sub.id, Revoked, fails)
  }

  /** Linking a checkout; the subscription is absent when it is missing or cannot be fetched. */
  function CheckoutCompleted(st: Store, customer: Id, ref: Option<Id>, sub: Option<StripeSub>,
                             now: Time, grace: Time, w: World): (Store, bool)
  {
    if customer == 0 then (st, false)
    else
      var (resolved, account) := if ref.Some? then (st, ref.value) else ResolveAccount(st, customer, now);
      var linked := UpsertAccount(resolved, account, customer, now);
      if sub.None? then (linked, false) else SyncSubscription(linked, sub.value, account, now, grace, w)
  }

  function CheckoutPublished(st: Store, customer: Id, ref: Option<Id>, sub: Option<StripeSub>,
                             now: Time, grace: Time, w: World): seq<Id>
  {
    if customer == 0 || sub.None? then []
    else
      var (resolved, account) := if ref.Some? then (st, ref.value) else ResolveAccount(st, customer, now);
      SyncPublished(UpsertAccount(resolved, account, customer, now), sub.value, account, now, grace, w)
  }

  function PaymentFailed(st: Store, sub: Id, now: Time, grace: Time): (Store, bool) {
    if sub !in st.subs then (st, false)
    else
      var m := st.subs[sub];
      var until := if m.graceUntil == 0 then now + grace else m.graceUntil;
      (st.(subs := st.subs[sub := m.(status := SubPastDue, graceUntil := until, updatedAt := now)]), true)
  }

  /** The mirror once its invoice is paid. */
  function MirrorPaid(m: Subscription, now: Time): Subscription {
    m.(status := if m.status == SubPastDue then SubActive else m.status, graceUntil := 0, updatedAt := now)
  }

  function InvoicePaid(st: Store, sub: Id, now: Time): (Store, bool) {
    if sub !in st.subs then (st, true)
    else (Reactivate(st.(subs := st.subs[sub := MirrorPaid(st.subs[sub], now)]), sub), true)
  }

  // ---------------------------------------------------------------------------
  // Reconciliation
  // ---------------------------------------------------------------------------

  /** Heals every listed subscription in turn, going on after errors; false if there was one. */
  function ReconcileAll(st: Store, subs: seq<StripeSub>, now: Time, grace: Time, w: World): (Store, bool)
    decreases |subs|
  {
    if subs == [] then (st, true)
    else
      var (after, ok) := SubscriptionUpserted(st, subs[0], now, grace, w);
      var (last, rest) := ReconcileAll(after, subs[1..], now, grace, w);
      (last, ok && rest)
  }

  function ReconcilePublished(st: Store, subs: seq<StripeSub>, now: Time, grace: Time, w: World): seq<Id>
    decreases |subs|
  {
    if subs == [] then []
    else
      UpsertedPublished(st, subs[0], now, grace, w) +
      ReconcilePublished(SubscriptionUpserted(st, subs[0], now, grace, w).0, subs[1..], now, grace, w)
  }

  lemma JoinAssociates(a: seq<Id>, b: seq<Id>, c: seq<Id>)
    ensures a + (b + c) == a + b + c && a + [] == a && b + [] == b
  {
  }

  lemma NothingLeft(st: Store, revoke: bool, fails: set<Id>)
    ensures EnforceAll(st, [], revoke, fails) == (st, true) && EnforcePublished(st, [], revoke, fails) == []
  {
  }

  /** Enforcement from license `i` on: that license, then the rest if it went through. */
  lemma EnforceUnfolds(st: Store, ids: seq<Id>, i: nat, revoke: bool, fails: set<Id>)
    requires i < |ids|
    ensures var (after, ok) := EnforceOne(st, ids[i], revoke, fails);
            && EnforceAll(st, ids[i..], revoke, fails) ==
               (if ok then EnforceAll(after, ids[i + 1..], revoke, fails) else (after, false))
            && EnforcePublished(st, ids[i..], revoke, fails) ==
               CutPublished(Sorted(ActivePairs(st.pairings, ids[i])), fails) +
               if ok then EnforcePublished(after, ids[i + 1..], revoke, fails) else []
  {
    hide EnforceOne, Sorted, ActivePairs, CutPublished;
    assert ids[i..][1..] == ids[i + 1..];
  }

  lemma AlreadyThere(licenses: map<Id, License>, id: Id)
    requires id in licenses && licenses[id].status == LicenseActive
    ensures SetLicenseStatus(licenses, id, LicenseActive) == licenses
  {
  }

  // ---------------------------------------------------------------------------
  // The processor
  // ---------------------------------------------------------------------------

  class Processor {
    var st: Store
    var published: seq<Id>  // the pairings whose revocation was announced, in order
    const grace: Time

    constructor (st: Store, grace: Time)
      ensures this.st == st && this.grace == grace && published == []
    {
      this.st, published := st, [];
      this.grace := grace;
    }

    method FindAccount(customer: Id, now: Time) returns (account: Option<Id>)
      modifies this`st
      ensures customer == 0 ==> account == None && st == old(st)
      ensures customer != 0 ==> account.Some? && (st, account.value) == ResolveAccount(old(st), customer, now)
    {
      if customer == 0 {
        return None;
      }
      if customer in st.customers {
        return Some(st.customers[customer]);
      }
      var id := st.nextId;
      st := UpsertAccount(st, id, customer, now).(nextId := id + 1);
      return Some(id);
    }

    method Provision(sub: StripeSub, account: Id, now: Time, keys: seq<Id>)
      modifies this`st
      ensures st == EnsureLicenses(old(st), sub, account, now, keys)
    {
      var lic := License(account, sub.id, sub.item, LicenseActive, now);
      var i, rest := |LicensesOf(st.licenses, sub.id)|, keys;
      hide DrawKey, Undrawn, LicensesOf;
      while i < sub.maxPairs
        invariant st == old(st).(licenses := st.licenses)
        invariant AddLicenses(st.licenses, lic, Missing(i, sub.maxPairs), rest) ==
                  EnsureLicenses(old(st), sub, account, now, keys).licenses
      {
        st := st.(licenses := st.licenses[DrawKey(st.licenses.Keys, rest) := lic]);
        i, rest := i + 1, Undrawn(rest);
      }
    }

    /** Cuts the active pairings of one license. */
    method CutLicense(license: Id, revoke: bool, fails: set<Id>) returns (ok: bool)
      modifies this`st, this`published
      ensures ok == CutAll(old(st).pairings, Sorted(ActivePairs(old(st).pairings, license)), revoke, fails).1
      ensures st == old(st).(pairings :=
              CutAll(old(st).pairings, Sorted(ActivePairs(old(st).pairings, license)), revoke, fails).0)
      ensures published == old(published) + CutPublished(Sorted(ActivePairs(old(st).pairings, license)), fails)
    {
      var pairs := Sorted(ActivePairs(st.pairings, license));
      hide Sorted, ActivePairs, SetPairingStatus;
      var i := 0;
      while i < |pairs|
        invariant i <= |pairs|
        invariant st == old(st).(pairings := st.pairings)
        invariant published + CutPublished(pairs[i..], fails) == old(published) + CutPublished(pairs, fails)
        invariant CutAll(st.pairings, pairs[i..], revoke, fails) == CutAll(old(st).pairings, pairs, revoke, fails)
      {
        if revoke {
          st := st.(pairings := SetPairingStatus(st.pairings, pairs[i], PairingRevoked));
        }
        if pairs[i] in fails {
          return false;
        }
        published := published + [pairs[i]];
        i := i + 1;
      }
      return true;
    }

    /** The body of the loop over the licenses. */
    method EnforceLicense(license: Id, revoke: bool, fails: set<Id>) returns (ok: bool)
      modifies this`st, this`published
      ensures (st, ok) == EnforceOne(old(st), license, revoke, fails)
      ensures published == old(published) + CutPublished(Sorted(ActivePairs(old(st).pairings, license)), fails)
    {
      hide CutAll, CutPublished, Sorted, ActivePairs, SetLicenseStatus;
      if revoke {
        st := st.(licenses := SetLicenseStatus(st.licenses, license, LicenseRevoked));
      }
      ok := CutLicense(license, revoke, fails);
    }

    method EnforceLicenses(sub: Id, behavior: Behavior, fails: set<Id>) returns (ok: bool)
      modifies this`st, this`published
      ensures (st, ok) == Enforce(old(st), sub, behavior, fails)
      ensures published == old(published) + SubPublished(old(st), sub, behavior, fails)
    {
      var licenses := Sorted(LicensesOf(st.licenses, sub));
      ghost var told := SubPublished(st, sub, behavior, fails);
      ghost var before, start := published, st;
      hide EnforceAll, EnforcePublished, EnforceOne, CutPublished, Sorted, ActivePairs, LicensesOf;
      assert licenses[0..] == licenses;
      assert Enforce(start, sub, behavior, fails) == EnforceAll(start, licenses, behavior == Revoked, fails);
      assert told == EnforcePublished(start, licenses, behavior == Revoked, fails);
      hide Enforce, SubPublished;
      var i := 0;
      while i < |licenses|
        invariant i <= |licenses|
        invariant published + EnforcePublished(st, licenses[i..], behavior == Revoked, fails) == before + told
        invariant EnforceAll(st, licenses[i..], behavior == Revoked, fails) == Enforce(start, sub, behavior, fails)
      {
        EnforceUnfolds(st, licenses, i, behavior == Revoked, fails);
        ghost var first := CutPublished(Sorted(ActivePairs(st.pairings, licenses[i])), fails);
        ghost var had := published;
        ok := EnforceLicense(licenses[i], behavior == Revoked, fails);
        JoinAssociates(had, first, EnforcePublished(st, licenses[i + 1..], behavior == Revoked, fails));
        if !ok {
          return;
        }
        i := i + 1;
      }
      NothingLeft(st, behavior == Revoked, fails);
      assert licenses[i..] == [];
      return true;
    }

    method ReactivateLicenses(sub: Id)
      modifies this`st
      ensures st == Reactivate(old(st), sub)
    {
      var licenses := Sorted(LicensesOf(st.licenses, sub));
      assert forall id | id in licenses :: id in st.licenses;
      hide Sorted, LicensesOf;
      var i := 0;
      while i < |licenses|
        invariant i <= |licenses|
        invariant st == old(st).(licenses := st.licenses)
        invariant forall id | id in licenses :: id in st.licenses
        invariant ReactivateAll(st.licenses, licenses[i..]) == ReactivateAll(old(st).licenses, licenses)
      {
        var id := licenses[i];
        if st.licenses[id].status != LicenseActive {
          st := st.(licenses := SetLicenseStatus(st.licenses, id, LicenseActive));
        } else {
          AlreadyThere(st.licenses, id);
        }
        i := i + 1;
      }
    }

    method Sync(sub: StripeSub, account: Id, now: Time, w: World) returns (ok: bool)
      modifies this`st, this`published
      ensures (st, ok) == SyncSubscription(old(st), sub, account, now, grace, w)
      ensures published == old(published) + SyncPublished(old(st), sub, account, now, grace, w)
    {
      hide EnforceAll, ReactivateAll, AddLicenses, SubPublished;
      var until := if sub.id in st.subs then st.subs[sub.id].graceUntil else 0;
      if sub.status == SubPastDue && until == 0 {
        until := now + grace;
      }
      if sub.status != SubPastDue {
        until := 0;
      }
      var mirror := Subscription(account, sub.status, sub.maxPairs, sub.periodEnd, until, now);
      assert mirror == Mirror(st, sub, account, now, grace);
      st := st.(subs := st.subs[sub.id := mirror]);
      Provision(sub, account, now, w.KeysFor(sub.id));
      var behavior := Evaluate(mirror, now);
      if Enforced(behavior) {
        ok := EnforceLicenses(sub.id, behavior, w.fails);
      } else {
        ReactivateLicenses(sub.id);
        ok := true;
      }
    }

    method OnSubscriptionUpserted(sub: StripeSub, now: Time, w: World) returns (ok: bool)
      modifies this`st, this`published
      ensures (st, ok) == SubscriptionUpserted(old(st), sub, now, grace, w)
      ensures published == old(published) + UpsertedPublished(old(st), sub, now, grace, w)
    {
      hide SyncSubscription, SyncPublished, ResolveAccount;
      var account := FindAccount(sub.customer, now);
      if account.None? {
        return false;
      }
      ok := Sync(sub, account.value, now, w);
    }

    method OnSubscriptionDeleted(sub: StripeSub, now: Time, fails: set<Id>) returns (ok: bool)
      modifies this`st, this`published
      ensures (st, ok) == SubscriptionDeleted(old(st), sub, now, fails)
      ensures published == old(published) + DeletedPublished(old(st), sub, now, fails)
    {
      hide Enforce, SubPublished, ResolveAccount;
      var account := FindAccount(sub.customer, now);
      if account.None? {
        return false;
      }
      st := st.(subs := st.subs[sub.id := Subscription(account.value, SubCanceled, sub.maxPairs, 0, 0, now)]);
      ok := EnforceLicenses(sub.id, Revoked, fails);
    }

    method OnCheckoutCompleted(customer: Id, ref: Option<Id>, fetched: Option<StripeSub>, now: Time, w: World)
      returns (ok: bool)
      modifies this`st, this`published
      ensures (st, ok) == CheckoutCompleted(old(st), customer, ref, fetched, now, grace, w)
      ensures published == old(published) + CheckoutPublished(old(st), customer, ref, fetched, now, grace, w)
    {
      hide SyncSubscription, SyncPublished, ResolveAccount;
      if customer == 0 {
        return false;
      }
      var account := ref;
      if account.None? {
        account := FindAccount(customer, now);
      }
      st := UpsertAccount(st, account.value, customer, now);
      if fetched.None? {
        return false;
      }
      ok := Sync(fetched.value, account.value, now, w);
    }

    method OnPaymentFailed(sub: Id, now: Time) returns (ok: bool)
      modifies this`st
      ensures (st, ok) == PaymentFailed(old(st), sub, now, grace)
    {
      if sub !in st.subs {
        return false;
      }
      var mirror := st.subs[sub].(status := SubPastDue);
      if mirror.graceUntil == 0 {
        mirror := mirror.(graceUntil := now + grace);
      }
      st := st.(subs := st.subs[sub := mirror.(updatedAt := now)]);
      return true;
    }

    method OnInvoicePaid(sub: Id, now: Time) returns (ok: bool)
      modifies this`st
      ensures (st, ok) == InvoicePaid(old(st), sub, now)
    {
      hide Reactivate;
      if sub !in st.subs {
        return true;
      }
      var mirror := st.subs[sub].(graceUntil := 0);
      if mirror.status == SubPastDue {
        mirror := mirror.(status := SubActive);
      }
      st := st.(subs := st.subs[sub := mirror.(updatedAt := now)]);
      ReactivateLicenses(sub);
      return true;
    }

    method Reconcile(subs: seq<StripeSub>, now: Time, w: World) returns (ok: bool, healed: nat)
      modifies this`st, this`published
      ensures (st, ok) == ReconcileAll(old(st), subs, now, grace, w)
      ensures healed <= |subs| && (ok <==> healed == |subs|)
      ensures published == old(published) + ReconcilePublished(old(st), subs, now, grace, w)
    {
      hide SyncSubscription, SyncPublished, ResolveAccount;
      ok, healed := true, 0;
      var i := 0;
      while i < |subs|
        invariant healed <= i <= |subs|
        invariant ok <==> healed == i
        invariant published + ReconcilePublished(st, subs[i..], now, grace, w) ==
                  old(published) + ReconcilePublished(old(st), subs, now, grace, w)
        invariant ReconcileAll(old(st), subs, now, grace, w).0 == ReconcileAll(st, subs[i..], now, grace, w).0
        invariant ReconcileAll(old(st), subs, now, grace, w).1 <==>
                  ok && ReconcileAll(st, subs[i..], now, grace, w).1
      {
        var synced := false;
        var account := FindAccount(subs[i].customer, now);
        if account.Some? {
          synced := Sync(subs[i], account.value, now, w);
        }
        if synced {
          healed := healed + 1;
        } else {
          ok := false;
        }
        i := i + 1;
      }
    }
  }
}
