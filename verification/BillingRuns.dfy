/**
 Billing over whole histories of webhook events and reconciliations, against a record that
 knows only what was announced and when.
 */
module BillingRuns {
  import opened Options
  import opened AuthStore
  import opened Entitlement
  import opened Billing
  import opened BillingSync

  /** A billing event, or a change of the pairings made elsewhere. */
  datatype Event =
    | Upserted(sub: StripeSub)
    | Deleted(sub: StripeSub)
    | Checkout(customer: Id, ref: Option<Id>, fetched: Option<StripeSub>)
    | Failed(id: Id)
    | Paid(id: Id)
    | Reconciled(subs: seq<StripeSub>)
    | Elsewhere(pairings: map<Id, Pairing>)

  /** An event, the instant it is handled at, and what the surroundings make of it. */
  datatype Entry = Entry(now: Time, world: World, event: Event)

  function Apply(st: Store, e: Entry, grace: Time): Store {
    match e.event
    case Upserted(sub) => SubscriptionUpserted(st, sub, e.now, grace, e.world).0
    case Deleted(sub) => SubscriptionDeleted(st, sub, e.now, e.world.fails).0
    case Checkout(customer, ref, fetched) => CheckoutCompleted(st, customer, ref, fetched, e.now, grace, e.world).0
    case Failed(id) => PaymentFailed(st, id, e.now, grace).0
    case Paid(id) => InvoicePaid(st, id, e.now).0
    case Reconciled(subs) => ReconcileAll(st, subs, e.now, grace, e.world).0
    case Elsewhere(pairings) => st.(pairings := pairings)
  }

  function Run(st: Store, entries: seq<Entry>, grace: Time): Store
    decreases |entries|
  {
    if entries == [] then st else Run(Apply(st, entries[0], grace), entries[1..], grace)
  }

  // ---------------------------------------------------------------------------
  // The record
  // ---------------------------------------------------------------------------

  /** What was announced about one subscription. */
  datatype Tell = Synced(status: SubStatus, maxPairs: nat) | Canceled | Unpaid | Settled

  /** Its status, when it entered that status, and the largest max_pairs ever announced. */
  datatype Record = Record(status: Option<SubStatus>, since: Time, largest: nat)
  {
    function Enter(s: SubStatus, now: Time): Record {
      if status == Some(s) then this else this.(status := Some(s), since := now)
    }
  }

  function Heard(r: Record, tell: Tell, now: Time): Record {
    match tell
    case Synced(status, maxPairs) => r.Enter(status, now).(largest := Max(r.largest, maxPairs))
    case Canceled => r.Enter(SubCanceled, now)
    case Unpaid => if r.status.Some? then r.Enter(SubPastDue, now) else r
    case Settled => if r.status == Some(SubPastDue) then r.Enter(SubActive, now) else r
  }

  function HeardAll(r: Record, tells: seq<Tell>, now: Time): Record
    decreases |tells|
  {
    if tells == [] then r else HeardAll(Heard(r, tells[0], now), tells[1..], now)
  }

  /** A sync reaches the mirror when it names its customer. */
  function SyncTell(sub: StripeSub, s: Id): seq<Tell> {
    if sub.id == s && sub.customer != 0 then [Synced(sub.status, sub.maxPairs)] else []
  }

  function ListTells(subs: seq<StripeSub>, s: Id): seq<Tell>
    decreases |subs|
  {
    if subs == [] then [] else SyncTell(subs[0], s) + ListTells(subs[1..], s)
  }

  function Tells(event: Event, s: Id): seq<Tell> {
    match event
    case Upserted(sub) => SyncTell(sub, s)
    case Deleted(sub) => if sub.id == s && sub.customer != 0 then [Canceled] else []
    case Checkout(customer, ref, fetched) =>
      if customer != 0 && fetched.Some? && fetched.value.id == s
      then [Synced(fetched.value.status, fetched.value.maxPairs)] else []
    case Failed(id) => if id == s then [Unpaid] else []
    case Paid(id) => if id == s then [Settled] else []
    case Reconciled(subs) => ListTells(subs, s)
    case Elsewhere(_) => []
  }

  function History(r: Record, entries: seq<Entry>, s: Id): Record
    decreases |entries|
  {
    if entries == [] then r
    else History(HeardAll(r, Tells(entries[0].event, s), entries[0].now), entries[1..], s)
  }

  const UNHEARD := Record(None, 0, 0)

  // ---------------------------------------------------------------------------
  // The store follows the record
  // ---------------------------------------------------------------------------

  function Deadline(r: Record, grace: Time): Time {
    if r.status == Some(SubPastDue) then r.since + grace else 0
  }

  ghost predicate MirrorRight(subs: map<Id, Subscription>, r: Record, s: Id, grace: Time) {
    && (s in subs <==> r.status.Some?)
    && (s in subs ==> subs[s].status == r.status.value && subs[s].graceUntil == Deadline(r, grace) && r.since > 0)
  }

  ghost predicate Follows(st: Store, r: Record, s: Id, grace: Time) {
    MirrorRight(st.subs, r, s, grace) && |LicensesOf(st.licenses, s)| == r.largest
  }

  lemma HeardOne(r: Record, tell: Tell, now: Time)
    ensures HeardAll(r, [tell], now) == Heard(r, tell, now) && HeardAll(r, [], now) == r
  {
  }

  lemma SyncAgrees(st: Store, sub: StripeSub, account: Id, now: Time, grace: Time, w: World, r: Record, s: Id)
    requires Follows(st, r, s, grace) && now > 0 && grace >= 0
    ensures var after := SyncSubscription(st, sub, account, now, grace, w).0;
            Follows(after, if sub.id == s then Heard(r, Synced(sub.status, sub.maxPairs), now) else r, s, grace)
  {
    SyncCounts(st, sub, account, now, grace, w);
    SyncSettles(st, sub, account, now, grace, w);
    hide SyncSubscription, LicensesOf, Honored;
  }

  /** Only nextId and the account tables change. */
  lemma ResolveFollows(st: Store, customer: Id, now: Time, r: Record, s: Id, grace: Time)
    requires Follows(st, r, s, grace)
    ensures Follows(ResolveAccount(st, customer, now).0, r, s, grace)
  {
  }

  lemma UpsertedAgrees(st: Store, sub: StripeSub, now: Time, grace: Time, w: World, r: Record, s: Id)
    requires Follows(st, r, s, grace) && now > 0 && grace >= 0
    ensures Follows(SubscriptionUpserted(st, sub, now, grace, w).0, HeardAll(r, SyncTell(sub, s), now), s, grace)
  {
    HeardOne(r, Synced(sub.status, sub.maxPairs), now);
    hide HeardAll, Heard;
    hide Follows, SyncSubscription, ResolveAccount;
    ResolveFollows(st, sub.customer, now, r, s, grace);
    if sub.customer != 0 {
      var (st', account) := ResolveAccount(st, sub.customer, now);
      SyncAgrees(st', sub, account, now, grace, w, r, s);
    }
  }

  lemma EnforcedAgrees(st: Store, sub: Id, fails: set<Id>, r: Record, s: Id, grace: Time)
    requires Follows(st, r, s, grace)
    ensures Follows(Enforce(st, sub, Revoked, fails).0, r, s, grace)
  {
    var after := Enforce(st, sub, Revoked, fails).0;
    EnforceIs(st, sub, Revoked, fails);
    hide Enforce;
    assert LicensesOf(after.licenses, s) == LicensesOf(st.licenses, s);
  }

  lemma DeletedAgrees(st: Store, sub: StripeSub, now: Time, grace: Time, fails: set<Id>, r: Record, s: Id)
    requires Follows(st, r, s, grace) && now > 0
    ensures Follows(SubscriptionDeleted(st, sub, now, fails).0, HeardAll(r, Tells(Deleted(sub), s), now), s, grace)
  {
    HeardOne(r, Canceled, now);
    hide ResolveAccount, Enforce, HeardAll, LicensesOf;
    if sub.customer != 0 {
      var (st', account) := ResolveAccount(st, sub.customer, now);
      var mid := st'.(subs := st'.subs[sub.id := Subscription(account, SubCanceled, sub.maxPairs, 0, 0, now)]);
      ResolveFollows(st, sub.customer, now, r, s, grace);
      EnforcedAgrees(mid, sub.id, fails, if sub.id == s then Heard(r, Canceled, now) else r, s, grace);
    }
  }

  lemma CheckoutAgrees(st: Store, customer: Id, ref: Option<Id>, fetched: Option<StripeSub>, now: Time, grace: Time,
                       w: World, r: Record, s: Id)
    requires Follows(st, r, s, grace) && now > 0 && grace >= 0
    ensures Follows(CheckoutCompleted(st, customer, ref, fetched, now, grace, w).0,
                    HeardAll(r, Tells(Checkout(customer, ref, fetched), s), now), s, grace)
  {
    if customer != 0 {
      var (resolved, account) := if ref.Some? then (st, ref.value) else ResolveAccount(st, customer, now);
      var linked := UpsertAccount(resolved, account, customer, now);
      ResolveFollows(st, customer, now, r, s, grace);
      LinkFollows(resolved, account, customer, now, r, s, grace);
      hide ResolveAccount, UpsertAccount, SyncSubscription, Follows;
      if fetched.Some? {
        HeardOne(r, Synced(fetched.value.status, fetched.value.maxPairs), now);
        SyncAgrees(linked, fetched.value, account, now, grace, w, r, s);
        hide HeardAll, Heard;
      }
    }
  }

  lemma LinkFollows(st: Store, account: Id, customer: Id, now: Time, r: Record, s: Id, grace: Time)
    requires Follows(st, r, s, grace)
    ensures Follows(UpsertAccount(st, account, customer, now), r, s, grace)
  {
  }

  lemma PaidMirror(subs: map<Id, Subscription>, id: Id, now: Time, grace: Time, r: Record, s: Id)
    requires MirrorRight(subs, r, s, grace) && now > 0 && id in subs
    ensures MirrorRight(subs[id := MirrorPaid(subs[id], now)], if id == s then Heard(r, Settled, now) else r, s, grace)
  {
  }

  lemma ReactivateFollows(st: Store, sub: Id, r: Record, s: Id, grace: Time)
    requires Follows(st, r, s, grace)
    ensures Follows(Reactivate(st, sub), r, s, grace)
  {
    ReactivateIs(st, sub);
    hide Reactivate, MirrorRight;
    assert LicensesOf(Reactivate(st, sub).licenses, s) == LicensesOf(st.licenses, s);
  }

  lemma PaidAgrees(st: Store, id: Id, now: Time, grace: Time, r: Record, s: Id)
    requires Follows(st, r, s, grace) && now > 0
    ensures Follows(InvoicePaid(st, id, now).0, HeardAll(r, Tells(Paid(id), s), now), s, grace)
  {
    HeardOne(r, Settled, now);
    if id in st.subs {
      hide Reactivate, MirrorRight, LicensesOf, HeardAll, Heard, MirrorPaid;
      PaidMirror(st.subs, id, now, grace, r, s);
      ReactivateFollows(st.(subs := st.subs[id := MirrorPaid(st.subs[id], now)]), id,
                        if id == s then Heard(r, Settled, now) else r, s, grace);
    } else {
      hide HeardAll, LicensesOf;
    }
  }

  lemma {:induction false} HeardAllAppend(r: Record, a: seq<Tell>, b: seq<Tell>, now: Time)
    ensures HeardAll(r, a + b, now) == HeardAll(HeardAll(r, a, now), b, now)
    decreases |a|
  {
    if a == [] {
      assert a + b == b;
    } else {
      assert (a + b)[1..] == a[1..] + b;
      HeardAllAppend(Heard(r, a[0], now), a[1..], b, now);
    }
  }

  lemma {:induction false} ReconcileAgrees(st: Store, subs: seq<StripeSub>, now: Time, grace: Time, w: World,
      r: Record, s: Id)
    requires Follows(st, r, s, grace) && now > 0 && grace >= 0
    ensures Follows(ReconcileAll(st, subs, now, grace, w).0, HeardAll(r, ListTells(subs, s), now), s, grace)
    decreases |subs|
  {
    hide Follows, SubscriptionUpserted, SyncTell;
    if subs != [] {
      UpsertedAgrees(st, subs[0], now, grace, w, r, s);
      HeardAllAppend(r, SyncTell(subs[0], s), ListTells(subs[1..], s), now);
      ReconcileAgrees(SubscriptionUpserted(st, subs[0], now, grace, w).0, subs[1..], now, grace, w,
                      HeardAll(r, SyncTell(subs[0], s), now), s);
    }
  }

  lemma FailedMirror(subs: map<Id, Subscription>, id: Id, now: Time, grace: Time, r: Record, s: Id)
    requires MirrorRight(subs, r, s, grace) && now > 0 && grace >= 0 && id in subs
    ensures var m := subs[id];
            var until := if m.graceUntil == 0 then now + grace else m.graceUntil;
            MirrorRight(subs[id := m.(status := SubPastDue, graceUntil := until, updatedAt := now)],
                        if id == s then Heard(r, Unpaid, now) else r, s, grace)
  {
  }

  lemma FailedAgrees(st: Store, id: Id, now: Time, grace: Time, r: Record, s: Id)
    requires Follows(st, r, s, grace) && now > 0 && grace >= 0
    ensures Follows(PaymentFailed(st, id, now, grace).0, HeardAll(r, Tells(Failed(id), s), now), s, grace)
  {
    HeardOne(r, Unpaid, now);
    hide HeardAll, LicensesOf;
    if id in st.subs {
      FailedMirror(st.subs, id, now, grace, r, s);
      hide MirrorRight;
    }
  }

  lemma ApplyAgrees(st: Store, e: Entry, grace: Time, r: Record, s: Id)
    requires Follows(st, r, s, grace) && e.now > 0 && grace >= 0
    ensures Follows(Apply(st, e, grace), HeardAll(r, Tells(e.event, s), e.now), s, grace)
  {
    hide Follows, HeardAll, SubscriptionUpserted, SubscriptionDeleted, CheckoutCompleted, PaymentFailed, InvoicePaid,
        ReconcileAll;
    match e.event
    case Upserted(sub) => UpsertedAgrees(st, sub, e.now, grace, e.world, r, s);
    case Deleted(sub) => DeletedAgrees(st, sub, e.now, grace, e.world.fails, r, s);
    case Checkout(customer, ref, fetched) => CheckoutAgrees(st, customer, ref, fetched, e.now, grace, e.world, r, s);
    case Failed(id) => FailedAgrees(st, id, e.now, grace, r, s);
    case Paid(id) => PaidAgrees(st, id, e.now, grace, r, s);
    case Reconciled(subs) => ReconcileAgrees(st, subs, e.now, grace, e.world, r, s);
    case Elsewhere(pairings) => ElsewhereAgrees(st, pairings, e.now, grace, r, s);
  }

  lemma ElsewhereAgrees(st: Store, pairings: map<Id, Pairing>, now: Time, grace: Time, r: Record, s: Id)
    requires Follows(st, r, s, grace)
    ensures Follows(st.(pairings := pairings), HeardAll(r, [], now), s, grace)
  {
  }

  ghost predicate Clocked(entries: seq<Entry>) {
    forall i | 0 <= i < |entries| :: entries[i].now > 0
  }

  lemma {:induction false} RunAgrees(st: Store, entries: seq<Entry>, grace: Time, r: Record, s: Id)
    requires Follows(st, r, s, grace) && Clocked(entries) && grace >= 0
    ensures Follows(Run(st, entries, grace), History(r, entries, s), s, grace)
    decreases |entries|
  {
    hide Follows, Apply, HeardAll, Tells;
    if entries != [] {
      ApplyAgrees(st, entries[0], grace, r, s);
      RunAgrees(Apply(st, entries[0], grace), entries[1..], grace,
                HeardAll(r, Tells(entries[0].event, s), entries[0].now), s);
    }
  }

  lemma NothingYet(s: Id, grace: Time)
    ensures Follows(EmptyStore(), UNHEARD, s, grace)
  {
  }

  /**
   After any history a subscription is mirrored exactly when it was announced, with the last
   announced status. It has a grace deadline exactly when it is past due, and that deadline
   is the instant the current past-due spell began plus the grace period, however often the
   failure was repeated since. At that very instant the behavior turns from Grace to Revoked.
   */
  lemma {:induction false} GraceCountsFromSpellStart(entries: seq<Entry>, grace: Time, s: Id, now: Time)
    requires Clocked(entries) && grace >= 0
    ensures var st, r := Run(EmptyStore(), entries, grace), History(UNHEARD, entries, s);
            && (s in st.subs <==> r.status.Some?)
            && (s in st.subs ==>
                  && st.subs[s].status == r.status.value
                  && (st.subs[s].graceUntil != 0 <==> r.status.value == SubPastDue)
                  && (r.status.value == SubPastDue ==>
                        && st.subs[s].graceUntil == r.since + grace
                        && Evaluate(st.subs[s], now) == if now < r.since + grace then Grace else Revoked))
  {
    NothingYet(s, grace);
    RunAgrees(EmptyStore(), entries, grace, UNHEARD, s);
  }

  /** After any history a subscription has as many licenses as the largest max_pairs a sync carried. */
  lemma {:induction false} LicensesMatchLargestPlan(entries: seq<Entry>, grace: Time, s: Id)
    requires Clocked(entries) && grace >= 0
    ensures |LicensesOf(Run(EmptyStore(), entries, grace).licenses, s)| == History(UNHEARD, entries, s).largest
  {
    NothingYet(s, grace);
    RunAgrees(EmptyStore(), entries, grace, UNHEARD, s);
  }

  /**
   After any history, a subscription event that reports no error leaves the licenses saying
   what the mirror evaluates to.
   */
  lemma {:induction false} EverySyncSettles(entries: seq<Entry>, grace: Time, sub: StripeSub, now: Time, w: World)
    requires Clocked(entries) && grace >= 0 && sub.customer != 0
    ensures var (after, ok) := SubscriptionUpserted(Run(EmptyStore(), entries, grace), sub, now, grace, w);
            ok ==>
              && sub.id in after.subs
              && after.subs[sub.id].status == sub.status && after.subs[sub.id].maxPairs == sub.maxPairs
              && Honored(after, sub.id, Evaluate(after.subs[sub.id], now))
  {
    var st := Run(EmptyStore(), entries, grace);
    NothingYet(sub.id, grace);
    RunAgrees(EmptyStore(), entries, grace, UNHEARD, sub.id);
    ResolveFollows(st, sub.customer, now, History(UNHEARD, entries, sub.id), sub.id, grace);
    var (st', account) := ResolveAccount(st, sub.customer, now);
    hide Run, History, ResolveAccount, SyncSubscription, Honored;
    SyncSettles(st', sub, account, now, grace, w);
  }

  /** A cancellation that reports no error leaves every license revoked and no pairing active, from any state. */
  lemma DeletionCutsOff(st: Store, sub: StripeSub, now: Time, fails: set<Id>)
    ensures var (after, ok) := SubscriptionDeleted(st, sub, now, fails);
            ok ==>
              && sub.id in after.subs
              && after.subs[sub.id].status == SubCanceled && Evaluate(after.subs[sub.id], now) == Revoked
              && Honored(after, sub.id, Revoked)
  {
    if sub.customer != 0 {
      hide ResolveAccount, Enforce, Cutoff, Honored, LicensesOf, ActiveOn;
      var (st', account) := ResolveAccount(st, sub.customer, now);
      var mid := st'.(subs := st'.subs[sub.id := Subscription(account, SubCanceled, sub.maxPairs, 0, 0, now)]);
      EnforceIs(mid, sub.id, Revoked, fails);
      CutoffHonors(mid, sub.id);
    }
  }

  /** A checkout that reports no error settles the fetched subscription under the account it is linked to. */
  lemma CheckoutSettles(st: Store, customer: Id, ref: Option<Id>, fetched: Option<StripeSub>, now: Time, grace: Time,
      w: World)
    ensures var (after, ok) := CheckoutCompleted(st, customer, ref, fetched, now, grace, w);
            ok ==>
              && fetched.Some? && fetched.value.id in after.subs && customer in after.customers
              && after.subs[fetched.value.id].account == after.customers[customer]
              && (ref.Some? ==> after.customers[customer] == ref.value)
              && Honored(after, fetched.value.id, Evaluate(after.subs[fetched.value.id], now))
  {
    if customer != 0 && fetched.Some? {
      var (resolved, account) := if ref.Some? then (st, ref.value) else ResolveAccount(st, customer, now);
      var linked := UpsertAccount(resolved, account, customer, now);
      assert customer in linked.customers && linked.customers[customer] == account;
      hide ResolveAccount, UpsertAccount, SyncSubscription, Honored, LicensesOf;
      SyncSettles(linked, fetched.value, account, now, grace, w);
      SyncCounts(linked, fetched.value, account, now, grace, w);
    }
  }

  /**
   A paid invoice reactivates the licenses whatever the mirror says. It agrees with the
   mirror exactly when the subscription was not in a terminal status, or has no licenses.
   */
  lemma PaidAgreesExactlyWhen(st: Store, sub: Id, now: Time)
    requires sub in st.subs
    ensures var after := InvoicePaid(st, sub, now).0;
            var ids := LicensesOf(after.licenses, sub);
            && sub in after.subs
            && ((Evaluate(after.subs[sub], now) == Revoked ==>
                 forall l | l in ids :: after.licenses[l].status == LicenseRevoked)
                <==> (|| st.subs[sub].status in {SubTrialing, SubActive, SubPastDue, SubPaused}
                      || LicensesOf(st.licenses, sub) == {}))
  {
    var after := InvoicePaid(st, sub, now).0;
    PaidReactivates(st, sub, now);
    hide InvoicePaid;
    if LicensesOf(st.licenses, sub) != {} {
      var l :| l in LicensesOf(st.licenses, sub);
      assert l in LicensesOf(after.licenses, sub) && after.licenses[l].status == LicenseActive;
    }
  }

  lemma ReactivateSettles(st: Store, sub: Id)
    ensures var after := Reactivate(st, sub);
            && after == st.(licenses := after.licenses)
            && LicensesOf(after.licenses, sub) == LicensesOf(st.licenses, sub)
            && (forall l | l in LicensesOf(after.licenses, sub) :: after.licenses[l].status == LicenseActive)
  {
    hide Reactivate, WithStatus, LicensesOf;
    ReactivateIs(st, sub);
    ActiveHonors(st, sub);
  }

  lemma PaidReactivates(st: Store, sub: Id, now: Time)
    requires sub in st.subs
    ensures var after := InvoicePaid(st, sub, now).0;
            && sub in after.subs && after.subs[sub].graceUntil == 0
            && after.subs[sub].status == (if st.subs[sub].status == SubPastDue then SubActive else st.subs[sub].status)
            && LicensesOf(after.licenses, sub) == LicensesOf(st.licenses, sub)
            && (forall l | l in LicensesOf(after.licenses, sub) :: after.licenses[l].status == LicenseActive)
  {
    hide Reactivate, LicensesOf;
    ReactivateSettles(st.(subs := st.subs[sub := MirrorPaid(st.subs[sub], now)]), sub);
  }
}
