/**
 The answers of the billing handlers, told by the fields of the records: which account an
 event lands on, what its mirror says afterwards, and exactly when it reports an error.
 */
module BillingAnswers {
  import opened Options
  import opened AuthStore
  import opened Entitlement
  import opened Billing
  import opened BillingSync
  import opened Reconciliation

  /** The customer and the account know each other. */
  predicate Linked(st: Store, customer: Id, account: Id) {
    && customer in st.customers && st.customers[customer] == account
    && account in st.accounts && st.accounts[account].customer == customer
  }

  /** A known customer keeps its account, and nothing changes; a new one gets a new account of its own. */
  lemma AccountResolved(st: Store, customer: Id, now: Time)
    ensures var (after, account) := ResolveAccount(st, customer, now);
            && (customer in st.customers ==> after == st && account == st.customers[customer])
            && (customer !in st.customers ==>
                  && account == st.nextId && Linked(after, customer, account) && after.nextId > account
                  && after == st.(nextId := after.nextId, accounts := after.accounts, customers := after.customers)
                  && (forall c | c in st.customers :: c in after.customers && after.customers[c] == st.customers[c]))
  {
  }

  /** Some pairing that is active under the subscription cannot be announced. */
  ghost predicate Unannounceable(pairings: map<Id, Pairing>, licenses: map<Id, License>, sub: Id, fails: set<Id>) {
    exists p :: p in fails && ActiveUnder(pairings, licenses, sub, p)
  }

  /**
   A subscription event without a customer is an error and changes nothing. Otherwise the
   mirror is Stripe's report under the customer's account, and it is an error exactly when
   that mirror is not in good standing and a pairing active under it cannot be announced.
   */
  lemma UpsertAnswers(st: Store, sub: StripeSub, now: Time, grace: Time, w: World)
    ensures var (after, ok) := SubscriptionUpserted(st, sub, now, grace, w);
            && (sub.customer == 0 ==> !ok && after == st)
            && (sub.customer != 0 ==>
                  && sub.customer in after.customers && sub.id in after.subs
                  && var m := after.subs[sub.id];
                     && m.account == after.customers[sub.customer]
                     && m.status == sub.status && m.maxPairs == sub.maxPairs && m.periodEnd == sub.periodEnd
                     && m.updatedAt == now && DeadlineRight(st, sub, m, now, grace)
                     && (!ok <==> !InGoodStanding(m, now) &&
                                  Unannounceable(st.pairings, after.licenses, sub.id, w.fails)))
  {
    if sub.customer != 0 {
      var (mid, account) := ResolveAccount(st, sub.customer, now);
      ResolveKeeps(st, sub.customer, now);
      SyncMirrors(mid, sub, account, now, grace, w);
      SyncAnnouncesExactly(mid, sub, account, now, grace, w);
      SyncCounts(mid, sub, account, now, grace, w);
      hide ResolveAccount, SyncSubscription, InGoodStanding, ActiveUnder, LicensesOf;
    }
  }

  /**
   A cancellation leaves a canceled mirror without a deadline and makes no license; it is an
   error exactly when a pairing active under the subscription cannot be announced.
   */
  lemma DeletedAnswers(st: Store, sub: StripeSub, now: Time, fails: set<Id>)
    ensures var (after, ok) := SubscriptionDeleted(st, sub, now, fails);
            && (sub.customer == 0 ==> !ok && after == st)
            && (sub.customer != 0 ==>
                  && sub.customer in after.customers && sub.id in after.subs
                  && after.licenses.Keys == st.licenses.Keys
                  && var m := after.subs[sub.id];
                     && m.account == after.customers[sub.customer] && m.status == SubCanceled
                     && m.maxPairs == sub.maxPairs && m.graceUntil == 0 && m.updatedAt == now
                     && (!ok <==> Unannounceable(st.pairings, st.licenses, sub.id, fails)))
  {
    if sub.customer != 0 {
      var (mid, account) := ResolveAccount(st, sub.customer, now);
      ResolveKeeps(st, sub.customer, now);
      var mirrored := mid.(subs := mid.subs[sub.id := Subscription(account, SubCanceled, sub.maxPairs, 0, 0, now)]);
      EnforceIs(mirrored, sub.id, Revoked, fails);
      assert forall p :: ActiveUnder(st.pairings, st.licenses, sub.id, p) <==>
                         p in ActiveOn(st.pairings, LicensesOf(st.licenses, sub.id));
      hide ResolveAccount, Enforce, ActiveUnder, ActiveOn, Cutoff, OnlyRevoked, OthersUntouched;
    }
  }

  /** It announces only pairings active under the subscription, and every one of them unless it is an error. */
  lemma DeletedPublishes(st: Store, sub: StripeSub, now: Time, fails: set<Id>)
    requires sub.customer != 0
    ensures var told := DeletedPublished(st, sub, now, fails);
            && (forall p | p in told :: p !in fails && ActiveUnder(st.pairings, st.licenses, sub.id, p))
            && (SubscriptionDeleted(st, sub, now, fails).1 ==>
                  forall p :: ActiveUnder(st.pairings, st.licenses, sub.id, p) ==> p in told)
  {
    var (mid, account) := ResolveAccount(st, sub.customer, now);
    ResolveKeeps(st, sub.customer, now);
    var mirrored := mid.(subs := mid.subs[sub.id := Subscription(account, SubCanceled, sub.maxPairs, 0, 0, now)]);
    SubPublishes(mirrored, sub.id, Revoked, fails);
    assert forall p :: ActiveUnder(st.pairings, st.licenses, sub.id, p) <==>
                       p in ActiveOn(st.pairings, LicensesOf(st.licenses, sub.id));
    hide ResolveAccount, Enforce, SubPublished, ActiveUnder, ActiveOn, LicensesOf;
  }

  /**
   A checkout links its customer to the account it names, or to the customer's own, even when
   it then fails: without a customer, without a subscription, or as a sync fails.
   */
  lemma CheckoutAnswers(st: Store, customer: Id, ref: Option<Id>, fetched: Option<StripeSub>, now: Time, grace: Time,
                        w: World)
    ensures var (after, ok) := CheckoutCompleted(st, customer, ref, fetched, now, grace, w);
            && (customer == 0 ==> !ok && after == st)
            && (customer != 0 ==>
                  && customer in after.customers && Linked(after, customer, after.customers[customer])
                  && (ref.Some? ==> after.customers[customer] == ref.value)
                  && (ref.None? && customer in st.customers ==> after.customers[customer] == st.customers[customer])
                  && (fetched.None? ==>
                        !ok && after.subs == st.subs && after.licenses == st.licenses && after.pairings == st.pairings)
                  && (fetched.Some? ==>
                        var sub := fetched.value;
                        && sub.id in after.subs
                        && var m := after.subs[sub.id];
                           && m.account == after.customers[customer]
                           && m.status == sub.status && m.maxPairs == sub.maxPairs && m.periodEnd == sub.periodEnd
                           && (!ok <==> !InGoodStanding(m, now) &&
                                        Unannounceable(st.pairings, after.licenses, sub.id, w.fails))))
  {
    if customer != 0 {
      var (resolved, account) := if ref.Some? then (st, ref.value) else ResolveAccount(st, customer, now);
      var linked := UpsertAccount(resolved, account, customer, now);
      CheckoutLinks(st, customer, ref, now);
      hide ResolveAccount, UpsertAccount, SyncSubscription, InGoodStanding, ActiveUnder, LicensesOf, DeadlineRight;
      hide OnlyRevoked;
      if fetched.Some? {
        SyncMirrors(linked, fetched.value, account, now, grace, w);
        SyncAnnouncesExactly(linked, fetched.value, account, now, grace, w);
        SyncCounts(linked, fetched.value, account, now, grace, w);
      }
    }
  }

  lemma CheckoutLinks(st: Store, customer: Id, ref: Option<Id>, now: Time)
    ensures var (resolved, account) := if ref.Some? then (st, ref.value) else ResolveAccount(st, customer, now);
            var linked := UpsertAccount(resolved, account, customer, now);
            && Linked(linked, customer, account)
            && (ref.None? && customer in st.customers ==> account == st.customers[customer])
            && linked.subs == st.subs && linked.licenses == st.licenses && linked.pairings == st.pairings
  {
    AccountResolved(st, customer, now);
    hide ResolveAccount;
  }

  /** A failed payment of a mirrored subscription makes it past due, with a deadline if it had none; else an error. */
  lemma FailedAnswers(st: Store, sub: Id, now: Time, grace: Time)
    ensures var (after, ok) := PaymentFailed(st, sub, now, grace);
            && (ok <==> sub in st.subs) && (!ok ==> after == st)
            && (ok ==>
                  && after == st.(subs := after.subs)
                  && sub in after.subs && after.subs == st.subs[sub := after.subs[sub]]
                  && var had, m := st.subs[sub], after.subs[sub];
                     && m.account == had.account && m.maxPairs == had.maxPairs && m.periodEnd == had.periodEnd
                     && m.status == SubPastDue && m.updatedAt == now
                     && m.graceUntil == if had.graceUntil != 0 then had.graceUntil else now + grace)
  {
  }

  /**
   A paid invoice of a mirrored subscription clears its deadline, takes it from past due to
   active, makes its licenses active, and touches no pairing; an unknown one is no error.
   */
  lemma PaidAnswers(st: Store, sub: Id, now: Time)
    ensures var (after, ok) := InvoicePaid(st, sub, now);
            && ok && (sub !in st.subs ==> after == st)
            && (sub in st.subs ==>
                  && sub in after.subs && after.pairings == st.pairings
                  && AllLicenses(after.licenses, sub, LicenseActive)
                  && var had, m := st.subs[sub], after.subs[sub];
                     && m.account == had.account && m.maxPairs == had.maxPairs && m.periodEnd == had.periodEnd
                     && m.graceUntil == 0 && m.updatedAt == now
                     && m.status == if had.status == SubPastDue then SubActive else had.status)
  {
    if sub in st.subs {
      ReactivateIs(st.(subs := st.subs[sub := MirrorPaid(st.subs[sub], now)]), sub);
      hide Reactivate;
    }
  }
}
