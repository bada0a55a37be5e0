/**
 Enforcement that is interrupted by a failing announcement: exactly when what it leaves
 behind is all the same complete.
 */
module BillingStops {
  import opened AuthStore
  import opened Entitlement
  import opened Billing
  import opened BillingSync

  ghost predicate Ascending(ids: seq<Id>) {
    forall i, j | 0 <= i < j < |ids| :: ids[i] < ids[j]
  }

  /** Nothing is left to enforce on the license. */
  predicate Quiet(st: Store, license: Id) {
    && (license in st.licenses ==> st.licenses[license].status == LicenseRevoked)
    && ActivePairs(st.pairings, license) == {}
  }

  ghost predicate AllQuiet(st: Store, ids: set<Id>) {
    forall l | l in ids :: Quiet(st, l)
  }

  /** No active pairing of the license comes after `p`. */
  ghost predicate LastPair(pairings: map<Id, Pairing>, license: Id, p: Id) {
    forall q | q in ActivePairs(pairings, license) :: q <= p
  }

  /** A failure at `p` comes too late to matter: all that enforcement would still do is done already. */
  ghost predicate LastToAnnounce(st: Store, ids: set<Id>, license: Id, p: Id) {
    LastPair(st.pairings, license, p) && forall k | k in ids && license < k :: Quiet(st, k)
  }

  /** Every announcement that fails comes too late to matter. */
  ghost predicate Harmless(st: Store, ids: set<Id>, fails: set<Id>) {
    forall l, p | l in ids && p in ActivePairs(st.pairings, l) && p in fails :: LastToAnnounce(st, ids, l, p)
  }

  // ---------------------------------------------------------------------------
  // One license
  // ---------------------------------------------------------------------------

  function UpTo(ids: seq<Id>, p: Id): set<Id> {
    set q | q in ids && q <= p
  }

  lemma AscendingTail(ids: seq<Id>)
    requires ids != [] && Ascending(ids)
    ensures Ascending(ids[1..]) && forall q | q in ids[1..] :: ids[0] < q
  {
  }

  /** An interrupted cut has revoked the pairings up to the first one whose announcement failed. */
  lemma {:induction false} CutStopsAtFirst(pairings: map<Id, Pairing>, ids: seq<Id>, fails: set<Id>) returns (p: Id)
    requires Ascending(ids) && !CutAll(pairings, ids, true, fails).1
    ensures p in ids && p in fails && forall q | q in ids && q < p :: q !in fails
    ensures CutAll(pairings, ids, true, fails).0 == RevokePairs(pairings, UpTo(ids, p))
    decreases |ids|
  {
    assert ids == [ids[0]] + ids[1..];
    AscendingTail(ids);
    hide RevokePairs, SetPairingStatus, Ascending;
    if ids[0] in fails {
      p := ids[0];
      assert UpTo(ids, p) == {p};
      RevokeFirst(pairings, p, {});
    } else {
      p := CutStopsAtFirst(SetPairingStatus(pairings, ids[0], PairingRevoked), ids[1..], fails);
      assert UpTo(ids, p) == {ids[0]} + UpTo(ids[1..], p);
      RevokeFirst(pairings, ids[0], UpTo(ids[1..], p));
    }
  }

  lemma SomeFailure(pairings: map<Id, Pairing>, license: Id, fails: set<Id>)
    ensures CutAll(pairings, Sorted(ActivePairs(pairings, license)), true, fails).1 <==>
            ActivePairs(pairings, license) !! fails
  {
    var ids := Sorted(ActivePairs(pairings, license));
    CutAllIs(pairings, ids, true, fails);
    assert forall x :: x in ids <==> x in ActivePairs(pairings, license);
    hide CutAll, Sorted;
  }

  lemma StillActive(pairings: map<Id, Pairing>, cut: set<Id>, license: Id)
    ensures ActivePairs(RevokePairs(pairings, cut), license) == ActivePairs(pairings, license) - cut
  {
  }

  lemma OfAnotherLicense(pairings: map<Id, Pairing>, license: Id, other: Id)
    requires license != other
    ensures ActivePairs(pairings, license) !! ActivePairs(pairings, other)
  {
  }

  /** Cutting a license's pairings up to `p` leaves none of them exactly when `p` is the last one. */
  lemma CutUpTo(pairings: map<Id, Pairing>, license: Id, cut: set<Id>, p: Id)
    requires cut == set q | q in ActivePairs(pairings, license) && q <= p
    ensures ActivePairs(RevokePairs(pairings, cut), license) == {} <==> LastPair(pairings, license, p)
    ensures forall k | k != license :: ActivePairs(RevokePairs(pairings, cut), k) == ActivePairs(pairings, k)
  {
    hide ActivePairs, RevokePairs;
    StillActive(pairings, cut, license);
    forall k | k != license ensures ActivePairs(RevokePairs(pairings, cut), k) == ActivePairs(pairings, k) {
      StillActive(pairings, cut, k);
      OfAnotherLicense(pairings, license, k);
    }
    var left := ActivePairs(pairings, license) - cut;
    assert left == set q | q in ActivePairs(pairings, license) && p < q;
    if q :| q in ActivePairs(pairings, license) && p < q {
      assert q in left;
    }
  }

  /** The first failure decides for all: if it is at the last pairing, there is no other. */
  lemma FirstDecides(pairings: map<Id, Pairing>, license: Id, fails: set<Id>, p: Id)
    requires p in ActivePairs(pairings, license) && p in fails
    requires forall q | q in ActivePairs(pairings, license) && q < p :: q !in fails
    ensures LastPair(pairings, license, p) <==>
            forall q | q in ActivePairs(pairings, license) && q in fails :: LastPair(pairings, license, q)
  {
    hide ActivePairs;
    forall q | LastPair(pairings, license, p) && q in ActivePairs(pairings, license) && q in fails ensures q == p {
    }
  }

  /** One license marked revoked: whether it and the others are quiet is a matter of their pairings. */
  lemma QuietByPairs(st: Store, after: Store, license: Id)
    requires after.licenses == SetLicenseStatus(st.licenses, license, LicenseRevoked)
    requires forall k | k != license :: ActivePairs(after.pairings, k) == ActivePairs(st.pairings, k)
    ensures Quiet(after, license) <==> ActivePairs(after.pairings, license) == {}
    ensures forall k | k != license :: Quiet(after, k) <==> Quiet(st, k)
  {
    hide ActivePairs;
  }

  lemma EnforceOneParts(st: Store, license: Id, fails: set<Id>)
    ensures var (after, ok) := EnforceOne(st, license, true, fails);
            var ids := Sorted(ActivePairs(st.pairings, license));
            && after.licenses == SetLicenseStatus(st.licenses, license, LicenseRevoked)
            && (after.pairings, ok) == CutAll(st.pairings, ids, true, fails)
  {
    hide CutAll, Sorted, SetLicenseStatus, ActivePairs;
  }

  lemma ListedUpTo(s: set<Id>, p: Id)
    ensures UpTo(Sorted(s), p) == set q | q in s && q <= p
  {
    hide Sorted;
  }

  /** An interrupted license is quiet exactly when every failure on it is at its last pairing. */
  lemma StoppedLicense(st: Store, license: Id, fails: set<Id>)
    requires !EnforceOne(st, license, true, fails).1
    ensures var after := EnforceOne(st, license, true, fails).0;
            && (Quiet(after, license) <==>
                 forall p | p in ActivePairs(st.pairings, license) && p in fails :: LastPair(st.pairings, license, p))
            && (forall k | k != license :: Quiet(after, k) <==> Quiet(st, k))
            && exists p :: p in ActivePairs(st.pairings, license) && p in fails
  {
    hide *;
    EnforceOneParts(st, license, fails);
    var active := ActivePairs(st.pairings, license);
    AscendingSorted(active);
    var p := CutStopsAtFirst(st.pairings, Sorted(active), fails);
    assert p in active && p in fails && forall q | q in active && q < p :: q !in fails;
    ListedUpTo(active, p);
    CutUpTo(st.pairings, license, UpTo(Sorted(active), p), p);
    FirstDecides(st.pairings, license, fails, p);
    QuietByPairs(st, EnforceOne(st, license, true, fails).0, license);
  }

  lemma AscendingSorted(s: set<Id>)
    ensures Ascending(Sorted(s))
  {
    hide Sorted;
  }

  // ---------------------------------------------------------------------------
  // All licenses
  // ---------------------------------------------------------------------------

  /** A license that went through is quiet, and the others are as they were. */
  lemma PassedLicense(st: Store, license: Id, fails: set<Id>)
    requires EnforceOne(st, license, true, fails).1
    ensures var after := EnforceOne(st, license, true, fails).0;
            && ActivePairs(st.pairings, license) !! fails
            && Quiet(after, license)
            && (forall k | k != license ::
                 (Quiet(after, k) <==> Quiet(st, k)) && ActivePairs(after.pairings, k) == ActivePairs(st.pairings, k))
            && (forall k, p | k != license :: LastPair(after.pairings, k, p) <==> LastPair(st.pairings, k, p))
  {
    hide *;
    var after := EnforceOne(st, license, true, fails).0;
    EnforceOneParts(st, license, fails);
    SomeFailure(st.pairings, license, fails);
    CutWhole(st.pairings, license, fails);
    QuietByPairs(st, after, license);
    forall k, p | k != license ensures LastPair(after.pairings, k, p) <==> LastPair(st.pairings, k, p) {
      LastPairAlike(st.pairings, after.pairings, k, p);
    }
  }

  lemma LastPairAlike(a: map<Id, Pairing>, b: map<Id, Pairing>, license: Id, p: Id)
    requires ActivePairs(a, license) == ActivePairs(b, license)
    ensures LastPair(a, license, p) <==> LastPair(b, license, p)
  {
  }

  /** A cut that goes through leaves no active pairing on its license, and the others theirs. */
  lemma CutWhole(pairings: map<Id, Pairing>, license: Id, fails: set<Id>)
    requires CutAll(pairings, Sorted(ActivePairs(pairings, license)), true, fails).1
    ensures var after := CutAll(pairings, Sorted(ActivePairs(pairings, license)), true, fails).0;
            && ActivePairs(after, license) == {}
            && forall k | k != license :: ActivePairs(after, k) == ActivePairs(pairings, k)
  {
    var active := ActivePairs(pairings, license);
    assert Elements(Sorted(active)) == active;
    hide CutAll, RevokePairs, ActivePairs, Sorted;
    CutAllIs(pairings, Sorted(active), true, fails);
    StillActive(pairings, active, license);
    forall k | k != license ensures ActivePairs(RevokePairs(pairings, active), k) == ActivePairs(pairings, k) {
      StillActive(pairings, active, k);
      OfAnotherLicense(pairings, license, k);
    }
  }

  lemma QuietStays(a: Store, b: Store, ids: set<Id>, license: Id)
    requires Quiet(a, license) && OnlyEnforced(a, b, ids)
    ensures Quiet(b, license)
  {
  }

  /** Past a license that went through, only the rest decides. */
  lemma HarmlessAfterHead(st: Store, next: Store, head: Id, rest: set<Id>, fails: set<Id>)
    requires head !in rest && (forall k | k in rest :: head < k) && ActivePairs(st.pairings, head) !! fails
    requires forall k | k != head ::
             (Quiet(next, k) <==> Quiet(st, k)) && ActivePairs(next.pairings, k) == ActivePairs(st.pairings, k)
    requires forall k, p | k != head :: LastPair(next.pairings, k, p) <==> LastPair(st.pairings, k, p)
    ensures Harmless(st, {head} + rest, fails) <==> Harmless(next, rest, fails)
  {
    forall l, p | l in rest ensures LastToAnnounce(st, {head} + rest, l, p) <==> LastToAnnounce(next, rest, l, p) {
    }
    hide Quiet, ActivePairs, LastPair, LastToAnnounce;
  }

  /** At a license that stopped, nothing after it is done any more. */
  lemma HarmlessAtStop(st: Store, after: Store, head: Id, rest: set<Id>, fails: set<Id>)
    requires head !in rest && forall k | k in rest :: head < k
    requires Quiet(after, head) <==> forall p | p in ActivePairs(st.pairings, head) && p in fails ::
             LastPair(st.pairings, head, p)
    requires forall k | k != head :: Quiet(after, k) <==> Quiet(st, k)
    requires exists p :: p in ActivePairs(st.pairings, head) && p in fails
    ensures Harmless(st, {head} + rest, fails) <==> AllQuiet(after, {head} + rest)
  {
    if Harmless(st, {head} + rest, fails) {
      var p :| p in ActivePairs(st.pairings, head) && p in fails;
      assert LastToAnnounce(st, {head} + rest, head, p);
      assert forall q | q in ActivePairs(st.pairings, head) && q in fails :: LastToAnnounce(st, {head} + rest, head, q);
    }
    if AllQuiet(after, {head} + rest) {
      assert forall k | k in rest :: Quiet(after, k) && Quiet(st, k);
    }
  }

  /**
   Revoking enforcement, interrupted or not, leaves every license quiet exactly when each
   announcement that fails is the last thing it would do.
   */
  lemma {:induction false} EnforcementCompleteExactlyWhen(st: Store, ids: seq<Id>, fails: set<Id>)
    requires Ascending(ids)
    ensures AllQuiet(EnforceAll(st, ids, true, fails).0, Elements(ids)) <==> Harmless(st, Elements(ids), fails)
    decreases |ids|
  {
    if ids != [] {
      var head, rest := ids[0], Elements(ids[1..]);
      HeadAndRest(ids);
      AscendingTail(ids);
      var (next, ok) := EnforceOne(st, head, true, fails);
      if ok {
        PassedLicense(st, head, fails);
        EnforcementCompleteExactlyWhen(next, ids[1..], fails);
        HarmlessAfterHead(st, next, head, rest, fails);
        EnforceAllIs(next, ids[1..], true, fails);
        QuietStays(next, EnforceAll(next, ids[1..], true, fails).0, rest, head);
      } else {
        StoppedLicense(st, head, fails);
        HarmlessAtStop(st, next, head, rest, fails);
      }
      hide EnforceOne, Quiet, Harmless, Elements, ActivePairs;
    }
  }
}
