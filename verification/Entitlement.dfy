/** The entitlement rules: what a mirrored subscription allows at an instant. */
module Entitlement {
  import opened AuthStore

  datatype Behavior = Valid | Grace | Revoked | Suspended

  function Evaluate(sub: Subscription, now: Time): Behavior {
    match sub.status
    case SubTrialing => Valid
    case SubActive => Valid
    case SubPastDue => if sub.graceUntil == 0 || now < sub.graceUntil then Grace else Revoked
    case SubPaused => Suspended
    case _ => Revoked
  }

  predicate Issuable(b: Behavior) {
    b == Valid || b == Grace
  }

  predicate Enforced(b: Behavior) {
    b == Revoked || b == Suspended
  }

  /** Without billing an active license is enough; with it the subscription must allow issuing. */
  predicate LicenseIssuable(st: Store, config: Config, now: Time, lic: License) {
    && lic.status == LicenseActive
    && (config.billing ==> lic.sub in st.subs && Issuable(Evaluate(st.subs[lic.sub], now)))
  }

  // ---------------------------------------------------------------------------
  // In statuses and times
  // ---------------------------------------------------------------------------

  /** Trialing, active, or past due with no deadline or before it. */
  predicate InGoodStanding(sub: Subscription, now: Time) {
    || sub.status == SubTrialing || sub.status == SubActive
    || (sub.status == SubPastDue && (sub.graceUntil == 0 || now < sub.graceUntil))
  }

  /** Canceled, unpaid, expired or unknown, or past due from its deadline on. */
  predicate Over(sub: Subscription, now: Time) {
    match sub.status
    case SubCanceled => true
    case SubUnpaid => true
    case SubIncompleteExpired => true
    case SubUnknown(_) => true
    case SubPastDue => sub.graceUntil != 0 && sub.graceUntil <= now
    case _ => false
  }

  /** Tokens are issued exactly in good standing; otherwise the sessions are cut off, for good unless it is paused. */
  lemma IssuableOrEnforced(sub: Subscription, now: Time)
    ensures Issuable(Evaluate(sub, now)) <==> InGoodStanding(sub, now)
    ensures Enforced(Evaluate(sub, now)) <==> !InGoodStanding(sub, now)
    ensures Evaluate(sub, now) == Revoked <==> Over(sub, now)
    ensures Evaluate(sub, now) == Suspended <==> sub.status == SubPaused
  {
  }
}
