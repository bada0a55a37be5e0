/**
 Slot ownership over every run of the relay: a slot is empty or held by its last
 claimer, whatever happens to eviction notices, so renewals alone bring a slot down to
 one open connection.
 */
module RelaySlots {
  import opened Slots
  import opened Relay

  function LastClaimer(sh: Shared, key: SlotKey): ConnId
    requires sh.Claims(key) != []
  {
    sh.Claims(key)[|sh.Claims(key)| - 1]
  }

  ghost predicate HeldByLastClaimer(sh: Shared) {
    forall k | k in sh.slots :: sh.Claims(k) != [] && sh.slots[k].conn == LastClaimer(sh, k)
  }

  /** `c` made claim number `epoch` of its slot. */
  predicate MadeClaim(s: State, c: ConnId, epoch: nat) {
    && c in s.lives.conns
    && 0 < epoch <= |s.shared.Claims(s.lives.conns[c].key)|
    && s.shared.Claims(s.lives.conns[c].key)[epoch - 1] == c
  }

  /**
   A pending answer says "owner" only to the maker of the claim then current, and a
   connection that is still open after a renewal finished made that claim.
   */
  ghost predicate AnswersRight(s: State) {
    && (forall c | c in s.lives.open || c in s.lives.renewing || c in s.lives.finished :: c in s.lives.conns)
    && (forall c | c in s.lives.renewing && s.lives.renewing[c].owner :: MadeClaim(s, c, s.lives.renewing[c].epoch))
    && (forall c | c in s.lives.finished && c in s.lives.open :: MadeClaim(s, c, s.lives.finished[c]))
  }

  ghost predicate SlotSafe(s: State) {
    HeldByLastClaimer(s.shared) && AnswersRight(s)
  }

  lemma ClaimKeepsSlots(s: State, c: ConnId, key: SlotKey, inst: InstId, lost: bool)
    requires SlotSafe(s) && c !in s.lives.conns
    ensures SlotSafe(Claimer(s, c, key, inst, lost))
  {
    var s' := Claimer(s, c, key, inst, lost);
    forall d, epoch: nat | MadeClaim(s, d, epoch) ensures MadeClaim(s', d, epoch) {
    }
  }

  lemma RenewKeepsSlots(s: State, c: ConnId)
    requires SlotSafe(s) && c in s.lives.conns
    ensures SlotSafe(StartRenewal(s, c))
  {
    var s' := StartRenewal(s, c);
    forall d, epoch: nat | MadeClaim(s, d, epoch) ensures MadeClaim(s', d, epoch) {
    }
  }

  /** Only claims and renewals write entries; the other steps at most remove some. */
  ghost predicate OnlyRemoved(s: State, s': State) {
    && s'.shared.claims == s.shared.claims && s'.lives.conns == s.lives.conns
    && (forall k | k in s'.shared.slots :: k in s.shared.slots && s'.shared.slots[k] == s.shared.slots[k])
    && (forall c | c in s'.lives.renewing :: c in s.lives.renewing && s'.lives.renewing[c] == s.lives.renewing[c])
    && s'.lives.open <= s.lives.open
    && (forall c | c in s'.lives.finished :: c in s.lives.finished || c in s.lives.renewing)
    && (forall c | c in s'.lives.finished && c in s'.lives.open ::
          || (c in s.lives.finished && s'.lives.finished[c] == s.lives.finished[c])
          || (c in s.lives.renewing && s.lives.renewing[c] == Renewal(s'.lives.finished[c], true)))
  }

  lemma OtherStepsOnlyRemove(s: State, step: SlotStep)
    requires SlotEnabled(s, step) && !step.ClaimStep? && !step.RenewCall?
    ensures OnlyRemoved(s, SlotNext(s, step))
  {
    match step
    case Tick(_) =>
    case Purge(_) =>
    case CloseOld(_) =>
    case StoreIndex(_) =>
    case DeliverNotice(_) =>
    case LoseNotice(_) =>
    case RenewReact(_) =>
    case RenewLost(_) =>
    case Close(_) =>
    case LeaveIndex(_) =>
    case ReleaseStep(_) =>
  }

  lemma RemovalKeepsSlots(s: State, s': State)
    requires SlotSafe(s) && OnlyRemoved(s, s')
    ensures SlotSafe(s')
  {
  }

  lemma StepKeepsSlots(s: State, step: Step)
    requires SlotSafe(s) && Enabled(s, step)
    ensures SlotSafe(Next(s, step))
  {
    match step
    case Slot(slot) =>
      if slot.ClaimStep? {
        ClaimKeepsSlots(s, slot.conn, slot.key, slot.inst, slot.noticeLost);
      } else if slot.RenewCall? {
        RenewKeepsSlots(s, slot.conn);
      } else {
        OtherStepsOnlyRemove(s, slot);
        RemovalKeepsSlots(s, SlotNext(s, slot));
      }
    case Move(_) =>
      RemovalKeepsSlots(s, Next(s, step));
  }

  lemma {:induction false} RunKeepsSlots(s: State, steps: seq<Step>)
    requires SlotSafe(s)
    ensures SlotSafe(Exec(s, steps))
    decreases |steps|
  {
    hide SlotSafe, Next, Enabled;
    if steps != [] {
      if Enabled(s, steps[0]) {
        StepKeepsSlots(s, steps[0]);
        RunKeepsSlots(Next(s, steps[0]), steps[1..]);
      } else {
        RunKeepsSlots(s, steps[1..]);
      }
    }
  }

  /** On every run each slot is empty or held by the connection that claimed it last. */
  lemma {:induction false} SlotHeldByLastClaimer(now: int, ttl: int, steps: seq<Step>, key: SlotKey)
    ensures var sh := Exec(Init(now, ttl), steps).shared;
            key in sh.slots ==> sh.Claims(key) != [] && sh.slots[key].conn == LastClaimer(sh, key)
  {
    RunKeepsSlots(Init(now, ttl), steps);
  }

  /** `c` is open on `key`. */
  predicate OpenOn(s: State, c: ConnId, key: SlotKey) {
    c in s.lives.conns && s.lives.conns[c].key == key && c in s.lives.open
  }

  /** `c` has finished a renewal, whatever its answer, that was answered after the last claim of its slot. */
  predicate RenewedSinceLastClaim(s: State, c: ConnId, key: SlotKey) {
    c in s.lives.finished && s.lives.finished[c] == |s.shared.Claims(key)|
  }

  /**
   Convergence: on every run, once every connection open on a slot has finished a renewal
   since the last claim, at most one is open, and it is the last claimer.
   */
  lemma {:induction false} RenewalsConverge(now: int, ttl: int, steps: seq<Step>, key: SlotKey)
    ensures var s := Exec(Init(now, ttl), steps);
            (forall c | OpenOn(s, c, key) :: RenewedSinceLastClaim(s, c, key)) ==>
              forall c | OpenOn(s, c, key) :: s.shared.Claims(key) != [] && c == LastClaimer(s.shared, key)
  {
    RunKeepsSlots(Init(now, ttl), steps);
  }

  /** A superseded connection that renews is closed when it reacts, with no eviction notice needed. */
  lemma {:induction false} SupersededRenewalCloses(now: int, ttl: int, steps: seq<Step>, c: ConnId)
    ensures var s := Exec(Init(now, ttl), steps);
            SlotEnabled(s, RenewCall(c)) && c != LastOr(s.shared, s.lives.conns[c].key) ==>
              c !in Exec(s, [Slot(RenewCall(c)), Slot(RenewReact(c))]).lives.open
    ensures var s := Exec(Init(now, ttl), steps);
            SlotEnabled(s, RenewReact(c)) && s.lives.renewing[c].epoch == |s.shared.Claims(s.lives.conns[c].key)|
            && c != LastOr(s.shared, s.lives.conns[c].key) ==>
              c !in SlotNext(s, RenewReact(c)).lives.open
  {
    RunKeepsSlots(Init(now, ttl), steps);
    var s := Exec(Init(now, ttl), steps);
    if SlotEnabled(s, RenewCall(c)) && c != LastOr(s.shared, s.lives.conns[c].key) {
      var s1 := SlotNext(s, RenewCall(c));
      assert !s1.lives.renewing[c].owner;
      var rest := [Slot(RenewReact(c))];
      assert [Slot(RenewCall(c)), Slot(RenewReact(c))][1..] == rest;
      assert Exec(s, [Slot(RenewCall(c)), Slot(RenewReact(c))]) == Exec(s1, rest);
      assert Exec(s1, rest) == Exec(SlotNext(s1, RenewReact(c)), rest[1..]);
    }
  }

  function LastOr(sh: Shared, key: SlotKey): ConnId {
    if sh.Claims(key) == [] then "" else LastClaimer(sh, key)
  }
}
