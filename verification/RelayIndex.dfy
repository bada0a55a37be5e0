/**
 Who is in the index of an instance, over every run, and exactly what closes a connection.
 */
module RelayIndex {
  import opened Bytes
  import opened Roles
  import opened Slots
  import opened Relay

  // ---------------------------------------------------------------------------
  // The index
  // ---------------------------------------------------------------------------

  /** Only connections that have entered the index count as its last entrants. */
  ghost predicate EntrantsRight(conns: map<ConnId, Conn>, phase: map<ConnId, Phase>, entered: Index) {
    forall at | at in entered ::
      && entered[at] in conns && conns[entered[at]] == Conn(at.1, at.0)
      && entered[at] in phase && phase[entered[at]] in {Serving, Unindexed, Gone}
  }

  /** The index shows the last entrant for a slot, while it serves. */
  ghost predicate Latest(conns: map<ConnId, Conn>, phase: map<ConnId, Phase>, entered: Index, index: Index) {
    && EntrantsRight(conns, phase, entered)
    && (forall at :: at in index <==> at in entered && phase[entered[at]] == Serving)
    && (forall at | at in index :: index[at] == entered[at])
  }

  ghost predicate IndexIsLatest(s: State) {
    Latest(s.lives.conns, s.lives.phase, s.lives.entered, s.index)
  }

  lemma NewcomerLatest(conns: map<ConnId, Conn>, phase: map<ConnId, Phase>, entered: Index, index: Index, c: ConnId,
                       conn: Conn, p: Phase)
    requires Latest(conns, phase, entered, index) && c !in conns
    ensures Latest(conns[c := conn], phase[c := p], entered, index)
  {
  }

  /** A connection that has not entered yet, or has left already, moves on. */
  lemma MovingOnLatest(conns: map<ConnId, Conn>, phase: map<ConnId, Phase>, entered: Index, index: Index, c: ConnId,
                       p: Phase)
    requires Latest(conns, phase, entered, index) && c in phase
    requires (phase[c].Claimed? && p == Cleared) || (phase[c] == Unindexed && p == Gone)
    ensures Latest(conns, phase[c := p], entered, index)
  {
  }

  lemma EnteringLatest(conns: map<ConnId, Conn>, phase: map<ConnId, Phase>, entered: Index, index: Index, c: ConnId)
    requires Latest(conns, phase, entered, index) && c in conns && c in phase && phase[c] == Cleared
    ensures var at := (conns[c].inst, conns[c].key);
            Latest(conns, phase[c := Serving], entered[at := c], index[at := c])
  {
    assert forall at | at in entered :: entered[at] != c;
  }

  lemma LeavingLatest(conns: map<ConnId, Conn>, phase: map<ConnId, Phase>, entered: Index, index: Index, c: ConnId)
    requires Latest(conns, phase, entered, index) && c in conns && c in phase && phase[c] == Serving
    ensures var at := (conns[c].inst, conns[c].key);
            Latest(conns, phase[c := Unindexed], entered,
                   if at in index && index[at] == c then index - {at} else index)
  {
  }

  lemma SlotStepLatest(s: State, step: SlotStep)
    requires IndexIsLatest(s) && SlotEnabled(s, step)
    ensures IndexIsLatest(SlotNext(s, step))
  {
    hide Latest, ClaimSlot, EvictionNotice, RenewSlot, ReleaseSlot;
    var conns, phase, entered, index := s.lives.conns, s.lives.phase, s.lives.entered, s.index;
    match step
    case Tick(_) =>
    case Purge(_) =>
    case ClaimStep(c, key, inst, lost) =>
      NewcomerLatest(conns, phase, entered, index, c, Conn(key, inst), SlotNext(s, step).lives.phase[c]);
    case CloseOld(c) => MovingOnLatest(conns, phase, entered, index, c, Cleared);
    case StoreIndex(c) => EnteringLatest(conns, phase, entered, index, c);
    case DeliverNotice(_) =>
    case LoseNotice(_) =>
    case RenewCall(_) =>
    case RenewReact(_) =>
    case RenewLost(_) =>
    case Close(_) =>
    case LeaveIndex(c) => LeavingLatest(conns, phase, entered, index, c);
    case ReleaseStep(c) => MovingOnLatest(conns, phase, entered, index, c, Gone);
  }

  lemma StepLatest(s: State, step: Step)
    requires IndexIsLatest(s) && Enabled(s, step)
    ensures IndexIsLatest(Next(s, step))
  {
    hide SlotNext, SlotEnabled, Moved, Latest;
    match step
    case Slot(slot) => SlotStepLatest(s, slot);
    case Move(_) =>
  }

  lemma {:induction false} RunLatest(s: State, steps: seq<Step>)
    requires IndexIsLatest(s)
    ensures IndexIsLatest(Exec(s, steps))
    decreases |steps|
  {
    hide IndexIsLatest, Next, Enabled;
    if steps != [] {
      if Enabled(s, steps[0]) {
        StepLatest(s, steps[0]);
        RunLatest(Next(s, steps[0]), steps[1..]);
      } else {
        RunLatest(s, steps[1..]);
      }
    }
  }

  /**
   On every run an instance's index shows a connection for a slot exactly when that
   connection was the last to enter it there and is still serving: nobody else's leaving, late
   or not, removes it.
   */
  lemma {:induction false} IndexShowsTheLatest(
      now: int, ttl: int, steps: seq<Step>, inst: InstId, key: SlotKey, c: ConnId)
    ensures var s := Exec(Init(now, ttl), steps);
            var at := (inst, key);
            (at in s.index && s.index[at] == c) <==>
            (at in s.lives.entered && s.lives.entered[at] == c && InPhase(s.lives, c, Serving))
  {
    RunLatest(Init(now, ttl), steps);
    hide Exec;
  }

  // ---------------------------------------------------------------------------
  // Closing
  // ---------------------------------------------------------------------------

  /** The step is a reason to close `c`. */
  ghost predicate Closes(s: State, step: Step, c: ConnId) {
    match step
    case Slot(Close(d)) => d == c
    case Slot(CloseOld(d)) =>
      && d in s.lives.conns && d in s.lives.phase && s.lives.phase[d] == Phase.Claimed(c) && c != ""
      && var at := (s.lives.conns[d].inst, s.lives.conns[d].key); at in s.index && s.index[at] == c
    case Slot(DeliverNotice(i)) => i < |s.notices| && s.notices[i] in s.index && s.index[s.notices[i]] == c
    case Slot(RenewReact(d)) => d == c && d in s.lives.renewing && !s.lives.renewing[d].owner
    case Move(EnqueuePeer(d, false)) => d in s.traffic.routing && s.traffic.routing[d] == ToPeer(c)
    case Move(Write(d, false)) => d == c
    case _ => false
  }

  /**
   An open connection is closed by a step exactly when it was displaced and is still indexed,
   a notice finds it in the index, its renewal found the slot lost, a frame for it was refused
   by its queue, a write to it failed, or it is closed for a reason of its own; and a
   connection becomes open only by claiming its slot.
   */
  lemma ClosedExactlyWhen(s: State, step: Step, c: ConnId)
    requires Enabled(s, step)
    ensures c in s.lives.open ==> (c !in Next(s, step).lives.open <==> Closes(s, step, c))
    ensures c !in s.lives.open ==>
              (c in Next(s, step).lives.open <==> step.Slot? && step.slot.ClaimStep? && step.slot.conn == c)
  {
    match step
    case Slot(slot) => SlotClosesExactlyWhen(s, slot, c);
    case Move(move) => hide Moved;
  }

  lemma SlotClosesExactlyWhen(s: State, slot: SlotStep, c: ConnId)
    requires SlotEnabled(s, slot)
    ensures c in s.lives.open ==> (c !in SlotNext(s, slot).lives.open <==> Closes(s, Slot(slot), c))
    ensures c !in s.lives.open ==> (c in SlotNext(s, slot).lives.open <==> slot.ClaimStep? && slot.conn == c)
  {
    hide ClaimSlot, EvictionNotice, RenewSlot, ReleaseSlot;
    match slot
    case Tick(_) =>
    case Purge(_) =>
    case ClaimStep(_, _, _, _) =>
    case CloseOld(_) =>
    case StoreIndex(_) =>
    case DeliverNotice(_) =>
    case LoseNotice(_) =>
    case RenewCall(_) =>
    case RenewReact(_) =>
    case RenewLost(_) =>
    case Close(_) =>
    case LeaveIndex(_) =>
    case ReleaseStep(_) =>
  }

  // ---------------------------------------------------------------------------
  // Displacing
  // ---------------------------------------------------------------------------

  /** A live entry of the slot belongs to another connection. */
  predicate Displaced(s: State, key: SlotKey, c: ConnId) {
    key in s.shared.slots && s.shared.now < s.shared.slots[key].expiresAt && s.shared.slots[key].conn != c
  }

  /**
   A claim takes the slot. The displaced live holder is remembered for closing if it is on the
   same instance; otherwise that instance gets a notice about the slot, unless it is lost; with
   nobody displaced there is neither.
   */
  lemma ClaimTells(s: State, c: ConnId, key: SlotKey, inst: InstId, lost: bool)
    requires c != "" && c !in s.lives.conns
    ensures var s' := SlotNext(s, ClaimStep(c, key, inst, lost));
            && key in s'.shared.slots && s'.shared.slots[key] == Entry(c, inst, s.shared.now + s.shared.ttl)
            && c in s'.lives.conns && s'.lives.conns[c] == Conn(key, inst)
            && c in s'.lives.phase && s'.lives.phase[c] ==
               Phase.Claimed(if Displaced(s, key, c) && s.shared.slots[key].inst == inst
                             then s.shared.slots[key].conn else "")
            && s'.notices == s.notices + (if Displaced(s, key, c) && s.shared.slots[key].inst != inst && !lost
                                          then [(s.shared.slots[key].inst, key)] else [])
  {
  }

  /** A renewal extends the entry of the slot's owner from now, and answers whether it is the owner. */
  lemma RenewalTells(s: State, c: ConnId)
    requires SlotEnabled(s, RenewCall(c))
    ensures var s' := SlotNext(s, RenewCall(c));
            var key := s.lives.conns[c].key;
            var owner := key in s.shared.slots && s.shared.slots[key].conn == c;
            && c in s'.lives.renewing && s'.lives.renewing[c].owner == owner
            && s'.shared.slots == if owner
               then s.shared.slots[key := s.shared.slots[key].(expiresAt := s.shared.now + s.shared.ttl)]
               else s.shared.slots
  {
  }

  /** A connection that leaves gives its slot back, if it is still its own, and no other. */
  lemma ReleaseTells(s: State, c: ConnId)
    requires SlotEnabled(s, ReleaseStep(c))
    ensures var s' := SlotNext(s, ReleaseStep(c));
            var key := s.lives.conns[c].key;
            && (key in s'.shared.slots ==> s'.shared.slots[key].conn != c)
            && (forall k | k in s.shared.slots && (k != key || s.shared.slots[k].conn != c) ::
                  k in s'.shared.slots && s'.shared.slots[k] == s.shared.slots[k])
  {
  }
}
