/**
 What a sender is told about its frames, over every run: which outcome each frame gets, and
 that a frame nothing interferes with arrives.
 */
module RelayOutcomes {
  import opened Bytes
  import opened Roles
  import opened Slots
  import opened Relay
  import opened RelayRouting

  // ---------------------------------------------------------------------------
  // What happens to a frame
  // ---------------------------------------------------------------------------

  /** A live slot entry of the peer names another instance. */
  predicate HeldElsewhere(s: State, c: ConnId) {
    c in s.lives.conns &&
    var key := s.lives.conns[c].key.Peer();
    && key in s.shared.slots && s.shared.now < s.shared.slots[key].expiresAt
    && s.shared.slots[key].inst != "" && s.shared.slots[key].inst != s.lives.conns[c].inst
  }

  /** The frame is the last one in the queue of a session of its target slot, on the sender's instance. */
  ghost predicate QueuedAtPeer(s: State, s': State, f: Frame) {
    f.from in s.lives.conns &&
    exists p :: && p in s.lives.conns && s.lives.conns[p] == Conn(f.to, s.lives.conns[f.from].inst)
                && s'.traffic.Out(p) == s.traffic.Out(p) + [f]
  }

  /** The frame is the last one on the channel of another instance. */
  ghost predicate OnChannel(s: State, s': State, f: Frame) {
    f.from in s.lives.conns &&
    exists i :: i != s.lives.conns[f.from].inst && s'.traffic.Queue(i) == s.traffic.Queue(i) + [f]
  }

  /** The number `n` is that of the frame `c` is routing, and `f` is that frame. */
  ghost predicate IsFrame(s: State, c: ConnId, n: nat, f: Frame) {
    && c in s.lives.conns && |s.traffic.Outcomes(c)| == n < |s.traffic.Sent(c)|
    && f == Frame(c, n, s.lives.conns[c].key.Peer(), s.traffic.Sent(c)[n])
  }

  /**
   The step takes frame `n` of `c` on its way: a peer's queue accepts it, or it is published
   to another instance without an error, which may still lose it.
   */
  ghost predicate Forwards(s: State, step: Step, c: ConnId, n: nat) {
    Enabled(s, step) &&
    exists f :: IsFrame(s, c, n, f) &&
      (|| (step == Move(EnqueuePeer(c, true)) && QueuedAtPeer(s, Next(s, step), f))
       || (step == Move(PublishStep(c, Kept)) && OnChannel(s, Next(s, step), f))
       || step == Move(PublishStep(c, Dropped)))
  }

  /** The step gives up on frame `n` of `c`: its peer's queue refuses, publishing fails, or nobody holds the slot. */
  ghost predicate GivesUp(s: State, step: Step, c: ConnId, n: nat) {
    && Enabled(s, step) && |s.traffic.Outcomes(c)| == n
    && (|| step == Move(EnqueuePeer(c, false))
        || step == Move(PublishStep(c, Fate.Failed))
        || (step == Move(LookUpPeer(c)) && !HeldElsewhere(s, c)))
  }

  ghost predicate ForwardedAt(s: State, steps: seq<Step>, k: nat, c: ConnId, n: nat) {
    k < |steps| && Forwards(Exec(s, steps[..k]), steps[k], c, n)
  }

  ghost predicate GivenUpAt(s: State, steps: seq<Step>, k: nat, c: ConnId, n: nat) {
    k < |steps| && GivesUp(Exec(s, steps[..k]), steps[k], c, n)
  }

  // ---------------------------------------------------------------------------
  // One step
  // ---------------------------------------------------------------------------

  lemma EnqueueTells(s: State, c: ConnId, accepted: bool)
    requires Routed(s) && Enabled(s, Move(EnqueuePeer(c, accepted)))
    ensures var step := Move(EnqueuePeer(c, accepted));
            var t, t' := s.traffic, Next(s, step).traffic;
            && t'.Outcomes(c) == t.Outcomes(c) + [if accepted then Relayed else PeerOffline]
            && (forall d | d != c :: t'.Outcomes(d) == t.Outcomes(d))
            && (accepted ==> Forwards(s, step, c, |t.Outcomes(c)|))
  {
    hide Placed, InOrder;
    assert RouteRight(s.lives.conns, c, s.traffic.routing[c]);
    if accepted {
      var p := s.traffic.routing[c].peer;
      var s' := Next(s, Move(EnqueuePeer(c, true)));
      assert s'.traffic.Out(p) == s.traffic.Out(p) + [Pending(s, c)];
      assert QueuedAtPeer(s, s', Pending(s, c));
      assert IsFrame(s, c, |s.traffic.Outcomes(c)|, Pending(s, c));
    }
  }

  lemma PublishTells(s: State, c: ConnId, fate: Fate)
    requires Routed(s) && Enabled(s, Move(PublishStep(c, fate)))
    ensures var step := Move(PublishStep(c, fate));
            var t, t' := s.traffic, Next(s, step).traffic;
            && t'.Outcomes(c) == t.Outcomes(c) + [if fate.Failed? then PeerOffline else Relayed]
            && (forall d | d != c :: t'.Outcomes(d) == t.Outcomes(d))
            && (!fate.Failed? ==> Forwards(s, step, c, |t.Outcomes(c)|))
  {
    hide Placed, InOrder;
    assert RouteRight(s.lives.conns, c, s.traffic.routing[c]);
    assert IsFrame(s, c, |s.traffic.Outcomes(c)|, Pending(s, c));
    if fate.Kept? {
      var i := s.traffic.routing[c].inst;
      var s' := Next(s, Move(PublishStep(c, Kept)));
      assert s'.traffic.Queue(i) == s.traffic.Queue(i) + [Pending(s, c)];
      assert OnChannel(s, s', Pending(s, c));
    }
  }

  /** A look-up gives up at once exactly when no live entry of the peer's slot names another instance. */
  lemma LookupGivesUpExactlyWhen(s: State, c: ConnId)
    requires Enabled(s, Move(LookUpPeer(c)))
    ensures var t, t' := s.traffic, Next(s, Move(LookUpPeer(c))).traffic;
            && t'.Outcomes(c) == t.Outcomes(c) + (if HeldElsewhere(s, c) then [] else [PeerOffline])
            && (forall d | d != c :: t'.Outcomes(d) == t.Outcomes(d))
            && (HeldElsewhere(s, c) ==>
                  && c in t'.routing
                  && t'.routing[c] == ToInstance(s.shared.slots[s.lives.conns[c].key.Peer()].inst))
  {
    assert LookupInstance(s.shared.slots, s.lives.conns[c].key.Peer(), s.shared.now) != "" ==>
           Live(s.shared.slots, s.lives.conns[c].key.Peer(), s.shared.now);
  }

  /** A frame starts towards the indexed session of the peer's slot; without one its instance is looked up. */
  lemma SendHeadsForThePeer(s: State, c: ConnId, data: ByteString)
    requires Enabled(s, Move(Send(c, data)))
    ensures var t, t' := s.traffic, Next(s, Move(Send(c, data))).traffic;
            var at := (s.lives.conns[c].inst, s.lives.conns[c].key.Peer());
            && t'.Sent(c) == t.Sent(c) + [data] && c in t'.routing
            && (forall p :: t'.routing[c] == ToPeer(p) <==> at in s.index && s.index[at] == p)
            && (t'.routing[c] == Looking <==> at !in s.index)
            && (forall d :: t'.Outcomes(d) == t.Outcomes(d))
  {
  }

  /** The outcome a step settles for frame `n` of `c`, if any. */
  ghost function Verdict(s: State, step: Step, c: ConnId, n: nat): seq<Outcome> {
    if Forwards(s, step, c, n) then [Relayed] else if GivesUp(s, step, c, n) then [PeerOffline] else []
  }

  lemma NeverBoth(s: State, step: Step, c: ConnId, n: nat)
    ensures !(Forwards(s, step, c, n) && GivesUp(s, step, c, n))
  {
    hide Next, Enabled, IsFrame, QueuedAtPeer, OnChannel, HeldElsewhere;
  }

  /** Only a step of its own sender takes a frame on its way. */
  lemma ForwardsItsOwn(s: State, step: Step, c: ConnId, n: nat)
    ensures Forwards(s, step, c, n) ==>
              || step == Move(EnqueuePeer(c, true))
              || step == Move(PublishStep(c, Kept)) || step == Move(PublishStep(c, Dropped))
  {
    hide Next, Enabled, IsFrame, QueuedAtPeer, OnChannel;
  }

  lemma EnqueueVerdict(s: State, d: ConnId, accepted: bool, c: ConnId)
    requires Routed(s) && Enabled(s, Move(EnqueuePeer(d, accepted)))
    ensures Next(s, Move(EnqueuePeer(d, accepted))).traffic.Outcomes(c) ==
            s.traffic.Outcomes(c) + Verdict(s, Move(EnqueuePeer(d, accepted)), c, |s.traffic.Outcomes(c)|)
  {
    hide Next, Enabled, Routed, Forwards, HeldElsewhere;
    EnqueueTells(s, d, accepted);
    ForwardsItsOwn(s, Move(EnqueuePeer(d, accepted)), c, |s.traffic.Outcomes(c)|);
  }

  lemma PublishVerdict(s: State, d: ConnId, fate: Fate, c: ConnId)
    requires Routed(s) && Enabled(s, Move(PublishStep(d, fate)))
    ensures Next(s, Move(PublishStep(d, fate))).traffic.Outcomes(c) ==
            s.traffic.Outcomes(c) + Verdict(s, Move(PublishStep(d, fate)), c, |s.traffic.Outcomes(c)|)
  {
    hide Next, Enabled, Routed, Forwards, HeldElsewhere;
    PublishTells(s, d, fate);
    ForwardsItsOwn(s, Move(PublishStep(d, fate)), c, |s.traffic.Outcomes(c)|);
  }

  lemma LookUpVerdict(s: State, d: ConnId, c: ConnId)
    requires Enabled(s, Move(LookUpPeer(d)))
    ensures Next(s, Move(LookUpPeer(d))).traffic.Outcomes(c) ==
            s.traffic.Outcomes(c) + Verdict(s, Move(LookUpPeer(d)), c, |s.traffic.Outcomes(c)|)
  {
    hide Next, Enabled, Forwards, HeldElsewhere;
    LookupGivesUpExactlyWhen(s, d);
    ForwardsItsOwn(s, Move(LookUpPeer(d)), c, |s.traffic.Outcomes(c)|);
  }

  predicate Settling(step: Step) {
    step.Move? && (step.move.EnqueuePeer? || step.move.PublishStep? || step.move.LookUpPeer?)
  }

  /** The other steps settle nothing and report nothing. */
  lemma OtherVerdict(s: State, step: Step, c: ConnId)
    requires Enabled(s, step) && !Settling(step)
    ensures Verdict(s, step, c, |s.traffic.Outcomes(c)|) == []
    ensures Next(s, step).traffic.Outcomes(c) == s.traffic.Outcomes(c)
  {
    match step
    case Slot(_) => hide SlotNext;
    case Move(Send(d, data)) => SendHeadsForThePeer(s, d, data);
    case Move(Fetch(_)) =>
    case Move(Hand(_, _)) =>
    case Move(Write(_, _)) =>
  }

  /** A step tells `c` exactly what it settles. */
  lemma StepTells(s: State, step: Step, c: ConnId)
    requires Routed(s) && Enabled(s, step)
    ensures Next(s, step).traffic.Outcomes(c) ==
            s.traffic.Outcomes(c) + Verdict(s, step, c, |s.traffic.Outcomes(c)|)
  {
    hide Routed, Verdict, Next, Enabled;
    if !Settling(step) {
      OtherVerdict(s, step, c);
    } else {
      match step
      case Move(EnqueuePeer(d, accepted)) => EnqueueVerdict(s, d, accepted, c);
      case Move(PublishStep(d, fate)) => PublishVerdict(s, d, fate, c);
      case Move(LookUpPeer(d)) => LookUpVerdict(s, d, c);
    }
  }

  // ---------------------------------------------------------------------------
  // Every run
  // ---------------------------------------------------------------------------

  function After(s: State, steps: seq<Step>): State
    requires steps != []
  {
    if Enabled(s, steps[0]) then Next(s, steps[0]) else s
  }

  lemma ExecShift(s: State, steps: seq<Step>, k: nat)
    requires steps != [] && k < |steps|
    ensures Exec(s, steps[..k + 1]) == Exec(After(s, steps), steps[1..][..k])
  {
    hide Next, Enabled;
    assert steps[..k + 1][1..] == steps[1..][..k];
  }

  lemma StepGrows(s: State, step: Step)
    requires Enabled(s, step)
    ensures Grows(s.traffic, Next(s, step).traffic)
  {
    match step
    case Slot(_) => hide SlotNext;
    case Move(move) =>
      FrameStepGrows(s, move);
      hide Moved, Grows;
  }

  lemma {:induction false} OutcomesGrow(s: State, steps: seq<Step>, c: ConnId)
    ensures s.traffic.Outcomes(c) <= Exec(s, steps).traffic.Outcomes(c)
    decreases |steps|
  {
    hide Next, Enabled;
    if steps != [] {
      if Enabled(s, steps[0]) {
        StepGrows(s, steps[0]);
      }
      OutcomesGrow(After(s, steps), steps[1..], c);
    }
  }

  lemma AtShifted(s: State, steps: seq<Step>, k: nat, c: ConnId, n: nat)
    requires steps != []
    ensures ForwardedAt(s, steps, k + 1, c, n) <==> ForwardedAt(After(s, steps), steps[1..], k, c, n)
    ensures GivenUpAt(s, steps, k + 1, c, n) <==> GivenUpAt(After(s, steps), steps[1..], k, c, n)
  {
    if k + 1 < |steps| {
      ExecShift(s, steps, k);
    }
    hide Exec, After, Forwards, GivesUp;
  }

  lemma AtFirst(s: State, steps: seq<Step>, c: ConnId, n: nat)
    requires steps != []
    ensures ForwardedAt(s, steps, 0, c, n) <==> Forwards(s, steps[0], c, n)
    ensures GivenUpAt(s, steps, 0, c, n) <==> GivesUp(s, steps[0], c, n)
  {
    assert steps[..0] == [];
    hide Forwards, GivesUp;
  }

  /** Whatever happens to frame `n` happens while `n` outcomes are known. */
  lemma HappensInTime(s: State, step: Step, c: ConnId, n: nat)
    ensures Forwards(s, step, c, n) || GivesUp(s, step, c, n) ==> |s.traffic.Outcomes(c)| == n && Enabled(s, step)
  {
    hide Next, Enabled;
  }

  /** Once its outcome is known, nothing happens to a frame any more. */
  lemma NothingLater(s: State, steps: seq<Step>, k: nat, c: ConnId, n: nat)
    requires n < |s.traffic.Outcomes(c)|
    ensures !ForwardedAt(s, steps, k, c, n) && !GivenUpAt(s, steps, k, c, n)
  {
    if k < |steps| {
      OutcomesGrow(s, steps[..k], c);
      HappensInTime(Exec(s, steps[..k]), steps[k], c, n);
    }
    hide Forwards, GivesUp, Exec;
  }

  /** A frame whose outcome is still open when the rest of the run begins. */
  lemma {:induction false} OpenFrame(s: State, steps: seq<Step>, c: ConnId, n: nat)
    requires Routed(s) && |s.traffic.Outcomes(c)| <= n < |Exec(s, steps).traffic.Outcomes(c)|
    ensures var told := Exec(s, steps).traffic.Outcomes(c)[n];
            && (told == Relayed <==> exists k :: ForwardedAt(s, steps, k, c, n))
            && (told == PeerOffline <==> exists k :: GivenUpAt(s, steps, k, c, n))
    decreases |steps|
  {
    hide Routed, Next, Enabled, Forwards, GivesUp, ForwardedAt, GivenUpAt;
    var next, rest := After(s, steps), steps[1..];
    AtFirst(s, steps, c, n);
    HappensInTime(s, steps[0], c, n);
    NeverBoth(s, steps[0], c, n);
    if Enabled(s, steps[0]) {
      StepKeepsRouted(s, steps[0]);
      StepTells(s, steps[0], c);
    }
    if n < |next.traffic.Outcomes(c)| {
      OutcomesGrow(next, rest, c);
      assert Exec(s, steps).traffic.Outcomes(c)[n] == next.traffic.Outcomes(c)[n];
      FirstDecides(s, steps, c, n);
    } else {
      OpenFrame(next, rest, c, n);
      RestDecides(s, steps, c, n);
    }
  }

  /** If the first step settles the frame, only that step does. */
  lemma FirstDecides(s: State, steps: seq<Step>, c: ConnId, n: nat)
    requires steps != [] && n < |After(s, steps).traffic.Outcomes(c)|
    ensures (exists k :: ForwardedAt(s, steps, k, c, n)) <==> ForwardedAt(s, steps, 0, c, n)
    ensures (exists k :: GivenUpAt(s, steps, k, c, n)) <==> GivenUpAt(s, steps, 0, c, n)
  {
    hide After, ForwardedAt, GivenUpAt;
    forall k | k > 0 ensures !ForwardedAt(s, steps, k, c, n) && !GivenUpAt(s, steps, k, c, n) {
      AtShifted(s, steps, k - 1, c, n);
      NothingLater(After(s, steps), steps[1..], k - 1, c, n);
    }
  }

  /** If it does not, the rest of the run decides. */
  lemma RestDecides(s: State, steps: seq<Step>, c: ConnId, n: nat)
    requires steps != [] && !ForwardedAt(s, steps, 0, c, n) && !GivenUpAt(s, steps, 0, c, n)
    ensures (exists k :: ForwardedAt(s, steps, k, c, n)) <==>
            (exists k :: ForwardedAt(After(s, steps), steps[1..], k, c, n))
    ensures (exists k :: GivenUpAt(s, steps, k, c, n)) <==>
            (exists k :: GivenUpAt(After(s, steps), steps[1..], k, c, n))
  {
    hide After, ForwardedAt, GivenUpAt;
    forall k: nat
      ensures ForwardedAt(s, steps, k + 1, c, n) <==> ForwardedAt(After(s, steps), steps[1..], k, c, n)
      ensures GivenUpAt(s, steps, k + 1, c, n) <==> GivenUpAt(After(s, steps), steps[1..], k, c, n)
    {
      AtShifted(s, steps, k, c, n);
    }
    if k: nat :| ForwardedAt(s, steps, k, c, n) {
      assert k > 0 && ForwardedAt(After(s, steps), steps[1..], k - 1, c, n);
    }
    if k: nat :| GivenUpAt(s, steps, k, c, n) {
      assert k > 0 && GivenUpAt(After(s, steps), steps[1..], k - 1, c, n);
    }
  }

  /**
   On every run a frame is reported as relayed exactly when some step queued it at a session
   of its peer's slot or published it to another instance without an error, and as
   peer-offline exactly when its peer's queue refused it, publishing failed, or no live entry
   of the peer's slot named another instance.
   */
  lemma {:induction false} OutcomeTellsWhatHappened(now: int, ttl: int, steps: seq<Step>, c: ConnId, n: nat)
    requires n < |Exec(Init(now, ttl), steps).traffic.Outcomes(c)|
    ensures var s := Init(now, ttl);
            var told := Exec(s, steps).traffic.Outcomes(c)[n];
            && (told == Relayed <==> exists k :: ForwardedAt(s, steps, k, c, n))
            && (told == PeerOffline <==> exists k :: GivenUpAt(s, steps, k, c, n))
  {
    NothingYet(now, ttl);
    hide Routed, Exec, ForwardedAt, GivenUpAt;
    OpenFrame(Init(now, ttl), steps, c, n);
  }

  // ---------------------------------------------------------------------------
  // A frame nothing interferes with
  // ---------------------------------------------------------------------------

  lemma ExecFirst(s: State, step: Step, rest: seq<Step>)
    requires Enabled(s, step)
    ensures Exec(s, [step] + rest) == Exec(Next(s, step), rest)
  {
    hide Next, Enabled;
    assert ([step] + rest)[1..] == rest;
  }

  lemma ExecOnly(s: State, step: Step)
    requires Enabled(s, step)
    ensures Exec(s, [step]) == Next(s, step)
  {
    hide Next, Enabled;
    assert [step][1..] == [];
  }

  /** The sender serves, all its frames are reported, and the receiver's queue is empty. */
  ghost predicate Idle(s: State, c: ConnId, p: ConnId) {
    && InPhase(s.lives, c, Serving) && c !in s.traffic.routing && |s.traffic.Outcomes(c)| == |s.traffic.Sent(c)|
    && p in s.lives.conns && s.traffic.Out(p) == []
  }

  function NewFrame(s: State, c: ConnId, data: ByteString): Frame
    requires c in s.lives.conns
  {
    Frame(c, |s.traffic.Sent(c)|, s.lives.conns[c].key.Peer(), data)
  }

  /** Connections, index and registry are the same, and so are the frames that are on their way. */
  ghost predicate SameElsewhere(s: State, s': State) {
    && s'.lives.conns == s.lives.conns && s'.shared == s.shared && s'.index == s.index
    && s'.traffic.out == s.traffic.out && s'.traffic.received == s.traffic.received
    && s'.traffic.queues == s.traffic.queues && s'.traffic.handing == s.traffic.handing
  }

  /** After sending, the frame is the one being routed. */
  lemma Sending(s: State, c: ConnId, p: ConnId, data: ByteString)
    requires Idle(s, c, p)
    ensures Enabled(s, Move(Send(c, data)))
    ensures var s' := Next(s, Move(Send(c, data)));
            IsRouting(s', c) && Pending(s', c) == NewFrame(s, c, data) && SameElsewhere(s, s')
  {
    var s' := Next(s, Move(Send(c, data)));
    assert s'.traffic.Sent(c) == s.traffic.Sent(c) + [data] && s'.traffic.Outcomes(c) == s.traffic.Outcomes(c);
  }

  /** The peer's queue takes the frame. */
  lemma QueueingArrives(s: State, c: ConnId, p: ConnId, f: Frame)
    requires IsRouting(s, c) && s.traffic.routing[c] == ToPeer(p) && Pending(s, c) == f
    requires p in s.lives.conns && s.traffic.Out(p) == []
    ensures Enabled(s, Move(EnqueuePeer(c, true)))
    ensures var s' := Next(s, Move(EnqueuePeer(c, true)));
            && s'.traffic.Out(p) == [f] && s'.lives.conns == s.lives.conns
            && s'.traffic.Received(p) == s.traffic.Received(p)
  {
  }

  /** The receiver's write pump sends the one queued frame. */
  lemma WritingArrives(s: State, p: ConnId, f: Frame)
    requires p in s.lives.conns && s.traffic.Out(p) == [f]
    ensures Enabled(s, Move(Write(p, true)))
    ensures Next(s, Move(Write(p, true))).traffic.Received(p) == s.traffic.Received(p) + [f]
  {
  }

  /** A frame to a peer on the same instance arrives, if the peer's queue and socket take it. */
  lemma LocalFrameArrives(s: State, c: ConnId, p: ConnId, data: ByteString)
    requires Idle(s, c, p)
    requires var at := (s.lives.conns[c].inst, s.lives.conns[c].key.Peer()); at in s.index && s.index[at] == p
    ensures var steps := [Move(Send(c, data))] + ([Move(EnqueuePeer(c, true))] + [Move(Write(p, true))]);
            Exec(s, steps).traffic.Received(p) == s.traffic.Received(p) + [NewFrame(s, c, data)]
  {
    hide Next, Enabled, Exec, Pending;
    var f := NewFrame(s, c, data);
    Sending(s, c, p, data);
    SendHeadsForThePeer(s, c, data);
    var s1 := Next(s, Move(Send(c, data)));
    QueueingArrives(s1, c, p, f);
    var s2 := Next(s1, Move(EnqueuePeer(c, true)));
    WritingArrives(s2, p, f);
    ExecFirst(s, Move(Send(c, data)), [Move(EnqueuePeer(c, true))] + [Move(Write(p, true))]);
    ExecFirst(s1, Move(EnqueuePeer(c, true)), [Move(Write(p, true))]);
    ExecOnly(s2, Move(Write(p, true)));
  }

  /** The frame is on the channel of instance `i`, alone. */
  lemma PublishingArrives(s: State, c: ConnId, i: InstId, f: Frame)
    requires IsRouting(s, c) && s.traffic.routing[c] == ToInstance(i) && Pending(s, c) == f
    requires s.traffic.Queue(i) == []
    ensures Enabled(s, Move(PublishStep(c, Kept)))
    ensures var s' := Next(s, Move(PublishStep(c, Kept)));
            && s'.lives.conns == s.lives.conns && s'.index == s.index && s'.traffic.Queue(i) == [f]
            && s'.traffic.handing == s.traffic.handing && s'.traffic.out == s.traffic.out
            && s'.traffic.received == s.traffic.received
  {
  }

  /** The look-up finds the instance, and the frame is still the one being routed. */
  lemma LookingFinds(s: State, c: ConnId)
    requires IsRouting(s, c) && s.traffic.routing[c] == Looking && HeldElsewhere(s, c)
    ensures Enabled(s, Move(LookUpPeer(c)))
    ensures var s' := Next(s, Move(LookUpPeer(c)));
            && SameElsewhere(s, s') && IsRouting(s', c) && Pending(s', c) == Pending(s, c)
            && s'.traffic.routing[c] == ToInstance(s.shared.slots[s.lives.conns[c].key.Peer()].inst)
  {
    hide HeldElsewhere;
    LookupGivesUpExactlyWhen(s, c);
  }

  /** Instance `i` takes the frame off its channel and hands it to the indexed session. */
  lemma HandingArrives(s: State, i: InstId, p: ConnId, f: Frame)
    requires s.traffic.Queue(i) == [f] && i !in s.traffic.handing && s.traffic.Out(p) == []
    requires (i, f.to) in s.index && s.index[(i, f.to)] == p
    ensures Enabled(s, Move(Fetch(i)))
    ensures var s1 := Next(s, Move(Fetch(i)));
            && Enabled(s1, Move(Hand(i, true)))
            && var s2 := Next(s1, Move(Hand(i, true)));
               && s2.traffic.Out(p) == [f] && s2.lives.conns == s.lives.conns
               && s2.traffic.Received(p) == s.traffic.Received(p)
  {
  }

  function RemoteSteps(c: ConnId, i: InstId, p: ConnId, data: ByteString): seq<Step> {
    [Move(Send(c, data))] + ([Move(LookUpPeer(c))] + ([Move(PublishStep(c, Kept))] +
      ([Move(Fetch(i))] + ([Move(Hand(i, true))] + [Move(Write(p, true))]))))
  }

  /** A frame to a peer on another instance arrives, if channel, queue and socket take it. */
  lemma RemoteFrameArrives(s: State, c: ConnId, i: InstId, p: ConnId, data: ByteString)
    requires Idle(s, c, p) && s.traffic.Queue(i) == [] && i !in s.traffic.handing
    requires (s.lives.conns[c].inst, s.lives.conns[c].key.Peer()) !in s.index
    requires HeldElsewhere(s, c) && s.shared.slots[s.lives.conns[c].key.Peer()].inst == i
    requires (i, s.lives.conns[c].key.Peer()) in s.index && s.index[(i, s.lives.conns[c].key.Peer())] == p
    ensures Exec(s, RemoteSteps(c, i, p, data)).traffic.Received(p) ==
            s.traffic.Received(p) + [NewFrame(s, c, data)]
  {
    hide Next, Enabled, Exec, Pending;
    var f := NewFrame(s, c, data);
    Sending(s, c, p, data);
    SendHeadsForThePeer(s, c, data);
    var s1 := Next(s, Move(Send(c, data)));
    LookingFinds(s1, c);
    var s2 := Next(s1, Move(LookUpPeer(c)));
    hide HeldElsewhere;
    PublishingArrives(s2, c, i, f);
    var s3 := Next(s2, Move(PublishStep(c, Kept)));
    HandingArrives(s3, i, p, f);
    var s4 := Next(s3, Move(Fetch(i)));
    var s5 := Next(s4, Move(Hand(i, true)));
    WritingArrives(s5, p, f);
    var last := [Move(Write(p, true))];
    var handing := [Move(Fetch(i))] + ([Move(Hand(i, true))] + last);
    ExecFirst(s, Move(Send(c, data)), [Move(LookUpPeer(c))] + ([Move(PublishStep(c, Kept))] + handing));
    ExecFirst(s1, Move(LookUpPeer(c)), [Move(PublishStep(c, Kept))] + handing);
    ExecFirst(s2, Move(PublishStep(c, Kept)), handing);
    ExecFirst(s3, Move(Fetch(i)), [Move(Hand(i, true))] + last);
    ExecFirst(s4, Move(Hand(i, true)), last);
    ExecOnly(s5, Move(Write(p, true)));
  }
}
