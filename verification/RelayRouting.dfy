/**
 Routing over every run of the relay: what a session receives from a sender is an
 in-order subsequence of what that sender sent, from the same pair and the other role,
 each frame at most once; and every frame is reported exactly once.
 */
module RelayRouting {
  import opened Bytes
  import opened Roles
  import opened Slots
  import opened Relay

  // ---------------------------------------------------------------------------
  // Order
  // ---------------------------------------------------------------------------

  /** Frames of one sender appear in sending order, none twice. */
  ghost predicate Ordered(fs: seq<Frame>) {
    forall a, b | 0 <= a < b < |fs| && fs[a].from == fs[b].from :: fs[a].num < fs[b].num
  }

  /** Whatever a sender has in `fs` was sent before what it has in `gs`. */
  ghost predicate Before(fs: seq<Frame>, gs: seq<Frame>) {
    forall f, g | f in fs && g in gs && f.from == g.from :: f.num < g.num
  }

  /**
   A session's pipeline is in order: received, queued for writing, being handed over on
   its instance, and waiting in its instance's channel.
   */
  ghost predicate Chain(received: seq<Frame>, out: seq<Frame>, held: seq<Frame>, queue: seq<Frame>) {
    && Ordered(received) && Ordered(out) && Ordered(queue) && |held| <= 1
    && Before(received, out) && Before(received, held) && Before(received, queue)
    && Before(out, held) && Before(out, queue) && Before(held, queue)
  }

  lemma OrderedTail(fs: seq<Frame>)
    requires Ordered(fs) && fs != []
    ensures Ordered(fs[1..]) && Before([fs[0]], fs[1..])
  {
  }

  lemma OrderedAppend(fs: seq<Frame>, f: Frame)
    requires Ordered(fs) && Before(fs, [f])
    ensures Ordered(fs + [f])
  {
  }

  /** A pipeline stays in order when frames only move from one segment to the next, or disappear. */
  lemma BeforeFewer(fs: seq<Frame>, gs: seq<Frame>, fs': seq<Frame>, gs': seq<Frame>)
    requires Before(fs, gs)
    requires forall f | f in fs' :: f in fs
    requires forall g | g in gs' :: g in gs
    ensures Before(fs', gs')
  {
  }

  lemma BeforeAppend(fs: seq<Frame>, f: Frame, gs: seq<Frame>)
    requires Before(fs, gs) && Before([f], gs)
    ensures Before(fs + [f], gs)
  {
  }

  lemma ChainSkip(r: seq<Frame>, o: seq<Frame>, h: seq<Frame>, q: seq<Frame>)
    requires Chain(r, o, h, q) && o != []
    ensures Chain(r, o[1..], h, q)
  {
  }

  lemma ChainWrite(r: seq<Frame>, o: seq<Frame>, h: seq<Frame>, q: seq<Frame>)
    requires Chain(r, o, h, q) && o != []
    ensures Chain(r + [o[0]], o[1..], h, q)
  {
    hide Ordered, Before;
    ChainSkip(r, o, h, q);
    OrderedTail(o);
    BeforeFewer(r, o, r, [o[0]]);
    OrderedAppend(r, o[0]);
    BeforeAppend(r, o[0], o[1..]);
    BeforeFewer(o, h, [o[0]], h);
    BeforeAppend(r, o[0], h);
    BeforeFewer(o, q, [o[0]], q);
    BeforeAppend(r, o[0], q);
  }

  lemma ChainEnqueue(r: seq<Frame>, o: seq<Frame>, h: seq<Frame>, q: seq<Frame>, f: Frame)
    requires Chain(r, o, h, q)
    requires Before(r, [f]) && Before(o, [f]) && Before([f], h) && Before([f], q)
    ensures Chain(r, o + [f], h, q)
  {
  }

  lemma ChainFetch(r: seq<Frame>, o: seq<Frame>, q: seq<Frame>)
    requires Chain(r, o, [], q) && q != []
    ensures Chain(r, o, [q[0]], q[1..]) && Chain(r, o, [], q[1..])
  {
  }

  lemma ChainHand(r: seq<Frame>, o: seq<Frame>, f: Frame, q: seq<Frame>)
    requires Chain(r, o, [f], q)
    ensures Chain(r, o + [f], [], q) && Chain(r, o, [], q)
  {
  }

  lemma ChainPublish(r: seq<Frame>, o: seq<Frame>, h: seq<Frame>, q: seq<Frame>, f: Frame)
    requires Chain(r, o, h, q)
    requires Before(r, [f]) && Before(o, [f]) && Before(h, [f]) && Before(q, [f])
    ensures Chain(r, o, h, q + [f])
  {
  }

  // ---------------------------------------------------------------------------
  // Invariants
  // ---------------------------------------------------------------------------

  type Conns = map<ConnId, Conn>

  ghost predicate IndexRight(conns: Conns, index: Index) {
    forall at | at in index :: index[at] in conns && conns[index[at]] == Conn(at.1, at.0)
  }

  ghost predicate RouteRight(conns: Conns, c: ConnId, r: Routing) {
    && c in conns
    && match r
       case ToPeer(p) => p in conns && conns[p] == Conn(conns[c].key.Peer(), conns[c].inst)
       case Looking => true
       case ToInstance(i) => i != conns[c].inst
  }

  /** A sender's frames are all reported, but for the one it is routing. */
  predicate Reported(t: Traffic, c: ConnId) {
    |t.Outcomes(c)| + (if c in t.routing then 1 else 0) == |t.Sent(c)|
  }

  ghost predicate Accounted(conns: Conns, t: Traffic) {
    && (forall c :: Reported(t, c))
    && (forall c | c in t.routing :: RouteRight(conns, c, t.routing[c]))
  }

  /** A frame carries the bytes its sender sent, addressed to the sender's peer, and was reported relayed. */
  ghost predicate Genuine(conns: Conns, t: Traffic, f: Frame) {
    && f.from in conns && f.to == conns[f.from].key.Peer()
    && f.num < |t.Outcomes(f.from)| && t.Outcomes(f.from)[f.num] == Relayed
    && f.num < |t.Sent(f.from)| && t.Sent(f.from)[f.num] == f.data
  }

  /** A frame that reached `c` was meant for `c`'s slot. */
  ghost predicate Arrived(conns: Conns, t: Traffic, c: ConnId, f: Frame) {
    c in conns && f.to == conns[c].key && Genuine(conns, t, f)
  }

  /** A frame on its way to instance `i` comes from another instance. */
  ghost predicate Underway(conns: Conns, t: Traffic, i: InstId, f: Frame) {
    Genuine(conns, t, f) && conns[f.from].inst != i
  }

  predicate Near(t: Traffic, c: ConnId, f: Frame) {
    f in t.Received(c) || f in t.Out(c)
  }

  predicate Far(t: Traffic, i: InstId, f: Frame) {
    f in t.Held(i) || f in t.Queue(i)
  }

  /** A frame being handed over goes to a session of that instance with the frame's slot. */
  ghost predicate HandingRight(conns: Conns, t: Traffic) {
    forall i | i in t.handing ::
      t.handing[i].target in conns && conns[t.handing[i].target] == Conn(t.handing[i].frame.to, i)
  }

  ghost predicate Placed(conns: Conns, t: Traffic) {
    && (forall c, f | Near(t, c, f) :: Arrived(conns, t, c, f))
    && (forall i, f | Far(t, i, f) :: Underway(conns, t, i, f))
    && HandingRight(conns, t)
  }

  /** The pipeline of a session of instance `i`. */
  ghost predicate Lined(t: Traffic, c: ConnId, i: InstId) {
    Chain(t.Received(c), t.Out(c), t.Held(i), t.Queue(i))
  }

  ghost predicate InOrder(conns: Conns, t: Traffic) {
    && (forall i :: Chain([], [], t.Held(i), t.Queue(i)))
    && (forall c | c in conns :: Lined(t, c, conns[c].inst))
  }

  // ---------------------------------------------------------------------------
  // Connections and index
  // ---------------------------------------------------------------------------

  ghost predicate Extends(conns: Conns, conns': Conns) {
    forall c | c in conns :: c in conns' && conns'[c] == conns[c]
  }

  /** Every step keeps the index right and only adds connections. */
  lemma IndexStep(s: State, step: SlotStep)
    requires IndexRight(s.lives.conns, s.index) && SlotEnabled(s, step)
    ensures Extends(s.lives.conns, SlotNext(s, step).lives.conns)
    ensures IndexRight(SlotNext(s, step).lives.conns, SlotNext(s, step).index)
  {
    match step
    case Tick(_) =>
    case Purge(_) =>
    case ClaimStep(_, _, _, _) =>
    case CloseOld(_) =>
    case StoreIndex(_) =>
    case DeliverNotice(_) =>
    case LoseNotice(_) =>
    case RenewCall(_) =>
    case RenewReact(_) =>
    case RenewLost(_) =>
    case Close(_) =>
    case LeaveIndex(_) =>
    case ReleaseStep(_) =>
  }

  lemma SomethingNear(t: Traffic, c: ConnId)
    requires t.Received(c) != [] || t.Out(c) != []
    ensures exists f :: Near(t, c, f)
  {
    assert Near(t, c, if t.Received(c) != [] then t.Received(c)[0] else t.Out(c)[0]);
  }

  lemma NothingNear(conns: Conns, t: Traffic, c: ConnId)
    requires Placed(conns, t) && c !in conns
    ensures t.Received(c) == [] && t.Out(c) == []
  {
    if t.Received(c) != [] || t.Out(c) != [] {
      SomethingNear(t, c);
      assert false;
    }
  }

  /** A new connection's pipeline is what its instance is handing out. */
  lemma NewConnectionsKeepOrder(conns: Conns, conns': Conns, t: Traffic)
    requires Placed(conns, t) && InOrder(conns, t) && Extends(conns, conns')
    ensures InOrder(conns', t)
  {
    hide Chain;
    forall c | c in conns' ensures Lined(t, c, conns'[c].inst) {
      if c !in conns {
        NothingNear(conns, t, c);
        assert Chain([], [], t.Held(conns'[c].inst), t.Queue(conns'[c].inst));
      }
    }
  }

  lemma NewConnectionsKeepPlaces(conns: Conns, conns': Conns, t: Traffic)
    requires Placed(conns, t) && Extends(conns, conns')
    ensures Placed(conns', t)
  {
  }

  // ---------------------------------------------------------------------------
  // Accounting
  // ---------------------------------------------------------------------------

  lemma ReportAccounts(conns: Conns, t: Traffic, c: ConnId, outcome: Outcome)
    requires Accounted(conns, t) && c in t.routing
    ensures Accounted(conns, Report(t, c, outcome))
  {
    var t' := Report(t, c, outcome);
    forall d ensures Reported(t', d) {
      assert Reported(t, d);
    }
  }

  lemma SendAccounts(s: State, c: ConnId, data: ByteString)
    requires IndexRight(s.lives.conns, s.index) && Accounted(s.lives.conns, s.traffic)
    requires c in s.lives.conns && c !in s.traffic.routing
    ensures Accounted(s.lives.conns, StartRouting(s, c, data))
  {
    forall d ensures Reported(StartRouting(s, c, data), d) {
      assert Reported(s.traffic, d);
    }
  }

  lemma LookUpAccounts(s: State, c: ConnId)
    requires Accounted(s.lives.conns, s.traffic) && IsRouting(s, c)
    ensures Accounted(s.lives.conns, RouteByLookup(s, c))
  {
    ReportAccounts(s.lives.conns, s.traffic, c, PeerOffline);
    forall d ensures Reported(RouteByLookup(s, c), d) {
      assert Reported(s.traffic, d);
    }
  }

  lemma FrameStepAccounts(s: State, step: FrameStep)
    requires IndexRight(s.lives.conns, s.index) && Accounted(s.lives.conns, s.traffic)
    requires MoveEnabled(s, step)
    ensures Accounted(s.lives.conns, Moved(s, step))
  {
    hide Accounted, IndexRight;
    var conns, t, t' := s.lives.conns, s.traffic, Moved(s, step);
    match step
    case Send(c, data) => SendAccounts(s, c, data);
    case EnqueuePeer(c, accepted) =>
      var outcome := if accepted then Relayed else PeerOffline;
      ReportAccounts(conns, t, c, outcome);
      SameBooks(conns, Report(t, c, outcome), t');
    case LookUpPeer(c) => LookUpAccounts(s, c);
    case PublishStep(c, fate) =>
      var outcome := if fate.Failed? then PeerOffline else Relayed;
      ReportAccounts(conns, t, c, outcome);
      SameBooks(conns, Report(t, c, outcome), t');
    case Fetch(i) => SameBooks(conns, t, t');
    case Hand(i, accepted) => SameBooks(conns, t, t');
    case Write(c, ok) => SameBooks(conns, t, t');
  }

  lemma SameBooks(conns: Conns, t: Traffic, t': Traffic)
    requires Accounted(conns, t) && t'.sent == t.sent && t'.outcomes == t.outcomes && t'.routing == t.routing
    ensures Accounted(conns, t')
  {
    forall d ensures Reported(t', d) {
      assert Reported(t, d);
    }
  }

  // ---------------------------------------------------------------------------
  // Places
  // ---------------------------------------------------------------------------

  /** Sending and reporting only append. */
  ghost predicate Grows(t: Traffic, t': Traffic) {
    forall c :: t.Outcomes(c) <= t'.Outcomes(c) && t.Sent(c) <= t'.Sent(c)
  }

  lemma GenuineGrows(conns: Conns, t: Traffic, t': Traffic, f: Frame)
    requires Genuine(conns, t, f) && Grows(t, t')
    ensures Genuine(conns, t', f)
  {
  }

  lemma ReportGrows(t: Traffic, c: ConnId, outcome: Outcome)
    ensures Grows(t, Report(t, c, outcome))
  {
  }

  lemma SameBooksGrow(t: Traffic, t1: Traffic, t': Traffic)
    requires Grows(t, t1) && t'.sent == t1.sent && t'.outcomes == t1.outcomes
    ensures Grows(t, t')
  {
  }

  lemma SendGrows(s: State, c: ConnId, data: ByteString)
    requires c in s.lives.conns
    ensures Grows(s.traffic, StartRouting(s, c, data))
  {
  }

  lemma FrameStepGrows(s: State, step: FrameStep)
    requires MoveEnabled(s, step)
    ensures Grows(s.traffic, Moved(s, step))
  {
    var t, t' := s.traffic, Moved(s, step);
    assert Grows(t, t);
    hide Grows;
    match step
    case Send(c, data) => SendGrows(s, c, data);
    case EnqueuePeer(c, accepted) =>
      var outcome := if accepted then Relayed else PeerOffline;
      ReportGrows(t, c, outcome);
      SameBooksGrow(t, Report(t, c, outcome), t');
    case LookUpPeer(c) =>
      ReportGrows(t, c, PeerOffline);
      if t' != Report(t, c, PeerOffline) {
        SameBooksGrow(t, t, t');
      }
    case PublishStep(c, fate) =>
      var outcome := if fate.Failed? then PeerOffline else Relayed;
      ReportGrows(t, c, outcome);
      SameBooksGrow(t, Report(t, c, outcome), t');
    case Fetch(_) => SameBooksGrow(t, t, t');
    case Hand(_, _) => SameBooksGrow(t, t, t');
    case Write(_, _) => SameBooksGrow(t, t, t');
  }

  /** Frames stay well placed if each one was already there or belongs where it has come. */
  lemma MovesKeepPlaces(conns: Conns, t: Traffic, t': Traffic)
    requires Placed(conns, t) && Grows(t, t') && HandingRight(conns, t')
    requires forall c, f | Near(t', c, f) :: Near(t, c, f) || Arrived(conns, t', c, f)
    requires forall i, f | Far(t', i, f) :: Far(t, i, f) || Underway(conns, t', i, f)
    ensures Placed(conns, t')
  {
  }

  /** The frame being routed is genuine once it is reported as relayed. */
  lemma PendingIsGenuine(s: State, c: ConnId, t': Traffic)
    requires IsRouting(s, c)
    requires t'.Sent(c) == s.traffic.Sent(c) && t'.Outcomes(c) == s.traffic.Outcomes(c) + [Relayed]
    ensures Genuine(s.lives.conns, t', Pending(s, c))
  {
  }

  lemma EnqueuePlaces(s: State, c: ConnId)
    requires Accounted(s.lives.conns, s.traffic) && Placed(s.lives.conns, s.traffic)
    requires IsRouting(s, c) && s.traffic.routing[c].ToPeer?
    ensures Placed(s.lives.conns, RouteToPeer(s, c, true))
  {
    var conns, t, t' := s.lives.conns, s.traffic, RouteToPeer(s, c, true);
    var peer, f := t.routing[c].peer, Pending(s, c);
    PendingIsGenuine(s, c, t');
    assert RouteRight(conns, c, t.routing[c]);
    assert Arrived(conns, t', peer, f);
    FrameStepGrows(s, EnqueuePeer(c, true));
    forall d, g | Near(t', d, g) ensures Near(t, d, g) || Arrived(conns, t', d, g) {
      assert d == peer && g in t'.Out(d) ==> g in t.Out(d) || g == f;
    }
    MovesKeepPlaces(conns, t, t');
  }

  lemma PublishPlaces(s: State, c: ConnId)
    requires Accounted(s.lives.conns, s.traffic) && Placed(s.lives.conns, s.traffic)
    requires IsRouting(s, c) && s.traffic.routing[c].ToInstance?
    ensures Placed(s.lives.conns, RoutePublish(s, c, Kept))
  {
    var conns, t, t' := s.lives.conns, s.traffic, RoutePublish(s, c, Kept);
    var inst, f := t.routing[c].inst, Pending(s, c);
    PendingIsGenuine(s, c, t');
    assert RouteRight(conns, c, t.routing[c]);
    assert Underway(conns, t', inst, f);
    FrameStepGrows(s, PublishStep(c, Kept));
    forall i, g | Far(t', i, g) ensures Far(t, i, g) || Underway(conns, t', i, g) {
      assert i == inst && g in t'.Queue(i) ==> g in t.Queue(i) || g == f;
    }
    MovesKeepPlaces(conns, t, t');
  }

  lemma FetchPlaces(s: State, i: InstId)
    requires IndexRight(s.lives.conns, s.index) && Placed(s.lives.conns, s.traffic)
    requires s.traffic.Queue(i) != [] && i !in s.traffic.handing
    ensures Placed(s.lives.conns, FetchFrame(s, i))
  {
    var conns, t, t' := s.lives.conns, s.traffic, FetchFrame(s, i);
    assert t.Queue(i)[0] in t.Queue(i);
    assert forall g | g in t.Queue(i)[1..] :: g in t.Queue(i);
    assert forall j, g | Far(t', j, g) :: Far(t, j, g);
    FrameStepGrows(s, Fetch(i));
    MovesKeepPlaces(conns, t, t');
  }

  lemma HandPlaces(s: State, i: InstId, accepted: bool)
    requires Placed(s.lives.conns, s.traffic) && i in s.traffic.handing
    ensures Placed(s.lives.conns, HandFrame(s.traffic, i, accepted))
  {
    var conns, t, t' := s.lives.conns, s.traffic, HandFrame(s.traffic, i, accepted);
    var h := t.handing[i];
    assert Far(t, i, h.frame);
    assert Underway(conns, t, i, h.frame);
    FrameStepGrows(s, Hand(i, accepted));
    GenuineGrows(conns, t, t', h.frame);
    assert Arrived(conns, t', h.target, h.frame);
    forall d, g | Near(t', d, g) ensures Near(t, d, g) || Arrived(conns, t', d, g) {
      assert d == h.target && g in t'.Out(d) ==> g in t.Out(d) || g == h.frame;
    }
    assert forall j, g | Far(t', j, g) :: Far(t, j, g);
    MovesKeepPlaces(conns, t, t');
  }

  /** Writing takes a frame from where it already was. */
  lemma WriteStaysNear(t: Traffic, c: ConnId, ok: bool)
    requires t.Out(c) != []
    ensures forall d, g | Near(WriteFrame(t, c, ok), d, g) :: Near(t, d, g)
  {
    assert t.Out(c)[0] in t.Out(c);
    assert forall g | g in t.Out(c)[1..] :: g in t.Out(c);
  }

  lemma WritePlaces(s: State, c: ConnId, ok: bool)
    requires Placed(s.lives.conns, s.traffic) && s.traffic.Out(c) != []
    ensures Placed(s.lives.conns, WriteFrame(s.traffic, c, ok))
  {
    var t, t' := s.traffic, WriteFrame(s.traffic, c, ok);
    assert forall j, g | Far(t', j, g) :: Far(t, j, g);
    hide Near, Far;
    WriteStaysNear(t, c, ok);
    MovesKeepPlaces(s.lives.conns, t, t');
  }

  /** Sending, looking up, and reporting without a delivery move nothing. */
  predicate InPlace(t: Traffic, t': Traffic) {
    t'.out == t.out && t'.received == t.received && t'.queues == t.queues && t'.handing == t.handing
  }

  predicate MovesNothing(step: FrameStep) {
    || step.Send? || step.LookUpPeer?
    || (step.EnqueuePeer? && !step.accepted) || (step.PublishStep? && !step.fate.Kept?)
  }

  lemma NothingMoves(s: State, step: FrameStep)
    requires MoveEnabled(s, step) && MovesNothing(step)
    ensures InPlace(s.traffic, Moved(s, step))
  {
    match step
    case Send(_, _) =>
    case LookUpPeer(_) =>
    case EnqueuePeer(_, _) =>
    case PublishStep(_, _) =>
  }

  lemma InPlaceKeepsPlaces(conns: Conns, t: Traffic, t': Traffic)
    requires Placed(conns, t) && Grows(t, t') && InPlace(t, t')
    ensures Placed(conns, t')
  {
    assert forall d, g :: Near(t', d, g) == Near(t, d, g);
    assert forall i, g :: Far(t', i, g) == Far(t, i, g);
    MovesKeepPlaces(conns, t, t');
  }

  lemma FrameStepPlaces(s: State, step: FrameStep)
    requires IndexRight(s.lives.conns, s.index)
    requires Accounted(s.lives.conns, s.traffic) && Placed(s.lives.conns, s.traffic)
    requires MoveEnabled(s, step)
    ensures Placed(s.lives.conns, Moved(s, step))
  {
    if MovesNothing(step) {
      FrameStepGrows(s, step);
      NothingMoves(s, step);
      InPlaceKeepsPlaces(s.lives.conns, s.traffic, Moved(s, step));
    } else if step.EnqueuePeer? {
      EnqueuePlaces(s, step.conn);
    } else if step.PublishStep? {
      PublishPlaces(s, step.conn);
    } else if step.Fetch? {
      FetchPlaces(s, step.inst);
    } else if step.Hand? {
      HandPlaces(s, step.inst, step.accepted);
    } else {
      WritePlaces(s, step.conn, step.ok);
    }
  }

  // ---------------------------------------------------------------------------
  // Order
  // ---------------------------------------------------------------------------

  /** The frame being routed is later than every frame of its sender that is anywhere. */
  lemma PendingIsLatest(s: State, c: ConnId, d: ConnId, i: InstId)
    requires Placed(s.lives.conns, s.traffic) && IsRouting(s, c)
    ensures var f := [Pending(s, c)];
            && Before(s.traffic.Received(d), f) && Before(s.traffic.Out(d), f)
            && Before(s.traffic.Held(i), f) && Before(s.traffic.Queue(i), f)
  {
    var conns, t := s.lives.conns, s.traffic;
    assert forall g | Near(t, d, g) :: Arrived(conns, t, d, g) && g.num < |t.Outcomes(g.from)|;
    assert forall g | Far(t, i, g) :: Underway(conns, t, i, g) && g.num < |t.Outcomes(g.from)|;
    assert forall g | g in t.Received(d) || g in t.Out(d) :: Near(t, d, g);
    assert forall g | g in t.Held(i) || g in t.Queue(i) :: Far(t, i, g);
  }

  /** Only the pipelines of instance `i`'s sessions may have changed. */
  lemma OrderElsewhere(conns: Conns, t: Traffic, t': Traffic, i: InstId)
    requires InOrder(conns, t)
    requires Chain([], [], t'.Held(i), t'.Queue(i))
    requires forall j | j != i :: t'.Held(j) == t.Held(j) && t'.Queue(j) == t.Queue(j)
    requires forall d | d in conns && conns[d].inst != i :: t'.Received(d) == t.Received(d) && t'.Out(d) == t.Out(d)
    requires forall d | d in conns && conns[d].inst == i :: Lined(t', d, i)
    ensures InOrder(conns, t')
  {
    hide Chain, Before, Placed;
    forall j ensures Chain([], [], t'.Held(j), t'.Queue(j)) {
      assert Chain([], [], t.Held(j), t.Queue(j));
    }
    forall d | d in conns ensures Lined(t', d, conns[d].inst) {
      assert Lined(t, d, conns[d].inst);
    }
  }

  /** Handing a frame to a peer of the same instance only lengthens that peer's queue. */
  lemma EnqueueMoves(s: State, c: ConnId)
    requires IsRouting(s, c) && s.traffic.routing[c].ToPeer?
    ensures var t, t', peer := s.traffic, RouteToPeer(s, c, true), s.traffic.routing[c].peer;
            && (forall i :: t'.Held(i) == t.Held(i) && t'.Queue(i) == t.Queue(i))
            && (forall d :: t'.Received(d) == t.Received(d))
            && (forall d | d != peer :: t'.Out(d) == t.Out(d)) && t'.Out(peer) == t.Out(peer) + [Pending(s, c)]
  {
  }

  lemma EnqueueOrder(s: State, c: ConnId)
    requires Accounted(s.lives.conns, s.traffic) && Placed(s.lives.conns, s.traffic)
    requires InOrder(s.lives.conns, s.traffic)
    requires IsRouting(s, c) && s.traffic.routing[c].ToPeer?
    ensures InOrder(s.lives.conns, RouteToPeer(s, c, true))
  {
    hide Chain, Before, Placed;
    var conns, t, t' := s.lives.conns, s.traffic, RouteToPeer(s, c, true);
    var peer, f := t.routing[c].peer, Pending(s, c);
    assert RouteRight(conns, c, t.routing[c]);
    var i := conns[peer].inst;
    EnqueueMoves(s, c);
    hide RouteToPeer, Accounted;
    assert Chain([], [], t.Held(i), t.Queue(i));
    forall d | d in conns && conns[d].inst == i ensures Lined(t', d, i) {
      assert Lined(t, d, i);
      if d == peer {
        PendingIsLatest(s, c, peer, i);
        NoneOfSenderFar(s, c, i);
        ChainEnqueue(t.Received(peer), t.Out(peer), t.Held(i), t.Queue(i), f);
      }
    }
    OrderElsewhere(conns, t, t', i);
  }

  /** An instance's channel never carries a frame of its own sessions. */
  lemma NoneOfSenderFar(s: State, c: ConnId, i: InstId)
    requires Placed(s.lives.conns, s.traffic) && IsRouting(s, c) && s.lives.conns[c].inst == i
    ensures Before([Pending(s, c)], s.traffic.Held(i)) && Before([Pending(s, c)], s.traffic.Queue(i))
  {
    forall g | g in s.traffic.Held(i) || g in s.traffic.Queue(i) ensures g.from != c {
      assert Far(s.traffic, i, g);
      assert Underway(s.lives.conns, s.traffic, i, g);
    }
  }

  lemma PublishOrder(s: State, c: ConnId)
    requires Placed(s.lives.conns, s.traffic) && InOrder(s.lives.conns, s.traffic)
    requires IsRouting(s, c) && s.traffic.routing[c].ToInstance?
    ensures InOrder(s.lives.conns, RoutePublish(s, c, Kept))
  {
    hide Chain, Before, Placed;
    var conns, t, t' := s.lives.conns, s.traffic, RoutePublish(s, c, Kept);
    var i, f := t.routing[c].inst, Pending(s, c);
    assert Chain([], [], t.Held(i), t.Queue(i));
    PendingIsLatest(s, c, c, i);
    ChainPublish([], [], t.Held(i), t.Queue(i), f);
    forall d | d in conns && conns[d].inst == i ensures Lined(t', d, i) {
      assert Lined(t, d, i);
      PendingIsLatest(s, c, d, i);
      ChainPublish(t.Received(d), t.Out(d), t.Held(i), t.Queue(i), f);
    }
    OrderElsewhere(conns, t, t', i);
  }

  lemma FetchOrder(s: State, i: InstId)
    requires InOrder(s.lives.conns, s.traffic) && s.traffic.Queue(i) != [] && i !in s.traffic.handing
    ensures InOrder(s.lives.conns, FetchFrame(s, i))
  {
    hide Chain, Before, Placed;
    var conns, t, t' := s.lives.conns, s.traffic, FetchFrame(s, i);
    assert Chain([], [], t.Held(i), t.Queue(i));
    ChainFetch([], [], t.Queue(i));
    forall d | d in conns && conns[d].inst == i ensures Lined(t', d, i) {
      assert Lined(t, d, i);
      ChainFetch(t.Received(d), t.Out(d), t.Queue(i));
    }
    OrderElsewhere(conns, t, t', i);
  }

  lemma HandingTarget(conns: Conns, t: Traffic, i: InstId)
    requires Placed(conns, t) && i in t.handing
    ensures t.handing[i].target in conns && conns[t.handing[i].target].inst == i
  {
  }

  lemma HandOrder(s: State, i: InstId, accepted: bool)
    requires InOrder(s.lives.conns, s.traffic) && i in s.traffic.handing
    requires s.traffic.handing[i].target in s.lives.conns && s.lives.conns[s.traffic.handing[i].target].inst == i
    ensures InOrder(s.lives.conns, HandFrame(s.traffic, i, accepted))
  {
    hide Chain, Before;
    var conns, t, t' := s.lives.conns, s.traffic, HandFrame(s.traffic, i, accepted);
    var h := t.handing[i];
    assert Chain([], [], t.Held(i), t.Queue(i));
    ChainHand([], [], h.frame, t.Queue(i));
    forall d | d in conns && conns[d].inst == i ensures Lined(t', d, i) {
      assert Lined(t, d, i);
      ChainHand(t.Received(d), t.Out(d), h.frame, t.Queue(i));
    }
    OrderElsewhere(conns, t, t', i);
  }

  lemma WriteOrder(s: State, c: ConnId, ok: bool)
    requires InOrder(s.lives.conns, s.traffic) && c in s.lives.conns && s.traffic.Out(c) != []
    ensures InOrder(s.lives.conns, WriteFrame(s.traffic, c, ok))
  {
    hide Chain, Before, Placed;
    var conns, t, t' := s.lives.conns, s.traffic, WriteFrame(s.traffic, c, ok);
    var i := conns[c].inst;
    assert Chain([], [], t.Held(i), t.Queue(i));
    forall d | d in conns && conns[d].inst == i ensures Lined(t', d, i) {
      assert Lined(t, d, i);
      if d == c {
        ChainWrite(t.Received(c), t.Out(c), t.Held(i), t.Queue(i));
        ChainSkip(t.Received(c), t.Out(c), t.Held(i), t.Queue(i));
      }
    }
    OrderElsewhere(conns, t, t', i);
  }

  lemma InPlaceKeepsOrder(conns: Conns, t: Traffic, t': Traffic)
    requires InOrder(conns, t) && InPlace(t, t')
    ensures InOrder(conns, t')
  {
    hide Chain, Before, Placed;
    forall d | d in conns ensures Lined(t', d, conns[d].inst) {
      assert Lined(t, d, conns[d].inst);
    }
    forall j ensures Chain([], [], t'.Held(j), t'.Queue(j)) {
      assert Chain([], [], t.Held(j), t.Queue(j));
    }
  }

  lemma FrameStepOrder(s: State, step: FrameStep)
    requires Accounted(s.lives.conns, s.traffic) && Placed(s.lives.conns, s.traffic)
    requires InOrder(s.lives.conns, s.traffic)
    requires MoveEnabled(s, step)
    ensures InOrder(s.lives.conns, Moved(s, step))
  {
    hide InOrder, Placed;
    if MovesNothing(step) {
      NothingMoves(s, step);
      InPlaceKeepsOrder(s.lives.conns, s.traffic, Moved(s, step));
    } else if step.EnqueuePeer? {
      EnqueueOrder(s, step.conn);
    } else if step.PublishStep? {
      PublishOrder(s, step.conn);
    } else if step.Fetch? {
      FetchOrder(s, step.inst);
    } else if step.Hand? {
      HandingTarget(s.lives.conns, s.traffic, step.inst);
      HandOrder(s, step.inst, step.accepted);
    } else {
      WriteOrder(s, step.conn, step.ok);
    }
  }

  // ---------------------------------------------------------------------------
  // Every run
  // ---------------------------------------------------------------------------

  ghost predicate Routed(s: State) {
    && IndexRight(s.lives.conns, s.index)
    && Accounted(s.lives.conns, s.traffic) && Placed(s.lives.conns, s.traffic) && InOrder(s.lives.conns, s.traffic)
  }

  lemma OtherStepAccounts(conns: Conns, conns': Conns, t: Traffic)
    requires Accounted(conns, t) && Extends(conns, conns')
    ensures Accounted(conns', t)
  {
  }

  lemma StepKeepsRouted(s: State, step: Step)
    requires Routed(s) && Enabled(s, step)
    ensures Routed(Next(s, step))
  {
    hide IndexRight, Accounted, Placed, InOrder;
    match step
    case Slot(slot) =>
      var conns' := SlotNext(s, slot).lives.conns;
      IndexStep(s, slot);
      OtherStepAccounts(s.lives.conns, conns', s.traffic);
      NewConnectionsKeepPlaces(s.lives.conns, conns', s.traffic);
      NewConnectionsKeepOrder(s.lives.conns, conns', s.traffic);
    case Move(move) =>
      FrameStepAccounts(s, move);
      FrameStepPlaces(s, move);
      FrameStepOrder(s, move);
  }

  lemma {:induction false} RunKeepsRouted(s: State, steps: seq<Step>)
    requires Routed(s)
    ensures Routed(Exec(s, steps))
    decreases |steps|
  {
    hide Routed, Next, Enabled;
    if steps != [] {
      if Enabled(s, steps[0]) {
        StepKeepsRouted(s, steps[0]);
        RunKeepsRouted(Next(s, steps[0]), steps[1..]);
      } else {
        RunKeepsRouted(s, steps[1..]);
      }
    }
  }

  // ---------------------------------------------------------------------------
  // What the receiver sees
  // ---------------------------------------------------------------------------

  /** The frames of one sender, in the order received. */
  function FromSender(fs: seq<Frame>, c: ConnId): (gs: seq<Frame>)
    ensures forall g | g in gs :: g in fs && g.from == c
  {
    if fs == [] then []
    else (if fs[0].from == c then [fs[0]] else []) + FromSender(fs[1..], c)
  }

  function Data(fs: seq<Frame>): (d: seq<ByteString>)
    ensures |d| == |fs|
  {
    seq(|fs|, i requires 0 <= i < |fs| => fs[i].data)
  }

  /** `got` is a subsequence of `sent`: strictly increasing positions pick it out. */
  ghost predicate SubsequenceAt(got: seq<ByteString>, sent: seq<ByteString>, at: seq<nat>) {
    && |at| == |got|
    && (forall i | 0 <= i < |at| :: at[i] < |sent| && got[i] == sent[at[i]])
    && (forall i, j | 0 <= i < j < |at| :: at[i] < at[j])
  }

  ghost predicate IsSubsequence(got: seq<ByteString>, sent: seq<ByteString>) {
    exists at :: SubsequenceAt(got, sent, at)
  }

  lemma {:induction false} FromSenderOrdered(fs: seq<Frame>, c: ConnId)
    requires Ordered(fs)
    ensures forall i, j | 0 <= i < j < |FromSender(fs, c)| :: FromSender(fs, c)[i].num < FromSender(fs, c)[j].num
  {
    if fs != [] {
      OrderedTail(fs);
      FromSenderOrdered(fs[1..], c);
      var gs := FromSender(fs[1..], c);
      assert forall g | g in gs :: g in fs[1..] && g.from == c;
      if fs[0].from == c {
        forall j | 0 <= j < |gs| ensures fs[0].num < gs[j].num {
          assert gs[j] in gs;
          HeadComesFirst(fs, gs[j]);
        }
      }
      hide Ordered;
    }
  }

  lemma HeadComesFirst(fs: seq<Frame>, g: Frame)
    requires fs != [] && Ordered(fs) && g in fs[1..] && g.from == fs[0].from
    ensures fs[0].num < g.num
  {
  }

  lemma NothingYet(now: int, ttl: int)
    ensures Routed(Init(now, ttl))
  {
  }

  /**
   On every run: what session `p` received from session `c` is an in-order subsequence of
   what `c` sent, each frame at most once; `c` is of the same pair and the other role if
   anything was received; and nothing received was reported peer-offline.
   */
  lemma {:induction false} ReceivedIsSubsequenceOfSent(now: int, ttl: int, steps: seq<Step>, p: ConnId, c: ConnId)
    ensures var s := Exec(Init(now, ttl), steps);
            var got := FromSender(s.traffic.Received(p), c);
            && IsSubsequence(Data(got), s.traffic.Sent(c))
            && (got != [] ==> && p in s.lives.conns && c in s.lives.conns
                              && s.lives.conns[p].key.pair == s.lives.conns[c].key.pair
                              && s.lives.conns[p].key.role != s.lives.conns[c].key.role)
            && (forall f | f in got :: f.num < |s.traffic.Outcomes(c)| && s.traffic.Outcomes(c)[f.num] == Relayed)
  {
    NothingYet(now, ttl);
    hide *;
    RunKeepsRouted(Init(now, ttl), steps);
    SoundReceipt(Exec(Init(now, ttl), steps), p, c);
  }

  lemma ReceivedFacts(s: State, p: ConnId)
    requires Routed(s)
    ensures Ordered(s.traffic.Received(p))
    ensures forall f | f in s.traffic.Received(p) :: Arrived(s.lives.conns, s.traffic, p, f)
  {
    hide Accounted, IndexRight;
    if p in s.lives.conns {
      assert Lined(s.traffic, p, s.lives.conns[p].inst);
    } else {
      NothingNear(s.lives.conns, s.traffic, p);
    }
    forall f | f in s.traffic.Received(p) ensures Arrived(s.lives.conns, s.traffic, p, f) {
      assert Near(s.traffic, p, f);
    }
  }

  lemma NumberedSubsequence(got: seq<Frame>, sent: seq<ByteString>)
    requires forall i | 0 <= i < |got| :: got[i].num < |sent| && sent[got[i].num] == got[i].data
    requires forall i, j | 0 <= i < j < |got| :: got[i].num < got[j].num
    ensures IsSubsequence(Data(got), sent)
  {
    var at := seq(|got|, i requires 0 <= i < |got| => got[i].num);
    assert SubsequenceAt(Data(got), sent, at);
  }

  lemma SoundReceipt(s: State, p: ConnId, c: ConnId)
    requires Routed(s)
    ensures var got := FromSender(s.traffic.Received(p), c);
            && IsSubsequence(Data(got), s.traffic.Sent(c))
            && (got != [] ==> && p in s.lives.conns && c in s.lives.conns
                              && s.lives.conns[p].key.pair == s.lives.conns[c].key.pair
                              && s.lives.conns[p].key.role != s.lives.conns[c].key.role)
            && (forall f | f in got :: f.num < |s.traffic.Outcomes(c)| && s.traffic.Outcomes(c)[f.num] == Relayed)
  {
    hide Routed, Ordered, IsSubsequence;
    var got := FromSender(s.traffic.Received(p), c);
    ReceivedFacts(s, p);
    FromSenderOrdered(s.traffic.Received(p), c);
    assert forall i | 0 <= i < |got| :: got[i] in got && Arrived(s.lives.conns, s.traffic, p, got[i]);
    NumberedSubsequence(got, s.traffic.Sent(c));
    if got != [] {
      assert got[0] in got;
    }
  }

  /** On every run every frame a session sent has exactly one report, but for the one it is still routing. */
  lemma {:induction false} EveryFrameReportedOnce(now: int, ttl: int, steps: seq<Step>, c: ConnId)
    ensures var t := Exec(Init(now, ttl), steps).traffic;
            |t.Outcomes(c)| == |t.Sent(c)| - if c in t.routing then 1 else 0
  {
    NothingYet(now, ttl);
    RunKeepsRouted(Init(now, ttl), steps);
    hide Exec, Placed, InOrder, IndexRight;
    assert Reported(Exec(Init(now, ttl), steps).traffic, c);
  }
}
