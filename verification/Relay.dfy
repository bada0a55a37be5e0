/**
 The relay as a system of small steps, over any number of instances.

 A connection claims its slot, closes the holder it displaced, enters its instance's
 index, serves, and leaves; eviction notices may be late or lost; renewals are a call
 and a later reaction to its answer; routing a frame is a look-up followed by an
 enqueue or a publication. Every interleaving of these steps is a run.

 A step that is not enabled leaves the state as it is, so a run is any sequence of
 steps. Choices the code leaves to the scheduler, the network or full queues are
 parameters of the steps.
 */
module Relay {
  import opened Bytes
  import opened Roles
  import opened Slots

  // ---------------------------------------------------------------------------
  // State
  // ---------------------------------------------------------------------------

  /** The fixed identity of a connection (session). */
  datatype Conn = Conn(key: SlotKey, inst: InstId)

  /** Where a connection is in Register, Serve and Deregister. */
  datatype Phase =
    | Claimed(displaced: ConnId)  // holds the claim result: the local holder to close, or ""
    | Cleared                     // the displaced holder has been dealt with
    | Serving                     // indexed, with its renewer installed
    | Unindexed                   // left the index, slot not yet released
    | Gone

  /** The answer of a renewal call that the session has not yet acted on. */
  datatype Renewal = Renewal(epoch: nat, owner: bool)

  datatype Outcome = Relayed | PeerOffline

  /** An application frame: the sender, its position among the sender's frames, the target slot. */
  datatype Frame = Frame(from: ConnId, num: nat, to: SlotKey, data: ByteString)

  /** A routing in progress: the peer or the instance it found, or still looking. */
  datatype Routing = ToPeer(peer: ConnId) | Looking | ToInstance(inst: InstId)

  datatype Handing = Handing(target: ConnId, frame: Frame)

  /** The shared registry, with every claim ever made of a slot. */
  datatype Shared = Shared(now: int, ttl: int, slots: Registry, claims: map<SlotKey, seq<ConnId>>)
  {
    function Claims(key: SlotKey): seq<ConnId> {
      if key in claims then claims[key] else []
    }
  }

  /**
   The connections and their lives; `finished` has the number of claims when a finished
   renewal was answered, `entered` the last connection to enter an instance's index for a slot.
   */
  datatype Lives = Lives(conns: map<ConnId, Conn>, phase: map<ConnId, Phase>, open: set<ConnId>,
                         renewing: map<ConnId, Renewal>, finished: map<ConnId, nat>,
                         entered: map<(InstId, SlotKey), ConnId>)

  /** The frames: sent, reported, on their way, and received. */
  datatype Traffic = Traffic(sent: map<ConnId, seq<ByteString>>, outcomes: map<ConnId, seq<Outcome>>,
                             routing: map<ConnId, Routing>,
                             out: map<ConnId, seq<Frame>>, received: map<ConnId, seq<Frame>>,
                             queues: map<InstId, seq<Frame>>, handing: map<InstId, Handing>)
  {
    function Sent(c: ConnId): seq<ByteString> {
      if c in sent then sent[c] else []
    }
    function Outcomes(c: ConnId): seq<Outcome> {
      if c in outcomes then outcomes[c] else []
    }
    function Out(c: ConnId): seq<Frame> {
      if c in out then out[c] else []
    }
    function Received(c: ConnId): seq<Frame> {
      if c in received then received[c] else []
    }
    function Queue(i: InstId): seq<Frame> {
      if i in queues then queues[i] else []
    }
    function Held(i: InstId): seq<Frame> {
      if i in handing then [handing[i].frame] else []
    }
  }

  type Index = map<(InstId, SlotKey), ConnId>

  datatype State = State(shared: Shared, lives: Lives, index: Index, notices: seq<(InstId, SlotKey)>, traffic: Traffic)

  function Init(now: int, ttl: int): State {
    State(Shared(now, ttl, map[], map[]), Lives(map[], map[], {}, map[], map[], map[]), map[], [],
          Traffic(map[], map[], map[], map[], map[], map[], map[]))
  }

  // ---------------------------------------------------------------------------
  // Steps
  // ---------------------------------------------------------------------------

  datatype Fate = Kept | Dropped | Failed

  /** Steps that concern slots, the index, and the lives of connections. */
  datatype SlotStep =
    | Tick(time: nat)
    | Purge(key: SlotKey)                                                  // a lapsed entry expires for good
    | ClaimStep(conn: ConnId, key: SlotKey, inst: InstId, noticeLost: bool)
    | CloseOld(conn: ConnId)
    | StoreIndex(conn: ConnId)
    | DeliverNotice(i: nat)
    | LoseNotice(i: nat)
    | RenewCall(conn: ConnId)
    | RenewReact(conn: ConnId)
    | RenewLost(conn: ConnId)                                              // the call times out, its effect stays
    | Close(conn: ConnId)                                                  // for any other reason
    | LeaveIndex(conn: ConnId)
    | ReleaseStep(conn: ConnId)

  /** Steps that move application frames. */
  datatype FrameStep =
    | Send(conn: ConnId, data: ByteString)
    | EnqueuePeer(conn: ConnId, accepted: bool)
    | LookUpPeer(conn: ConnId)
    | PublishStep(conn: ConnId, fate: Fate)
    | Fetch(inst: InstId)
    | Hand(inst: InstId, accepted: bool)
    | Write(conn: ConnId, ok: bool)

  datatype Step = Slot(slot: SlotStep) | Move(move: FrameStep)

  predicate InPhase(l: Lives, c: ConnId, p: Phase) {
    c in l.conns && c in l.phase && l.phase[c] == p
  }

  function Shut(l: Lives, c: ConnId): Lives {
    l.(open := l.open - {c})
  }

  function Claimer(s: State, c: ConnId, key: SlotKey, inst: InstId, noticeLost: bool): State {
    var (slots, claimed) := ClaimSlot(s.shared.slots, key, c, inst, s.shared.now, s.shared.ttl);
    var told := EvictionNotice(s.shared.slots, key, c, inst, s.shared.now);
    s.(shared := s.shared.(slots := slots, claims := s.shared.claims[key := s.shared.Claims(key) + [c]]),
       lives := s.lives.(conns := s.lives.conns[c := Conn(key, inst)],
                         phase := s.lives.phase[c :=
                             Phase.Claimed(if claimed.onThisInstance then claimed.evicted else "")],
                         open := s.lives.open + {c}),
       notices := if told == [] || noticeLost then s.notices else s.notices + [(told[0], key)])
  }

  /** The evicted session is closed only if the index still shows exactly that connection. */
  function CloseDisplaced(s: State, c: ConnId): State
    requires c in s.lives.conns && c in s.lives.phase && s.lives.phase[c].Claimed?
  {
    var at := (s.lives.conns[c].inst, s.lives.conns[c].key);
    var displaced := s.lives.phase[c].displaced;
    var l := if displaced != "" && at in s.index && s.index[at] == displaced then Shut(s.lives, displaced) else s.lives;
    s.(lives := l.(phase := l.phase[c := Cleared]))
  }

  function Leave(s: State, c: ConnId): State
    requires c in s.lives.conns
  {
    var at := (s.lives.conns[c].inst, s.lives.conns[c].key);
    s.(index := if at in s.index && s.index[at] == c then s.index - {at} else s.index,
       lives := s.lives.(phase := s.lives.phase[c := Unindexed]))
  }

  function Notice(s: State, i: nat): State
    requires i < |s.notices|
  {
    var at := s.notices[i];
    s.(notices := s.notices[..i] + s.notices[i + 1..],
       lives := if at in s.index then Shut(s.lives, s.index[at]) else s.lives)
  }

  function StartRenewal(s: State, c: ConnId): State
    requires c in s.lives.conns
  {
    var key := s.lives.conns[c].key;
    var (slots, owner) := RenewSlot(s.shared.slots, key, c, s.shared.now, s.shared.ttl);
    s.(shared := s.shared.(slots := slots),
       lives := s.lives.(renewing := s.lives.renewing[c := Renewal(|s.shared.Claims(key)|, owner)]))
  }

  /** Either answer finishes the renewal; a session that lost its slot closes itself. */
  function ReactToRenewal(l: Lives, c: ConnId): Lives
    requires c in l.renewing
  {
    var r := l.renewing[c];
    var l' := l.(renewing := l.renewing - {c}, finished := l.finished[c := r.epoch]);
    if r.owner then l' else Shut(l', c)
  }

  // --- routing ---

  function StartRouting(s: State, c: ConnId, data: ByteString): Traffic
    requires c in s.lives.conns
  {
    var at := (s.lives.conns[c].inst, s.lives.conns[c].key.Peer());
    s.traffic.(sent := s.traffic.sent[c := s.traffic.Sent(c) + [data]],
               routing := s.traffic.routing[c := if at in s.index then ToPeer(s.index[at]) else Looking])
  }

  /** The routing of `c` ends, reported as relayed or peer-offline. */
  function Report(t: Traffic, c: ConnId, outcome: Outcome): Traffic {
    t.(routing := t.routing - {c}, outcomes := t.outcomes[c := t.Outcomes(c) + [outcome]])
  }

  /** The frame that `c` is routing. */
  function Pending(s: State, c: ConnId): Frame
    requires c in s.lives.conns && |s.traffic.Outcomes(c)| < |s.traffic.Sent(c)|
  {
    var n := |s.traffic.Outcomes(c)|;
    Frame(c, n, s.lives.conns[c].key.Peer(), s.traffic.Sent(c)[n])
  }

  function Enqueue(t: Traffic, c: ConnId, f: Frame): Traffic {
    t.(out := t.out[c := t.Out(c) + [f]])
  }

  predicate IsRouting(s: State, c: ConnId) {
    c in s.lives.conns && c in s.traffic.routing && |s.traffic.Outcomes(c)| < |s.traffic.Sent(c)|
  }

  /** Handing a frame to a local peer, whose queue may be full or closed. */
  function RouteToPeer(s: State, c: ConnId, accepted: bool): Traffic
    requires IsRouting(s, c) && s.traffic.routing[c].ToPeer?
  {
    if accepted then Report(Enqueue(s.traffic, s.traffic.routing[c].peer, Pending(s, c)), c, Relayed)
    else Report(s.traffic, c, PeerOffline)
  }

  function RouteByLookup(s: State, c: ConnId): Traffic
    requires IsRouting(s, c)
  {
    var inst := LookupInstance(s.shared.slots, s.lives.conns[c].key.Peer(), s.shared.now);
    if inst != "" && inst != s.lives.conns[c].inst then
      s.traffic.(routing := s.traffic.routing[c := ToInstance(inst)])
    else Report(s.traffic, c, PeerOffline)
  }

  function RoutePublish(s: State, c: ConnId, fate: Fate): Traffic
    requires IsRouting(s, c) && s.traffic.routing[c].ToInstance?
  {
    var inst := s.traffic.routing[c].inst;
    match fate
    case Kept =>
      Report(s.traffic.(queues := s.traffic.queues[inst := s.traffic.Queue(inst) + [Pending(s, c)]]), c, Relayed)
    case Dropped => Report(s.traffic, c, Relayed)
    case Failed => Report(s.traffic, c, PeerOffline)
  }

  /** The hub's loop takes the next frame and looks its target up in the index. */
  function FetchFrame(s: State, i: InstId): Traffic
    requires s.traffic.Queue(i) != []
  {
    var f := s.traffic.Queue(i)[0];
    var t := s.traffic.(queues := s.traffic.queues[i := s.traffic.Queue(i)[1..]]);
    if (i, f.to) in s.index then t.(handing := t.handing[i := Handing(s.index[(i, f.to)], f)]) else t
  }

  function HandFrame(t: Traffic, i: InstId, accepted: bool): Traffic
    requires i in t.handing
  {
    var h := t.handing[i];
    var t' := if accepted then Enqueue(t, h.target, h.frame) else t;
    t'.(handing := t.handing - {i})
  }

  /** The write pump sends the next queued frame, or fails and loses it. */
  function WriteFrame(t: Traffic, c: ConnId, ok: bool): Traffic
    requires t.Out(c) != []
  {
    var t' := t.(out := t.out[c := t.Out(c)[1..]]);
    if ok then t'.(received := t.received[c := t.Received(c) + [t.Out(c)[0]]]) else t'
  }

  predicate SlotEnabled(s: State, step: SlotStep) {
    match step
    case Tick(_) => true
    case Purge(key) => !Live(s.shared.slots, key, s.shared.now)
    case ClaimStep(c, _, _, _) => c != "" && c !in s.lives.conns
    case CloseOld(c) => c in s.lives.conns && c in s.lives.phase && s.lives.phase[c].Claimed?
    case StoreIndex(c) => InPhase(s.lives, c, Cleared)
    case DeliverNotice(i) => i < |s.notices|
    case LoseNotice(i) => i < |s.notices|
    case RenewCall(c) => InPhase(s.lives, c, Serving) && c in s.lives.open && c !in s.lives.renewing
    case RenewReact(c) => c in s.lives.conns && c in s.lives.renewing
    case RenewLost(c) => c in s.lives.renewing
    case Close(c) => c in s.lives.conns
    case LeaveIndex(c) => InPhase(s.lives, c, Serving) && c !in s.lives.open
    case ReleaseStep(c) => InPhase(s.lives, c, Unindexed)
  }

  function SlotNext(s: State, step: SlotStep): (s': State)
    requires SlotEnabled(s, step)
    ensures s'.traffic == s.traffic
  {
    match step
    case Tick(time) => s.(shared := s.shared.(now := s.shared.now + time))
    case Purge(key) => s.(shared := s.shared.(slots := s.shared.slots - {key}))
    case ClaimStep(c, key, inst, lost) => Claimer(s, c, key, inst, lost)
    case CloseOld(c) => CloseDisplaced(s, c)
    case StoreIndex(c) =>
      s.(index := s.index[(s.lives.conns[c].inst, s.lives.conns[c].key) := c],
         lives := s.lives.(phase := s.lives.phase[c := Serving],
                           entered := s.lives.entered[(s.lives.conns[c].inst, s.lives.conns[c].key) := c]))
    case DeliverNotice(i) => Notice(s, i)
    case LoseNotice(i) => s.(notices := s.notices[..i] + s.notices[i + 1..])
    case RenewCall(c) => StartRenewal(s, c)
    case RenewReact(c) => s.(lives := ReactToRenewal(s.lives, c))
    case RenewLost(c) => s.(lives := s.lives.(renewing := s.lives.renewing - {c}))
    case Close(c) => s.(lives := Shut(s.lives, c))
    case LeaveIndex(c) => Leave(s, c)
    case ReleaseStep(c) =>
      s.(shared := s.shared.(slots := ReleaseSlot(s.shared.slots, s.lives.conns[c].key, c)),
         lives := s.lives.(phase := s.lives.phase[c := Gone]))
  }

  predicate MoveEnabled(s: State, move: FrameStep) {
    match move
    case Send(c, _) => InPhase(s.lives, c, Serving) && c !in s.traffic.routing
    case EnqueuePeer(c, _) => IsRouting(s, c) && s.traffic.routing[c].ToPeer?
    case LookUpPeer(c) => IsRouting(s, c) && s.traffic.routing[c].Looking?
    case PublishStep(c, _) => IsRouting(s, c) && s.traffic.routing[c].ToInstance?
    case Fetch(i) => s.traffic.Queue(i) != [] && i !in s.traffic.handing
    case Hand(i, _) => i in s.traffic.handing
    case Write(c, _) => c in s.lives.conns && s.traffic.Out(c) != []
  }

  function Moved(s: State, move: FrameStep): Traffic
    requires MoveEnabled(s, move)
  {
    match move
    case Send(c, data) => StartRouting(s, c, data)
    case EnqueuePeer(c, accepted) => RouteToPeer(s, c, accepted)
    case LookUpPeer(c) => RouteByLookup(s, c)
    case PublishStep(c, fate) => RoutePublish(s, c, fate)
    case Fetch(i) => FetchFrame(s, i)
    case Hand(i, accepted) => HandFrame(s.traffic, i, accepted)
    case Write(c, ok) => WriteFrame(s.traffic, c, ok)
  }

  /** A peer whose queue refuses a local frame is closed, and so is a session whose write fails. */
  function ClosedBy(s: State, move: FrameStep): set<ConnId>
    requires MoveEnabled(s, move)
  {
    match move
    case EnqueuePeer(c, false) => {s.traffic.routing[c].peer}
    case Write(c, false) => {c}
    case _ => {}
  }

  predicate Enabled(s: State, step: Step) {
    match step
    case Slot(slot) => SlotEnabled(s, slot)
    case Move(move) => MoveEnabled(s, move)
  }

  function Next(s: State, step: Step): State
    requires Enabled(s, step)
  {
    match step
    case Slot(slot) => SlotNext(s, slot)
    case Move(move) =>
      s.(traffic := Moved(s, move), lives := s.lives.(open := s.lives.open - ClosedBy(s, move)))
  }

  function Exec(s: State, steps: seq<Step>): State
    decreases |steps|
  {
    if steps == [] then s
    else Exec(if Enabled(s, steps[0]) then Next(s, steps[0]) else s, steps[1..])
  }
}
