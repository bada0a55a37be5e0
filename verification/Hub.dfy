/**
 The hub of one relay instance, with each hub call as one step: the local index, the
 slots it claims, and the presence notices it addresses to its sessions.
 */
module Hub {
  import opened Roles
  import opened Slots
  import Sessions

  datatype Notice = PeerOnline | PeerOffline

  // ---------------------------------------------------------------------------
  // The hub as a value
  // ---------------------------------------------------------------------------

  /** The last notice addressed to a session is in `told`; a session told nothing takes its peer to be offline. */
  datatype HubState = HubState(slots: Registry, local: map<SlotKey, ConnId>, open: set<ConnId>,
                               told: map<ConnId, Notice>)

  predicate ToldOnline(h: HubState, c: ConnId) {
    c in h.told && h.told[c] == PeerOnline
  }

  /** The displaced holder that Register closes, if any. */
  function Superseded(h: HubState, key: SlotKey, claimed: Claimed): set<ConnId> {
    if claimed.evicted != "" && claimed.onThisInstance && key in h.local && h.local[key] == claimed.evicted
    then {claimed.evicted} else {}
  }

  /** Presence after `c` entered the index: both ends hear of each other if the peer is indexed. */
  function Announce(h: HubState, c: ConnId, key: SlotKey, inst: InstId, now: int): map<ConnId, Notice> {
    if key.Peer() in h.local then h.told[c := PeerOnline][h.local[key.Peer()] := PeerOnline]
    else
      var at := LookupInstance(h.slots, key.Peer(), now);
      if at != "" && at != inst then h.told[c := PeerOnline] else h.told
  }

  function Registered(h: HubState, c: ConnId, key: SlotKey, inst: InstId, now: int, ttl: int): HubState {
    var (slots, claimed) := ClaimSlot(h.slots, key, c, inst, now, ttl);
    var h1 := HubState(slots, h.local[key := c], h.open - Superseded(h, key, claimed) + {c}, h.told);
    h1.(told := Announce(h1, c, key, inst, now))
  }

  function Deregistered(h: HubState, c: ConnId, key: SlotKey): HubState {
    var holder := key in h.local && h.local[key] == c;
    var local := if holder then h.local - {key} else h.local;
    HubState(ReleaseSlot(h.slots, key, c), local, h.open,
             if holder && key.Peer() in local then h.told[local[key.Peer()] := PeerOffline] else h.told)
  }

  /** A heartbeat renewal: a session that lost its slot closes itself. */
  function Renewed(h: HubState, c: ConnId, key: SlotKey, now: int, ttl: int): HubState {
    var (slots, owner) := RenewSlot(h.slots, key, c, now, ttl);
    h.(slots := slots, open := if owner then h.open else h.open - {c})
  }

  // ---------------------------------------------------------------------------
  // The hub as the object an instance holds
  // ---------------------------------------------------------------------------

  /** A session as far as the hub acts on it: the notices addressed to it, and those its queue took. */
  datatype Session = Session(key: SlotKey, open: bool, closeCode: int, notices: seq<Notice>, queued: seq<Notice>)
  {
    /** Only the first close records its code. */
    function CloseWith(code: int): (s: Session)
      ensures !s.open && s.key == key && s.notices == notices && s.queued == queued
    {
      if open then this.(open := false, closeCode := code) else this
    }

    /** Queueing never blocks: a full or closed queue refuses. */
    function SendSys(n: Notice, accepted: bool): Session {
      this.(notices := notices + [n], queued := if accepted then queued + [n] else queued)
    }
  }

  lemma FirstCloseWins(s: Session, first: int, later: int)
    ensures s.CloseWith(first).CloseWith(later) == s.CloseWith(first)
  {
  }

  function OpenIds(sessions: map<ConnId, Session>): set<ConnId> {
    set id | id in sessions && sessions[id].open
  }

  function LastNotices(sessions: map<ConnId, Session>): map<ConnId, Notice> {
    map id | id in sessions && sessions[id].notices != [] :: sessions[id].notices[|sessions[id].notices| - 1]
  }

  /** The sessions that closed in between did so with this code. */
  ghost predicate ClosedAs(before: map<ConnId, Session>, after: map<ConnId, Session>, code: int) {
    forall x | x in before && x in after && before[x].open && !after[x].open :: after[x].closeCode == code
  }

  class RelayHub {
    const instance: InstId
    const bp: MemoryBackplane
    var local: map<SlotKey, ConnId>
    var sessions: map<ConnId, Session>

    ghost predicate Valid()
      reads this, bp
    {
      && bp.Valid()
      && (forall k | k in local :: local[k] in sessions && sessions[local[k]].key == k)
    }

    ghost function View(): HubState
      reads this, bp
    {
      HubState(bp.slots, local, OpenIds(sessions), LastNotices(sessions))
    }

    constructor (instance: InstId, bp: MemoryBackplane)
      requires bp.Valid()
      ensures Valid() && this.instance == instance && this.bp == bp
      ensures View() == HubState(bp.slots, map[], {}, map[])
    {
      this.instance, this.bp := instance, bp;
      local, sessions := map[], map[];
    }

    /** `refusing` are the sessions whose queue takes nothing more. */
    method Register(id: ConnId, key: SlotKey, now: int, refusing: set<ConnId>)
      requires Valid() && id !in sessions
      modifies this, bp
      ensures Valid() && sessions.Keys == old(sessions).Keys + {id}
      ensures View() == Registered(old(View()), id, key, instance, now, bp.ttl)
      ensures ClosedAs(old(sessions), sessions, 4001)
    {
      var claimed := bp.Claim(key, id, instance, now);
      if claimed.evicted != "" && claimed.onThisInstance {
        if key in local && local[key] == claimed.evicted {
          Close(local[key], Sessions.CLOSE_SUPERSEDED);
        }
      }
      Enter(id, key);
      AnnouncePresence(id, key, now, refusing);
    }

    method Close(id: ConnId, code: int)
      requires Valid() && id in sessions
      modifies this`sessions
      ensures Valid() && sessions.Keys == old(sessions).Keys
      ensures sessions == old(sessions)[id := old(sessions)[id].CloseWith(code)]
      ensures ClosedAs(old(sessions), sessions, code)
      ensures View() == old(View()).(open := old(View()).open - {id})
    {
      ghost var before := View();
      sessions := sessions[id := sessions[id].CloseWith(code)];
      assert OpenIds(sessions) == before.open - {id};
      assert LastNotices(sessions) == before.told;
    }

    method Enter(id: ConnId, key: SlotKey)
      requires Valid() && id !in sessions
      modifies this
      ensures Valid() && sessions.Keys == old(sessions).Keys + {id}
      ensures View() == old(View()).(local := old(local)[key := id], open := old(View()).open + {id})
      ensures forall x | x in old(sessions) :: sessions[x] == old(sessions)[x]
    {
      ghost var before := View();
      local := local[key := id];
      sessions := sessions[id := Session(key, true, Sessions.CLOSE_NORMAL, [], [])];
      assert OpenIds(sessions) == before.open + {id};
      assert LastNotices(sessions) == before.told;
    }

    method Tell(id: ConnId, n: Notice, refusing: set<ConnId>) returns (ok: bool)
      requires Valid() && id in sessions
      modifies this`sessions
      ensures ok <==> id !in refusing
      ensures Valid() && sessions == old(sessions)[id := old(sessions)[id].SendSys(n, ok)]
      ensures View() == old(View()).(told := old(View()).told[id := n])
    {
      ghost var before := View();
      ok := id !in refusing;
      sessions := sessions[id := sessions[id].SendSys(n, ok)];
      assert OpenIds(sessions) == before.open;
      assert LastNotices(sessions) == before.told[id := n];
    }

    method AnnouncePresence(id: ConnId, key: SlotKey, now: int, refusing: set<ConnId>)
      requires Valid() && id in sessions
      modifies this`sessions
      ensures Valid() && sessions.Keys == old(sessions).Keys
      ensures View() == old(View()).(told := Announce(old(View()), id, key, instance, now))
      ensures forall x | x in sessions ::
                sessions[x].open == old(sessions)[x].open && sessions[x].closeCode == old(sessions)[x].closeCode
    {
      if key.Peer() in local {
        var _ := Tell(id, PeerOnline, refusing);
        var _ := Tell(local[key.Peer()], PeerOnline, refusing);
      } else {
        var inst := bp.Lookup(key.Peer(), now);
        if inst != "" && inst != instance {
          var _ := Tell(id, PeerOnline, refusing);
        }
      }
    }

    method Deregister(id: ConnId, key: SlotKey, refusing: set<ConnId>)
      requires Valid()
      modifies this, bp
      ensures Valid() && sessions.Keys == old(sessions).Keys
      ensures View() == Deregistered(old(View()), id, key)
    {
      var wasHolder := key in local && local[key] == id;
      if wasHolder {
        local := local - {key};
      }
      bp.Release(key, id);
      if wasHolder && key.Peer() in local {
        var _ := Tell(local[key.Peer()], PeerOffline, refusing);
      }
    }

    /** The renewer a session calls on its heartbeat, and the session's reaction. */
    method Renew(id: ConnId, key: SlotKey, now: int)
      requires Valid() && id in sessions
      modifies this, bp
      ensures Valid() && sessions.Keys == old(sessions).Keys
      ensures View() == Renewed(old(View()), id, key, now, bp.ttl)
      ensures ClosedAs(old(sessions), sessions, 4001)
    {
      var owner := bp.Renew(key, id, now);
      if !owner {
        Close(id, Sessions.CLOSE_SUPERSEDED);
      }
    }
  }

  // ---------------------------------------------------------------------------
  // Every sequence of hub calls
  // ---------------------------------------------------------------------------

  datatype Call =
    | Register(conn: ConnId, key: SlotKey)
    | Deregister(conn: ConnId)            // late ones included: the session may be long superseded
    | Renew(conn: ConnId)
    | CloseOther(conn: ConnId)            // any other reason to close a session
    | Pass(time: nat)

  /** The hub with the key of every session ever registered. */
  datatype Run = Run(hub: HubState, keys: map<ConnId, SlotKey>, now: int)

  function Step(r: Run, inst: InstId, ttl: int, call: Call): Run {
    match call
    case Register(c, key) =>
      if c == "" || c in r.keys then r
      else r.(hub := Registered(r.hub, c, key, inst, r.now, ttl), keys := r.keys[c := key])
    case Deregister(c) => if c in r.keys then r.(hub := Deregistered(r.hub, c, r.keys[c])) else r
    case Renew(c) => if c in r.keys then r.(hub := Renewed(r.hub, c, r.keys[c], r.now, ttl)) else r
    case CloseOther(c) => r.(hub := r.hub.(open := r.hub.open - {c}))
    case Pass(time) => r.(now := r.now + time)
  }

  function Calls(r: Run, inst: InstId, ttl: int, calls: seq<Call>): Run
    decreases |calls|
  {
    if calls == [] then r else Calls(Step(r, inst, ttl, calls[0]), inst, ttl, calls[1..])
  }

  function Empty(now: int): Run {
    Run(HubState(map[], map[], {}, map[]), map[], now)
  }

  /** The index and the slots hold the same keys and connections. */
  ghost predicate IndexIsSlots(h: HubState, inst: InstId) {
    && h.slots.Keys == h.local.Keys
    && (forall k | k in h.local :: h.slots[k].conn == h.local[k] && h.slots[k].inst == inst)
  }

  /** Every indexed session was last told the truth about its peer. */
  ghost predicate PresenceTrue(h: HubState) {
    forall k | k in h.local :: ToldOnline(h, h.local[k]) <==> k.Peer() in h.local
  }

  ghost predicate KeysRight(r: Run) {
    && (forall k | k in r.hub.local :: r.hub.local[k] in r.keys && r.keys[r.hub.local[k]] == k)
    && (forall c | c in r.hub.told :: c in r.keys)
  }

  ghost predicate Good(r: Run, inst: InstId) {
    IndexIsSlots(r.hub, inst) && PresenceTrue(r.hub) && KeysRight(r)
  }

  lemma PeerInvolutive(k: SlotKey)
    ensures k.Peer().Peer() == k && k.Peer() != k
  {
  }

  lemma RegisterKeepsGood(r: Run, inst: InstId, ttl: int, c: ConnId, key: SlotKey)
    requires Good(r, inst) && c != "" && c !in r.keys
    ensures Good(Step(r, inst, ttl, Register(c, key)), inst)
  {
    PeerInvolutive(key);
    var h := Step(r, inst, ttl, Register(c, key)).hub;
    forall k | k in h.local ensures ToldOnline(h, h.local[k]) <==> k.Peer() in h.local {
      PeerInvolutive(k);
    }
  }

  lemma DeregisterKeepsGood(r: Run, inst: InstId, ttl: int, c: ConnId)
    requires Good(r, inst)
    ensures Good(Step(r, inst, ttl, Deregister(c)), inst)
  {
    if c in r.keys {
      PeerInvolutive(r.keys[c]);
      var h := Step(r, inst, ttl, Deregister(c)).hub;
      forall k | k in h.local ensures ToldOnline(h, h.local[k]) <==> k.Peer() in h.local {
        PeerInvolutive(k);
      }
    }
  }

  lemma StepKeepsGood(r: Run, inst: InstId, ttl: int, call: Call)
    requires Good(r, inst)
    ensures Good(Step(r, inst, ttl, call), inst)
  {
    match call
    case Register(c, key) =>
      if c != "" && c !in r.keys {
        RegisterKeepsGood(r, inst, ttl, c, key);
      }
    case Deregister(c) => DeregisterKeepsGood(r, inst, ttl, c);
    case Renew(c) =>
    case CloseOther(c) =>
    case Pass(time) =>
  }

  lemma {:induction false} CallsKeepGood(r: Run, inst: InstId, ttl: int, calls: seq<Call>)
    requires Good(r, inst)
    ensures Good(Calls(r, inst, ttl, calls), inst)
    decreases |calls|
  {
    hide Good;
    if calls != [] {
      StepKeepsGood(r, inst, ttl, calls[0]);
      CallsKeepGood(Step(r, inst, ttl, calls[0]), inst, ttl, calls[1..]);
    }
  }

  /** After any sequence of hub calls the index and the slots hold the same keys and connections. */
  lemma {:induction false} IndexAlwaysMatchesSlots(now: int, inst: InstId, ttl: int, calls: seq<Call>)
    ensures IndexIsSlots(Calls(Empty(now), inst, ttl, calls).hub, inst)
  {
    CallsKeepGood(Empty(now), inst, ttl, calls);
  }

  /**
   After any sequence of reconnects and late deregisters, the last notice addressed to an
   indexed session says online exactly when its peer is indexed.
   */
  lemma {:induction false} PresenceAlwaysTrue(now: int, inst: InstId, ttl: int, calls: seq<Call>, key: SlotKey)
    ensures var h := Calls(Empty(now), inst, ttl, calls).hub;
            key in h.local ==> (ToldOnline(h, h.local[key]) <==> key.Peer() in h.local)
  {
    CallsKeepGood(Empty(now), inst, ttl, calls);
  }

  /**
   After any sequence of calls, a registration that reports an eviction closes exactly the
   indexed holder of the slot, and one that reports none closes nothing.
   */
  lemma {:induction false} EvictionClosesExactlyTheDisplaced(
      now: int, inst: InstId, ttl: int, calls: seq<Call>, c: ConnId, key: SlotKey)
    requires c != "" && c !in Calls(Empty(now), inst, ttl, calls).keys
    ensures var r := Calls(Empty(now), inst, ttl, calls);
            var evicted := ClaimSlot(r.hub.slots, key, c, inst, r.now, ttl).1.evicted;
            var h' := Step(r, inst, ttl, Register(c, key)).hub;
            && (evicted != "" ==>
                  && key in r.hub.local && r.hub.local[key] == evicted
                  && h'.open == r.hub.open - {evicted} + {c})
            && (evicted == "" ==> h'.open == r.hub.open + {c})
            && h'.local[key] == c
  {
    CallsKeepGood(Empty(now), inst, ttl, calls);
  }

  // ---------------------------------------------------------------------------
  // Presence at registration
  // ---------------------------------------------------------------------------

  /** A live slot entry names another instance. */
  predicate LiveElsewhere(slots: Registry, key: SlotKey, inst: InstId, now: int) {
    key in slots && now < slots[key].expiresAt && slots[key].inst != "" && slots[key].inst != inst
  }

  /**
   A registration tells both ends that they are online if the peer is indexed here, the
   newcomer alone if a live entry of the peer's slot is at another instance, and nobody
   otherwise.
   */
  lemma RegistrationTells(h: HubState, c: ConnId, key: SlotKey, inst: InstId, now: int, ttl: int)
    ensures var after := Registered(h, c, key, inst, now, ttl);
            && after.local == h.local[key := c] && c in after.open
            && after.told ==
               if key.Peer() in h.local then h.told[c := PeerOnline][h.local[key.Peer()] := PeerOnline]
               else if LiveElsewhere(h.slots, key.Peer(), inst, now) then h.told[c := PeerOnline] else h.told
  {
    PeerInvolutive(key);
  }

  /**
   A renewal by the slot's owner extends its entry and closes nobody; by anyone else it
   changes no entry and closes that session.
   */
  lemma RenewalMeans(h: HubState, c: ConnId, key: SlotKey, now: int, ttl: int)
    ensures var after := Renewed(h, c, key, now, ttl);
            var owner := key in h.slots && h.slots[key].conn == c;
            && after.local == h.local && after.told == h.told
            && (owner ==> after.open == h.open && after.slots == h.slots[key := h.slots[key].(expiresAt := now + ttl)])
            && (!owner ==> after.open == h.open - {c} && after.slots == h.slots)
  {
  }
}
