/**
 The handshake coordinator of the SDKs: it keeps a session while the peer repeats
 its ephemeral key, and rebuilds it, with an empty replay window, on a different one.

 The relay in between is untrusted: inputs are arbitrary sequences of frames, so
 dropping, duplicating, reordering and forging are all included.
 */
module Handshake {
  import opened Options
  import opened Bytes
  import opened Roles
  import opened Replay
  import opened E2ee

  const TAG_HANDSHAKE: Byte := 0x01
  const TAG_DATA: Byte := 0x02

  /** What follows the tag byte: exactly 32 bytes read as a public key, or anything else. */
  datatype Body = KeySized(pub: Public) | Other(wire: Wire)

  datatype Payload = Empty | Frame(tag: Byte, body: Body)

  datatype Outcome =
    | SessionBuilt | SessionKept
    | Delivered(plain: ByteString)
    | Refused(why: Opening)
    | EmptyFrame | BadKeyLength | NoSession | UnknownTag

  // ---------------------------------------------------------------------------
  // The coordinator as a value
  // ---------------------------------------------------------------------------

  datatype Established = Established(peerEph: Public, session: Session)

  datatype Coordinator = Coordinator(me: Side, current: Option<Established>)

  function AcceptPeerEphemeral(c: Coordinator, peerEph: Public): (Coordinator, Outcome) {
    if c.current.Some? && c.current.value.peerEph == peerEph then (c, SessionKept)
    else (c.(current := Some(Established(peerEph, NewSession(c.me, peerEph)))), SessionBuilt)
  }

  /** A data frame's body as a wire message; 32 raw bytes authenticate under no key. */
  function AsWire(body: Body): Wire {
    match body
    case KeySized(_) => Wire(seq(NONCE_SIZE, _ => 0), Forged([]))
    case Other(wire) => wire
  }

  function OnFrame(c: Coordinator, payload: Payload, id: Id, ts: Int64): (Coordinator, Outcome) {
    match payload
    case Empty => (c, EmptyFrame)
    case Frame(tag, body) =>
      if tag == TAG_HANDSHAKE then
        match body
        case KeySized(pub) => AcceptPeerEphemeral(c, pub)
        case Other(_) => (c, BadKeyLength)
      else if tag == TAG_DATA then
        match c.current
        case None => (c, NoSession)
        case Some(est) =>
          var (session, opening) := Open(est.session, id, ts, AsWire(body));
          (c.(current := Some(est.(session := session))),
           if opening.Opened? then Delivered(opening.plain) else Refused(opening))
      else (c, UnknownTag)
  }

  // ---------------------------------------------------------------------------
  // The coordinator as the object a connection holds
  // ---------------------------------------------------------------------------

  class HandshakeCoordinator {
    const me: Side
    var session: LiveSession?
    var sessionPeerEph: Option<Public>

    ghost predicate Valid()
      reads this
    {
      session == null <==> sessionPeerEph.None?
    }

    ghost function Footprint(): set<object>
      reads this
    {
      {this} + if session == null then {} else {session.guard}
    }

    ghost function View(): Coordinator
      requires Valid()
      reads this, Footprint()
    {
      Coordinator(me, if session == null then None
                      else Some(Established(sessionPeerEph.value, session.View())))
    }

    constructor (me: Side)
      ensures Valid() && View() == Coordinator(me, None)
    {
      this.me := me;
      session := null;
      sessionPeerEph := None;
    }

    method Feed(payload: Payload, id: Id, ts: Int64) returns (r: Outcome)
      requires Valid()
      modifies Footprint()
      ensures Valid() && fresh(Footprint() - old(Footprint()))
      ensures (View(), r) == OnFrame(old(View()), payload, id, ts)
    {
      if payload.Empty? {
        return EmptyFrame;
      }
      if payload.tag == TAG_HANDSHAKE {
        if payload.body.Other? {
          return BadKeyLength;
        }
        r := Accept(payload.body.pub);
      } else if payload.tag == TAG_DATA {
        if session == null {
          return NoSession;
        }
        var opening := session.OpenWire(id, ts, AsWire(payload.body));
        r := if opening.Opened? then Delivered(opening.plain) else Refused(opening);
      } else {
        r := UnknownTag;
      }
    }

    method Accept(peerEph: Public) returns (r: Outcome)
      requires Valid()
      modifies this
      ensures Valid() && fresh(Footprint() - old(Footprint()))
      ensures (View(), r) == AcceptPeerEphemeral(old(View()), peerEph)
    {
      if session != null && sessionPeerEph == Some(peerEph) {
        return SessionKept;
      }
      sessionPeerEph := Some(peerEph);
      session := new LiveSession(me, peerEph);
      r := SessionBuilt;
    }

    method SealFrame(nonce: ByteString, id: Id, ts: Int64, plain: ByteString) returns (frame: Option<Payload>)
      requires Valid()
      ensures frame.Some? <==> View().current.Some? && |nonce| == NONCE_SIZE
      ensures frame.Some? ==>
                frame.value == Frame(TAG_DATA, Other(Seal(View().current.value.session, nonce, id, ts, plain).value))
    {
      if session == null || |nonce| != NONCE_SIZE {
        return None;
      }
      frame := Some(Frame(TAG_DATA, Other(Wire(nonce, Sealed(session.send, nonce, Aad(id, ts), plain)))));
    }
  }

  // ---------------------------------------------------------------------------
  // Runs
  // ---------------------------------------------------------------------------

  datatype Input = Input(payload: Payload, id: Id, ts: Int64)

  /** A delivered frame, with the number of the session that opened it. */
  datatype Delivery = Delivery(cipher: Cipher, id: Id, ts: Int64, era: nat)

  /**
   A coordinator with the history of its run: the handshake keys received, the keys
   for which a session was built and their positions among the received ones, the
   envelopes the current session accepted, and everything delivered so far.
   */
  datatype Track = Track(c: Coordinator, keys: seq<Public>, eras: seq<Public>, at: seq<nat>,
                         log: Ledger, delivered: seq<Delivery>)

  function Start(me: Side): Track {
    Track(Coordinator(me, None), [], [], [], [], [])
  }

  predicate IsHandshake(payload: Payload) {
    payload.Frame? && payload.tag == TAG_HANDSHAKE && payload.body.KeySized?
  }

  function LastEra(t: Track): nat {
    if t.eras == [] then 0 else |t.eras| - 1
  }

  function Advance(t: Track, i: Input): Track {
    var (c, r) := OnFrame(t.c, i.payload, i.id, i.ts);
    match r
    case SessionBuilt =>
      var key := i.payload.body.pub;
      Track(c, t.keys + [key], t.eras + [key], t.at + [|t.keys|], [], t.delivered)
    case SessionKept => t.(c := c, keys := t.keys + [i.payload.body.pub])
    case Delivered(_) =>
      t.(c := c, log := t.log + [(i.id, i.ts)],
         delivered := t.delivered + [Delivery(AsWire(i.payload.body).body, i.id, i.ts, LastEra(t))])
    case _ => t.(c := c)
  }

  function Run(t: Track, inputs: seq<Input>): Track
    decreases |inputs|
  {
    if inputs == [] then t else Run(Advance(t, inputs[0]), inputs[1..])
  }

  /** The handshake keys among the inputs, in order. */
  function Handshakes(inputs: seq<Input>): seq<Public> {
    if inputs == [] then []
    else (if IsHandshake(inputs[0].payload) then [inputs[0].payload.body.pub] else []) + Handshakes(inputs[1..])
  }

  /** Some key comes back after a different one. */
  ghost predicate Returns(keys: seq<Public>) {
    exists a, m, b | 0 <= a < m < b < |keys| :: keys[a] == keys[b] != keys[m]
  }

  ghost predicate DeliversTwice(delivered: seq<Delivery>) {
    exists i, j | 0 <= i < j < |delivered| :: delivered[i].cipher == delivered[j].cipher
  }

  function RecvKey(me: Side, peerEph: Public): Key {
    NewSession(me, peerEph).recv
  }

  // ---------------------------------------------------------------------------
  // What every input keeps
  // ---------------------------------------------------------------------------

  /** The current session belongs to the last key received, whatever came before. */
  ghost predicate SessionMatchesLastKey(t: Track) {
    && (t.c.current.None? <==> t.keys == [])
    && (t.c.current.Some? ==>
          var est := t.c.current.value;
          && est.peerEph == t.keys[|t.keys| - 1]
          && est.session.send == NewSession(t.c.me, est.peerEph).send
          && est.session.recv == RecvKey(t.c.me, est.peerEph)
          && est.session.guard.window == DEFAULT_WINDOW)
  }

  /** The current window is the pruned form of the envelopes the session accepted. */
  ghost predicate WindowMirrorsLog(t: Track) {
    t.c.current.Some? ==> Mirrors(t.c.current.value.session.guard, t.log)
  }

  /** Sessions were built at increasing positions, each for a key other than the one before. */
  ghost predicate InOrder(keys: seq<Public>, eras: seq<Public>, at: seq<nat>) {
    && |at| == |eras|
    && (eras == [] <==> keys == [])
    && (forall k | 0 <= k < |at| :: at[k] < |keys| && keys[at[k]] == eras[k])
    && (forall i, j | 0 <= i < j < |at| :: at[i] < at[j])
    && (forall i, j | 0 <= i && j == i + 1 < |eras| :: eras[i] != eras[j])
    && (eras != [] ==> eras[|eras| - 1] == keys[|keys| - 1])
  }

  ghost predicate SealedForItsSession(t: Track, d: Delivery) {
    && d.era < |t.eras|
    && d.cipher.Sealed? && d.cipher.aad == Aad(d.id, d.ts)
    && d.cipher.key == RecvKey(t.c.me, t.eras[d.era])
  }

  /** Within one session every (id, ts) is delivered once. */
  ghost predicate OncePerSession(t: Track) {
    && (forall d | d in t.delivered && d.era == LastEra(t) :: (d.id, d.ts) in t.log)
    && (forall i, j | 0 <= i < j < |t.delivered| && t.delivered[i].era == t.delivered[j].era ::
          (t.delivered[i].id, t.delivered[i].ts) != (t.delivered[j].id, t.delivered[j].ts))
  }

  ghost predicate Sound(t: Track) {
    && SessionMatchesLastKey(t) && WindowMirrorsLog(t) && InOrder(t.keys, t.eras, t.at)
    && (forall d | d in t.delivered :: SealedForItsSession(t, d))
    && OncePerSession(t)
  }

  /** What a delivery says about the frame and the session that opened it. */
  lemma DeliveryFacts(c: Coordinator, i: Input)
    requires OnFrame(c, i.payload, i.id, i.ts).1.Delivered?
    ensures c.current.Some?
    ensures var est, cipher := c.current.value, AsWire(i.payload.body).body;
            && cipher.Sealed? && cipher.key == est.session.recv && cipher.aad == Aad(i.id, i.ts)
            && Step(est.session.guard, i.id, i.ts).1.Accepted?
            && OnFrame(c, i.payload, i.id, i.ts).0.current ==
               Some(est.(session := est.session.(guard := Step(est.session.guard, i.id, i.ts).0)))
  {
  }

  /** A data frame that is not delivered, and any malformed frame, leaves the coordinator as it was. */
  lemma RefusedInputChangesNothing(c: Coordinator, i: Input)
    ensures var (c', r) := OnFrame(c, i.payload, i.id, i.ts);
            !r.SessionBuilt? && !r.Delivered? ==> c' == c
  {
  }

  lemma SessionStep(t: Track, i: Input)
    requires SessionMatchesLastKey(t)
    ensures SessionMatchesLastKey(Advance(t, i)) && Advance(t, i).c.me == t.c.me
  {
  }

  lemma KeysStep(t: Track, i: Input)
    ensures Advance(t, i).keys == t.keys + if IsHandshake(i.payload) then [i.payload.body.pub] else []
  {
  }

  lemma WindowStep(t: Track, i: Input)
    requires WindowMirrorsLog(t)
    ensures WindowMirrorsLog(Advance(t, i))
  {
    RefusedInputChangesNothing(t.c, i);
    var r := OnFrame(t.c, i.payload, i.id, i.ts).1;
    if r.Delivered? {
      DeliveryFacts(t.c, i);
      MirrorsStep(t.c.current.value.session.guard, t.log, i.id, i.ts);
    }
  }

  lemma InOrderBuild(keys: seq<Public>, eras: seq<Public>, at: seq<nat>, key: Public)
    requires InOrder(keys, eras, at) && (keys != [] ==> keys[|keys| - 1] != key)
    ensures InOrder(keys + [key], eras + [key], at + [|keys|])
  {
  }

  lemma InOrderKeep(keys: seq<Public>, eras: seq<Public>, at: seq<nat>)
    requires InOrder(keys, eras, at) && keys != []
    ensures InOrder(keys + [keys[|keys| - 1]], eras, at)
  {
  }

  lemma BuiltStep(t: Track, i: Input)
    requires SessionMatchesLastKey(t) && InOrder(t.keys, t.eras, t.at)
    ensures InOrder(Advance(t, i).keys, Advance(t, i).eras, Advance(t, i).at)
  {
    match OnFrame(t.c, i.payload, i.id, i.ts).1
    case SessionBuilt => InOrderBuild(t.keys, t.eras, t.at, i.payload.body.pub);
    case SessionKept => InOrderKeep(t.keys, t.eras, t.at);
    case _ =>
  }

  lemma DeliveredStep(t: Track, i: Input)
    requires SessionMatchesLastKey(t) && InOrder(t.keys, t.eras, t.at)
    requires forall d | d in t.delivered :: SealedForItsSession(t, d)
    ensures forall d | d in Advance(t, i).delivered :: SealedForItsSession(Advance(t, i), d)
  {
  }

  lemma OnceStep(t: Track, i: Input)
    requires Sound(t)
    ensures OncePerSession(Advance(t, i))
  {
    var r := OnFrame(t.c, i.payload, i.id, i.ts).1;
    assert forall d | d in t.delivered :: SealedForItsSession(t, d) && d.era < |t.eras|;
    if r.Delivered? {
      DeliveryFacts(t.c, i);
      var guard := t.c.current.value.session.guard;
      MirrorsStep(guard, t.log, i.id, i.ts);
      if (i.id, i.ts) in t.log {
        LedgerRefusesRepeats(guard.window, t.log, [(i.id, i.ts)], 0);
      }
      AppendOnce(t, i);
    }
  }

  lemma AppendOnce(t: Track, i: Input)
    requires OncePerSession(t) && OnFrame(t.c, i.payload, i.id, i.ts).1.Delivered? && (i.id, i.ts) !in t.log
    ensures OncePerSession(Advance(t, i))
  {
  }

  lemma SoundStep(t: Track, i: Input)
    requires Sound(t)
    ensures Sound(Advance(t, i)) && Advance(t, i).c.me == t.c.me
  {
    SessionStep(t, i);
    WindowStep(t, i);
    BuiltStep(t, i);
    DeliveredStep(t, i);
    OnceStep(t, i);
  }

  lemma {:induction false} SoundRun(t: Track, inputs: seq<Input>)
    requires Sound(t)
    ensures Sound(Run(t, inputs)) && Run(t, inputs).c.me == t.c.me
    decreases |inputs|
  {
    if inputs != [] {
      SoundStep(t, inputs[0]);
      SoundRun(Advance(t, inputs[0]), inputs[1..]);
    }
  }

  lemma {:induction false} RunKeys(t: Track, inputs: seq<Input>)
    ensures Run(t, inputs).keys == t.keys + Handshakes(inputs)
    decreases |inputs|
  {
    hide Advance, IsHandshake;
    if inputs != [] {
      var t' := Advance(t, inputs[0]);
      KeysStep(t, inputs[0]);
      RunKeys(t', inputs[1..]);
      calc {
        t'.keys + Handshakes(inputs[1..]);
        t.keys + Handshakes(inputs);
      }
    }
  }

  /** Two sessions built for one key mean that the key returned after another one. */
  lemma RebuiltKeyReturns(t: Track, i: nat, j: nat)
    requires InOrder(t.keys, t.eras, t.at) && i < j < |t.eras| && t.eras[i] == t.eras[j]
    ensures Returns(t.keys)
  {
    assert t.eras[j - 1] != t.eras[j];
    assert t.keys[t.at[i]] == t.keys[t.at[j]] != t.keys[t.at[j - 1]];
  }

  /** One frame delivered twice means that two sessions were built for one key. */
  lemma RepeatNeedsTwoSessions(t: Track)
    requires Sound(t) && DeliversTwice(t.delivered)
    ensures Returns(t.keys)
  {
    var i, j :| 0 <= i < j < |t.delivered| && t.delivered[i].cipher == t.delivered[j].cipher;
    var d, e := t.delivered[i], t.delivered[j];
    assert SealedForItsSession(t, d) && SealedForItsSession(t, e);
    AadInjective(d.id, d.ts, e.id, e.ts);
    KeysSeparate(t.c.me, t.eras[d.era], t.eras[e.era]);
    if d.era < e.era {
      RebuiltKeyReturns(t, d.era, e.era);
    } else {
      RebuiltKeyReturns(t, e.era, d.era);
    }
  }

  // ---------------------------------------------------------------------------
  // Agreement after any two runs
  // ---------------------------------------------------------------------------

  /**
   However the two sides got there, their directional keys match exactly when each
   one's accepted ephemeral is the other's current one (and the identities are right).
   */
  lemma {:induction false} AgreementAfterAnyRuns(mobile: Side, desktop: Side, toMobile: seq<Input>,
      toDesktop: seq<Input>)
    requires mobile.role.Mobile? && desktop.role.Desktop?
    requires Handshakes(toMobile) != [] && Handshakes(toDesktop) != []
    ensures var m, d := Run(Start(mobile), toMobile).c.current, Run(Start(desktop), toDesktop).c.current;
            && m.Some? && d.Some?
            && (m.value.session.send == d.value.session.recv <==>
                Mutual(mobile, desktop, m.value.peerEph, d.value.peerEph))
            && (d.value.session.send == m.value.session.recv <==>
                Mutual(mobile, desktop, m.value.peerEph, d.value.peerEph))
            && m.value.session.send != m.value.session.recv
            && d.value.session.send != d.value.session.recv
  {
    SoundRun(Start(mobile), toMobile);
    SoundRun(Start(desktop), toDesktop);
    RunKeys(Start(mobile), toMobile);
    RunKeys(Start(desktop), toDesktop);
    var m, d := Run(Start(mobile), toMobile).c.current, Run(Start(desktop), toDesktop).c.current;
    KeysAgreeExactlyWhenMutual(mobile, desktop, m.value.peerEph, d.value.peerEph);
    KeysSeparate(mobile, m.value.peerEph, m.value.peerEph);
    KeysSeparate(desktop, d.value.peerEph, d.value.peerEph);
  }

  /** The outcome that a full history of accepted envelopes justifies for an authentic frame. */
  function Verdict(log: Ledger, id: Id, ts: Int64, plain: ByteString): Outcome {
    match LedgerAnswer(DEFAULT_WINDOW, log, id, ts)
    case Accepted => Delivered(plain)
    case Stale => Refused(OutsideWindow)
    case Replayed => Refused(Repeated)
  }

  /**
   End to end: once the keys of sender and receiver match, a frame the sender seals is
   delivered as its plaintext, save for what the receiver's history rules out; under any
   other id or timestamp, and at the sender itself, it is refused as not authentic.
   */
  lemma {:induction false} SealedFrameReachesPeer(
      from: Track, to: Track, nonce: ByteString, id: Id, ts: Int64, plain: ByteString, id': Id, ts': Int64)
    requires Sound(from) && Sound(to) && from.c.current.Some? && to.c.current.Some? && |nonce| == NONCE_SIZE
    requires from.c.current.value.session.send == to.c.current.value.session.recv
    ensures var frame := Frame(TAG_DATA, Other(Seal(from.c.current.value.session, nonce, id, ts, plain).value));
            && OnFrame(to.c, frame, id, ts).1 == Verdict(to.log, id, ts, plain)
            && ((id', ts') != (id, ts) ==> OnFrame(to.c, frame, id', ts') == (to.c, Refused(NotAuthentic)))
            && OnFrame(from.c, frame, id', ts') == (from.c, Refused(NotAuthentic))
  {
    var sender, receiver := from.c.current.value.session, to.c.current.value.session;
    KeysSeparate(from.c.me, from.c.current.value.peerEph, from.c.current.value.peerEph);
    SealedFrameOpensOnlyAsSealed(sender, receiver, nonce, id, ts, plain, id', ts');
    SealedFrameOpensOnlyAsSealed(sender, receiver, nonce, id, ts, plain, id, ts);
    MirrorsStep(receiver.guard, to.log, id, ts);
  }

  // ---------------------------------------------------------------------------
  // At most once
  // ---------------------------------------------------------------------------

  /** No run in which no key returns delivers one sealed frame twice. */
  lemma {:induction false} AtMostOnceWithoutReturn(me: Side, inputs: seq<Input>)
    requires !Returns(Handshakes(inputs))
    ensures !DeliversTwice(Run(Start(me), inputs).delivered)
  {
    SoundRun(Start(me), inputs);
    RunKeys(Start(me), inputs);
    assert [] + Handshakes(inputs) == Handshakes(inputs);
    if DeliversTwice(Run(Start(me), inputs).delivered) {
      RepeatNeedsTwoSessions(Run(Start(me), inputs));
    }
  }

  function KeyFrames(keys: seq<Public>): (inputs: seq<Input>) {
    if keys == [] then [] else [Input(Frame(TAG_HANDSHAKE, KeySized(keys[0])), [], 0)] + KeyFrames(keys[1..])
  }

  function FrameFor(me: Side, peerEph: Public): Input {
    var nonce := seq(NONCE_SIZE, _ => 0);
    Input(Frame(TAG_DATA, Other(Wire(nonce, Sealed(RecvKey(me, peerEph), nonce, Aad([], 0), [])))), [], 0)
  }

  lemma {:induction false} RunConcat(t: Track, first: seq<Input>, second: seq<Input>)
    ensures Run(t, first + second) == Run(Run(t, first), second)
    ensures Handshakes(first + second) == Handshakes(first) + Handshakes(second)
    decreases |first|
  {
    hide Advance;
    HandshakesConcat(first, second);
    if first == [] {
      assert first + second == second;
    } else {
      assert (first + second)[0] == first[0] && (first + second)[1..] == first[1..] + second;
      RunConcat(Advance(t, first[0]), first[1..], second);
    }
    hide Handshakes;
  }

  lemma {:induction false} HandshakesConcat(first: seq<Input>, second: seq<Input>)
    ensures Handshakes(first + second) == Handshakes(first) + Handshakes(second)
    decreases |first|
  {
    hide IsHandshake;
    if first == [] {
      assert first + second == second;
    } else {
      assert (first + second)[0] == first[0] && (first + second)[1..] == first[1..] + second;
      HandshakesConcat(first[1..], second);
    }
  }

  /** Handshakes alone: the last key decides, and its session has an unused window if it was just built. */
  lemma {:induction false} RunKeyFrames(t: Track, keys: seq<Public>)
    requires keys != []
    ensures var t' := Run(t, KeyFrames(keys));
            && Handshakes(KeyFrames(keys)) == keys
            && t'.delivered == t.delivered && t'.c.me == t.c.me
            && t'.c.current.Some? && t'.c.current.value.peerEph == keys[|keys| - 1]
            && (t.c.current.None? || (|keys| >= 2 && keys[|keys| - 2] != keys[|keys| - 1]) ==>
                  t'.c.current.value.session == NewSession(t.c.me, keys[|keys| - 1]))
    decreases |keys|
  {
    var inputs := KeyFrames(keys);
    var t1 := Advance(t, inputs[0]);
    assert inputs[1..] == KeyFrames(keys[1..]);
    if |keys| == 1 {
      assert Run(t, inputs) == Run(t1, []);
    } else {
      RunKeyFrames(t1, keys[1..]);
      if t.c.current.None? && keys[|keys| - 2] == keys[|keys| - 1] {
        KeptFromFresh(t1, keys[1..]);
      }
    }
  }

  lemma {:induction false} KeptFromFresh(t: Track, keys: seq<Public>)
    requires t.c.current.Some? && t.c.current.value.session == NewSession(t.c.me, t.c.current.value.peerEph)
    ensures var est := Run(t, KeyFrames(keys)).c.current;
            est.Some? && est.value.session == NewSession(t.c.me, est.value.peerEph)
    decreases |keys|
  {
    if keys != [] {
      assert KeyFrames(keys)[1..] == KeyFrames(keys[1..]);
      KeptFromFresh(Advance(t, KeyFrames(keys)[0]), keys[1..]);
    }
  }

  lemma FreshSessionDelivers(t: Track, key: Public)
    requires t.c.current == Some(Established(key, NewSession(t.c.me, key)))
    ensures var t' := Run(t, [FrameFor(t.c.me, key)]);
            && |t'.delivered| == |t.delivered| + 1 && t.delivered <= t'.delivered
            && t'.delivered[|t.delivered|].cipher == FrameFor(t.c.me, key).payload.body.wire.body
            && t'.c.current.Some? && t'.c.current.value.peerEph == key && t'.c.me == t.c.me
    ensures Handshakes([FrameFor(t.c.me, key)]) == []
  {
  }

  /** Handshakes that end with a newly built session, then a frame for it. */
  lemma {:induction false} KeysThenFrame(t: Track, keys: seq<Public>)
    requires keys != []
    requires t.c.current.None? || (|keys| >= 2 && keys[|keys| - 2] != keys[|keys| - 1])
    ensures var inputs := KeyFrames(keys) + [FrameFor(t.c.me, keys[|keys| - 1])];
            var t' := Run(t, inputs);
            && Handshakes(inputs) == keys && t'.c.me == t.c.me
            && |t'.delivered| == |t.delivered| + 1 && t.delivered <= t'.delivered
            && t'.delivered[|t.delivered|].cipher == FrameFor(t.c.me, keys[|keys| - 1]).payload.body.wire.body
  {
    var key := keys[|keys| - 1];
    RunKeyFrames(t, keys);
    FreshSessionDelivers(Run(t, KeyFrames(keys)), key);
    RunConcat(t, KeyFrames(keys), [FrameFor(t.c.me, key)]);
  }

  /** Two batches of handshakes that build a session for the same key deliver the same frame. */
  lemma {:induction false} SameFrameTwice(t: Track, k1: seq<Public>, k2: seq<Public>) returns (inputs: seq<Input>)
    requires t.c.current.None?
    requires k1 != [] && |k2| >= 2 && k2[|k2| - 2] != k2[|k2| - 1] == k1[|k1| - 1]
    ensures Handshakes(inputs) == k1 + k2
    ensures DeliversTwice(Run(t, inputs).delivered)
  {
    var frame := FrameFor(t.c.me, k1[|k1| - 1]);
    var p1, p2 := KeyFrames(k1) + [frame], KeyFrames(k2) + [frame];
    KeysThenFrame(t, k1);
    var t1 := Run(t, p1);
    KeysThenFrame(t1, k2);
    var n := |t.delivered|;
    assert Run(t1, p2).delivered[n].cipher == Run(t1, p2).delivered[n + 1].cipher;
    RunConcat(t, p1, p2);
    inputs := p1 + p2;
  }

  /** A run over the given handshakes that delivers one frame twice. */
  lemma {:induction false} ReturnLetsAFrameThroughTwice(me: Side, keys: seq<Public>) returns (inputs: seq<Input>)
    requires Returns(keys)
    ensures Handshakes(inputs) == keys
    ensures DeliversTwice(Run(Start(me), inputs).delivered)
  {
    var a, b := FirstReturn(keys);
    var rest := keys[b + 1..];
    inputs := SameFrameTwice(Start(me), keys[..a + 1], keys[a + 1..b + 1]);
    assert keys[..a + 1] + keys[a + 1..b + 1] + rest == keys;
    if rest == [] {
      assert keys[..a + 1] + keys[a + 1..b + 1] == keys;
    } else {
      RunKeyFrames(Run(Start(me), inputs), rest);
      RunConcat(Start(me), inputs, KeyFrames(rest));
      inputs := inputs + KeyFrames(rest);
    }
  }

  /** The first return of a key: it comes straight after a different key. */
  lemma FirstReturn(keys: seq<Public>) returns (a: nat, b: nat)
    requires Returns(keys)
    ensures a + 1 < b < |keys| && keys[a] == keys[b] != keys[b - 1]
  {
    var a', m, b' :| 0 <= a' < m < b' < |keys| && keys[a'] == keys[b'] != keys[m];
    a, b := a', b';
    while keys[b - 1] == keys[b]
      invariant a < m < b < |keys| && keys[a] == keys[b] != keys[m]
      decreases b
    {
      b := b - 1;
    }
  }

  /**
   Exactly the handshake sequences in which a key returns after a different one admit
   a run that delivers one sealed frame twice.
   */
  lemma {:induction false} DoubleDeliveryExactlyOnReturn(me: Side, keys: seq<Public>)
    ensures Returns(keys) <==>
            exists inputs: seq<Input> :: Handshakes(inputs) == keys && DeliversTwice(Run(Start(me), inputs).delivered)
  {
    if Returns(keys) {
      var inputs := ReturnLetsAFrameThroughTwice(me, keys);
    } else {
      forall inputs: seq<Input> | Handshakes(inputs) == keys
        ensures !DeliversTwice(Run(Start(me), inputs).delivered)
      {
        AtMostOnceWithoutReturn(me, inputs);
      }
    }
  }

  // ---------------------------------------------------------------------------
  // What every frame is answered
  // ---------------------------------------------------------------------------

  /** Why a data frame is not delivered, told by its parts and the session's window. */
  predicate Undelivered(s: Session, body: Body, id: Id, ts: Int64, why: Opening) {
    match body
    case KeySized(_) => why == NotAuthentic
    case Other(wire) =>
      match why
      case TooShort => |wire.head| < 24
      case NotAuthentic => |wire.head| >= 24 && !GenuineAs(s, wire, id, ts)
      case OutsideWindow => GenuineAs(s, wire, id, ts) && s.guard.primed && ts < Sub64(s.guard.lastTs, s.guard.window)
      case Repeated => GenuineAs(s, wire, id, ts) && id in s.guard.seen
      case Opened(_) => false
  }

  /** The wire message was sealed under the session's receive key, for this id and timestamp. */
  predicate GenuineAs(s: Session, wire: Wire, id: Id, ts: Int64) {
    && wire.body.Sealed? && wire.body.key == s.recv && wire.body.nonce == wire.head
    && wire.body.aad == Aad(id, ts)
  }

  /**
   The coordinator's answer to every frame: an empty one, a handshake of the wrong length, an
   unknown tag and data before any handshake are refused as such; a handshake builds a
   session exactly when its key is not the current one; data is delivered as it was sealed, or
   refused for the reason that holds.
   */
  lemma EveryFrameAnswered(c: Coordinator, payload: Payload, id: Id, ts: Int64)
    ensures var (c', r) := OnFrame(c, payload, id, ts);
            match payload
            case Empty => r == EmptyFrame
            case Frame(tag, body) =>
              if tag == 1 then
                if body.Other? then r == BadKeyLength
                else
                  && (r == SessionKept <==> c.current.Some? && c.current.value.peerEph == body.pub)
                  && (r == SessionBuilt <==> c.current.None? || c.current.value.peerEph != body.pub)
                  && c'.current.Some? && c'.current.value.peerEph == body.pub
              else if tag != 2 then r == UnknownTag
              else if c.current.None? then r == NoSession
              else if r.Delivered? then
                body.Other? && GenuineAs(c.current.value.session, body.wire, id, ts) && body.wire.body.plain == r.plain
              else r.Refused? && Undelivered(c.current.value.session, body, id, ts, r.why)
  {
  }
}
