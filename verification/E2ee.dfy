/**
 The end-to-end session layer: role-directed key derivation, sealing and opening.

 Cryptography is symbolic. A public key names its private value, a Diffie-Hellman
 secret is an unordered pair of private values (X25519, section 5 of RFC 7748), the
 key derivation (HKDF, sections 2.2 and 2.3 of RFC 5869) and the AEAD are injective
 constructors. The associated data is kept at byte level.
 */
module E2ee {
  import opened Options
  import opened Bytes
  import opened Roles
  import opened Replay

  // ---------------------------------------------------------------------------
  // Symbolic primitives
  // ---------------------------------------------------------------------------

  type Private = nat

  datatype Public = Public(of: Private)

  datatype Secret = Secret(lo: Private, hi: Private)

  function X25519(priv: Private, pub: Public): Secret {
    if priv <= pub.of then Secret(priv, pub.of) else Secret(pub.of, priv)
  }

  datatype Direction = MobileToDesktop | DesktopToMobile

  /** `deriveKey` over ikm = ss || ee || md || dm, four fixed-width secrets. */
  datatype Key = Derived(ss: Secret, ee: Secret, md: Secret, dm: Secret,
                         mobileEph: Public, desktopEph: Public, dir: Direction)

  const NONCE_SIZE := 24

  /** An AEAD ciphertext, or bytes that no key ever sealed. */
  datatype Cipher = Sealed(key: Key, nonce: ByteString, aad: ByteString, plain: ByteString)
                  | Forged(bytes: ByteString)

  /** `nonce || ciphertext`; a head shorter than a nonce is the whole message. */
  datatype Wire = Wire(head: ByteString, body: Cipher)

  function AeadOpen(key: Key, nonce: ByteString, body: Cipher, aad: ByteString): Option<ByteString> {
    if body.Sealed? && body.key == key && body.nonce == nonce && body.aad == aad then Some(body.plain)
    else None
  }

  // ---------------------------------------------------------------------------
  // Associated data
  // ---------------------------------------------------------------------------

  function Unsigned(ts: Int64): nat {
    if ts < 0 then ts + TWO_TO_THE_64 else ts
  }

  function Aad(id: Id, ts: Int64): ByteString {
    id + BigEndian(Unsigned(ts), 8)
  }

  /** The associated data determines the envelope id and timestamp. */
  lemma AadInjective(id: Id, ts: Int64, id': Id, ts': Int64)
    ensures Aad(id, ts) == Aad(id', ts') <==> (id, ts) == (id', ts')
  {
    var a, b := Aad(id, ts), Aad(id', ts');
    if a == b {
      assert a[|id|..] == BigEndian(Unsigned(ts), 8);
      assert b[|id'|..] == BigEndian(Unsigned(ts'), 8);
      assert a[..|id|] == id && b[..|id'|] == id';
      assert Pow256(8) == TWO_TO_THE_64;
      BigEndianRoundTrip(Unsigned(ts), 8);
      BigEndianRoundTrip(Unsigned(ts'), 8);
    }
  }

  // ---------------------------------------------------------------------------
  // Sessions
  // ---------------------------------------------------------------------------

  /** The four private and public values one side derives its keys from. */
  datatype Side = Side(role: Role, idPriv: Private, peerId: Public, ephPriv: Private)

  function Derive(me: Side, peerEph: Public, dir: Direction): Key {
    var mine := Public(me.ephPriv);
    var ss := X25519(me.idPriv, me.peerId);
    var ee := X25519(me.ephPriv, peerEph);
    match me.role
    case Mobile =>
      Derived(ss, ee, X25519(me.idPriv, peerEph), X25519(me.ephPriv, me.peerId), mine, peerEph, dir)
    case Desktop =>
      Derived(ss, ee, X25519(me.ephPriv, me.peerId), X25519(me.idPriv, peerEph), peerEph, mine, dir)
  }

  function SendDirection(role: Role): Direction {
    match role
    case Mobile => MobileToDesktop
    case Desktop => DesktopToMobile
  }

  datatype Session = Session(send: Key, recv: Key, guard: Guard)

  function NewSession(me: Side, peerEph: Public): Session {
    Session(Derive(me, peerEph, SendDirection(me.role)),
            Derive(me, peerEph, SendDirection(me.role.Opposite())),
            Fresh(DEFAULT_WINDOW))
  }

  /** `sealWith`; a nonce of the wrong length is refused. */
  function Seal(s: Session, nonce: ByteString, id: Id, ts: Int64, plain: ByteString): Option<Wire> {
    if |nonce| != NONCE_SIZE then None
    else Some(Wire(nonce, Sealed(s.send, nonce, Aad(id, ts), plain)))
  }

  datatype Opening = Opened(plain: ByteString) | TooShort | NotAuthentic | OutsideWindow | Repeated

  function Authenticate(s: Session, id: Id, ts: Int64, wire: Wire): Option<ByteString> {
    AeadOpen(s.recv, wire.head, wire.body, Aad(id, ts))
  }

  /** `open`: authentication first, then the replay window. */
  function Open(s: Session, id: Id, ts: Int64, wire: Wire): (Session, Opening) {
    if |wire.head| < NONCE_SIZE then (s, TooShort)
    else
      match Authenticate(s, id, ts, wire)
      case None => (s, NotAuthentic)
      case Some(plain) =>
        var (guard, answer) := Step(s.guard, id, ts);
        match answer
        case Accepted => (s.(guard := guard), Opened(plain))
        case Stale => (s, OutsideWindow)
        case Replayed => (s, Repeated)
  }

  /** A session whose guard is the mutable object. */
  class LiveSession {
    const send: Key
    const recv: Key
    const guard: ReplayGuard

    ghost function View(): Session
      reads guard
    {
      Session(send, recv, guard.View())
    }

    constructor (me: Side, peerEph: Public)
      ensures View() == NewSession(me, peerEph) && fresh(guard)
    {
      send := Derive(me, peerEph, SendDirection(me.role));
      recv := Derive(me, peerEph, SendDirection(me.role.Opposite()));
      guard := new ReplayGuard(DEFAULT_WINDOW);
    }

    method OpenWire(id: Id, ts: Int64, wire: Wire) returns (r: Opening)
      modifies guard
      ensures (View(), r) == Open(old(View()), id, ts, wire)
    {
      if |wire.head| < NONCE_SIZE {
        return TooShort;
      }
      var plain := AeadOpen(recv, wire.head, wire.body, Aad(id, ts));
      if plain.None? {
        return NotAuthentic;
      }
      var answer := guard.Check(id, ts);
      match answer
      case Accepted => return Opened(plain.value);
      case Stale => return OutsideWindow;
      case Replayed => return Repeated;
    }
  }

  // ---------------------------------------------------------------------------
  // Agreement
  // ---------------------------------------------------------------------------

  /** Each side knows the other's identity, and accepted its current ephemeral. */
  predicate Mutual(mobile: Side, desktop: Side, mobilePeerEph: Public, desktopPeerEph: Public) {
    && mobile.peerId == Public(desktop.idPriv) && desktop.peerId == Public(mobile.idPriv)
    && mobilePeerEph == Public(desktop.ephPriv) && desktopPeerEph == Public(mobile.ephPriv)
  }

  /**
   The mobile's send key is the desktop's receive key, and the reverse, exactly when
   each side holds the other's identity and current ephemeral.
   */
  lemma KeysAgreeExactlyWhenMutual(mobile: Side, desktop: Side, mobilePeerEph: Public, desktopPeerEph: Public)
    requires mobile.role.Mobile? && desktop.role.Desktop?
    ensures var m, d := NewSession(mobile, mobilePeerEph), NewSession(desktop, desktopPeerEph);
            && (m.send == d.recv <==> Mutual(mobile, desktop, mobilePeerEph, desktopPeerEph))
            && (d.send == m.recv <==> Mutual(mobile, desktop, mobilePeerEph, desktopPeerEph))
  {
  }

  /** A session's two keys differ, and a different peer ephemeral changes both. */
  lemma KeysSeparate(me: Side, peerEph: Public, other: Public)
    ensures NewSession(me, peerEph).send != NewSession(me, other).recv
    ensures NewSession(me, peerEph).recv == NewSession(me, other).recv ==> peerEph == other
  {
  }

  /**
   A sealed frame authenticates at whoever holds the sender's send key as receive
   key, under its own (id, ts) and no other, and yields the plaintext; the sender
   itself cannot open it.
   */
  lemma SealedFrameOpensOnlyAsSealed(
      from: Session, to: Session, nonce: ByteString, id: Id, ts: Int64, plain: ByteString, id': Id, ts': Int64)
    requires |nonce| == NONCE_SIZE && from.send != from.recv
    ensures var wire := Seal(from, nonce, id, ts, plain).value;
            && (Authenticate(to, id', ts', wire) == Some(plain) <==> from.send == to.recv && (id', ts') == (id, ts))
            && (Authenticate(to, id', ts', wire).Some? <==> from.send == to.recv && (id', ts') == (id, ts))
            && Open(from, id', ts', wire) == (from, NotAuthentic)
  {
    AadInjective(id, ts, id', ts');
  }

  /** Any envelope that is not opened leaves the whole session, window included, as it was. */
  lemma RefusedFrameChangesNothing(s: Session, id: Id, ts: Int64, wire: Wire)
    ensures !Open(s, id, ts, wire).1.Opened? ==> Open(s, id, ts, wire).0 == s
    ensures Open(s, id, ts, wire).1.Opened? ==> Authenticate(s, id, ts, wire) == Some(Open(s, id, ts, wire).1.plain)
  {
  }

  /** A phone seals towards its desktop and opens what comes the other way, and a desktop the reverse. */
  lemma DirectionsFollowRoles(me: Side, peerEph: Public)
    ensures var s := NewSession(me, peerEph);
            && s.send.dir == (if me.role == Mobile then MobileToDesktop else DesktopToMobile)
            && s.recv.dir == (if me.role == Mobile then DesktopToMobile else MobileToDesktop)
            && s.guard.window == 300_000 && !s.guard.primed && s.guard.seen == map[]
  {
  }

  /** The two private values behind a shared secret. */
  function Ends(s: Secret): set<Private> {
    {s.lo, s.hi}
  }

  /**
   A derived key takes in all four agreements, between identities, between ephemerals, and
   crosswise in the phone's and the desktop's places, and both ephemeral keys.
   */
  lemma KeyTakesInAllAgreements(me: Side, peerEph: Public, dir: Direction)
    ensures var k := Derive(me, peerEph, dir);
            && Ends(k.ss) == {me.idPriv, me.peerId.of} && Ends(k.ee) == {me.ephPriv, peerEph.of} && k.dir == dir
            && (me.role == Mobile ==>
                  && Ends(k.md) == {me.idPriv, peerEph.of} && Ends(k.dm) == {me.ephPriv, me.peerId.of}
                  && k.mobileEph == Public(me.ephPriv) && k.desktopEph == peerEph)
            && (me.role == Desktop ==>
                  && Ends(k.md) == {me.ephPriv, me.peerId.of} && Ends(k.dm) == {me.idPriv, peerEph.of}
                  && k.mobileEph == peerEph && k.desktopEph == Public(me.ephPriv))
  {
  }

  /** A message is sealed exactly with a nonce of 24 bytes, and carries it in front. */
  lemma SealsExactlyWhen(s: Session, nonce: ByteString, id: Id, ts: Int64, plain: ByteString)
    ensures var wire := Seal(s, nonce, id, ts, plain);
            && (wire.Some? <==> |nonce| == 24)
            && (wire.Some? ==> wire.value.head == nonce && wire.value.body == Sealed(s.send, nonce, Aad(id, ts), plain))
  {
  }
}
