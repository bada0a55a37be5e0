/**
 The slot registry over Redis: scripts that read and write an `instance|conn`
 string, and keys that expire on their own. It is compared with the in-memory
 registry on whole traces.
 */
module RedisSlots {
  import opened Options
  import opened Roles
  import opened Slots

  // ---------------------------------------------------------------------------
  // Encodings
  // ---------------------------------------------------------------------------

  function RoleName(role: Role): string {
    match role
    case Mobile => "mobile"
    case Desktop => "desktop"
  }

  function SlotRedisKey(key: SlotKey): string {
    "slot:" + "pair:" + key.pair + ":" + RoleName(key.role)
  }

  function SlotValue(inst: InstId, conn: ConnId): string {
    inst + "|" + conn
  }

  /** The first position of `c`, if any. */
  function Find(s: string, c: char): (r: Option<nat>)
    ensures r.None? ==> c !in s
    ensures r.Some? ==> r.value < |s| && s[r.value] == c && c !in s[..r.value]
  {
    if s == [] then None
    else if s[0] == c then Some(0)
    else
      match Find(s[1..], c)
      case None => None
      case Some(i) =>
        assert s[..i + 1] == [s[0]] + s[1..][..i];
        Some(i + 1)
  }

  /** `splitSlotValue`, which takes a value without a separator to be a connection id. */
  function SplitSlotValue(v: string): (InstId, ConnId) {
    match Find(v, '|')
    case None => ("", v)
    case Some(i) => (v[..i], v[i + 1..])
  }

  /** What a key shows of its slot: its length, its last character, and the pair in the middle. */
  lemma SlotRedisKeyParts(key: SlotKey)
    ensures var x := SlotRedisKey(key);
            && |x| == 11 + |key.pair| + |RoleName(key.role)|
            && x[|x| - 1] == (if key.role.Mobile? then 'e' else 'p')
            && x[10..10 + |key.pair|] == key.pair
  {
    var pre, post := "slot:" + "pair:", ":" + RoleName(key.role);
    var x := pre + key.pair + post;
    assert SlotRedisKey(key) == x;
    assert |pre| == 10 && |post| == 1 + |RoleName(key.role)|;
    assert x[|x| - 1] == post[|post| - 1] == RoleName(key.role)[|RoleName(key.role)| - 1];
    assert x[|pre|..|pre| + |key.pair|] == key.pair;
  }

  lemma SlotRedisKeyInjective(a: SlotKey, b: SlotKey)
    ensures SlotRedisKey(a) == SlotRedisKey(b) ==> a == b
  {
    SlotRedisKeyParts(a);
    SlotRedisKeyParts(b);
    hide SlotRedisKey;
  }

  /** A stored value decodes to what was stored exactly when the instance id has no separator. */
  lemma SlotValueRoundTripsExactlyWhen(inst: InstId, conn: ConnId)
    ensures SplitSlotValue(SlotValue(inst, conn)) == (inst, conn) <==> '|' !in inst
  {
    var v := SlotValue(inst, conn);
    assert v[|inst|] == '|' && v[..|inst|] == inst && v[|inst| + 1..] == conn;
    assert forall k | 0 <= k < |inst| :: v[k] == inst[k];
    FirstSeparator(v, |inst|);
  }

  lemma FirstSeparator(v: string, at: nat)
    requires at < |v| && v[at] == '|'
    ensures Find(v, '|').Some? && Find(v, '|').value <= at
    ensures '|' !in v[..at] ==> Find(v, '|').value == at
  {
  }

  // ---------------------------------------------------------------------------
  // The scripts
  // ---------------------------------------------------------------------------

  datatype Stored = Stored(value: string, expiresAt: int)

  type Keyspace = map<string, Stored>

  /** GET: an expired key reads as absent. */
  function Get(keys: Keyspace, k: string, now: int): Option<string> {
    if k in keys && keys[k].expiresAt > now then Some(keys[k].value) else None
  }

  datatype Op =
    | Claim(key: SlotKey, conn: ConnId, inst: InstId)
    | Renew(key: SlotKey, conn: ConnId)
    | Release(key: SlotKey, conn: ConnId)
    | Lookup(key: SlotKey)
    | Pass(time: nat)

  datatype Result =
    | Won(claimed: Claimed, notified: seq<InstId>)
    | Renewed | NotSlotOwner
    | Released
    | Found(inst: InstId)
    | Passed

  datatype Redis = Redis(keys: Keyspace, now: int, ttl: int)

  function ClaimScript(r: Redis, key: SlotKey, conn: ConnId, inst: InstId): (Redis, Result) {
    var k := SlotRedisKey(key);
    var (evictedInst, evictedConn) :=
      match Get(r.keys, k, r.now)
      case None => ("", "")
      case Some(cur) =>
        var (curInst, curConn) := SplitSlotValue(cur);
        if curConn != conn then (curInst, curConn) else ("", "");
    var r' := r.(keys := r.keys[k := Stored(SlotValue(inst, conn), r.now + r.ttl)]);
    if evictedConn == "" then (r', Won(Claimed("", false), []))
    else (r', Won(Claimed(evictedConn, evictedInst == inst), if evictedInst == inst then [] else [evictedInst]))
  }

  function RenewScript(r: Redis, key: SlotKey, conn: ConnId): (Redis, Result) {
    var k := SlotRedisKey(key);
    match Get(r.keys, k, r.now)
    case Some(cur) =>
      if SplitSlotValue(cur).1 == conn then
        (r.(keys := r.keys[k := Stored(cur, r.now + r.ttl)]), Renewed)
      else (r, NotSlotOwner)
    case None => (r, NotSlotOwner)
  }

  function ReleaseScript(r: Redis, key: SlotKey, conn: ConnId): Redis {
    var k := SlotRedisKey(key);
    match Get(r.keys, k, r.now)
    case Some(cur) => if SplitSlotValue(cur).1 == conn then r.(keys := r.keys - {k}) else r
    case None => r
  }

  function RedisStep(r: Redis, op: Op): (Redis, Result) {
    match op
    case Claim(key, conn, inst) => ClaimScript(r, key, conn, inst)
    case Renew(key, conn) => RenewScript(r, key, conn)
    case Release(key, conn) => (ReleaseScript(r, key, conn), Released)
    case Lookup(key) =>
      (r, Found(match Get(r.keys, SlotRedisKey(key), r.now)
                case None => ""
                case Some(v) => SplitSlotValue(v).0))
    case Pass(time) => (r.(now := r.now + time), Passed)
  }

  function RedisResults(r: Redis, ops: seq<Op>): (results: seq<Result>)
    ensures |results| == |ops|
    decreases |ops|
  {
    if ops == [] then []
    else [RedisStep(r, ops[0]).1] + RedisResults(RedisStep(r, ops[0]).0, ops[1..])
  }

  function RedisRun(r: Redis, ops: seq<Op>): Redis
    decreases |ops|
  {
    if ops == [] then r else RedisRun(RedisStep(r, ops[0]).0, ops[1..])
  }

  /** The Redis backplane as the object the relay holds. */
  class RedisBackplane {
    var keys: Keyspace
    const ttl: int

    constructor (ttl: int)
      ensures keys == map[] && this.ttl == ttl
    {
      keys := map[];
      this.ttl := ttl;
    }

    method Claim(key: SlotKey, conn: ConnId, inst: InstId, now: int) returns (r: Claimed, notified: seq<InstId>)
      modifies this
      ensures (Redis(keys, now, ttl), Won(r, notified)) ==
              RedisStep(Redis(old(keys), now, ttl), Op.Claim(key, conn, inst))
    {
      var evictedInst, evictedConn := "", "";
      var cur := Get(keys, SlotRedisKey(key), now);
      if cur.Some? {
        var (curInst, curConn) := SplitSlotValue(cur.value);
        if curConn != conn {
          evictedInst, evictedConn := curInst, curConn;
        }
      }
      keys := keys[SlotRedisKey(key) := Stored(SlotValue(inst, conn), now + ttl)];
      r, notified := Claimed("", false), [];
      if evictedConn != "" {
        r := Claimed(evictedConn, evictedInst == inst);
        if evictedInst != inst {
          notified := [evictedInst];
        }
      }
    }

    method Renew(key: SlotKey, conn: ConnId, now: int) returns (owner: bool)
      modifies this
      ensures (Redis(keys, now, ttl), if owner then Renewed else NotSlotOwner) ==
              RedisStep(Redis(old(keys), now, ttl), Op.Renew(key, conn))
    {
      var cur := Get(keys, SlotRedisKey(key), now);
      owner := cur.Some? && SplitSlotValue(cur.value).1 == conn;
      if owner {
        keys := keys[SlotRedisKey(key) := Stored(cur.value, now + ttl)];
      }
    }

    method Release(key: SlotKey, conn: ConnId, now: int)
      modifies this
      ensures Redis(keys, now, ttl) == RedisStep(Redis(old(keys), now, ttl), Op.Release(key, conn)).0
    {
      var cur := Get(keys, SlotRedisKey(key), now);
      if cur.Some? && SplitSlotValue(cur.value).1 == conn {
        keys := keys - {SlotRedisKey(key)};
      }
    }
  }

  // ---------------------------------------------------------------------------
  // The in-memory registry on the same operations
  // ---------------------------------------------------------------------------

  datatype Memory = Memory(slots: Registry, now: int, ttl: int)

  function MemoryStep(m: Memory, op: Op): (Memory, Result) {
    match op
    case Claim(key, conn, inst) =>
      var (slots, claimed) := ClaimSlot(m.slots, key, conn, inst, m.now, m.ttl);
      (m.(slots := slots), Won(claimed, EvictionNotice(m.slots, key, conn, inst, m.now)))
    case Renew(key, conn) =>
      var (slots, owner) := RenewSlot(m.slots, key, conn, m.now, m.ttl);
      (m.(slots := slots), if owner then Renewed else NotSlotOwner)
    case Release(key, conn) => (m.(slots := ReleaseSlot(m.slots, key, conn)), Released)
    case Lookup(key) => (m, Found(LookupInstance(m.slots, key, m.now)))
    case Pass(time) => (m.(now := m.now + time), Passed)
  }

  function MemoryResults(m: Memory, ops: seq<Op>): (results: seq<Result>)
    ensures |results| == |ops|
    decreases |ops|
  {
    if ops == [] then []
    else [MemoryStep(m, ops[0]).1] + MemoryResults(MemoryStep(m, ops[0]).0, ops[1..])
  }

  function MemoryRun(m: Memory, ops: seq<Op>): Memory
    decreases |ops|
  {
    if ops == [] then m else MemoryRun(MemoryStep(m, ops[0]).0, ops[1..])
  }

  // ---------------------------------------------------------------------------
  // Refinement
  // ---------------------------------------------------------------------------

  /** Connection ids are never empty; instance ids carry no separator. */
  predicate GoodOp(op: Op) {
    op.Claim? ==> op.conn != "" && '|' !in op.inst
  }

  ghost predicate GoodEntries(slots: Registry) {
    forall k | k in slots :: slots[k].conn != "" && '|' !in slots[k].inst
  }

  /** What a slot's unexpired string has to be: the encoding of its live entry, or nothing. */
  function Encoding(slots: Registry, key: SlotKey, now: int): Option<Stored> {
    if Live(slots, key, now)
    then Some(Stored(SlotValue(slots[key].inst, slots[key].conn), slots[key].expiresAt))
    else None
  }

  function Unexpired(keys: Keyspace, k: string, now: int): Option<Stored> {
    if k in keys && keys[k].expiresAt > now then Some(keys[k]) else None
  }

  /** Slot by slot, the unexpired strings are the encodings of the live entries. */
  ghost predicate Encodes(m: Memory, r: Redis) {
    && m.now == r.now && m.ttl == r.ttl
    && GoodEntries(m.slots)
    && (forall k :: Unexpired(r.keys, SlotRedisKey(k), r.now) == Encoding(m.slots, k, m.now))
  }

  /** An owner renews after its entry lapsed: the one operation on which the two differ. */
  predicate LapsedRenewal(m: Memory, op: Op) {
    op.Renew? && Owns(m.slots, op.key, op.conn) && !Live(m.slots, op.key, m.now)
  }

  predicate NoLapsedRenewal(m: Memory, ops: seq<Op>)
    decreases |ops|
  {
    ops == [] || (!LapsedRenewal(m, ops[0]) && NoLapsedRenewal(MemoryStep(m, ops[0]).0, ops[1..]))
  }

  /** Reading a slot gives its live entry, or nothing. */
  predicate Reads(m: Memory, r: Redis, key: SlotKey) {
    && m.now == r.now && m.ttl == r.ttl
    && var cur := Get(r.keys, SlotRedisKey(key), r.now);
       if Live(m.slots, key, m.now) then
         && cur == Some(SlotValue(m.slots[key].inst, m.slots[key].conn))
         && SplitSlotValue(cur.value) == (m.slots[key].inst, m.slots[key].conn)
         && m.slots[key].conn != ""
       else cur == None
  }

  lemma EncodingIsRead(m: Memory, r: Redis, key: SlotKey)
    requires Encodes(m, r)
    ensures Reads(m, r, key)
  {
    assert Unexpired(r.keys, SlotRedisKey(key), r.now) == Encoding(m.slots, key, m.now);
    if Live(m.slots, key, m.now) {
      SlotValueRoundTripsExactlyWhen(m.slots[key].inst, m.slots[key].conn);
    }
  }

  /** What each script does to a slot, given what it reads there. */
  lemma ScriptsOnRead(m: Memory, r: Redis, key: SlotKey, conn: ConnId, inst: InstId)
    requires Reads(m, r, key)
    ensures RedisStep(r, Op.Claim(key, conn, inst)).1 == MemoryStep(m, Op.Claim(key, conn, inst)).1
    ensures RedisStep(r, Op.Renew(key, conn)) ==
            if Live(m.slots, key, m.now) && Owns(m.slots, key, conn)
            then (r.(keys := r.keys[SlotRedisKey(key) := Stored(SlotValue(m.slots[key].inst, conn), r.now + r.ttl)]),
                Renewed)
            else (r, NotSlotOwner)
    ensures RedisStep(r, Op.Release(key, conn)).0 ==
            if Live(m.slots, key, m.now) && Owns(m.slots, key, conn) then r.(keys := r.keys - {SlotRedisKey(key)})
            else r
    ensures RedisStep(r, Op.Lookup(key)).1 == MemoryStep(m, Op.Lookup(key)).1
  {
  }

  /** Writing one slot on both sides keeps the encoding. */
  lemma WriteKeepsEncoding(m: Memory, r: Redis, key: SlotKey, e: Entry)
    requires Encodes(m, r) && e.conn != "" && '|' !in e.inst
    ensures Encodes(m.(slots := m.slots[key := e]),
                    r.(keys := r.keys[SlotRedisKey(key) := Stored(SlotValue(e.inst, e.conn), e.expiresAt)]))
  {
    var slots := m.slots[key := e];
    var keys := r.keys[SlotRedisKey(key) := Stored(SlotValue(e.inst, e.conn), e.expiresAt)];
    forall k ensures Unexpired(keys, SlotRedisKey(k), r.now) == Encoding(slots, k, m.now) {
      SlotRedisKeyInjective(k, key);
      assert Unexpired(r.keys, SlotRedisKey(k), r.now) == Encoding(m.slots, k, m.now);
    }
  }

  /** Deleting a slot on both sides keeps the encoding; so does dropping a lapsed entry. */
  lemma DeleteKeepsEncoding(m: Memory, r: Redis, key: SlotKey)
    requires Encodes(m, r)
    ensures Encodes(m.(slots := m.slots - {key}), r.(keys := r.keys - {SlotRedisKey(key)}))
    ensures !Live(m.slots, key, m.now) ==> Encodes(m.(slots := m.slots - {key}), r)
  {
    var slots, keys := m.slots - {key}, r.keys - {SlotRedisKey(key)};
    forall k
      ensures Unexpired(keys, SlotRedisKey(k), r.now) == Encoding(slots, k, m.now)
      ensures !Live(m.slots, key, m.now) ==> Unexpired(r.keys, SlotRedisKey(k), r.now) == Encoding(slots, k, m.now)
    {
      SlotRedisKeyInjective(k, key);
      assert Unexpired(r.keys, SlotRedisKey(k), r.now) == Encoding(m.slots, k, m.now);
    }
  }

  lemma TimeKeepsEncoding(m: Memory, r: Redis, time: nat)
    requires Encodes(m, r)
    ensures Encodes(m.(now := m.now + time), r.(now := r.now + time))
  {
  }

  lemma RenewRefines(m: Memory, r: Redis, key: SlotKey, conn: ConnId)
    requires Encodes(m, r)
    ensures var op := Op.Renew(key, conn);
            && (RedisStep(r, op).1 == MemoryStep(m, op).1 <==> !LapsedRenewal(m, op))
            && (!LapsedRenewal(m, op) ==> Encodes(MemoryStep(m, op).0, RedisStep(r, op).0))
  {
    hide Encodes, Reads, SlotRedisKey;
    EncodingIsRead(m, r, key);
    ScriptsOnRead(m, r, key, conn, "");
    if Live(m.slots, key, m.now) && Owns(m.slots, key, conn) {
      WriteKeepsEncoding(m, r, key, m.slots[key].(expiresAt := m.now + m.ttl));
    }
  }

  /** One step: results agree unless a lapsed owner renews, and then they do not. */
  lemma StepRefines(m: Memory, r: Redis, op: Op)
    requires Encodes(m, r) && GoodOp(op)
    ensures RedisStep(r, op).1 == MemoryStep(m, op).1 <==> !LapsedRenewal(m, op)
    ensures !LapsedRenewal(m, op) ==> Encodes(MemoryStep(m, op).0, RedisStep(r, op).0)
  {
    hide Encodes, Reads, SlotRedisKey;
    match op
    case Claim(key, conn, inst) =>
      EncodingIsRead(m, r, key);
      ScriptsOnRead(m, r, key, conn, inst);
      WriteKeepsEncoding(m, r, key, Entry(conn, inst, m.now + m.ttl));
    case Renew(key, conn) =>
      RenewRefines(m, r, key, conn);
    case Release(key, conn) =>
      EncodingIsRead(m, r, key);
      ScriptsOnRead(m, r, key, conn, "");
      DeleteKeepsEncoding(m, r, key);
    case Lookup(key) =>
      EncodingIsRead(m, r, key);
      ScriptsOnRead(m, r, key, "", "");
    case Pass(time) =>
      TimeKeepsEncoding(m, r, time);
  }

  /**
   On every trace the Redis backplane gives the results of the in-memory one exactly
   when no owner renews an entry that has lapsed; its strings then still encode the
   live entries.
   */
  lemma {:induction false} RedisRefinesMemory(m: Memory, r: Redis, ops: seq<Op>)
    requires Encodes(m, r)
    requires forall op | op in ops :: GoodOp(op)
    ensures RedisResults(r, ops) == MemoryResults(m, ops) <==> NoLapsedRenewal(m, ops)
    ensures NoLapsedRenewal(m, ops) ==> Encodes(MemoryRun(m, ops), RedisRun(r, ops))
    decreases |ops|
  {
    if ops != [] {
      var op := ops[0];
      StepRefines(m, r, op);
      assert RedisResults(r, ops)[0] == RedisStep(r, op).1 && MemoryResults(m, ops)[0] == MemoryStep(m, op).1;
      assert RedisResults(r, ops)[1..] == RedisResults(RedisStep(r, op).0, ops[1..]);
      assert MemoryResults(m, ops)[1..] == MemoryResults(MemoryStep(m, op).0, ops[1..]);
      if !LapsedRenewal(m, op) {
        RedisRefinesMemory(MemoryStep(m, op).0, RedisStep(r, op).0, ops[1..]);
      }
    }
  }

  /** A value whose instance id has a separator reads back as a longer connection id. */
  lemma SeparatorLengthensConnection(inst: InstId, conn: ConnId)
    requires '|' in inst
    ensures |SplitSlotValue(SlotValue(inst, conn)).1| > |conn|
  {
    var v := SlotValue(inst, conn);
    var at :| 0 <= at < |inst| && inst[at] == '|';
    assert v[at] == '|';
    FirstSeparator(v, at);
  }

  /**
   An instance id with a separator breaks the correspondence: whatever the slot, the
   connection, the clock and the lifetime, its owner cannot renew what it has just claimed.
   */
  lemma SeparatorInInstanceBreaksRenewal(m: Memory, r: Redis, key: SlotKey, conn: ConnId, inst: InstId)
    requires Encodes(m, r) && m.ttl > 0 && '|' in inst
    ensures var ops := [Op.Claim(key, conn, inst), Op.Renew(key, conn)];
            && NoLapsedRenewal(m, ops)
            && MemoryResults(m, ops)[1] == Renewed && RedisResults(r, ops)[1] == NotSlotOwner
  {
    var claim, renew := Op.Claim(key, conn, inst), Op.Renew(key, conn);
    var ops := [claim, renew];
    var m', r' := MemoryStep(m, claim).0, RedisStep(r, claim).0;
    assert ops[1..] == [renew] && ops[1..][1..] == [];
    assert MemoryResults(m, ops)[1] == MemoryStep(m', renew).1;
    assert RedisResults(r, ops)[1] == RedisStep(r', renew).1;
    assert !LapsedRenewal(m', renew);
    SeparatorLengthensConnection(inst, conn);
    assert Get(r'.keys, SlotRedisKey(key), r'.now) == Some(SlotValue(inst, conn));
  }

  /** Every claim of the trace is made by the instance. */
  ghost predicate ClaimedBy(ops: seq<Op>, inst: InstId) {
    forall i | 0 <= i < |ops| :: ops[i].Claim? ==> ops[i].conn != "" && ops[i].inst == inst
  }

  /** Redis and memory give the same results on every trace of the instance without a lapsed renewal. */
  ghost predicate Faithful(inst: InstId, ttl: int) {
    forall ops: seq<Op>, now: int | ClaimedBy(ops, inst) && NoLapsedRenewal(Memory(map[], now, ttl), ops) ::
      RedisResults(Redis(map[], now, ttl), ops) == MemoryResults(Memory(map[], now, ttl), ops)
  }

  lemma NothingStored(now: int, ttl: int)
    ensures Encodes(Memory(map[], now, ttl), Redis(map[], now, ttl))
  {
  }

  /** An instance id is safe on every trace exactly when it has no separator. */
  lemma {:induction false} InstanceIdSafeExactlyWhen(inst: InstId, ttl: int)
    requires ttl > 0
    ensures Faithful(inst, ttl) <==> '|' !in inst
  {
    if '|' in inst {
      var key := SlotKey("", Mobile);
      var ops := [Op.Claim(key, "c", inst), Op.Renew(key, "c")];
      NothingStored(0, ttl);
      SeparatorInInstanceBreaksRenewal(Memory(map[], 0, ttl), Redis(map[], 0, ttl), key, "c", inst);
      assert ClaimedBy(ops, inst) && NoLapsedRenewal(Memory(map[], 0, ttl), ops);
    } else {
      forall ops: seq<Op>, now: int | ClaimedBy(ops, inst) && NoLapsedRenewal(Memory(map[], now, ttl), ops)
        ensures RedisResults(Redis(map[], now, ttl), ops) == MemoryResults(Memory(map[], now, ttl), ops)
      {
        NothingStored(now, ttl);
        RedisRefinesMemory(Memory(map[], now, ttl), Redis(map[], now, ttl), ops);
      }
    }
  }
}
