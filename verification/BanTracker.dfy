/**
 The strike and ban tracker: what a sweep of idle entries can and cannot change, and
 what every ban rests on. Times are integers after the zero time, 0.
 */
module BanTracker {

  datatype Config = Config(threshold: int, strikeWindow: int, banWindow: int)
  {
    predicate Disabled() {
      threshold <= 0
    }
  }

  datatype Entry = Entry(strikes: nat, windowStart: int, bannedUntil: int)

  type Table = map<string, Entry>

  // ---------------------------------------------------------------------------
  // The operations
  // ---------------------------------------------------------------------------

  function EntryFor(t: Table, key: string, now: int): Entry {
    if key in t then t[key] else Entry(0, now, 0)
  }

  /** The entry a strike counts on: a stale window restarts, unless the key is still banned. */
  function Counted(cfg: Config, e: Entry, now: int): Entry {
    if now > e.bannedUntil && now - e.windowStart > cfg.strikeWindow then e.(strikes := 0, windowStart := now) else e
  }

  function StruckEntry(cfg: Config, e: Entry, now: int): (Entry, bool) {
    var c := Counted(cfg, e, now);
    if c.strikes + 1 >= cfg.threshold then (Entry(0, now, now + cfg.banWindow), true)
    else (c.(strikes := c.strikes + 1), false)
  }

  function Strike(cfg: Config, t: Table, key: string, now: int): (Table, bool) {
    if cfg.Disabled() then (t, false)
    else
      var (e, banned) := StruckEntry(cfg, EntryFor(t, key, now), now);
      (t[key := e], banned)
  }

  predicate IsBanned(t: Table, key: string, now: int) {
    key in t && now < t[key].bannedUntil
  }

  /** Whether the key is banned, and for how long. */
  function Banned(cfg: Config, t: Table, key: string, now: int): (bool, int) {
    if cfg.Disabled() || !IsBanned(t, key, now) then (false, 0) else (true, t[key].bannedUntil - now)
  }

  function BannedKeys(t: Table, now: int): set<string> {
    set k | k in t && now < t[k].bannedUntil
  }

  function ActiveBans(cfg: Config, t: Table, now: int): nat {
    if cfg.Disabled() then 0 else |BannedKeys(t, now)|
  }

  /** Neither banned nor inside its strike window. */
  predicate Idle(cfg: Config, e: Entry, now: int) {
    now >= e.bannedUntil && now - e.windowStart > cfg.strikeWindow
  }

  function Sweep(cfg: Config, t: Table, now: int): Table {
    if cfg.Disabled() then t else map k | k in t && !Idle(cfg, t[k], now) :: t[k]
  }

  /** The tracker as the object a server holds. */
  class Tracker {
    const cfg: Config
    var entries: Table

    constructor (cfg: Config)
      ensures this.cfg == cfg && entries == map[]
    {
      this.cfg := cfg;
      entries := map[];
    }

    method StrikeKey(key: string, now: int) returns (banned: bool)
      modifies this
      ensures (entries, banned) == Strike(cfg, old(entries), key, now)
    {
      if cfg.Disabled() {
        return false;
      }
      if key !in entries {
        entries := entries[key := Entry(0, now, 0)];
      }
      var e := entries[key];
      if now > e.bannedUntil && now - e.windowStart > cfg.strikeWindow {
        e := e.(strikes := 0, windowStart := now);
      }
      e := e.(strikes := e.strikes + 1);
      banned := e.strikes >= cfg.threshold;
      if banned {
        e := Entry(0, now, now + cfg.banWindow);
      }
      entries := entries[key := e];
      assert entries == old(entries)[key := e];
    }

    method CountBans(now: int) returns (n: nat)
      ensures n == ActiveBans(cfg, entries, now)
    {
      n := 0;
      if cfg.Disabled() {
        return;
      }
      var rest := entries.Keys;
      ghost var counted: set<string> := {};
      while rest != {}
        invariant rest <= entries.Keys
        invariant counted == set k | k in entries && k !in rest && now < entries[k].bannedUntil
        invariant n == |counted|
        decreases |rest|
      {
        var k :| k in rest;
        rest := rest - {k};
        if now < entries[k].bannedUntil {
          counted := counted + {k};
          n := n + 1;
        }
      }
      assert counted == BannedKeys(entries, now);
    }

    method SweepIdle(now: int)
      modifies this
      ensures entries == Sweep(cfg, old(entries), now)
    {
      if cfg.Disabled() {
        return;
      }
      var rest := entries.Keys;
      while rest != {}
        invariant rest <= entries.Keys <= old(entries).Keys
        invariant forall k | k in entries :: entries[k] == old(entries)[k]
        invariant forall k | k in old(entries) && k !in rest :: k in entries <==> !Idle(cfg, old(entries)[k], now)
        decreases |rest|
      {
        var k :| k in rest;
        rest := rest - {k};
        if now >= entries[k].bannedUntil && now - entries[k].windowStart > cfg.strikeWindow {
          entries := entries - {k};
        }
      }
    }
  }

  // ---------------------------------------------------------------------------
  // Traces
  // ---------------------------------------------------------------------------

  datatype Op = StrikeOp(key: string) | BannedOp(key: string) | ActiveOp | SweepOp | Pass(time: nat)

  datatype Answer = Struck(banned: bool) | Status(banned: bool, remaining: int) | Count(n: nat) | Silent

  function After(cfg: Config, t: Table, now: int, op: Op): Table {
    match op
    case StrikeOp(key) => Strike(cfg, t, key, now).0
    case SweepOp => Sweep(cfg, t, now)
    case _ => t
  }

  function Later(now: int, op: Op): int {
    if op.Pass? then now + op.time else now
  }

  function Reply(cfg: Config, t: Table, now: int, op: Op): Answer {
    match op
    case StrikeOp(key) => Struck(Strike(cfg, t, key, now).1)
    case BannedOp(key) => var (b, r) := Banned(cfg, t, key, now); Status(b, r)
    case ActiveOp => Count(ActiveBans(cfg, t, now))
    case SweepOp => Silent
    case Pass(_) => Silent
  }

  function Answers(cfg: Config, t: Table, now: int, ops: seq<Op>): (answers: seq<Answer>)
    ensures |answers| == |ops|
    decreases |ops|
  {
    if ops == [] then []
    else [Reply(cfg, t, now, ops[0])] + Answers(cfg, After(cfg, t, now, ops[0]), Later(now, ops[0]), ops[1..])
  }

  // ---------------------------------------------------------------------------
  // The simulation: the first table may lack entries that have nothing left to say
  // ---------------------------------------------------------------------------

  /** Equal for every purpose from `now` on. */
  predicate SameEntry(a: Entry, b: Entry, now: int) {
    && a.strikes == b.strikes && a.windowStart == b.windowStart
    && (a.bannedUntil == b.bannedUntil || (a.bannedUntil < now && b.bannedUntil < now))
  }

  /**
   An entry only the second table has is idle; `moved` says that a strike may come next,
   which needs the ban deadline to be strictly past unless every strike bans.
   */
  predicate Forgettable(cfg: Config, e: Entry, now: int, moved: bool) {
    Idle(cfg, e, now) && (moved && cfg.threshold > 1 ==> e.bannedUntil < now)
  }

  ghost predicate Similar(cfg: Config, a: Table, b: Table, now: int, moved: bool) {
    && (forall k | k in a :: k in b && SameEntry(a[k], b[k], now))
    && (forall k | k in b && k !in a :: Forgettable(cfg, b[k], now, moved))
  }

  lemma SimilarBans(cfg: Config, a: Table, b: Table, now: int, moved: bool)
    requires Similar(cfg, a, b, now, moved)
    ensures BannedKeys(a, now) == BannedKeys(b, now)
    ensures forall k | IsBanned(a, k, now) :: a[k].bannedUntil == b[k].bannedUntil
  {
  }

  lemma SimilarStrike(cfg: Config, a: Table, b: Table, now: int, key: string)
    requires Similar(cfg, a, b, now, true) && now > 0 && !cfg.Disabled()
    ensures Strike(cfg, a, key, now).1 == Strike(cfg, b, key, now).1
    ensures Similar(cfg, Strike(cfg, a, key, now).0, Strike(cfg, b, key, now).0, now, true)
  {
  }

  /** Every operation, applied to both tables, gives the same answer and keeps them similar. */
  lemma SimilarStep(cfg: Config, a: Table, b: Table, now: int, moved: bool, op: Op)
    requires Similar(cfg, a, b, now, moved) && now > 0 && !cfg.Disabled()
    requires op.StrikeOp? ==> moved
    ensures Reply(cfg, a, now, op) == Reply(cfg, b, now, op)
    ensures Similar(cfg, After(cfg, a, now, op), After(cfg, b, now, op), Later(now, op),
                    moved || (op.Pass? && op.time > 0))
  {
    SimilarBans(cfg, a, b, now, moved);
    if op.StrikeOp? {
      SimilarStrike(cfg, a, b, now, op.key);
    }
  }

  // ---------------------------------------------------------------------------
  // Sweeps removed
  // ---------------------------------------------------------------------------

  function WithoutSweeps(ops: seq<Op>): seq<Op> {
    if ops == [] then [] else (if ops[0].SweepOp? then [] else [ops[0]]) + WithoutSweeps(ops[1..])
  }

  /** The answers to everything but the sweeps. */
  function Heard(cfg: Config, t: Table, now: int, ops: seq<Op>): seq<Answer>
    decreases |ops|
  {
    if ops == [] then []
    else (if ops[0].SweepOp? then [] else [Reply(cfg, t, now, ops[0])])
         + Heard(cfg, After(cfg, t, now, ops[0]), Later(now, ops[0]), ops[1..])
  }

  /** The clock moves between every sweep and the next strike; `moved` says it has since the last sweep. */
  predicate ClockMovesAfterSweeps(ops: seq<Op>, moved: bool) {
    ops == []
    || (match ops[0]
        case SweepOp => ClockMovesAfterSweeps(ops[1..], false)
        case Pass(time) => ClockMovesAfterSweeps(ops[1..], moved || time > 0)
        case StrikeOp(_) => moved && ClockMovesAfterSweeps(ops[1..], moved)
        case _ => ClockMovesAfterSweeps(ops[1..], moved))
  }

  lemma SweepOneSide(cfg: Config, a: Table, b: Table, now: int, moved: bool)
    requires Similar(cfg, a, b, now, moved) && !cfg.Disabled()
    ensures Similar(cfg, Sweep(cfg, a, now), b, now, false)
  {
  }

  lemma {:induction false} SweepsUnheard(cfg: Config, a: Table, b: Table, now: int, moved: bool, ops: seq<Op>)
    requires Similar(cfg, a, b, now, moved) && now > 0 && !cfg.Disabled()
    requires ClockMovesAfterSweeps(ops, moved)
    ensures Heard(cfg, a, now, ops) == Answers(cfg, b, now, WithoutSweeps(ops))
    decreases |ops|
  {
    if ops != [] {
      var op, rest := ops[0], ops[1..];
      if op.SweepOp? {
        SweepOneSide(cfg, a, b, now, moved);
        SweepsUnheard(cfg, Sweep(cfg, a, now), b, now, false, rest);
        assert WithoutSweeps(ops) == WithoutSweeps(rest);
      } else {
        var moved' := moved || (op.Pass? && op.time > 0);
        SimilarStep(cfg, a, b, now, moved, op);
        SweepsUnheard(cfg, After(cfg, a, now, op), After(cfg, b, now, op), Later(now, op), moved', rest);
        assert WithoutSweeps(ops) == [op] + WithoutSweeps(rest);
        assert ([op] + WithoutSweeps(rest))[1..] == WithoutSweeps(rest);
      }
    }
  }

  /**
   Any trace gives the same answers with its sweeps removed, if the clock moves between a
   sweep and the next strike.
   */
  lemma {:induction false} SweepingIsUnobservable(cfg: Config, now: int, ops: seq<Op>)
    requires now > 0 && ClockMovesAfterSweeps(ops, true)
    ensures Heard(cfg, map[], now, ops) == Answers(cfg, map[], now, WithoutSweeps(ops))
  {
    if cfg.Disabled() {
      DisabledSweepsUnheard(cfg, map[], now, ops);
    } else {
      SweepsUnheard(cfg, map[], map[], now, true, ops);
    }
  }

  lemma {:induction false} DisabledSweepsUnheard(cfg: Config, t: Table, now: int, ops: seq<Op>)
    requires cfg.Disabled()
    ensures Heard(cfg, t, now, ops) == Answers(cfg, t, now, WithoutSweeps(ops))
    decreases |ops|
  {
    if ops != [] {
      var op, rest := ops[0], ops[1..];
      DisabledSweepsUnheard(cfg, t, Later(now, op), rest);
      if op.SweepOp? {
        assert WithoutSweeps(ops) == WithoutSweeps(rest);
      } else {
        assert WithoutSweeps(ops) == [op] + WithoutSweeps(rest);
        assert ([op] + WithoutSweeps(rest))[1..] == WithoutSweeps(rest);
      }
    }
  }

  // ---------------------------------------------------------------------------
  // Exactly when one sweep is unobservable
  // ---------------------------------------------------------------------------

  /** No sequence of further calls, sweeps and strikes at the same instant included, can tell. */
  ghost predicate Invisible(cfg: Config, t: Table, now: int) {
    forall ops: seq<Op> :: Answers(cfg, Sweep(cfg, t, now), now, ops) == Answers(cfg, t, now, ops)
  }

  /** Counters are always below the threshold: reaching it bans and clears them. */
  ghost predicate Counting(cfg: Config, t: Table) {
    forall k | k in t :: t[k].strikes < cfg.threshold
  }

  lemma {:induction false} SimilarAnswers(cfg: Config, a: Table, b: Table, now: int, ops: seq<Op>)
    requires Similar(cfg, a, b, now, true) && now > 0 && !cfg.Disabled()
    ensures Answers(cfg, a, now, ops) == Answers(cfg, b, now, ops)
    decreases |ops|
  {
    if ops != [] {
      SimilarStep(cfg, a, b, now, true, ops[0]);
      SimilarAnswers(cfg, After(cfg, a, now, ops[0]), After(cfg, b, now, ops[0]), Later(now, ops[0]), ops[1..]);
    }
  }

  function Strikes(key: string, n: nat): seq<Op> {
    seq(n, _ => StrikeOp(key))
  }

  /** `n` strikes at one instant on an entry that does not restart: only the last can ban. */
  lemma {:induction false} StrikesInARow(cfg: Config, t: Table, key: string, now: int, n: nat)
    requires n > 0 && !cfg.Disabled() && now > 0 && cfg.strikeWindow >= 0
    requires key in t ==> t[key].windowStart == now
    requires EntryFor(t, key, now).strikes + n <= cfg.threshold
    ensures Answers(cfg, t, now, Strikes(key, n))[n - 1] == Struck(EntryFor(t, key, now).strikes + n == cfg.threshold)
    decreases n
  {
    var ops := Strikes(key, n);
    assert ops[1..] == Strikes(key, n - 1);
    if n > 1 {
      StrikesInARow(cfg, After(cfg, t, now, ops[0]), key, now, n - 1);
    }
  }

  /** The continuation that tells: a strike, another sweep, and enough strikes to ban. */
  function Probe(cfg: Config, key: string): seq<Op>
    requires cfg.threshold > 1
  {
    [StrikeOp(key), SweepOp] + Strikes(key, cfg.threshold - 1)
  }

  lemma {:induction false} ProbeAnswers(cfg: Config, t: Table, now: int, key: string)
    requires cfg.threshold > 1
    ensures var t1 := After(cfg, t, now, StrikeOp(key));
            Answers(cfg, t, now, Probe(cfg, key)) ==
            [Reply(cfg, t, now, StrikeOp(key)), Silent] +
                Answers(cfg, Sweep(cfg, t1, now), now, Strikes(key, cfg.threshold - 1))
  {
  }

  /** A dropped entry whose ban ends at this very instant makes the probe answer differently. */
  lemma {:induction false} ProbeTells(cfg: Config, t: Table, now: int, key: string)
    requires cfg.threshold > 1 && cfg.strikeWindow >= 0 && now > 0 && Counting(cfg, t)
    requires key in t && Idle(cfg, t[key], now) && t[key].bannedUntil == now
    ensures Answers(cfg, Sweep(cfg, t, now), now, Probe(cfg, key)) != Answers(cfg, t, now, Probe(cfg, key))
  {
    var swept := Sweep(cfg, t, now);
    var last := cfg.threshold;
    ProbeAnswers(cfg, swept, now, key);
    ProbeAnswers(cfg, t, now, key);
    var s1 := Sweep(cfg, After(cfg, swept, now, StrikeOp(key)), now);
    assert s1[key] == Entry(1, now, 0);
    StrikesInARow(cfg, s1, key, now, cfg.threshold - 1);
    assert Answers(cfg, swept, now, Probe(cfg, key))[last] == Struck(true);
    assert Answers(cfg, swept, now, Probe(cfg, key))[0] == Struck(false);
    if t[key].strikes + 1 < cfg.threshold {
      var t1 := Sweep(cfg, After(cfg, t, now, StrikeOp(key)), now);
      assert key !in t1;
      StrikesInARow(cfg, t1, key, now, cfg.threshold - 1);
      assert Answers(cfg, t, now, Probe(cfg, key))[last] == Struck(false);
    } else {
      assert Answers(cfg, t, now, Probe(cfg, key))[0] == Struck(true);
    }
  }

  /**
   A sweep is unobservable by every continuation exactly when each entry it drops is
   strictly past its ban deadline, or every single strike bans.
   */
  lemma {:induction false} SweepInvisibleExactlyWhen(cfg: Config, t: Table, now: int)
    requires cfg.threshold >= 1 && cfg.strikeWindow >= 0 && now > 0 && Counting(cfg, t)
    ensures Invisible(cfg, t, now) <==>
            cfg.threshold == 1 || forall k | k in t && Idle(cfg, t[k], now) :: t[k].bannedUntil < now
  {
    if cfg.threshold == 1 || forall k | k in t && Idle(cfg, t[k], now) :: t[k].bannedUntil < now {
      assert Similar(cfg, Sweep(cfg, t, now), t, now, true);
      forall ops: seq<Op> ensures Answers(cfg, Sweep(cfg, t, now), now, ops) == Answers(cfg, t, now, ops) {
        SimilarAnswers(cfg, Sweep(cfg, t, now), t, now, ops);
      }
    } else {
      var k :| k in t && Idle(cfg, t[k], now) && t[k].bannedUntil >= now;
      ProbeTells(cfg, t, now, k);
    }
  }

  // ---------------------------------------------------------------------------
  // What a ban rests on
  // ---------------------------------------------------------------------------

  /** The tracker with the times of all strikes ever made on each key. */
  datatype Watched = Watched(table: Table, log: map<string, seq<int>>, now: int)
  {
    function Log(key: string): seq<int> {
      if key in log then log[key] else []
    }
  }

  function Watch(cfg: Config, w: Watched, op: Op): Watched {
    Watched(After(cfg, w.table, w.now, op),
            if op.StrikeOp? then w.log[op.key := w.Log(op.key) + [w.now]] else w.log,
            Later(w.now, op))
  }

  function WatchAll(cfg: Config, w: Watched, ops: seq<Op>): Watched
    decreases |ops|
  {
    if ops == [] then w else WatchAll(cfg, Watch(cfg, w, ops[0]), ops[1..])
  }

  /** The last `n` strikes of a log all lie in `[from, to]`. */
  predicate LastWithin(log: seq<int>, n: nat, from: int, to: int) {
    n <= |log| && forall i | |log| - n <= i < |log| :: from <= log[i] <= to
  }

  /** Every counted strike was made since the entry's window started. */
  ghost predicate CountsReal(cfg: Config, w: Watched) {
    && Counting(cfg, w.table)
    && (forall k | k in w.table ::
          && w.table[k].windowStart <= w.now
          && LastWithin(w.Log(k), w.table[k].strikes, w.table[k].windowStart, w.now))
  }

  lemma WatchKeepsCounts(cfg: Config, w: Watched, op: Op)
    requires CountsReal(cfg, w) && !cfg.Disabled()
    ensures CountsReal(cfg, Watch(cfg, w, op))
  {
    var w' := Watch(cfg, w, op);
    forall k | k in w'.table
      ensures w'.table[k].strikes < cfg.threshold && w'.table[k].windowStart <= w'.now
      ensures LastWithin(w'.Log(k), w'.table[k].strikes, w'.table[k].windowStart, w'.now)
    {
      if op.StrikeOp? && op.key == k {
        var log := w.Log(k);
        assert w'.Log(k) == log + [w.now];
        assert k in w.table ==> LastWithin(log, w.table[k].strikes, w.table[k].windowStart, w.now);
      } else {
        assert k in w.table && w'.table[k] == w.table[k] && w'.Log(k) == w.Log(k);
      }
    }
  }

  lemma {:induction false} WatchAllKeepsCounts(cfg: Config, w: Watched, ops: seq<Op>)
    requires CountsReal(cfg, w) && !cfg.Disabled()
    ensures CountsReal(cfg, WatchAll(cfg, w, ops))
    decreases |ops|
  {
    if ops != [] {
      WatchKeepsCounts(cfg, w, ops[0]);
      WatchAllKeepsCounts(cfg, Watch(cfg, w, ops[0]), ops[1..]);
    }
  }

  /**
   After any trace, sweeps included: a strike that bans a key past its ban deadline is the
   last of at least `threshold` strikes on that key within the strike window.
   */
  lemma {:induction false} BanBackedByStrikes(cfg: Config, now: int, ops: seq<Op>, key: string)
    requires !cfg.Disabled() && cfg.strikeWindow >= 0
    ensures var w := WatchAll(cfg, Watched(map[], map[], now), ops);
            var deadline := EntryFor(w.table, key, w.now).bannedUntil;
            Strike(cfg, w.table, key, w.now).1 && w.now > deadline ==>
              LastWithin(w.Log(key) + [w.now], cfg.threshold, w.now - cfg.strikeWindow, w.now)
  {
    WatchAllKeepsCounts(cfg, Watched(map[], map[], now), ops);
    var w := WatchAll(cfg, Watched(map[], map[], now), ops);
    assert key in w.table ==> LastWithin(w.Log(key), w.table[key].strikes, w.table[key].windowStart, w.now);
  }

  // ---------------------------------------------------------------------------
  // When a key is banned, and for how long
  // ---------------------------------------------------------------------------

  /** The answers to strikes on one key at the given times. */
  function StrikesAt(cfg: Config, t: Table, key: string, times: seq<int>): (answers: seq<bool>)
    ensures |answers| == |times|
    decreases |times|
  {
    if times == [] then []
    else [Strike(cfg, t, key, times[0]).1] + StrikesAt(cfg, Strike(cfg, t, key, times[0]).0, key, times[1..])
  }

  /** The next strike on the key starts a count: there is no entry, or only one whose ban and window are over. */
  predicate StartsAnew(cfg: Config, t: Table, key: string, now: int) {
    key in t ==> now > t[key].bannedUntil && now - t[key].windowStart > cfg.strikeWindow
  }

  ghost predicate WithinWindow(cfg: Config, times: seq<int>, start: int) {
    && (forall i | 0 <= i < |times| :: start <= times[i] <= start + cfg.strikeWindow)
  }

  /** Inside a window that has counted `n` strikes, the strike that makes `threshold` bans, and none before it. */
  lemma {:induction false} CountingOn(cfg: Config, t: Table, key: string, times: seq<int>, n: nat, start: int)
    requires 1 <= n < cfg.threshold && WithinWindow(cfg, times, start)
    requires key in t && t[key].strikes == n && t[key].windowStart == start
    ensures forall i | 0 <= i < |times| && i < cfg.threshold - n ::
              StrikesAt(cfg, t, key, times)[i] <==> i == cfg.threshold - n - 1
    decreases |times|
  {
    if times != [] && n + 1 < cfg.threshold {
      var next := Strike(cfg, t, key, times[0]).0;
      CountingOn(cfg, next, key, times[1..], n + 1, start);
      forall i | 1 <= i < |times| && i < cfg.threshold - n
        ensures StrikesAt(cfg, t, key, times)[i] <==> i == cfg.threshold - n - 1
      {
        assert StrikesAt(cfg, t, key, times)[i] == StrikesAt(cfg, next, key, times[1..])[i - 1];
      }
    }
  }

  /**
   Strikes on a key that starts anew, all within the strike window of the first: the one
   numbered `threshold` bans, and none before it.
   */
  lemma {:induction false} ThresholdBans(cfg: Config, t: Table, key: string, times: seq<int>)
    requires !cfg.Disabled() && cfg.strikeWindow >= 0 && times != []
    requires StartsAnew(cfg, t, key, times[0]) && WithinWindow(cfg, times, times[0])
    ensures forall i | 0 <= i < |times| && i < cfg.threshold ::
              StrikesAt(cfg, t, key, times)[i] <==> i == cfg.threshold - 1
  {
    if cfg.threshold > 1 {
      var next := Strike(cfg, t, key, times[0]).0;
      CountingOn(cfg, next, key, times[1..], 1, times[0]);
      forall i | 1 <= i < |times| && i < cfg.threshold
        ensures StrikesAt(cfg, t, key, times)[i] <==> i == cfg.threshold - 1
      {
        assert StrikesAt(cfg, t, key, times)[i] == StrikesAt(cfg, next, key, times[1..])[i - 1];
      }
    }
  }

  predicate IsStrikeOn(op: Op, key: string) {
    op.StrikeOp? && op.key == key
  }

  function Trace(cfg: Config, t: Table, now: int, ops: seq<Op>): (Table, int)
    decreases |ops|
  {
    if ops == [] then (t, now) else Trace(cfg, After(cfg, t, now, ops[0]), Later(now, ops[0]), ops[1..])
  }

  /** The entry is there until its deadline, and says nothing after it. */
  ghost predicate BannedTill(t: Table, key: string, deadline: int, now: int) {
    && (now < deadline ==> key in t && t[key].bannedUntil == deadline)
    && (now >= deadline && key in t ==> t[key].bannedUntil == deadline)
  }

  lemma {:induction false} StaysBannedTill(cfg: Config, t: Table, key: string, deadline: int, now: int, ops: seq<Op>)
    requires BannedTill(t, key, deadline, now) && forall i | 0 <= i < |ops| :: !IsStrikeOn(ops[i], key)
    ensures var (t', now') := Trace(cfg, t, now, ops);
            BannedTill(t', key, deadline, now')
    decreases |ops|
  {
    if ops != [] {
      StaysBannedTill(cfg, After(cfg, t, now, ops[0]), key, deadline, Later(now, ops[0]), ops[1..]);
    }
  }

  /**
   A ban lasts its ban window: however the run goes on without a further strike on the key,
   it is reported with the time that is left until the deadline, and not from then on.
   */
  lemma {:induction false} BanLastsItsWindow(cfg: Config, t: Table, key: string, now: int, ops: seq<Op>)
    requires Strike(cfg, t, key, now).1 && forall i | 0 <= i < |ops| :: !IsStrikeOn(ops[i], key)
    ensures var (t', later) := Trace(cfg, Strike(cfg, t, key, now).0, now, ops);
            Banned(cfg, t', key, later) ==
              if later < now + cfg.banWindow then (true, now + cfg.banWindow - later) else (false, 0)
  {
    StaysBannedTill(cfg, Strike(cfg, t, key, now).0, key, now + cfg.banWindow, now, ops);
  }

  /** A key that was never struck is not banned, and a disabled tracker bans nobody. */
  lemma OnlyStrikesBan(cfg: Config, t: Table, key: string, now: int)
    ensures key !in t || cfg.threshold <= 0 ==> Banned(cfg, t, key, now) == (false, 0)
    ensures cfg.threshold <= 0 ==> Strike(cfg, t, key, now) == (t, false) && ActiveBans(cfg, t, now) == 0
  {
  }

  /** The number of active bans is the number of keys that are reported as banned. */
  lemma CountIsOfReported(cfg: Config, t: Table, now: int)
    ensures ActiveBans(cfg, t, now) == |set k | k in t && Banned(cfg, t, k, now).0|
  {
    assert !cfg.Disabled() ==> BannedKeys(t, now) == set k | k in t && Banned(cfg, t, k, now).0;
    assert cfg.Disabled() ==> (set k | k in t && Banned(cfg, t, k, now).0) == {};
  }
}
