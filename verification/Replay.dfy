/**
 The anti-replay window of an end-to-end session (`replayGuard` in the Go
 reference, `checkReplay` in the Java SDK).

 The guard keeps only the envelope ids that are still inside the window. It is
 compared here with a `Ledger` that forgets nothing: both give the same answer to
 every sequence of calls, with the 64-bit subtraction left to wrap around.
 */
module Replay {
  import opened Bytes

  const MIN_INT64: int := -0x8000_0000_0000_0000
  const MAX_INT64: int := 0x7fff_ffff_ffff_ffff
  const TWO_TO_THE_64: int := 0x1_0000_0000_0000_0000

  type Int64 = x: int | MIN_INT64 <= x <= MAX_INT64

  /** A window length: the guard is only ever built with a non-negative one. */
  type Window = w: int | 0 <= w <= MAX_INT64

  /** The window every session uses: five minutes, in milliseconds. */
  const DEFAULT_WINDOW: Window := 5 * 60 * 1000

  /** Two's-complement `a - b`, for a non-negative `b`. */
  function Sub64(a: Int64, b: Window): (r: Int64) {
    if a - b < MIN_INT64 then a - b + TWO_TO_THE_64 else a - b
  }

  type Id = ByteString
  type Envelope = (Id, Int64)

  datatype Answer = Accepted | Stale | Replayed

  // ---------------------------------------------------------------------------
  // The guard as a value
  // ---------------------------------------------------------------------------

  datatype Guard = Guard(window: Window, lastTs: Int64, primed: bool, seen: map<Id, Int64>)

  function Fresh(window: Window): Guard {
    Guard(window, 0, false, map[])
  }

  function Prune(seen: map<Id, Int64>, floor: Int64): map<Id, Int64> {
    map id | id in seen && floor <= seen[id] :: seen[id]
  }

  /** One call of `check`. */
  function Step(g: Guard, id: Id, ts: Int64): (Guard, Answer) {
    if g.primed && ts < Sub64(g.lastTs, g.window) then
      (g, Stale)
    else if id in g.seen then
      (g, Replayed)
    else
      var last := if !g.primed || ts > g.lastTs then ts else g.lastTs;
      (Guard(g.window, last, true, Prune(g.seen[id := ts], Sub64(last, g.window))), Accepted)
  }

  function Answers(g: Guard, calls: seq<Envelope>): (answers: seq<Answer>)
    ensures |answers| == |calls|
    decreases |calls|
  {
    if calls == [] then []
    else
      var (g', a) := Step(g, calls[0].0, calls[0].1);
      [a] + Answers(g', calls[1..])
  }

  // ---------------------------------------------------------------------------
  // The guard as the object the sessions hold
  // ---------------------------------------------------------------------------

  class ReplayGuard {
    const window: Window
    var lastTs: Int64
    var primed: bool
    var seen: map<Id, Int64>

    ghost function View(): Guard
      reads this
    {
      Guard(window, lastTs, primed, seen)
    }

    constructor (window: Window)
      ensures View() == Fresh(window)
    {
      this.window := window;
      lastTs, primed, seen := 0, false, map[];
    }

    /** `check`: the stored ids are pruned one by one after an acceptance. */
    method Check(id: Id, ts: Int64) returns (answer: Answer)
      modifies this
      ensures (View(), answer) == Step(old(View()), id, ts)
    {
      if primed && ts < Sub64(lastTs, window) {
        return Stale;
      }
      if id in seen {
        return Replayed;
      }
      seen := seen[id := ts];
      if !primed || ts > lastTs {
        lastTs := ts;
      }
      primed := true;
      Forget(Sub64(lastTs, window));
      return Accepted;
    }

    /** The pruning loop of `check`. */
    method Forget(floor: Int64)
      modifies this`seen
      ensures seen == Prune(old(seen), floor)
    {
      var rest := seen.Keys;
      while rest != {}
        invariant rest <= seen.Keys <= old(seen).Keys
        invariant forall k | k in seen :: seen[k] == old(seen)[k]
        invariant forall k | k in old(seen) && k !in rest :: k in seen <==> floor <= old(seen)[k]
        decreases |rest|
      {
        var k :| k in rest;
        rest := rest - {k};
        if seen[k] < floor {
          seen := seen - {k};
        }
      }
    }
  }

  // ---------------------------------------------------------------------------
  // The reference: every accepted envelope is remembered for ever
  // ---------------------------------------------------------------------------

  type Ledger = seq<Envelope>

  /** The highest timestamp accepted so far. */
  function HighWater(log: Ledger): (m: Int64)
    requires log != []
  {
    var last := log[|log| - 1].1;
    if |log| == 1 then last
    else
      var m := HighWater(log[..|log| - 1]);
      if last > m then last else m
  }

  lemma {:induction false} HighWaterIsMaximum(log: Ledger) returns (top: nat)
    requires log != []
    ensures forall e | e in log :: e.1 <= HighWater(log)
    ensures top < |log| && log[top].1 == HighWater(log)
  {
    top := |log| - 1;
    if |log| > 1 {
      var front := log[..top];
      var t := HighWaterIsMaximum(front);
      assert forall e | e in log :: e in front || e == log[top];
      if log[top].1 <= HighWater(front) {
        top := t;
      }
    }
  }

  function Floor(window: Window, log: Ledger): Int64
    requires log != []
  {
    Sub64(HighWater(log), window)
  }

  predicate InWindow(window: Window, log: Ledger, e: Envelope) {
    e in log && Floor(window, log) <= e.1
  }

  /** The answer that the full history justifies. */
  function LedgerAnswer(window: Window, log: Ledger, id: Id, ts: Int64): Answer {
    if log == [] then Accepted
    else if ts < Floor(window, log) then Stale
    else if exists e | e in log :: e.0 == id && InWindow(window, log, e) then Replayed
    else Accepted
  }

  function Extend(window: Window, log: Ledger, id: Id, ts: Int64): Ledger {
    if LedgerAnswer(window, log, id, ts).Accepted? then log + [(id, ts)] else log
  }

  function LedgerAnswers(window: Window, log: Ledger, calls: seq<Envelope>): (answers: seq<Answer>)
    ensures |answers| == |calls|
    decreases |calls|
  {
    if calls == [] then []
    else
      var (id, ts) := calls[0];
      [LedgerAnswer(window, log, id, ts)] + LedgerAnswers(window, Extend(window, log, id, ts), calls[1..])
  }

  /** The pruned map is the accepted history restricted to the window. */
  ghost predicate Mirrors(g: Guard, log: Ledger) {
    && (g.primed <==> log != [])
    && (!g.primed ==> g.seen == map[])
    && (g.primed ==>
          && g.lastTs == HighWater(log)
          && (forall id | id in g.seen :: InWindow(g.window, log, (id, g.seen[id])))
          && (forall e | InWindow(g.window, log, e) :: e.0 in g.seen && g.seen[e.0] == e.1))
  }

  /** Appending raises the high-water mark to the new timestamp or leaves it. */
  lemma {:induction false} HighWaterAppend(log: Ledger, e: Envelope)
    ensures HighWater(log + [e]) == if log != [] && HighWater(log) >= e.1 then HighWater(log) else e.1
  {
  }

  /**
   An accepted timestamp never lets an already pruned entry back in, although a
   wrapped floor may move down.
   */
  lemma FloorNeverUncovers(window: Window, log: Ledger, e: Envelope, old': Envelope)
    requires log != [] && e.1 >= Floor(window, log)
    requires old' in log && Floor(window, log + [e]) <= old'.1
    ensures Floor(window, log) <= old'.1
  {
    HighWaterAppend(log, e);
    var _ := HighWaterIsMaximum(log);
  }

  lemma {:induction false} MirrorsStep(g: Guard, log: Ledger, id: Id, ts: Int64)
    requires Mirrors(g, log)
    ensures Step(g, id, ts).1 == LedgerAnswer(g.window, log, id, ts)
    ensures Step(g, id, ts).0.window == g.window
    ensures Mirrors(Step(g, id, ts).0, Extend(g.window, log, id, ts))
  {
    var (g', a) := Step(g, id, ts);
    if id in g.seen {
      assert (id, g.seen[id]) in log;
    }
    assert a == LedgerAnswer(g.window, log, id, ts);
    if a.Accepted? {
      var e := (id, ts);
      var log' := log + [e];
      HighWaterAppend(log, e);
      assert log' == Extend(g.window, log, id, ts);
      assert log'[|log|] == e;
      forall x | InWindow(g.window, log', x)
        ensures x.0 in g'.seen && g'.seen[x.0] == x.1
      {
        if x in log {
          FloorNeverUncovers(g.window, log, e, x);
          assert InWindow(g.window, log, x);
        }
      }
      forall k | k in g'.seen
        ensures InWindow(g.window, log', (k, g'.seen[k]))
      {
        if k != id {
          assert (k, g.seen[k]) in log;
        }
      }
    }
  }

  /** The pruned guard answers every sequence of calls as the full history does. */
  lemma {:induction false} PrunedAgreesWithFullHistory(g: Guard, log: Ledger, calls: seq<Envelope>)
    requires Mirrors(g, log)
    ensures Answers(g, calls) == LedgerAnswers(g.window, log, calls)
    decreases |calls|
  {
    if calls != [] {
      var (id, ts) := calls[0];
      MirrorsStep(g, log, id, ts);
      PrunedAgreesWithFullHistory(Step(g, id, ts).0, Extend(g.window, log, id, ts), calls[1..]);
    }
  }

  /** An envelope in the ledger is never accepted again, wrapped floor or not. */
  lemma {:induction false} LedgerRefusesRepeats(window: Window, log: Ledger, calls: seq<Envelope>, j: nat)
    requires j < |calls| && calls[j] in log
    ensures !LedgerAnswers(window, log, calls)[j].Accepted?
    decreases |calls|
  {
    var (id, ts) := calls[0];
    if j == 0 {
      assert calls[j] in log;
    } else {
      LedgerRefusesRepeats(window, Extend(window, log, id, ts), calls[1..], j - 1);
    }
  }

  lemma {:induction false} AcceptedIsRemembered(window: Window, log: Ledger, calls: seq<Envelope>, i: nat, j: nat)
    requires i < j < |calls| && calls[i] == calls[j]
    requires LedgerAnswers(window, log, calls)[i].Accepted?
    ensures !LedgerAnswers(window, log, calls)[j].Accepted?
    decreases |calls|
  {
    var (id, ts) := calls[0];
    var log' := Extend(window, log, id, ts);
    if i == 0 {
      assert log'[|log|] == calls[0];
      LedgerRefusesRepeats(window, log', calls[1..], j - 1);
    } else {
      AcceptedIsRemembered(window, log', calls[1..], i - 1, j - 1);
    }
  }

  /** At most once: no guard, on any call sequence, accepts the same (id, ts) twice. */
  lemma {:induction false} NeverAcceptedTwice(window: Window, calls: seq<Envelope>, i: nat, j: nat)
    requires i < j < |calls| && calls[i] == calls[j]
    ensures Answers(Fresh(window), calls)[i].Accepted? ==> !Answers(Fresh(window), calls)[j].Accepted?
  {
    PrunedAgreesWithFullHistory(Fresh(window), [], calls);
    if Answers(Fresh(window), calls)[i].Accepted? {
      AcceptedIsRemembered(window, [], calls, i, j);
    }
  }

  // ---------------------------------------------------------------------------
  // Reordering inside the window
  // ---------------------------------------------------------------------------

  /** Distinct ids, every two timestamps within one window of each other. */
  ghost predicate WithinOneWindow(window: Window, calls: seq<Envelope>) {
    && (forall i, j | 0 <= i < j < |calls| :: calls[i].0 != calls[j].0)
    && (forall i, j | 0 <= i < |calls| && 0 <= j < |calls| :: calls[i].1 - calls[j].1 <= window)
  }

  ghost predicate AllAccepted(answers: seq<Answer>) {
    forall i | 0 <= i < |answers| :: answers[i].Accepted?
  }

  lemma {:induction false} LedgerAcceptsWindow(window: Window, log: Ledger, calls: seq<Envelope>)
    requires WithinOneWindow(window, log + calls)
    requires log != [] && HighWater(log) - window >= MIN_INT64
    ensures AllAccepted(LedgerAnswers(window, log, calls))
    decreases |calls|
  {
    if calls != [] {
      var e := calls[0];
      var top := HighWaterIsMaximum(log);
      assert (log + calls)[top] == log[top] && (log + calls)[|log|] == e;
      forall x | x in log ensures x.0 != e.0 {
        var k :| 0 <= k < |log| && log[k] == x;
        assert (log + calls)[k] == x;
      }
      assert LedgerAnswer(window, log, e.0, e.1).Accepted?;
      assert (log + [e]) + calls[1..] == log + calls;
      HighWaterAppend(log, e);
      LedgerAcceptsWindow(window, log + [e], calls[1..]);
    }
  }

  /** With the first floor wrapped, the very next envelope of the window is refused. */
  lemma WrappedFloorRefuses(window: Window, first: Envelope, next: Envelope)
    requires first.1 < MIN_INT64 + window && next.1 - first.1 <= window
    ensures LedgerAnswer(window, [first], next.0, next.1) == Stale
  {
  }

  lemma {:induction false} FirstIsAccepted(window: Window, calls: seq<Envelope>)
    requires calls != []
    ensures LedgerAnswers(window, [], calls) == [Accepted] + LedgerAnswers(window, [calls[0]], calls[1..])
  {
    assert Extend(window, [], calls[0].0, calls[0].1) == [calls[0]];
  }

  lemma {:induction false} LedgerReordering(window: Window, first: Envelope, rest: seq<Envelope>)
    requires WithinOneWindow(window, [first] + rest)
    ensures AllAccepted(LedgerAnswers(window, [first], rest)) <==> rest == [] || first.1 >= MIN_INT64 + window
  {
    if first.1 >= MIN_INT64 + window {
      LedgerAcceptsWindow(window, [first], rest);
    } else if rest != [] {
      assert ([first] + rest)[1] == rest[0] && ([first] + rest)[0] == first;
      WrappedFloorRefuses(window, first, rest[0]);
      assert LedgerAnswers(window, [first], rest)[0] == Stale;
    }
  }

  /**
   Envelopes within one window of each other are all accepted in any order, except
   where the first timestamp is so low that its floor wraps around. This holds for
   every window a 64-bit integer can express.
   */
  lemma {:induction false} ReorderingToleratedExactlyWhen(window: Window, calls: seq<Envelope>)
    requires WithinOneWindow(window, calls)
    ensures AllAccepted(Answers(Fresh(window), calls)) <==>
            |calls| <= 1 || calls[0].1 >= MIN_INT64 + window
  {
    PrunedAgreesWithFullHistory(Fresh(window), [], calls);
    if calls != [] {
      var answers, tail := Answers(Fresh(window), calls), LedgerAnswers(window, [calls[0]], calls[1..]);
      FirstIsAccepted(window, calls);
      assert [calls[0]] + calls[1..] == calls;
      LedgerReordering(window, calls[0], calls[1..]);
      assert forall i | 0 <= i < |tail| :: answers[i + 1] == tail[i];
    }
  }
}
