/**
 The durable webhook queue: deliveries, the retry worker that runs beside them, and why
 the queue drains. What a dispatch does to the store is left open; only whether it
 succeeds matters here.
 */
module Webhooks {
  import opened AuthStore

  const MAX_ATTEMPTS := 5

  datatype WebhookStatus = Pending | Processed | Failed | Dead

  /** `parses` says whether the stored payload can be decoded again. */
  datatype WebhookEvent = WebhookEvent(status: WebhookStatus, attempts: nat, parses: bool, receivedAt: Time)

  type Events = map<Id, WebhookEvent>

  function SetStatus(events: Events, id: Id, status: WebhookStatus, attempts: nat): Events {
    if id in events then events[id := events[id].(status := status, attempts := attempts)] else events
  }

  /** What a delivery's own dispatch leaves behind. */
  function AfterProcess(events: Events, id: Id, ok: bool): Events {
    if ok then SetStatus(events, id, Processed, 0) else SetStatus(events, id, Failed, 1)
  }

  /** What a retry leaves behind; `e` is the record as the worker listed it. */
  function AfterRetry(events: Events, id: Id, e: WebhookEvent, ok: bool): (after: Events)
    ensures after.Keys == events.Keys && forall x | x in events && x != id :: after[x] == events[x]
  {
    if !e.parses then SetStatus(events, id, Dead, e.attempts)
    else if ok then SetStatus(events, id, Processed, 0)
    else SetStatus(events, id, if e.attempts + 1 >= MAX_ATTEMPTS then Dead else Failed, e.attempts + 1)
  }

  function FailedIds(events: Events): set<Id> {
    set id | id in events && events[id].status == Failed
  }

  /** A listing of failed events: the oldest first, at most `limit` when that is positive. */
  ghost predicate IsListing(events: Events, ids: seq<Id>, limit: nat) {
    && (forall i | 0 <= i < |ids| :: ids[i] in FailedIds(events))
    && (forall i, j | 0 <= i < j < |ids| :: ids[i] != ids[j] && events[ids[i]].receivedAt <= events[ids[j]].receivedAt)
    && |ids| == (if limit == 0 || |FailedIds(events)| < limit then |FailedIds(events)| else limit)
    && (forall i, id | 0 <= i < |ids| && id in FailedIds(events) && id !in ids ::
         events[ids[i]].receivedAt <= events[id].receivedAt)
  }

  // ---------------------------------------------------------------------------
  // Attempts left
  // ---------------------------------------------------------------------------

  predicate Left(e: WebhookEvent, k: nat) {
    e.status == Failed && e.attempts <= k < MAX_ATTEMPTS
  }

  /** The attempts the failed events still have, one by one: |Chances| is the sum of (5 - attempts). */
  function Chances(events: Events): set<(Id, nat)> {
    set id, k | id in events && 0 <= k < MAX_ATTEMPTS && Left(events[id], k) :: (id, k)
  }

  function ChancesOf(id: Id, e: WebhookEvent): set<(Id, nat)> {
    set k | 0 <= k < MAX_ATTEMPTS && Left(e, k) :: (id, k)
  }

  function Remaining(e: WebhookEvent): nat {
    if e.status == Failed && e.attempts < MAX_ATTEMPTS then MAX_ATTEMPTS - e.attempts else 0
  }

  lemma {:induction false} CountChances(id: Id, e: WebhookEvent)
    ensures |ChancesOf(id, e)| == Remaining(e)
    decreases MAX_ATTEMPTS - e.attempts
  {
    if Remaining(e) == 0 {
      assert ChancesOf(id, e) == {};
    } else {
      CountChances(id, e.(attempts := e.attempts + 1));
      assert ChancesOf(id, e) == ChancesOf(id, e.(attempts := e.attempts + 1)) + {(id, e.attempts)};
    }
  }

  /** Replacing one record changes the sum by that record's share. */
  lemma ReplaceChances(events: Events, id: Id, e: WebhookEvent)
    ensures |Chances(events[id := e])| ==
            |Chances(events)| - (if id in events then Remaining(events[id]) else 0) + Remaining(e)
  {
    var others := set c | c in Chances(events) && c.0 != id;
    SplitChances(events, id);
    SplitChances(events[id := e], id);
    assert others == set c | c in Chances(events[id := e]) && c.0 != id;
  }

  lemma SplitChances(events: Events, id: Id)
    ensures |Chances(events)| ==
            |set c | c in Chances(events) && c.0 != id| + if id in events then Remaining(events[id]) else 0
  {
    var others := set c | c in Chances(events) && c.0 != id;
    if id in events {
      CountChances(id, events[id]);
      assert Chances(events) == others + ChancesOf(id, events[id]);
    } else {
      assert Chances(events) == others;
    }
  }

  // ---------------------------------------------------------------------------
  // The queue
  // ---------------------------------------------------------------------------

  /** A failed event has between one and four attempts behind it. */
  ghost predicate AttemptsInRange(events: Events) {
    forall id | id in FailedIds(events) :: 1 <= events[id].attempts < MAX_ATTEMPTS
  }

  /** One pass over a listing; `works` are the events whose dispatch succeeds now. */
  function RetryAll(events: Events, ids: seq<Id>, works: set<Id>): Events
    requires forall i | 0 <= i < |ids| :: ids[i] in events
    decreases |ids|
  {
    if ids == [] then events
    else RetryAll(AfterRetry(events, ids[0], events[ids[0]], ids[0] in works), ids[1..], works)
  }

  /** The listed events that are in a status. */
  function Ended(events: Events, ids: seq<Id>, status: WebhookStatus): set<Id> {
    set id | id in ids && id in events && events[id].status == status
  }

  /** The listed events that can be decoded and are dispatched with success. */
  function Succeeding(events: Events, ids: seq<Id>, works: set<Id>): set<Id> {
    set id | id in ids && id in events && events[id].parses && id in works
  }

  /** The listed events that cannot be decoded, or fail with four attempts behind them. */
  function GivenUp(events: Events, ids: seq<Id>, works: set<Id>): set<Id> {
    set id | id in ids && id in events && (!events[id].parses || (id !in works && events[id].attempts >= 4))
  }

  /** What becomes of a failed event in a pass that lists it. */
  ghost predicate RetriedAs(e: WebhookEvent, after: WebhookEvent, works: bool) {
    && after.parses == e.parses && after.receivedAt == e.receivedAt
    && (after.status == Processed <==> e.parses && works)
    && (after.status == Dead <==> !e.parses || (!works && e.attempts >= 4))
    && (after.status == Failed <==> e.parses && !works && e.attempts < 4)
    && after.attempts == if !e.parses then e.attempts else if works then 0 else e.attempts + 1
  }

  /** A pass makes of every listed event what its own dispatch says, and leaves the others alone. */
  lemma {:induction false} PassMeans(events: Events, ids: seq<Id>, works: set<Id>)
    requires forall i | 0 <= i < |ids| :: ids[i] in events
    requires forall i, j | 0 <= i < j < |ids| :: ids[i] != ids[j]
    ensures var after := RetryAll(events, ids, works);
            && after.Keys == events.Keys
            && (forall id | id in events && id !in ids :: after[id] == events[id])
            && (forall id | id in ids :: RetriedAs(events[id], after[id], id in works))
    decreases |ids|
  {
    if ids != [] {
      var head := ids[0];
      var next := AfterRetry(events, head, events[head], head in works);
      assert RetriedAs(events[head], next[head], head in works);
      assert forall i | 0 <= i < |ids[1..]| :: ids[1..][i] == ids[i + 1] && ids[1..][i] in next;
      assert head !in ids[1..];
      hide AfterRetry, RetriedAs;
      PassMeans(next, ids[1..], works);
      assert ids == [head] + ids[1..];
    }
  }

  /** The two counts of a pass, told from the store before it. */
  lemma PassCountsMean(events: Events, ids: seq<Id>, works: set<Id>)
    requires forall i | 0 <= i < |ids| :: ids[i] in events && events[ids[i]].status == Failed
    requires forall i, j | 0 <= i < j < |ids| :: ids[i] != ids[j]
    ensures var after := RetryAll(events, ids, works);
            && Ended(after, ids, Processed) == Succeeding(events, ids, works)
            && Ended(after, ids, Dead) == GivenUp(events, ids, works)
  {
    PassMeans(events, ids, works);
    hide RetryAll;
  }

  lemma RetryCosts(events: Events, id: Id, ok: bool)
    requires id in FailedIds(events) && AttemptsInRange(events)
    ensures var after := AfterRetry(events, id, events[id], ok);
            && |Chances(after)| < |Chances(events)| && AttemptsInRange(after)
            && after.Keys == events.Keys && (forall x | x in events && x != id :: after[x] == events[x])
  {
    var after := AfterRetry(events, id, events[id], ok);
    ReplaceChances(events, id, after[id]);
    assert after == events[id := after[id]];
    hide Chances;
  }

  /** Every pass lowers the sum of remaining attempts by at least one per listed event. */
  lemma {:induction false} PassCosts(events: Events, ids: seq<Id>, works: set<Id>)
    requires AttemptsInRange(events)
    requires forall i | 0 <= i < |ids| :: ids[i] in FailedIds(events)
    requires forall i, j | 0 <= i < j < |ids| :: ids[i] != ids[j]
    ensures var after := RetryAll(events, ids, works);
            |Chances(after)| + |ids| <= |Chances(events)| && AttemptsInRange(after)
    decreases |ids|
  {
    if ids != [] {
      hide Chances, AttemptsInRange;
      RetryCosts(events, ids[0], ids[0] in works);
      PassCosts(AfterRetry(events, ids[0], events[ids[0]], ids[0] in works), ids[1..], works);
    }
  }

  class Processor {
    var events: Events

    constructor ()
      ensures events == map[] && AttemptsInRange(events)
    {
      events := map[];
    }

    method Record(id: Id, parses: bool, now: Time) returns (inserted: bool)
      requires AttemptsInRange(events)
      modifies this`events
      ensures inserted == (id !in old(events)) && AttemptsInRange(events)
      ensures events == if inserted then old(events)[id := WebhookEvent(Pending, 0, parses, now)] else old(events)
    {
      if id in events {
        return false;
      }
      events := events[id := WebhookEvent(Pending, 0, parses, now)];
      return true;
    }

    method Process(id: Id, ok: bool)
      requires AttemptsInRange(events)
      modifies this`events
      ensures events == AfterProcess(old(events), id, ok) && AttemptsInRange(events)
      ensures events.Keys == old(events).Keys && forall x | x in events && x != id :: events[x] == old(events)[x]
      ensures id in events ==> events[id].status == if ok then Processed else Failed
    {
      if ok {
        events := SetStatus(events, id, Processed, 0);
      } else {
        events := SetStatus(events, id, Failed, 1);
      }
    }

    /** Selects the oldest remaining failed event until the limit is reached. */
    method ListFailed(limit: nat) returns (ids: seq<Id>)
      ensures IsListing(events, ids, limit)
    {
      var failed := FailedIds(events);
      assert forall id | id in failed :: id in events;
      hide FailedIds;
      ids := [];
      var rest := failed;
      while rest != {} && (limit == 0 || |ids| < limit)
        invariant limit == 0 || |ids| <= limit
        invariant rest <= failed && |ids| + |rest| == |failed|
        invariant forall i | 0 <= i < |ids| :: ids[i] in failed && ids[i] !in rest
        invariant forall id | id in failed && id !in rest :: id in ids
        invariant forall i, j | 0 <= i < j < |ids| ::
                  ids[i] != ids[j] && events[ids[i]].receivedAt <= events[ids[j]].receivedAt
        invariant forall i, id | 0 <= i < |ids| && id in rest :: events[ids[i]].receivedAt <= events[id].receivedAt
        decreases |rest|
      {
        var oldest := Oldest(rest);
        rest := rest - {oldest};
        ids := ids + [oldest];
      }
    }

    method Oldest(among: set<Id>) returns (oldest: Id)
      requires among != {} && among <= events.Keys
      ensures oldest in among && forall id | id in among :: events[oldest].receivedAt <= events[id].receivedAt
    {
      oldest :| oldest in among;
      var rest := among - {oldest};
      while rest != {}
        invariant rest <= among && oldest in among
        invariant forall id | id in among && id !in rest :: events[oldest].receivedAt <= events[id].receivedAt
        decreases |rest|
      {
        var id :| id in rest;
        rest := rest - {id};
        if events[id].receivedAt < events[oldest].receivedAt {
          oldest := id;
        }
      }
    }

    method RetryOne(id: Id, ok: bool)
      requires id in events && events[id].status == Failed
      modifies this`events
      ensures events == AfterRetry(old(events), id, old(events)[id], ok)
      ensures id in events && RetriedAs(old(events)[id], events[id], ok)
    {
      var e := events[id];
      if !e.parses {
        events := SetStatus(events, id, Dead, e.attempts);
      } else if !ok {
        var attempts := e.attempts + 1;
        var status := Failed;
        if attempts >= MAX_ATTEMPTS {
          status := Dead;
        }
        events := SetStatus(events, id, status, attempts);
      } else {
        events := SetStatus(events, id, Processed, 0);
      }
    }

    /** The worker's loop over a listing. */
    method RetryListed(ids: seq<Id>, works: set<Id>) returns (processed: nat, dead: nat)
      requires Distinct(ids) && forall i | 0 <= i < |ids| :: ids[i] in events && events[ids[i]].status == Failed
      modifies this`events
      ensures events == RetryAll(old(events), ids, works)
      ensures processed == |Succeeding(old(events), ids, works)| && dead == |GivenUp(old(events), ids, works)|
    {
      hide Succeeding, GivenUp, RetriedAs, AfterRetry, Ended, RetryAll;
      processed, dead := 0, 0;
      NoneEnded(events);
      var i := 0;
      while i < |ids|
        invariant i <= |ids|
        invariant events.Keys == old(events).Keys
        invariant forall j | i <= j < |ids| :: events[ids[j]] == old(events)[ids[j]]
        invariant RetryAll(events, ids[i..], works) == RetryAll(old(events), ids, works)
        invariant processed == |Ended(events, ids[..i], Processed)| && dead == |Ended(events, ids[..i], Dead)|
      {
        ghost var before := events;
        RetryAllUnfolds(events, ids, i, works);
        RetryOne(ids[i], ids[i] in works);
        EndedGrows(before, events, ids, i, Processed);
        EndedGrows(before, events, ids, i, Dead);
        if events[ids[i]].status == Processed {
          processed := processed + 1;
        } else if events[ids[i]].status == Dead {
          dead := dead + 1;
        }
        i := i + 1;
      }
      assert ids[..i] == ids && ids[i..] == [];
      PassEnds(events, works);
      PassCountsMean(old(events), ids, works);
    }

    method RetryFailed(limit: nat, works: set<Id>) returns (ghost listed: seq<Id>, processed: nat, dead: nat)
      requires AttemptsInRange(events)
      modifies this`events
      ensures IsListing(old(events), listed, limit)
      ensures events == RetryAll(old(events), listed, works)
      ensures |Chances(events)| + |listed| <= |Chances(old(events))| && AttemptsInRange(events)
      ensures processed == |Succeeding(old(events), listed, works)| && dead == |GivenUp(old(events), listed, works)|
    {
      var ids := ListFailed(limit);
      listed := ids;
      PassCosts(events, ids, works);
      hide Chances, AttemptsInRange, RetryAll, Succeeding, GivenUp;
      processed, dead := RetryListed(ids, works);
    }
  }

  lemma NoneEnded(events: Events)
    ensures Ended(events, [], Processed) == {} && Ended(events, [], Dead) == {}
  {
  }

  lemma PassEnds(events: Events, works: set<Id>)
    ensures RetryAll(events, [], works) == events
  {
  }

  lemma RetryAllUnfolds(events: Events, ids: seq<Id>, i: nat, works: set<Id>)
    requires i < |ids| && forall j | i <= j < |ids| :: ids[j] in events
    ensures RetryAll(events, ids[i..], works) ==
            RetryAll(AfterRetry(events, ids[i], events[ids[i]], ids[i] in works), ids[i + 1..], works)
  {
  }

  lemma EndedAppend(events: Events, ids: seq<Id>, id: Id, status: WebhookStatus)
    requires id !in ids && id in events
    ensures |Ended(events, ids + [id], status)| ==
            |Ended(events, ids, status)| + if events[id].status == status then 1 else 0
  {
    assert Ended(events, ids + [id], status) ==
           Ended(events, ids, status) + if events[id].status == status then {id} else {};
  }

  /** Retrying the next listed event adds it to those that ended, or not. */
  lemma EndedGrows(before: Events, after: Events, ids: seq<Id>, i: nat, status: WebhookStatus)
    requires i < |ids| && Distinct(ids) && ids[i] in before && after.Keys == before.Keys
    requires forall x | x in before && x != ids[i] :: after[x] == before[x]
    ensures |Ended(after, ids[..i + 1], status)| ==
            |Ended(before, ids[..i], status)| + if after[ids[i]].status == status then 1 else 0
  {
    assert ids[i] !in ids[..i];
    assert Ended(after, ids[..i], status) == Ended(before, ids[..i], status);
    hide Ended;
    EndedAppend(after, ids[..i], ids[i], status);
    assert ids[..i + 1] == ids[..i] + [ids[i]];
  }

  // ---------------------------------------------------------------------------
  // Passes without deliveries
  // ---------------------------------------------------------------------------

  /** Consecutive passes, each over a listing of what had failed by then. */
  ghost predicate ArePasses(states: seq<Events>, limit: nat) {
    forall i | 0 <= i < |states| - 1 :: IsPass(states[i], states[i + 1], limit)
  }

  ghost predicate IsPass(events: Events, after: Events, limit: nat) {
    exists ids, works {:trigger RetryAll(events, ids, works)} ::
        IsListing(events, ids, limit) && after == RetryAll(events, ids, works)
  }

  lemma PassMakesProgress(events: Events, after: Events, limit: nat)
    requires AttemptsInRange(events) && IsPass(events, after, limit)
    ensures AttemptsInRange(after) && (FailedIds(events) != {} ==> |Chances(after)| < |Chances(events)|)
    ensures FailedIds(events) == {} ==> after == events
  {
    var ids, works :| IsListing(events, ids, limit) && after == RetryAll(events, ids, works);
    PassCosts(events, ids, works);
    hide Chances;
    if FailedIds(events) != {} {
      assert |ids| > 0;
    } else {
      assert ids == [];
    }
  }

  lemma NoChancesNoFailures(events: Events)
    requires AttemptsInRange(events)
    ensures |Chances(events)| == 0 ==> FailedIds(events) == {}
  {
    if id :| id in FailedIds(events) {
      assert (id, events[id].attempts) in Chances(events);
    }
  }

  /** The queue drains: as many passes as there are remaining attempts leave nothing failed. */
  lemma {:induction false} QueueDrains(states: seq<Events>, limit: nat)
    requires |states| > 0 && ArePasses(states, limit) && AttemptsInRange(states[0])
    requires |states| > |Chances(states[0])|
    ensures FailedIds(states[|states| - 1]) == {}
    decreases |states|
  {
    NoChancesNoFailures(states[0]);
    hide Chances, AttemptsInRange, IsPass, FailedIds;
    if |states| > 1 {
      assert IsPass(states[0], states[1], limit);
      PassMakesProgress(states[0], states[1], limit);
      if FailedIds(states[0]) != {} {
        QueueDrains(states[1..], limit);
      } else {
        StaysDrained(states, limit);
      }
    }
  }

  lemma {:induction false} StaysDrained(states: seq<Events>, limit: nat)
    requires |states| > 0 && ArePasses(states, limit) && AttemptsInRange(states[0]) && FailedIds(states[0]) == {}
    ensures states[|states| - 1] == states[0]
    decreases |states|
  {
    hide Chances, AttemptsInRange, IsPass, FailedIds;
    if |states| > 1 {
      assert IsPass(states[0], states[1], limit);
      PassMakesProgress(states[0], states[1], limit);
      StaysDrained(states[1..], limit);
    }
  }
}
