/** Deliveries and the retry worker interleaved: every delivery and every retry is its own step. */
module WebhookRuns {
  import opened AuthStore
  import opened Webhooks

  /** An event as the worker listed it. */
  datatype Listed = Listed(id: Id, e: WebhookEvent)

  /**
   The recorded events, the deliveries recorded but not yet dispatched, what is left of the
   worker's listing; and for the statements below the answers of every event's dispatches, the
   events a retry could not decode, and the numbers of retries and of failed deliveries.
   */
  datatype State = State(events: Events, handling: set<Id>, queue: seq<Listed>,
                         answers: map<Id, seq<bool>>, undecodable: set<Id>, retries: nat, failures: nat)
  {
    function Answers(id: Id): seq<bool> {
      if id in answers then answers[id] else []
    }
    function Dispatches(id: Id): nat {
      |Answers(id)|
    }
  }

  datatype Step =
    | Receive(id: Id, parses: bool, at: Time)
    | Handle(id: Id, ok: bool)
    | List(ids: seq<Id>, limit: nat)
    | Retry(ok: bool)

  ghost predicate Enabled(s: State, step: Step) {
    match step
    case Receive(_, _, _) => true
    case Handle(id, _) => id in s.handling
    case List(ids, limit) => s.queue == [] && IsListing(s.events, ids, limit)
    case Retry(_) => s.queue != []
  }

  function Answered(s: State, id: Id, ok: bool): map<Id, seq<bool>> {
    s.answers[id := s.Answers(id) + [ok]]
  }

  ghost function Next(s: State, step: Step): State
    requires Enabled(s, step)
  {
    match step
    case Receive(id, parses, at) =>
      if id in s.events then s
      else s.(events := s.events[id := WebhookEvent(Pending, 0, parses, at)], handling := s.handling + {id})
    case Handle(id, ok) =>
      s.(events := AfterProcess(s.events, id, ok), handling := s.handling - {id}, answers := Answered(s, id, ok),
         failures := if ok then s.failures else s.failures + 1)
    case List(ids, _) =>
      s.(queue := seq(|ids|, i requires 0 <= i < |ids| && ids[i] in s.events => Listed(ids[i], s.events[ids[i]])))
    case Retry(ok) =>
      var head := s.queue[0];
      s.(events := AfterRetry(s.events, head.id, head.e, ok), queue := s.queue[1..], retries := s.retries + 1,
         answers := if head.e.parses then Answered(s, head.id, ok) else s.answers,
         undecodable := if head.e.parses then s.undecodable else s.undecodable + {head.id})
  }

  ghost function Exec(s: State, steps: seq<Step>): State
    decreases |steps|
  {
    if steps == [] then s
    else Exec(if Enabled(s, steps[0]) then Next(s, steps[0]) else s, steps[1..])
  }

  function Init(): State {
    State(map[], {}, [], map[], {}, 0, 0)
  }

  // ---------------------------------------------------------------------------
  // What every step keeps
  // ---------------------------------------------------------------------------

  /** No dispatch but perhaps the last one succeeded. */
  ghost predicate FailedBefore(answers: seq<bool>) {
    forall i | 0 <= i < |answers| - 1 :: !answers[i]
  }

  predicate LastSucceeded(answers: seq<bool>) {
    answers != [] && answers[|answers| - 1]
  }

  /** How an event was dispatched, by its status. */
  ghost predicate Accounted(e: WebhookEvent, answers: seq<bool>, undecodable: bool) {
    && FailedBefore(answers)
    && match e.status
       case Pending => answers == [] && !undecodable
       case Failed =>
         1 <= e.attempts < 5 && |answers| == e.attempts && !LastSucceeded(answers) && !undecodable
       case Processed => e.attempts == 0 && |answers| <= 5 && LastSucceeded(answers) && !undecodable
       case Dead =>
         && |answers| == e.attempts && !LastSucceeded(answers)
         && if undecodable then 1 <= e.attempts < 5 else e.attempts == 5
  }

  ghost predicate CountsRight(s: State) {
    forall id :: if id in s.events then Accounted(s.events[id], s.Answers(id), id in s.undecodable)
                 else s.Answers(id) == [] && id !in s.undecodable
  }

  ghost predicate HandlingPending(s: State) {
    forall id | id in s.handling :: id in s.events && s.events[id].status == Pending
  }

  /** The rest of the listing is still what the store holds. */
  ghost predicate QueueCurrent(s: State) {
    && (forall i | 0 <= i < |s.queue| ::
          var id := s.queue[i].id; id in s.events && s.events[id] == s.queue[i].e && s.events[id].status == Failed)
    && (forall i, j | 0 <= i < j < |s.queue| :: s.queue[i].id != s.queue[j].id)
  }

  ghost predicate Sound(s: State) {
    CountsRight(s) && HandlingPending(s) && QueueCurrent(s)
  }

  lemma StepSound(s: State, step: Step)
    requires Sound(s) && Enabled(s, step)
    ensures Sound(Next(s, step))
  {
    match step
    case Receive(_, _, _) =>
    case Handle(id, ok) => HandleSound(s, id, ok);
    case List(ids, _) => assert forall i | 0 <= i < |ids| :: ids[i] in FailedIds(s.events);
    case Retry(ok) => RetrySound(s, ok);
  }

  lemma HandleSound(s: State, id: Id, ok: bool)
    requires Sound(s) && id in s.handling
    ensures Sound(Next(s, Handle(id, ok)))
  {
  }

  lemma RetrySound(s: State, ok: bool)
    requires Sound(s) && s.queue != []
    ensures Sound(Next(s, Retry(ok)))
  {
    RetryCounts(s, ok);
    hide CountsRight, AfterRetry;
  }

  lemma RetryCounts(s: State, ok: bool)
    requires CountsRight(s) && QueueCurrent(s) && s.queue != []
    ensures CountsRight(Next(s, Retry(ok)))
  {
    var id := s.queue[0].id;
    assert Accounted(s.events[id], s.Answers(id), id in s.undecodable);
    RetryAccounts(s.events, id, s.Answers(id), ok);
    hide Accounted, AfterRetry;
  }

  lemma RetryAccounts(events: Events, id: Id, answers: seq<bool>, ok: bool)
    requires id in events && events[id].status == Failed && Accounted(events[id], answers, false)
    ensures var e, after := events[id], AfterRetry(events, id, events[id], ok);
            Accounted(after[id], if e.parses then answers + [ok] else answers, !e.parses)
  {
  }

  lemma {:induction false} RunSound(s: State, steps: seq<Step>)
    requires Sound(s)
    ensures Sound(Exec(s, steps))
    decreases |steps|
  {
    hide Sound, Next, Enabled;
    if steps != [] {
      if Enabled(s, steps[0]) {
        StepSound(s, steps[0]);
        RunSound(Next(s, steps[0]), steps[1..]);
      } else {
        RunSound(s, steps[1..]);
      }
    }
  }

  /**
   On every run no event is dispatched more than five times, and a failed one has been
   dispatched exactly as often as its attempts say, which is one to four times.
   */
  lemma {:induction false} AtMostFiveDispatches(steps: seq<Step>, id: Id)
    ensures var s := Exec(Init(), steps);
            && s.Dispatches(id) <= 5
            && (id in s.events && s.events[id].status == Failed ==>
                  1 <= s.events[id].attempts < 5 && s.Dispatches(id) == s.events[id].attempts)
  {
    RunSound(Init(), steps);
  }

  /**
   On every run a recorded event is processed exactly when its last dispatch succeeded, and
   dead exactly when a retry could not decode it or it was dispatched five times in vain; no
   event is dispatched again after a success.
   */
  lemma {:induction false} StatusTellsTheDispatches(steps: seq<Step>, id: Id)
    requires id in Exec(Init(), steps).events
    ensures var s := Exec(Init(), steps);
            var status, answers := s.events[id].status, s.Answers(id);
            && (status == Processed <==> answers != [] && answers[|answers| - 1])
            && (status == Dead <==> id in s.undecodable || (|answers| == 5 && forall i | 0 <= i < 5 :: !answers[i]))
            && (forall i | 0 <= i < |answers| - 1 :: !answers[i])
  {
    RunSound(Init(), steps);
    var s := Exec(Init(), steps);
    hide Exec;
    assert Accounted(s.events[id], s.Answers(id), id in s.undecodable);
  }

  // ---------------------------------------------------------------------------
  // Processed and dead are final
  // ---------------------------------------------------------------------------

  predicate Final(e: WebhookEvent) {
    e.status == Processed || e.status == Dead
  }

  lemma StepKeepsFinal(s: State, step: Step, id: Id)
    requires Sound(s) && Enabled(s, step) && id in s.events && Final(s.events[id])
    ensures var s' := Next(s, step);
            id in s'.events && s'.events[id] == s.events[id] && s'.Dispatches(id) == s.Dispatches(id)
  {
  }

  lemma {:induction false} RunKeepsFinal(s: State, steps: seq<Step>, id: Id)
    requires Sound(s) && id in s.events && Final(s.events[id])
    ensures var s' := Exec(s, steps);
            id in s'.events && s'.events[id] == s.events[id] && s'.Dispatches(id) == s.Dispatches(id)
    decreases |steps|
  {
    hide Sound, Next, Enabled;
    if steps != [] {
      if Enabled(s, steps[0]) {
        StepSound(s, steps[0]);
        StepKeepsFinal(s, steps[0], id);
        RunKeepsFinal(Next(s, steps[0]), steps[1..], id);
      } else {
        RunKeepsFinal(s, steps[1..], id);
      }
    }
  }

  /** Once processed or dead, an event is never changed and never dispatched again. */
  lemma {:induction false} FinalForEver(before: seq<Step>, after: seq<Step>, id: Id)
    ensures var s := Exec(Init(), before);
            var s' := Exec(s, after);
            id in s.events && Final(s.events[id]) ==>
              id in s'.events && s'.events[id] == s.events[id] && s'.Dispatches(id) == s.Dispatches(id)
  {
    var s := Exec(Init(), before);
    RunSound(Init(), before);
    if id in s.events && Final(s.events[id]) {
      RunKeepsFinal(s, after, id);
    }
  }

  // ---------------------------------------------------------------------------
  // Retries are paid for
  // ---------------------------------------------------------------------------

  /** Each failed delivery brings four more attempts; each retry spends at least one. */
  ghost predicate Paid(s: State) {
    |Chances(s.events)| + s.retries <= (MAX_ATTEMPTS - 1) * s.failures
  }

  lemma StepPaid(s: State, step: Step)
    requires Sound(s) && Paid(s) && Enabled(s, step)
    ensures Paid(Next(s, step))
  {
    match step
    case Receive(id, parses, at) => ReplaceChances(s.events, id, WebhookEvent(Pending, 0, parses, at));
    case Handle(id, ok) => HandlePaid(s, id, ok);
    case List(_, _) =>
    case Retry(ok) =>
      var id := s.queue[0].id;
      assert AttemptsInRange(s.events);
      assert id in FailedIds(s.events);
      RetryCosts(s.events, id, ok);
  }

  lemma HandlePaid(s: State, id: Id, ok: bool)
    requires HandlingPending(s) && Paid(s) && id in s.handling
    ensures Paid(Next(s, Handle(id, ok)))
  {
    var s' := Next(s, Handle(id, ok));
    hide Chances;
    ReplaceChances(s.events, id, s'.events[id]);
    assert s'.events == s.events[id := s'.events[id]];
  }

  lemma {:induction false} RunPaid(s: State, steps: seq<Step>)
    requires Sound(s) && Paid(s)
    ensures Paid(Exec(s, steps))
    decreases |steps|
  {
    hide Sound, Paid, Next, Enabled;
    if steps != [] {
      if Enabled(s, steps[0]) {
        StepSound(s, steps[0]);
        StepPaid(s, steps[0]);
        RunPaid(Next(s, steps[0]), steps[1..]);
      } else {
        RunPaid(s, steps[1..]);
      }
    }
  }

  /**
   On every run the retries made so far, with the attempts that failed events still have,
   never exceed four per failed delivery.
   */
  lemma {:induction false} RetriesBoundedByFailures(steps: seq<Step>)
    ensures var s := Exec(Init(), steps);
            |Chances(s.events)| + s.retries <= 4 * s.failures
  {
    assert Chances(Init().events) == {};
    RunPaid(Init(), steps);
  }
}
