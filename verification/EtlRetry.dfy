/** The retry loop of the ETL pipeline for margin-offer events: a bounded queue, one processor,
    and failed events that wait and queue again, a bounded number of times. */
module EtlRetry {
  import opened Types

  const QUEUE_CAPACITY := 1000
  const MAX_RETRY_COUNT := 3

  /** Events are objects; a number stands for an event's identity. */
  type EventId = nat

  /** `retry` is each accepted event's retry count, `initial` what it was on arrival, `attempts` how
      often it was processed and `failures` how often that failed. */
  datatype Pipeline = Pipeline(
    queue: seq<EventId>,
    current: Option<EventId>,
    waiting: set<EventId>,
    succeeded: set<EventId>,
    exhausted: set<EventId>,
    retry: map<EventId, int>,
    initial: map<EventId, int>,
    attempts: map<EventId, int>,
    failures: map<EventId, int>,
    errorCount: int)

  const IDLE := Pipeline([], None, {}, {}, {}, map[], map[], map[], map[], 0)

  datatype Step =
    | Arrive(id: EventId, retryCount: Int32)
    | Take
    | Finish(ok: bool)
    | Requeue(id: EventId)

  predicate IsRetryable(retryCount: int) {
    retryCount < MAX_RETRY_COUNT
  }

  predicate Enabled(p: Pipeline, step: Step) {
    match step
    case Arrive(id, _) => id !in p.retry
    case Take => p.current.None? && p.queue != []
    case Finish(_) => p.current.Some? && Known(p, p.current.value)
    case Requeue(id) => id in p.waiting && |p.queue| < QUEUE_CAPACITY
  }

  predicate Known(p: Pipeline, id: EventId) {
    id in p.retry && id in p.initial && id in p.attempts && id in p.failures
  }

  function Next(p: Pipeline, step: Step): Pipeline
    requires Enabled(p, step)
  {
    match step
    case Arrive(id, n) =>
      if |p.queue| < QUEUE_CAPACITY then
        p.(queue := p.queue + [id], retry := p.retry[id := n], initial := p.initial[id := n],
           attempts := p.attempts[id := 0], failures := p.failures[id := 0])
      else p
    case Take => p.(queue := p.queue[1..], current := Some(p.queue[0]))
    case Finish(ok) => Finished(p, p.current.value, ok)
    case Requeue(id) => p.(waiting := p.waiting - {id}, queue := p.queue + [id])
  }

  /** A failure counts as an error; a retryable event waits to be queued again. */
  function Finished(p: Pipeline, id: EventId, ok: bool): Pipeline
    requires Known(p, id)
  {
    var q := p.(current := None, attempts := p.attempts[id := p.attempts[id] + 1]);
    if ok then q.(succeeded := p.succeeded + {id})
    else
      var f := q.(errorCount := p.errorCount + 1, failures := p.failures[id := p.failures[id] + 1]);
      if IsRetryable(p.retry[id]) then
        f.(retry := p.retry[id := p.retry[id] + 1], waiting := p.waiting + {id})
      else f.(exhausted := p.exhausted + {id})
  }

  ghost predicate PossibleRun(p: Pipeline, steps: seq<Step>)
    decreases |steps|
  {
    steps == [] || (Enabled(p, steps[0]) && PossibleRun(Next(p, steps[0]), steps[1..]))
  }

  ghost function Run(p: Pipeline, steps: seq<Step>): Pipeline
    requires PossibleRun(p, steps)
    decreases |steps|
  {
    if steps == [] then p else Run(Next(p, steps[0]), steps[1..])
  }

  // Sums over maps

  ghost function Sum(m: map<EventId, int>): int
    decreases |m|
  {
    if m == map[] then 0
    else
      var id :| id in m;
      SmallerMap(m, id);
      m[id] + Sum(m - {id})
  }

  lemma SmallerMap(m: map<EventId, int>, id: EventId)
    requires id in m
    ensures |m - {id}| < |m|
  {
    assert (m - {id}).Keys == m.Keys - {id};
    assert |m - {id}| == |(m - {id}).Keys| && |m| == |m.Keys|;
  }

  lemma {:induction false} SumPicks(m: map<EventId, int>, x: EventId)
    requires x in m
    ensures Sum(m) == m[x] + Sum(m - {x})
    decreases |m|
  {
    var id :| id in m && Sum(m) == m[id] + Sum(m - {id});
    if id != x {
      SmallerMap(m, id);
      SmallerMap(m, x);
      SumPicks(m - {id}, x);
      SumPicks(m - {x}, id);
      assert m - {id} - {x} == m - {x} - {id};
    }
  }

  lemma SumUpdate(m: map<EventId, int>, x: EventId, v: int)
    ensures Sum(m[x := v]) == Sum(m) - (if x in m then m[x] else 0) + v
  {
    SumPicks(m[x := v], x);
    assert m[x := v] - {x} == m - {x};
    if x in m {
      SumPicks(m, x);
    } else {
      assert m - {x} == m;
    }
  }

  lemma {:induction false} SumNonNegative(m: map<EventId, int>)
    requires forall id :: id in m ==> m[id] >= 0
    ensures Sum(m) >= 0
    decreases |m|
  {
    if m != map[] {
      var id :| id in m;
      SumPicks(m, id);
      SmallerMap(m, id);
      SumNonNegative(m - {id});
    }
  }

  // Conservation

  datatype Place = Queued | Processing | Waiting | Succeeded | Exhausted

  /** Where an event is, looked for in this order. */
  function PlaceAt(p: Pipeline, id: EventId): Place {
    if id in p.queue then Queued
    else if p.current == Some(id) then Processing
    else if id in p.waiting then Waiting
    else if id in p.succeeded then Succeeded
    else Exhausted
  }

  /** The event is in this place and in no other. */
  ghost predicate OnlyAt(p: Pipeline, id: EventId, place: Place) {
    && (id in p.queue <==> place.Queued?)
    && (p.current == Some(id) <==> place.Processing?)
    && (id in p.waiting <==> place.Waiting?)
    && (id in p.succeeded <==> place.Succeeded?)
    && (id in p.exhausted <==> place.Exhausted?)
  }

  ghost predicate Anywhere(p: Pipeline, id: EventId) {
    id in p.queue || p.current == Some(id) || id in p.waiting || id in p.succeeded || id in p.exhausted
  }

  ghost predicate SamePlaces(p: Pipeline, p': Pipeline, id: EventId) {
    && (id in p'.queue <==> id in p.queue)
    && (p'.current == Some(id) <==> p.current == Some(id))
    && (id in p'.waiting <==> id in p.waiting)
    && (id in p'.succeeded <==> id in p.succeeded)
    && (id in p'.exhausted <==> id in p.exhausted)
  }

  function Max(a: int, b: int): int { if a < b then b else a }

  function MaxAttempts(initial: int): int {
    if initial < 3 then 4 - initial else 1
  }

  /** What an event's counters say in each place. */
  ghost predicate Counted(p: Pipeline, id: EventId, place: Place)
    requires Known(p, id)
  {
    var tries := p.retry[id] - p.initial[id];
    && 0 <= tries <= Max(0, MAX_RETRY_COUNT - p.initial[id])
    && match place
       case Succeeded => p.attempts[id] == tries + 1 && p.failures[id] == tries
       case Exhausted => p.attempts[id] == p.failures[id] == tries + 1 && !IsRetryable(p.retry[id])
       case _ => p.attempts[id] == p.failures[id] == tries
  }

  ghost predicate InPlace(p: Pipeline, id: EventId) {
    Known(p, id) && OnlyAt(p, id, PlaceAt(p, id)) && Counted(p, id, PlaceAt(p, id))
  }

  ghost predicate NoRepeats(q: seq<EventId>) {
    forall i, j :: 0 <= i < j < |q| ==> q[i] != q[j]
  }

  ghost predicate Inv(p: Pipeline) {
    && p.retry.Keys == p.initial.Keys == p.attempts.Keys == p.failures.Keys
    && |p.queue| <= QUEUE_CAPACITY && NoRepeats(p.queue)
    && (forall id :: Anywhere(p, id) ==> id in p.retry)
    && (forall id :: id in p.retry ==> InPlace(p, id))
    && p.errorCount == Sum(p.failures)
  }

  /** A step that moves one event and leaves the counters of all others alone. */
  ghost predicate MovesOnly(p: Pipeline, p': Pipeline, id: EventId) {
    && p'.retry.Keys == p.retry.Keys + {id} && p'.initial.Keys == p.initial.Keys + {id}
    && p'.attempts.Keys == p.attempts.Keys + {id} && p'.failures.Keys == p.failures.Keys + {id}
    && (forall x :: x != id ==> SamePlaces(p, p', x))
    && forall x :: x in p.retry && x != id && Known(p, x) ==>
         p'.retry[x] == p.retry[x] && p'.initial[x] == p.initial[x]
         && p'.attempts[x] == p.attempts[x] && p'.failures[x] == p.failures[x]
  }

  lemma OthersStay(p: Pipeline, p': Pipeline, id: EventId, x: EventId)
    requires InPlace(p, x) && MovesOnly(p, p', id) && x != id
    ensures InPlace(p', x)
  {
    assert SamePlaces(p, p', x);
    assert PlaceAt(p', x) == PlaceAt(p, x);
  }

  lemma MoveKeepsInv(p: Pipeline, p': Pipeline, id: EventId, place: Place)
    requires Inv(p) && MovesOnly(p, p', id)
    requires OnlyAt(p', id, place) && Known(p', id) && Counted(p', id, place)
    requires |p'.queue| <= QUEUE_CAPACITY && NoRepeats(p'.queue)
    requires p'.errorCount == Sum(p'.failures)
    ensures Inv(p')
  {
    forall x | x in p'.retry ensures InPlace(p', x) {
      if x != id {
        OthersStay(p, p', id, x);
      }
    }
    forall x | Anywhere(p', x) ensures x in p'.retry {
      if x != id {
        assert SamePlaces(p, p', x) && Anywhere(p, x);
      }
    }
  }

  lemma ArriveKeepsInv(p: Pipeline, id: EventId, n: Int32)
    requires Inv(p) && Enabled(p, Arrive(id, n))
    ensures Inv(Next(p, Arrive(id, n)))
  {
    var p' := Next(p, Arrive(id, n));
    if |p.queue| < QUEUE_CAPACITY {
      assert !Anywhere(p, id);
      SumUpdate(p.failures, id, 0);
      MoveKeepsInv(p, p', id, Queued);
    }
  }

  lemma TakeKeepsInv(p: Pipeline)
    requires Inv(p) && Enabled(p, Take)
    ensures Inv(Next(p, Take))
  {
    var id, p' := p.queue[0], Next(p, Take);
    assert p.queue == [id] + p'.queue && id in p.queue;
    assert Anywhere(p, id) && InPlace(p, id);
    assert id !in p'.queue;
    MoveKeepsInv(p, p', id, Processing);
  }

  lemma RequeueKeepsInv(p: Pipeline, id: EventId)
    requires Inv(p) && Enabled(p, Requeue(id))
    ensures Inv(Next(p, Requeue(id)))
  {
    assert Anywhere(p, id) && InPlace(p, id);
    MoveKeepsInv(p, Next(p, Requeue(id)), id, Queued);
  }

  lemma FinishKeepsInv(p: Pipeline, ok: bool)
    requires Inv(p) && Enabled(p, Finish(ok))
    ensures Inv(Next(p, Finish(ok)))
  {
    var id := p.current.value;
    var p' := Finished(p, id, ok);
    assert Anywhere(p, id) && InPlace(p, id);
    SumUpdate(p.failures, id, p.failures[id] + 1);
    FinishMoves(p, id, ok);
    MoveKeepsInv(p, p', id, if ok then Succeeded else if IsRetryable(p.retry[id]) then Waiting else Exhausted);
  }

  lemma FinishMoves(p: Pipeline, id: EventId, ok: bool)
    requires InPlace(p, id) && p.current == Some(id)
    ensures MovesOnly(p, Finished(p, id, ok), id)
    ensures var place := if ok then Succeeded else if IsRetryable(p.retry[id]) then Waiting else Exhausted;
            var p' := Finished(p, id, ok);
            Known(p', id) && OnlyAt(p', id, place) && Counted(p', id, place)
  {
  }

  lemma StepKeepsInv(p: Pipeline, step: Step)
    requires Inv(p) && Enabled(p, step)
    ensures Inv(Next(p, step))
  {
    match step
    case Arrive(id, n) => ArriveKeepsInv(p, id, n);
    case Take => TakeKeepsInv(p);
    case Finish(ok) => FinishKeepsInv(p, ok);
    case Requeue(id) => RequeueKeepsInv(p, id);
  }

  lemma {:induction false} RunKeepsInv(p: Pipeline, steps: seq<Step>)
    requires Inv(p) && PossibleRun(p, steps)
    ensures Inv(Run(p, steps))
    decreases |steps|
  {
    if steps != [] {
      StepKeepsInv(p, steps[0]);
      RunKeepsInv(Next(p, steps[0]), steps[1..]);
    }
  }

  /** Under every interleaving: each accepted event is in exactly one place; it is attempted at most
      four times less its initial retry count (once, if that was already three), and exactly that
      often if it is given up; and the error counter is the sum of the failed attempts. */
  lemma RetryConservation(steps: seq<Step>, id: EventId)
    requires PossibleRun(IDLE, steps) && id in Run(IDLE, steps).retry
    ensures var p := Run(IDLE, steps);
            && Known(p, id)
            && OnlyAt(p, id, PlaceAt(p, id))
            && 0 <= p.failures[id] <= p.attempts[id] <= MaxAttempts(p.initial[id])
            && (id in p.exhausted ==> p.attempts[id] == p.failures[id] == MaxAttempts(p.initial[id]))
            && (id in p.succeeded ==> p.attempts[id] == p.failures[id] + 1)
            && p.errorCount == Sum(p.failures)
  {
    RunKeepsInv(IDLE, steps);
    var p := Run(IDLE, steps);
    assert InPlace(p, id);
  }

  // Draining

  /** How many steps an event can still take part in. */
  function Weight(p: Pipeline, id: EventId): int
    requires id in p.retry
  {
    var left := Max(0, MAX_RETRY_COUNT - p.retry[id]);
    if id in p.waiting then 3 * left + 3
    else if id in p.queue then 3 * left + 2
    else if p.current == Some(id) then 3 * left + 1
    else 0
  }

  function Weights(p: Pipeline): map<EventId, int> {
    map id | id in p.retry :: Weight(p, id)
  }

  ghost function Measure(p: Pipeline): int {
    Sum(Weights(p))
  }

  lemma MeasureDropsBy(p: Pipeline, p': Pipeline, id: EventId)
    requires id in p.retry && p'.retry.Keys == p.retry.Keys
    requires forall x :: x in p.retry && x != id ==> Weight(p', x) == Weight(p, x)
    ensures Measure(p') == Measure(p) - Weight(p, id) + Weight(p', id)
  {
    SumUpdate(Weights(p), id, Weight(p', id));
    assert Weights(p') == Weights(p)[id := Weight(p', id)];
  }

  lemma OtherWeightsStay(p: Pipeline, p': Pipeline, id: EventId)
    requires Inv(p) && MovesOnly(p, p', id)
    ensures forall x :: x in p.retry && x != id ==> x in p'.retry && Weight(p', x) == Weight(p, x)
  {
    forall x | x in p.retry && x != id ensures x in p'.retry && Weight(p', x) == Weight(p, x) {
      assert InPlace(p, x) && SamePlaces(p, p', x);
    }
  }

  lemma TakeDecreases(p: Pipeline)
    requires Inv(p) && Enabled(p, Take)
    ensures Measure(Next(p, Take)) < Measure(p)
  {
    var id, p' := p.queue[0], Next(p, Take);
    assert p.queue == [id] + p'.queue && Anywhere(p, id) && InPlace(p, id);
    assert id !in p'.queue;
    MeasureDropsBy(p, p', id);
  }

  lemma FinishedWeighsLess(p: Pipeline, id: EventId, ok: bool)
    requires InPlace(p, id) && p.current == Some(id)
    ensures var p' := Finished(p, id, ok); p'.retry.Keys == p.retry.Keys && Weight(p', id) < Weight(p, id)
  {
  }

  lemma FinishDecreases(p: Pipeline, ok: bool)
    requires Inv(p) && Enabled(p, Finish(ok))
    ensures Measure(Next(p, Finish(ok))) < Measure(p)
  {
    var id := p.current.value;
    assert Anywhere(p, id) && InPlace(p, id);
    FinishMoves(p, id, ok);
    FinishedWeighsLess(p, id, ok);
    OtherWeightsStay(p, Finished(p, id, ok), id);
    MeasureDropsBy(p, Finished(p, id, ok), id);
  }

  lemma RequeueDecreases(p: Pipeline, id: EventId)
    requires Inv(p) && Enabled(p, Requeue(id))
    ensures Measure(Next(p, Requeue(id))) < Measure(p)
  {
    assert Anywhere(p, id) && InPlace(p, id);
    MeasureDropsBy(p, Next(p, Requeue(id)), id);
  }

  /** Every step other than an arrival uses up some of the work that is left. */
  lemma MeasureDecreases(p: Pipeline, step: Step)
    requires Inv(p) && Enabled(p, step) && !step.Arrive?
    ensures 0 <= Measure(Next(p, step)) < Measure(p)
  {
    SumNonNegative(Weights(Next(p, step)));
    match step
    case Take => TakeDecreases(p);
    case Finish(ok) => FinishDecreases(p, ok);
    case Requeue(id) => RequeueDecreases(p, id);
  }

  ghost predicate NoArrivals(steps: seq<Step>) {
    forall i :: 0 <= i < |steps| ==> !steps[i].Arrive?
  }

  /** Without new events the pipeline takes at most as many steps as there is work left. */
  lemma {:induction false} DrainsInTime(p: Pipeline, steps: seq<Step>)
    requires Inv(p) && PossibleRun(p, steps) && NoArrivals(steps)
    ensures |steps| <= Measure(p)
    decreases |steps|
  {
    SumNonNegative(Weights(p));
    if steps != [] {
      MeasureDecreases(p, steps[0]);
      StepKeepsInv(p, steps[0]);
      assert forall i :: 0 <= i < |steps[1..]| ==> steps[1..][i] == steps[i + 1];
      DrainsInTime(Next(p, steps[0]), steps[1..]);
    }
  }

  lemma NothingInProcess(p: Pipeline)
    requires Inv(p) && !Enabled(p, Finish(true))
    ensures p.current.None?
  {
    if p.current.Some? {
      CurrentKnown(p);
    }
  }

  lemma CurrentKnown(p: Pipeline)
    requires Inv(p) && p.current.Some?
    ensures Known(p, p.current.value)
  {
    assert Anywhere(p, p.current.value) && InPlace(p, p.current.value);
  }

  /** It stops only when every accepted event has succeeded or been given up. */
  lemma StopsWhenDone(p: Pipeline)
    requires Inv(p) && forall step: Step :: Enabled(p, step) ==> step.Arrive?
    ensures forall id :: id in p.retry ==> id in p.succeeded || id in p.exhausted
  {
    assert !Enabled(p, Take) && !Enabled(p, Finish(true));
    NothingInProcess(p);
    forall id | id in p.retry ensures id in p.succeeded || id in p.exhausted {
      assert InPlace(p, id) && !Enabled(p, Requeue(id));
    }
  }

  // First in, first out

  /** What a step puts into the queue: an event that arrives while there is room, or that comes back
      after waiting. */
  function PutIn(p: Pipeline, step: Step): seq<EventId> {
    match step
    case Arrive(id, _) => if |p.queue| < QUEUE_CAPACITY then [id] else []
    case Requeue(id) => [id]
    case _ => []
  }

  /** The event that the processor takes up in a step. */
  function TakenUp(p: Pipeline, step: Step): seq<EventId>
    requires Enabled(p, step)
  {
    if step.Take? then [Next(p, step).current.value] else []
  }

  ghost function AllPutIn(p: Pipeline, steps: seq<Step>): seq<EventId>
    requires PossibleRun(p, steps)
    decreases |steps|
  {
    if steps == [] then [] else PutIn(p, steps[0]) + AllPutIn(Next(p, steps[0]), steps[1..])
  }

  ghost function AllTakenUp(p: Pipeline, steps: seq<Step>): seq<EventId>
    requires PossibleRun(p, steps)
    decreases |steps|
  {
    if steps == [] then [] else TakenUp(p, steps[0]) + AllTakenUp(Next(p, steps[0]), steps[1..])
  }

  lemma QueueMoves(p: Pipeline, step: Step)
    requires Enabled(p, step)
    ensures p.queue + PutIn(p, step) == TakenUp(p, step) + Next(p, step).queue
  {
  }

  /** Under every interleaving events are processed in the order in which they were put into the queue;
      those not taken up yet are what the queue holds. */
  lemma {:induction false} FirstInFirstOut(p: Pipeline, steps: seq<Step>)
    requires PossibleRun(p, steps)
    ensures p.queue + AllPutIn(p, steps) == AllTakenUp(p, steps) + Run(p, steps).queue
    decreases |steps|
  {
    if steps != [] {
      var next, rest := Next(p, steps[0]), steps[1..];
      QueueMoves(p, steps[0]);
      FirstInFirstOut(next, rest);
      QueueSteps(p.queue, PutIn(p, steps[0]), TakenUp(p, steps[0]), next.queue,
                 AllPutIn(next, rest), AllTakenUp(next, rest), Run(next, rest).queue);
    }
  }
}
