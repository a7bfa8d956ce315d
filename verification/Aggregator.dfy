/**
  The timing aggregator (timing/aggregator.cc), step by step: threads recording samples into queues
  of their own, threads exiting, and the writer draining every queue until told to stop, then
  once more. `output` is the lines written; `recorded`, a producer's `queued` and
  `quietAtStop` are history: the Record calls that found it running, what was successfully queued,
  and whether no thread was inside Record when the stop was requested.
 */
module Aggregator {
  type ThreadId = nat
  type Sample = int

  const QUEUE_CAPACITY: nat := 0x1_0000

  /** Reading retirement before draining is the code's order; the other shows why. */
  datatype Order = RetiredFirst | DrainFirst

  datatype Producer = Producer(queue: seq<Sample>, retired: bool, registered: bool, queued: seq<Sample>, written: seq<Sample>)

  /**
    The writer's place in its loop. `stopping` is what its stop read said. Within a pass, with
    the lock held, `todo` are the producers still to visit and `visited` the one being visited,
    whose retirement and number of queued samples (`taken`) it reads one after the other.
   */
  datatype Writer =
    | AtStop
    | BeforePass(stopping: bool)
    | InPass(stopping: bool, todo: set<ThreadId>)
    | Visiting(stopping: bool, todo: set<ThreadId>, visited: ThreadId, retired: bool)
    | Consuming(stopping: bool, todo: set<ThreadId>, visited: ThreadId, retired: bool, taken: nat)
    | Drained(stopping: bool, todo: set<ThreadId>, visited: ThreadId)
    | Finished(reported: nat)

  datatype State = State(
    order: Order, running: bool, stop: bool, quietAtStop: bool, recording: map<ThreadId, Sample>,
    producers: map<ThreadId, Producer>, writer: Writer, dropped: nat, recorded: nat, output: nat)

  function Start(order: Order): State { State(order, true, false, false, map[], map[], AtStop, 0, 0, 0) }

  datatype Step =
    | BeginRecord(id: ThreadId, sample: Sample)
    | Register(id: ThreadId)
    | Push(id: ThreadId)
    | Exit(id: ThreadId)
    | StopRunning
    | RequestStop
    | ReadStop
    | Lock
    | Visit(id: ThreadId)
    | Look
    | Consume
    | Leave
    | EndPass

  predicate LockIsFree(w: Writer) { w.AtStop? || w.BeforePass? || w.Finished? }

  predicate Enabled(s: State, step: Step) {
    match step
    case BeginRecord(id, _) =>
      s.running && id !in s.recording && (id in s.producers ==> !s.producers[id].retired)
    case Register(id) => id in s.recording && id !in s.producers && LockIsFree(s.writer)
    case Push(id) => id in s.recording && id in s.producers
    case Exit(id) => id in s.producers && id !in s.recording && !s.producers[id].retired
    case StopRunning => s.running
    case RequestStop => !s.running && !s.stop
    case ReadStop => s.writer.AtStop?
    case Lock => s.writer.BeforePass?
    case Visit(id) => s.writer.InPass? && id in s.writer.todo
    case Look => s.writer.Visiting? && s.writer.visited in s.producers
    case Consume =>
      s.writer.Consuming? && s.writer.visited in s.producers && s.writer.taken <= |s.producers[s.writer.visited].queue|
    case Leave => s.writer.Drained? && s.writer.visited in s.producers
    case EndPass => s.writer.InPass? && s.writer.todo == {}
  }

  function Registered(producers: map<ThreadId, Producer>): set<ThreadId> {
    set id | id in producers && producers[id].registered
  }

  /** consume_all frees the slots of everything queued when it looked, once it is done with all of it. */
  function Drain(p: Producer, taken: nat): Producer
    requires taken <= |p.queue|
  {
    p.(queue := p.queue[taken..], written := p.written + p.queue[..taken])
  }

  function PushSample(s: State, id: ThreadId): State
    requires id in s.recording && id in s.producers
  {
    var p := s.producers[id];
    var done := s.(recording := s.recording - {id});
    if |p.queue| < QUEUE_CAPACITY
    then done.(producers := s.producers[id := p.(queue := p.queue + [s.recording[id]], queued := p.queued + [s.recording[id]])])
    else done.(dropped := s.dropped + 1)
  }

  /** The predicate of std::erase_if: retirement is read, the queue drained, and the producer erased if retired. */
  function Do(s: State, step: Step): State
    requires Enabled(s, step)
  {
    match step
    case BeginRecord(id, sample) => s.(recording := s.recording[id := sample], recorded := s.recorded + 1)
    case Register(id) => s.(producers := s.producers[id := Producer([], false, true, [], [])])
    case Push(id) => PushSample(s, id)
    case Exit(id) => s.(producers := s.producers[id := s.producers[id].(retired := true)])
    case StopRunning => s.(running := false)
    case RequestStop => s.(stop := true, quietAtStop := s.recording == map[])
    case ReadStop => s.(writer := BeforePass(s.stop))
    case Lock => s.(writer := InPass(s.writer.stopping, Registered(s.producers)))
    case Visit(id) =>
      s.(writer := Visiting(s.writer.stopping, s.writer.todo - {id}, id,
                            s.order.RetiredFirst? && id in s.producers && s.producers[id].retired))
    case Look =>
      s.(writer := Consuming(s.writer.stopping, s.writer.todo, s.writer.visited, s.writer.retired,
                             |s.producers[s.writer.visited].queue|))
    case Consume =>
      var p := s.producers[s.writer.visited];
      var stays := p.registered && !(s.order.RetiredFirst? && s.writer.retired);
      s.(producers := s.producers[s.writer.visited := Drain(p, s.writer.taken).(registered := stays)],
         output := s.output + s.writer.taken,
         writer := Drained(s.writer.stopping, s.writer.todo, s.writer.visited))
    case Leave =>
      var p := s.producers[s.writer.visited];
      s.(producers := s.producers[s.writer.visited := p.(registered := p.registered && !(s.order.DrainFirst? && p.retired))],
         writer := InPass(s.writer.stopping, s.writer.todo))
    case EndPass => s.(writer := if s.writer.stopping then Finished(s.dropped) else AtStop)
  }

  ghost predicate IsRun(order: Order, states: seq<State>, steps: seq<Step>) {
    && |states| == |steps| + 1 && states[0] == Start(order)
    && forall i :: 0 <= i < |steps| ==> Enabled(states[i], steps[i]) && states[i + 1] == Do(states[i], steps[i])
  }

  // ----- Counting what is queued ----------------------------------------------------

  ghost function Total(producers: map<ThreadId, Producer>, ids: set<ThreadId>): nat
    requires ids <= producers.Keys
  {
    if ids == {} then 0
    else
      var id :| id in ids;
      |producers[id].queue| + Total(producers, ids - {id})
  }

  lemma {:induction false} TotalSplits(producers: map<ThreadId, Producer>, ids: set<ThreadId>, id: ThreadId)
    requires ids <= producers.Keys && id in ids
    ensures Total(producers, ids) == |producers[id].queue| + Total(producers, ids - {id})
  {
    var first :| first in ids && Total(producers, ids) == |producers[first].queue| + Total(producers, ids - {first});
    if first != id {
      TotalSplits(producers, ids - {first}, id);
      TotalSplits(producers, ids - {id}, first);
      assert ids - {first} - {id} == ids - {id} - {first};
    }
  }

  lemma {:induction false} TotalIgnoresOthers(before: map<ThreadId, Producer>, after: map<ThreadId, Producer>, ids: set<ThreadId>)
    requires ids <= before.Keys && ids <= after.Keys
    requires forall id :: id in ids ==> before[id].queue == after[id].queue
    ensures Total(before, ids) == Total(after, ids)
  {
    if ids != {} {
      var id :| id in ids;
      TotalIgnoresOthers(before, after, ids - {id});
      TotalSplits(before, ids, id);
      TotalSplits(after, ids, id);
    }
  }

  ghost function Queued(producers: map<ThreadId, Producer>): nat { Total(producers, producers.Keys) }

  lemma QueuedUpdates(producers: map<ThreadId, Producer>, id: ThreadId, p: Producer)
    ensures Queued(producers[id := p]) + (if id in producers then |producers[id].queue| else 0) == Queued(producers) + |p.queue|
  {
    var after := producers[id := p];
    TotalSplits(after, after.Keys, id);
    TotalIgnoresOthers(producers, after, producers.Keys - {id});
    assert after.Keys - {id} == producers.Keys - {id};
    if id in producers {
      TotalSplits(producers, producers.Keys, id);
    } else {
      assert producers.Keys - {id} == producers.Keys;
    }
  }

  lemma {:induction false} EmptyQueuesTotalZero(producers: map<ThreadId, Producer>, ids: set<ThreadId>)
    requires ids <= producers.Keys && forall id :: id in ids ==> producers[id].queue == []
    ensures Total(producers, ids) == 0
  {
    if ids != {} {
      var id :| id in ids;
      EmptyQueuesTotalZero(producers, ids - {id});
      TotalSplits(producers, ids, id);
    }
  }

  // ----- The invariant --------------------------------------------------------------

  ghost predicate GoodProducer(s: State, id: ThreadId)
    requires id in s.producers
  {
    var p := s.producers[id];
    && p.written + p.queue == p.queued
    && (p.retired ==> id !in s.recording)
    && (!p.registered ==> p.retired && p.queue == [])
  }

  ghost predicate GoodWriter(s: State) {
    match s.writer
    case InPass(_, todo) => todo <= s.producers.Keys
    case Visiting(_, todo, visited, retired) =>
      todo <= s.producers.Keys && visited in s.producers && (retired ==> s.producers[visited].retired)
    case Consuming(_, todo, visited, retired, taken) =>
      && todo <= s.producers.Keys && visited in s.producers && taken <= |s.producers[visited].queue|
      && (retired ==> s.producers[visited].retired && taken == |s.producers[visited].queue|)
    case Drained(_, todo, visited) => todo <= s.producers.Keys && visited in s.producers
    case _ => true
  }

  predicate Stopping(w: Writer) { !w.AtStop? && !w.Finished? && w.stopping }

  predicate BeingVisited(w: Writer, id: ThreadId) { (w.Visiting? || w.Consuming?) && id == w.visited }

  /** In the last pass of a quiet stop, whatever was visited is empty for good. */
  ghost predicate LastPass(s: State) {
    && (Stopping(s.writer) || s.writer.Finished? ==> s.stop)
    && (s.stop ==> !s.running)
    && (s.quietAtStop ==> s.stop && s.recording == map[])
    && (s.quietAtStop && Stopping(s.writer) && !s.writer.BeforePass? ==>
         forall id :: id in s.producers && id !in s.writer.todo && !BeingVisited(s.writer, id) ==>
           s.producers[id].queue == [])
    && (s.quietAtStop && Stopping(s.writer) && s.writer.Consuming? && s.writer.visited in s.producers ==>
         s.writer.taken == |s.producers[s.writer.visited].queue|)
    && (s.quietAtStop && s.writer.Finished? ==>
         s.writer.reported == s.dropped && forall id :: id in s.producers ==> s.producers[id].queue == [])
  }

  ghost predicate Invariant(s: State) {
    && s.order == RetiredFirst
    && (forall id :: id in s.producers ==> GoodProducer(s, id))
    && GoodWriter(s)
    && LastPass(s)
    && s.output + Queued(s.producers) + s.dropped + |s.recording| == s.recorded
  }

  lemma CountsStay(s: State, step: Step)
    requires Invariant(s) && Enabled(s, step)
    ensures var t := Do(s, step); t.output + Queued(t.producers) + t.dropped + |t.recording| == t.recorded
  {
    match step
    case Register(id) => QueuedUpdates(s.producers, id, Producer([], false, true, [], []));
    case Push(id) => PushCounts(s, id);
    case Exit(id) => QueuedUpdates(s.producers, id, s.producers[id].(retired := true));
    case Consume => QueuedUpdates(s.producers, s.writer.visited, Do(s, step).producers[s.writer.visited]);
    case Leave => QueuedUpdates(s.producers, s.writer.visited, Do(s, step).producers[s.writer.visited]);
    case _ =>
  }

  lemma PushCounts(s: State, id: ThreadId)
    requires id in s.recording && id in s.producers
    ensures var t := PushSample(s, id);
      Queued(t.producers) + t.dropped + |t.recording| == Queued(s.producers) + s.dropped + |s.recording|
  {
    var t := PushSample(s, id);
    assert t.recording.Keys == s.recording.Keys - {id};
    assert |t.recording| == |t.recording.Keys| && |s.recording| == |s.recording.Keys|;
    QueuedUpdates(s.producers, id, t.producers[id]);
    assert t.producers == s.producers[id := t.producers[id]];
  }

  lemma ConsumedStaysGood(s: State)
    requires Invariant(s) && Enabled(s, Consume)
    ensures GoodProducer(Do(s, Consume), s.writer.visited)
  {
    var p := s.producers[s.writer.visited];
    assert GoodProducer(s, s.writer.visited);
    assert p.queue[..s.writer.taken] + p.queue[s.writer.taken..] == p.queue;
  }

  lemma ProducerStaysGood(s: State, step: Step, id: ThreadId)
    requires Invariant(s) && Enabled(s, step) && id in Do(s, step).producers
    ensures GoodProducer(Do(s, step), id)
  {
    if step.Consume? && id == s.writer.visited {
      ConsumedStaysGood(s);
    } else if id in s.producers {
      assert GoodProducer(s, id);
    }
  }

  lemma ProducersStayGood(s: State, step: Step)
    requires Invariant(s) && Enabled(s, step)
    ensures forall id :: id in Do(s, step).producers ==> GoodProducer(Do(s, step), id)
  {
    forall id | id in Do(s, step).producers ensures GoodProducer(Do(s, step), id) { ProducerStaysGood(s, step, id); }
  }

  lemma WriterStaysGood(s: State, step: Step)
    requires Invariant(s) && Enabled(s, step)
    ensures GoodWriter(Do(s, step))
  {
  }

  lemma LastPassStays(s: State, step: Step)
    requires Invariant(s) && Enabled(s, step)
    ensures LastPass(Do(s, step))
  {
  }

  lemma StepKeepsInvariant(s: State, step: Step)
    requires Invariant(s) && Enabled(s, step)
    ensures Invariant(Do(s, step))
  {
    CountsStay(s, step);
    ProducersStayGood(s, step);
    WriterStaysGood(s, step);
    LastPassStays(s, step);
  }

  lemma {:induction false} RunsKeepInvariant(states: seq<State>, steps: seq<Step>)
    requires IsRun(RetiredFirst, states, steps)
    ensures Invariant(states[|steps|])
  {
    if steps != [] {
      var n := |steps| - 1;
      assert IsRun(RetiredFirst, states[..n + 1], steps[..n]);
      RunsKeepInvariant(states[..n + 1], steps[..n]);
      StepKeepsInvariant(states[n], steps[n]);
    }
  }

  /**
    In every interleaving each thread's samples are written in the order it recorded them, once each,
    with those not yet written still in its queue; and a producer is erased only once its thread
    has exited and its queue is empty.
   */
  lemma NoSampleIsLost(states: seq<State>, steps: seq<Step>, id: ThreadId)
    requires IsRun(RetiredFirst, states, steps) && id in states[|steps|].producers
    ensures var p := states[|steps|].producers[id];
      && p.written + p.queue == p.queued
      && (!p.registered ==> p.retired && p.written == p.queued)
  {
    RunsKeepInvariant(states, steps);
    assert GoodProducer(states[|steps|], id);
  }

  /** If no thread was inside Record when the stop was requested, the file accounts for every sample recorded. */
  lemma QuietStopAccountsForAll(states: seq<State>, steps: seq<Step>)
    requires IsRun(RetiredFirst, states, steps)
    requires states[|steps|].writer.Finished? && states[|steps|].quietAtStop
    ensures var s := states[|steps|];
      && s.output + s.writer.reported == s.recorded
      && forall id :: id in s.producers ==> s.producers[id].written == s.producers[id].queued
  {
    RunsKeepInvariant(states, steps);
    var s := states[|steps|];
    EmptyQueuesTotalZero(s.producers, s.producers.Keys);
    forall id | id in s.producers ensures s.producers[id].written == s.producers[id].queued {
      assert GoodProducer(s, id);
    }
  }

  // ----- What is queued, and what gets written --------------------------------------

  /** A Record finds room. */
  predicate Queues(s: State, step: Step, id: ThreadId) {
    step == Push(id) && id in s.recording && id in s.producers && |s.producers[id].queue| < QUEUE_CAPACITY
  }

  /** A Record finds its thread's queue full. */
  predicate Drops(s: State, step: Step) {
    step.Push? && step.id in s.producers && |s.producers[step.id].queue| >= QUEUE_CAPACITY
  }

  function QueuedOver(states: seq<State>, steps: seq<Step>, id: ThreadId): seq<Sample>
    requires |states| == |steps| + 1
  {
    if steps == [] then []
    else
      var n := |steps| - 1;
      QueuedOver(states[..n + 1], steps[..n], id) + if Queues(states[n], steps[n], id) then [states[n].recording[id]] else []
  }

  function DropsOver(states: seq<State>, steps: seq<Step>): nat
    requires |states| == |steps| + 1
  {
    if steps == [] then 0
    else
      var n := |steps| - 1;
      DropsOver(states[..n + 1], steps[..n]) + if Drops(states[n], steps[n]) then 1 else 0
  }

  function QueuedBy(s: State, id: ThreadId): seq<Sample> { if id in s.producers then s.producers[id].queued else [] }

  lemma StepQueues(s: State, step: Step, id: ThreadId)
    requires Invariant(s) && Enabled(s, step)
    ensures var t := Do(s, step);
      && QueuedBy(t, id) == QueuedBy(s, id) + (if Queues(s, step, id) then [s.recording[id]] else [])
      && t.dropped == s.dropped + (if Drops(s, step) then 1 else 0)
  {
    assert QueuedBy(s, id) + [] == QueuedBy(s, id);
  }

  /** In every interleaving a sample recorded is queued, in order, unless its thread's queue is full; those are counted. */
  lemma {:induction false} OnlyFullQueuesDrop(states: seq<State>, steps: seq<Step>, id: ThreadId)
    requires IsRun(RetiredFirst, states, steps)
    ensures QueuedBy(states[|steps|], id) == QueuedOver(states, steps, id)
    ensures states[|steps|].dropped == DropsOver(states, steps)
  {
    if steps != [] {
      var n := |steps| - 1;
      assert IsRun(RetiredFirst, states[..n + 1], steps[..n]);
      OnlyFullQueuesDrop(states[..n + 1], steps[..n], id);
      RunsKeepInvariant(states[..n + 1], steps[..n]);
      StepQueues(states[n], steps[n], id);
    }
  }

  ghost predicate Leads(s: State, steps: seq<Step>, t: State)
    decreases |steps|
  {
    if steps == [] then t == s else Enabled(s, steps[0]) && Leads(Do(s, steps[0]), steps[1..], t)
  }

  lemma {:induction false} LeadOn(s: State, steps: seq<Step>, k: State, more: seq<Step>, t: State)
    requires Leads(s, steps, k) && Leads(k, more, t)
    ensures Leads(s, steps + more, t)
    decreases |steps|
  {
    if steps == [] {
      assert steps + more == more;
    } else {
      assert (steps + more)[1..] == steps[1..] + more;
      LeadOn(Do(s, steps[0]), steps[1..], k, more, t);
    }
  }

  lemma TwoLead(s: State, first: Step, second: Step)
    requires Enabled(s, first) && Enabled(Do(s, first), second)
    ensures Leads(s, [first, second], Do(Do(s, first), second))
  {
    var k := Do(s, first);
    assert [first, second][1..] == [second] && [second][1..] == [];
    assert Leads(k, [second], Do(k, second));
  }

  lemma VisitLooks(s: State, id: ThreadId) returns (t: State, retired: bool)
    requires Invariant(s) && s.writer.InPass? && id in s.writer.todo
    ensures id in s.producers && Leads(s, [Visit(id), Look], t) && Invariant(t)
    ensures t == s.(writer := Consuming(s.writer.stopping, s.writer.todo - {id}, id, retired, |s.producers[id].queue|))
  {
    retired := s.producers[id].retired;
    TwoLead(s, Visit(id), Look);
    StepKeepsInvariant(s, Visit(id));
    t := Do(Do(s, Visit(id)), Look);
    StepKeepsInvariant(Do(s, Visit(id)), Look);
  }

  /** The producer may have left the list; it was drained, and had nothing else changed. */
  predicate Written(p: Producer, q: Producer) { q.queue == [] && q.queued == p.queued && q.retired == p.retired }

  lemma ConsumeWrites(s: State, id: ThreadId)
    requires s.writer.Consuming? && s.writer.visited == id && id in s.producers && s.writer.taken == |s.producers[id].queue|
    ensures var t := Do(s, Consume);
      && id in t.producers && t.producers == s.producers[id := t.producers[id]] && Written(s.producers[id], t.producers[id])
      && t.writer == Drained(s.writer.stopping, s.writer.todo, id) && t.dropped == s.dropped
  {
  }

  lemma LeaveWrites(s: State, id: ThreadId)
    requires s.writer.Drained? && s.writer.visited == id && id in s.producers && s.producers[id].queue == []
    ensures var t := Do(s, Leave);
      && id in t.producers && t.producers == s.producers[id := t.producers[id]] && Written(s.producers[id], t.producers[id])
      && t.writer == InPass(s.writer.stopping, s.writer.todo) && t.dropped == s.dropped
  {
  }

  lemma LookWrites(s: State, id: ThreadId) returns (t: State)
    requires Invariant(s) && s.writer.Consuming? && s.writer.visited == id && id in s.producers
    requires s.writer.taken == |s.producers[id].queue|
    ensures Leads(s, [Consume, Leave], t) && Invariant(t)
    ensures id in t.producers && t.producers == s.producers[id := t.producers[id]]
    ensures Written(s.producers[id], t.producers[id])
    ensures t.writer == InPass(s.writer.stopping, s.writer.todo) && t.dropped == s.dropped
  {
    var k := Do(s, Consume);
    StepKeepsInvariant(s, Consume);
    ConsumeWrites(s, id);
    TwoLead(s, Consume, Leave);
    t := Do(k, Leave);
    StepKeepsInvariant(k, Leave);
    LeaveWrites(k, id);
  }

  /** The writer's visit to one producer: everything in its queue is written. */
  lemma VisitWrites(s: State, id: ThreadId) returns (steps: seq<Step>, t: State)
    requires Invariant(s) && s.writer.InPass? && id in s.writer.todo
    ensures Leads(s, steps, t) && Invariant(t)
    ensures id in s.producers && id in t.producers && t.producers == s.producers[id := t.producers[id]]
    ensures Written(s.producers[id], t.producers[id])
    ensures t.writer == InPass(s.writer.stopping, s.writer.todo - {id}) && t.dropped == s.dropped
  {
    var seen, _ := VisitLooks(s, id);
    t := LookWrites(seen, id);
    LeadOn(s, [Visit(id), Look], seen, [Consume, Leave], t);
    steps := [Visit(id), Look] + [Consume, Leave];
  }

  /** Of the same threads, those in `todo` have nothing queued left, nor have those that had nothing before. */
  predicate Flushed(before: map<ThreadId, Producer>, after: map<ThreadId, Producer>, todo: set<ThreadId>) {
    && after.Keys == before.Keys
    && forall id :: id in before ==>
         && after[id].queued == before[id].queued
         && (id in todo || before[id].queue == [] ==> after[id].queue == [])
  }

  lemma FlushedOn(before: map<ThreadId, Producer>, mid: map<ThreadId, Producer>, after: map<ThreadId, Producer>,
                  id: ThreadId, todo: set<ThreadId>)
    requires id in before && id in mid && mid == before[id := mid[id]] && Written(before[id], mid[id])
    requires id in todo && Flushed(mid, after, todo - {id})
    ensures Flushed(before, after, todo)
  {
    assert mid.Keys == before.Keys;
  }

  /** A whole pass, if no thread acts meanwhile, writes all that is queued. */
  lemma {:induction false} PassWrites(s: State) returns (steps: seq<Step>, t: State)
    requires Invariant(s) && s.writer.InPass?
    ensures Leads(s, steps, t) && Invariant(t) && t.writer == InPass(s.writer.stopping, {})
    ensures t.dropped == s.dropped && Flushed(s.producers, t.producers, s.writer.todo)
    decreases s.writer.todo
  {
    if s.writer.todo == {} {
      steps, t := [], s;
    } else {
      var id :| id in s.writer.todo;
      var k, more;
      steps, k := VisitWrites(s, id);
      more, t := PassWrites(k);
      LeadOn(s, steps, k, more, t);
      steps := steps + more;
      FlushedOn(s.producers, k.producers, t.producers, id, s.writer.todo);
    }
  }

  /** Once the stop is requested, the writer's own steps write everything queued, report what was dropped, and end. */
  lemma StopFinishes(s: State) returns (steps: seq<Step>, t: State)
    requires Invariant(s) && s.stop && s.writer.AtStop?
    ensures Leads(s, steps, t) && t.writer == Finished(s.dropped) && t.producers.Keys == s.producers.Keys
    ensures forall id :: id in s.producers ==> t.producers[id].written == s.producers[id].queued && t.producers[id].queue == []
  {
    var locked := Do(Do(s, ReadStop), Lock);
    TwoLead(s, ReadStop, Lock);
    StepKeepsInvariant(s, ReadStop);
    StepKeepsInvariant(Do(s, ReadStop), Lock);
    var more, passed := PassWrites(locked);
    LeadOn(s, [ReadStop, Lock], locked, more, passed);
    t := Do(passed, EndPass);
    assert Leads(t, [EndPass][1..], t);
    LeadOn(s, [ReadStop, Lock] + more, passed, [EndPass], t);
    steps := [ReadStop, Lock] + more + [EndPass];
    forall id | id in s.producers ensures t.producers[id].written == s.producers[id].queued && t.producers[id].queue == [] {
      assert GoodProducer(locked, id) && GoodProducer(passed, id);
    }
  }

  lemma Extend(order: Order, states: seq<State>, steps: seq<Step>, step: Step) returns (state: State)
    requires IsRun(order, states, steps) && Enabled(states[|steps|], step)
    ensures state == Do(states[|steps|], step) && IsRun(order, states + [state], steps + [step])
  {
    state := Do(states[|steps|], step);
  }

  lemma HalfVisited() returns (states: seq<State>, steps: seq<Step>)
    ensures IsRun(DrainFirst, states, steps)
    ensures states[|steps|] == State(DrainFirst, true, false, false, map[0 := 5],
                                     map[0 := Producer([], false, true, [], [])], Visiting(false, {}, 0, false), 0, 1, 0)
  {
    states, steps := [Start(DrainFirst)], [];
    var state := Extend(DrainFirst, states, steps, BeginRecord(0, 5));
    states, steps := states + [state], steps + [BeginRecord(0, 5)];
    state := Extend(DrainFirst, states, steps, Register(0));
    states, steps := states + [state], steps + [Register(0)];
    state := Extend(DrainFirst, states, steps, ReadStop);
    states, steps := states + [state], steps + [ReadStop];
    state := Extend(DrainFirst, states, steps, Lock);
    states, steps := states + [state], steps + [Lock];
    assert state.recording == map[0 := 5] && state.producers == map[0 := Producer([], false, true, [], [])];
    assert state.writer.todo == {0} && {0} - {0} == {};
    state := Extend(DrainFirst, states, steps, Visit(0));
    states, steps := states + [state], steps + [Visit(0)];
  }

  /** Draining before reading retirement would erase a producer that still holds a sample. */
  lemma OrderOfReadsMatters() returns (states: seq<State>, steps: seq<Step>)
    ensures IsRun(DrainFirst, states, steps)
    ensures var s := states[|steps|];
      0 in s.producers && !s.producers[0].registered && s.producers[0].queue == [5]
  {
    states, steps := HalfVisited();
    var state := Extend(DrainFirst, states, steps, Look);
    states, steps := states + [state], steps + [Look];
    state := Extend(DrainFirst, states, steps, Consume);
    states, steps := states + [state], steps + [Consume];
    state := Extend(DrainFirst, states, steps, Push(0));
    states, steps := states + [state], steps + [Push(0)];
    state := Extend(DrainFirst, states, steps, Exit(0));
    states, steps := states + [state], steps + [Exit(0)];
    state := Extend(DrainFirst, states, steps, Leave);
    states, steps := states + [state], steps + [Leave];
  }
}
