/**
  The hand-off between two threads (core/spsc.h), step by step: PushBlocking on one side, Drain on the
  other, and the stop and give-up flags anyone may raise. `pushed`, `consumed`, `offered`,
  `abandoned` and `pushedAtStop` are history. `order` is the order of Drain's two reads; the code's
  is StopFirst, and the other one is here to show that it matters.
 */
module Spsc {
  datatype Order = StopFirst | AvailableFirst

  datatype Producer<T> = Ready | Pushing(value: T) | Refused(value: T)

  /** Where the consumer is in its loop; `Last` after the first of the two reads. */
  datatype Consumer = AtLoop | Last | AtConsume | Consuming | Returned | Threw

  datatype State<T> = State(
    order: Order, capacity: nat, queue: seq<T>, stop: bool, giveUp: bool, producer: Producer<T>, consumer: Consumer,
    pushed: seq<T>, consumed: seq<T>, offered: seq<T>, abandoned: nat, pushedAtStop: nat)

  function Start<T>(order: Order, capacity: nat): State<T> {
    State(order, capacity, [], false, false, Ready, AtLoop, [], [], [], 0, 0)
  }

  datatype Step<T> = Offer(value: T) | TryPush | ReadGiveUp | RequestStop | RaiseGiveUp | ReadLoop | ReadAgain | Look | Finish | Throw

  predicate Enabled<T>(s: State<T>, step: Step<T>) {
    match step
    case Offer(_) => s.producer.Ready?
    case TryPush => s.producer.Pushing?
    case ReadGiveUp => s.producer.Refused?
    case RequestStop => !s.stop
    case RaiseGiveUp => true
    case ReadLoop => s.consumer.AtLoop?
    case ReadAgain => s.consumer.Last?
    case Look => s.consumer.AtConsume?
    case Finish => s.consumer.Consuming? && s.queue != []
    case Throw => s.consumer.Consuming?
  }

  /** The loop's condition is `!stop || available`, read left to right. */
  function Do<T>(s: State<T>, step: Step<T>): State<T>
    requires Enabled(s, step)
  {
    match step
    case Offer(value) => s.(producer := Pushing(value), offered := s.offered + [value])
    case TryPush =>
      if |s.queue| < s.capacity
      then s.(queue := s.queue + [s.producer.value], pushed := s.pushed + [s.producer.value], producer := Ready)
      else s.(producer := Refused(s.producer.value))
    case ReadGiveUp =>
      if s.giveUp then s.(producer := Ready, abandoned := s.abandoned + 1) else s.(producer := Pushing(s.producer.value))
    case RequestStop => s.(stop := true, pushedAtStop := |s.pushed|)
    case RaiseGiveUp => s.(giveUp := true)
    case ReadLoop =>
      if s.order.StopFirst? then s.(consumer := if s.stop then Last else AtConsume)
      else s.(consumer := if s.queue != [] then AtConsume else Last)
    case ReadAgain =>
      if s.order.StopFirst? then s.(consumer := if s.queue != [] then AtConsume else Returned)
      else s.(consumer := if s.stop then Returned else AtConsume)
    case Look => s.(consumer := if s.queue != [] then Consuming else AtLoop)
    case Finish => s.(queue := s.queue[1..], consumed := s.consumed + [s.queue[0]], consumer := AtLoop)
    case Throw => s.(consumer := Threw)
  }

  ghost predicate IsRun<T>(order: Order, capacity: nat, states: seq<State<T>>, steps: seq<Step<T>>) {
    && |states| == |steps| + 1 && states[0] == Start(order, capacity)
    && forall i :: 0 <= i < |steps| ==> Enabled(states[i], steps[i]) && states[i + 1] == Do(states[i], steps[i])
  }

  function Pending<T>(producer: Producer<T>): seq<T> { if producer.Ready? then [] else [producer.value] }

  ghost predicate Invariant<T>(s: State<T>) {
    && s.consumed + s.queue == s.pushed
    && |s.queue| <= s.capacity
    && (s.consumer.Consuming? || s.consumer.Threw? ==> s.queue != [])
    && s.pushedAtStop <= |s.pushed|
    && (s.order.StopFirst? && (s.consumer.Last? || s.consumer.Returned?) ==> s.stop)
    && (s.order.StopFirst? && s.consumer.Returned? ==> s.pushedAtStop <= |s.consumed|)
    && (s.abandoned == 0 ==> s.offered == s.pushed + Pending(s.producer))
    && (s.abandoned > 0 ==> s.giveUp)
  }

  lemma ProducerKeepsInvariant<T>(s: State<T>, step: Step<T>)
    requires Invariant(s) && Enabled(s, step) && (step.Offer? || step.TryPush? || step.ReadGiveUp?)
    ensures Invariant(Do(s, step))
  {
    if step.TryPush? { BackIsPushed(s.consumed, s.queue, s.pushed, s.producer.value); }
  }

  lemma FinishKeepsInvariant<T>(s: State<T>)
    requires Invariant(s) && Enabled(s, Finish)
    ensures Invariant(Do(s, Finish))
  {
    FrontIsConsumed(s.consumed, s.queue, s.pushed);
  }

  lemma StepKeepsInvariant<T>(s: State<T>, step: Step<T>)
    requires Invariant(s) && Enabled(s, step)
    ensures Invariant(Do(s, step))
  {
    if step.Offer? || step.TryPush? || step.ReadGiveUp? {
      ProducerKeepsInvariant(s, step);
    } else if step.Finish? {
      FinishKeepsInvariant(s);
    }
  }

  lemma FrontIsConsumed<T>(consumed: seq<T>, queue: seq<T>, pushed: seq<T>)
    requires consumed + queue == pushed && queue != []
    ensures consumed + [queue[0]] + queue[1..] == pushed
  {
  }

  lemma BackIsPushed<T>(consumed: seq<T>, queue: seq<T>, pushed: seq<T>, value: T)
    requires consumed + queue == pushed
    ensures consumed + (queue + [value]) == pushed + [value]
  {
  }

  lemma {:induction false} RunsKeepInvariant<T>(order: Order, capacity: nat, states: seq<State<T>>, steps: seq<Step<T>>)
    requires IsRun(order, capacity, states, steps)
    ensures Invariant(states[|steps|]) && states[|steps|].order == order
  {
    if steps != [] {
      var n := |steps| - 1;
      assert IsRun(order, capacity, states[..n + 1], steps[..n]);
      RunsKeepInvariant(order, capacity, states[..n + 1], steps[..n]);
      StepKeepsInvariant(states[n], steps[n]);
    }
  }

  /** In every interleaving, what was consumed and what is queued are what was pushed, in order. */
  lemma NothingIsLostOrReordered<T>(capacity: nat, states: seq<State<T>>, steps: seq<Step<T>>)
    requires IsRun(StopFirst, capacity, states, steps)
    ensures var s := states[|steps|]; s.consumed + s.queue == s.pushed && |s.queue| <= capacity
  {
    RunsKeepInvariant(StopFirst, capacity, states, steps);
    CapacityStays(StopFirst, capacity, states, steps);
  }

  lemma {:induction false} CapacityStays<T>(order: Order, capacity: nat, states: seq<State<T>>, steps: seq<Step<T>>)
    requires IsRun(order, capacity, states, steps)
    ensures states[|steps|].capacity == capacity
  {
    if steps != [] {
      var n := |steps| - 1;
      assert IsRun(order, capacity, states[..n + 1], steps[..n]);
      CapacityStays(order, capacity, states[..n + 1], steps[..n]);
      assert states[n + 1] == Do(states[n], steps[n]);
    }
  }

  /** Drain returns only once everything pushed before the stop was consumed; with no push after it, everything. */
  lemma DrainEmpties<T>(capacity: nat, states: seq<State<T>>, steps: seq<Step<T>>)
    requires IsRun(StopFirst, capacity, states, steps) && states[|steps|].consumer.Returned?
    ensures var s := states[|steps|];
      && s.stop && s.pushedAtStop <= |s.consumed| && s.consumed <= s.pushed
      && (|s.pushed| == s.pushedAtStop ==> s.consumed == s.pushed && s.queue == [])
  {
    RunsKeepInvariant(StopFirst, capacity, states, steps);
  }

  /** PushBlocking drops a value only once told to give up; until then every value offered is pushed, in order. */
  lemma PushesUntilGivenUp<T>(capacity: nat, states: seq<State<T>>, steps: seq<Step<T>>)
    requires IsRun(StopFirst, capacity, states, steps) && !states[|steps|].giveUp
    ensures var s := states[|steps|]; s.offered == s.pushed + Pending(s.producer)
  {
    RunsKeepInvariant(StopFirst, capacity, states, steps);
  }

  /** From the state it throws in, the failing value and all pushed after it stay queued. */
  lemma {:induction false} ThrowingKeepsTheRest<T>(capacity: nat, states: seq<State<T>>, steps: seq<Step<T>>, k: nat)
    requires IsRun(StopFirst, capacity, states, steps) && k <= |steps| && states[k].consumer.Threw?
    ensures states[k].queue != [] && states[k].queue <= states[|steps|].queue
    ensures states[|steps|].consumer.Threw? && states[|steps|].consumed == states[k].consumed
    ensures states[|steps|].pushed == states[k].consumed + states[|steps|].queue
  {
    RunsKeepInvariant(StopFirst, capacity, states, steps);
    if k < |steps| {
      var n := |steps| - 1;
      assert IsRun(StopFirst, capacity, states[..n + 1], steps[..n]);
      ThrowingKeepsTheRest(capacity, states[..n + 1], steps[..n], k);
      assert states[n + 1] == Do(states[n], steps[n]);
    }
  }

  // ----- What gets done -------------------------------------------------------------

  /** The steps, each enabled in turn, lead from one state to the other. */
  ghost predicate Leads<T>(s: State<T>, steps: seq<Step<T>>, t: State<T>)
    decreases |steps|
  {
    if steps == [] then t == s else Enabled(s, steps[0]) && Leads(Do(s, steps[0]), steps[1..], t)
  }

  lemma {:induction false} LeadOn<T>(s: State<T>, steps: seq<Step<T>>, k: State<T>, more: seq<Step<T>>, t: State<T>)
    requires Leads(s, steps, k) && Leads(k, more, t)
    ensures Leads(s, steps + more, t)
    decreases |steps|
  {
    if steps == [] {
      assert steps + more == more;
    } else {
      assert (steps + more)[1..] == steps[1..] + more;
      LeadOn(Do(s, steps[0]), steps[1..], k, more, t);
    }
  }

  lemma OneLeads<T>(s: State<T>, step: Step<T>)
    requires Enabled(s, step)
    ensures Leads(s, [step], Do(s, step))
  {
    assert [step][1..] == [];
  }

  /** Drain goes on: it has neither thrown nor returned. */
  predicate Draining<T>(s: State<T>) { s.order.StopFirst? && !s.consumer.Threw? && !s.consumer.Returned? }

  /** Its next steps up to where it looks for a value. */
  lemma LooksAgain<T>(s: State<T>) returns (steps: seq<Step<T>>, t: State<T>)
    requires Draining(s) && s.queue != []
    ensures Leads(s, steps, t) && t == s.(consumer := Consuming)
  {
    steps, t := [], s;
    if t.consumer.AtLoop? {
      OneLeads(t, ReadLoop);
      steps, t := [ReadLoop], Do(t, ReadLoop);
    }
    if t.consumer.Last? {
      OneLeads(t, ReadAgain);
      LeadOn(s, steps, t, [ReadAgain], Do(t, ReadAgain));
      steps, t := steps + [ReadAgain], Do(t, ReadAgain);
    }
    if t.consumer.AtConsume? {
      OneLeads(t, Look);
      LeadOn(s, steps, t, [Look], Do(t, Look));
      steps, t := steps + [Look], Do(t, Look);
    }
  }

  /** While Drain goes on and the queue is not empty, its steps consume the front value. */
  lemma ConsumesFront<T>(s: State<T>) returns (steps: seq<Step<T>>, t: State<T>)
    requires Draining(s) && s.queue != []
    ensures Leads(s, steps, t)
    ensures t == s.(queue := s.queue[1..], consumed := s.consumed + [s.queue[0]], consumer := AtLoop)
  {
    steps, t := LooksAgain(s);
    OneLeads(t, Finish);
    LeadOn(s, steps, t, [Finish], Do(t, Finish));
    steps, t := steps + [Finish], Do(t, Finish);
  }

  /** A push fails only while the queue is full, and the consumer makes room. */
  lemma PushFinishes<T>(s: State<T>) returns (steps: seq<Step<T>>, t: State<T>)
    requires s.producer.Pushing? && Draining(s) && 0 < s.capacity && |s.queue| <= s.capacity
    ensures Leads(s, steps, t) && t.producer.Ready? && t.pushed == s.pushed + [s.producer.value]
    ensures |s.queue| < s.capacity ==> steps == [TryPush]
  {
    steps, t := [], s;
    if |s.queue| == s.capacity { steps, t := ConsumesFront(s); }
    OneLeads(t, TryPush);
    LeadOn(s, steps, t, [TryPush], Do(t, TryPush));
    steps, t := steps + [TryPush], Do(t, TryPush);
  }

  lemma ReturnsWhenEmpty<T>(s: State<T>) returns (steps: seq<Step<T>>, t: State<T>)
    requires Draining(s) && s.stop && s.queue == [] && !s.consumer.Consuming?
    ensures Leads(s, steps, t) && t == s.(consumer := Returned)
  {
    steps, t := [], s;
    if t.consumer.AtConsume? {
      OneLeads(t, Look);
      steps, t := [Look], Do(t, Look);
    }
    if t.consumer.AtLoop? {
      OneLeads(t, ReadLoop);
      LeadOn(s, steps, t, [ReadLoop], Do(t, ReadLoop));
      steps, t := steps + [ReadLoop], Do(t, ReadLoop);
    }
    OneLeads(t, ReadAgain);
    LeadOn(s, steps, t, [ReadAgain], Do(t, ReadAgain));
    steps, t := steps + [ReadAgain], Do(t, ReadAgain);
  }

  /** Once the stop is requested, Drain's own steps consume all that was pushed and return. */
  lemma {:induction false} DrainFinishes<T>(s: State<T>) returns (steps: seq<Step<T>>, t: State<T>)
    requires Invariant(s) && Draining(s) && s.stop
    ensures Leads(s, steps, t) && t.consumer.Returned? && t.consumed == s.pushed && t.queue == [] && t.pushed == s.pushed
    decreases |s.queue|
  {
    if s.queue == [] {
      steps, t := ReturnsWhenEmpty(s);
      assert s.consumed + [] == s.consumed;
    } else {
      var k, more;
      steps, k := ConsumesFront(s);
      assert s.consumed + [s.queue[0]] + s.queue[1..] == s.consumed + s.queue;
      more, t := DrainFinishes(k);
      LeadOn(s, steps, k, more, t);
      steps := steps + more;
    }
  }

  /** Reading the two the other way round loses values: one pushed between the reads, before the stop. */
  lemma OrderOfReadsMatters() returns (states: seq<State<int>>, steps: seq<Step<int>>)
    ensures IsRun(AvailableFirst, 1, states, steps)
    ensures var s := states[|steps|]; s.consumer.Returned? && s.consumed == [] && s.pushedAtStop == 1 && s.queue == [7]
  {
    steps := [ReadLoop, Offer(7), TryPush, RequestStop, ReadAgain];
    var s0: State<int> := Start(AvailableFirst, 1);
    var s1 := Do(s0, steps[0]);
    var s2 := Do(s1, steps[1]);
    var s3 := Do(s2, steps[2]);
    var s4 := Do(s3, steps[3]);
    var s5 := Do(s4, steps[4]);
    states := [s0, s1, s2, s3, s4, s5];
  }
}
