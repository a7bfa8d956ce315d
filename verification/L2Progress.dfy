/**
  What the manager does get done: every receiver is told all it is owed, and from any state with no call in
  progress a Subscribe, an Unsubscribe, a Connect and a resubscription take effect in the steps of their threads.
 */
module L2Progress {
  import opened Messages
  import opened SubscriptionIds
  import opened ParserSpec
  import opened L2Manager

  // ----- What each receiver is told -------------------------------------------------

  /** The subscription's pair has a route. */
  predicate Attached(m: Manager, receiver: ReceiverId) { receiver in m.subs.table && m.call != Unsubscribing(receiver) }

  /** What one step owes a receiver: its pair's messages, and the end of a connection. */
  function OwedBy(check: Option<ChecksumFunction>, m: Manager, step: Step, receiver: ReceiverId): seq<Event>
    requires receiver in m.parser.logs
  {
    if step.Frame? && Attached(m, receiver) && m.subs.table[receiver].symbol == step.message.symbol then
      Owed(check, m.parser.connection, m.parser.logs[receiver], step.message)
    else if (step.ConnectBegins? || step.Disconnect?) && m.link.connected && receiver in m.subs.table then
      [Gapped(Disconnected, m.parser.connection)]
    else []
  }

  /** The receiver was told `owed` and no more; if it is new, nothing yet. */
  predicate Tells(before: map<ReceiverId, Log>, after: map<ReceiverId, Log>, receiver: ReceiverId, owed: seq<Event>) {
    if receiver in before then receiver in after && after[receiver].events == before[receiver].events + owed
    else receiver in after ==> after[receiver].events == []
  }

  lemma NothingIsTold(logs: map<ReceiverId, Log>, receiver: ReceiverId)
    ensures Tells(logs, logs, receiver, [])
  {
    if receiver in logs { assert logs[receiver].events + [] == logs[receiver].events; }
  }

  /** A message tells the receiver of the pair's route, which is the table's. */
  lemma RouteIsAttached(m: Manager, symbol: string, receiver: ReceiverId)
    requires TableAgrees(m)
    ensures Attached(m, receiver) && m.subs.table[receiver].symbol == symbol
       <==> symbol in m.parser.routes && m.parser.routes[symbol].receiver == receiver
  {
  }

  lemma EmitTells(check: Option<ChecksumFunction>, p: Parser, message: Message, receiver: ReceiverId)
    requires ParserSpec.Valid(check, p) && p.running
    ensures Tells(p.logs, Emit(check, p, message).parser.logs, receiver,
                  if message.symbol in p.routes && p.routes[message.symbol].receiver == receiver && receiver in p.logs
                  then Owed(check, p.connection, p.logs[receiver], message) else [])
    ensures receiver !in p.logs ==> receiver !in Emit(check, p, message).parser.logs
  {
    EmitDelivers(check, p, message);
    NothingIsTold(p.logs, receiver);
  }

  lemma EndTells(m: Manager, receiver: ReceiverId)
    ensures Tells(m.parser.logs, L2Manager.Disconnected(m).parser.logs, receiver,
                  if m.link.connected && receiver in m.subs.table then [Gapped(Disconnected, m.parser.connection)] else [])
    ensures receiver !in m.parser.logs ==> receiver !in L2Manager.Disconnected(m).parser.logs
  {
    NothingIsTold(m.parser.logs, receiver);
  }

  lemma CommitTells(m: Manager, id: Id, precision: Precision, receiver: ReceiverId)
    requires id in m.subs.subscribers && id !in m.parser.logs
    ensures Tells(m.parser.logs, CommitSubscriber(m, id, precision).parser.logs, receiver, [])
    ensures receiver !in m.parser.logs && receiver != id ==> receiver !in CommitSubscriber(m, id, precision).parser.logs
  {
    NothingIsTold(m.parser.logs, receiver);
  }

  predicate Silent(step: Step) { !step.Frame? && !step.Commit? && !step.ConnectBegins? && !step.Disconnect? }

  lemma SilentStepsTellNothing(check: Option<ChecksumFunction>, m: Manager, step: Step)
    requires Enabled(m, step) && Silent(step)
    ensures Do(check, m, step).parser.logs == m.parser.logs
  {
  }

  /** What a step owes a receiver that there is. */
  function OwedIfThere(check: Option<ChecksumFunction>, m: Manager, step: Step, receiver: ReceiverId): seq<Event> {
    if receiver in m.parser.logs then OwedBy(check, m, step, receiver) else []
  }

  /** Every step tells every receiver exactly what it owes it; only a commit makes one. */
  lemma StepTells(check: Option<ChecksumFunction>, m: Manager, step: Step, receiver: ReceiverId)
    requires TableAgrees(m) && IdsAreFresh(m.subs, m.parser.logs) && ParserSpec.Valid(check, m.parser) && Enabled(m, step)
    ensures Tells(m.parser.logs, Do(check, m, step).parser.logs, receiver, OwedIfThere(check, m, step, receiver))
    ensures receiver !in m.parser.logs && receiver in Do(check, m, step).parser.logs ==> step.Commit? && step.id == receiver
  {
    if step.Frame? {
      RouteIsAttached(m, step.message.symbol, receiver);
      EmitTells(check, m.parser, step.message, receiver);
    } else if step.Commit? {
      CommitTells(m, step.id, step.precision, receiver);
    } else if step.ConnectBegins? || step.Disconnect? {
      EndTells(m, receiver);
    } else {
      SilentStepsTellNothing(check, m, step);
      NothingIsTold(m.parser.logs, receiver);
    }
  }

  /** What a receiver was owed over a run, step by step. */
  function OwedOver(check: Option<ChecksumFunction>, states: seq<Manager>, steps: seq<Step>, receiver: ReceiverId): seq<Event>
    requires |states| == |steps| + 1
  {
    if steps == [] then []
    else
      var n := |steps| - 1;
      OwedOver(check, states[..n + 1], steps[..n], receiver)
      + OwedIfThere(check, states[n], steps[n], receiver)
  }

  lemma {:induction false} NothingOwedYet(check: Option<ChecksumFunction>, states: seq<Manager>, steps: seq<Step>,
                                          receiver: ReceiverId)
    requires IsRun(check, states, steps) && receiver !in states[|steps|].parser.logs
    ensures OwedOver(check, states, steps, receiver) == []
  {
    if steps != [] {
      var n := |steps| - 1;
      LastTells(check, states, steps, receiver);
      NothingOwedYet(check, states[..n + 1], steps[..n], receiver);
    }
  }

  /** In every run, a receiver's log holds everything it was owed, in order, and nothing else. */
  lemma {:induction false} ReceiversAreToldAll(check: Option<ChecksumFunction>, states: seq<Manager>, steps: seq<Step>,
                                               receiver: ReceiverId)
    requires IsRun(check, states, steps) && receiver in states[|steps|].parser.logs
    ensures states[|steps|].parser.logs[receiver].events == OwedOver(check, states, steps, receiver)
  {
    if steps != [] {
      var n := |steps| - 1;
      LastTells(check, states, steps, receiver);
      if receiver in states[n].parser.logs {
        ReceiversAreToldAll(check, states[..n + 1], steps[..n], receiver);
      } else {
        NothingOwedYet(check, states[..n + 1], steps[..n], receiver);
      }
    }
  }

  lemma LastTells(check: Option<ChecksumFunction>, states: seq<Manager>, steps: seq<Step>, receiver: ReceiverId)
    requires IsRun(check, states, steps) && steps != []
    ensures var n := |steps| - 1;
      && IsRun(check, states[..n + 1], steps[..n])
      && Tells(states[n].parser.logs, states[n + 1].parser.logs, receiver, OwedIfThere(check, states[n], steps[n], receiver))
      && (receiver in states[n].parser.logs ==> receiver in states[n + 1].parser.logs)
  {
    var n := |steps| - 1;
    assert IsRun(check, states[..n + 1], steps[..n]);
    RunsKeepInvariant(check, states[..n + 1], steps[..n]);
    StepTells(check, states[n], steps[n], receiver);
  }

  // ----- Getting things done --------------------------------------------------------

  /** The steps, each enabled in turn, lead from one state to the other. */
  ghost predicate Leads(check: Option<ChecksumFunction>, m: Manager, steps: seq<Step>, n: Manager)
    decreases steps
  {
    if steps == [] then n == m
    else Enabled(m, steps[0]) && Leads(check, Do(check, m, steps[0]), steps[1..], n)
  }

  lemma {:induction false} LeadOn(check: Option<ChecksumFunction>, m: Manager, steps: seq<Step>, k: Manager, more: seq<Step>,
                                  n: Manager)
    requires Leads(check, m, steps, k) && Leads(check, k, more, n)
    ensures Leads(check, m, steps + more, n)
    decreases steps
  {
    if steps == [] {
      assert steps + more == more;
    } else {
      assert (steps + more)[1..] == steps[1..] + more;
      LeadOn(check, Do(check, m, steps[0]), steps[1..], k, more, n);
    }
  }

  lemma OneLeads(check: Option<ChecksumFunction>, m: Manager, step: Step)
    requires Enabled(m, step)
    ensures Leads(check, m, [step], Do(check, m, step))
  {
    assert Leads(check, Do(check, m, step), [step][1..], Do(check, m, step));
  }

  lemma TwoLead(check: Option<ChecksumFunction>, m: Manager, first: Step, second: Step)
    requires Enabled(m, first) && Enabled(Do(check, m, first), second)
    ensures Leads(check, m, [first, second], Do(check, Do(check, m, first), second))
  {
    OneLeads(check, m, first);
    OneLeads(check, Do(check, m, first), second);
    LeadOn(check, m, [first], Do(check, m, first), [second], Do(check, Do(check, m, first), second));
    assert [first] + [second] == [first, second];
  }

  lemma {:induction false} LeadingKeepsInvariant(check: Option<ChecksumFunction>, m: Manager, steps: seq<Step>, n: Manager)
    requires Invariant(check, m) && Leads(check, m, steps, n)
    ensures Invariant(check, n)
    decreases steps
  {
    if steps != [] {
      StepKeepsInvariant(check, m, steps[0]);
      LeadingKeepsInvariant(check, Do(check, m, steps[0]), steps[1..], n);
    }
  }

  /** The mismatch callback, if it is running, is over. */
  lemma CallbackReturns(check: Option<ChecksumFunction>, m: Manager) returns (steps: seq<Step>, n: Manager)
    requires Invariant(check, m)
    ensures Leads(check, m, steps, n) && Invariant(check, n)
    ensures n.resub.callback.None? && n.subs == m.subs && n.parser == m.parser && n.link == m.link && n.call == m.call
    ensures forall symbol :: InHand(m.resub, symbol) ==> symbol in n.resub.pending || n.resub.hand == Holding(symbol)
  {
    if m.resub.callback.Some? {
      steps, n := [QueueMismatch], Do(check, m, QueueMismatch);
      OneLeads(check, m, QueueMismatch);
      StepKeepsInvariant(check, m, QueueMismatch);
    } else {
      steps, n := [], m;
    }
  }

  // ----- Subscribing ----------------------------------------------------------------

  predicate Free(m: Manager, symbol: string) { forall id :: id in m.subs.table ==> m.subs.table[id].symbol != symbol }

  /** A Subscribe passes its first check exactly if no entry of the table has the symbol, and nothing else changes. */
  lemma CheckPassesExactlyIfFree(check: Option<ChecksumFunction>, m: Manager, id: Id)
    requires Invariant(check, m) && Enabled(m, Check(id))
    ensures var subscribers := Do(check, m, Check(id)).subs.subscribers;
      if Free(m, m.subs.subscribers[id].book.symbol)
      then subscribers == m.subs.subscribers[id := Subscriber(m.subs.subscribers[id].book, true)]
      else subscribers == m.subs.subscribers - {id}
    ensures Do(check, m, Check(id)) == m.(subs := m.subs.(subscribers := Do(check, m, Check(id)).subs.subscribers))
  {
  }

  /** And its second: another client may have taken the symbol during the round trip to the venue. */
  lemma CommitGivesUpIfTaken(check: Option<ChecksumFunction>, m: Manager, id: Id, precision: Precision)
    requires Invariant(check, m) && Enabled(m, Commit(id, precision)) && !Free(m, m.subs.subscribers[id].book.symbol)
    ensures Do(check, m, Commit(id, precision)) == m.(subs := m.subs.(subscribers := m.subs.subscribers - {id}))
  {
  }

  lemma IssueIsFresh(check: Option<ChecksumFunction>, m: Manager, venue: nat, sink: Sink, book: L2Manager.BookSpec) returns (id: Id)
    requires Invariant(check, m) && Enabled(m, Issue(venue, sink, book))
    ensures id == MakeSubscriptionId(m.subs.nextCounter, venue, sink)
    ensures id !in m.subs.table && id !in m.parser.logs && id !in m.subs.subscribers && (IsLive(id) <==> sink.Live?)
    ensures var n := Do(check, m, Issue(venue, sink, book));
      && id in n.subs.subscribers && n.subs.subscribers[id] == Subscriber(book, false)
      && n == m.(subs := m.subs.(nextCounter := m.subs.nextCounter + 1, subscribers := n.subs.subscribers))
  {
    id := MakeSubscriptionId(m.subs.nextCounter, venue, sink);
    IdHasItsCounter(m.subs.nextCounter, venue, sink);
  }

  lemma IdHasItsCounter(counter: nat, venue: nat, sink: Sink)
    requires counter <= MAX_SUBSCRIPTIONS && venue < 256
    ensures CounterOf(MakeSubscriptionId(counter, venue, sink)) == counter
    ensures IsLive(MakeSubscriptionId(counter, venue, sink)) <==> sink.Live?
  {
    HighBits(counter, venue * 0x100 + SinkCode(sink));
    LowByte(counter * 0x100 + venue, SinkCode(sink));
  }

  /** The subscription is in the table, its pair routed to its new receiver, and the venue asked for it. */
  ghost predicate TookEffect(m: Manager, n: Manager, id: Id, book: L2Manager.BookSpec, precision: Precision) {
    && id !in m.subs.table && n.subs.table == m.subs.table[id := book]
    && (IsLive(id) ==> id in n.subs.registered)
    && book.symbol in n.parser.routes
    && n.parser.routes == m.parser.routes[book.symbol := n.parser.routes[book.symbol]]
    && n.parser.routes[book.symbol].precision == precision && n.parser.routes[book.symbol].depth == book.depth
    && n.parser.routes[book.symbol].receiver == id
    && id !in m.parser.logs && n.parser.logs == m.parser.logs[id := Log(book.depth, [])]
    && n.call.Idle? && n.link.connected == m.link.connected
    && (n.link.connected ==> Fold(n.link.sent) == Fold(m.link.sent)[book.symbol := book.depth])
  }

  /** A Subscribe that passed its first check and whose symbol is still free. */
  lemma CommittingTakesEffect(check: Option<ChecksumFunction>, m: Manager, id: Id, precision: Precision) returns (n: Manager)
    requires Invariant(check, m) && LockIsFree(m) && id in m.subs.subscribers && m.subs.subscribers[id].checked
    requires Free(m, m.subs.subscribers[id].book.symbol)
    ensures Leads(check, m, [Commit(id, precision), SubscribeSends], n)
    ensures TookEffect(m, n, id, m.subs.subscribers[id].book, precision)
  {
    var book := m.subs.subscribers[id].book;
    SubscribeIsTwoSteps(check, m, id, precision);
    n := Do(check, Do(check, m, Commit(id, precision)), SubscribeSends);
    TwoLead(check, m, Commit(id, precision), SubscribeSends);
    FoldGrows(m.link.sent, Request(true, book));
  }

  /**
    From any state with no call in progress, a Subscribe to a symbol no subscription has: its steps, taken in turn,
    end with its table entry, route and receiver, and while connected with the venue left streaming it.
   */
  lemma SubscribeSucceeds(check: Option<ChecksumFunction>, m: Manager, venue: nat, sink: Sink, book: L2Manager.BookSpec, precision: Precision)
    returns (steps: seq<Step>, n: Manager, id: Id)
    requires Invariant(check, m) && m.call.Idle? && Free(m, book.symbol)
    requires venue < 256 && m.subs.nextCounter <= MAX_SUBSCRIPTIONS
    ensures Leads(check, m, steps, n) && id == MakeSubscriptionId(m.subs.nextCounter, venue, sink)
    ensures TookEffect(m, n, id, book, precision)
  {
    var quiet;
    steps, quiet := CallbackReturns(check, m);
    id := IssueIsFresh(check, quiet, venue, sink, book);
    var issued := Do(check, quiet, Issue(venue, sink, book));
    StepKeepsInvariant(check, quiet, Issue(venue, sink, book));
    CheckPassesExactlyIfFree(check, issued, id);
    var checked := Do(check, issued, Check(id));
    StepKeepsInvariant(check, issued, Check(id));
    TwoLead(check, quiet, Issue(venue, sink, book), Check(id));
    LeadOn(check, m, steps, quiet, [Issue(venue, sink, book), Check(id)], checked);
    n := CommittingTakesEffect(check, checked, id, precision);
    LeadOn(check, m, steps + [Issue(venue, sink, book), Check(id)], checked, [Commit(id, precision), SubscribeSends], n);
    steps := steps + [Issue(venue, sink, book), Check(id)] + [Commit(id, precision), SubscribeSends];
  }

  /** So does an Unsubscribe: the entry and the route are gone, and the venue left streaming the others. */
  lemma UnsubscribeSucceeds(check: Option<ChecksumFunction>, m: Manager, id: Id) returns (steps: seq<Step>, n: Manager)
    requires Invariant(check, m) && m.call.Idle? && id in m.subs.table
    ensures Leads(check, m, steps, n)
    ensures n.subs.table == m.subs.table - {id} && id !in n.subs.registered
    ensures n.parser.routes == m.parser.routes - {m.subs.table[id].symbol} && n.parser.logs == m.parser.logs
    ensures n.call.Idle? && n.link.connected == m.link.connected
    ensures n.link.connected ==> Fold(n.link.sent) == Fold(m.link.sent) - {m.subs.table[id].symbol}
  {
    var quiet;
    steps, quiet := CallbackReturns(check, m);
    UnsubscribeIsTwoSteps(check, quiet, id);
    n := Do(check, Do(check, quiet, UnsubscribeBegins(id)), UnsubscribeEnds);
    TwoLead(check, quiet, UnsubscribeBegins(id), UnsubscribeEnds);
    LeadOn(check, m, steps, quiet, [UnsubscribeBegins(id), UnsubscribeEnds], n);
    steps := steps + [UnsubscribeBegins(id), UnsubscribeEnds];
    FoldGrows(m.link.sent, Request(false, m.subs.table[id]));
  }

  // ----- Connecting -----------------------------------------------------------------

  /** Sending every subscription and ending the call, step by step. */
  lemma {:induction false} FinishLeads(check: Option<ChecksumFunction>, m: Manager) returns (steps: seq<Step>)
    requires Invariant(check, m) && m.call.Connecting?
    ensures Leads(check, m, steps, FinishConnect(check, m))
    ensures var n := FinishConnect(check, m);
      && n.call.Idle? && n.subs == m.subs && n.parser == m.parser
      && n.link.connected == m.link.connected && n.link.failed == m.link.failed
    decreases m.call.todo
  {
    if m.call.todo == {} {
      steps := [ConnectEnds];
      OneLeads(check, m, ConnectEnds);
    } else {
      LeastExists(m.call.todo);
      var id :| IsLeast(m.call.todo, id);
      var n := Do(check, m, ConnectSends(id));
      NextSubscribe(check, m, id, n);
      StepKeepsInvariant(check, m, ConnectSends(id));
      OneLeads(check, m, ConnectSends(id));
      var rest := FinishLeads(check, n);
      LeadOn(check, m, [ConnectSends(id)], n, rest, FinishConnect(check, n));
      steps := [ConnectSends(id)] + rest;
    }
  }

  /** The venue streams the table's pairs at the table's depths, and no others. */
  ghost predicate Streams(m: Manager) {
    && (forall id :: id in m.subs.table ==>
         m.subs.table[id].symbol in Fold(m.link.sent) && Fold(m.link.sent)[m.subs.table[id].symbol] == m.subs.table[id].depth)
    && (forall symbol :: symbol in Fold(m.link.sent) ==> !Free(m, symbol))
  }

  /** A connection that was up ended at each of its receivers, and nothing else was told. */
  predicate EndedAt(m: Manager, n: Manager) {
    && n.parser.logs.Keys == m.parser.logs.Keys
    && forall id :: id in m.parser.logs ==>
         n.parser.logs[id].events == m.parser.logs[id].events
           + if m.link.connected && id in m.subs.table then [Gapped(Disconnected, m.parser.connection)] else []
  }

  /** Every route goes on as it was, but waits. */
  predicate AllWait(m: Manager, n: Manager) {
    && n.parser.routes.Keys == m.parser.routes.Keys
    && forall s :: s in m.parser.routes ==>
         && n.parser.routes[s].awaiting && n.parser.routes[s].precision == m.parser.routes[s].precision
         && n.parser.routes[s].depth == m.parser.routes[s].depth && n.parser.routes[s].receiver == m.parser.routes[s].receiver
  }

  lemma EndsAtAll(m: Manager)
    ensures EndedAt(m, L2Manager.Disconnected(m))
  {
    forall id | id in m.parser.logs
      ensures id in L2Manager.Disconnected(m).parser.logs
      ensures L2Manager.Disconnected(m).parser.logs[id].events == m.parser.logs[id].events
           + if m.link.connected && id in m.subs.table then [Gapped(Disconnected, m.parser.connection)] else []
    {
      EndTells(m, id);
    }
  }

  /**
    From any state with no call in progress and no healthy connection, the steps of a Connect whose feed comes up
    end connected and healthy, with every pair waiting for its snapshot and the venue left streaming the table.
    If the feed does not come up, they end disconnected, for the next attempt.
   */
  lemma ConnectSucceeds(check: Option<ChecksumFunction>, m: Manager, up: bool) returns (steps: seq<Step>, n: Manager)
    requires Invariant(check, m) && m.call.Idle? && !(m.link.connected && !m.link.failed)
    ensures Leads(check, m, steps, n) && n.call.Idle? && n.subs == m.subs && EndedAt(m, n) && !n.link.failed
    ensures n.link.connected == up && n.parser.running == up && n.parser.connection == m.parser.connection + 1
    ensures AllWait(m, n) && (up ==> Streams(n))
  {
    var quiet, began;
    steps, quiet := CallbackReturns(check, m);
    var first := if up then FeedUp else FeedFails;
    began := FeedIsTried(check, quiet, up);
    LeadOn(check, m, steps, quiet, [ConnectBegins, first], began);
    steps := steps + [ConnectBegins, first];
    n := began;
    if up {
      var rest := FinishLeads(check, began);
      n := FinishConnect(check, began);
      LeadOn(check, m, steps, began, rest, n);
      steps := steps + rest;
      FinishConnectKeepsInvariant(check, began);
      ConnectedStreams(check, n);
    }
  }

  /** The last connection is over, and its failure forgotten. */
  predicate Begun(m: Manager, n: Manager) {
    && n.call.Starting? && n.subs == m.subs && !n.link.failed && !n.link.connected
    && n.parser.routes == m.parser.routes && n.parser.connection == m.parser.connection
  }

  lemma ConnectGoesOn(check: Option<ChecksumFunction>, m: Manager) returns (n: Manager)
    requires Invariant(check, m) && Enabled(m, ConnectBegins)
    ensures n == Do(check, m, ConnectBegins) && Invariant(check, n) && Begun(m, n) && EndedAt(m, n)
  {
    EndsAtAll(m);
    n := Do(check, m, ConnectBegins);
    StepKeepsInvariant(check, m, ConnectBegins);
  }

  /** The feed came up, or did not; every pair waits. */
  predicate Tried(m: Manager, n: Manager, up: bool) {
    && n.subs == m.subs && AllWait(m, n) && !n.link.failed && n.link.connected == up && n.parser.running == up
    && n.parser.connection == m.parser.connection + 1 && (if up then n.call.Connecting? else n.call.Idle?)
  }

  lemma FeedGoesOn(check: Option<ChecksumFunction>, m: Manager, began: Manager, step: Step) returns (n: Manager)
    requires Invariant(check, began) && Begun(m, began) && (step.FeedUp? || step.FeedFails?)
    ensures Enabled(began, step) && n == Do(check, began, step) && Invariant(check, n)
    ensures Tried(m, n, step.FeedUp?) && n.parser.logs == began.parser.logs
  {
    n := Do(check, began, step);
    StepKeepsInvariant(check, began, step);
  }

  lemma FeedIsTried(check: Option<ChecksumFunction>, m: Manager, up: bool) returns (n: Manager)
    requires Invariant(check, m) && LockIsFree(m) && !(m.link.connected && !m.link.failed)
    ensures Leads(check, m, [ConnectBegins, if up then FeedUp else FeedFails], n) && Invariant(check, n)
    ensures EndedAt(m, n) && Tried(m, n, up)
  {
    var step := if up then FeedUp else FeedFails;
    var began := ConnectGoesOn(check, m);
    n := FeedGoesOn(check, m, began, step);
    TwoLead(check, m, ConnectBegins, step);
  }

  lemma ConnectedStreams(check: Option<ChecksumFunction>, m: Manager)
    requires Invariant(check, m) && m.call.Idle? && m.link.connected
    ensures Streams(m)
  {
    forall symbol | symbol in Fold(m.link.sent) ensures !Free(m, symbol) {
      assert Listed(m.subs.table, {}, symbol);
    }
  }

  /** A connection that fails is mended: the pipeline's failure is seen, and a Connect replaces it. */
  lemma FailureIsMended(check: Option<ChecksumFunction>, m: Manager) returns (steps: seq<Step>, n: Manager)
    requires Invariant(check, m) && m.call.Idle? && m.link.connected
    ensures Leads(check, m, [Fail] + steps, n) && n.link.connected && !n.link.failed && n.subs == m.subs
    ensures EndedAt(m, n) && n.parser.connection == m.parser.connection + 1 && Streams(n)
  {
    var failed := Do(check, m, Fail);
    StepKeepsInvariant(check, m, Fail);
    OneLeads(check, m, Fail);
    steps, n := ConnectSucceeds(check, failed, true);
    LeadOn(check, m, [Fail], failed, steps, n);
  }

  // ----- Resubscribing --------------------------------------------------------------

  /** Time enough passes for the pair in hand to be resubscribed. */
  lemma IntervalPasses(check: Option<ChecksumFunction>, m: Manager) returns (n: Manager, step: Step)
    requires Invariant(check, m) && m.resub.hand.Holding?
    ensures step.Tick? && n == Do(check, m, step) && Invariant(check, n) && IntervalIsOver(n.resub)
    ensures n == m.(resub := m.resub.(clock := n.resub.clock))
  {
    var symbol := m.resub.hand.symbol;
    var due := if symbol in m.resub.last then m.resub.last[symbol] + MIN_RESUBSCRIBE_INTERVAL else 0;
    step := Tick(due);
    n := Do(check, m, step);
    StepKeepsInvariant(check, m, step);
  }

  ghost predicate Resent(m: Manager, n: Manager, id: Id) {
    && id in m.subs.table
    && n.link.sent == m.link.sent + [Request(false, m.subs.table[id]), Request(true, m.subs.table[id])]
  }

  /** The connection's requests grew, by an unsubscribe and a subscribe if the pair has a subscription. */
  ghost predicate Renewed(m: Manager, n: Manager, symbol: string) {
    && n.subs == m.subs && n.parser == m.parser && n.call.Idle? && n.resub.callback.None?
    && n.link == m.link.(sent := n.link.sent)
    && (if Free(m, symbol) then n.link.sent == m.link.sent
        else (exists id :: Resent(m, n, id) && m.subs.table[id].symbol == symbol))
  }

  lemma NothingToResubscribe(check: Option<ChecksumFunction>, m: Manager) returns (n: Manager)
    requires LockIsFree(m) && IntervalIsOver(m.resub) && Free(m, m.resub.hand.symbol)
    ensures Leads(check, m, [ResubscribeSkips], n) && Renewed(m, n, m.resub.hand.symbol)
    ensures n.resub.hand == Done(m.resub.hand.symbol) && n.resub.pending == m.resub.pending
  {
    n := Do(check, m, ResubscribeSkips);
    OneLeads(check, m, ResubscribeSkips);
  }

  lemma HeldIsResubscribed(check: Option<ChecksumFunction>, m: Manager, id: Id) returns (steps: seq<Step>, n: Manager)
    requires m.link.connected && LockIsFree(m) && IntervalIsOver(m.resub)
    requires id in m.subs.table && m.subs.table[id].symbol == m.resub.hand.symbol
    ensures Leads(check, m, steps, n) && Renewed(m, n, m.resub.hand.symbol)
    ensures n.resub.hand == Done(m.resub.hand.symbol) && n.resub.pending == m.resub.pending
  {
    ResubscribeIsThreeSteps(check, m, id);
    var begun := Do(check, m, ResubscribeBegins(id));
    n := Do(check, Do(check, begun, ResubscribeUnsubscribes), ResubscribeSubscribes);
    OneLeads(check, m, ResubscribeBegins(id));
    TwoLead(check, begun, ResubscribeUnsubscribes, ResubscribeSubscribes);
    LeadOn(check, m, [ResubscribeBegins(id)], begun, [ResubscribeUnsubscribes, ResubscribeSubscribes], n);
    steps := [ResubscribeBegins(id)] + [ResubscribeUnsubscribes, ResubscribeSubscribes];
    assert Resent(m, n, id);
  }

  lemma HandIsResubscribed(check: Option<ChecksumFunction>, m: Manager) returns (steps: seq<Step>, n: Manager)
    requires m.link.connected && LockIsFree(m) && IntervalIsOver(m.resub)
    ensures Leads(check, m, steps, n) && Renewed(m, n, m.resub.hand.symbol)
    ensures n.resub.hand == Done(m.resub.hand.symbol) && n.resub.pending == m.resub.pending
  {
    if Free(m, m.resub.hand.symbol) {
      steps := [ResubscribeSkips];
      n := NothingToResubscribe(check, m);
    } else {
      var id :| id in m.subs.table && m.subs.table[id].symbol == m.resub.hand.symbol;
      steps, n := HeldIsResubscribed(check, m, id);
    }
  }

  /** The pair in hand is resubscribed, whenever it was last, and the hand is free. */
  lemma HandIsFreed(check: Option<ChecksumFunction>, m: Manager) returns (steps: seq<Step>, n: Manager)
    requires Invariant(check, m) && m.link.connected && LockIsFree(m) && m.resub.hand.Holding?
    ensures Leads(check, m, steps, n) && Invariant(check, n) && Renewed(m, n, m.resub.hand.symbol)
    ensures n.resub.hand.Empty? && n.resub.pending == m.resub.pending
  {
    var later, tick := IntervalPasses(check, m);
    OneLeads(check, m, tick);
    var rest, done := HandIsResubscribed(check, later);
    LeadOn(check, m, [tick], later, rest, done);
    OneLeads(check, done, NoteResubscribed);
    n := Do(check, done, NoteResubscribed);
    LeadOn(check, m, [tick] + rest, done, [NoteResubscribed], n);
    steps := [tick] + rest + [NoteResubscribed];
    LeadingKeepsInvariant(check, m, steps, n);
    RenewalIsTimeless(m, later, done, n, m.resub.hand.symbol);
  }

  lemma RenewalIsTimeless(m: Manager, later: Manager, done: Manager, n: Manager, symbol: string)
    requires Renewed(later, done, symbol) && later == m.(resub := later.resub) && n == done.(resub := n.resub)
    requires n.resub.callback.None?
    ensures Renewed(m, n, symbol)
  {
    if !Free(m, symbol) {
      var id :| Resent(later, done, id) && later.subs.table[id].symbol == symbol;
      assert Resent(m, n, id);
    }
  }

  /** The connection goes on, and the pair is subscribed to again if it has a subscription. */
  ghost predicate SubscribedAgain(m: Manager, n: Manager, symbol: string) {
    && m.subs == n.subs && m.link.sent <= n.link.sent
    && (!Free(m, symbol) ==> SentSince(n.link.sent, symbol, |m.link.sent|))
  }

  lemma RenewedIsSubscribedAgain(m: Manager, n: Manager, symbol: string)
    requires Renewed(m, n, symbol)
    ensures SubscribedAgain(m, n, symbol)
  {
    if !Free(m, symbol) {
      assert n.link.sent[|m.link.sent| + 1].subscribe && n.link.sent[|m.link.sent| + 1].book.symbol == symbol;
    }
  }

  lemma SubscribedAgainLater(m: Manager, k: Manager, n: Manager, symbol: string)
    requires SubscribedAgain(m, k, symbol) && k.link.sent <= n.link.sent && k.subs == n.subs
    ensures SubscribedAgain(m, n, symbol)
  {
    if !Free(m, symbol) {
      SentSinceGrows(k.link.sent, n.link.sent[|k.link.sent|..], symbol, |m.link.sent|);
      assert k.link.sent + n.link.sent[|k.link.sent|..] == n.link.sent;
    }
  }

  lemma SubscribedAgainBefore(m: Manager, k: Manager, n: Manager, symbol: string)
    requires m.link.sent <= k.link.sent && SubscribedAgain(k, n, symbol) && m.subs == k.subs
    ensures SubscribedAgain(m, n, symbol)
  {
  }

  /** Nothing but requests and the resubscriber's own state changed, and the lock is free. */
  predicate OnlyResent(m: Manager, n: Manager) {
    n.subs == m.subs && n.parser == m.parser && m.link.sent <= n.link.sent && n.link == m.link.(sent := n.link.sent) && LockIsFree(n)
  }

  lemma HeadIsResubscribed(check: Option<ChecksumFunction>, m: Manager) returns (steps: seq<Step>, n: Manager)
    requires Invariant(check, m) && m.link.connected && LockIsFree(m) && m.resub.hand.Empty? && m.resub.pending != []
    ensures Leads(check, m, steps, n) && Invariant(check, n) && OnlyResent(m, n)
    ensures n.resub.hand.Empty? && n.resub.pending == m.resub.pending[1..]
    ensures SubscribedAgain(m, n, m.resub.pending[0])
  {
    var first := m.resub.pending[0];
    var held := Do(check, m, Pop);
    StepKeepsInvariant(check, m, Pop);
    OneLeads(check, m, Pop);
    steps, n := HandIsFreed(check, held);
    LeadOn(check, m, [Pop], held, steps, n);
    steps := [Pop] + steps;
    RenewedIsSubscribedAgain(held, n, first);
    SubscribedAgainBefore(m, held, n, first);
  }

  /** The resubscriber, left alone, works off its whole queue. */
  lemma {:induction false} QueueIsWorkedOff(check: Option<ChecksumFunction>, m: Manager) returns (steps: seq<Step>, n: Manager)
    requires Invariant(check, m) && m.link.connected && LockIsFree(m) && m.resub.hand.Empty?
    ensures Leads(check, m, steps, n) && OnlyResent(m, n) && n.resub.pending == [] && n.resub.hand.Empty?
    ensures forall symbol :: symbol in m.resub.pending ==> SubscribedAgain(m, n, symbol)
    decreases |m.resub.pending|
  {
    if m.resub.pending == [] {
      steps, n := [], m;
    } else {
      var some, freed := HeadIsResubscribed(check, m);
      var more;
      more, n := QueueIsWorkedOff(check, freed);
      LeadOn(check, m, some, freed, more, n);
      steps := some + more;
      forall symbol | symbol in m.resub.pending ensures SubscribedAgain(m, n, symbol) {
        if symbol in m.resub.pending[1..] {
          SubscribedAgainBefore(m, freed, n, symbol);
        } else {
          SubscribedAgainLater(m, freed, n, symbol);
        }
      }
    }
  }

  lemma HandIsEmptied(check: Option<ChecksumFunction>, m: Manager) returns (steps: seq<Step>, n: Manager)
    requires Invariant(check, m) && m.link.connected && LockIsFree(m)
    ensures Leads(check, m, steps, n) && Invariant(check, n) && OnlyResent(m, n)
    ensures n.resub.hand.Empty? && n.resub.pending == m.resub.pending
    ensures m.resub.hand.Holding? ==> SubscribedAgain(m, n, m.resub.hand.symbol)
  {
    if m.resub.hand.Holding? {
      steps, n := HandIsFreed(check, m);
      RenewedIsSubscribedAgain(m, n, m.resub.hand.symbol);
    } else if m.resub.hand.Done? {
      steps, n := [NoteResubscribed], Do(check, m, NoteResubscribed);
      StepKeepsInvariant(check, m, NoteResubscribed);
      OneLeads(check, m, NoteResubscribed);
    } else {
      steps, n := [], m;
    }
  }

  /** With the lock free: the pair in hand first, then the queue. */
  lemma AllIsWorkedOff(check: Option<ChecksumFunction>, m: Manager) returns (steps: seq<Step>, n: Manager)
    requires Invariant(check, m) && m.link.connected && LockIsFree(m)
    ensures Leads(check, m, steps, n) && OnlyResent(m, n) && n.resub.pending == [] && n.resub.hand.Empty?
    ensures m.resub.hand.Holding? ==> SubscribedAgain(m, n, m.resub.hand.symbol)
    ensures forall symbol :: symbol in m.resub.pending ==> SubscribedAgain(m, n, symbol)
  {
    var more, freed := HandIsEmptied(check, m);
    var last;
    last, n := QueueIsWorkedOff(check, freed);
    LeadOn(check, m, more, freed, last, n);
    steps := more + last;
    if m.resub.hand.Holding? { SubscribedAgainLater(m, freed, n, m.resub.hand.symbol); }
    forall symbol | symbol in m.resub.pending ensures SubscribedAgain(m, n, symbol) {
      SubscribedAgainBefore(m, freed, n, symbol);
    }
  }

  /**
    From any state with no call in progress on a connected manager: every pair whose book was found not to match is
    subscribed to again in the steps of the resubscriber, however often it was before.
   */
  lemma MismatchesAreMended(check: Option<ChecksumFunction>, m: Manager) returns (steps: seq<Step>, n: Manager)
    requires Invariant(check, m) && m.link.connected && m.call.Idle?
    ensures Leads(check, m, steps, n) && OnlyResent(m, n) && n.resub.pending == [] && n.resub.hand.Empty?
    ensures forall symbol :: InHand(m.resub, symbol) ==> SubscribedAgain(m, n, symbol)
  {
    var quiet, more;
    steps, quiet := CallbackReturns(check, m);
    more, n := AllIsWorkedOff(check, quiet);
    LeadOn(check, m, steps, quiet, more, n);
    steps := steps + more;
    forall symbol | InHand(m.resub, symbol) ensures SubscribedAgain(m, n, symbol) {
      SubscribedAgainBefore(m, quiet, n, symbol);
    }
  }

  // ----- The queue ------------------------------------------------------------------

  predicate Distinct(pending: seq<string>) { forall i, j :: 0 <= i < j < |pending| ==> pending[i] != pending[j] }

  lemma StepKeepsDistinct(check: Option<ChecksumFunction>, m: Manager, step: Step)
    requires Enabled(m, step) && Distinct(m.resub.pending)
    ensures Distinct(Do(check, m, step).resub.pending)
  {
  }

  /** In every run, no pair is queued twice. */
  lemma {:induction false} PendingAreDistinct(check: Option<ChecksumFunction>, states: seq<Manager>, steps: seq<Step>)
    requires IsRun(check, states, steps)
    ensures Distinct(states[|steps|].resub.pending)
  {
    if steps != [] {
      var n := |steps| - 1;
      assert IsRun(check, states[..n + 1], steps[..n]);
      PendingAreDistinct(check, states[..n + 1], steps[..n]);
      StepKeepsDistinct(check, states[n], steps[n]);
    }
  }
}
