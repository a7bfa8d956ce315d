/** Subscription ids (venue/manager.h): a 48-bit counter, the venue in 8 bits, the sink in 8. */
module SubscriptionIds {
  import opened Messages

  datatype Sink = Live | Record

  const MAX_SUBSCRIPTIONS: nat := 0xFFFF_FFFF_FFFF

  function SinkCode(sink: Sink): nat { if sink.Record? then 1 else 0 }

  function MakeSubscriptionId(counter: nat, venue: nat, sink: Sink): u64
    requires counter <= MAX_SUBSCRIPTIONS && venue < 256
  {
    counter * 0x10000 + venue * 0x100 + SinkCode(sink)
  }

  function CounterOf(id: u64): nat { id / 0x10000 }

  function VenueOf(id: u64): nat { id / 0x100 % 0x100 }

  function IsLive(id: u64): bool { id % 0x100 == 0 }

  /** An id names its counter, venue and sink, and a later id is larger. */
  lemma IdsNameTheirParts(counter: nat, venue: nat, sink: Sink, later: nat, venue': nat, sink': Sink)
    requires counter < later <= MAX_SUBSCRIPTIONS && venue < 256 && venue' < 256
    ensures CounterOf(MakeSubscriptionId(counter, venue, sink)) == counter
    ensures VenueOf(MakeSubscriptionId(counter, venue, sink)) == venue
    ensures IsLive(MakeSubscriptionId(counter, venue, sink)) <==> sink.Live?
    ensures MakeSubscriptionId(counter, venue, sink) < MakeSubscriptionId(later, venue', sink')
  {
    HighBits(counter, venue * 0x100 + SinkCode(sink));
    LowByte(counter * 0x100 + venue, SinkCode(sink));
    LowByte(counter, venue);
  }

  lemma HighBits(high: nat, low: nat)
    requires low < 0x10000
    ensures (high * 0x10000 + low) / 0x10000 == high
  {
  }

  lemma LowByte(high: nat, low: nat)
    requires low < 0x100
    ensures (high * 0x100 + low) / 0x100 == high && (high * 0x100 + low) % 0x100 == low
  {
  }
}

/**
  One venue's subscriptions (venue/l2_manager.cc), as a step system. Each step is one action a
  thread takes without giving up the lock it needs: a client's Subscribe or Unsubscribe, the
  supervisor's Connect, the parser's frames and its mismatch callback, and the resubscriber.
  `call` is the call holding the life cycle lock. `sent`, `waitFrom` and
  `resubscriptions` are history: the requests handed to the current connection, how many
  there were when each pair began to wait for a snapshot, and every resubscription made.
 */
module L2Manager {
  import opened Messages
  import opened SubscriptionIds
  import opened ParserSpec

  type Id = u64

  /** kMinResubscribeInterval, in nanoseconds of the steady clock. */
  const MIN_RESUBSCRIBE_INTERVAL: nat := 1_000_000_000

  datatype BookSpec = BookSpec(symbol: string, depth: nat)

  datatype Request = Request(subscribe: bool, book: BookSpec)

  /** A Subscribe between its two checks; `checked` once the first passed. */
  datatype Subscriber = Subscriber(book: BookSpec, checked: bool)

  datatype Call =
    | Idle
    | Starting
    | Connecting(todo: set<Id>)
    | Subscribing(id: Id)
    | Unsubscribing(id: Id)
    | Resubscribing(id: Id, begun: nat, unsubscribed: bool)

  /** The pair the resubscriber took off the queue, until it has noted when it was resubscribed. */
  datatype Hand = Empty | Holding(symbol: string) | Done(symbol: string)

  datatype Resubscription = Resubscription(symbol: string, begun: nat, ended: nat)

  /** The errors only a bug in the caller can cause. */
  datatype Fault = IdInUse | AlreadyRegistered | AlreadyAttached

  datatype Subscriptions = Subscriptions(
    nextCounter: nat, subscribers: map<Id, Subscriber>, table: map<Id, BookSpec>, registered: set<Id>, faults: set<Fault>)

  datatype Link = Link(connected: bool, failed: bool, sent: seq<Request>, waitFrom: map<string, nat>)

  datatype Resubscriber = Resubscriber(
    pending: seq<string>, callback: Option<string>, hand: Hand,
    clock: nat, last: map<string, nat>, made: seq<Resubscription>)

  datatype Manager = Manager(subs: Subscriptions, parser: Parser, link: Link, call: Call, resub: Resubscriber)

  const NEW := Manager(Subscriptions(1, map[], map[], {}, {}), INITIAL, Link(false, false, [], map[]), Idle,
                       Resubscriber([], None, Empty, 0, map[], []))

  datatype Step =
    | Issue(venue: nat, sink: Sink, book: BookSpec)
    | IssueElsewhere
    | Check(id: Id)
    | FetchFails(id: Id)
    | Commit(id: Id, precision: Precision)
    | SubscribeSends
    | UnsubscribeBegins(id: Id)
    | UnsubscribeEnds
    | ConnectBegins
    | FeedUp
    | FeedFails
    | ConnectSends(id: Id)
    | ConnectEnds
    | Disconnect
    | Fail
    | Frame(message: Message)
    | QueueMismatch
    | Pop
    | ResubscribeBegins(id: Id)
    | ResubscribeSkips
    | ResubscribeUnsubscribes
    | ResubscribeSubscribes
    | NoteResubscribed
    | Tick(nanos: nat)

  // ----- The steps ------------------------------------------------------------------

  predicate Taken(subs: Subscriptions, symbol: string) {
    exists id :: id in subs.table && subs.table[id].symbol == symbol
  }

  function SendLocked(link: Link, subscribe: bool, book: BookSpec): Link {
    if link.connected then link.(sent := link.sent + [Request(subscribe, book)]) else link
  }

  /** The routes lock is free, and so is the parser thread. */
  predicate LockIsFree(m: Manager) { m.call.Idle? && m.resub.callback.None? }

  predicate IntervalIsOver(r: Resubscriber) {
    && r.hand.Holding?
    && (r.hand.symbol in r.last ==> r.clock >= r.last[r.hand.symbol] + MIN_RESUBSCRIBE_INTERVAL)
  }

  predicate Enabled(m: Manager, step: Step) {
    var subscribers := m.subs.subscribers;
    match step
    case Issue(venue, _, _) => venue < 256 && m.subs.nextCounter <= MAX_SUBSCRIPTIONS
    case IssueElsewhere => true
    case Check(id) => id in subscribers && !subscribers[id].checked && m.call.Idle?
    case FetchFails(id) => id in subscribers && subscribers[id].checked
    case Commit(id, _) => id in subscribers && subscribers[id].checked && LockIsFree(m)
    case SubscribeSends => m.call.Subscribing?
    case UnsubscribeBegins(id) => id in m.subs.table && LockIsFree(m)
    case UnsubscribeEnds => m.call.Unsubscribing?
    case ConnectBegins => LockIsFree(m) && !(m.link.connected && !m.link.failed)
    case FeedUp => m.call.Starting?
    case FeedFails => m.call.Starting?
    case ConnectSends(id) => m.call.Connecting? && id in m.call.todo && forall other :: other in m.call.todo ==> id <= other
    case ConnectEnds => m.call == Connecting({})
    case Disconnect => LockIsFree(m)
    case Fail => m.link.connected
    case Frame(_) => m.link.connected && m.resub.callback.None?
    case QueueMismatch => m.resub.callback.Some?
    case Pop => m.resub.hand.Empty? && m.resub.pending != []
    case ResubscribeBegins(id) =>
      && IntervalIsOver(m.resub) && m.call.Idle? && m.link.connected
      && id in m.subs.table && m.subs.table[id].symbol == m.resub.hand.symbol
    case ResubscribeSkips =>
      IntervalIsOver(m.resub) && m.call.Idle? && !(m.link.connected && Taken(m.subs, m.resub.hand.symbol))
    case ResubscribeUnsubscribes => m.call.Resubscribing? && !m.call.unsubscribed
    case ResubscribeSubscribes => m.call.Resubscribing? && m.call.unsubscribed
    case NoteResubscribed => m.resub.hand.Done?
    case Tick(_) => true
  }

  function BookOf(subs: Subscriptions, id: Id): BookSpec {
    if id in subs.table then subs.table[id] else BookSpec("", 0)
  }

  /** The first check, before the unlocked round trip to the venue. */
  function CheckTaken(subs: Subscriptions, id: Id): Subscriptions
    requires id in subs.subscribers
  {
    if id in subs.table then subs.(faults := subs.faults + {IdInUse}, subscribers := subs.subscribers - {id})
    else if Taken(subs, subs.subscribers[id].book.symbol) then subs.(subscribers := subs.subscribers - {id})
    else subs.(subscribers := subs.subscribers[id := subs.subscribers[id].(checked := true)])
  }

  /** The second check, then the receiver, the table entry and the route. */
  function CommitSubscriber(m: Manager, id: Id, precision: Precision): Manager
    requires id in m.subs.subscribers
  {
    var book := m.subs.subscribers[id].book;
    var done := m.subs.(subscribers := m.subs.subscribers - {id});
    if id in m.subs.table then m.(subs := done.(faults := done.faults + {IdInUse}))
    else if Taken(m.subs, book.symbol) then m.(subs := done)
    else if IsLive(id) && id in m.subs.registered then m.(subs := done.(faults := done.faults + {AlreadyRegistered}))
    else
      var attached := Attach(m.parser, book.symbol, precision, book.depth, id);
      if attached.None? then m.(subs := done.(faults := done.faults + {AlreadyAttached}))
      else
        m.(subs := done.(table := done.table[id := book],
                         registered := if IsLive(id) then done.registered + {id} else done.registered),
           parser := attached.value,
           link := m.link.(waitFrom := m.link.waitFrom[book.symbol := |m.link.sent|]),
           call := Subscribing(id))
  }

  function FinishUnsubscribe(m: Manager): Manager
    requires m.call.Unsubscribing?
  {
    m.(subs := m.subs.(table := m.subs.table - {m.call.id}, registered := m.subs.registered - {m.call.id}),
       link := SendLocked(m.link, false, BookOf(m.subs, m.call.id)),
       call := Idle)
  }

  /** DisconnectLocked: the parser stops, and receivers hear of it if there was a connection. */
  function Disconnected(m: Manager): Manager {
    if m.link.connected
    then m.(parser := EndConnection(m.parser, m.subs.table.Keys), link := m.link.(connected := false))
    else m
  }

  function Connected(m: Manager): Manager {
    m.(parser := Start(m.parser),
       link := m.link.(connected := true, sent := [], waitFrom := map s | s in m.parser.routes :: 0),
       call := Connecting(m.subs.table.Keys))
  }

  function Parse(check: Option<ChecksumFunction>, m: Manager, message: Message): Manager {
    var emitted := Emit(check, m.parser, message);
    var parsed := m.(parser := emitted.parser);
    if emitted.mismatch.None? then parsed
    else
      parsed.(resub := m.resub.(callback := emitted.mismatch),
              link := m.link.(waitFrom := m.link.waitFrom[emitted.mismatch.value := |m.link.sent|]))
  }

  /** RequestResubscribe: queue the pair once. */
  function Queue(r: Resubscriber): Resubscriber
    requires r.callback.Some?
  {
    r.(pending := if r.callback.value in r.pending then r.pending else r.pending + [r.callback.value], callback := None)
  }

  function FinishResubscribe(m: Manager): Manager
    requires m.call.Resubscribing?
  {
    var book := BookOf(m.subs, m.call.id);
    m.(link := SendLocked(m.link, true, book), call := Idle,
       resub := m.resub.(hand := Done(book.symbol),
                         made := m.resub.made + [Resubscription(book.symbol, m.call.begun, m.resub.clock)]))
  }

  function Do(check: Option<ChecksumFunction>, m: Manager, step: Step): Manager
    requires Enabled(m, step)
  {
    match step
    case Issue(venue, sink, book) =>
      var id := MakeSubscriptionId(m.subs.nextCounter, venue, sink);
      m.(subs := m.subs.(nextCounter := m.subs.nextCounter + 1, subscribers := m.subs.subscribers[id := Subscriber(book, false)]))
    case IssueElsewhere => m.(subs := m.subs.(nextCounter := m.subs.nextCounter + 1))
    case Check(id) => m.(subs := CheckTaken(m.subs, id))
    case FetchFails(id) => m.(subs := m.subs.(subscribers := m.subs.subscribers - {id}))
    case Commit(id, precision) => CommitSubscriber(m, id, precision)
    case SubscribeSends => m.(link := SendLocked(m.link, true, BookOf(m.subs, m.call.id)), call := Idle)
    case UnsubscribeBegins(id) => m.(parser := Detach(m.parser, m.subs.table[id].symbol), call := Unsubscribing(id))
    case UnsubscribeEnds => FinishUnsubscribe(m)
    case ConnectBegins => var d := Disconnected(m); d.(link := d.link.(failed := false), call := Starting)
    case FeedUp => Connected(m)
    case FeedFails => m.(parser := Stop(Start(m.parser)), call := Idle)
    case ConnectSends(id) =>
      m.(link := SendLocked(m.link, true, BookOf(m.subs, id)), call := Connecting(m.call.todo - {id}))
    case ConnectEnds => m.(call := Idle)
    case Disconnect => Disconnected(m)
    case Fail => m.(link := m.link.(failed := true))
    case Frame(message) => Parse(check, m, message)
    case QueueMismatch => m.(resub := Queue(m.resub))
    case Pop => m.(resub := m.resub.(hand := Holding(m.resub.pending[0]), pending := m.resub.pending[1..]))
    case ResubscribeBegins(id) => m.(call := Call.Resubscribing(id, m.resub.clock, false))
    case ResubscribeSkips => m.(resub := m.resub.(hand := Done(m.resub.hand.symbol)))
    case ResubscribeUnsubscribes =>
      m.(link := SendLocked(m.link, false, BookOf(m.subs, m.call.id)), call := m.call.(unsubscribed := true))
    case ResubscribeSubscribes => FinishResubscribe(m)
    case NoteResubscribed =>
      m.(resub := m.resub.(last := m.resub.last[m.resub.hand.symbol := m.resub.clock], hand := Empty))
    case Tick(nanos) => m.(resub := m.resub.(clock := m.resub.clock + nanos))
  }

  // ----- The subscription table -----------------------------------------------------

  /** At most one subscription per symbol, and the parser's routes are exactly the table. */
  ghost predicate RoutesAgree(table: map<Id, BookSpec>, routes: map<string, Route>, call: Call) {
    && (forall i, j :: i in table && j in table && i != j ==> table[i].symbol != table[j].symbol)
    && (forall s :: s in routes ==>
         && routes[s].receiver in table
         && table[routes[s].receiver] == BookSpec(s, routes[s].depth))
    && (forall id :: id in table && call != Unsubscribing(id) ==>
         table[id].symbol in routes && routes[table[id].symbol].receiver == id)
    && (call.Unsubscribing? && call.id in table ==> table[call.id].symbol !in routes)
  }

  ghost predicate CallAgrees(m: Manager) {
    && (m.link.connected <==> m.parser.running)
    && (m.resub.callback.Some? ==> m.link.connected)
    && match m.call
       case Idle => true
       case Starting => !m.link.connected
       case Connecting(todo) => m.link.connected && todo <= m.subs.table.Keys
       case Subscribing(id) => id in m.subs.table
       case Unsubscribing(id) => id in m.subs.table
       case Resubscribing(id, _, _) =>
         m.link.connected && id in m.subs.table && m.resub.hand == Holding(m.subs.table[id].symbol)
  }

  ghost predicate TableAgrees(m: Manager) {
    RoutesAgree(m.subs.table, m.parser.routes, m.call) && CallAgrees(m)
  }

  /** Every id in use was issued, and one still on its way to the table is used nowhere else. */
  ghost predicate IdsAreFresh(subs: Subscriptions, logs: map<ReceiverId, Log>) {
    && 1 <= subs.nextCounter
    && subs.faults == {}
    && (forall id :: id in subs.subscribers || id in subs.table || id in logs ==> CounterOf(id) < subs.nextCounter)
    && (forall id :: id in subs.subscribers ==> id !in subs.table && id !in logs)
    && subs.registered <= subs.table.Keys
  }

  lemma RoutesFrame(check: Option<ChecksumFunction>, p: Parser, message: Message)
    ensures var q := Emit(check, p, message).parser;
      && q.routes.Keys == p.routes.Keys && q.running == p.running
      && (forall s :: s in p.routes ==> q.routes[s].receiver == p.routes[s].receiver && q.routes[s].depth == p.routes[s].depth)
      && (Wired(p) ==> q.logs.Keys == p.logs.Keys)
  {
  }

  lemma EntryKeepsRoutes(table: map<Id, BookSpec>, routes: map<string, Route>, id: Id, book: BookSpec, route: Route)
    requires RoutesAgree(table, routes, Idle) && id !in table && book.symbol !in routes
    requires route.receiver == id && route.depth == book.depth
    ensures RoutesAgree(table[id := book], routes[book.symbol := route], Subscribing(id))
  {
  }

  lemma CommitKeepsTable(m: Manager, id: Id, precision: Precision)
    requires TableAgrees(m) && IdsAreFresh(m.subs, m.parser.logs) && id in m.subs.subscribers && LockIsFree(m)
    ensures TableAgrees(CommitSubscriber(m, id, precision))
  {
    var book := m.subs.subscribers[id].book;
    if id !in m.subs.table && book.symbol !in m.parser.routes {
      var routes := Attach(m.parser, book.symbol, precision, book.depth, id).value.routes;
      EntryKeepsRoutes(m.subs.table, m.parser.routes, id, book, routes[book.symbol]);
    }
  }

  lemma CommitKeepsIds(m: Manager, id: Id, precision: Precision)
    requires TableAgrees(m) && IdsAreFresh(m.subs, m.parser.logs) && id in m.subs.subscribers && LockIsFree(m)
    ensures IdsAreFresh(CommitSubscriber(m, id, precision).subs, CommitSubscriber(m, id, precision).parser.logs)
  {
  }

  lemma UnsubscribeKeepsTable(m: Manager)
    requires TableAgrees(m) && m.call.Unsubscribing?
    ensures TableAgrees(FinishUnsubscribe(m))
  {
  }

  predicate ChangesConnection(step: Step) {
    step.ConnectBegins? || step.FeedUp? || step.FeedFails? || step.Disconnect?
  }

  lemma ConnectionKeepsTable(check: Option<ChecksumFunction>, m: Manager, step: Step)
    requires TableAgrees(m) && Enabled(m, step) && ChangesConnection(step)
    ensures TableAgrees(Do(check, m, step))
  {
  }

  lemma FrameKeepsTable(check: Option<ChecksumFunction>, m: Manager, message: Message)
    requires TableAgrees(m) && m.link.connected
    ensures TableAgrees(Parse(check, m, message))
  {
    RoutesFrame(check, m.parser, message);
  }

  lemma TableStaysOtherwise(check: Option<ChecksumFunction>, m: Manager, step: Step)
    requires TableAgrees(m) && Enabled(m, step)
    requires !step.Commit? && !step.UnsubscribeEnds? && !step.Frame? && !ChangesConnection(step)
    ensures TableAgrees(Do(check, m, step))
  {
    if step.UnsubscribeBegins? {
    } else {
      var n := Do(check, m, step);
      assert n.subs.table == m.subs.table && n.parser == m.parser;
      assert RoutesAgree(n.subs.table, n.parser.routes, n.call);
    }
  }

  lemma TableStays(check: Option<ChecksumFunction>, m: Manager, step: Step)
    requires TableAgrees(m) && IdsAreFresh(m.subs, m.parser.logs) && Enabled(m, step)
    ensures TableAgrees(Do(check, m, step))
  {
    if ChangesConnection(step) { ConnectionKeepsTable(check, m, step); }
    else if step.Commit? { CommitKeepsTable(m, step.id, step.precision); }
    else if step.UnsubscribeEnds? { UnsubscribeKeepsTable(m); }
    else if step.Frame? { FrameKeepsTable(check, m, step.message); }
    else { TableStaysOtherwise(check, m, step); }
  }

  lemma IdsStayFresh(check: Option<ChecksumFunction>, m: Manager, step: Step)
    requires TableAgrees(m) && IdsAreFresh(m.subs, m.parser.logs) && Wired(m.parser) && Enabled(m, step)
    ensures IdsAreFresh(Do(check, m, step).subs, Do(check, m, step).parser.logs)
  {
    match step
    case Issue(venue, sink, _) =>
      assert CounterOf(MakeSubscriptionId(m.subs.nextCounter, venue, sink)) == m.subs.nextCounter;
    case Commit(id, precision) => CommitKeepsIds(m, id, precision);
    case Frame(message) => RoutesFrame(check, m.parser, message);
    case _ =>
  }

  // ----- The requests of the current connection -------------------------------------

  /** What a venue handling the requests in order is left streaming, symbol to depth. */
  function Fold(sent: seq<Request>): map<string, nat> {
    if sent == [] then map[]
    else
      var before := Fold(sent[..|sent| - 1]);
      var last := sent[|sent| - 1];
      if last.subscribe then before[last.book.symbol := last.book.depth] else before - {last.book.symbol}
  }

  lemma FoldGrows(sent: seq<Request>, request: Request)
    ensures Fold(sent + [request])
         == if request.subscribe then Fold(sent)[request.book.symbol := request.book.depth]
            else Fold(sent) - {request.book.symbol}
  {
    assert (sent + [request])[..|sent|] == sent;
  }

  /** The subscriptions whose requests the call in progress has yet to send, or has taken back. */
  function Unsent(call: Call): set<Id> {
    match call
    case Connecting(todo) => todo
    case Subscribing(id) => {id}
    case Resubscribing(id, _, true) => {id}
    case _ => {}
  }

  /** The venue streams exactly the subscriptions of the table outside `except`. */
  ghost predicate Mirrors(venue: map<string, nat>, table: map<Id, BookSpec>, except: set<Id>) {
    && (forall id :: id in table && id !in except ==> table[id].symbol in venue && venue[table[id].symbol] == table[id].depth)
    && (forall s :: s in venue ==> Listed(table, except, s))
  }

  ghost predicate Listed(table: map<Id, BookSpec>, except: set<Id>, symbol: string) {
    exists id :: id in table && id !in except && table[id].symbol == symbol
  }

  ghost predicate VenueAgrees(m: Manager) {
    m.link.connected ==> Mirrors(Fold(m.link.sent), m.subs.table, Unsent(m.call))
  }

  lemma MirrorsAfterSubscribe(venue: map<string, nat>, table: map<Id, BookSpec>, except: set<Id>, id: Id)
    requires Mirrors(venue, table, except) && id in except && id in table
    requires forall i, j :: i in table && j in table && i != j ==> table[i].symbol != table[j].symbol
    ensures Mirrors(venue[table[id].symbol := table[id].depth], table, except - {id})
  {
    forall s | s in venue || s == table[id].symbol ensures Listed(table, except - {id}, s) {
      if s == table[id].symbol {
        assert id in table && id !in except - {id};
      } else {
        var i :| i in table && i !in except && table[i].symbol == s;
        assert i !in except - {id};
      }
    }
  }

  lemma MirrorsAfterUnsubscribe(venue: map<string, nat>, table: map<Id, BookSpec>, except: set<Id>, id: Id)
    requires Mirrors(venue, table, except) && id in table
    requires forall i, j :: i in table && j in table && i != j ==> table[i].symbol != table[j].symbol
    ensures Mirrors(venue - {table[id].symbol}, table, except + {id})
  {
    forall s | s in venue && s != table[id].symbol ensures Listed(table, except + {id}, s) {
      var i :| i in table && i !in except && table[i].symbol == s;
      assert i !in except + {id};
    }
  }

  lemma MirrorsFrame(venue: map<string, nat>, table: map<Id, BookSpec>, except: set<Id>, table': map<Id, BookSpec>, except': set<Id>)
    requires Mirrors(venue, table, except)
    requires forall id :: (id in table && id !in except) <==> (id in table' && id !in except')
    requires forall id :: id in table && id in table' ==> table[id] == table'[id]
    ensures Mirrors(venue, table', except')
  {
    forall s | s in venue ensures Listed(table', except', s) {
      var i :| i in table && i !in except && table[i].symbol == s;
      assert i in table' && i !in except';
    }
  }

  lemma SubscribeIsMirrored(m: Manager, n: Manager, id: Id)
    requires TableAgrees(m) && VenueAgrees(m) && m.link.connected
    requires n.link.sent == m.link.sent + [Request(true, BookOf(m.subs, id))] && n.subs.table == m.subs.table
    requires id in m.subs.table && id in Unsent(m.call) && Unsent(n.call) == Unsent(m.call) - {id}
    ensures VenueAgrees(n)
  {
    FoldGrows(m.link.sent, Request(true, m.subs.table[id]));
    MirrorsAfterSubscribe(Fold(m.link.sent), m.subs.table, Unsent(m.call), id);
  }

  lemma UnsubscribeIsMirrored(m: Manager, n: Manager, id: Id)
    requires TableAgrees(m) && VenueAgrees(m) && m.link.connected
    requires n.link.sent == m.link.sent + [Request(false, BookOf(m.subs, id))]
    requires id in m.subs.table
    requires forall i :: (i in n.subs.table && i !in Unsent(n.call)) <==> (i in m.subs.table && i !in Unsent(m.call) + {id})
    requires forall i :: i in m.subs.table && i in n.subs.table ==> m.subs.table[i] == n.subs.table[i]
    ensures VenueAgrees(n)
  {
    var table := m.subs.table;
    FoldGrows(m.link.sent, Request(false, table[id]));
    MirrorsAfterUnsubscribe(Fold(m.link.sent), table, Unsent(m.call), id);
    MirrorsFrame(Fold(n.link.sent), table, Unsent(m.call) + {id}, n.subs.table, Unsent(n.call));
  }

  predicate Sends(step: Step) {
    step.SubscribeSends? || step.ConnectSends? || step.ResubscribeUnsubscribes? || step.ResubscribeSubscribes? || step.UnsubscribeEnds?
  }

  lemma SendsAreMirrored(check: Option<ChecksumFunction>, m: Manager, step: Step)
    requires TableAgrees(m) && VenueAgrees(m) && Enabled(m, step) && Sends(step)
    ensures VenueAgrees(Do(check, m, step))
  {
    var n := Do(check, m, step);
    if m.link.connected {
      match step
      case SubscribeSends => SubscribeIsMirrored(m, n, m.call.id);
      case ConnectSends(id) => SubscribeIsMirrored(m, n, id);
      case ResubscribeUnsubscribes => UnsubscribeIsMirrored(m, n, m.call.id);
      case ResubscribeSubscribes => SubscribeIsMirrored(m, n, m.call.id);
      case UnsubscribeEnds => UnsubscribeIsMirrored(m, n, m.call.id);
    }
  }

  lemma MirrorsAfterCommit(venue: map<string, nat>, table: map<Id, BookSpec>, id: Id, book: BookSpec)
    requires Mirrors(venue, table, {}) && id !in table
    ensures Mirrors(venue, table[id := book], {id})
  {
    forall s | s in venue ensures Listed(table[id := book], {id}, s) {
      var i :| i in table && i !in {} && table[i].symbol == s;
      assert i in table[id := book] && i !in {id};
    }
  }

  lemma CommitKeepsVenue(m: Manager, id: Id, precision: Precision)
    requires VenueAgrees(m) && id in m.subs.subscribers && LockIsFree(m)
    ensures VenueAgrees(CommitSubscriber(m, id, precision))
  {
    if m.link.connected && id !in m.subs.table {
      MirrorsAfterCommit(Fold(m.link.sent), m.subs.table, id, m.subs.subscribers[id].book);
    }
  }

  lemma FreshConnectionMirrors(m: Manager)
    ensures VenueAgrees(Connected(m))
  {
  }

  predicate Quiet(step: Step) { !Sends(step) && !step.Commit? && !step.FeedUp? }

  lemma QuietStepsSendNothing(check: Option<ChecksumFunction>, m: Manager, step: Step)
    requires CallAgrees(m) && Enabled(m, step) && Quiet(step)
    ensures var n := Do(check, m, step);
      n.subs.table == m.subs.table && (n.link.connected ==>
        m.link.connected && n.link.sent == m.link.sent && Unsent(n.call) == Unsent(m.call))
  {
  }

  lemma VenueStays(check: Option<ChecksumFunction>, m: Manager, step: Step)
    requires TableAgrees(m) && VenueAgrees(m) && Enabled(m, step)
    ensures VenueAgrees(Do(check, m, step))
  {
    if Sends(step) { SendsAreMirrored(check, m, step); }
    else if step.Commit? { CommitKeepsVenue(m, step.id, step.precision); }
    else if step.FeedUp? { FreshConnectionMirrors(m); }
    else { QuietStepsSendNothing(check, m, step); }
  }

  // ----- No pair is silently stuck --------------------------------------------------

  ghost predicate SentSince(sent: seq<Request>, symbol: string, from: nat) {
    exists i :: from <= i < |sent| && sent[i].subscribe && sent[i].book.symbol == symbol
  }

  /** The call in progress is going to subscribe to the pair. */
  predicate ToBeSent(subs: Subscriptions, call: Call, symbol: string) {
    match call
    case Subscribing(id) => BookOf(subs, id).symbol == symbol
    case Connecting(todo) => exists id :: id in todo && BookOf(subs, id).symbol == symbol
    case _ => false
  }

  predicate InHand(r: Resubscriber, symbol: string) {
    r.callback == Some(symbol) || symbol in r.pending || r.hand == Holding(symbol)
  }

  ghost predicate Rescued(m: Manager, symbol: string) {
    || InHand(m.resub, symbol)
    || ToBeSent(m.subs, m.call, symbol)
    || (symbol in m.link.waitFrom && SentSince(m.link.sent, symbol, m.link.waitFrom[symbol]))
  }

  /** Every pair waiting for a snapshot has a subscribe sent since, or on its way. */
  ghost predicate NoneStuck(m: Manager) {
    m.link.connected ==>
      forall s :: s in m.parser.routes && m.parser.routes[s].awaiting ==> Rescued(m, s)
  }

  lemma SentSinceGrows(sent: seq<Request>, more: seq<Request>, symbol: string, from: nat)
    requires SentSince(sent, symbol, from)
    ensures SentSince(sent + more, symbol, from)
  {
    var i :| from <= i < |sent| && sent[i].subscribe && sent[i].book.symbol == symbol;
    assert (sent + more)[i] == sent[i];
  }

  lemma SubscribeRescues(sent: seq<Request>, book: BookSpec, from: nat)
    requires from <= |sent|
    ensures SentSince(sent + [Request(true, book)], book.symbol, from)
  {
    assert (sent + [Request(true, book)])[|sent|] == Request(true, book);
  }

  ghost predicate WaitsAreKnown(m: Manager) {
    m.link.connected ==> forall s :: s in m.parser.routes ==> s in m.link.waitFrom && m.link.waitFrom[s] <= |m.link.sent|
  }

  lemma SendRescues(m: Manager, n: Manager, subscribe: bool, book: BookSpec)
    requires NoneStuck(m) && WaitsAreKnown(m)
    requires n.link == SendLocked(m.link, subscribe, book) && n.parser == m.parser
    requires m.link.connected ==> forall s :: InHand(m.resub, s) ==> InHand(n.resub, s) || (subscribe && s == book.symbol)
    requires m.link.connected ==> forall s :: ToBeSent(m.subs, m.call, s) ==> ToBeSent(n.subs, n.call, s) || (subscribe && s == book.symbol)
    ensures NoneStuck(n) && WaitsAreKnown(n)
  {
    if m.link.connected {
      forall s | s in m.parser.routes && m.parser.routes[s].awaiting ensures Rescued(n, s) {
        assert Rescued(m, s);
        if SentSince(m.link.sent, s, m.link.waitFrom[s]) {
          SentSinceGrows(m.link.sent, [Request(subscribe, book)], s, m.link.waitFrom[s]);
        }
        if subscribe && s == book.symbol { SubscribeRescues(m.link.sent, book, m.link.waitFrom[s]); }
      }
    }
  }

  ghost predicate Waits(m: Manager) { NoneStuck(m) && WaitsAreKnown(m) }

  lemma SendsRescue(check: Option<ChecksumFunction>, m: Manager, step: Step)
    requires TableAgrees(m) && Waits(m) && Enabled(m, step) && Sends(step)
    ensures Waits(Do(check, m, step))
  {
    var n := Do(check, m, step);
    var id := if step.ConnectSends? then step.id else m.call.id;
    var subscribe := !step.UnsubscribeEnds? && !step.ResubscribeUnsubscribes?;
    SendRescues(m, n, subscribe, BookOf(m.subs, id));
  }

  lemma CommitRescues(m: Manager, id: Id, precision: Precision)
    requires TableAgrees(m) && Waits(m) && id in m.subs.subscribers && LockIsFree(m)
    ensures Waits(CommitSubscriber(m, id, precision))
  {
    var n := CommitSubscriber(m, id, precision);
    if m.link.connected && n != m.(subs := n.subs) {
      forall s | s in n.parser.routes && n.parser.routes[s].awaiting ensures Rescued(n, s) {
        if s != m.subs.subscribers[id].book.symbol { assert Rescued(m, s); }
      }
    }
  }

  lemma FeedUpRescues(m: Manager)
    requires TableAgrees(m) && m.call.Starting?
    ensures Waits(Connected(m))
  {
    var n := Connected(m);
    forall s | s in n.parser.routes ensures ToBeSent(n.subs, n.call, s) {
      var id := m.parser.routes[s].receiver;
      assert id in n.call.todo && BookOf(n.subs, id).symbol == s;
    }
  }

  lemma MismatchIsNoticed(check: Option<ChecksumFunction>, p: Parser, message: Message)
    ensures var e := Emit(check, p, message);
      && (e.mismatch.Some? ==> e.mismatch.value == message.symbol && message.symbol in p.routes)
      && (forall s :: s in p.routes && e.parser.routes[s].awaiting ==> p.routes[s].awaiting || e.mismatch == Some(s))
  {
  }

  lemma FrameRescues(check: Option<ChecksumFunction>, m: Manager, message: Message)
    requires TableAgrees(m) && Waits(m) && m.link.connected && m.resub.callback.None?
    ensures Waits(Parse(check, m, message))
  {
    var n := Parse(check, m, message);
    RoutesFrame(check, m.parser, message);
    MismatchIsNoticed(check, m.parser, message);
    forall s | s in n.parser.routes && n.parser.routes[s].awaiting ensures Rescued(n, s) {
      if n.resub.callback != Some(s) { assert Rescued(m, s); }
    }
  }

  predicate OnResubscriber(step: Step) {
    step.QueueMismatch? || step.Pop? || step.ResubscribeSkips? || step.NoteResubscribed? || step.Tick?
  }

  lemma ResubscriberLosesNothing(check: Option<ChecksumFunction>, m: Manager, step: Step)
    requires TableAgrees(m) && Waits(m) && Enabled(m, step) && OnResubscriber(step)
    ensures Waits(Do(check, m, step))
  {
    var n := Do(check, m, step);
    if m.link.connected {
      forall s | s in m.parser.routes ensures InHand(m.resub, s) ==> InHand(n.resub, s) {
        var id := m.parser.routes[s].receiver;
        assert id in m.subs.table && m.subs.table[id].symbol == s;
        if step.Pop? { assert m.resub.pending == [m.resub.pending[0]] + m.resub.pending[1..]; }
      }
      forall s | s in n.parser.routes && n.parser.routes[s].awaiting ensures Rescued(n, s) {
        assert Rescued(m, s);
      }
    }
  }

  /** Steps that leave every waiting pair and every rescue as they were, or end the connection. */
  predicate Bystander(step: Step) {
    !Sends(step) && !step.Commit? && !step.FeedUp? && !step.Frame? && !OnResubscriber(step)
  }

  lemma BystandersAreHarmless(check: Option<ChecksumFunction>, m: Manager, step: Step)
    requires CallAgrees(m) && Waits(m) && Enabled(m, step) && Bystander(step)
    ensures Waits(Do(check, m, step))
  {
    var n := Do(check, m, step);
    if n.link.connected {
      assert n.resub == m.resub && n.link.sent == m.link.sent && n.link.waitFrom == m.link.waitFrom;
      forall s | s in n.parser.routes && n.parser.routes[s].awaiting ensures Rescued(n, s) {
        assert s in m.parser.routes && n.parser.routes[s] == m.parser.routes[s];
        assert Rescued(m, s);
        assert !ToBeSent(m.subs, m.call, s) || n.call == m.call;
      }
    }
  }

  lemma WaitsStay(check: Option<ChecksumFunction>, m: Manager, step: Step)
    requires TableAgrees(m) && Waits(m) && Enabled(m, step)
    ensures Waits(Do(check, m, step))
  {
    if Sends(step) { SendsRescue(check, m, step); }
    else if step.Commit? { CommitRescues(m, step.id, step.precision); }
    else if step.FeedUp? { FeedUpRescues(m); }
    else if step.Frame? { FrameRescues(check, m, step.message); }
    else if OnResubscriber(step) { ResubscriberLosesNothing(check, m, step); }
    else { BystandersAreHarmless(check, m, step); }
  }

  // ----- At most one resubscription per interval ------------------------------------

  ghost predicate Spaced(made: seq<Resubscription>) {
    forall i, j :: 0 <= i < j < |made| && made[i].symbol == made[j].symbol
      ==> made[j].begun >= made[i].ended + MIN_RESUBSCRIBE_INTERVAL
  }

  ghost predicate AllOver(made: seq<Resubscription>, symbol: string, now: nat) {
    forall i :: 0 <= i < |made| && made[i].symbol == symbol ==> now >= made[i].ended + MIN_RESUBSCRIBE_INTERVAL
  }

  ghost predicate TimesAgree(r: Resubscriber, call: Call, subs: Subscriptions) {
    && Spaced(r.made)
    && (forall i :: 0 <= i < |r.made| ==> r.made[i].begun <= r.made[i].ended <= r.clock)
    && (forall i :: 0 <= i < |r.made| && r.hand != Done(r.made[i].symbol) ==>
         r.made[i].symbol in r.last && r.last[r.made[i].symbol] >= r.made[i].ended)
    && (call.Resubscribing? ==> call.begun <= r.clock && AllOver(r.made, BookOf(subs, call.id).symbol, call.begun))
  }

  lemma ResubscriberKeepsTimes(check: Option<ChecksumFunction>, m: Manager, step: Step)
    requires step.ResubscribeSubscribes? || step.NoteResubscribed? || step.ResubscribeSkips? || step.Pop? || step.Tick?
    requires CallAgrees(m) && TimesAgree(m.resub, m.call, m.subs) && Enabled(m, step)
    ensures TimesAgree(Do(check, m, step).resub, Do(check, m, step).call, Do(check, m, step).subs)
  {
  }

  lemma OthersKeepTimes(check: Option<ChecksumFunction>, m: Manager, step: Step)
    requires !step.ResubscribeSubscribes? && !step.NoteResubscribed? && !step.ResubscribeSkips? && !step.Pop? && !step.Tick?
    requires CallAgrees(m) && TimesAgree(m.resub, m.call, m.subs) && Enabled(m, step)
    ensures TimesAgree(Do(check, m, step).resub, Do(check, m, step).call, Do(check, m, step).subs)
  {
    var n := Do(check, m, step);
    assert n.resub.made == m.resub.made && n.resub.last == m.resub.last && n.resub.clock == m.resub.clock;
    assert n.resub.hand == m.resub.hand;
  }

  lemma TimesStay(check: Option<ChecksumFunction>, m: Manager, step: Step)
    requires CallAgrees(m) && TimesAgree(m.resub, m.call, m.subs) && Enabled(m, step)
    ensures TimesAgree(Do(check, m, step).resub, Do(check, m, step).call, Do(check, m, step).subs)
  {
    if step.ResubscribeSubscribes? || step.NoteResubscribed? || step.ResubscribeSkips? || step.Pop? || step.Tick? {
      ResubscriberKeepsTimes(check, m, step);
    } else {
      OthersKeepTimes(check, m, step);
    }
  }

  // ----- What the receivers are told ------------------------------------------------

  lemma RouteReceivers(table: map<Id, BookSpec>, routes: map<string, Route>)
    requires RoutesAgree(table, routes, Idle)
    ensures table.Keys == set s | s in routes :: routes[s].receiver
  {
    forall id | id in table ensures id in (set s | s in routes :: routes[s].receiver) {
      assert table[id].symbol in routes;
    }
  }

  lemma DisconnectTellsAll(check: Option<ChecksumFunction>, m: Manager)
    requires TableAgrees(m) && LockIsFree(m) && ParserSpec.Valid(check, m.parser)
    ensures ParserSpec.Valid(check, Disconnected(m).parser)
  {
    RouteReceivers(m.subs.table, m.parser.routes);
    EndConnectionIsValid(check, m.parser, m.subs.table.Keys);
  }

  lemma CommitKeepsLogs(check: Option<ChecksumFunction>, m: Manager, id: Id, precision: Precision)
    requires IdsAreFresh(m.subs, m.parser.logs) && ParserSpec.Valid(check, m.parser) && id in m.subs.subscribers
    ensures ParserSpec.Valid(check, CommitSubscriber(m, id, precision).parser)
  {
    var book := m.subs.subscribers[id].book;
    if book.symbol !in m.parser.routes { AttachIsValid(check, m.parser, book.symbol, precision, book.depth, id); }
  }

  lemma LogsStay(check: Option<ChecksumFunction>, m: Manager, step: Step)
    requires TableAgrees(m) && IdsAreFresh(m.subs, m.parser.logs) && ParserSpec.Valid(check, m.parser) && Enabled(m, step)
    ensures ParserSpec.Valid(check, Do(check, m, step).parser)
  {
    match step
    case Commit(id, precision) => CommitKeepsLogs(check, m, id, precision);
    case UnsubscribeBegins(id) => DetachIsValid(check, m.parser, m.subs.table[id].symbol);
    case ConnectBegins => DisconnectTellsAll(check, m);
    case FeedUp => StartIsValid(check, m.parser);
    case FeedFails => FailedStartIsValid(check, m.parser);
    case Disconnect => DisconnectTellsAll(check, m);
    case Frame(message) => EmitIsValid(check, m.parser, message);
    case _ =>
  }

  /** An attempt to connect that fails, from a manager already disconnected, tells no receiver anything. */
  lemma FailedConnectIsSilent(check: Option<ChecksumFunction>, m: Manager)
    requires !m.link.connected && LockIsFree(m)
    ensures var n := Do(check, Do(check, m, ConnectBegins), FeedFails);
      n.parser.logs == m.parser.logs && !n.link.connected && n.call.Idle?
  {
  }

  // ----- Every reachable state ------------------------------------------------------

  ghost predicate Invariant(check: Option<ChecksumFunction>, m: Manager) {
    && TableAgrees(m)
    && IdsAreFresh(m.subs, m.parser.logs)
    && VenueAgrees(m)
    && Waits(m)
    && TimesAgree(m.resub, m.call, m.subs)
    && ParserSpec.Valid(check, m.parser)
  }

  /** Some interleaving of the threads' steps leads from a new manager through `states`. */
  ghost predicate IsRun(check: Option<ChecksumFunction>, states: seq<Manager>, steps: seq<Step>) {
    && |states| == |steps| + 1
    && states[0] == NEW
    && forall i :: 0 <= i < |steps| ==> Enabled(states[i], steps[i]) && states[i + 1] == Do(check, states[i], steps[i])
  }

  lemma StepKeepsInvariant(check: Option<ChecksumFunction>, m: Manager, step: Step)
    requires Invariant(check, m) && Enabled(m, step)
    ensures Invariant(check, Do(check, m, step))
  {
    TableStays(check, m, step);
    IdsStayFresh(check, m, step);
    VenueStays(check, m, step);
    WaitsStay(check, m, step);
    TimesStay(check, m, step);
    LogsStay(check, m, step);
  }

  lemma {:induction false} RunsKeepInvariant(check: Option<ChecksumFunction>, states: seq<Manager>, steps: seq<Step>)
    requires IsRun(check, states, steps)
    ensures Invariant(check, states[|steps|])
  {
    if steps == [] {
      InitialIsValid(check);
    } else {
      var n := |steps| - 1;
      assert IsRun(check, states[..n + 1], steps[..n]);
      RunsKeepInvariant(check, states[..n + 1], steps[..n]);
      StepKeepsInvariant(check, states[n], steps[n]);
    }
  }

  /**
    A pair still waiting for its snapshot on a connected manager, with no call in progress, is queued to
    be resubscribed, is in the resubscriber's hand, or was subscribed to since it began
    to wait, and the venue is left streaming it.
   */
  lemma NoPairIsStuck(check: Option<ChecksumFunction>, states: seq<Manager>, steps: seq<Step>, symbol: string)
    requires IsRun(check, states, steps)
    requires states[|steps|].link.connected && LockIsFree(states[|steps|])
    requires symbol in states[|steps|].parser.routes && states[|steps|].parser.routes[symbol].awaiting
    ensures var m := states[|steps|];
      && symbol in m.link.waitFrom
      && (symbol in m.resub.pending || m.resub.hand == Holding(symbol)
          || SentSince(m.link.sent, symbol, m.link.waitFrom[symbol]))
      && symbol in Fold(m.link.sent)
  {
    RunsKeepInvariant(check, states, steps);
    var m := states[|steps|];
    assert Rescued(m, symbol);
    assert m.parser.routes[symbol].receiver in m.subs.table;
  }

  /** One pair is never resubscribed twice within the interval. */
  lemma ResubscriptionsAreSpaced(check: Option<ChecksumFunction>, states: seq<Manager>, steps: seq<Step>, i: nat, j: nat)
    requires IsRun(check, states, steps)
    requires i < j < |states[|steps|].resub.made|
    requires states[|steps|].resub.made[i].symbol == states[|steps|].resub.made[j].symbol
    ensures states[|steps|].resub.made[j].begun >= states[|steps|].resub.made[i].ended + MIN_RESUBSCRIBE_INTERVAL
  {
    RunsKeepInvariant(check, states, steps);
  }

  /** With no call in progress: the table, the parser's routes and what the venue was asked for all agree. */
  lemma TableRoutesAndVenueAgree(check: Option<ChecksumFunction>, states: seq<Manager>, steps: seq<Step>)
    requires IsRun(check, states, steps) && states[|steps|].call.Idle?
    ensures var m := states[|steps|];
      && (forall i, j :: i in m.subs.table && j in m.subs.table && m.subs.table[i].symbol == m.subs.table[j].symbol ==> i == j)
      && (forall s :: s in m.parser.routes <==> exists id :: id in m.subs.table && m.subs.table[id].symbol == s)
      && (forall id :: id in m.subs.table ==>
           && m.parser.routes[m.subs.table[id].symbol].receiver == id
           && m.parser.routes[m.subs.table[id].symbol].depth == m.subs.table[id].depth)
      && (m.link.connected ==>
           && (forall s :: s in Fold(m.link.sent) <==> s in m.parser.routes)
           && (forall s :: s in m.parser.routes ==> Fold(m.link.sent)[s] == m.parser.routes[s].depth)
           && (forall id :: id in m.subs.table ==> Fold(m.link.sent)[m.subs.table[id].symbol] == m.subs.table[id].depth))
  {
    RunsKeepInvariant(check, states, steps);
    var m := states[|steps|];
    forall s | m.link.connected && s in Fold(m.link.sent) ensures s in m.parser.routes {
      assert Listed(m.subs.table, {}, s);
    }
  }

  /** No interleaving reuses an id, registers a stream twice or attaches a pair twice. */
  lemma CallerErrorsAreUnreachable(check: Option<ChecksumFunction>, states: seq<Manager>, steps: seq<Step>)
    requires IsRun(check, states, steps)
    ensures states[|steps|].subs.faults == {}
  {
    RunsKeepInvariant(check, states, steps);
  }

  /**
    In every run, every receiver's log starts with a gap or a snapshot, resumes after a gap
    with a snapshot, has the end of a connection between messages of different ones and after all of its own,
    and carries only checksums that its replay has.
   */
  lemma ReceiverLogsAreWellFormed(check: Option<ChecksumFunction>, states: seq<Manager>, steps: seq<Step>, receiver: ReceiverId)
    requires IsRun(check, states, steps) && receiver in states[|steps|].parser.logs
    ensures var log := states[|steps|].parser.logs[receiver];
      && Gated(log.events) && Separated(log.events) && EndsLast(log.events)
      && (check.Some? ==> Certified(check.value, log.depth, log.events))
  {
    RunsKeepInvariant(check, states, steps);
    var log := states[|steps|].parser.logs[receiver];
    GoodLogMeans(check, log.depth, log.events);
  }

  // ----- Steps taken in one go, by a thread that keeps the lock ---------------------

  /** A Subscribe's second half, when nothing is taken. */
  function Subscribed(m: Manager, id: Id, book: BookSpec, parser: Parser): Manager {
    m.(subs := m.subs.(subscribers := m.subs.subscribers - {id}, table := m.subs.table[id := book],
                       registered := if IsLive(id) then m.subs.registered + {id} else m.subs.registered),
       parser := parser,
       link := SendLocked(m.link.(waitFrom := m.link.waitFrom[book.symbol := |m.link.sent|]), true, book))
  }

  lemma SubscribeIsTwoSteps(check: Option<ChecksumFunction>, m: Manager, id: Id, precision: Precision)
    requires Invariant(check, m) && Enabled(m, Commit(id, precision)) && !Taken(m.subs, m.subs.subscribers[id].book.symbol)
    ensures var book := m.subs.subscribers[id].book;
      var attached := Attach(m.parser, book.symbol, precision, book.depth, id);
      && id !in m.parser.logs && book.symbol !in m.parser.routes && attached.Some?
      && Do(check, m, Commit(id, precision)).call.Subscribing?
      && Do(check, Do(check, m, Commit(id, precision)), SubscribeSends) == Subscribed(m, id, book, attached.value)
  {
    var book := m.subs.subscribers[id].book;
    assert book.symbol !in m.parser.routes;
    var done := m.subs.(subscribers := m.subs.subscribers - {id});
    assert (done.table)[id := book][id] == book;
  }

  function Unsubscribed(m: Manager, id: Id): Manager
    requires id in m.subs.table
  {
    m.(subs := m.subs.(table := m.subs.table - {id}, registered := m.subs.registered - {id}),
       parser := Detach(m.parser, m.subs.table[id].symbol),
       link := SendLocked(m.link, false, m.subs.table[id]))
  }

  lemma UnsubscribeIsTwoSteps(check: Option<ChecksumFunction>, m: Manager, id: Id)
    requires Enabled(m, UnsubscribeBegins(id))
    ensures Do(check, Do(check, m, UnsubscribeBegins(id)), UnsubscribeEnds) == Unsubscribed(m, id)
  {
  }

  function Resubscribed(m: Manager, book: BookSpec): Manager {
    m.(link := m.link.(sent := m.link.sent + [Request(false, book), Request(true, book)]),
       resub := m.resub.(hand := Done(book.symbol),
                         made := m.resub.made + [Resubscription(book.symbol, m.resub.clock, m.resub.clock)]))
  }

  lemma ResubscribeIsThreeSteps(check: Option<ChecksumFunction>, m: Manager, id: Id)
    requires Enabled(m, ResubscribeBegins(id))
    ensures var begun := Do(check, m, ResubscribeBegins(id));
      Do(check, Do(check, begun, ResubscribeUnsubscribes), ResubscribeSubscribes) == Resubscribed(m, m.subs.table[id])
  {
    var book := m.subs.table[id];
    assert m.link.sent + [Request(false, book)] + [Request(true, book)]
        == m.link.sent + [Request(false, book), Request(true, book)];
  }

  predicate IsLeast(ids: set<Id>, id: Id) { id in ids && forall other :: other in ids ==> id <= other }

  lemma {:induction false} LeastExists(ids: set<Id>)
    requires ids != {}
    ensures exists id :: IsLeast(ids, id)
  {
    var some :| some in ids;
    if ids == {some} {
      assert IsLeast(ids, some);
    } else {
      LeastExists(ids - {some});
      var least :| IsLeast(ids - {some}, least);
      assert ids == ids - {some} + {some};
      assert IsLeast(ids, if some < least then some else least);
    }
  }

  /** Connect's subscribes, in the order of the ids, then its end. */
  ghost function FinishConnect(check: Option<ChecksumFunction>, m: Manager): Manager
    requires m.call.Connecting?
    decreases m.call.todo
  {
    if m.call.todo == {} then Do(check, m, ConnectEnds)
    else
      LeastExists(m.call.todo);
      var id :| IsLeast(m.call.todo, id);
      FinishConnect(check, Do(check, m, ConnectSends(id)))
  }

  lemma NextSubscribe(check: Option<ChecksumFunction>, m: Manager, id: Id, n: Manager)
    requires m.call.Connecting? && IsLeast(m.call.todo, id)
    requires n == m.(link := SendLocked(m.link, true, BookOf(m.subs, id)), call := Connecting(m.call.todo - {id}))
    ensures FinishConnect(check, m) == FinishConnect(check, n)
  {
    assert Enabled(m, ConnectSends(id)) && n == Do(check, m, ConnectSends(id));
  }

  lemma LastSubscribe(check: Option<ChecksumFunction>, m: Manager)
    requires m.call == Connecting({})
    ensures FinishConnect(check, m) == m.(call := Idle)
  {
  }

  lemma {:induction false} FinishingStaysUp(check: Option<ChecksumFunction>, m: Manager)
    requires m.call.Connecting?
    ensures var n := FinishConnect(check, m);
      n.call.Idle? && n.link.connected == m.link.connected && n.link.failed == m.link.failed
    decreases m.call.todo
  {
    if m.call.todo != {} {
      LeastExists(m.call.todo);
      var id :| IsLeast(m.call.todo, id);
      var n := Do(check, m, ConnectSends(id));
      NextSubscribe(check, m, id, n);
      FinishingStaysUp(check, n);
    }
  }

  /** A connection being made: the last one ended, the parser started, the feed yet to come up. */
  function Started(m: Manager): Manager {
    var ended := Disconnected(m);
    ended.(parser := Start(ended.parser), link := ended.link.(failed := false), call := Starting)
  }

  function FeedIsUp(m: Manager): Manager {
    m.(link := m.link.(connected := true, sent := [], waitFrom := map s | s in m.parser.routes :: 0),
       call := Connecting(m.subs.table.Keys))
  }

  function FeedIsDown(m: Manager): Manager { m.(parser := Stop(m.parser), call := Idle) }

  /** A whole Connect that does not find a healthy connection: three steps at least, or two if the feed fails. */
  ghost function Reconnected(check: Option<ChecksumFunction>, m: Manager, up: bool): Manager
    requires Enabled(m, ConnectBegins)
  {
    var began := Do(check, m, ConnectBegins);
    if up then FinishConnect(check, Do(check, began, FeedUp)) else Do(check, began, FeedFails)
  }

  lemma ReconnectsInOneGo(check: Option<ChecksumFunction>, m: Manager, up: bool)
    requires Enabled(m, ConnectBegins)
    ensures Reconnected(check, m, up)
         == if up then FinishConnect(check, FeedIsUp(Started(m))) else FeedIsDown(Started(m))
  {
    var began := Do(check, m, ConnectBegins);
    assert Do(check, began, FeedUp) == FeedIsUp(Started(m));
    assert Do(check, began, FeedFails) == FeedIsDown(Started(m));
  }

  /** After a Connect the manager is healthy, or disconnected if the feed did not come up. */
  lemma ConnectingMakesHealthy(check: Option<ChecksumFunction>, m: Manager, up: bool)
    requires Enabled(m, ConnectBegins)
    ensures var n := Reconnected(check, m, up); n.call.Idle? && n.link.connected == up && !n.link.failed
  {
    ReconnectsInOneGo(check, m, up);
    if up { FinishingStaysUp(check, FeedIsUp(Started(m))); }
  }

  // ----- Calls made in one go keep the invariant ------------------------------------

  lemma SubscribedKeepsInvariant(check: Option<ChecksumFunction>, m: Manager, id: Id, precision: Precision, parser: Parser)
    requires Invariant(check, m) && Enabled(m, Commit(id, precision)) && !Taken(m.subs, m.subs.subscribers[id].book.symbol)
    requires var book := m.subs.subscribers[id].book; Some(parser) == Attach(m.parser, book.symbol, precision, book.depth, id)
    ensures Invariant(check, Subscribed(m, id, m.subs.subscribers[id].book, parser))
  {
    SubscribeIsTwoSteps(check, m, id, precision);
    StepKeepsInvariant(check, m, Commit(id, precision));
    StepKeepsInvariant(check, Do(check, m, Commit(id, precision)), SubscribeSends);
  }

  lemma UnsubscribedKeepsInvariant(check: Option<ChecksumFunction>, m: Manager, id: Id)
    requires Invariant(check, m) && Enabled(m, UnsubscribeBegins(id))
    ensures Invariant(check, Unsubscribed(m, id))
  {
    UnsubscribeIsTwoSteps(check, m, id);
    StepKeepsInvariant(check, m, UnsubscribeBegins(id));
    StepKeepsInvariant(check, Do(check, m, UnsubscribeBegins(id)), UnsubscribeEnds);
  }

  lemma TwoStepsKeepInvariant(check: Option<ChecksumFunction>, m: Manager)
    requires Invariant(check, m) && Enabled(m, ResubscribeUnsubscribes)
    ensures Invariant(check, Do(check, Do(check, m, ResubscribeUnsubscribes), ResubscribeSubscribes))
  {
    StepKeepsInvariant(check, m, ResubscribeUnsubscribes);
    StepKeepsInvariant(check, Do(check, m, ResubscribeUnsubscribes), ResubscribeSubscribes);
  }

  lemma ThreeStepsKeepInvariant(check: Option<ChecksumFunction>, m: Manager, id: Id)
    requires Invariant(check, m) && Enabled(m, ResubscribeBegins(id))
    ensures var begun := Do(check, m, ResubscribeBegins(id));
      Invariant(check, Do(check, Do(check, begun, ResubscribeUnsubscribes), ResubscribeSubscribes))
  {
    StepKeepsInvariant(check, m, ResubscribeBegins(id));
    TwoStepsKeepInvariant(check, Do(check, m, ResubscribeBegins(id)));
  }

  lemma ResubscribedKeepsInvariant(check: Option<ChecksumFunction>, m: Manager, id: Id)
    requires Invariant(check, m) && Enabled(m, ResubscribeBegins(id))
    ensures Invariant(check, Resubscribed(m, m.subs.table[id]))
  {
    ResubscribeIsThreeSteps(check, m, id);
    ThreeStepsKeepInvariant(check, m, id);
  }

  /** All a parser thread does with one message: the frame, and the callback if it makes one. */
  function Parsed(check: Option<ChecksumFunction>, m: Manager, message: Message): Manager
    requires m.resub.callback.None?
  {
    var parsed := Parse(check, m, message);
    if parsed.resub.callback.Some? then Do(check, parsed, QueueMismatch) else parsed
  }

  lemma ParsedKeepsInvariant(check: Option<ChecksumFunction>, m: Manager, message: Message)
    requires Invariant(check, m) && Enabled(m, Frame(message))
    ensures Invariant(check, Parsed(check, m, message))
  {
    var parsed := Parse(check, m, message);
    StepKeepsInvariant(check, m, Frame(message));
    if parsed.resub.callback.Some? { StepKeepsInvariant(check, parsed, QueueMismatch); }
  }

  lemma {:induction false} FinishConnectKeepsInvariant(check: Option<ChecksumFunction>, m: Manager)
    requires Invariant(check, m) && m.call.Connecting?
    ensures Invariant(check, FinishConnect(check, m))
    decreases m.call.todo
  {
    if m.call.todo == {} {
      StepKeepsInvariant(check, m, ConnectEnds);
    } else {
      LeastExists(m.call.todo);
      var id :| IsLeast(m.call.todo, id);
      var n := Do(check, m, ConnectSends(id));
      NextSubscribe(check, m, id, n);
      StepKeepsInvariant(check, m, ConnectSends(id));
      FinishConnectKeepsInvariant(check, n);
    }
  }

  lemma ReconnectedKeepsInvariant(check: Option<ChecksumFunction>, m: Manager, up: bool)
    requires Invariant(check, m) && Enabled(m, ConnectBegins)
    ensures Invariant(check, Reconnected(check, m, up))
  {
    var began := Do(check, m, ConnectBegins);
    StepKeepsInvariant(check, m, ConnectBegins);
    if up {
      StepKeepsInvariant(check, began, FeedUp);
      FinishConnectKeepsInvariant(check, Do(check, began, FeedUp));
    } else {
      StepKeepsInvariant(check, began, FeedFails);
    }
  }
}

/**
  The class of venue/l2_manager.h, one method per stretch of code under the life cycle lock. Each is proved to
  be a step, or a sequence of steps, of the step system, whose invariant every step keeps.
 */
module L2Managers {
  import opened Messages
  import opened SubscriptionIds
  import opened L2Manager
  import ParserSpec
  import L2Parsers

  class Manager {
    const check: Option<ParserSpec.ChecksumFunction>
    const parser: L2Parsers.L2Parser
    var nextCounter: nat
    var subscriptions: map<Id, L2Manager.BookSpec>
    var streams: set<Id>
    var connected: bool
    var failed: bool
    var pendingResubscribes: seq<string>
    ghost var subscribers: map<Id, Subscriber>
    ghost var faults: set<Fault>
    ghost var sent: seq<Request>
    ghost var waitFrom: map<string, nat>
    ghost var call: Call
    ghost var callback: Option<string>
    ghost var hand: Hand
    ghost var clock: nat
    ghost var last: map<string, nat>
    ghost var made: seq<Resubscription>

    ghost function Subs(): Subscriptions
      reads this
    {
      Subscriptions(nextCounter, subscribers, subscriptions, streams, faults)
    }

    ghost function Wire(): Link
      reads this
    {
      Link(connected, failed, sent, waitFrom)
    }

    ghost function Resub(): Resubscriber
      reads this
    {
      Resubscriber(pendingResubscribes, callback, hand, clock, last, made)
    }

    ghost function State(): L2Manager.Manager
      reads this, parser
    {
      L2Manager.Manager(Subs(), parser.State(), Wire(), call, Resub())
    }

    ghost predicate Valid()
      reads this, parser
    {
      parser.check == check && Invariant(check, State())
    }

    constructor (check: Option<ParserSpec.ChecksumFunction>)
      ensures Valid() && State() == NEW && this.check == check && fresh(parser)
    {
      this.check := check;
      parser := new L2Parsers.L2Parser(check);
      nextCounter, subscriptions, streams, connected, failed, pendingResubscribes := 1, map[], {}, false, false, [];
      subscribers, faults, sent, waitFrom, call, callback := map[], {}, [], map[], Idle, None;
      hand, clock, last, made := Empty, 0, map[], [];
      new;
      assert Mirrors(Fold([]), map[], {});
    }

    /** Router::Subscribe's id: none once the counter is past what 48 bits hold. */
    method NextId(venue: nat, sink: Sink, book: L2Manager.BookSpec) returns (id: Option<Id>)
      requires Valid() && venue < 256
      modifies this`nextCounter, this`subscribers
      ensures Valid()
      ensures id.None? <==> old(nextCounter) > MAX_SUBSCRIPTIONS
      ensures id.None? ==> State() == Do(check, old(State()), IssueElsewhere)
      ensures id.Some? ==> State() == Do(check, old(State()), Issue(venue, sink, book))
      ensures id.Some? ==> id.value == MakeSubscriptionId(old(nextCounter), venue, sink)
    {
      ghost var m := State();
      id := Count(venue, sink, book);
      StepKeepsInvariant(check, m, if id.None? then IssueElsewhere else Issue(venue, sink, book));
    }

    method Count(venue: nat, sink: Sink, book: L2Manager.BookSpec) returns (id: Option<Id>)
      requires venue < 256
      modifies this`nextCounter, this`subscribers
      ensures id.None? <==> old(nextCounter) > MAX_SUBSCRIPTIONS
      ensures id.None? ==> State() == Do(check, old(State()), IssueElsewhere)
      ensures id.Some? ==> State() == Do(check, old(State()), Issue(venue, sink, book))
      ensures id.Some? ==> id.value == MakeSubscriptionId(old(nextCounter), venue, sink)
    {
      var counter := nextCounter;
      nextCounter := nextCounter + 1;
      if counter > MAX_SUBSCRIPTIONS {
        return None;
      }
      id := Some(MakeSubscriptionId(counter, venue, sink));
      subscribers := subscribers[id.value := Subscriber(book, false)];
    }

    /** A subscription to `symbol`, if there is one. */
    method FindSymbolLocked(symbol: string) returns (found: Option<Id>)
      ensures found.Some? ==> found.value in subscriptions && subscriptions[found.value].symbol == symbol
      ensures found.None? ==> !Taken(Subs(), symbol)
    {
      var todo := subscriptions.Keys;
      while todo != {}
        invariant todo <= subscriptions.Keys
        invariant forall id :: id in subscriptions && subscriptions[id].symbol == symbol ==> id in todo
        decreases |todo|
      {
        var id :| id in todo;
        if subscriptions[id].symbol == symbol {
          return Some(id);
        }
        todo := todo - {id};
      }
      found := None;
    }

    /** Whether a Subscribe must give up. An id in use, which would throw, cannot be. */
    method ResolveTakenLocked(id: Id, symbol: string) returns (taken: bool)
      requires IdsAreFresh(Subs(), parser.State().logs) && id in subscribers
      ensures taken <==> Taken(Subs(), symbol)
    {
      if id in subscriptions {
        assert false;
      }
      var found := FindSymbolLocked(symbol);
      taken := found.Some?;
    }

    /** Subscribe, up to the round trip to the venue. */
    method CheckBeforeFetch(id: Id, symbol: string) returns (taken: bool)
      requires Valid() && Enabled(State(), Check(id)) && subscribers[id].book.symbol == symbol
      modifies this`subscribers
      ensures Valid() && State() == Do(check, old(State()), Check(id))
      ensures taken <==> exists other :: other in subscriptions && subscriptions[other].symbol == symbol
      ensures subscribers == if taken then old(subscribers) - {id}
                             else old(subscribers)[id := Subscriber(old(subscribers)[id].book, true)]
    {
      StepKeepsInvariant(check, State(), Check(id));
      taken := ResolveTakenLocked(id, symbol);
      subscribers := if taken then subscribers - {id} else subscribers[id := subscribers[id].(checked := true)];
    }

    ghost method Send(subscribe: bool, book: L2Manager.BookSpec)
      modifies this`sent
      ensures Wire() == SendLocked(old(Wire()), subscribe, book)
    {
      if connected {
        sent := sent + [Request(subscribe, book)];
      }
    }

    /** Subscribe, from the round trip on: the receiver, the table entry, the route, then the request. */
    method Commit(id: Id, book: L2Manager.BookSpec, precision: Precision) returns (taken: bool)
      requires Valid() && Enabled(State(), L2Manager.Commit(id, precision)) && subscribers[id].book == book
      modifies this, parser
      ensures Valid()
      ensures taken <==> Taken(old(Subs()), book.symbol)
      ensures taken ==> State() == Do(check, old(State()), L2Manager.Commit(id, precision))
      ensures !taken ==> State() == Subscribed(old(State()), id, book, parser.State())
      ensures !taken ==> Some(parser.State()) == ParserSpec.Attach(old(parser.State()), book.symbol, precision, book.depth, id)
    {
      ghost var m := State();
      taken := AddUnlessTaken(id, book, precision);
      if taken {
        StepKeepsInvariant(check, m, L2Manager.Commit(id, precision));
      } else {
        SubscribedKeepsInvariant(check, m, id, precision, parser.State());
      }
    }

    method AddUnlessTaken(id: Id, book: L2Manager.BookSpec, precision: Precision) returns (taken: bool)
      requires Valid() && Enabled(State(), L2Manager.Commit(id, precision)) && subscribers[id].book == book
      modifies this, parser
      ensures taken <==> Taken(old(Subs()), book.symbol)
      ensures taken ==> State() == Do(check, old(State()), L2Manager.Commit(id, precision))
      ensures !taken ==> State() == Subscribed(old(State()), id, book, parser.State())
      ensures !taken ==> Some(parser.State()) == ParserSpec.Attach(old(parser.State()), book.symbol, precision, book.depth, id)
    {
      taken := ResolveTakenLocked(id, book.symbol);
      if taken {
        subscribers := subscribers - {id};
        return;
      }
      SubscribeIsTwoSteps(check, State(), id, precision);
      Add(id, book, precision);
    }

    /** The table entry and, for a live feed, the Outbox's stream. */
    method Enter(id: Id, book: L2Manager.BookSpec)
      modifies this`subscribers, this`subscriptions, this`streams, this`waitFrom
      ensures Subs() == old(Subs()).(subscribers := old(subscribers) - {id}, table := old(subscriptions)[id := book],
                                     registered := if IsLive(id) then old(streams) + {id} else old(streams))
      ensures Wire() == old(Wire()).(waitFrom := old(waitFrom)[book.symbol := |sent|])
    {
      subscribers := subscribers - {id};
      subscriptions := subscriptions[id := book];
      if IsLive(id) {
        streams := streams + {id};
      }
      waitFrom := waitFrom[book.symbol := |sent|];
    }

    method Add(id: Id, book: L2Manager.BookSpec, precision: Precision)
      requires parser.Valid() && id !in parser.logs && book.symbol !in parser.routes
      modifies this, parser
      ensures State() == Subscribed(old(State()), id, book, parser.State())
      ensures Some(parser.State()) == ParserSpec.Attach(old(parser.State()), book.symbol, precision, book.depth, id)
    {
      Enter(id, book);
      var attached := parser.Attach(book.symbol, precision, book.depth, id);
      Send(true, book);
    }

    /** False if there is no such subscription. */
    method Unsubscribe(id: Id) returns (ok: bool)
      requires Valid() && LockIsFree(State())
      modifies this, parser
      ensures Valid()
      ensures ok <==> id in old(subscriptions)
      ensures State() == if ok then Unsubscribed(old(State()), id) else old(State())
    {
      if id !in subscriptions {
        return false;
      }
      UnsubscribedKeepsInvariant(check, State(), id);
      Remove(id);
      ok := true;
    }

    method Remove(id: Id)
      requires parser.Valid() && id in subscriptions
      modifies this, parser
      ensures State() == Unsubscribed(old(State()), id)
    {
      var removed := subscriptions[id];
      parser.Detach(removed.symbol);
      Send(false, removed);
      subscriptions := subscriptions - {id};
      streams := streams - {id};
    }

    method Disconnect()
      requires Valid() && LockIsFree(State())
      modifies this`connected, parser
      ensures Valid() && State() == Do(check, old(State()), L2Manager.Disconnect)
    {
      StepKeepsInvariant(check, State(), L2Manager.Disconnect);
      DisconnectTellsAll(check, State());
      DisconnectLocked();
    }

    /** Stops the parser; if a connection was up, every receiver sees it end. */
    method DisconnectLocked()
      requires connected == parser.running && subscriptions.Keys <= parser.logs.Keys
      modifies this`connected, parser
      ensures State() == L2Manager.Disconnected(old(State()))
    {
      parser.Stop();
      if connected {
        TellAll();
      }
      connected := false;
    }

    method TellAll()
      requires subscriptions.Keys <= parser.logs.Keys
      modifies parser
      ensures parser.State() == ParserSpec.EndConnection(old(parser.State()), subscriptions.Keys).(running := old(parser.running))
    {
      ghost var was := parser.State();
      ghost var end := ParserSpec.Gapped(Disconnected, was.connection);
      ghost var done := {};
      var todo := subscriptions.Keys;
      assert ParserSpec.Told(was.logs, {}, end) == was.logs;
      while todo != {}
        invariant todo <= subscriptions.Keys && done == subscriptions.Keys - todo
        invariant parser.State() == was.(logs := ParserSpec.Told(was.logs, done, end))
        decreases |todo|
      {
        var id :| id in todo;
        ParserSpec.ToldGrows(was.logs, done, end, id);
        parser.Notify(id, end);
        todo, done := todo - {id}, done + {id};
      }
      assert done == subscriptions.Keys;
    }

    /** Does nothing while the connection is healthy. `up` is whether the feed came up; if not, connecting throws. */
    method Connect(up: bool) returns (ok: bool)
      requires Valid() && LockIsFree(State())
      modifies this, parser
      ensures Valid()
      ensures old(connected && !failed) ==> ok && State() == old(State())
      ensures old(!connected || failed) ==> ok == up && State() == Reconnected(check, old(State()), up)
      ensures ok <==> connected && !failed
    {
      if connected && !failed {
        return true;
      }
      ConnectingMakesHealthy(check, State(), up);
      ReconnectedKeepsInvariant(check, State(), up);
      Reconnect(up);
      ok := up;
    }

    method Reconnect(up: bool)
      requires TableAgrees(State()) && parser.Valid() && parser.check == check && Enabled(State(), ConnectBegins)
      modifies this, parser
      ensures State() == Reconnected(check, old(State()), up)
    {
      ReconnectsInOneGo(check, State(), up);
      Begin();
      if up {
        ComeUp();
        SendAll();
      } else {
        GiveUp();
      }
    }

    method GiveUp()
      modifies this`call, parser
      ensures State() == FeedIsDown(old(State()))
    {
      parser.Stop();
      call := Idle;
    }

    /** Up to the feed: the last connection ended, and the parser started. */
    method Begin()
      requires TableAgrees(State()) && parser.Valid() && parser.check == check && LockIsFree(State())
      modifies this, parser
      ensures State() == Started(old(State()))
    {
      DisconnectTellsAll(check, State());
      DisconnectLocked();
      failed := false;
      call := Starting;
      parser.Start();
    }

    method ComeUp()
      modifies this`connected, this`sent, this`waitFrom, this`call
      ensures State() == FeedIsUp(old(State()))
    {
      connected, sent, waitFrom, call := true, [], map s | s in parser.routes :: 0, Connecting(subscriptions.Keys);
    }

    /** Every subscription again, in the order of the ids. */
    method SendAll()
      requires call == Connecting(subscriptions.Keys)
      modifies this`sent, this`call
      ensures State() == FinishConnect(check, old(State()))
    {
      ghost var target := FinishConnect(check, State());
      var todo := subscriptions.Keys;
      while todo != {}
        invariant todo <= subscriptions.Keys && call == Connecting(todo)
        invariant FinishConnect(check, State()) == target
        decreases |todo|
      {
        LeastExists(todo);
        var id :| IsLeast(todo, id);
        ghost var m := State();
        Send(true, subscriptions[id]);
        todo := todo - {id};
        call := Connecting(todo);
        NextSubscribe(check, m, id, State());
      }
      LastSubscribe(check, State());
      call := Idle;
    }

    /** The parser's mismatch callback. */
    method RequestResubscribe(symbol: string)
      requires callback == Some(symbol)
      modifies this`pendingResubscribes, this`callback
      ensures State() == Do(check, old(State()), QueueMismatch)
    {
      callback := None;
      if symbol in pendingResubscribes {
        return;
      }
      pendingResubscribes := pendingResubscribes + [symbol];
    }

    /** A message the parser thread emits, and the callback it makes if the book no longer matches. */
    method Emit(message: Message)
      requires Valid() && connected && callback == None
      modifies this`waitFrom, this`callback, this`pendingResubscribes, parser
      ensures Valid() && State() == Parsed(check, old(State()), message)
    {
      ParsedKeepsInvariant(check, State(), message);
      Deliver(message);
    }

    method Deliver(message: Message)
      requires parser.Valid() && parser.running && parser.check == check && callback == None
      modifies this`waitFrom, this`callback, this`pendingResubscribes, parser
      ensures State() == Parsed(check, old(State()), message)
    {
      ghost var parsed := Parse(check, State(), message);
      var mismatch := parser.Emit(message);
      if mismatch.Some? {
        waitFrom, callback := waitFrom[mismatch.value := |sent|], mismatch;
        assert State() == parsed;
        RequestResubscribe(mismatch.value);
      }
    }

    /** Both requests, if the pair is still subscribed to and the venue connected. */
    method Resubscribe(symbol: string) returns (found: Option<Id>)
      requires Valid() && call.Idle? && hand == Holding(symbol) && IntervalIsOver(Resub())
      modifies this`sent, this`hand, this`made
      ensures Valid()
      ensures found.Some? ==> Enabled(old(State()), ResubscribeBegins(found.value))
      ensures found.Some? ==> State() == Resubscribed(old(State()), subscriptions[found.value])
      ensures found.None? ==> Enabled(old(State()), ResubscribeSkips)
      ensures found.None? ==> State() == Do(check, old(State()), ResubscribeSkips)
    {
      ghost var m := State();
      found := SendBoth(symbol);
      if found.Some? {
        ResubscribedKeepsInvariant(check, m, found.value);
      } else {
        StepKeepsInvariant(check, m, ResubscribeSkips);
      }
    }

    method SendBoth(symbol: string) returns (found: Option<Id>)
      modifies this`sent, this`hand, this`made
      ensures found.Some? ==> connected && found.value in subscriptions && subscriptions[found.value].symbol == symbol
      ensures found.Some? ==> State() == Resubscribed(old(State()), subscriptions[found.value])
      ensures found.None? ==> !(connected && Taken(Subs(), symbol))
      ensures found.None? ==> State() == old(State()).(resub := old(Resub()).(hand := Done(symbol)))
    {
      found := FindSymbolLocked(symbol);
      hand := Done(symbol);
      if !connected || found.None? {
        return None;
      }
      Send(false, subscriptions[found.value]);
      Send(true, subscriptions[found.value]);
      made := made + [Resubscription(symbol, clock, clock)];
    }
  }
}
