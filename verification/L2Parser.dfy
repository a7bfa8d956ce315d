/**
  The parser's routes (venue/l2_parser.cc), as values: which receiver each pair's messages go to,
  the snapshot gate, the checksum check and the gaps. `logs` and `connection` are
  history: everything each receiver was told, and how many connections were started.
 */
module ParserSpec {
  import opened Messages
  import opened BookSpec

  type ReceiverId = u64

  /** How a venue computes the checksum of a book. */
  type ChecksumFunction = BookState -> u32

  /** What a receiver was told, during which connection. */
  datatype Event =
    | Received(message: Message, connection: nat)
    | Gapped(gap: Gap, connection: nat)

  datatype Log = Log(depth: nat, events: seq<Event>)

  datatype Route = Route(precision: Precision, depth: nat, receiver: ReceiverId, awaiting: bool, book: BookState)

  datatype Parser = Parser(routes: map<string, Route>, running: bool, connection: nat, logs: map<ReceiverId, Log>)

  datatype Emitted = Emitted(parser: Parser, mismatch: Option<string>)

  const INITIAL := Parser(map[], false, 0, map[])

  function LogOf(p: Parser, receiver: ReceiverId): Log {
    if receiver in p.logs then p.logs[receiver] else Log(0, [])
  }

  function Tell(p: Parser, receiver: ReceiverId, event: Event): Parser {
    p.(logs := p.logs[receiver := LogOf(p, receiver).(events := LogOf(p, receiver).events + [event])])
  }

  /** A new connection: every pair starts over with a snapshot. */
  function Start(p: Parser): Parser {
    p.(routes := map s | s in p.routes :: p.routes[s].(awaiting := true),
       running := true, connection := p.connection + 1)
  }

  function Stop(p: Parser): Parser { p.(running := false) }

  /** None if the pair already has a receiver. */
  function Attach(p: Parser, symbol: string, precision: Precision, depth: nat, receiver: ReceiverId): Option<Parser> {
    if symbol in p.routes then None
    else Some(p.(routes := p.routes[symbol := Route(precision, depth, receiver, true, EMPTY)],
                 logs := p.logs[receiver := Log(depth, [])]))
  }

  function Detach(p: Parser, symbol: string): Parser { p.(routes := p.routes - {symbol}) }

  /** The route a change goes to: none for unknown pairs, and for updates before the snapshot. */
  function FindRoute(p: Parser, symbol: string, kind: Kind): Option<Route> {
    if symbol !in p.routes || (kind.Update? && p.routes[symbol].awaiting) then None else Some(p.routes[symbol])
  }

  function Find(p: Parser, symbol: string, kind: Kind): Option<Precision> {
    match FindRoute(p, symbol, kind)
    case None => None
    case Some(route) => Some(route.precision)
  }

  function Emit(check: Option<ChecksumFunction>, p: Parser, message: Message): Emitted {
    var found := FindRoute(p, message.symbol, message.kind);
    if found.None? then Emitted(p, None)
    else
      var kept := if check.None? then found.value.book else Apply(found.value.depth, found.value.book, message);
      if check.Some? && message.checksum != 0 && check.value(kept) != message.checksum then
        Emitted(Tell(p.(routes := p.routes[message.symbol := found.value.(awaiting := true, book := EMPTY)]),
                     found.value.receiver, Gapped(Resubscribing, p.connection)),
                Some(message.symbol))
      else
        Emitted(Tell(p.(routes := p.routes[message.symbol := found.value.(awaiting := false, book := kept)]),
                     found.value.receiver, Received(message, p.connection)),
                None)
  }

  /** The connection ends: the parser stops, then every receiver in `receivers` sees a gap. */
  function EndConnection(p: Parser, receivers: set<ReceiverId>): Parser {
    p.(running := false, logs := Told(p.logs, receivers, Gapped(Disconnected, p.connection)))
  }

  function Told(logs: map<ReceiverId, Log>, receivers: set<ReceiverId>, event: Event): map<ReceiverId, Log> {
    map r | r in logs :: if r in receivers then logs[r].(events := logs[r].events + [event]) else logs[r]
  }

  lemma ToldGrows(logs: map<ReceiverId, Log>, receivers: set<ReceiverId>, event: Event, receiver: ReceiverId)
    requires receiver in logs && receiver !in receivers
    ensures var told := Told(logs, receivers, event);
      Told(logs, receivers + {receiver}, event)
      == told[receiver := told[receiver].(events := told[receiver].events + [event])]
  {
  }

  // ----- What every receiver may rely on --------------------------------------------

  predicate StartsOver(events: seq<Event>, i: nat)
    requires i < |events|
  {
    i == 0 || events[i - 1].Gapped?
  }

  /** A stream starts with a gap or a snapshot, and resumes after a gap with a snapshot. */
  ghost predicate Gated(events: seq<Event>) {
    forall i :: 0 <= i < |events| && events[i].Received? && StartsOver(events, i)
      ==> events[i].message.kind.Snapshot?
  }

  ghost predicate EndsAfter(events: seq<Event>, i: nat, connection: nat) {
    exists k :: i < k < |events| && events[k] == Gapped(Disconnected, connection)
  }

  /** Between messages of two connections lies the gap that ended the first. */
  ghost predicate Separated(events: seq<Event>) {
    forall i, j :: 0 <= i < j < |events| && events[i].Received? && events[j].Received?
      && events[i].connection != events[j].connection
      ==> events[i].connection < events[j].connection && EndsAfter(events[..j], i, events[i].connection)
  }

  /** A connection's end comes after every one of its messages. */
  ghost predicate EndsLast(events: seq<Event>) {
    forall k, j :: 0 <= k < j < |events| && events[k].Gapped? && events[k].gap.Disconnected? && events[j].Received?
      ==> events[k].connection < events[j].connection
  }

  /** The book a simple replay of the stream holds: a gap drops it. */
  function LogBook(depth: nat, events: seq<Event>): BookState {
    if events == [] then EMPTY
    else
      var last := events[|events| - 1];
      if last.Gapped? then EMPTY else Apply(depth, LogBook(depth, events[..|events| - 1]), last.message)
  }

  /** Every checksum delivered is the one of the replay it was delivered into. */
  ghost predicate Certified(check: ChecksumFunction, depth: nat, events: seq<Event>) {
    forall i :: 0 <= i < |events| && events[i].Received? && events[i].message.checksum != 0
      ==> check(LogBook(depth, events[..i + 1])) == events[i].message.checksum
  }

  // ----- The same, event by event ---------------------------------------------------

  /**
    What of a log decides which event may follow: the connection whose messages are not yet
    closed by its end, the last connection ended, the latest connection, and whether
    the last event is a message.
   */
  datatype Summary = Summary(open: Option<nat>, ended: int, latest: nat, flowing: bool)

  function Summarize(events: seq<Event>): Summary {
    if events == [] then Summary(None, -1, 0, false)
    else
      var before := Summarize(events[..|events| - 1]);
      match events[|events| - 1]
      case Received(_, c) => before.(open := Some(c), latest := c, flowing := true)
      case Gapped(Disconnected, c) => Summary(None, c, c, false)
      case Gapped(Resubscribing, c) => before.(latest := c, flowing := false)
  }

  predicate MayFollow(check: Option<ChecksumFunction>, depth: nat, events: seq<Event>, event: Event) {
    var before := Summarize(events);
    && before.latest <= event.connection
    && (event == Gapped(Resubscribing, event.connection) || before.open == None || before.open == Some(event.connection))
    && (event.Received? ==>
      && (before.flowing || event.message.kind.Snapshot?)
      && before.ended < event.connection
      && (check.Some? && event.message.checksum != 0 ==>
           check.value(Apply(depth, LogBook(depth, events), event.message)) == event.message.checksum))
  }

  predicate GoodLog(check: Option<ChecksumFunction>, depth: nat, events: seq<Event>) {
    events == []
    || (&& GoodLog(check, depth, events[..|events| - 1])
        && MayFollow(check, depth, events[..|events| - 1], events[|events| - 1]))
  }

  lemma LogGrows(check: Option<ChecksumFunction>, depth: nat, events: seq<Event>, event: Event)
    requires GoodLog(check, depth, events) && MayFollow(check, depth, events, event)
    ensures GoodLog(check, depth, events + [event])
  {
    assert (events + [event])[..|events|] == events;
  }

  lemma LogBookGrows(depth: nat, events: seq<Event>, event: Event)
    ensures LogBook(depth, events + [event])
         == if event.Gapped? then EMPTY else Apply(depth, LogBook(depth, events), event.message)
  {
    assert (events + [event])[..|events|] == events;
  }

  lemma SummaryGrows(events: seq<Event>, event: Event)
    ensures var before := Summarize(events);
      Summarize(events + [event])
      == match event
         case Received(_, c) => before.(open := Some(c), latest := c, flowing := true)
         case Gapped(Disconnected, c) => Summary(None, c, c, false)
         case Gapped(Resubscribing, c) => before.(latest := c, flowing := false)
  {
    assert (events + [event])[..|events|] == events;
  }

  /** What Summarize tracks, event by event. */
  ghost predicate Tracks(events: seq<Event>, s: Summary) {
    && (s.flowing <==> events != [] && events[|events| - 1].Received?)
    && (forall i :: 0 <= i < |events| ==> events[i].connection <= s.latest)
    && (forall i :: 0 <= i < |events| && events[i].Gapped? && events[i].gap.Disconnected? ==> events[i].connection <= s.ended)
    && (forall i :: 0 <= i < |events| && events[i].Received? && s.open != Some(events[i].connection)
         ==> EndsAfter(events, i, events[i].connection))
  }

  lemma EndsAfterGrows(events: seq<Event>, event: Event, i: nat, connection: nat)
    requires EndsAfter(events, i, connection)
    ensures EndsAfter(events + [event], i, connection)
  {
    var k :| i < k < |events| && events[k] == Gapped(Disconnected, connection);
    assert (events + [event])[k] == Gapped(Disconnected, connection);
  }

  lemma TracksGrows(check: Option<ChecksumFunction>, depth: nat, events: seq<Event>, event: Event)
    requires Tracks(events, Summarize(events)) && MayFollow(check, depth, events, event)
    ensures Tracks(events + [event], Summarize(events + [event]))
  {
    SummaryGrows(events, event);
    var longer, s, t := events + [event], Summarize(events), Summarize(events + [event]);
    assert longer[|events|] == event;
    forall i | 0 <= i < |longer| && longer[i].Received? && t.open != Some(longer[i].connection)
      ensures EndsAfter(longer, i, longer[i].connection)
    {
      if s.open != Some(events[i].connection) {
        EndsAfterGrows(events, event, i, events[i].connection);
      }
    }
  }

  lemma {:induction false} LogTracks(check: Option<ChecksumFunction>, depth: nat, events: seq<Event>)
    requires GoodLog(check, depth, events)
    ensures Tracks(events, Summarize(events))
  {
    if events != [] {
      var rest := events[..|events| - 1];
      LogTracks(check, depth, rest);
      TracksGrows(check, depth, rest, events[|events| - 1]);
      assert rest + [events[|events| - 1]] == events;
    }
  }

  lemma SeparatedGrows(events: seq<Event>, event: Event, s: Summary)
    requires Separated(events) && Tracks(events, s)
    requires event.Received? ==> s.latest <= event.connection && (s.open == None || s.open == Some(event.connection))
    ensures Separated(events + [event])
  {
    var longer := events + [event];
    forall i, j | 0 <= i < j < |longer| && longer[i].Received? && longer[j].Received?
      && longer[i].connection != longer[j].connection
      ensures longer[i].connection < longer[j].connection && EndsAfter(longer[..j], i, longer[i].connection)
    {
      assert longer[..j] == events[..j];
      if j == |events| { assert events[..j] == events; }
    }
  }

  lemma CertifiedGrows(check: ChecksumFunction, depth: nat, events: seq<Event>, event: Event)
    requires Certified(check, depth, events)
    requires event.Received? && event.message.checksum != 0 ==>
      check(LogBook(depth, events + [event])) == event.message.checksum
    ensures Certified(check, depth, events + [event])
  {
    var longer := events + [event];
    forall i | 0 <= i < |longer| && longer[i].Received? && longer[i].message.checksum != 0
      ensures check(LogBook(depth, longer[..i + 1])) == longer[i].message.checksum
    {
      if i < |events| {
        assert longer[..i + 1] == events[..i + 1];
      } else {
        assert longer[..i + 1] == longer;
      }
    }
  }

  lemma GatedGrows(events: seq<Event>, event: Event)
    requires Gated(events)
    requires event.Received? && (events == [] || events[|events| - 1].Gapped?) ==> event.message.kind.Snapshot?
    ensures Gated(events + [event])
  {
    var longer := events + [event];
    forall i | 0 <= i < |longer| && longer[i].Received? && StartsOver(longer, i)
      ensures longer[i].message.kind.Snapshot?
    {
      if i < |events| { assert StartsOver(events, i); }
    }
  }

  /** The whole grammar of a receiver's log follows from checking it event by event. */
  lemma {:induction false} GoodLogMeans(check: Option<ChecksumFunction>, depth: nat, events: seq<Event>)
    requires GoodLog(check, depth, events)
    ensures Gated(events) && Separated(events) && EndsLast(events)
    ensures check.Some? ==> Certified(check.value, depth, events)
  {
    if events != [] {
      var rest, last := events[..|events| - 1], events[|events| - 1];
      GoodLogMeans(check, depth, rest);
      LogTracks(check, depth, rest);
      assert rest + [last] == events;
      GatedGrows(rest, last);
      SeparatedGrows(rest, last, Summarize(rest));
      LogBookGrows(depth, rest, last);
      if check.Some? { CertifiedGrows(check.value, depth, rest, last); }
    }
  }

  // ----- The invariant --------------------------------------------------------------

  ghost predicate Wired(p: Parser) {
    && (forall s :: s in p.routes ==> p.routes[s].receiver in p.logs)
    && (forall s, t :: s in p.routes && t in p.routes && s != t ==> p.routes[s].receiver != p.routes[t].receiver)
  }

  ghost predicate GoodReceiver(check: Option<ChecksumFunction>, running: bool, connection: nat, log: Log) {
    var s := Summarize(log.events);
    && GoodLog(check, log.depth, log.events)
    && s.latest <= connection
    && (running ==> s.ended < connection)
  }

  /** An attached receiver knows of every ended connection; one waits exactly while its messages do not flow. */
  ghost predicate GoodRoute(check: Option<ChecksumFunction>, running: bool, connection: nat, route: Route, log: Log) {
    var s := Summarize(log.events);
    && route.depth == log.depth
    && (s.open == None || (running && s.open == Some(connection)))
    && (running ==> (route.awaiting <==> !s.flowing))
    && (running && !route.awaiting && check.Some? ==> route.book == LogBook(log.depth, log.events))
  }

  ghost predicate Valid(check: Option<ChecksumFunction>, p: Parser) {
    && Wired(p)
    && (forall r :: r in p.logs ==> GoodReceiver(check, p.running, p.connection, p.logs[r]))
    && (forall s :: s in p.routes ==>
         GoodRoute(check, p.running, p.connection, p.routes[s], p.logs[p.routes[s].receiver]))
  }

  // ----- Every operation keeps the invariant ----------------------------------------

  lemma InitialIsValid(check: Option<ChecksumFunction>)
    ensures Valid(check, INITIAL)
  {
  }

  lemma StartIsValid(check: Option<ChecksumFunction>, p: Parser)
    requires Valid(check, p) && !p.running
    ensures Valid(check, Start(p))
  {
    forall r | r in p.logs
      ensures Summarize(p.logs[r].events).ended <= p.connection
      ensures Summarize(p.logs[r].events).flowing ==> Summarize(p.logs[r].events).open.Some?
    {
      EndedIsPast(check, p.logs[r].depth, p.logs[r].events);
      FlowingIsOpen(p.logs[r].events);
    }
  }

  lemma {:induction false} FlowingIsOpen(events: seq<Event>)
    ensures Summarize(events).flowing ==> Summarize(events).open.Some?
  {
    if events != [] { FlowingIsOpen(events[..|events| - 1]); }
  }

  lemma {:induction false} EndedIsPast(check: Option<ChecksumFunction>, depth: nat, events: seq<Event>)
    requires GoodLog(check, depth, events)
    ensures Summarize(events).ended <= Summarize(events).latest
  {
    if events != [] { EndedIsPast(check, depth, events[..|events| - 1]); }
  }

  /** A failed attempt to connect starts and stops the parser, and tells no one anything. */
  lemma FailedStartIsValid(check: Option<ChecksumFunction>, p: Parser)
    requires Valid(check, p) && !p.running
    ensures Valid(check, Stop(Start(p))) && Stop(Start(p)).logs == p.logs
  {
  }

  lemma AttachIsValid(check: Option<ChecksumFunction>, p: Parser, symbol: string, precision: Precision, depth: nat, receiver: ReceiverId)
    requires Valid(check, p) && symbol !in p.routes && receiver !in p.logs
    ensures Valid(check, Attach(p, symbol, precision, depth, receiver).value)
  {
    assert GoodReceiver(check, p.running, p.connection, Log(depth, []));
  }

  lemma DetachIsValid(check: Option<ChecksumFunction>, p: Parser, symbol: string)
    requires Valid(check, p)
    ensures Valid(check, Detach(p, symbol))
  {
  }

  lemma TellIsValid(check: Option<ChecksumFunction>, p: Parser, symbol: string, route: Route, event: Event, log: Log)
    requires Valid(check, p) && symbol in p.routes && p.routes[symbol].receiver == route.receiver
    requires log == p.logs[route.receiver].(events := p.logs[route.receiver].events + [event])
    requires GoodReceiver(check, p.running, p.connection, log)
    requires GoodRoute(check, p.running, p.connection, route, log)
    ensures Valid(check, Tell(p.(routes := p.routes[symbol := route]), route.receiver, event))
  {
  }

  /** Whatever the venue sends, a running parser keeps every promise to its receivers. */
  lemma EmitIsValid(check: Option<ChecksumFunction>, p: Parser, message: Message)
    requires Valid(check, p) && p.running
    ensures Valid(check, Emit(check, p, message).parser)
  {
    var found := FindRoute(p, message.symbol, message.kind);
    if found.Some? {
      var route := found.value;
      var log := p.logs[route.receiver];
      var kept := if check.None? then route.book else Apply(route.depth, route.book, message);
      assert GoodReceiver(check, p.running, p.connection, log) && GoodRoute(check, p.running, p.connection, route, log);
      assert check.Some? ==> kept == Apply(log.depth, LogBook(log.depth, log.events), message);
      var mismatch := check.Some? && message.checksum != 0 && check.value(kept) != message.checksum;
      var event := if mismatch then Gapped(Resubscribing, p.connection) else Received(message, p.connection);
      var now := if mismatch then route.(awaiting := true, book := EMPTY) else route.(awaiting := false, book := kept);
      var longer := log.(events := log.events + [event]);
      LogGrows(check, log.depth, log.events, event);
      LogBookGrows(log.depth, log.events, event);
      SummaryGrows(log.events, event);
      TellIsValid(check, p, message.symbol, now, event, longer);
    }
  }

  // ----- What every receiver is owed ------------------------------------------------

  /** The last thing the receiver was told is a message. */
  predicate Flowing(events: seq<Event>) { events != [] && events[|events| - 1].Received? }

  /** The checksum is the one of the replay with the message in it, or there is none to compare. */
  predicate Agrees(check: Option<ChecksumFunction>, log: Log, message: Message) {
    || check.None? || message.checksum == 0
    || check.value(Apply(log.depth, LogBook(log.depth, log.events), message)) == message.checksum
  }

  /**
    What a receiver is to be told of a message of its pair, judged by its log alone: nothing of an update while
    its messages do not flow, else the message, or a gap if the venue's checksum is not the replay's.
   */
  function Owed(check: Option<ChecksumFunction>, connection: nat, log: Log, message: Message): seq<Event> {
    if message.kind.Update? && !Flowing(log.events) then []
    else if Agrees(check, log, message) then [Received(message, connection)]
    else [Gapped(Resubscribing, connection)]
  }

  /** Every route has the receiver, precision and depth it had, and but for one pair's nothing changed in it. */
  predicate RoutesKept(p: Parser, q: Parser, symbol: string) {
    && q.running == p.running && q.connection == p.connection && q.routes.Keys == p.routes.Keys
    && forall s :: s in p.routes ==>
         && q.routes[s].precision == p.routes[s].precision && q.routes[s].depth == p.routes[s].depth
         && q.routes[s].receiver == p.routes[s].receiver
         && (s != symbol ==> q.routes[s] == p.routes[s])
  }

  /** The log grew by what was owed, and nobody else's did. */
  predicate TellsOwed(e: Emitted, p: Parser, symbol: string, receiver: ReceiverId, owed: seq<Event>) {
    && receiver in p.logs
    && e.parser.logs == p.logs[receiver := p.logs[receiver].(events := p.logs[receiver].events + owed)]
    && (owed == [] ==> e.parser == p)
    && (e.mismatch == if owed != [] && owed[0].Gapped? then Some(symbol) else None)
    && RoutesKept(p, e.parser, symbol)
    && (owed != [] ==> symbol in e.parser.routes && (e.parser.routes[symbol].awaiting <==> owed[0].Gapped?))
  }

  lemma NothingIsOwed(check: Option<ChecksumFunction>, p: Parser, message: Message, receiver: ReceiverId)
    requires FindRoute(p, message.symbol, message.kind).None? && receiver in p.logs
    ensures TellsOwed(Emit(check, p, message), p, message.symbol, receiver, [])
  {
    assert p.logs[receiver].events + [] == p.logs[receiver].events && p.logs[receiver := p.logs[receiver]] == p.logs;
  }

  lemma SomethingIsOwed(check: Option<ChecksumFunction>, p: Parser, message: Message, route: Route, log: Log)
    requires FindRoute(p, message.symbol, message.kind) == Some(route) && route.receiver in p.logs && p.logs[route.receiver] == log
    requires check.Some? ==>
      Apply(route.depth, route.book, message) == Apply(log.depth, LogBook(log.depth, log.events), message)
    ensures TellsOwed(Emit(check, p, message), p, message.symbol, route.receiver,
                      [if Agrees(check, log, message) then Received(message, p.connection) else Gapped(Resubscribing, p.connection)])
  {
  }

  /**
    A running parser tells the pair's receiver exactly what it is owed, and no one else anything. A pair is the
    mismatch exactly if its receiver was told of a gap, and then waits for a snapshot.
   */
  lemma EmitDelivers(check: Option<ChecksumFunction>, p: Parser, message: Message)
    requires Valid(check, p) && p.running
    ensures var e := Emit(check, p, message);
      if message.symbol !in p.routes then e == Emitted(p, None)
      else
        var receiver := p.routes[message.symbol].receiver;
        receiver in p.logs
        && TellsOwed(e, p, message.symbol, receiver, Owed(check, p.connection, p.logs[receiver], message))
  {
    if message.symbol in p.routes {
      var route := p.routes[message.symbol];
      var log := p.logs[route.receiver];
      assert GoodRoute(check, p.running, p.connection, route, log);
      RouteIsJudged(check, p.connection, route, log, message);
      if message.kind.Update? && route.awaiting {
        NothingIsOwed(check, p, message, route.receiver);
      } else {
        SomethingIsOwed(check, p, message, route, log);
      }
    }
  }

  lemma FlowingIsSummarized(events: seq<Event>)
    ensures Flowing(events) <==> Summarize(events).flowing
  {
  }

  lemma EmitTellsOwed(check: Option<ChecksumFunction>, p: Parser, message: Message)
    requires Valid(check, p) && p.running
    ensures var logs := Emit(check, p, message).parser.logs;
      if message.symbol !in p.routes then logs == p.logs
      else
        var receiver := p.routes[message.symbol].receiver;
        receiver in p.logs
        && logs == p.logs[receiver := p.logs[receiver].(events := p.logs[receiver].events
                                                          + Owed(check, p.connection, p.logs[receiver], message))]
  {
    EmitDelivers(check, p, message);
  }

  /** The route waits while the log does not flow, and what it keeps is what the log replays to. */
  lemma RouteIsJudged(check: Option<ChecksumFunction>, connection: nat, route: Route, log: Log, message: Message)
    requires GoodRoute(check, true, connection, route, log)
    ensures route.awaiting <==> !Flowing(log.events)
    ensures check.Some? && (message.kind.Snapshot? || !route.awaiting)
      ==> Apply(route.depth, route.book, message) == Apply(log.depth, LogBook(log.depth, log.events), message)
  {
    FlowingIsSummarized(log.events);
  }

  /** A decoder is given a pair's precision exactly when a message of that kind is owed its receiver. */
  lemma FindIsGated(check: Option<ChecksumFunction>, p: Parser, symbol: string, kind: Kind)
    requires Valid(check, p) && p.running
    ensures symbol !in p.routes ==> Find(p, symbol, kind).None?
    ensures symbol in p.routes ==>
      Find(p, symbol, kind) == if kind.Snapshot? || Flowing(p.logs[p.routes[symbol].receiver].events)
                               then Some(p.routes[symbol].precision) else None
  {
    if symbol in p.routes {
      assert GoodRoute(check, p.running, p.connection, p.routes[symbol], p.logs[p.routes[symbol].receiver]);
      FlowingIsSummarized(p.logs[p.routes[symbol].receiver].events);
    }
  }

  lemma EndConnectionIsValid(check: Option<ChecksumFunction>, p: Parser, receivers: set<ReceiverId>)
    requires Valid(check, p)
    requires receivers == set s | s in p.routes :: p.routes[s].receiver
    ensures Valid(check, EndConnection(p, receivers))
  {
    var end, q := Gapped(Disconnected, p.connection), EndConnection(p, receivers);
    forall r | r in p.logs ensures GoodReceiver(check, false, p.connection, q.logs[r]) {
      assert GoodReceiver(check, p.running, p.connection, p.logs[r]);
      if r in receivers {
        var s :| s in p.routes && p.routes[s].receiver == r;
        assert GoodRoute(check, p.running, p.connection, p.routes[s], p.logs[r]);
        LogGrows(check, p.logs[r].depth, p.logs[r].events, end);
        SummaryGrows(p.logs[r].events, end);
      }
    }
    forall s | s in p.routes
      ensures GoodRoute(check, false, p.connection, p.routes[s], q.logs[p.routes[s].receiver])
    {
      SummaryGrows(p.logs[p.routes[s].receiver].events, end);
    }
  }

  // ----- The replay of a log is the replay since its last snapshot ------------------

  /** The messages from the last snapshot on, or since the last gap if there is none. */
  function SinceSnapshot(events: seq<Event>): seq<Message> {
    if events == [] then []
    else
      var last := events[|events| - 1];
      if last.Gapped? then []
      else if last.message.kind.Snapshot? then [last.message]
      else SinceSnapshot(events[..|events| - 1]) + [last.message]
  }

  lemma {:induction false} LogBookIsReplay(depth: nat, events: seq<Event>)
    ensures LogBook(depth, events) == Replay(depth, SinceSnapshot(events))
  {
    if events != [] {
      var last := events[|events| - 1];
      var rest := events[..|events| - 1];
      LogBookIsReplay(depth, rest);
      if last.Received? {
        var s := SinceSnapshot(events);
        if last.message.kind.Snapshot? {
          assert s[..0] == [];
        } else {
          assert s[..|s| - 1] == SinceSnapshot(rest);
        }
      }
    }
  }

  /** A pair that is not waiting for a snapshot has the book its receiver's own replay holds. */
  lemma RouteBookIsReplay(check: Option<ChecksumFunction>, p: Parser, symbol: string)
    requires Valid(check, p) && p.running && check.Some?
    requires symbol in p.routes && !p.routes[symbol].awaiting
    ensures p.routes[symbol].book == Replay(p.routes[symbol].depth, SinceSnapshot(p.logs[p.routes[symbol].receiver].events))
  {
    LogBookIsReplay(p.routes[symbol].depth, p.logs[p.routes[symbol].receiver].events);
  }
}

/** The class of venue/l2_parser.h. Calls on receivers are entries of `logs`. */
module L2Parsers {
  import opened Messages
  import opened ParserSpec
  import BookSpec

  /** Every route waits for its pair's next snapshot. */
  method AwaitSnapshots(routes: map<string, Route>) returns (waiting: map<string, Route>)
    ensures waiting == map s | s in routes :: routes[s].(awaiting := true)
  {
    waiting := routes;
    var todo := routes.Keys;
    while todo != {}
      invariant todo <= routes.Keys == waiting.Keys
      invariant forall s :: s in routes ==>
        waiting[s] == if s in todo then routes[s] else routes[s].(awaiting := true)
      decreases |todo|
    {
      var symbol :| symbol in todo;
      waiting := waiting[symbol := routes[symbol].(awaiting := true)];
      todo := todo - {symbol};
    }
  }

  class L2Parser {
    const check: Option<ChecksumFunction>
    var routes: map<string, Route>
    var running: bool
    ghost var connection: nat
    ghost var logs: map<ReceiverId, Log>

    ghost function State(): Parser
      reads this
    {
      Parser(routes, running, connection, logs)
    }

    ghost predicate Valid()
      reads this
    {
      ParserSpec.Valid(check, State())
    }

    constructor (check: Option<ChecksumFunction>)
      ensures Valid() && State() == INITIAL && this.check == check
    {
      this.check := check;
      routes, running, connection, logs := map[], false, 0, map[];
    }

    method Start()
      requires Valid() && !running
      modifies this
      ensures Valid() && State() == ParserSpec.Start(old(State()))
    {
      StartIsValid(check, State());
      routes := AwaitSnapshots(routes);
      running := true;
      connection := connection + 1;
    }

    /** Every frame queued before has been emitted; whoever ends the connection tells the receivers. */
    method Stop()
      modifies this
      ensures State() == ParserSpec.Stop(old(State()))
    {
      running := false;
    }

    method Attach(symbol: string, precision: Precision, depth: nat, receiver: ReceiverId) returns (ok: bool)
      requires Valid() && receiver !in logs
      modifies this
      ensures Valid()
      ensures ok <==> symbol !in old(routes)
      ensures ok ==> Some(State()) == ParserSpec.Attach(old(State()), symbol, precision, depth, receiver)
      ensures !ok ==> State() == old(State())
    {
      ok := symbol !in routes;
      if ok {
        AttachIsValid(check, State(), symbol, precision, depth, receiver);
        routes := routes[symbol := Route(precision, depth, receiver, true, BookSpec.EMPTY)];
        logs := logs[receiver := Log(depth, [])];
      }
    }

    method Detach(symbol: string)
      requires Valid()
      modifies this
      ensures Valid() && State() == ParserSpec.Detach(old(State()), symbol)
    {
      DetachIsValid(check, State(), symbol);
      routes := routes - {symbol};
    }

    method Find(symbol: string, kind: Kind) returns (precision: Option<Precision>)
      ensures precision == ParserSpec.Find(State(), symbol, kind)
    {
      if symbol !in routes || (kind.Update? && routes[symbol].awaiting) {
        return None;
      }
      precision := Some(routes[symbol].precision);
    }

    /** Returns the pair the mismatch handler is told, if any. */
    method Emit(message: Message) returns (mismatch: Option<string>)
      requires Valid() && running
      modifies this
      ensures Valid()
      ensures Emitted(State(), mismatch) == ParserSpec.Emit(check, old(State()), message)
      ensures message.symbol !in old(routes) ==> logs == old(logs)
      ensures message.symbol in old(routes) ==>
        var receiver := old(routes)[message.symbol].receiver;
        receiver in old(logs)
        && var log := old(logs)[receiver];
        logs == old(logs)[receiver := log.(events := log.events + Owed(check, old(connection), log, message))]
    {
      EmitIsValid(check, State(), message);
      EmitTellsOwed(check, State(), message);
      var symbol := message.symbol;
      if symbol !in routes || (message.kind.Update? && routes[symbol].awaiting) {
        return None;
      }
      var routed := routes[symbol].(awaiting := false);
      if check.Some? {
        routed := routed.(book := BookSpec.Apply(routed.depth, routed.book, message));
        if message.checksum != 0 && check.value(routed.book) != message.checksum {
          routes := routes[symbol := routed.(awaiting := true, book := BookSpec.EMPTY)];
          Notify(routed.receiver, Gapped(Resubscribing, connection));
          return Some(symbol);
        }
      }
      routes := routes[symbol := routed];
      Notify(routed.receiver, Received(message, connection));
      mismatch := None;
    }

    /** The receiver's Receive or OnGap. */
    ghost method Notify(receiver: ReceiverId, event: Event)
      requires receiver in logs
      modifies this`logs
      ensures State() == Tell(old(State()), receiver, event)
    {
      logs := logs[receiver := logs[receiver].(events := logs[receiver].events + [event])];
    }
  }
}
