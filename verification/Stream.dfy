/**
  A live subscription's stream (frontend/stream.cc) as one of its watchers sees it. `sent` is
  what that watcher was sent, and `fed` everything the stream was told; both are history.
 */
module StreamSpec {
  import opened Messages
  import opened BookSpec
  import opened ParserSpec

  /** A live subscription's id, which its stream has too. */
  type StreamId = nat

  datatype FeedState = LiveAgain | Degraded | Down

  /**
    The payloads of a MarketDataEvent. A Book carries a message without its symbol. A FeedStatus names no
    stream, but for the healthy ones it lists, which no client's book depends on.
   */
  datatype Payload =
    | StreamInfo(stream: StreamId, depth: nat)
    | BookChange(stream: StreamId, message: Message)
    | FeedStatus(state: FeedState)
    | Heartbeat
    | CommandResult

  /** One payload sent, by which stream, with the book it then held and how much it had been told by then. */
  datatype Sent = Sent(from: StreamId, payload: Payload, book: BookState, told: nat)

  datatype View = View(
    id: StreamId, depth: nat, book: BookState, gapStatus: FeedState, hasSnapshot: bool, interrupted: bool,
    checksum: u32, venueTime: i64, captureTime: i64,
    watching: bool, sent: seq<Sent>, fed: seq<Event>)

  function NewView(id: StreamId, depth: nat): View {
    View(id, depth, EMPTY, Down, false, false, 0, 0, 0, false, [], [])
  }

  function MakeBook(id: StreamId, message: Message): Payload { BookChange(id, message.(symbol := "")) }

  function Send(v: View, payload: Payload): View { v.(sent := v.sent + [Sent(v.id, payload, v.book, |v.fed|)]) }

  function SendIfWatching(v: View, payload: Payload): View { if v.watching then Send(v, payload) else v }

  function StatusOf(gap: Gap): FeedState { if gap.Resubscribing? then Degraded else Down }

  /** A snapshot ends the gap, if there is one, and says so first. */
  function EndGap(v: View, kind: Kind): View {
    if kind.Update? then v
    else
      var ended := v.(hasSnapshot := true, interrupted := false);
      if v.interrupted then SendIfWatching(ended, FeedStatus(LiveAgain)) else ended
  }

  /** The book after a message, and what a later snapshot of it will carry. */
  function Absorb(v: View, message: Message): View {
    v.(book := Apply(v.depth, v.book, message),
       checksum := message.checksum, venueTime := message.venueTime, captureTime := message.captureTime,
       fed := v.fed + [Received(message, 0)])
  }

  function Receive(v: View, message: Message): View {
    SendIfWatching(Absorb(EndGap(v, message.kind), message), MakeBook(v.id, message))
  }

  function Interrupt(v: View, gap: Gap): View {
    SendIfWatching(v.(book := EMPTY, hasSnapshot := false, interrupted := true, gapStatus := StatusOf(gap),
                      fed := v.fed + [Gapped(gap, 0)]),
                   FeedStatus(StatusOf(gap)))
  }

  /** The snapshot built from the book, carrying the last message's checksum and times. */
  function SnapshotLocked(v: View): Message {
    Message(Snapshot, v.checksum, v.venueTime, v.captureTime, "", Listing(true, v.book.bids), Listing(false, v.book.asks))
  }

  function CatchUp(v: View): View {
    var informed := Send(v, StreamInfo(v.id, v.depth));
    if v.interrupted then Send(informed, FeedStatus(v.gapStatus))
    else if v.hasSnapshot then Send(informed, BookChange(v.id, SnapshotLocked(v)))
    else informed
  }

  function Watch(v: View): View { CatchUp(v).(watching := true) }

  function Unwatch(v: View): View { v.(watching := false) }

  // ----- Runs of a stream -----------------------------------------------------------

  datatype Op = FeedMessage(message: Message) | FeedGap(gap: Gap) | StartWatching | StopWatching

  function Apply1(v: View, op: Op): View {
    match op
    case FeedMessage(message) => Receive(v, message)
    case FeedGap(gap) => Interrupt(v, gap)
    case StartWatching => Watch(v)
    case StopWatching => Unwatch(v)
  }

  /** The parser's promise: an update never comes first, nor right after a gap. */
  predicate GateAllows(v: View, op: Op) {
    op.FeedMessage? && (v.fed == [] || v.fed[|v.fed| - 1].Gapped?) ==> op.message.kind.Snapshot?
  }

  /** The promise is exactly what ReceiverLogsAreWellFormed proves of every receiver's log. */
  lemma GateIsTheGrammar(v: View, op: Op)
    requires op.FeedMessage? || op.FeedGap?
    ensures Gated(Apply1(v, op).fed) <==> Gated(v.fed) && GateAllows(v, op)
  {
    var event := if op.FeedMessage? then Received(op.message, 0) else Gapped(op.gap, 0);
    var longer := v.fed + [event];
    assert Apply1(v, op).fed == longer;
    if Gated(longer) {
      assert longer[|v.fed|] == event;
      assert event.Received? && (v.fed == [] || v.fed[|v.fed| - 1].Gapped?) ==> StartsOver(longer, |v.fed|);
      forall i | 0 <= i < |v.fed| && v.fed[i].Received? && StartsOver(v.fed, i) ensures v.fed[i].message.kind.Snapshot? {
        assert longer[i] == v.fed[i] && StartsOver(longer, i);
      }
    }
    if Gated(v.fed) && GateAllows(v, op) { GatedGrows(v.fed, event); }
  }

  /** What a client makes of its frames in order; `synced` from a StreamInfo on, which says what stream its book is. */
  datatype Client = Client(synced: bool, stream: StreamId, depth: nat, book: BookState)

  const NO_CLIENT := Client(false, 0, 0, EMPTY)

  function See(c: Client, payload: Payload): Client {
    match payload
    case StreamInfo(stream, depth) => Client(true, stream, depth, EMPTY)
    case BookChange(stream, message) =>
      if c.synced && stream == c.stream then c.(book := Apply(c.depth, c.book, message)) else c
    case FeedStatus(LiveAgain) => c
    case FeedStatus(_) => c.(book := EMPTY)
    case _ => c
  }

  function SeeAll(sent: seq<Sent>): Client {
    if sent == [] then NO_CLIENT else See(SeeAll(sent[..|sent| - 1]), sent[|sent| - 1].payload)
  }

  /** The client's book is the stream's at every send but a StreamInfo, where it is empty. */
  predicate Matches(c: Client, id: StreamId, depth: nat, sent: Sent) {
    c == Client(true, id, depth, if sent.payload.StreamInfo? then EMPTY else sent.book)
  }

  ghost predicate Faithful(v: View) {
    && (forall k :: 0 <= k < |v.sent| ==> Matches(SeeAll(v.sent[..k + 1]), v.id, v.depth, v.sent[k]))
    && (v.watching ==> SeeAll(v.sent) == Client(true, v.id, v.depth, v.book))
  }

  /** The status that announces a gap. */
  predicate Announces(gap: Gap, state: FeedState) {
    (gap == Resubscribing && state == Degraded) || (gap == Disconnected && state == Down)
  }

  ghost predicate Valid(v: View) {
    && Fits(v.depth, v.book)
    && v.book == LogBook(v.depth, v.fed)
    && (v.hasSnapshot <==> v.fed != [] && v.fed[|v.fed| - 1].Received?)
    && (v.interrupted <==> v.fed != [] && v.fed[|v.fed| - 1].Gapped?)
    && v.gapStatus != LiveAgain
    && (v.interrupted ==> Announces(v.fed[|v.fed| - 1].gap, v.gapStatus))
    && (v.hasSnapshot ==>
         && v.checksum == v.fed[|v.fed| - 1].message.checksum
         && v.venueTime == v.fed[|v.fed| - 1].message.venueTime
         && v.captureTime == v.fed[|v.fed| - 1].message.captureTime)
    && Faithful(v)
  }

  lemma SendKeepsFaith(v: View, payload: Payload)
    requires forall k :: 0 <= k < |v.sent| ==> Matches(SeeAll(v.sent[..k + 1]), v.id, v.depth, v.sent[k])
    requires Matches(See(SeeAll(v.sent), payload), v.id, v.depth, Sent(v.id, payload, v.book, |v.fed|))
    ensures SeeAll(Send(v, payload).sent) == See(SeeAll(v.sent), payload)
    ensures forall k :: 0 <= k < |Send(v, payload).sent| ==>
      Matches(SeeAll(Send(v, payload).sent[..k + 1]), v.id, v.depth, Send(v, payload).sent[k])
  {
    var longer := Send(v, payload).sent;
    assert longer[..|v.sent|] == v.sent;
    forall k | 0 <= k < |longer| ensures Matches(SeeAll(longer[..k + 1]), v.id, v.depth, longer[k]) {
      if k < |v.sent| { assert longer[..k + 1] == v.sent[..k + 1]; } else { assert longer[..k + 1] == longer; }
    }
  }

  /** The symbol does not matter to a book. */
  lemma SymbolIsIrrelevant(depth: nat, book: BookState, message: Message)
    ensures Apply(depth, book, message.(symbol := "")) == Apply(depth, book, message)
  {
  }

  lemma ReceiveKeepsFaith(v: View, message: Message)
    requires Faithful(v) && (v.interrupted ==> v.book == EMPTY)
    ensures Faithful(Receive(v, message))
  {
    SymbolIsIrrelevant(v.depth, v.book, message);
    if v.watching {
      if message.kind.Snapshot? && v.interrupted { SendKeepsFaith(v, FeedStatus(LiveAgain)); }
      SendKeepsFaith(Absorb(EndGap(v, message.kind), message), MakeBook(v.id, message));
    }
  }

  lemma InterruptKeepsFaith(v: View, gap: Gap)
    requires Faithful(v)
    ensures Faithful(Interrupt(v, gap))
  {
    if v.watching {
      var cut := v.(book := EMPTY, fed := v.fed + [Gapped(gap, 0)]);
      SendKeepsFaith(cut, FeedStatus(StatusOf(gap)));
    }
  }

  lemma WatchKeepsFaith(v: View)
    requires Faithful(v) && Fits(v.depth, v.book) && v.gapStatus != LiveAgain
    requires v.interrupted || !v.hasSnapshot ==> v.book == EMPTY
    ensures Faithful(Watch(v))
  {
    var informed := Send(v, StreamInfo(v.id, v.depth));
    SendKeepsFaith(v, StreamInfo(v.id, v.depth));
    if v.interrupted {
      SendKeepsFaith(informed, FeedStatus(v.gapStatus));
    } else if v.hasSnapshot {
      SnapshotRebuildsBook(v.depth, v.book, EMPTY, SnapshotLocked(v));
      SendKeepsFaith(informed, BookChange(v.id, SnapshotLocked(v)));
    }
  }

  lemma ReceiveKeepsValid(v: View, message: Message)
    requires Valid(v) && GateAllows(v, FeedMessage(message))
    ensures Valid(Receive(v, message))
  {
    ApplyFits(v.depth, v.book, message);
    LogBookGrows(v.depth, v.fed, Received(message, 0));
    ReceiveKeepsFaith(v, message);
  }

  lemma InterruptKeepsValid(v: View, gap: Gap)
    requires Valid(v)
    ensures Valid(Interrupt(v, gap))
  {
    LogBookGrows(v.depth, v.fed, Gapped(gap, 0));
    InterruptKeepsFaith(v, gap);
  }

  lemma WatchKeepsValid(v: View)
    requires Valid(v)
    ensures Valid(Watch(v))
  {
    WatchKeepsFaith(v);
  }

  lemma UnwatchKeepsValid(v: View)
    requires Valid(v)
    ensures Valid(Unwatch(v))
  {
  }

  /** Every operation keeps the stream's book a replay of what it was fed, and its watcher faithful. */
  lemma OpKeepsValid(v: View, op: Op)
    requires Valid(v) && GateAllows(v, op)
    ensures Valid(Apply1(v, op))
  {
    match op
    case FeedMessage(message) => ReceiveKeepsValid(v, message);
    case FeedGap(gap) => InterruptKeepsValid(v, gap);
    case StartWatching => WatchKeepsValid(v);
    case StopWatching => UnwatchKeepsValid(v);
  }

  // ----- What exactly a watcher is sent ---------------------------------------------

  /** What is true of a stream's pair, judged by what the stream was told alone. */
  datatype Condition = Nothing | InGap(gap: Gap) | Current(last: Message)

  function ConditionOf(fed: seq<Event>): Condition {
    if fed == [] then Nothing
    else
      match fed[|fed| - 1]
      case Received(message, _) => Current(message)
      case Gapped(gap, _) => InGap(gap)
  }

  /** The replay as a snapshot, with the last message's checksum and times. */
  function ReplayAsSnapshot(depth: nat, fed: seq<Event>, last: Message): Message {
    var book := LogBook(depth, fed);
    Message(Snapshot, last.checksum, last.venueTime, last.captureTime, "", Listing(true, book.bids), Listing(false, book.asks))
  }

  /** A new watcher: which stream this is, then the gap it is in or the book as it is, if either. */
  function OwedToNew(id: StreamId, depth: nat, fed: seq<Event>): seq<Payload> {
    match ConditionOf(fed)
    case Nothing => [StreamInfo(id, depth)]
    case InGap(Resubscribing) => [StreamInfo(id, depth), FeedStatus(Degraded)]
    case InGap(Disconnected) => [StreamInfo(id, depth), FeedStatus(Down)]
    case Current(last) => [StreamInfo(id, depth), BookChange(id, ReplayAsSnapshot(depth, fed, last))]
  }

  /** A watcher already: each message, after LIVE if it is a snapshot and ends a gap; and each gap's status. */
  function OwedToWatcher(id: StreamId, fed: seq<Event>, op: Op): seq<Payload> {
    match op
    case FeedMessage(message) =>
      (if message.kind.Snapshot? && ConditionOf(fed).InGap? then [FeedStatus(LiveAgain)] else [])
      + [BookChange(id, message.(symbol := ""))]
    case FeedGap(Resubscribing) => [FeedStatus(Degraded)]
    case FeedGap(Disconnected) => [FeedStatus(Down)]
    case _ => []
  }

  function PayloadsOf(sent: seq<Sent>): seq<Payload> { seq(|sent|, i requires 0 <= i < |sent| => sent[i].payload) }

  function Owed(v: View, op: Op): seq<Payload> {
    if op.StartWatching? then OwedToNew(v.id, v.depth, v.fed)
    else if v.watching then OwedToWatcher(v.id, v.fed, op)
    else []
  }

  lemma PayloadsGrow(sent: seq<Sent>, more: seq<Sent>)
    ensures PayloadsOf(sent + more) == PayloadsOf(sent) + PayloadsOf(more)
  {
  }

  lemma SendAdds(v: View, payload: Payload)
    ensures PayloadsOf(Send(v, payload).sent) == PayloadsOf(v.sent) + [payload]
  {
  }

  lemma WatchSendsOwed(v: View)
    requires Valid(v)
    ensures PayloadsOf(Watch(v).sent) == PayloadsOf(v.sent) + OwedToNew(v.id, v.depth, v.fed)
  {
    var info := StreamInfo(v.id, v.depth);
    var informed := Send(v, info);
    SendAdds(v, info);
    if v.interrupted {
      SendAdds(informed, FeedStatus(v.gapStatus));
      assert PayloadsOf(v.sent) + [info] + [FeedStatus(v.gapStatus)] == PayloadsOf(v.sent) + [info, FeedStatus(v.gapStatus)];
    } else if v.hasSnapshot {
      var book := BookChange(v.id, SnapshotLocked(v));
      SendAdds(informed, book);
      assert PayloadsOf(v.sent) + [info] + [book] == PayloadsOf(v.sent) + [info, book];
    }
  }

  lemma ReceiveSendsOwed(v: View, message: Message)
    requires Valid(v)
    ensures PayloadsOf(Receive(v, message).sent)
         == PayloadsOf(v.sent) + if v.watching then OwedToWatcher(v.id, v.fed, FeedMessage(message)) else []
  {
    var live, book := FeedStatus(LiveAgain), BookChange(v.id, message.(symbol := ""));
    if v.watching {
      SendAdds(v, live);
      SendAdds(Absorb(EndGap(v, message.kind), message), book);
      assert PayloadsOf(v.sent) + [live] + [book] == PayloadsOf(v.sent) + ([live] + [book]);
      assert [] + [book] == [book];
    } else {
      assert PayloadsOf(v.sent) + [] == PayloadsOf(v.sent);
    }
  }

  /** Every operation sends a watcher exactly what it is owed: by the stream's condition, and by what it is told. */
  lemma OpSendsOwed(v: View, op: Op)
    requires Valid(v)
    ensures PayloadsOf(Apply1(v, op).sent) == PayloadsOf(v.sent) + Owed(v, op)
  {
    match op
    case FeedMessage(message) => ReceiveSendsOwed(v, message);
    case FeedGap(gap) => InterruptSendsOwed(v, gap);
    case StartWatching => WatchSendsOwed(v);
    case StopWatching => assert PayloadsOf(v.sent) + [] == PayloadsOf(v.sent);
  }

  lemma InterruptSendsOwed(v: View, gap: Gap)
    requires Valid(v)
    ensures PayloadsOf(Interrupt(v, gap).sent)
         == PayloadsOf(v.sent) + if v.watching then OwedToWatcher(v.id, v.fed, FeedGap(gap)) else []
  {
    if v.watching {
      SendAdds(v, FeedStatus(StatusOf(gap)));
    } else {
      assert PayloadsOf(v.sent) + [] == PayloadsOf(v.sent);
    }
  }

  // ----- Over a whole history -------------------------------------------------------

  /** A stream and one watcher's calls, from the stream's making. */
  function Lived(id: StreamId, depth: nat, ops: seq<Op>): View {
    if ops == [] then NewView(id, depth) else Apply1(Lived(id, depth, ops[..|ops| - 1]), ops[|ops| - 1])
  }

  ghost predicate Allowed(id: StreamId, depth: nat, ops: seq<Op>) {
    ops == []
    || (Allowed(id, depth, ops[..|ops| - 1]) && GateAllows(Lived(id, depth, ops[..|ops| - 1]), ops[|ops| - 1]))
  }

  function ToldBy(ops: seq<Op>): seq<Event> {
    if ops == [] then []
    else
      ToldBy(ops[..|ops| - 1]) + ToldOf(ops[|ops| - 1])
  }

  function ToldOf(op: Op): seq<Event> {
    match op
    case FeedMessage(message) => [Received(message, 0)]
    case FeedGap(gap) => [Gapped(gap, 0)]
    case _ => []
  }

  /** Its last call was to watch. */
  predicate WatchesAfter(ops: seq<Op>) {
    ops != []
    && match ops[|ops| - 1]
       case StartWatching => true
       case StopWatching => false
       case _ => WatchesAfter(ops[..|ops| - 1])
  }

  /** All a watcher is owed over such a history: catching up whenever it begins to watch, then every event. */
  function OwedOver(id: StreamId, depth: nat, ops: seq<Op>): seq<Payload> {
    if ops == [] then []
    else
      var rest, last := ops[..|ops| - 1], ops[|ops| - 1];
      OwedOver(id, depth, rest)
      + if last.StartWatching? then OwedToNew(id, depth, ToldBy(rest))
        else if WatchesAfter(rest) then OwedToWatcher(id, ToldBy(rest), last)
        else []
  }

  lemma OpTells(v: View, op: Op)
    ensures var w := Apply1(v, op);
      && w.id == v.id && w.depth == v.depth && w.fed == v.fed + ToldOf(op)
      && w.watching == (op.StartWatching? || (v.watching && !op.StopWatching?))
  {
    assert v.fed + [] == v.fed;
  }

  lemma {:induction false} LivesOn(id: StreamId, depth: nat, ops: seq<Op>)
    ensures var v := Lived(id, depth, ops);
      v.id == id && v.depth == depth && v.fed == ToldBy(ops) && v.watching == WatchesAfter(ops)
  {
    if ops != [] {
      LivesOn(id, depth, ops[..|ops| - 1]);
      OpTells(Lived(id, depth, ops[..|ops| - 1]), ops[|ops| - 1]);
    }
  }

  lemma {:induction false} LivedIsValid(id: StreamId, depth: nat, ops: seq<Op>)
    requires Allowed(id, depth, ops)
    ensures Valid(Lived(id, depth, ops))
  {
    if ops == [] {
      NewIsValid(id, depth);
    } else {
      LivedIsValid(id, depth, ops[..|ops| - 1]);
      OpKeepsValid(Lived(id, depth, ops[..|ops| - 1]), ops[|ops| - 1]);
    }
  }

  lemma NewIsValid(id: StreamId, depth: nat)
    ensures Valid(NewView(id, depth))
  {
  }

  /** Over every history of a stream, a watcher is sent exactly that, in order. */
  lemma {:induction false} WatchersAreSentAll(id: StreamId, depth: nat, ops: seq<Op>)
    requires Allowed(id, depth, ops)
    ensures PayloadsOf(Lived(id, depth, ops).sent) == OwedOver(id, depth, ops)
  {
    if ops != [] {
      var rest, last := ops[..|ops| - 1], ops[|ops| - 1];
      WatchersAreSentAll(id, depth, rest);
      LivesOn(id, depth, rest);
      LivedIsValid(id, depth, rest);
      OpSendsOwed(Lived(id, depth, rest), last);
    }
  }

  lemma LastIsCertified(check: ChecksumFunction, depth: nat, events: seq<Event>)
    requires events != [] && events[|events| - 1].Received? && Certified(check, depth, events)
    ensures var message := events[|events| - 1].message;
      message.checksum != 0 ==> check(LogBook(depth, events)) == message.checksum
  {
    assert events[..|events| - 1 + 1] == events;
  }

  /** The snapshot a late watcher gets rebuilds the book, and matches the checksum it carries. */
  lemma SnapshotIsCertified(check: ChecksumFunction, v: View, was: BookState)
    requires Valid(v) && v.hasSnapshot && Certified(check, v.depth, v.fed)
    ensures Apply(v.depth, was, SnapshotLocked(v)) == LogBook(v.depth, v.fed)
    ensures SnapshotLocked(v).checksum != 0 ==> check(Apply(v.depth, was, SnapshotLocked(v))) == SnapshotLocked(v).checksum
  {
    var snapshot := SnapshotLocked(v);
    SnapshotRebuildsBook(v.depth, v.book, was, snapshot);
    LastIsCertified(check, v.depth, v.fed);
    assert Apply(v.depth, was, snapshot) == v.book;
  }
}

/** The class of frontend/stream.h. */
module Streams {
  import opened Messages
  import opened ParserSpec
  import StreamSpec
  import opened Books

  type WatcherId = nat

  ghost predicate Distinct(watchers: seq<WatcherId>) {
    forall i, j :: 0 <= i < j < |watchers| ==> watchers[i] != watchers[j]
  }

  /** The watchers other than `w`: std::erase. */
  function Without(watchers: seq<WatcherId>, w: WatcherId): (rest: seq<WatcherId>)
    ensures forall v :: v in rest <==> v in watchers && v != w
  {
    if watchers == [] then []
    else (if watchers[0] == w then [] else [watchers[0]]) + Without(watchers[1..], w)
  }

  lemma {:induction false} WithoutIsDistinct(watchers: seq<WatcherId>, w: WatcherId)
    requires Distinct(watchers)
    ensures Distinct(Without(watchers, w)) && Distinct(Without(watchers, w) + [w])
  {
    if watchers != [] {
      var rest := Without(watchers[1..], w);
      WithoutIsDistinct(watchers[1..], w);
      if watchers[0] == w {
        assert Without(watchers, w) == rest;
      } else {
        assert forall i :: 0 <= i < |rest| ==> rest[i] in rest;
      }
    }
  }

  lemma NextIsNew(watchers: seq<WatcherId>, i: nat)
    requires Distinct(watchers) && i < |watchers|
    ensures watchers[i] !in watchers[..i]
    ensures forall w :: w in watchers[..i + 1] <==> w in watchers[..i] || w == watchers[i]
  {
    assert watchers[..i + 1] == watchers[..i] + [watchers[i]];
  }

  class Stream {
    const id: StreamSpec.StreamId
    const book: Book
    var gapStatus: StreamSpec.FeedState
    var hasSnapshot: bool
    var interrupted: bool
    var checksum: u32
    var venueTime: i64
    var captureTime: i64
    var watchers: seq<WatcherId>
    ghost var sent: map<WatcherId, seq<StreamSpec.Sent>>
    ghost var fed: seq<Event>

    ghost function SentTo(w: WatcherId): seq<StreamSpec.Sent>
      reads this`sent
    {
      if w in sent then sent[w] else []
    }

    /** The stream as watcher `w` sees it. */
    ghost function View(w: WatcherId): StreamSpec.View
      reads this, book
    {
      StreamSpec.View(id, book.depth, book.state, gapStatus, hasSnapshot, interrupted, checksum, venueTime, captureTime,
                      w in watchers, SentTo(w), fed)
    }

    ghost predicate Valid()
      reads this, book
    {
      book.Valid() && Distinct(watchers)
    }

    constructor (id: StreamSpec.StreamId, depth: nat)
      ensures Valid() && fresh(book)
      ensures forall w :: View(w) == StreamSpec.NewView(id, depth)
    {
      this.id := id;
      book := new Book(depth);
      gapStatus, hasSnapshot, interrupted := StreamSpec.Down, false, false;
      checksum, venueTime, captureTime := 0, 0, 0;
      watchers, sent, fed := [], map[], [];
    }

    /** Watcher::Send. */
    ghost method Deliver(w: WatcherId, payload: StreamSpec.Payload)
      modifies this`sent
      ensures SentTo(w) == old(SentTo(w)) + [StreamSpec.Sent(id, payload, book.state, |fed|)]
      ensures forall v :: v != w ==> SentTo(v) == old(SentTo(v))
    {
      sent := sent[w := SentTo(w) + [StreamSpec.Sent(id, payload, book.state, |fed|)]];
    }

    method SendLocked(payload: StreamSpec.Payload)
      requires Distinct(watchers)
      modifies this`sent
      ensures forall w :: View(w) == StreamSpec.SendIfWatching(old(View(w)), payload)
    {
      ghost var sending := StreamSpec.Sent(id, payload, book.state, |fed|);
      var i := 0;
      while i < |watchers|
        invariant 0 <= i <= |watchers|
        invariant forall w :: SentTo(w) == old(SentTo(w)) + (if w in watchers[..i] then [sending] else [])
      {
        NextIsNew(watchers, i);
        Deliver(watchers[i], payload);
        i := i + 1;
      }
      assert watchers[..i] == watchers;
      forall w ensures View(w) == StreamSpec.SendIfWatching(old(View(w)), payload) {
        if w !in watchers { assert SentTo(w) == old(SentTo(w)); }
      }
    }

    method Receive(message: Message)
      requires Valid()
      modifies this, book
      ensures Valid()
      ensures forall w :: View(w) == StreamSpec.Receive(old(View(w)), message)
    {
      if message.kind.Snapshot? {
        EndGap();
      }
      Absorb(message);
      if watchers != [] {
        SendLocked(StreamSpec.MakeBook(id, message));
      }
    }

    method EndGap()
      requires Valid()
      modifies this
      ensures Valid()
      ensures forall w :: View(w) == StreamSpec.EndGap(old(View(w)), Snapshot)
    {
      hasSnapshot := true;
      var wasInterrupted := interrupted;
      interrupted := false;
      if wasInterrupted {
        SendLocked(StreamSpec.FeedStatus(StreamSpec.LiveAgain));
      }
    }

    method Absorb(message: Message)
      requires Valid()
      modifies this, book
      ensures Valid() && watchers == old(watchers)
      ensures forall w :: View(w) == StreamSpec.Absorb(old(View(w)), message)
    {
      book.Apply(message);
      checksum := message.checksum;
      venueTime := message.venueTime;
      captureTime := message.captureTime;
      fed := fed + [Received(message, 0)];
    }

    method Interrupt(gap: Gap)
      requires Valid()
      modifies this, book
      ensures Valid()
      ensures forall w :: View(w) == StreamSpec.Interrupt(old(View(w)), gap)
    {
      book.Clear();
      hasSnapshot := false;
      interrupted := true;
      gapStatus := if gap.Resubscribing? then StreamSpec.Degraded else StreamSpec.Down;
      fed := fed + [Gapped(gap, 0)];
      SendLocked(StreamSpec.FeedStatus(gapStatus));
    }

    method Watch(w: WatcherId)
      requires Valid()
      modifies this`watchers, this`sent
      ensures Valid()
      ensures View(w) == StreamSpec.Watch(old(View(w)))
      ensures forall v :: v != w ==> View(v) == old(View(v))
    {
      WithoutIsDistinct(watchers, w);
      watchers := Without(watchers, w);
      CatchUp(w);
      watchers := watchers + [w];
    }

    /** What a new watcher is sent before it is one. */
    method CatchUp(w: WatcherId)
      requires book.Valid()
      modifies this`sent
      ensures View(w) == StreamSpec.CatchUp(old(View(w)))
      ensures forall v :: v != w ==> SentTo(v) == old(SentTo(v))
    {
      Deliver(w, StreamSpec.StreamInfo(id, book.depth));
      if interrupted {
        Deliver(w, StreamSpec.FeedStatus(gapStatus));
      } else if hasSnapshot {
        var snapshot := SnapshotLocked(w);
        Deliver(w, StreamSpec.BookChange(id, snapshot));
      }
    }

    method Unwatch(w: WatcherId)
      requires Valid()
      modifies this`watchers
      ensures Valid()
      ensures View(w) == StreamSpec.Unwatch(old(View(w)))
      ensures forall v :: v != w ==> View(v) == old(View(v))
    {
      WithoutIsDistinct(watchers, w);
      watchers := Without(watchers, w);
    }

    method SnapshotLocked(ghost w: WatcherId) returns (snapshot: Message)
      requires book.Valid()
      ensures snapshot == StreamSpec.SnapshotLocked(View(w))
    {
      book.SidesAreListings();
      snapshot := Message(Snapshot, checksum, venueTime, captureTime, "", book.bids, book.asks);
    }
  }
}
