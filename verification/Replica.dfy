/** What a client makes of the frames it reads, and what of it depends on what was lost. */
module ClientSpec {
  import opened BookSpec
  import opened StreamSpec
  import opened SessionSpec

  predicate FromStream(payload: Payload) { !payload.Heartbeat? && !payload.CommandResult? }

  /** A client that trusts its book from a StreamInfo until a number is missing. */
  datatype Reader = Reader(synced: bool, next: nat, client: Client)

  function Read(r: Reader, frame: Frame): Reader {
    if frame.payload.StreamInfo? || (r.synced && frame.sequence == r.next)
    then Reader(true, frame.sequence + 1, See(r.client, frame.payload))
    else r.(synced := false)
  }

  function ReadAll(frames: seq<Frame>): Reader {
    if frames == [] then Reader(false, 0, NO_CLIENT)
    else Read(ReadAll(frames[..|frames| - 1]), frames[|frames| - 1])
  }

  /** A client nothing is lost to. */
  function Ideal(offered: seq<Payload>): Client {
    if offered == [] then NO_CLIENT
    else See(Ideal(offered[..|offered| - 1]), offered[|offered| - 1])
  }

  /** While synced, a client of the lossy queue is where a lossless one would be. */
  lemma {:induction false} SyncedIsIdeal(frames: seq<Frame>, offered: seq<Payload>)
    requires Numbered(frames, offered) && ReadAll(frames).synced
    ensures frames != [] && ReadAll(frames).next == frames[|frames| - 1].sequence + 1
    ensures ReadAll(frames).client == Ideal(offered[..frames[|frames| - 1].sequence + 1])
    ensures ReadAll(frames).client.synced
  {
    var last := frames[|frames| - 1];
    var upTo := offered[..last.sequence + 1];
    assert upTo[..last.sequence] == offered[..last.sequence] && upTo[last.sequence] == last.payload;
    if !last.payload.StreamInfo? {
      SyncedIsIdeal(frames[..|frames| - 1], offered);
    }
  }

  // ----- What was offered came from the streams -------------------------------------

  function Streamed(offered: seq<Payload>): nat {
    if offered == [] then 0
    else Streamed(offered[..|offered| - 1]) + if FromStream(offered[|offered| - 1]) then 1 else 0
  }

  /** The streams' payloads among those offered are the first of the log, in order. */
  ghost predicate ComeFrom(offered: seq<Payload>, sent: seq<Sent>) {
    offered == []
    || (&& ComeFrom(offered[..|offered| - 1], sent)
        && (FromStream(offered[|offered| - 1]) ==>
             Streamed(offered) <= |sent| && sent[Streamed(offered) - 1].payload == offered[|offered| - 1]))
  }

  lemma {:induction false} StreamedBound(offered: seq<Payload>, sent: seq<Sent>)
    requires ComeFrom(offered, sent)
    ensures Streamed(offered) <= |sent|
  {
    if offered != [] { StreamedBound(offered[..|offered| - 1], sent); }
  }

  lemma {:induction false} PrefixComesFrom(offered: seq<Payload>, sent: seq<Sent>, n: nat)
    requires ComeFrom(offered, sent) && n <= |offered|
    ensures ComeFrom(offered[..n], sent)
  {
    if n < |offered| {
      PrefixComesFrom(offered[..|offered| - 1], sent, n);
      assert offered[..|offered| - 1][..n] == offered[..n];
    } else {
      assert offered[..n] == offered;
    }
  }

  lemma {:induction false} StillComesFrom(offered: seq<Payload>, sent: seq<Sent>, longer: seq<Sent>)
    requires ComeFrom(offered, sent) && sent <= longer
    ensures ComeFrom(offered, longer)
  {
    if offered != [] { StillComesFrom(offered[..|offered| - 1], sent, longer); }
  }

  lemma {:induction false} IdealIsSeen(offered: seq<Payload>, sent: seq<Sent>)
    requires ComeFrom(offered, sent)
    ensures Streamed(offered) <= |sent| && Ideal(offered) == SeeAll(sent[..Streamed(offered)])
  {
    StreamedBound(offered, sent);
    if offered != [] {
      var rest, last := offered[..|offered| - 1], offered[|offered| - 1];
      IdealIsSeen(rest, sent);
      if FromStream(last) {
        assert sent[..Streamed(offered)][..Streamed(rest)] == sent[..Streamed(rest)];
      }
    }
  }

  // ----- Several streams to one client ----------------------------------------------

  /** A payload that names a stream names the one that sent it. */
  predicate Tagged(from: StreamId, payload: Payload) {
    payload.StreamInfo? || payload.BookChange? ==> payload.stream == from
  }

  ghost predicate WellTagged(log: seq<Sent>) {
    forall k :: 0 <= k < |log| ==> FromStream(log[k].payload) && Tagged(log[k].from, log[k].payload)
  }

  /** One stream's sends, in order. */
  function From(log: seq<Sent>, id: StreamId): seq<Sent> {
    if log == [] then []
    else From(log[..|log| - 1], id) + if log[|log| - 1].from == id then [log[|log| - 1]] else []
  }

  lemma FromGrows(log: seq<Sent>, sent: Sent, id: StreamId)
    ensures From(log + [sent], id) == From(log, id) + if sent.from == id then [sent] else []
  {
    assert (log + [sent])[..|log|] == log;
  }

  predicate IsOwn(c: Client, sent: Sent) { sent.payload.StreamInfo? || (c.synced && sent.from == c.stream) }

  /** A client that could tell whose every payload is: it heeds the stream of its last StreamInfo alone. */
  function Own(log: seq<Sent>): Client {
    if log == [] then NO_CLIENT
    else
      var before, last := Own(log[..|log| - 1]), log[|log| - 1];
      if IsOwn(before, last) then See(before, last.payload) else before
  }

  lemma OwnGrows(log: seq<Sent>, sent: Sent)
    ensures Own(log + [sent]) == if IsOwn(Own(log), sent) then See(Own(log), sent.payload) else Own(log)
    ensures SeeAll(log + [sent]) == See(SeeAll(log), sent.payload)
  {
    assert (log + [sent])[..|log|] == log;
  }

  /** Such a client sees what one that got only its stream's sends would see. */
  lemma {:induction false} OwnIsView(log: seq<Sent>)
    requires WellTagged(log) && Own(log).synced
    ensures From(log, Own(log).stream) != [] && Own(log) == SeeAll(From(log, Own(log).stream))
  {
    if log != [] {
      var rest, last := log[..|log| - 1], log[|log| - 1];
      if Own(rest).synced { OwnIsView(rest); }
      var id := Own(log).stream;
      if IsOwn(Own(rest), last) {
        var grown := From(log, id);
        assert last.from == id && grown[..|grown| - 1] == From(rest, id);
      } else {
        assert From(log, id) == From(rest, id);
      }
    }
  }

  predicate ClearsBook(payload: Payload) { payload.FeedStatus? && !payload.state.LiveAgain? }

  /** Another stream's DISCONNECTED or DEGRADED, which names no stream, takes a book that is not its own. */
  predicate Spoils(c: Client, sent: Sent) { !IsOwn(c, sent) && ClearsBook(sent.payload) && c.book != EMPTY }

  lemma SeesUnlessSpoiled(c: Client, sent: Sent)
    requires FromStream(sent.payload) && Tagged(sent.from, sent.payload)
    ensures See(c, sent.payload) == (if IsOwn(c, sent) then See(c, sent.payload) else c) <==> !Spoils(c, sent)
  {
  }

  /** The client agrees with its own stream now, and did after every payload before. */
  predicate NeverDiffers(log: seq<Sent>) {
    SeeAll(log) == Own(log) && (log == [] || NeverDiffers(log[..|log| - 1]))
  }

  predicate NeverSpoiled(log: seq<Sent>) {
    log == [] || (!Spoils(Own(log[..|log| - 1]), log[|log| - 1]) && NeverSpoiled(log[..|log| - 1]))
  }

  /**
    A client agrees with its own stream at every frame if and only if no other stream's gap status ever reaches
    it while its own stream has a book.
   */
  lemma {:induction false} DiffersExactlyIfSpoiled(log: seq<Sent>)
    requires WellTagged(log)
    ensures NeverDiffers(log) <==> NeverSpoiled(log)
  {
    if log != [] {
      var rest, last := log[..|log| - 1], log[|log| - 1];
      DiffersExactlyIfSpoiled(rest);
      SeesUnlessSpoiled(Own(rest), last);
    }
  }

  /** After these the book no longer depends on what it was. */
  predicate Heals(c: Client, sent: Sent) {
    || sent.payload.StreamInfo?
    || (IsOwn(c, sent) && (ClearsBook(sent.payload) || (sent.payload.BookChange? && sent.payload.message.kind.Snapshot?)))
  }

  /** Nothing spoiled the book since its last StreamInfo, snapshot or own gap. */
  predicate Clean(log: seq<Sent>) {
    log == []
    || Heals(Own(log[..|log| - 1]), log[|log| - 1])
    || (Clean(log[..|log| - 1]) && !Spoils(Own(log[..|log| - 1]), log[|log| - 1]))
  }

  lemma {:induction false} SameButBook(log: seq<Sent>)
    requires WellTagged(log)
    ensures SeeAll(log).(book := EMPTY) == Own(log).(book := EMPTY)
  {
    if log != [] { SameButBook(log[..|log| - 1]); }
  }

  /** Spoiling does not last: the client agrees again from its own stream's next snapshot or gap. */
  lemma {:induction false} CleanAgrees(log: seq<Sent>)
    requires WellTagged(log) && Clean(log)
    ensures SeeAll(log) == Own(log)
  {
    if log != [] {
      var rest, last := log[..|log| - 1], log[|log| - 1];
      SameButBook(rest);
      if !Heals(Own(rest), last) {
        CleanAgrees(rest);
        SeesUnlessSpoiled(Own(rest), last);
      }
    }
  }
}

/**
  Streams, the connection of one client, and the commands with which it watches them. A stream posts
  each payload to the network thread while it holds its lock, so the sends of two streams interleave, and
  Server::Watch watches the new stream before it leaves the old one. The network thread queues
  the posts in order among heartbeats and command results, dropping Books when the queue is full.
 */
module Replica {
  import opened Messages
  import opened BookSpec
  import opened ParserSpec
  import opened StreamSpec
  import opened SessionSpec
  import opened ClientSpec
  import L2Manager

  /** The command being run: `id` is what a Watch has watched, or is watching, while the old one may still send. */
  datatype Command = Idle | Watching(id: StreamId)

  /** `log`: everything posted, in order; `taken`: how much of it the network thread has taken. */
  datatype System = System(
    views: map<StreamId, View>, watched: Option<StreamId>, command: Command, log: seq<Sent>, taken: nat, session: Session)

  const CONNECTED := System(map[], None, Idle, [], 0, OPENED)

  datatype Step =
    | Open(id: StreamId, depth: nat)
    | Feed(id: StreamId, op: StreamSpec.Op)
    | Post(id: StreamId)
    | BeginWatch(id: StreamId)
    | EndWatch
    | Leave
    | Take
    | AtSession(act: SessionSpec.Op)

  /** The stream holds its lock, with sends yet to post. */
  predicate Busy(y: System, id: StreamId)
    requires id in y.views
  {
    |From(y.log, id)| < |y.views[id].sent|
  }

  function Head(y: System, id: StreamId): Sent
    requires id in y.views && Busy(y, id)
  {
    y.views[id].sent[|From(y.log, id)|]
  }

  predicate CanUnwatch(y: System) { y.watched.Some? ==> y.watched.value in y.views && !Busy(y, y.watched.value) }

  predicate CanStep(y: System, step: Step) {
    match step
    case Open(id, _) => id !in y.views
    case Feed(id, op) => id in y.views && !Busy(y, id) && (op.FeedMessage? || op.FeedGap?) && GateAllows(y.views[id], op)
    case Post(id) => id in y.views && Busy(y, id)
    case BeginWatch(id) => y.command.Idle? && id in y.views && !Busy(y, id)
    case EndWatch => y.command.Watching? && y.command.id in y.views && !Busy(y, y.command.id) && CanUnwatch(y)
    case Leave => y.command.Idle? && y.watched.Some? && CanUnwatch(y)
    case Take => y.taken < |y.log|
    case AtSession(act) => Enabled(y.session, act) && (act.Offer? ==> !FromStream(act.payload))
  }

  function With(y: System, id: StreamId, view: View): System { y.(views := y.views[id := view]) }

  function Next(y: System, step: Step): System
    requires CanStep(y, step)
  {
    match step
    case Open(id, depth) => With(y, id, NewView(id, depth))
    case Feed(id, op) => With(y, id, StreamSpec.Apply1(y.views[id], op))
    case Post(id) => y.(log := y.log + [Head(y, id)])
    case BeginWatch(id) => With(y, id, Watch(y.views[id])).(command := Watching(id))
    case EndWatch =>
      var left :=
        if y.watched.Some? && y.watched.value != y.command.id
        then With(y, y.watched.value, Unwatch(y.views[y.watched.value])) else y;
      left.(watched := Some(y.command.id), command := Idle)
    case Leave => With(y, y.watched.value, Unwatch(y.views[y.watched.value])).(watched := None)
    case Take => y.(taken := y.taken + 1, session := Enqueue(y.session, y.log[y.taken].payload))
    case AtSession(act) => y.(session := SessionSpec.Apply1(y.session, act))
  }

  ghost predicate IsRun(states: seq<System>, steps: seq<Step>) {
    && |states| == |steps| + 1 && states[0] == CONNECTED
    && forall i :: 0 <= i < |steps| ==> CanStep(states[i], steps[i]) && states[i + 1] == Next(states[i], steps[i])
  }

  // ----- What each stream sent ------------------------------------------------------

  /** A Book carries the checksum of the last message its stream was told. */
  predicate Endorsed(payload: Payload, fed: seq<Event>) {
    payload.BookChange? ==>
      && fed != [] && fed[|fed| - 1].Received?
      && payload.message.checksum == fed[|fed| - 1].message.checksum
  }

  /** Every payload sent is the stream's, with the book that is the replay of what it had been told. */
  ghost predicate Sourced(v: View) {
    forall k :: 0 <= k < |v.sent| ==>
      && v.sent[k].from == v.id && FromStream(v.sent[k].payload) && Tagged(v.id, v.sent[k].payload)
      && v.sent[k].told <= |v.fed| && v.sent[k].book == LogBook(v.depth, v.fed[..v.sent[k].told])
      && Endorsed(v.sent[k].payload, v.fed[..v.sent[k].told])
  }

  lemma SendIsSourced(v: View, payload: Payload)
    requires Sourced(v) && v.book == LogBook(v.depth, v.fed) && FromStream(payload) && Tagged(v.id, payload)
    requires Endorsed(payload, v.fed)
    ensures Sourced(Send(v, payload))
  {
    assert v.fed[..|v.fed|] == v.fed;
  }

  lemma TellingIsSourced(v: View, event: Event, w: View)
    requires Sourced(v) && w.id == v.id && w.sent == v.sent && w.depth == v.depth && w.fed == v.fed + [event]
    ensures Sourced(w)
  {
    forall k | 0 <= k < |v.sent| ensures w.fed[..v.sent[k].told] == v.fed[..v.sent[k].told] {}
  }

  ghost predicate HoldsReplay(v: View) { v.book == LogBook(v.depth, v.fed) }

  lemma EndGapIsSourced(v: View, kind: Kind)
    requires Sourced(v) && HoldsReplay(v)
    ensures var ended := EndGap(v, kind);
      && Sourced(ended) && HoldsReplay(ended) && v.sent <= ended.sent && ended.id == v.id
  {
    SendIsSourced(v, FeedStatus(LiveAgain));
  }

  lemma AbsorbIsSourced(v: View, message: Message)
    requires Sourced(v) && HoldsReplay(v)
    ensures var told := Absorb(v, message);
      && Sourced(told) && HoldsReplay(told) && told.sent == v.sent && Endorsed(MakeBook(v.id, message), told.fed)
  {
    LogBookGrows(v.depth, v.fed, Received(message, 0));
    TellingIsSourced(v, Received(message, 0), Absorb(v, message));
  }

  lemma ReceiveIsSourced(v: View, message: Message)
    requires StreamSpec.Valid(v) && Sourced(v)
    ensures Sourced(StreamSpec.Receive(v, message)) && v.sent <= StreamSpec.Receive(v, message).sent
  {
    var ended := EndGap(v, message.kind);
    EndGapIsSourced(v, message.kind);
    AbsorbIsSourced(ended, message);
    SendIsSourced(Absorb(ended, message), MakeBook(v.id, message));
  }

  lemma InterruptIsSourced(v: View, gap: Gap)
    requires StreamSpec.Valid(v) && Sourced(v)
    ensures Sourced(Interrupt(v, gap)) && v.sent <= Interrupt(v, gap).sent
  {
    var cut := v.(book := EMPTY, fed := v.fed + [Gapped(gap, 0)]);
    LogBookGrows(v.depth, v.fed, Gapped(gap, 0));
    TellingIsSourced(v, Gapped(gap, 0), cut);
    SendIsSourced(cut, FeedStatus(StatusOf(gap)));
  }

  lemma WatchIsSourced(v: View)
    requires StreamSpec.Valid(v) && Sourced(v)
    ensures Sourced(Watch(v)) && v.sent <= Watch(v).sent
  {
    var informed := Send(v, StreamInfo(v.id, v.depth));
    SendIsSourced(v, StreamInfo(v.id, v.depth));
    if v.interrupted {
      SendIsSourced(informed, FeedStatus(v.gapStatus));
    } else if v.hasSnapshot {
      SendIsSourced(informed, BookChange(v.id, SnapshotLocked(v)));
    }
  }

  lemma OpIsSourced(v: View, op: StreamSpec.Op)
    requires StreamSpec.Valid(v) && Sourced(v)
    ensures Sourced(StreamSpec.Apply1(v, op)) && v.sent <= StreamSpec.Apply1(v, op).sent
    ensures StreamSpec.Apply1(v, op).depth == v.depth && StreamSpec.Apply1(v, op).id == v.id
  {
    match op
    case FeedMessage(message) => ReceiveIsSourced(v, message);
    case FeedGap(gap) => InterruptIsSourced(v, gap);
    case StartWatching => WatchIsSourced(v);
    case StopWatching =>
  }

  /** What an operation sends: nothing unless watched, and a StreamInfo only to start, first of all. */
  lemma OpSends(v: View, op: StreamSpec.Op)
    ensures var w := StreamSpec.Apply1(v, op);
      && |v.sent| <= |w.sent|
      && (op.FeedMessage? || op.FeedGap? ==>
           && w.watching == v.watching && (!v.watching ==> w.sent == v.sent)
           && forall j :: |v.sent| <= j < |w.sent| ==> !w.sent[j].payload.StreamInfo?)
      && (op.StartWatching? ==> |v.sent| < |w.sent| && w.sent[|v.sent|].payload == StreamInfo(v.id, v.depth))
  {
  }

  // ----- The invariant --------------------------------------------------------------

  /** `sent` of the view's sends are in the log. Only a watched stream sends, and only one being watched informs. */
  ghost predicate GoodView(v: View, id: StreamId, sent: seq<Sent>, mayWatch: bool, mayInform: bool) {
    && v.id == id && StreamSpec.Valid(v) && Sourced(v) && sent <= v.sent
    && (v.watching || |sent| < |v.sent| ==> mayWatch)
    && (forall j :: |sent| <= j < |v.sent| && v.sent[j].payload.StreamInfo? ==> mayInform)
  }

  predicate MayWatch(y: System, id: StreamId) { y.watched == Some(id) || y.command == Watching(id) }

  ghost predicate GoodViews(y: System) {
    forall id :: id in y.views ==>
      GoodView(y.views[id], id, From(y.log, id), MayWatch(y, id), y.command == Watching(id))
  }

  ghost predicate GoodLog(y: System) {
    WellTagged(y.log) && forall k :: 0 <= k < |y.log| ==> y.log[k].from in y.views
  }

  predicate Informed(y: System, id: StreamId) { Own(y.log).synced && Own(y.log).stream == id }

  /** The client has been told of the stream it watches, or is about to be. */
  ghost predicate GoodCommand(y: System) {
    && (y.watched.Some? ==> y.watched.value in y.views)
    && (y.watched.Some? && !(y.command.Watching? && Informed(y, y.command.id)) ==> Informed(y, y.watched.value))
    && (y.command.Watching? ==>
         && y.command.id in y.views
         && (Informed(y, y.command.id) || (Busy(y, y.command.id) && Head(y, y.command.id).payload.StreamInfo?)))
  }

  ghost predicate GoodSession(session: Session, log: seq<Sent>, taken: nat) {
    && SessionSpec.Valid(session) && ComeFrom(session.offered, log)
    && (!session.closed ==> Streamed(session.offered) == taken)
  }

  ghost predicate Invariant(y: System) {
    GoodViews(y) && GoodLog(y) && GoodCommand(y) && GoodSession(y.session, y.log, y.taken)
  }

  lemma {:induction false} FromNobody(log: seq<Sent>, id: StreamId)
    requires forall k :: 0 <= k < |log| ==> log[k].from != id
    ensures From(log, id) == []
  {
    if log != [] { FromNobody(log[..|log| - 1], id); }
  }

  /** One stream's view changes, or none; nothing else of `z` differs from `y` but what its command allows. */
  lemma ViewsStayGood(y: System, z: System, id: StreamId, view: View, sent: seq<Sent>, mayWatch: bool, mayInform: bool)
    requires GoodViews(y) && z.views == y.views[id := view] && z.log == y.log
    requires GoodView(view, id, sent, mayWatch, mayInform)
    requires sent == From(y.log, id) && mayWatch == MayWatch(z, id) && mayInform == (z.command == Watching(id))
    requires forall other :: other in y.views && other != id ==>
      (MayWatch(y, other) ==> MayWatch(z, other)) && (y.command == Watching(other) ==> z.command == Watching(other))
    ensures GoodViews(z)
  {
  }

  lemma NewViewIsGood(id: StreamId, depth: nat, mayWatch: bool, mayInform: bool)
    ensures GoodView(NewView(id, depth), id, [], mayWatch, mayInform)
  {
  }

  lemma OpenKeepsViews(y: System, id: StreamId, z: System, view: View)
    requires GoodViews(y) && GoodLog(y) && id !in y.views && z == With(y, id, view) && view == NewView(id, view.depth)
    ensures GoodViews(z)
  {
    FromNobody(y.log, id);
    var mayWatch, mayInform := MayWatch(y, id), y.command == Watching(id);
    NewViewIsGood(id, view.depth, mayWatch, mayInform);
    ViewsStayGood(y, z, id, view, [], mayWatch, mayInform);
  }

  /** A free stream's view changes, and nothing that was posted. */
  lemma RestStaysGood(y: System, id: StreamId, view: View)
    requires GoodLog(y) && GoodCommand(y) && (id in y.views ==> !Busy(y, id))
    ensures GoodLog(With(y, id, view)) && GoodCommand(With(y, id, view))
  {
  }

  lemma OpenKeepsInvariant(y: System, id: StreamId, depth: nat, view: View)
    requires Invariant(y) && id !in y.views && view == NewView(id, depth)
    ensures Invariant(With(y, id, view))
  {
    OpenKeepsViews(y, id, With(y, id, view), view);
    RestStaysGood(y, id, view);
  }

  lemma FedIsGood(v: View, op: StreamSpec.Op, id: StreamId, sent: seq<Sent>, mayWatch: bool, mayInform: bool)
    requires GoodView(v, id, sent, mayWatch, mayInform) && |sent| == |v.sent|
    requires (op.FeedMessage? || op.FeedGap?) && GateAllows(v, op)
    ensures GoodView(StreamSpec.Apply1(v, op), id, sent, mayWatch, mayInform)
  {
    OpSends(v, op);
    OpIsSourced(v, op);
    StreamSpec.OpKeepsValid(v, op);
  }

  /** A stream free of its lock has posted all it sent. */
  lemma FreeHasPosted(y: System, id: StreamId)
    requires GoodViews(y) && id in y.views && !Busy(y, id)
    ensures From(y.log, id) == y.views[id].sent
    ensures GoodView(y.views[id], id, From(y.log, id), MayWatch(y, id), y.command == Watching(id))
  {
  }

  lemma FeedKeepsViews(y: System, id: StreamId, op: StreamSpec.Op, view: View)
    requires GoodViews(y) && CanStep(y, Feed(id, op)) && view == StreamSpec.Apply1(y.views[id], op)
    ensures GoodViews(With(y, id, view))
  {
    var sent, mayWatch, mayInform := From(y.log, id), MayWatch(y, id), y.command == Watching(id);
    FreeHasPosted(y, id);
    FedIsGood(y.views[id], op, id, sent, mayWatch, mayInform);
    ViewsStayGood(y, With(y, id, view), id, view, sent, mayWatch, mayInform);
  }

  lemma FeedKeepsInvariant(y: System, id: StreamId, op: StreamSpec.Op, view: View)
    requires Invariant(y) && CanStep(y, Feed(id, op)) && view == StreamSpec.Apply1(y.views[id], op)
    ensures Invariant(With(y, id, view))
  {
    FeedKeepsViews(y, id, op, view);
    RestStaysGood(y, id, view);
  }

  lemma PostedIsGood(v: View, id: StreamId, sent: seq<Sent>, mayWatch: bool, mayInform: bool)
    requires GoodView(v, id, sent, mayWatch, mayInform) && |sent| < |v.sent|
    ensures var head := v.sent[|sent|];
      && GoodView(v, id, sent + [head], mayWatch, mayInform)
      && head.from == id && FromStream(head.payload) && Tagged(id, head.payload)
      && (head.payload.StreamInfo? ==> mayInform)
  {
  }

  lemma PostKeepsViews(y: System, id: StreamId)
    requires GoodViews(y) && GoodLog(y) && CanStep(y, Post(id))
    ensures GoodViews(Next(y, Post(id))) && GoodLog(Next(y, Post(id)))
    ensures Head(y, id).from == id && Tagged(id, Head(y, id).payload)
    ensures Head(y, id).payload.StreamInfo? ==> y.command == Watching(id)
  {
    var head := Head(y, id);
    PostedIsGood(y.views[id], id, From(y.log, id), MayWatch(y, id), y.command == Watching(id));
    forall other | other in y.views
      ensures GoodView(y.views[other], other, From(y.log + [head], other), MayWatch(y, other), y.command == Watching(other))
    {
      FromGrows(y.log, head, other);
      if other != id { assert From(y.log + [head], other) == From(y.log, other); }
    }
  }

  lemma PostKeepsCommand(y: System, id: StreamId, head: Sent)
    requires GoodCommand(y) && CanStep(y, Post(id)) && head == Head(y, id)
    requires head.from == id && Tagged(id, head.payload) && (head.payload.StreamInfo? ==> y.command == Watching(id))
    ensures GoodCommand(Next(y, Post(id)))
  {
    OwnGrows(y.log, head);
    if y.command.Watching? { FromGrows(y.log, head, y.command.id); }
  }

  lemma PostKeepsInvariant(y: System, id: StreamId)
    requires Invariant(y) && CanStep(y, Post(id))
    ensures Invariant(Next(y, Post(id)))
  {
    PostKeepsViews(y, id);
    PostKeepsCommand(y, id, Head(y, id));
    StillComesFrom(y.session.offered, y.log, y.log + [Head(y, id)]);
  }

  lemma WatchedIsGood(v: View, id: StreamId, sent: seq<Sent>, mayWatch: bool, mayInform: bool)
    requires GoodView(v, id, sent, mayWatch, mayInform) && |sent| == |v.sent|
    ensures GoodView(Watch(v), id, sent, true, true)
    ensures |sent| < |Watch(v).sent| && Watch(v).sent[|sent|].payload.StreamInfo?
  {
    OpSends(v, StartWatching);
    OpIsSourced(v, StartWatching);
    StreamSpec.OpKeepsValid(v, StartWatching);
  }

  lemma BeginKeepsViews(y: System, id: StreamId)
    requires GoodViews(y) && CanStep(y, BeginWatch(id))
    ensures GoodViews(Next(y, BeginWatch(id)))
    ensures Busy(Next(y, BeginWatch(id)), id) && Head(Next(y, BeginWatch(id)), id).payload.StreamInfo?
  {
    FreeHasPosted(y, id);
    WatchedIsGood(y.views[id], id, From(y.log, id), MayWatch(y, id), y.command == Watching(id));
    ViewsStayGood(y, Next(y, BeginWatch(id)), id, Watch(y.views[id]), From(y.log, id), true, true);
  }

  lemma BeginKeepsInvariant(y: System, id: StreamId)
    requires Invariant(y) && CanStep(y, BeginWatch(id))
    ensures Invariant(Next(y, BeginWatch(id)))
  {
    BeginKeepsViews(y, id);
    var z := Next(y, BeginWatch(id));
    assert GoodLog(z) && GoodCommand(z);
  }

  lemma UnwatchedIsGood(v: View, id: StreamId, sent: seq<Sent>, mayWatch: bool, mayInform: bool)
    requires GoodView(v, id, sent, mayWatch, mayInform) && |sent| == |v.sent|
    ensures GoodView(Unwatch(v), id, sent, false, false)
  {
    StreamSpec.OpKeepsValid(v, StopWatching);
  }

  /** The old stream is left, and nobody else may be sending. */
  lemma LeftViewsAreGood(y: System, z: System, id: StreamId)
    requires GoodViews(y) && id in y.views && !Busy(y, id) && z.log == y.log
    requires z.views == y.views[id := Unwatch(y.views[id])]
    requires forall other :: other in y.views && other != id ==>
      && (MayWatch(y, other) ==> MayWatch(z, other))
      && (y.command == Watching(other) ==> !Busy(y, other))
    ensures GoodViews(z)
  {
    FreeHasPosted(y, id);
    UnwatchedIsGood(y.views[id], id, From(y.log, id), MayWatch(y, id), y.command == Watching(id));
    forall other | other in z.views
      ensures GoodView(z.views[other], other, From(y.log, other), MayWatch(z, other), z.command == Watching(other))
    {
      if other != id { assert GoodView(y.views[other], other, From(y.log, other), MayWatch(y, other), y.command == Watching(other)); }
    }
  }

  /** A watch of the stream watched already, or of the first one: no stream is left. */
  lemma SettledViewsAreGood(y: System, z: System)
    requires GoodViews(y) && z.log == y.log && z.views == y.views
    requires forall other :: other in y.views ==>
      (MayWatch(y, other) ==> MayWatch(z, other)) && (y.command == Watching(other) ==> !Busy(y, other))
    ensures GoodViews(z)
  {
    forall other | other in z.views
      ensures GoodView(z.views[other], other, From(y.log, other), MayWatch(z, other), z.command == Watching(other))
    {
      assert GoodView(y.views[other], other, From(y.log, other), MayWatch(y, other), y.command == Watching(other));
    }
  }

  lemma EndKeepsInvariant(y: System)
    requires Invariant(y) && CanStep(y, EndWatch)
    ensures Invariant(Next(y, EndWatch))
  {
    var z := Next(y, EndWatch);
    if y.watched.Some? && y.watched.value != y.command.id {
      LeftViewsAreGood(y, z, y.watched.value);
    } else {
      SettledViewsAreGood(y, z);
    }
    assert GoodLog(z) && GoodCommand(z);
  }

  lemma LeaveKeepsInvariant(y: System)
    requires Invariant(y) && CanStep(y, Leave)
    ensures Invariant(Next(y, Leave))
  {
    var z := Next(y, Leave);
    LeftViewsAreGood(y, z, y.watched.value);
    assert GoodLog(z) && GoodCommand(z);
  }

  lemma OfferGrows(s: Session, payload: Payload)
    requires SessionSpec.Valid(s)
    ensures var t := Enqueue(s, payload);
      t.offered == s.offered + [payload] || (t.closed && t.offered == s.offered)
    ensures !Enqueue(s, payload).closed ==> !s.closed && Enqueue(s, payload).offered == s.offered + [payload]
  {
  }

  lemma OfferComesFrom(offered: seq<Payload>, sent: seq<Sent>, payload: Payload)
    requires ComeFrom(offered, sent)
    requires FromStream(payload) ==> Streamed(offered) < |sent| && sent[Streamed(offered)].payload == payload
    ensures ComeFrom(offered + [payload], sent)
    ensures Streamed(offered + [payload]) == Streamed(offered) + if FromStream(payload) then 1 else 0
  {
    assert (offered + [payload])[..|offered|] == offered;
  }

  lemma TakeKeepsSession(s: Session, log: seq<Sent>, taken: nat)
    requires GoodSession(s, log, taken) && taken < |log| && FromStream(log[taken].payload)
    ensures GoodSession(Enqueue(s, log[taken].payload), log, taken + 1)
  {
    EnqueueIsValid(s, log[taken].payload);
    OfferGrows(s, log[taken].payload);
    if !s.closed { OfferComesFrom(s.offered, log, log[taken].payload); }
  }

  lemma ActKeepsSession(s: Session, log: seq<Sent>, taken: nat, act: SessionSpec.Op)
    requires GoodSession(s, log, taken) && Enabled(s, act) && (act.Offer? ==> !FromStream(act.payload))
    ensures GoodSession(SessionSpec.Apply1(s, act), log, taken)
  {
    SessionSpec.OpKeepsValid(s, act);
    if act.Offer? {
      OfferGrows(s, act.payload);
      OfferComesFrom(s.offered, log, act.payload);
    }
  }

  /** The network thread touches no stream. */
  lemma SessionIsApart(y: System, z: System)
    requires GoodViews(y) && GoodLog(y) && GoodCommand(y)
    requires z.views == y.views && z.log == y.log && z.watched == y.watched && z.command == y.command
    ensures GoodViews(z) && GoodLog(z) && GoodCommand(z)
  {
  }

  lemma StepKeepsInvariant(y: System, step: Step)
    requires Invariant(y) && CanStep(y, step)
    ensures Invariant(Next(y, step))
  {
    match step
    case Open(id, depth) => OpenKeepsInvariant(y, id, depth, NewView(id, depth));
    case Feed(id, op) => FeedKeepsInvariant(y, id, op, StreamSpec.Apply1(y.views[id], op));
    case Post(id) => PostKeepsInvariant(y, id);
    case BeginWatch(id) => BeginKeepsInvariant(y, id);
    case EndWatch => EndKeepsInvariant(y);
    case Leave => LeaveKeepsInvariant(y);
    case Take =>
      TakeKeepsSession(y.session, y.log, y.taken);
      SessionIsApart(y, Next(y, step));
    case AtSession(act) =>
      ActKeepsSession(y.session, y.log, y.taken, act);
      SessionIsApart(y, Next(y, step));
  }

  lemma {:induction false} RunsKeepInvariant(states: seq<System>, steps: seq<Step>)
    requires IsRun(states, steps)
    ensures Invariant(states[|steps|])
  {
    if steps == [] {
      assert Accepted(OPENED) == [];
    } else {
      var n := |steps| - 1;
      assert IsRun(states[..n + 1], steps[..n]);
      RunsKeepInvariant(states[..n + 1], steps[..n]);
      StepKeepsInvariant(states[n], steps[n]);
    }
  }

  // ----- The replica agrees ---------------------------------------------------------

  /** How much of the log lies at or before the last of the frames read. */
  function SendsBefore(offered: seq<Payload>, frames: seq<Frame>): nat
    requires frames != [] && frames[|frames| - 1].sequence < |offered|
  {
    Streamed(offered[..frames[|frames| - 1].sequence + 1])
  }

  /**
    The client has the book its stream held at its send `last`, the replay of all it had been told by then.
    The one exception is exact: right after a StreamInfo it has none, whatever the stream's is.
   */
  ghost predicate Agrees(depth: nat, client: Client, last: Sent, fed: seq<Event>) {
    && last.told <= |fed| && last.book == Replay(depth, SinceSnapshot(fed[..last.told]))
    && client.synced && client.depth == depth
    && client.book == (if last.payload.StreamInfo? then EMPTY else last.book)
    && (client.book == last.book <==> (last.payload.StreamInfo? ==> last.book == EMPTY))
  }

  /** A client that heeds its own stream alone agrees with it as of its last send in `log`. */
  ghost predicate OwnAgrees(views: map<StreamId, View>, log: seq<Sent>) {
    var own := Own(log);
    && own.synced && own.stream in views
    && 0 < |From(log, own.stream)| <= |views[own.stream].sent|
    && Agrees(views[own.stream].depth, own, views[own.stream].sent[|From(log, own.stream)| - 1], views[own.stream].fed)
  }

  /**
    A client that has read any part of the wire, missing no number since its last StreamInfo, however late it began
    to watch and whatever it watched before, agrees with its stream as of the last frame it read,
    unless another stream's gap status took its book and its own stream has not yet sent a snapshot or a gap.
   */
  lemma ReplicaAgrees(states: seq<System>, steps: seq<Step>, frames: seq<Frame>)
    requires IsRun(states, steps)
    requires frames <= states[|steps|].session.started && ReadAll(frames).synced
    ensures var y := states[|steps|];
      && frames != [] && frames[|frames| - 1].sequence < |y.session.offered|
      && 0 < SendsBefore(y.session.offered, frames) <= |y.log|
      && var read := y.log[..SendsBefore(y.session.offered, frames)];
      && ReadAll(frames).client == SeeAll(read)
      && OwnAgrees(y.views, read)
      && (Clean(read) ==> ReadAll(frames).client == Own(read))
  {
    RunsKeepInvariant(states, steps);
    var y := states[|steps|];
    StartedIsInOrder(y.session);
    PrefixIsNumbered(y.session.started, y.session.offered, frames);
    FramesReadLog(y, frames);
    var read := y.log[..SendsBefore(y.session.offered, frames)];
    SameButBook(read);
    PrefixAgrees(y, |read|);
    if Clean(read) { CleanAgrees(read); }
  }

  lemma PrefixIsNumbered(frames: seq<Frame>, offered: seq<Payload>, prefix: seq<Frame>)
    requires Numbered(frames, offered) && prefix <= frames
    ensures Numbered(prefix, offered)
  {
  }

  lemma FramesReadLog(y: System, frames: seq<Frame>)
    requires Invariant(y) && Numbered(frames, y.session.offered) && ReadAll(frames).synced
    ensures frames != [] && SendsBefore(y.session.offered, frames) <= |y.log|
    ensures SeeAll(y.log[..SendsBefore(y.session.offered, frames)]) == ReadAll(frames).client
    ensures 0 < SendsBefore(y.session.offered, frames) && ReadAll(frames).client.synced
    ensures WellTagged(y.log[..SendsBefore(y.session.offered, frames)])
  {
    ReadsSent(y.session.offered, y.log, frames);
  }

  lemma ReadsSent(offered: seq<Payload>, log: seq<Sent>, frames: seq<Frame>)
    requires ComeFrom(offered, log) && Numbered(frames, offered) && ReadAll(frames).synced
    ensures frames != [] && 0 < SendsBefore(offered, frames) <= |log| && ReadAll(frames).client.synced
    ensures SeeAll(log[..SendsBefore(offered, frames)]) == ReadAll(frames).client
  {
    SyncedIsIdeal(frames, offered);
    var upTo := offered[..frames[|frames| - 1].sequence + 1];
    PrefixComesFrom(offered, log, |upTo|);
    IdealIsSeen(upTo, log);
  }

  lemma {:induction false} FromPrefix(log: seq<Sent>, k: nat, id: StreamId)
    requires k <= |log|
    ensures From(log[..k], id) <= From(log, id)
  {
    if k == |log| {
      assert log[..k] == log;
    } else {
      FromPrefix(log[..|log| - 1], k, id);
      assert log[..|log| - 1][..k] == log[..k];
    }
  }

  lemma {:induction false} OwnIsOfSomeone(log: seq<Sent>)
    requires WellTagged(log) && Own(log).synced
    ensures exists k :: 0 <= k < |log| && log[k].from == Own(log).stream
  {
    var rest, last := log[..|log| - 1], log[|log| - 1];
    if IsOwn(Own(rest), last) {
      assert log[|log| - 1].from == Own(log).stream;
    } else {
      OwnIsOfSomeone(rest);
      var k :| 0 <= k < |rest| && rest[k].from == Own(rest).stream;
      assert log[k].from == Own(log).stream;
    }
  }

  lemma PrefixAgrees(y: System, k: nat)
    requires GoodViews(y) && GoodLog(y) && k <= |y.log| && Own(y.log[..k]).synced
    ensures OwnAgrees(y.views, y.log[..k])
  {
    var read := y.log[..k];
    var id := Own(read).stream;
    OwnIsOfSomeone(read);
    OwnIsView(read);
    FromPrefix(y.log, k, id);
    assert GoodView(y.views[id], id, From(y.log, id), MayWatch(y, id), y.command == Watching(id));
    ViewAgrees(y.views[id], From(read, id));
  }

  lemma ViewAgrees(v: View, read: seq<Sent>)
    requires StreamSpec.Valid(v) && Sourced(v) && read <= v.sent && read != []
    ensures |read| <= |v.sent| && Agrees(v.depth, SeeAll(read), v.sent[|read| - 1], v.fed)
  {
    assert v.sent[..|read|] == read;
    SeenAgrees(v, |read|);
  }

  lemma SeenAgrees(v: View, k: nat)
    requires StreamSpec.Valid(v) && Sourced(v) && 0 < k <= |v.sent|
    ensures Agrees(v.depth, SeeAll(v.sent[..k]), v.sent[k - 1], v.fed)
  {
    var last := v.sent[k - 1];
    assert Matches(SeeAll(v.sent[..k - 1 + 1]), v.id, v.depth, last);
    LogBookIsReplay(v.depth, v.fed[..last.told]);
  }

  /** Having read this much of the log, a client has a book with the nonzero checksum of the last Book of its stream. */
  ghost predicate HasChecksum(check: ChecksumFunction, views: map<StreamId, View>, read: seq<Sent>, client: Client) {
    && client.stream in views && From(read, client.stream) != []
    && var last := From(read, client.stream)[|From(read, client.stream)| - 1].payload;
    Clean(read) && Certified(check, client.depth, views[client.stream].fed)
    && last.BookChange? && last.message.checksum != 0
    ==> check(client.book) == last.message.checksum
  }

  /**
    If the venue's checksums held of all its stream was told, such a client's book has the checksum of the last
    Book it read of its stream, unless something came of the stream since, or that was zero.
   */
  lemma ClientBookIsCertified(check: ChecksumFunction, states: seq<System>, steps: seq<Step>, frames: seq<Frame>)
    requires IsRun(states, steps)
    requires frames <= states[|steps|].session.started && ReadAll(frames).synced
    ensures var y := states[|steps|];
      && frames != [] && frames[|frames| - 1].sequence < |y.session.offered|
      && SendsBefore(y.session.offered, frames) <= |y.log|
      && HasChecksum(check, y.views, y.log[..SendsBefore(y.session.offered, frames)], ReadAll(frames).client)
  {
    ReplicaAgrees(states, steps, frames);
    RunsKeepInvariant(states, steps);
    var y := states[|steps|];
    var k := SendsBefore(y.session.offered, frames);
    SameStream(y.log, k);
    ReadIsCertified(check, y, k, Own(y.log[..k]), ReadAll(frames).client);
  }

  lemma SameStream(log: seq<Sent>, k: nat)
    requires WellTagged(log) && k <= |log|
    ensures SeeAll(log[..k]).stream == Own(log[..k]).stream && SeeAll(log[..k]).depth == Own(log[..k]).depth
  {
    SameButBook(log[..k]);
  }

  lemma ReadIsCertified(check: ChecksumFunction, y: System, k: nat, own: Client, client: Client)
    requires GoodViews(y) && k <= |y.log| && own == Own(y.log[..k]) && OwnAgrees(y.views, y.log[..k])
    requires client.stream == own.stream && client.depth == own.depth && (Clean(y.log[..k]) ==> client == own)
    ensures HasChecksum(check, y.views, y.log[..k], client)
  {
    PrefixIsCertified(check, y, k, client.stream);
  }

  lemma PrefixIsCertified(check: ChecksumFunction, y: System, k: nat, id: StreamId)
    requires GoodViews(y) && k <= |y.log| && id in y.views && From(y.log[..k], id) != []
    ensures var own := From(y.log[..k], id);
      && |own| <= |y.views[id].sent| && own[|own| - 1] == y.views[id].sent[|own| - 1]
      && var last := own[|own| - 1];
      Certified(check, y.views[id].depth, y.views[id].fed) && last.payload.BookChange? && last.payload.message.checksum != 0
      ==> check(last.book) == last.payload.message.checksum
  {
    var own := From(y.log[..k], id);
    FromPrefix(y.log, k, id);
    assert GoodView(y.views[id], id, From(y.log, id), MayWatch(y, id), y.command == Watching(id));
    if Certified(check, y.views[id].depth, y.views[id].fed) { BookIsCertified(check, y.views[id], |own| - 1); }
  }

  /** A stream sends its book with the checksum it has, if its messages' checksums held. */
  lemma BookIsCertified(check: ChecksumFunction, v: View, k: nat)
    requires Sourced(v) && Certified(check, v.depth, v.fed) && k < |v.sent|
    ensures v.sent[k].payload.BookChange? && v.sent[k].payload.message.checksum != 0
      ==> check(v.sent[k].book) == v.sent[k].payload.message.checksum
  {
    var told := v.sent[k].told;
    if v.sent[k].payload.BookChange? {
      assert v.fed[..told][told - 1] == v.fed[told - 1];
      assert v.fed[..told - 1 + 1] == v.fed[..told];
    }
  }

  /** The book can be spoiled only by the stream being left, between the two halves of a Watch of another. */
  lemma OnlySwitchingSpoils(states: seq<System>, steps: seq<Step>, id: StreamId)
    requires IsRun(states, steps) && CanStep(states[|steps|], Post(id))
    requires Spoils(Own(states[|steps|].log), Head(states[|steps|], id))
    ensures var y := states[|steps|];
      y.command.Watching? && y.command.id != id && y.watched == Some(id) && Own(y.log).stream == y.command.id
  {
    RunsKeepInvariant(states, steps);
    var y := states[|steps|];
    assert GoodView(y.views[id], id, From(y.log, id), MayWatch(y, id), y.command == Watching(id));
    BookNeedsStreamInfo(y.log);
  }

  lemma {:induction false} BookNeedsStreamInfo(log: seq<Sent>)
    ensures Own(log).book != EMPTY ==> Own(log).synced
  {
    if log != [] { BookNeedsStreamInfo(log[..|log| - 1]); }
  }

  /** Over any run, and as far as it was posted: the client differs from its own stream somewhere exactly if it was spoiled. */
  lemma RunsDifferExactlyIfSpoiled(states: seq<System>, steps: seq<Step>, k: nat)
    requires IsRun(states, steps) && k <= |states[|steps|].log|
    ensures NeverDiffers(states[|steps|].log[..k]) <==> NeverSpoiled(states[|steps|].log[..k])
  {
    RunsKeepInvariant(states, steps);
    DiffersExactlyIfSpoiled(states[|steps|].log[..k]);
  }

  // ----- Two runs -------------------------------------------------------------------

  lemma Extend(states: seq<System>, steps: seq<Step>, step: Step) returns (longer: seq<System>, more: seq<Step>)
    requires IsRun(states, steps) && CanStep(states[|steps|], step)
    ensures IsRun(longer, more) && longer[|more|] == Next(states[|steps|], step)
  {
    longer, more := states + [Next(states[|steps|], step)], steps + [step];
  }

  /** The network thread and the client have caught up. */
  predicate Quiet(y: System) {
    y.taken == |y.log| && !y.session.closed && !y.session.inFlight && y.session.outgoing == []
  }

  function Seen(y: System): Reader { ReadAll(y.session.started) }

  lemma WritesAtOnce(s: Session, payload: Payload)
    requires !s.closed && !s.inFlight && s.outgoing == []
    ensures var t := Enqueue(s, payload);
      && Enabled(t, Finish(true))
      && Written(t, true) == s.(nextSequence := s.nextSequence + 1, offered := s.offered + [payload],
                                started := s.started + [Frame(s.nextSequence, payload)])
  {
    assert Enqueue(s, payload).outgoing == [Frame(s.nextSequence, payload)];
  }

  /** One payload goes all the way. */
  lemma Deliver(states: seq<System>, steps: seq<Step>, id: StreamId, y: System)
    returns (longer: seq<System>, more: seq<Step>, z: System)
    requires IsRun(states, steps) && y == states[|steps|] && Quiet(y) && CanStep(y, Post(id))
    ensures IsRun(longer, more) && z == longer[|more|] && Quiet(z)
    ensures z.views == y.views && z.watched == y.watched && z.command == y.command && z.log == y.log + [Head(y, id)]
    ensures z.session.nextSequence == y.session.nextSequence + 1
    ensures Seen(z) == ClientSpec.Read(Seen(y), Frame(y.session.nextSequence, Head(y, id).payload))
    ensures forall who :: From(z.log, who) == From(y.log, who) + if Head(y, id).from == who then [Head(y, id)] else []
  {
    var payload := Head(y, id).payload;
    forall who ensures From(y.log + [Head(y, id)], who) == From(y.log, who) + if Head(y, id).from == who then [Head(y, id)] else [] {
      FromGrows(y.log, Head(y, id), who);
    }
    longer, more := Extend(states, steps, Post(id));
    longer, more := Extend(longer, more, Take);
    WritesAtOnce(y.session, payload);
    longer, more := Extend(longer, more, AtSession(Finish(true)));
    z := longer[|more|];
    assert z.session.started[..|y.session.started|] == y.session.started;
  }

  /** A stream with one bid, of quantity 2 at price 1. */
  function Fed(id: StreamId): View {
    StreamSpec.Receive(NewView(id, FULL_DEPTH), Message(Snapshot, 0, 0, 0, "", [Level(1, 2)], []))
  }

  lemma FedHasBook(id: StreamId)
    ensures Fed(id).book.bids == map[1 := 2] && Fed(id).hasSnapshot && !Fed(id).interrupted
    ensures Fed(id).sent == [] && !Fed(id).watching && Fed(id).id == id && Fed(id).depth == FULL_DEPTH
  {
    assert [Level(1, 2)][..0] == [];
    assert SetAll(map[], [Level(1, 2)]) == map[1 := 2];
  }

  lemma WatchSends(v: View)
    requires v.sent == [] && v.hasSnapshot && !v.interrupted
    ensures var w := Watch(v);
      && |w.sent| == 2 && w.book == v.book && !w.interrupted
      && w.sent[0] == Sent(v.id, StreamInfo(v.id, v.depth), v.book, |v.fed|)
      && w.sent[1].from == v.id && w.sent[1].payload.BookChange?
  {
  }

  /** Two streams, of which the second has a book. */
  lemma TwoStreams() returns (states: seq<System>, steps: seq<Step>, y: System)
    ensures IsRun(states, steps) && y == states[|steps|] && Quiet(y) && y.command.Idle? && y.watched.None?
    ensures y.views == map[1 := NewView(1, FULL_DEPTH), 2 := Fed(2)] && y.log == []
    ensures y.session.nextSequence == 0 && Seen(y) == Reader(false, 0, NO_CLIENT)
  {
    FedHasBook(2);
    states, steps := [CONNECTED], [];
    states, steps := Extend(states, steps, Open(1, FULL_DEPTH));
    states, steps := Extend(states, steps, Open(2, FULL_DEPTH));
    states, steps := Extend(states, steps, Feed(2, FeedMessage(Message(Snapshot, 0, 0, 0, "", [Level(1, 2)], []))));
    y := states[|steps|];
  }

  /** Right after a StreamInfo: a client that has read one frame has no book, and the stream it watches has. */
  lemma LagHappens() returns (states: seq<System>, steps: seq<Step>)
    ensures IsRun(states, steps)
    ensures var y := states[|steps|];
      && ReadAll(y.session.started) == Reader(true, 1, Client(true, 2, FULL_DEPTH, EMPTY))
      && 2 in y.views && y.views[2].book.bids == map[1 := 2]
  {
    var y;
    states, steps, y := TwoStreams();
    FedHasBook(2);
    WatchSends(Fed(2));
    assert From(y.log, 2) == [];
    states, steps := Extend(states, steps, BeginWatch(2));
    y := states[|steps|];
    states, steps, y := Deliver(states, steps, 2, y);
  }

  /** The client watches the first stream, which has sent it a StreamInfo only. */
  lemma WatchesFirst() returns (states: seq<System>, steps: seq<Step>, y: System)
    ensures IsRun(states, steps) && y == states[|steps|] && Quiet(y) && y.command.Idle? && y.watched == Some(1)
    ensures y.views == map[1 := Watch(NewView(1, FULL_DEPTH)), 2 := Fed(2)]
    ensures From(y.log, 1) == Watch(NewView(1, FULL_DEPTH)).sent && From(y.log, 2) == []
  {
    states, steps, y := TwoStreams();
    assert From(y.log, 1) == [] && From(y.log, 2) == [];
    states, steps := Extend(states, steps, BeginWatch(1));
    y := states[|steps|];
    states, steps, y := Deliver(states, steps, 1, y);
    states, steps := Extend(states, steps, EndWatch);
    y := states[|steps|];
  }

  /** It has begun to watch the second, and was told so, but has not yet left the first. */
  lemma WatchesBoth() returns (states: seq<System>, steps: seq<Step>, y: System)
    ensures IsRun(states, steps) && y == states[|steps|] && Quiet(y) && y.command == Watching(2)
    ensures y.views == map[1 := Watch(NewView(1, FULL_DEPTH)), 2 := Watch(Fed(2))]
    ensures y.watched == Some(1)
    ensures From(y.log, 1) == Watch(NewView(1, FULL_DEPTH)).sent && From(y.log, 2) == Watch(Fed(2)).sent[..1]
    ensures Seen(y) == Reader(true, y.session.nextSequence, Client(true, 2, FULL_DEPTH, EMPTY))
  {
    states, steps, y := WatchesFirst();
    FedHasBook(2);
    WatchSends(Fed(2));
    states, steps := Extend(states, steps, BeginWatch(2));
    y := states[|steps|];
    states, steps, y := Deliver(states, steps, 2, y);
  }

  /** The second stream has posted its snapshot. */
  lemma CatchesUp() returns (states: seq<System>, steps: seq<Step>, y: System)
    ensures IsRun(states, steps) && y == states[|steps|] && Quiet(y) && y.watched == Some(1) && y.command == Watching(2)
    ensures y.views == map[1 := Watch(NewView(1, FULL_DEPTH)), 2 := Watch(Fed(2))]
    ensures From(y.log, 1) == Watch(NewView(1, FULL_DEPTH)).sent && From(y.log, 2) == Watch(Fed(2)).sent
    ensures Seen(y).synced && Seen(y).client.stream == 2 && Seen(y).next == y.session.nextSequence
  {
    states, steps, y := WatchesBoth();
    FedHasBook(2);
    WatchSends(Fed(2));
    states, steps, y := Deliver(states, steps, 2, y);
    assert From(y.log, 1) == Watch(NewView(1, FULL_DEPTH)).sent + [];
  }

  lemma FirstIsTold()
    ensures var v := Interrupt(Watch(NewView(1, FULL_DEPTH)), Disconnected);
      && v.sent == Watch(NewView(1, FULL_DEPTH)).sent + [Sent(1, FeedStatus(Down), EMPTY, 1)]
      && |v.sent| == 2
  {
  }

  /** The first is disconnected. */
  lemma DisconnectsFirst() returns (states: seq<System>, steps: seq<Step>, y: System)
    ensures IsRun(states, steps) && y == states[|steps|] && Quiet(y) && CanStep(y, Post(1))
    ensures 2 in y.views && y.views[2] == Watch(Fed(2)) && From(y.log, 2) == Watch(Fed(2)).sent
    ensures y.watched == Some(1) && y.command == Watching(2) && y.views[1].sent == From(y.log, 1) + [Head(y, 1)]
    ensures Head(y, 1).payload == FeedStatus(Down) && Head(y, 1).from == 1
    ensures Seen(y).synced && Seen(y).client.stream == 2 && Seen(y).next == y.session.nextSequence
  {
    states, steps, y := CatchesUp();
    FirstIsTold();
    states, steps := Extend(states, steps, Feed(1, FeedGap(Disconnected)));
    y := states[|steps|];
    assert y.views[1] == Interrupt(Watch(NewView(1, FULL_DEPTH)), Disconnected);
  }

  /**
    Watching one stream and then another can leave a client with no book, though it missed no number, nothing is
    under way, and the stream it watches has a book and no gap: the first was disconnected before it was left.
   */
  lemma SwitchingCanClear() returns (states: seq<System>, steps: seq<Step>)
    ensures IsRun(states, steps)
    ensures var y := states[|steps|];
      && ReadAll(y.session.started).synced
      && ReadAll(y.session.started).client.stream == 2 && ReadAll(y.session.started).client.book == EMPTY
      && 2 in y.views && y.views[2].book.bids == map[1 := 2] && !y.views[2].interrupted
      && y.watched == Some(2) && y.command.Idle? && Quiet(y) && From(y.log, 2) == y.views[2].sent
  {
    var y;
    states, steps, y := DisconnectsFirst();
    FedHasBook(2);
    WatchSends(Fed(2));
    states, steps, y := Deliver(states, steps, 1, y);
    assert From(y.log, 2) == Watch(Fed(2)).sent + [];
    states, steps := Extend(states, steps, EndWatch);
  }

  // ----- What feeds the stream ------------------------------------------------------

  /** A receiver's log as its stream is told it: streams know nothing of connections. */
  function Anonymous(events: seq<Event>): (told: seq<Event>)
    ensures |told| == |events|
  {
    if events == [] then []
    else Anonymous(events[..|events| - 1]) + [events[|events| - 1].(connection := 0)]
  }

  function OpOf(event: Event): StreamSpec.Op {
    match event
    case Received(message, _) => FeedMessage(message)
    case Gapped(gap, _) => FeedGap(gap)
  }

  lemma {:induction false} AnonymousBook(depth: nat, events: seq<Event>)
    ensures LogBook(depth, Anonymous(events)) == LogBook(depth, events)
  {
    if events != [] {
      AnonymousBook(depth, events[..|events| - 1]);
      LogBookGrows(depth, Anonymous(events[..|events| - 1]), events[|events| - 1].(connection := 0));
    }
  }

  lemma {:induction false} AnonymousIsCertified(check: ChecksumFunction, depth: nat, events: seq<Event>)
    requires Certified(check, depth, events)
    ensures Certified(check, depth, Anonymous(events))
  {
    if events != [] {
      var rest, last := events[..|events| - 1], events[|events| - 1];
      forall i | 0 <= i < |rest| && rest[i].Received? && rest[i].message.checksum != 0
        ensures check(LogBook(depth, rest[..i + 1])) == rest[i].message.checksum
      {
        assert rest[..i + 1] == events[..i + 1] && events[i] == rest[i];
      }
      AnonymousIsCertified(check, depth, rest);
      AnonymousBook(depth, events);
      assert events[..|events| - 1 + 1] == events;
      CertifiedGrows(check, depth, Anonymous(rest), last.(connection := 0));
    }
  }

  /**
    Every run of the manager feeds every stream as assumed here: told the first `i` events of its receiver's
    log, a stream may be told the next, and its book and the checksums it passes on agree.
   */
  lemma ManagerFeedsStreams(check: Option<ChecksumFunction>, states: seq<L2Manager.Manager>, steps: seq<L2Manager.Step>,
                            receiver: ReceiverId, i: nat, v: View)
    requires L2Manager.IsRun(check, states, steps) && receiver in states[|steps|].parser.logs
    requires var log := states[|steps|].parser.logs[receiver]; i <= |log.events| && v.fed == Anonymous(log.events[..i])
    ensures var log := states[|steps|].parser.logs[receiver]; i < |log.events| ==> GateAllows(v, OpOf(log.events[i]))
    ensures check.Some? ==> Certified(check.value, states[|steps|].parser.logs[receiver].depth, v.fed)
  {
    L2Manager.ReceiverLogsAreWellFormed(check, states, steps, receiver);
    var log := states[|steps|].parser.logs[receiver];
    if i < |log.events| { GatedIsAllowed(log.events, i, v); }
    if check.Some? { CertifiedPrefix(check.value, log.depth, log.events, i); }
  }

  lemma GatedIsAllowed(events: seq<Event>, i: nat, v: View)
    requires Gated(events) && i < |events| && v.fed == Anonymous(events[..i])
    ensures GateAllows(v, OpOf(events[i]))
  {
    assert events[i].Received? && StartsOver(events, i) ==> events[i].message.kind.Snapshot?;
    if i > 0 { assert events[..i][..i - 1] == events[..i - 1] && events[..i][i - 1] == events[i - 1]; }
  }

  lemma CertifiedPrefix(check: ChecksumFunction, depth: nat, events: seq<Event>, i: nat)
    requires Certified(check, depth, events) && i <= |events|
    ensures Certified(check, depth, Anonymous(events[..i]))
  {
    var prefix := events[..i];
    forall k | 0 <= k < i && prefix[k].Received? && prefix[k].message.checksum != 0
      ensures check(LogBook(depth, prefix[..k + 1])) == prefix[k].message.checksum
    {
      assert prefix[..k + 1] == events[..k + 1] && events[k] == prefix[k];
    }
    AnonymousIsCertified(check, depth, prefix);
  }
}
