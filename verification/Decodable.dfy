/** Which frames of Coinbase's decode, judged by their own texts and numbers, and which end the connection. */
module Decodable {
  import opened Messages
  import opened ParserSpec
  import opened CoinbaseSpec
  import Decimals

  // ----- Texts and levels -----------------------------------------------------------

  /** Negative, or finer than the product's decimals. */
  predicate Unfit(text: string, decimals: nat) {
    (text != "" && text[0] == '-') || Decimals.FractionDigits(text) > decimals
  }

  /** Scaling it leaves i64, which is undefined. */
  predicate Overflows(text: string, decimals: nat) { !Unfit(text, decimals) && Decimals.Scaled(text, decimals).None? }

  predicate Readable(text: string, decimals: nat) { !Unfit(text, decimals) && !Overflows(text, decimals) }

  predicate GoodLevel(change: Change, precision: Precision) {
    && (change.side == "bid" || change.side == "offer")
    && Readable(change.price, precision.price) && Readable(change.quantity, precision.quantity)
  }

  predicate LevelOverflows(change: Change, precision: Precision) {
    Overflows(change.price, precision.price) || Overflows(change.quantity, precision.quantity)
  }

  predicate GoodLevels(updates: seq<Change>, precision: Precision) {
    forall i :: 0 <= i < |updates| ==> GoodLevel(updates[i], precision)
  }

  predicate SomeOverflow(updates: seq<Change>, precision: Precision) {
    exists i :: 0 <= i < |updates| && LevelOverflows(updates[i], precision)
  }

  lemma LevelIsFine(sides: Sides, change: Change, precision: Precision)
    requires sides.status == Fine
    ensures AddLevel(sides, change, precision).status == Fine <==> GoodLevel(change, precision)
    ensures AddLevel(sides, change, precision).status == Undefined ==> LevelOverflows(change, precision)
  {
  }

  lemma LevelsGrow(rest: seq<Change>, last: Change, longer: seq<Change>, precision: Precision)
    requires longer == rest + [last]
    ensures GoodLevels(longer, precision) <==> GoodLevels(rest, precision) && GoodLevel(last, precision)
    ensures SomeOverflow(rest, precision) || LevelOverflows(last, precision) ==> SomeOverflow(longer, precision)
  {
    assert longer[|rest|] == last;
    if GoodLevels(longer, precision) {
      forall i | 0 <= i < |rest| ensures GoodLevel(rest[i], precision) { assert longer[i] == rest[i]; }
    }
    if SomeOverflow(rest, precision) {
      var i :| 0 <= i < |rest| && LevelOverflows(rest[i], precision);
      assert longer[i] == rest[i];
    }
  }

  lemma LastLevelDecides(updates: seq<Change>, precision: Precision)
    requires updates != []
    ensures var before, now := ReadLevels(updates[..|updates| - 1], precision).status, ReadLevels(updates, precision).status;
      && (now == Fine <==> before == Fine && GoodLevel(updates[|updates| - 1], precision))
      && (now == Undefined ==> before == Undefined || LevelOverflows(updates[|updates| - 1], precision))
  {
    var before := ReadLevels(updates[..|updates| - 1], precision);
    if before.status == Fine { LevelIsFine(before, updates[|updates| - 1], precision); }
  }

  lemma {:induction false} LevelsAreFine(updates: seq<Change>, precision: Precision)
    ensures ReadLevels(updates, precision).status == Fine <==> GoodLevels(updates, precision)
    ensures ReadLevels(updates, precision).status == Undefined ==> SomeOverflow(updates, precision)
  {
    if updates != [] {
      var rest, last := updates[..|updates| - 1], updates[|updates| - 1];
      LevelsAreFine(rest, precision);
      LastLevelDecides(updates, precision);
      LevelsGrow(rest, last, updates, precision);
    } else {
      NoLevelsAreFine(updates, precision);
    }
  }

  lemma NoLevelsAreFine(updates: seq<Change>, precision: Precision)
    requires updates == []
    ensures ReadLevels(updates, precision).status == Fine && GoodLevels(updates, precision)
  {
  }

  // ----- Events ---------------------------------------------------------------------

  predicate Known(kind: string) { kind == "snapshot" || kind == "update" }

  predicate HasSnapshot(events: seq<BookEvent>, product: string) {
    exists i :: 0 <= i < |events| && events[i].product == product && events[i].kind == "snapshot"
  }

  /** The event's levels are read: its product has a route, and is past its snapshot or gets it now. */
  predicate Wanted(p: Parser, before: seq<BookEvent>, event: BookEvent) {
    && event.product in p.routes
    && (event.kind == "snapshot" || !p.routes[event.product].awaiting || HasSnapshot(before, event.product))
  }

  predicate GoodEvent(p: Parser, before: seq<BookEvent>, event: BookEvent) {
    Known(event.kind) && (Wanted(p, before, event) ==> GoodLevels(event.updates, p.routes[event.product].precision))
  }

  predicate GoodEvents(p: Parser, events: seq<BookEvent>) {
    forall i :: 0 <= i < |events| ==> GoodEvent(p, events[..i], events[i])
  }

  predicate EventOverflows(p: Parser, event: BookEvent) {
    event.product in p.routes && SomeOverflow(event.updates, p.routes[event.product].precision)
  }

  /** The routes `p` has, some of them past their snapshot since. */
  predicate Advances(p: Parser, q: Parser, events: seq<BookEvent>) {
    && q.routes.Keys == p.routes.Keys
    && forall s :: s in p.routes ==>
         && q.routes[s].precision == p.routes[s].precision && q.routes[s].depth == p.routes[s].depth
         && q.routes[s].receiver == p.routes[s].receiver
         && (q.routes[s].awaiting <==> p.routes[s].awaiting && !HasSnapshot(events, s))
  }

  lemma SnapshotsGrow(events: seq<BookEvent>, event: BookEvent, product: string)
    ensures HasSnapshot(events + [event], product)
       <==> HasSnapshot(events, product) || (event.product == product && event.kind == "snapshot")
  {
    var longer := events + [event];
    if HasSnapshot(events, product) {
      var i :| 0 <= i < |events| && events[i].product == product && events[i].kind == "snapshot";
      assert longer[i] == events[i];
    }
    assert longer[|events|] == event;
  }

  lemma EventIsFine(p: Parser, q: Parser, before: seq<BookEvent>, event: BookEvent, venueTime: i64, captureTime: i64)
    requires Advances(p, q, before)
    ensures DecodeEvent(q, event, venueTime, captureTime).status == Fine <==> GoodEvent(p, before, event)
    ensures DecodeEvent(q, event, venueTime, captureTime).status == Undefined ==> EventOverflows(p, event)
  {
    if event.product in p.routes { LevelsAreFine(event.updates, p.routes[event.product].precision); }
  }

  /** An event decoded ends its pair's wait, if it is a snapshot, and leaves every route as it is otherwise. */
  lemma EventRoutes(q: Parser, event: BookEvent, venueTime: i64, captureTime: i64)
    requires DecodeEvent(q, event, venueTime, captureTime).status == Fine
    ensures var r := DecodeEvent(q, event, venueTime, captureTime).parser;
      && r.routes.Keys == q.routes.Keys
      && forall s :: s in q.routes ==>
           && r.routes[s].precision == q.routes[s].precision && r.routes[s].depth == q.routes[s].depth
           && r.routes[s].receiver == q.routes[s].receiver
           && (r.routes[s].awaiting <==> q.routes[s].awaiting && !(event.product == s && event.kind == "snapshot"))
  {
  }

  lemma EventAdvances(p: Parser, q: Parser, before: seq<BookEvent>, event: BookEvent, venueTime: i64, captureTime: i64)
    requires Advances(p, q, before) && DecodeEvent(q, event, venueTime, captureTime).status == Fine
    ensures Advances(p, DecodeEvent(q, event, venueTime, captureTime).parser, before + [event])
  {
    EventRoutes(q, event, venueTime, captureTime);
    forall s | s in p.routes
      ensures HasSnapshot(before + [event], s) <==> HasSnapshot(before, s) || (event.product == s && event.kind == "snapshot")
    {
      SnapshotsGrow(before, event, s);
    }
  }

  lemma StaysItself(p: Parser)
    ensures Advances(p, p, [])
  {
  }

  predicate SomeEventOverflows(p: Parser, events: seq<BookEvent>) {
    exists i :: 0 <= i < |events| && EventOverflows(p, events[i])
  }

  lemma EventsGrow(p: Parser, rest: seq<BookEvent>, last: BookEvent, longer: seq<BookEvent>)
    requires longer == rest + [last]
    ensures GoodEvents(p, longer) <==> GoodEvents(p, rest) && GoodEvent(p, rest, last)
    ensures SomeEventOverflows(p, rest) || EventOverflows(p, last) ==> SomeEventOverflows(p, longer)
  {
    assert longer[..|rest|] == rest && longer[|rest|] == last;
    assert forall i :: 0 <= i < |rest| ==> rest[..i] == longer[..i] && rest[i] == longer[i];
    if SomeEventOverflows(p, rest) {
      var i :| 0 <= i < |rest| && EventOverflows(p, rest[i]);
      assert EventOverflows(p, longer[i]);
    }
  }

  lemma {:induction false} EventsAreFine(p: Parser, events: seq<BookEvent>, venueTime: i64, captureTime: i64)
    ensures var output := DecodeEvents(p, events, venueTime, captureTime);
      && (output.status == Fine <==> GoodEvents(p, events))
      && (output.status == Fine ==> Advances(p, output.parser, events))
      && (output.status == Undefined ==> SomeEventOverflows(p, events))
  {
    if events == [] {
      StaysItself(p);
    } else {
      var rest, last := events[..|events| - 1], events[|events| - 1];
      var before := DecodeEvents(p, rest, venueTime, captureTime);
      EventsAreFine(p, rest, venueTime, captureTime);
      EventsGrow(p, rest, last, events);
      if before.status == Fine {
        EventIsFine(p, before.parser, rest, last, venueTime, captureTime);
        if GoodEvent(p, rest, last) { EventAdvances(p, before.parser, rest, last, venueTime, captureTime); }
        assert rest + [last] == events;
      }
    }
  }

  // ----- What is delivered ----------------------------------------------------------

  /** The levels on one side, in order, each text as the code scales it. */
  function LevelsOn(updates: seq<Change>, side: string, precision: Precision): seq<Level>
    requires GoodLevels(updates, precision)
  {
    if updates == [] then []
    else
      var last := updates[|updates| - 1];
      LevelsOn(updates[..|updates| - 1], side, precision)
      + if last.side != side then []
        else
          assert GoodLevel(last, precision);
          [Level(Decimals.Scaled(last.price, precision.price).value, Decimals.Scaled(last.quantity, precision.quantity).value)]
  }

  lemma {:induction false} GoodLevelsAreRead(updates: seq<Change>, precision: Precision)
    requires GoodLevels(updates, precision)
    ensures ReadLevels(updates, precision)
         == Sides(LevelsOn(updates, "bid", precision), LevelsOn(updates, "offer", precision), Fine)
  {
    if updates != [] {
      var rest, last := updates[..|updates| - 1], updates[|updates| - 1];
      GoodLevelsAreRead(rest, precision);
      assert GoodLevel(last, precision);
      LevelIsAdded(ReadLevels(rest, precision), last, precision);
    }
  }

  lemma LevelIsAdded(sides: Sides, change: Change, precision: Precision)
    requires sides.status == Fine && GoodLevel(change, precision)
    ensures var level := Level(Decimals.Scaled(change.price, precision.price).value,
                               Decimals.Scaled(change.quantity, precision.quantity).value);
      AddLevel(sides, change, precision)
      == sides.(buys := sides.buys + (if change.side == "bid" then [level] else []),
                sells := sides.sells + (if change.side == "offer" then [level] else []))
  {
    assert sides.buys + [] == sides.buys && sides.sells + [] == sides.sells;
  }

  /** The message an event stands for: no checksum, both times, the product and its levels. */
  function MessageOf(event: BookEvent, precision: Precision, venueTime: i64, captureTime: i64): Message
    requires GoodLevels(event.updates, precision)
  {
    Message(if event.kind == "snapshot" then Snapshot else Update, 0, venueTime, captureTime, event.product,
            LevelsOn(event.updates, "bid", precision), LevelsOn(event.updates, "offer", precision))
  }

  /** A good event is delivered to its product's receiver, as that message; one not wanted tells no one anything. */
  lemma EventIsDelivered(p: Parser, event: BookEvent, venueTime: i64, captureTime: i64)
    requires ParserSpec.Valid(None, p) && p.running && GoodEvent(p, [], event)
    ensures var q := DecodeEvent(p, event, venueTime, captureTime).parser;
      if Wanted(p, [], event) then
        var receiver := p.routes[event.product].receiver;
        receiver in p.logs
        && var log := p.logs[receiver];
        var message := MessageOf(event, p.routes[event.product].precision, venueTime, captureTime);
        q.logs == p.logs[receiver := log.(events := log.events + [Received(message, p.connection)])]
      else q == p
  {
    if Wanted(p, [], event) {
      var precision := p.routes[event.product].precision;
      GoodLevelsAreRead(event.updates, precision);
      EmitDelivers(None, p, MessageOf(event, precision, venueTime, captureTime));
      FindIsGated(None, p, event.product, KindOf(event.kind));
    }
  }

  // ----- Heartbeats -----------------------------------------------------------------

  /** The highest number so far, if any. */
  function Highest(last: Option<u64>, counters: seq<u64>): Option<u64> {
    if counters == [] then last
    else
      var before, counter := Highest(last, counters[..|counters| - 1]), counters[|counters| - 1];
      if before.Some? && counter <= before.value then before else Some(counter)
  }

  /** No counter is more than one past all before it. */
  predicate NoSkip(last: Option<u64>, counters: seq<u64>) {
    forall i :: 0 <= i < |counters| ==>
      Highest(last, counters[..i]).Some? ==> counters[i] <= Highest(last, counters[..i]).value + 1
  }

  lemma {:induction false} HeartbeatsAreFine(last: Option<u64>, counters: seq<u64>)
    ensures Hear(last, counters).ok <==> NoSkip(last, counters)
    ensures NoSkip(last, counters) ==> Hear(last, counters).last == Highest(last, counters)
  {
    if counters != [] {
      var rest := counters[..|counters| - 1];
      HeartbeatsAreFine(last, rest);
      assert forall i :: 0 <= i < |rest| ==> rest[..i] == counters[..i] && rest[i] == counters[i];
    }
  }

  // ----- Frames ---------------------------------------------------------------------

  /** At or below the last number acted on. */
  predicate IsLate(d: Decoder, frame: Frame) { frame.Frame? && d.lastSequence.Some? && frame.sequence <= d.lastSequence.value }

  /** More than one past it. */
  predicate IsSkip(d: Decoder, frame: Frame) { frame.Frame? && d.lastSequence.Some? && frame.sequence > d.lastSequence.value + 1 }

  predicate GoodBody(d: Decoder, p: Parser, body: Body) {
    match body
    case Heartbeats(counters) => NoSkip(d.lastHeartbeat, counters)
    case L2Data(_, events) => GoodEvents(p, events)
    case OtherChannel => true
  }

  /** No text read of a routed product overflows. */
  predicate NoOverflow(p: Parser, body: Body) {
    body.L2Data? ==> !SomeEventOverflows(p, body.events)
  }

  /** A frame without a number, or a late one, changes nothing. */
  lemma LateFramesAreIgnored(d: Decoder, p: Parser, frame: Frame, captureTime: i64)
    requires frame.Unnumbered? || IsLate(d, frame)
    ensures Decode(d, p, frame, captureTime) == Decoding(d, p, Fine)
  {
  }

  /** One that skips a number ends the connection, and changes nothing else. */
  lemma SkipsThrow(d: Decoder, p: Parser, frame: Frame, captureTime: i64)
    requires IsSkip(d, frame)
    ensures Decode(d, p, frame, captureTime) == Decoding(d, p, Threw)
  {
  }

  /**
    Any other frame is acted on, and decodes if and only if every event's kind is known, every level read is on a
    side with readable texts, and no heartbeat skips. If it does not it throws, unless a text overflows.
   */
  lemma FramesThrowExactlyIfBad(d: Decoder, p: Parser, frame: Frame, captureTime: i64)
    requires frame.Frame? && !IsLate(d, frame) && !IsSkip(d, frame)
    ensures var now := Decode(d, p, frame, captureTime);
      && (now.status == Fine <==> GoodBody(d, p, frame.body))
      && (NoOverflow(p, frame.body) ==> (now.status == Threw <==> !GoodBody(d, p, frame.body)))
      && now.decoder.lastSequence == Some(frame.sequence)
      && (now.status == Fine ==>
           now.decoder.lastHeartbeat == if frame.body.Heartbeats? then Highest(d.lastHeartbeat, frame.body.counters)
                                        else d.lastHeartbeat)
      && (now.status == Fine ==> if frame.body.L2Data? then Advances(p, now.parser, frame.body.events) else now.parser == p)
  {
    match frame.body
    case Heartbeats(counters) => HeartbeatsAreFine(d.lastHeartbeat, counters);
    case L2Data(venueTime, events) => EventsAreFine(p, events, venueTime, captureTime);
    case OtherChannel =>
  }
}

/** A network that drops nothing once the first frame is in, and a venue that keeps to its own rules. */
module Lossless {
  import opened Messages
  import opened BookSpec
  import opened ParserSpec
  import opened CoinbaseSpec
  import opened Lossy
  import opened Quoted
  import opened Decodable
  import Decimals

  // ----- What a frame delivers ------------------------------------------------------

  lemma GoodBefore(p: Parser, events: seq<BookEvent>)
    requires GoodEvents(p, events) && events != []
    ensures GoodEvents(p, events[..|events| - 1]) && GoodEvent(p, events[..|events| - 1], events[|events| - 1])
  {
    EventsGrow(p, events[..|events| - 1], events[|events| - 1], events);
  }

  /** The receiver was told this much more. */
  predicate GrewBy(before: map<ReceiverId, Log>, after: map<ReceiverId, Log>, receiver: ReceiverId, more: seq<Event>) {
    receiver in before && receiver in after && after[receiver].events == before[receiver].events + more
  }

  lemma NothingMoreIsTold(p: Parser, product: string)
    requires ParserSpec.Valid(None, p) && product in p.routes
    ensures GrewBy(p.logs, p.logs, p.routes[product].receiver, [])
  {
    var receiver := p.routes[product].receiver;
    assert receiver in p.logs && p.logs[receiver].events + [] == p.logs[receiver].events;
  }

  lemma GrewTwice(a: map<ReceiverId, Log>, b: map<ReceiverId, Log>, c: map<ReceiverId, Log>, receiver: ReceiverId,
                  first: seq<Event>, second: seq<Event>)
    requires GrewBy(a, b, receiver, first) && GrewBy(b, c, receiver, second)
    ensures GrewBy(a, c, receiver, first + second)
  {
  }

  /** What an event tells a product's receiver, at the state those before it left. */
  function DeliveredOf(p: Parser, before: seq<BookEvent>, event: BookEvent, product: string, venueTime: i64, captureTime: i64)
    : seq<Event>
    requires GoodEvent(p, before, event) && product in p.routes
  {
    if event.product == product && Wanted(p, before, event)
    then [Received(MessageOf(event, p.routes[product].precision, venueTime, captureTime), p.connection)] else []
  }

  /** The same, judged by that state itself. */
  lemma DeliveredNow(p: Parser, q: Parser, before: seq<BookEvent>, event: BookEvent, product: string,
                     venueTime: i64, captureTime: i64)
    requires Advances(p, q, before) && q.connection == p.connection && GoodEvent(p, before, event) && product in p.routes
    ensures GoodEvent(q, [], event)
    ensures DeliveredOf(q, [], event, product, venueTime, captureTime) == DeliveredOf(p, before, event, product, venueTime, captureTime)
  {
  }

  lemma NextIsDelivered(q: Parser, event: BookEvent, product: string, venueTime: i64, captureTime: i64)
    requires ParserSpec.Valid(None, q) && q.running && GoodEvent(q, [], event) && product in q.routes
    ensures var r := DecodeEvent(q, event, venueTime, captureTime).parser;
      && r.connection == q.connection
      && GrewBy(q.logs, r.logs, q.routes[product].receiver, DeliveredOf(q, [], event, product, venueTime, captureTime))
  {
    EventIsDelivered(q, event, venueTime, captureTime);
    NothingMoreIsTold(q, product);
  }

  /** What a product's receiver is to be told of a frame: the message of each of its events wanted, in order. */
  function Delivered(p: Parser, events: seq<BookEvent>, product: string, venueTime: i64, captureTime: i64): seq<Event>
    requires GoodEvents(p, events) && product in p.routes
  {
    if events == [] then []
    else
      var rest, last := events[..|events| - 1], events[|events| - 1];
      GoodBefore(p, events);
      Delivered(p, rest, product, venueTime, captureTime) + DeliveredOf(p, rest, last, product, venueTime, captureTime)
  }

  lemma LastIsDecoded(p: Parser, events: seq<BookEvent>, venueTime: i64, captureTime: i64) returns (q: Parser)
    requires ParserSpec.Valid(None, p) && p.running && GoodEvents(p, events) && events != []
    ensures q == DecodeEvents(p, events[..|events| - 1], venueTime, captureTime).parser
    ensures DecodeEvents(p, events, venueTime, captureTime).parser == DecodeEvent(q, events[|events| - 1], venueTime, captureTime).parser
    ensures Advances(p, q, events[..|events| - 1]) && ParserSpec.Valid(None, q) && q.running
  {
    var rest := events[..|events| - 1];
    GoodBefore(p, events);
    EventsAreFine(p, rest, venueTime, captureTime);
    EventsKeepRoutes(p, rest, venueTime, captureTime);
    q := DecodeEvents(p, rest, venueTime, captureTime).parser;
  }

  lemma {:induction false} EventsAreDelivered(p: Parser, events: seq<BookEvent>, product: string, venueTime: i64, captureTime: i64)
    requires ParserSpec.Valid(None, p) && p.running && GoodEvents(p, events) && product in p.routes
    ensures var q := DecodeEvents(p, events, venueTime, captureTime).parser;
      && q.connection == p.connection
      && GrewBy(p.logs, q.logs, p.routes[product].receiver, Delivered(p, events, product, venueTime, captureTime))
  {
    if events == [] {
      NothingMoreIsTold(p, product);
    } else {
      var rest, last := events[..|events| - 1], events[|events| - 1];
      GoodBefore(p, events);
      EventsAreDelivered(p, rest, product, venueTime, captureTime);
      var q := LastIsDecoded(p, events, venueTime, captureTime);
      DeliveredNow(p, q, rest, last, product, venueTime, captureTime);
      NextIsDelivered(q, last, product, venueTime, captureTime);
      GrewTwice(p.logs, q.logs, DecodeEvents(p, events, venueTime, captureTime).parser.logs, p.routes[product].receiver,
                Delivered(p, rest, product, venueTime, captureTime),
                DeliveredOf(p, rest, last, product, venueTime, captureTime));
    }
  }

  /** A frame that decodes tells every attached product's receiver just that, with the frame's own times. */
  lemma FramesAreDelivered(d: Decoder, p: Parser, frame: Frame, captureTime: i64, product: string)
    requires frame.Frame? && !IsLate(d, frame) && !IsSkip(d, frame) && GoodBody(d, p, frame.body)
    requires ParserSpec.Valid(None, p) && p.running && product in p.routes
    ensures GrewBy(p.logs, Decode(d, p, frame, captureTime).parser.logs, p.routes[product].receiver,
                 if frame.body.L2Data? then Delivered(p, frame.body.events, product, frame.body.venueTime, captureTime) else [])
  {
    match frame.body
    case L2Data(venueTime, events) => EventsAreDelivered(p, events, product, venueTime, captureTime);
    case Heartbeats(_) => NothingMoreIsTold(p, product);
    case OtherChannel => NothingMoreIsTold(p, product);
  }

  // ----- What the venue keeps to ----------------------------------------------------

  predicate SuitsEvents(events: seq<BookEvent>, product: string, precision: Precision) {
    forall i :: 0 <= i < |events| && events[i].product == product ==> GoodLevels(events[i].updates, precision)
  }

  /** Every level it ever sends of the product is on a side, and its texts can be read at that precision. */
  predicate Suits(venue: seq<Frame>, product: string, precision: Precision) {
    forall k :: 0 <= k < |venue| && venue[k].Frame? && venue[k].body.L2Data? ==>
      SuitsEvents(venue[k].body.events, product, precision)
  }

  predicate KnownKinds(events: seq<BookEvent>) { forall i :: 0 <= i < |events| ==> Known(events[i].kind) }

  predicate Speaks(venue: seq<Frame>) {
    forall k :: 0 <= k < |venue| && venue[k].Frame? && venue[k].body.L2Data? ==> KnownKinds(venue[k].body.events)
  }

  predicate Consecutive(beats: seq<u64>) { forall i :: 0 < i < |beats| ==> beats[i] as int == beats[i - 1] as int + 1 }

  ghost predicate RoutesSuit(venue: seq<Frame>, p: Parser) {
    forall s :: s in p.routes ==> Suits(venue, s, p.routes[s].precision)
  }

  ghost predicate AttachesSuit(venue: seq<Frame>, hs: seq<Happening>) {
    forall i :: 0 <= i < |hs| && hs[i].Attaches? ==> Suits(venue, hs[i].product, hs[i].precision)
  }

  /** The highest number that has arrived. */
  function Newest(hs: seq<Happening>): Option<u64> {
    if hs == [] then None
    else
      var before, h := Newest(hs[..|hs| - 1]), hs[|hs| - 1];
      if !h.Arrives? || h.arrival.frame.Unnumbered? then before
      else if before.Some? && h.arrival.frame.sequence <= before.value then before
      else Some(h.arrival.frame.sequence)
  }

  /** After the first frame none arrives before all those it follows; they may come again, and late ones be repeated. */
  predicate NothingSkipped(hs: seq<Happening>) {
    hs == []
    || (&& NothingSkipped(hs[..|hs| - 1])
        && var before, h := Newest(hs[..|hs| - 1]), hs[|hs| - 1];
        h.Arrives? && h.arrival.frame.Frame? && before.Some? ==> h.arrival.frame.sequence <= before.value + 1)
  }

  // ----- Its heartbeats -------------------------------------------------------------

  lemma {:induction false} BeatsSplit(a: seq<Frame>, b: seq<Frame>)
    ensures Beats(a + b) == Beats(a) + Beats(b)
  {
    if b == [] {
      NothingJoined(a, b);
      NothingJoined(Beats(a), Beats(b));
    } else {
      var rest, last := b[..|b| - 1], b[|b| - 1];
      BeatsSplit(a, rest);
      LastJoined(a, b);
      OneMoreBeats(a + rest, last, a + b);
      OneMoreBeats(rest, last, b);
      Regroup(Beats(a), Beats(rest), BeatsOf(last), Beats(a + rest), Beats(b), Beats(a + b));
    }
  }

  lemma NothingJoined<T>(a: seq<T>, b: seq<T>)
    requires b == []
    ensures a + b == a
  {
  }

  lemma LastJoined<T>(a: seq<T>, b: seq<T>)
    requires b != []
    ensures a + b == a + b[..|b| - 1] + [b[|b| - 1]] && b == b[..|b| - 1] + [b[|b| - 1]]
  {
  }

  lemma OneMoreBeats(frames: seq<Frame>, last: Frame, longer: seq<Frame>)
    requires longer == frames + [last]
    ensures Beats(longer) == Beats(frames) + BeatsOf(last)
  {
    BeatsGrow(frames, last);
  }

  lemma Regroup(a: seq<u64>, rest: seq<u64>, last: seq<u64>, before: seq<u64>, b: seq<u64>, all: seq<u64>)
    requires before == a + rest && b == rest + last && all == before + last
    ensures all == a + b
  {
  }

  lemma PartIsConsecutive(a: seq<u64>, b: seq<u64>, c: seq<u64>)
    requires Consecutive(a + b + c)
    ensures Consecutive(b)
  {
    var all := a + b + c;
    forall i | 0 < i < |b| ensures b[i] as int == b[i - 1] as int + 1 {
      assert all[|a| + i] == b[i] && all[|a| + i - 1] == b[i - 1];
    }
  }

  lemma BlockBeatsConsecutively(venue: seq<Frame>, before: seq<Frame>, block: seq<Frame>, after: seq<Frame>)
    requires venue == before + block + after && Consecutive(Beats(venue))
    ensures Consecutive(Beats(block))
  {
    BeatsSplit(before, block);
    BeatsSplit(before + block, after);
    PartIsConsecutive(Beats(before), Beats(block), Beats(after));
  }

  lemma {:induction false} ConsecutiveAreHeard(beats: seq<u64>)
    requires Consecutive(beats)
    ensures Hear(None, beats).ok
    ensures Hear(None, beats).last == if beats == [] then None else Some(beats[|beats| - 1])
  {
    if beats != [] { ConsecutiveAreHeard(beats[..|beats| - 1]); }
  }

  /** The counters of the frame that follows do not skip, whatever came before on this connection. */
  lemma NextHeartbeatsAreGood(venue: seq<Frame>, base: nat, p: Parser, hs: seq<Happening>, arrival: Arrival)
    requires Happens(venue, base, p, hs) && HappenAll(p, hs).status == Fine && Consecutive(Beats(venue))
    requires Genuine(venue, base, arrival) && Accepts(HappenAll(p, hs).decoder, Arrives(arrival))
    requires arrival.frame.body.Heartbeats?
    ensures NoSkip(HappenAll(p, hs).decoder.lastHeartbeat, arrival.frame.body.counters)
  {
    var frames := Accepted(p, hs);
    var counters := arrival.frame.body.counters;
    var first := AcceptedIsABlock(venue, base, p, hs);
    if frames == [] { first := arrival.frame.sequence; }
    BlockGrows(venue, base, frames, first, arrival);
    BlockIsConsecutive(venue, base, frames + [arrival.frame], first);
    BeatsGrow(frames, arrival.frame);
    HeartbeatsAreHeard(p, hs);
    RestIsHeard(Beats(frames), counters, HappenAll(p, hs).decoder.lastHeartbeat);
  }

  lemma BlockIsConsecutive(venue: seq<Frame>, base: nat, frames: seq<Frame>, first: nat)
    requires IsBlock(venue, base, frames, first) && Consecutive(Beats(venue))
    ensures Consecutive(Beats(frames))
  {
    var i, j := first - base, first - base + |frames|;
    assert venue == venue[..i] + frames + venue[j..];
    BlockBeatsConsecutively(venue, venue[..i], frames, venue[j..]);
  }

  lemma RestIsHeard(beats: seq<u64>, counters: seq<u64>, last: Option<u64>)
    requires Consecutive(beats + counters) && Hear(None, beats) == Beat(last, true)
    ensures NoSkip(last, counters)
  {
    ConsecutiveAreHeard(beats + counters);
    HearSplits(None, beats, counters);
    HeartbeatsAreFine(last, counters);
  }

  // ----- Decoded to the end ---------------------------------------------------------

  lemma SuitingEventsAreGood(p: Parser, events: seq<BookEvent>)
    requires KnownKinds(events) && forall s :: s in p.routes ==> SuitsEvents(events, s, p.routes[s].precision)
    ensures GoodEvents(p, events)
  {
  }

  lemma NextBodyIsGood(venue: seq<Frame>, base: nat, p: Parser, hs: seq<Happening>, arrival: Arrival)
    requires Happens(venue, base, p, hs) && HappenAll(p, hs).status == Fine
    requires Consecutive(Beats(venue)) && Speaks(venue) && RoutesSuit(venue, HappenAll(p, hs).parser)
    requires Genuine(venue, base, arrival) && Accepts(HappenAll(p, hs).decoder, Arrives(arrival))
    ensures GoodBody(HappenAll(p, hs).decoder, HappenAll(p, hs).parser, arrival.frame.body)
  {
    match arrival.frame.body
    case Heartbeats(_) => NextHeartbeatsAreGood(venue, base, p, hs, arrival);
    case L2Data(_, events) =>
      assert venue[arrival.frame.sequence - base] == arrival.frame;
      SuitingEventsAreGood(HappenAll(p, hs).parser, events);
    case OtherChannel =>
  }

  lemma AdvancingSuits(venue: seq<Frame>, p: Parser, q: Parser, events: seq<BookEvent>)
    requires RoutesSuit(venue, p) && Advances(p, q, events)
    ensures RoutesSuit(venue, q)
  {
  }

  lemma ArrivalIsFine(venue: seq<Frame>, base: nat, p: Parser, hs: seq<Happening>, arrival: Arrival)
    requires Happens(venue, base, p, hs) && HappenAll(p, hs).status == Fine
    requires Consecutive(Beats(venue)) && Speaks(venue) && RoutesSuit(venue, HappenAll(p, hs).parser)
    requires Genuine(venue, base, arrival) && !IsSkip(HappenAll(p, hs).decoder, arrival.frame)
    ensures var was := HappenAll(p, hs); var now := Happen(was, Arrives(arrival));
      && now.status == Fine && RoutesSuit(venue, now.parser)
      && now.decoder.lastSequence == if arrival.frame.Unnumbered? || IsLate(was.decoder, arrival.frame)
                                     then was.decoder.lastSequence else Some(arrival.frame.sequence)
  {
    var was := HappenAll(p, hs);
    if arrival.frame.Unnumbered? || IsLate(was.decoder, arrival.frame) {
      LateFramesAreIgnored(was.decoder, was.parser, arrival.frame, arrival.captureTime);
    } else {
      NextBodyIsGood(venue, base, p, hs, arrival);
      FramesThrowExactlyIfBad(was.decoder, was.parser, arrival.frame, arrival.captureTime);
      var now := Happen(was, Arrives(arrival));
      if arrival.frame.body.L2Data? { AdvancingSuits(venue, was.parser, now.parser, arrival.frame.body.events); }
    }
  }

  /**
    A connection goes on to the end, however long, if nothing is skipped after its first frame, the venue's
    heartbeats are consecutive and its kinds known, and its levels can be read at every precision attached.
   */
  lemma {:induction false} LosslessIsFine(venue: seq<Frame>, base: nat, p: Parser, hs: seq<Happening>)
    requires Happens(venue, base, p, hs) && NothingSkipped(hs)
    requires Consecutive(Beats(venue)) && Speaks(venue) && RoutesSuit(venue, p) && AttachesSuit(venue, hs)
    ensures HappenAll(p, hs).status == Fine && HappenAll(p, hs).decoder.lastSequence == Newest(hs)
    ensures RoutesSuit(venue, HappenAll(p, hs).parser)
  {
    if hs != [] {
      var rest, h := hs[..|hs| - 1], hs[|hs| - 1];
      HappenedBefore(venue, base, p, hs);
      assert AttachesSuit(venue, rest);
      LosslessIsFine(venue, base, p, rest);
      if h.Arrives? { ArrivalIsFine(venue, base, p, rest, h.arrival); }
    }
  }

  // ----- A venue delivered whole ----------------------------------------------------

  /** Every frame arrives, once and in order. */
  predicate DeliversAll(venue: seq<Frame>, hs: seq<Happening>) {
    |hs| == |venue| && forall i :: 0 <= i < |hs| ==> hs[i].Arrives? && hs[i].arrival.frame == venue[i]
  }

  function EventsOf(frame: Frame): seq<BookEvent> { if frame.Frame? && frame.body.L2Data? then frame.body.events else [] }

  function AllEvents(frames: seq<Frame>): seq<BookEvent> {
    if frames == [] then [] else AllEvents(frames[..|frames| - 1]) + EventsOf(frames[|frames| - 1])
  }

  lemma DeliveryHappens(venue: seq<Frame>, base: nat, p: Parser, hs: seq<Happening>)
    requires Numbered(venue, base) && DeliversAll(venue, hs)
    ensures Happens(venue, base, p, hs) && NothingSkipped(hs) && AttachesSuit(venue, hs)
    ensures Newest(hs) == if hs == [] then None else Some(venue[|venue| - 1].sequence)
  {
    InOrderSkipsNothing(venue, base, hs);
    forall i | 0 <= i < |hs| ensures Genuine(venue, base, hs[i].arrival) { assert venue[i].sequence == base + i; }
  }

  lemma {:induction false} InOrderSkipsNothing(venue: seq<Frame>, base: nat, hs: seq<Happening>)
    requires Numbered(venue, base) && DeliversAll(venue, hs)
    ensures NothingSkipped(hs)
    ensures Newest(hs) == if hs == [] then None else Some(venue[|venue| - 1].sequence)
  {
    if hs != [] {
      var n := |hs| - 1;
      assert hs[n].arrival.frame == venue[n] && venue[n].sequence == base + n;
      InOrderSkipsNothing(venue[..n], base, hs[..n]);
      if n > 0 { assert venue[..n][n - 1].sequence == base + n - 1; }
    }
  }

  lemma SnapshotsJoin(a: seq<BookEvent>, b: seq<BookEvent>, product: string)
    ensures HasSnapshot(a + b, product) <==> HasSnapshot(a, product) || HasSnapshot(b, product)
  {
    if HasSnapshot(a, product) {
      var i :| 0 <= i < |a| && a[i].product == product && a[i].kind == "snapshot";
      assert (a + b)[i] == a[i];
    }
    if HasSnapshot(b, product) {
      var i :| 0 <= i < |b| && b[i].product == product && b[i].kind == "snapshot";
      assert (a + b)[|a| + i] == b[i];
    }
  }

  lemma AdvancingOn(p: Parser, q: Parser, r: Parser, a: seq<BookEvent>, b: seq<BookEvent>)
    requires Advances(p, q, a) && Advances(q, r, b)
    ensures Advances(p, r, a + b)
  {
    forall s | s in p.routes ensures r.routes[s].awaiting <==> p.routes[s].awaiting && !HasSnapshot(a + b, s) {
      SnapshotsJoin(a, b, s);
    }
  }

  lemma FrameAdvances(was: Decoding, arrival: Arrival)
    requires Accepts(was.decoder, Arrives(arrival)) && Happen(was, Arrives(arrival)).status == Fine
    ensures Advances(was.parser, Happen(was, Arrives(arrival)).parser, EventsOf(arrival.frame))
  {
    FramesThrowExactlyIfBad(was.decoder, was.parser, arrival.frame, arrival.captureTime);
    StaysItself(was.parser);
  }

  lemma {:induction false} DeliveryAdvances(venue: seq<Frame>, base: nat, p: Parser, hs: seq<Happening>)
    requires Numbered(venue, base) && DeliversAll(venue, hs) && HappenAll(p, hs).status == Fine
    requires Consecutive(Beats(venue)) && Speaks(venue) && RoutesSuit(venue, p)
    ensures Advances(p, HappenAll(p, hs).parser, AllEvents(venue))
  {
    if hs == [] {
      StaysItself(p);
    } else {
      var n := |hs| - 1;
      var before := HappenAll(p, hs[..n]);
      PrefixKeepsRules(venue, p, n);
      DeliveryAdvances(venue[..n], base, p, hs[..n]);
      DeliveryHappens(venue[..n], base, p, hs[..n]);
      LosslessIsFine(venue[..n], base, p, hs[..n]);
      assert hs[n].arrival.frame == venue[n] && venue[n].sequence == base + n;
      if n > 0 { assert venue[..n][n - 1].sequence == base + n - 1; }
      FrameAdvances(before, hs[n].arrival);
      AdvancingOn(p, before.parser, HappenAll(p, hs).parser, AllEvents(venue[..n]), EventsOf(venue[n]));
    }
  }

  lemma PrefixKeepsRules(venue: seq<Frame>, p: Parser, n: nat)
    requires n <= |venue| && Consecutive(Beats(venue)) && Speaks(venue) && RoutesSuit(venue, p)
    ensures Consecutive(Beats(venue[..n])) && Speaks(venue[..n]) && RoutesSuit(venue[..n], p)
  {
    PrefixBeats(venue, n);
    PrefixSpeaks(venue, n);
    forall s | s in p.routes ensures Suits(venue[..n], s, p.routes[s].precision) {
      PrefixSuits(venue, n, s, p.routes[s].precision);
    }
  }

  lemma PrefixBeats(venue: seq<Frame>, n: nat)
    requires n <= |venue| && Consecutive(Beats(venue))
    ensures Consecutive(Beats(venue[..n]))
  {
    TakeAndDrop(venue, n);
    BeatsSplit(venue[..n], venue[n..]);
    FrontIsConsecutive(Beats(venue[..n]), Beats(venue[n..]));
  }

  lemma TakeAndDrop<T>(s: seq<T>, n: nat)
    requires n <= |s|
    ensures s[..n] + s[n..] == s
  {
  }

  lemma FrontIsConsecutive(b: seq<u64>, c: seq<u64>)
    requires Consecutive(b + c)
    ensures Consecutive(b)
  {
    forall i | 0 < i < |b| ensures b[i] as int == b[i - 1] as int + 1 {
      assert (b + c)[i] == b[i] && (b + c)[i - 1] == b[i - 1];
    }
  }

  lemma PrefixSpeaks(venue: seq<Frame>, n: nat)
    requires n <= |venue| && Speaks(venue)
    ensures Speaks(venue[..n])
  {
  }

  lemma PrefixSuits(venue: seq<Frame>, n: nat, product: string, precision: Precision)
    requires n <= |venue| && Suits(venue, product, precision)
    ensures Suits(venue[..n], product, precision)
  {
  }

  lemma {:induction false} MineAreSent(product: string, events: seq<BookEvent>, event: BookEvent)
    requires event in Mine(product, events)
    ensures event in events && event.product == product
  {
    if event in Mine(product, events[..|events| - 1]) { MineAreSent(product, events[..|events| - 1], event); }
  }

  lemma {:induction false} HistoryIsSent(product: string, frames: seq<Frame>, event: BookEvent)
    requires event in History(product, frames)
    ensures event in AllEvents(frames) && event.product == product
  {
    var rest, last := frames[..|frames| - 1], frames[|frames| - 1];
    if event in History(product, rest) { HistoryIsSent(product, rest, event); }
    else { MineAreSent(product, last.body.events, event); }
  }

  lemma {:induction false} NumbersNeedSnapshot(history: seq<BookEvent>) returns (event: BookEvent)
    requires NumbersSince(history)
    ensures event in history && IsSnapshot(event)
  {
    event := history[|history| - 1];
    if !IsSnapshot(event) { event := NumbersNeedSnapshot(history[..|history| - 1]); }
  }

  lemma SnapshotArrives(product: string, venue: seq<Frame>)
    requires NumbersSince(History(product, venue))
    ensures HasSnapshot(AllEvents(venue), product)
  {
    var event := NumbersNeedSnapshot(History(product, venue));
    HistoryIsSent(product, venue, event);
    var i :| 0 <= i < |AllEvents(venue)| && AllEvents(venue)[i] == event;
  }

  lemma WholeDeliveryEnds(venue: seq<Frame>, base: nat, p: Parser, hs: seq<Happening>, product: string)
    requires Numbered(venue, base) && DeliversAll(venue, hs) && venue != []
    requires Consecutive(Beats(venue)) && Speaks(venue) && RoutesSuit(venue, p)
    requires product in p.routes && NumbersSince(History(product, venue))
    ensures var now := HappenAll(p, hs);
      && Happens(venue, base, p, hs) && now.status == Fine
      && now.decoder.lastSequence.Some? && now.decoder.lastSequence.value == base + |venue| - 1
      && product in now.parser.routes && !now.parser.routes[product].awaiting
      && now.parser.routes[product].receiver == p.routes[product].receiver
      && now.parser.routes[product].depth == p.routes[product].depth
      && now.parser.routes[product].precision == p.routes[product].precision
  {
    DeliveryHappens(venue, base, p, hs);
    LosslessIsFine(venue, base, p, hs);
    DeliveryAdvances(venue, base, p, hs);
    SnapshotArrives(product, venue);
    assert venue[|venue| - 1].sequence == base + |venue| - 1;
  }

  /**
    Delivered whole, the venue's own book arrives: every frame is decoded, and the receiver of a product attached at
    full depth, whose texts since its last snapshot are decimals that fit, replays to it.
   */
  lemma WholeDeliveryHasTheBook(venue: seq<Frame>, base: nat, p: Parser, hs: seq<Happening>, product: string)
    requires Numbered(venue, base) && DeliversAll(venue, hs) && venue != [] && JustStarted(p)
    requires Consecutive(Beats(venue)) && Speaks(venue) && RoutesSuit(venue, p)
    requires product in p.routes && p.routes[product].depth == FULL_DEPTH
    requires NumbersSince(History(product, venue)) && FitSince(p.routes[product].precision, History(product, venue))
    ensures var now := HappenAll(p, hs);
      && now.status == Fine
      && product in now.parser.routes && now.parser.routes[product].receiver in now.parser.logs
      && now.parser.routes[product].receiver == p.routes[product].receiver
      && Stands(p.routes[product].precision, CopyOf(now.parser, product), VenueBook(History(product, venue)))
  {
    var now := HappenAll(p, hs);
    WholeDeliveryEnds(venue, base, p, hs, product);
    assert venue[..|venue|] == venue;
    BookSurvivesNetwork(venue, base, p, hs, now, product);
  }
}
