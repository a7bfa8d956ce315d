/**
  Coinbase's decoder (coinbase/l2_decoder.cc), from parsed frames on: sequence and heartbeat
  continuity, and level2 events scaled and emitted into the parser. `Lossy` says what it makes of a
  network that drops, repeats and reorders frames.
 */
module CoinbaseSpec {
  import opened Messages
  import opened ParserSpec
  import Decimals

  /** A level's side, price and quantity, as texts. */
  datatype Change = Change(side: string, price: string, quantity: string)

  datatype BookEvent = BookEvent(product: string, kind: string, updates: seq<Change>)

  datatype Body =
    | Heartbeats(counters: seq<u64>)
    | L2Data(venueTime: i64, events: seq<BookEvent>)
    | OtherChannel

  /** Unnumbered: not JSON, an error, or without a channel. */
  datatype Frame = Unnumbered | Frame(sequence: u64, body: Body)

  /** `Undefined` where scaling a decimal overflows. */
  datatype Status = Fine | Threw | Undefined

  datatype Decoder = Decoder(lastSequence: Option<u64>, lastHeartbeat: Option<u64>)

  datatype Decoding = Decoding(decoder: Decoder, parser: Parser, status: Status)

  const NEW := Decoder(None, None)

  // ----- Texts ----------------------------------------------------------------------

  datatype Reading = Refused | Overflowed | Read(value: i64)

  function RequireScaled(text: string, decimals: nat): Reading {
    if text != "" && text[0] == '-' then Refused
    else if Decimals.FractionDigits(text) > decimals then Refused
    else
      match Decimals.Scaled(text, decimals)
      case None => Overflowed
      case Some(value) => Read(value)
  }

  lemma DecimalIsNotNegative(text: string)
    requires Decimals.IsDecimal(text)
    ensures text == "" || text[0] != '-'
  {
    if text != "" && Decimals.Find(text, '.') > 0 {
      assert text[..Decimals.Find(text, '.')][0] == text[0];
    }
  }

  /** Refused are exactly the decimals finer than the product's. */
  lemma RefusesOnlyTooFine(text: string, decimals: nat)
    requires Decimals.IsDecimal(text)
    ensures RequireScaled(text, decimals).Refused? <==> forall n: nat :: !Decimals.IsExactly(text, decimals, n)
  {
    DecimalIsNotNegative(text);
    Decimals.FractionDigitsIsLeast(text, decimals);
  }

  /** A representable decimal is read without loss exactly if it fits; nothing refuses one that does not. */
  lemma ReadsExactlyWhatFits(text: string, decimals: nat, n: nat)
    requires Decimals.IsDecimal(text) && Decimals.IsExactly(text, decimals, n)
    ensures !RequireScaled(text, decimals).Refused?
    ensures n <= I64_MAX && RequireScaled(text, decimals) == Read(n) <==> decimals <= 18 && n <= I64_MAX
  {
    RefusesOnlyTooFine(text, decimals);
    Decimals.MulLt(n, n + 1, Decimals.Denominator(text));
    Decimals.ScalingIsExact(text, decimals, n);
  }

  /** An integer past i64 is not refused: it reads as zero. */
  lemma TooLargeReadsAsZero(text: string, decimals: nat)
    requires Decimals.AllDigits(text) && Decimals.Value(text) > I64_MAX && decimals <= 18
    ensures RequireScaled(text, decimals) == Read(0)
  {
    WholeNumber(text);
    DecimalIsNotNegative(text);
    ScaledIsZero(text, decimals);
  }

  lemma ScaledIsZero(text: string, decimals: nat)
    requires Decimals.AllDigits(text) && Decimals.Value(text) > I64_MAX && decimals <= 18
    ensures Decimals.Scaled(text, decimals) == Some(0)
  {
    WholeNumber(text);
    Decimals.DroppedIsZero(text);
    Decimals.PowerFits(decimals);
    ZeroSum(Decimals.Power(decimals));
    var fraction := Decimals.FractionPart(text);
    assert fraction[..0] == "" && Decimals.FromChars("") == 0;
  }

  lemma WholeNumber(text: string)
    requires Decimals.AllDigits(text)
    ensures text[..Decimals.Find(text, '.')] == text && Decimals.FractionPart(text) == ""
    ensures Decimals.FractionDigits(text) == 0 && Decimals.IsDecimal(text)
  {
    assert Decimals.Find(text, '.') == |text|;
  }

  lemma ZeroSum(scale: nat)
    requires scale <= I64_MAX
    ensures Decimals.CheckedSum(0, Decimals.Checked(scale), 0, Decimals.Checked(scale)) == Some(0)
  {
  }

  /** For instance twenty nines. */
  lemma TwentyNinesReadAsZero()
    ensures RequireScaled("99999999999999999999", 0) == Read(0)
  {
    TwentyNinesAreTooLarge("9", "9999999999999999999");
    assert "99999999999999999999" == "9" + "9999999999999999999";
    TooLargeReadsAsZero("99999999999999999999", 0);
  }

  lemma TwentyNinesAreTooLarge(nine: string, rest: string)
    requires nine == "9" && Decimals.AllDigits(rest) && |rest| == 19
    ensures Decimals.AllDigits(nine + rest) && Decimals.Value(nine + rest) > I64_MAX
  {
    Decimals.ValueSplits(nine, rest);
    assert Decimals.Value(nine) == 9 by { assert nine[..0] == ""; }
    Decimals.PowersOfTen();
  }

  // ----- Decoding -------------------------------------------------------------------

  datatype Verdict = Follows | Stale | Skips

  function Judge(last: Option<u64>, next: u64): Verdict {
    if last.None? || next == last.value + 1 then Follows else if next <= last.value then Stale else Skips
  }

  datatype Beat = Beat(last: Option<u64>, ok: bool)

  function Hear(last: Option<u64>, counters: seq<u64>): Beat {
    if counters == [] then Beat(last, true)
    else
      var before := Hear(last, counters[..|counters| - 1]);
      if !before.ok then before
      else
        match Judge(before.last, counters[|counters| - 1])
        case Follows => Beat(Some(counters[|counters| - 1]), true)
        case Stale => before
        case Skips => Beat(before.last, false)
  }

  /** Unless it throws, every number up to the last heartbeat was heard. */
  lemma {:induction false} NoHeartbeatIsSkipped(last: Option<u64>, counters: seq<u64>, n: u64)
    requires Hear(last, counters).ok && last.Some?
    ensures Hear(last, counters).last.Some? && last.value <= Hear(last, counters).last.value
    ensures last.value < n <= Hear(last, counters).last.value ==> n in counters
  {
    if counters != [] {
      NoHeartbeatIsSkipped(last, counters[..|counters| - 1], n);
      assert counters[|counters| - 1] in counters;
    }
  }

  datatype Sides = Sides(buys: seq<Level>, sells: seq<Level>, status: Status)

  function Fails(a: Reading, b: Reading): Status {
    if a.Refused? then Threw else if a.Overflowed? then Undefined
    else if b.Refused? then Threw else if b.Overflowed? then Undefined
    else Fine
  }

  function AddLevel(sides: Sides, change: Change, precision: Precision): Sides {
    if change.side != "bid" && change.side != "offer" then sides.(status := Threw)
    else
      var price, quantity := RequireScaled(change.price, precision.price), RequireScaled(change.quantity, precision.quantity);
      if Fails(price, quantity) != Fine then sides.(status := Fails(price, quantity))
      else if change.side == "bid" then sides.(buys := sides.buys + [Level(price.value, quantity.value)])
      else sides.(sells := sides.sells + [Level(price.value, quantity.value)])
  }

  function ReadLevels(updates: seq<Change>, precision: Precision): Sides {
    if updates == [] then Sides([], [], Fine)
    else
      var before := ReadLevels(updates[..|updates| - 1], precision);
      if before.status != Fine then before else AddLevel(before, updates[|updates| - 1], precision)
  }

  predicate IsKind(text: string) { text == "snapshot" || text == "update" }

  function KindOf(text: string): Kind { if text == "snapshot" then Snapshot else Update }

  function MakeMessage(event: BookEvent, sides: Sides, venueTime: i64, captureTime: i64): Message {
    Message(KindOf(event.kind), 0, venueTime, captureTime, event.product, sides.buys, sides.sells)
  }

  datatype Output = Output(parser: Parser, status: Status)

  function DecodeEvent(p: Parser, event: BookEvent, venueTime: i64, captureTime: i64): Output {
    if !IsKind(event.kind) then Output(p, Threw)
    else
      match Find(p, event.product, KindOf(event.kind))
      case None => Output(p, Fine)
      case Some(precision) =>
        var sides := ReadLevels(event.updates, precision);
        if sides.status != Fine then Output(p, sides.status)
        else Output(Emit(None, p, MakeMessage(event, sides, venueTime, captureTime)).parser, Fine)
  }

  function DecodeEvents(p: Parser, events: seq<BookEvent>, venueTime: i64, captureTime: i64): Output {
    if events == [] then Output(p, Fine)
    else
      var before := DecodeEvents(p, events[..|events| - 1], venueTime, captureTime);
      if before.status != Fine then before
      else DecodeEvent(before.parser, events[|events| - 1], venueTime, captureTime)
  }

  function DecodeBody(d: Decoder, p: Parser, body: Body, captureTime: i64): Decoding {
    match body
    case Heartbeats(counters) =>
      var beat := Hear(d.lastHeartbeat, counters);
      Decoding(d.(lastHeartbeat := beat.last), p, if beat.ok then Fine else Threw)
    case L2Data(venueTime, events) =>
      var output := DecodeEvents(p, events, venueTime, captureTime);
      Decoding(d, output.parser, output.status)
    case OtherChannel => Decoding(d, p, Fine)
  }

  function Decode(d: Decoder, p: Parser, frame: Frame, captureTime: i64): Decoding {
    if frame.Unnumbered? then Decoding(d, p, Fine)
    else
      match Judge(d.lastSequence, frame.sequence)
      case Stale => Decoding(d, p, Fine)
      case Skips => Decoding(d, p, Threw)
      case Follows => DecodeBody(d.(lastSequence := Some(frame.sequence)), p, frame.body, captureTime)
  }

  // ----- A failure ends the loop ----------------------------------------------------

  lemma {:induction false} HearStops(last: Option<u64>, counters: seq<u64>, i: nat)
    requires i <= |counters| && !Hear(last, counters[..i]).ok
    ensures Hear(last, counters) == Hear(last, counters[..i])
  {
    if i == |counters| {
      assert counters[..i] == counters;
    } else {
      var rest := counters[..|counters| - 1];
      assert rest[..i] == counters[..i];
      HearStops(last, rest, i);
    }
  }

  lemma {:induction false} ReadingStops(updates: seq<Change>, precision: Precision, i: nat)
    requires i <= |updates| && ReadLevels(updates[..i], precision).status != Fine
    ensures ReadLevels(updates, precision) == ReadLevels(updates[..i], precision)
  {
    if i == |updates| {
      assert updates[..i] == updates;
    } else {
      var rest := updates[..|updates| - 1];
      assert rest[..i] == updates[..i];
      ReadingStops(rest, precision, i);
    }
  }

  lemma {:induction false} DecodingStops(p: Parser, events: seq<BookEvent>, venueTime: i64, captureTime: i64, i: nat)
    requires i <= |events| && DecodeEvents(p, events[..i], venueTime, captureTime).status != Fine
    ensures DecodeEvents(p, events, venueTime, captureTime) == DecodeEvents(p, events[..i], venueTime, captureTime)
  {
    if i == |events| {
      assert events[..i] == events;
    } else {
      var rest := events[..|events| - 1];
      assert rest[..i] == events[..i];
      DecodingStops(p, rest, venueTime, captureTime, i);
    }
  }
}

/** What survives the network between Coinbase and the decoder. */
module Lossy {
  import opened Messages
  import opened BookSpec
  import opened ParserSpec
  import opened CoinbaseSpec
  import opened Quoted
  import Decimals

  /** A frame as it arrives. */
  datatype Arrival = Arrival(frame: Frame, captureTime: i64)

  /** The venue numbers its frames in order. */
  ghost predicate Numbered(venue: seq<Frame>, base: nat) {
    forall i :: 0 <= i < |venue| ==> venue[i].Frame? && venue[i].sequence == base + i
  }

  /** The network makes no frame up. */
  predicate Genuine(venue: seq<Frame>, base: nat, arrival: Arrival) {
    arrival.frame.Frame? ==>
      base <= arrival.frame.sequence < base + |venue| && arrival.frame == venue[arrival.frame.sequence - base]
  }

  /** What happens to a connection: a frame arrives, or a client's command attaches or detaches a product. */
  datatype Happening =
    | Arrives(arrival: Arrival)
    | Attaches(product: string, precision: Precision, depth: nat, receiver: ReceiverId)
    | Detaches(product: string)

  /** A receiver is made for one subscription. */
  predicate Fresh(p: Parser, h: Happening) { h.Attaches? ==> h.receiver !in p.logs }

  function Happen(was: Decoding, h: Happening): Decoding {
    match h
    case Arrives(arrival) => Decode(was.decoder, was.parser, arrival.frame, arrival.captureTime)
    case Attaches(product, precision, depth, receiver) =>
      var attached := Attach(was.parser, product, precision, depth, receiver);
      was.(parser := if attached.Some? then attached.value else was.parser)
    case Detaches(product) => was.(parser := Detach(was.parser, product))
  }

  /** A connection, from the new decoder and the parser just started. It stops at the first failure. */
  function HappenAll(p: Parser, hs: seq<Happening>): Decoding {
    if hs == [] then Decoding(NEW, p, Fine)
    else
      var before := HappenAll(p, hs[..|hs| - 1]);
      if before.status != Fine then before else Happen(before, hs[|hs| - 1])
  }

  /** Everything that arrives is the venue's, and every receiver attached is new. */
  ghost predicate Happens(venue: seq<Frame>, base: nat, p: Parser, hs: seq<Happening>) {
    && Numbered(venue, base)
    && forall i :: 0 <= i < |hs| ==>
         && (hs[i].Arrives? ==> Genuine(venue, base, hs[i].arrival))
         && Fresh(HappenAll(p, hs[..i]).parser, hs[i])
  }

  lemma HappenedBefore(venue: seq<Frame>, base: nat, p: Parser, hs: seq<Happening>)
    requires Happens(venue, base, p, hs) && hs != []
    ensures Happens(venue, base, p, hs[..|hs| - 1])
    ensures var h := hs[|hs| - 1];
      (h.Arrives? ==> Genuine(venue, base, h.arrival)) && Fresh(HappenAll(p, hs[..|hs| - 1]).parser, h)
  {
    var rest := hs[..|hs| - 1];
    forall i | 0 <= i < |rest| ensures rest[..i] == hs[..i] && rest[i] == hs[i] {}
  }

  predicate Accepts(d: Decoder, h: Happening) {
    h.Arrives? && h.arrival.frame.Frame? && Judge(d.lastSequence, h.arrival.frame.sequence).Follows?
  }

  /** The frames the decoder acted on. */
  function Accepted(p: Parser, hs: seq<Happening>): seq<Frame> {
    if hs == [] then []
    else
      var last := hs[|hs| - 1];
      Accepted(p, hs[..|hs| - 1])
      + if Accepts(HappenAll(p, hs[..|hs| - 1]).decoder, last) then [last.arrival.frame] else []
  }

  /** `frames` are the venue's from number `first` on, each once and in order. */
  ghost predicate IsBlock(venue: seq<Frame>, base: nat, frames: seq<Frame>, first: nat) {
    && base <= first && first + |frames| <= base + |venue|
    && frames == venue[first - base..first - base + |frames|]
  }

  ghost predicate EndsAt(last: Option<u64>, first: nat, length: nat) {
    if length == 0 then last == None else last == Some(first + length - 1)
  }

  /** A block grows by the frame that follows its last, and an empty one starts anywhere. */
  lemma BlockGrows(venue: seq<Frame>, base: nat, frames: seq<Frame>, first: nat, arrival: Arrival)
    requires Numbered(venue, base) && Genuine(venue, base, arrival) && arrival.frame.Frame?
    requires IsBlock(venue, base, frames, first) && arrival.frame.sequence == first + |frames|
    ensures IsBlock(venue, base, frames + [arrival.frame], first)
  {
  }

  /** Whatever the network does, the frames acted on are a block of the venue's. */
  lemma {:induction false} AcceptedIsABlock(venue: seq<Frame>, base: nat, p: Parser, hs: seq<Happening>) returns (first: nat)
    requires Happens(venue, base, p, hs) && HappenAll(p, hs).status == Fine
    ensures IsBlock(venue, base, Accepted(p, hs), first)
    ensures EndsAt(HappenAll(p, hs).decoder.lastSequence, first, |Accepted(p, hs)|)
  {
    if hs == [] {
      first := base;
    } else {
      var rest, last := hs[..|hs| - 1], hs[|hs| - 1];
      HappenedBefore(venue, base, p, hs);
      first := AcceptedIsABlock(venue, base, p, rest);
      if Accepts(HappenAll(p, rest).decoder, last) {
        if Accepted(p, rest) == [] { first := last.arrival.frame.sequence; }
        BlockGrows(venue, base, Accepted(p, rest), first, last.arrival);
      }
    }
  }

  // ----- Heartbeats over a whole connection -----------------------------------------

  /** The heartbeat numbers in the frames acted on, in order. */
  function Beats(frames: seq<Frame>): seq<u64> {
    if frames == [] then [] else Beats(frames[..|frames| - 1]) + BeatsOf(frames[|frames| - 1])
  }

  lemma {:induction false} HearSplits(last: Option<u64>, a: seq<u64>, b: seq<u64>)
    requires Hear(last, a).ok
    ensures Hear(last, a + b) == Hear(Hear(last, a).last, b)
  {
    if b == [] {
      assert a + b == a;
    } else {
      HearSplits(last, a, b[..|b| - 1]);
      assert (a + b)[..|a + b| - 1] == a + b[..|b| - 1];
    }
  }

  function BeatsOf(frame: Frame): seq<u64> { if frame.Frame? && frame.body.Heartbeats? then frame.body.counters else [] }

  lemma BeatsGrow(frames: seq<Frame>, frame: Frame)
    ensures Beats(frames + [frame]) == Beats(frames) + BeatsOf(frame)
  {
    assert (frames + [frame])[..|frames|] == frames;
  }

  lemma HeartbeatStep(was: Decoding, h: Happening)
    requires Happen(was, h).status == Fine
    ensures Accepts(was.decoder, h) ==>
      Hear(was.decoder.lastHeartbeat, BeatsOf(h.arrival.frame)) == Beat(Happen(was, h).decoder.lastHeartbeat, true)
    ensures !Accepts(was.decoder, h) ==> Happen(was, h).decoder.lastHeartbeat == was.decoder.lastHeartbeat
  {
  }

  lemma {:induction false} HeartbeatsAreHeard(p: Parser, hs: seq<Happening>)
    requires HappenAll(p, hs).status == Fine
    ensures Hear(None, Beats(Accepted(p, hs))) == Beat(HappenAll(p, hs).decoder.lastHeartbeat, true)
  {
    if hs != [] {
      var rest, h := hs[..|hs| - 1], hs[|hs| - 1];
      HeartbeatsAreHeard(p, rest);
      HeartbeatStep(HappenAll(p, rest), h);
      if Accepts(HappenAll(p, rest).decoder, h) {
        BeatsGrow(Accepted(p, rest), h.arrival.frame);
        HearSplits(None, Beats(Accepted(p, rest)), BeatsOf(h.arrival.frame));
      } else {
        assert Accepted(p, hs) == Accepted(p, rest);
      }
    }
  }

  lemma HeardWithoutGap(counters: seq<u64>, n: u64)
    requires counters != [] && Hear(None, counters).ok
    ensures Hear(None, counters).last.Some?
    ensures counters[0] <= n <= Hear(None, counters).last.value ==> n in counters
  {
    HearSplits(None, [counters[0]], counters[1..]);
    assert [counters[0]] + counters[1..] == counters && [counters[0]][..0] == [];
    assert Hear(None, counters) == Hear(Some(counters[0]), counters[1..]);
    NoHeartbeatIsSkipped(Some(counters[0]), counters[1..], n);
  }

  /** Over a connection, every heartbeat number from the first one acted on to the last was received. */
  lemma NoHeartbeatIsMissed(p: Parser, hs: seq<Happening>, now: Decoding, n: u64)
    requires now == HappenAll(p, hs) && now.status == Fine && now.decoder.lastHeartbeat.Some?
    ensures var beats := Beats(Accepted(p, hs));
      beats != [] && (beats[0] <= n <= now.decoder.lastHeartbeat.value ==> n in beats)
  {
    HeartbeatsAreHeard(p, hs);
    assert Beats(Accepted(p, hs)) != [];
    HeardWithoutGap(Beats(Accepted(p, hs)), n);
  }

  // ----- What a receiver makes of it ------------------------------------------------

  /** The product's events among these. */
  function Mine(product: string, events: seq<BookEvent>): seq<BookEvent> {
    if events == [] then []
    else
      var last := events[|events| - 1];
      Mine(product, events[..|events| - 1])
      + if last.product == product && (last.kind == "snapshot" || last.kind == "update") then [last] else []
  }

  function MineOf(product: string, frame: Frame): seq<BookEvent> {
    if frame.Frame? && frame.body.L2Data? then Mine(product, frame.body.events) else []
  }

  /** Every event the venue sent of a product, none lost. */
  function History(product: string, frames: seq<Frame>): seq<BookEvent> {
    if frames == [] then []
    else History(product, frames[..|frames| - 1]) + MineOf(product, frames[|frames| - 1])
  }

  ghost predicate Routed(p: Parser, product: string, precision: Precision) {
    && Valid(None, p) && p.running
    && product in p.routes && p.routes[product].depth == FULL_DEPTH && p.routes[product].precision == precision
  }

  /** The replay of the product's receiver. */
  function CopyOf(p: Parser, product: string): BookState
    requires product in p.routes && p.routes[product].receiver in p.logs
  {
    LogBook(FULL_DEPTH, p.logs[p.routes[product].receiver].events)
  }

  /** The product's receiver, once past its first snapshot, replays to what the decoder reads of the history. */
  ghost predicate Follows(p: Parser, product: string, precision: Precision, history: seq<BookEvent>) {
    && Routed(p, product, precision)
    && (!p.routes[product].awaiting ==> ReadSince(precision, history) && CopyOf(p, product) == ReadBook(precision, history))
  }

  lemma EmitTells(p: Parser, product: string, precision: Precision, message: Message)
    requires Routed(p, product, precision)
    ensures var q := Emit(None, p, message).parser;
      && Routed(q, product, precision)
      && if message.symbol == product && FindRoute(p, product, message.kind).Some?
         then !q.routes[product].awaiting && CopyOf(q, product) == Apply(FULL_DEPTH, CopyOf(p, product), message)
         else q.routes[product].awaiting == p.routes[product].awaiting && CopyOf(q, product) == CopyOf(p, product)
  {
    EmitIsValid(None, p, message);
    LogBookGrows(FULL_DEPTH, p.logs[p.routes[product].receiver].events, Received(message, p.connection));
  }

  lemma HistoryGrows(history: seq<BookEvent>, event: BookEvent, precision: Precision)
    requires ReadLevels(event.updates, precision).status == Fine
    requires IsSnapshot(event) || ReadSince(precision, history)
    ensures ReadSince(precision, history + [event])
    ensures ReadBook(precision, history + [event])
         == TakeAll(precision, if IsSnapshot(event) then EMPTY else ReadBook(precision, history), event.updates)
  {
    assert (history + [event])[..|history|] == history;
  }

  lemma EventFollows(p: Parser, product: string, precision: Precision, history: seq<BookEvent>, event: BookEvent,
                     venueTime: i64, captureTime: i64)
    requires Follows(p, product, precision, history)
    requires DecodeEvent(p, event, venueTime, captureTime).status == Fine
    ensures Follows(DecodeEvent(p, event, venueTime, captureTime).parser, product, precision,
                    if event.product == product then history + [event] else history)
  {
    var found := Find(p, event.product, KindOf(event.kind));
    if found.Some? {
      var message := MakeMessage(event, ReadLevels(event.updates, found.value), venueTime, captureTime);
      EmitTells(p, product, precision, message);
      if event.product == product {
        MessageTakesAll(precision, CopyOf(p, product), event, venueTime, captureTime);
        HistoryGrows(history, event, precision);
      }
    }
  }

  lemma {:induction false} EventsFollow(p: Parser, product: string, precision: Precision, history: seq<BookEvent>,
                                        events: seq<BookEvent>, venueTime: i64, captureTime: i64)
    requires Follows(p, product, precision, history)
    requires DecodeEvents(p, events, venueTime, captureTime).status == Fine
    ensures Follows(DecodeEvents(p, events, venueTime, captureTime).parser, product, precision,
                    history + Mine(product, events))
  {
    if events == [] {
      assert history + Mine(product, events) == history;
    } else {
      var rest, last := events[..|events| - 1], events[|events| - 1];
      var q := DecodeEvents(p, rest, venueTime, captureTime).parser;
      EventsFollow(p, product, precision, history, rest, venueTime, captureTime);
      EventFollows(q, product, precision, history + Mine(product, rest), last, venueTime, captureTime);
      assert history + Mine(product, events)
          == if last.product == product then history + Mine(product, rest) + [last] else history + Mine(product, rest);
    }
  }

  /** What the venue sent of a product up to the last frame acted on. */
  function HistoryAsOf(venue: seq<Frame>, base: nat, product: string, last: Option<u64>): seq<BookEvent>
    requires last.Some? ==> base <= last.value < base + |venue|
  {
    if last.None? then [] else History(product, venue[..last.value - base + 1])
  }

  /** A product routed at the full depth, the only one Coinbase accepts, follows what the venue sent. */
  ghost predicate Tracks(venue: seq<Frame>, base: nat, now: Decoding, product: string) {
    var last := now.decoder.lastSequence;
    && Valid(None, now.parser) && now.parser.running
    && (last.Some? ==> base <= last.value < base + |venue|)
    && (product in now.parser.routes && now.parser.routes[product].depth == FULL_DEPTH ==>
         && (last.None? ==> now.parser.routes[product].awaiting)
         && Follows(now.parser, product, now.parser.routes[product].precision,
                    HistoryAsOf(venue, base, product, last)))
  }

  /** The parser just started: every route waits for a snapshot. */
  ghost predicate JustStarted(p: Parser) {
    && Valid(None, p) && p.running
    && forall s :: s in p.routes ==> p.routes[s].awaiting
  }

  lemma DecodingKeepsRoutes(p: Parser, event: BookEvent, venueTime: i64, captureTime: i64)
    requires Valid(None, p) && p.running
    ensures var q := DecodeEvent(p, event, venueTime, captureTime).parser;
      && Valid(None, q) && q.running && q.routes.Keys == p.routes.Keys
      && forall s :: s in p.routes ==> q.routes[s].depth == p.routes[s].depth && q.routes[s].precision == p.routes[s].precision
  {
    if IsKind(event.kind) && Find(p, event.product, KindOf(event.kind)).Some? {
      var sides := ReadLevels(event.updates, Find(p, event.product, KindOf(event.kind)).value);
      EmitIsValid(None, p, MakeMessage(event, sides, venueTime, captureTime));
    }
  }

  lemma {:induction false} EventsKeepRoutes(p: Parser, events: seq<BookEvent>, venueTime: i64, captureTime: i64)
    requires Valid(None, p) && p.running
    ensures var q := DecodeEvents(p, events, venueTime, captureTime).parser;
      && Valid(None, q) && q.running && q.routes.Keys == p.routes.Keys
      && forall s :: s in p.routes ==> q.routes[s].depth == p.routes[s].depth && q.routes[s].precision == p.routes[s].precision
  {
    if events != [] {
      EventsKeepRoutes(p, events[..|events| - 1], venueTime, captureTime);
      DecodingKeepsRoutes(DecodeEvents(p, events[..|events| - 1], venueTime, captureTime).parser, events[|events| - 1],
                          venueTime, captureTime);
    }
  }

  lemma ArrivalTracks(venue: seq<Frame>, base: nat, was: Decoding, arrival: Arrival, product: string)
    requires Numbered(venue, base) && Genuine(venue, base, arrival)
    requires Tracks(venue, base, was, product) && Happen(was, Arrives(arrival)).status == Fine
    ensures Tracks(venue, base, Happen(was, Arrives(arrival)), product)
  {
    if arrival.frame.Frame? && arrival.frame.body.L2Data? {
      EventsKeepRoutes(was.parser, arrival.frame.body.events, arrival.frame.body.venueTime, arrival.captureTime);
    }
    if product in was.parser.routes && was.parser.routes[product].depth == FULL_DEPTH {
      ArrivalFollows(venue, base, product, was.parser.routes[product].precision, was, arrival);
    }
  }

  lemma AttachTracks(venue: seq<Frame>, base: nat, was: Decoding, h: Happening, product: string)
    requires Tracks(venue, base, was, product) && h.Attaches? && Fresh(was.parser, h)
    ensures Tracks(venue, base, Happen(was, h), product)
  {
    if h.product !in was.parser.routes {
      AttachIsValid(None, was.parser, h.product, h.precision, h.depth, h.receiver);
    }
  }

  lemma DetachTracks(venue: seq<Frame>, base: nat, was: Decoding, h: Happening, product: string)
    requires Tracks(venue, base, was, product) && h.Detaches?
    ensures Tracks(venue, base, Happen(was, h), product)
  {
    DetachIsValid(None, was.parser, h.product);
  }

  lemma {:induction false} HappeningsTrack(venue: seq<Frame>, base: nat, p: Parser, hs: seq<Happening>, product: string)
    requires Happens(venue, base, p, hs) && JustStarted(p) && HappenAll(p, hs).status == Fine
    ensures Tracks(venue, base, HappenAll(p, hs), product)
  {
    if hs != [] {
      var rest, h := hs[..|hs| - 1], hs[|hs| - 1];
      HappenedBefore(venue, base, p, hs);
      HappeningsTrack(venue, base, p, rest, product);
      match h
      case Arrives(arrival) => ArrivalTracks(venue, base, HappenAll(p, rest), arrival, product);
      case Attaches(_, _, _, _) => AttachTracks(venue, base, HappenAll(p, rest), h, product);
      case Detaches(_) => DetachTracks(venue, base, HappenAll(p, rest), h, product);
    }
  }

  lemma AcceptedIsDecoded(d: Decoder, p: Parser, arrival: Arrival)
    requires Accepts(d, Arrives(arrival))
    ensures var now := Decode(d, p, arrival.frame, arrival.captureTime);
      var body := DecodeBody(d, p, arrival.frame.body, arrival.captureTime);
      && now.status == body.status && now.parser == body.parser
      && now.decoder.lastSequence == Some(arrival.frame.sequence)
  {
  }

  lemma OthersChangeNothing(d: Decoder, p: Parser, arrival: Arrival)
    requires !Accepts(d, Arrives(arrival)) && Decode(d, p, arrival.frame, arrival.captureTime).status == Fine
    ensures Decode(d, p, arrival.frame, arrival.captureTime) == Decoding(d, p, Fine)
  {
  }

  /** Frames before the first one acted on do not matter: everything still waits for a snapshot. */
  lemma ArrivalFollows(venue: seq<Frame>, base: nat, product: string, precision: Precision, was: Decoding, arrival: Arrival)
    requires Numbered(venue, base) && Genuine(venue, base, arrival)
    requires var last := was.decoder.lastSequence; last.Some? ==> base <= last.value < base + |venue|
    requires Follows(was.parser, product, precision, HistoryAsOf(venue, base, product, was.decoder.lastSequence))
    requires was.decoder.lastSequence.None? ==> was.parser.routes[product].awaiting
    requires Decode(was.decoder, was.parser, arrival.frame, arrival.captureTime).status == Fine
    ensures var now := Decode(was.decoder, was.parser, arrival.frame, arrival.captureTime);
      var last := now.decoder.lastSequence;
      && (last.Some? ==> base <= last.value < base + |venue|)
      && (last.None? ==> now.parser == was.parser)
      && Follows(now.parser, product, precision, HistoryAsOf(venue, base, product, last))
  {
    if Accepts(was.decoder, Arrives(arrival)) {
      AcceptedIsDecoded(was.decoder, was.parser, arrival);
      AcceptedFollows(venue, base, product, precision, was, arrival);
      var now := Decode(was.decoder, was.parser, arrival.frame, arrival.captureTime);
      assert HistoryAsOf(venue, base, product, now.decoder.lastSequence)
          == History(product, venue[..arrival.frame.sequence - base + 1]);
    } else {
      OthersChangeNothing(was.decoder, was.parser, arrival);
    }
  }

  lemma AcceptedFollows(venue: seq<Frame>, base: nat, product: string, precision: Precision, was: Decoding, arrival: Arrival)
    requires Numbered(venue, base) && Genuine(venue, base, arrival) && Accepts(was.decoder, Arrives(arrival))
    requires var last := was.decoder.lastSequence; last.Some? ==> base <= last.value < base + |venue|
    requires Follows(was.parser, product, precision, HistoryAsOf(venue, base, product, was.decoder.lastSequence))
    requires was.decoder.lastSequence.None? ==> was.parser.routes[product].awaiting
    requires DecodeBody(was.decoder, was.parser, arrival.frame.body, arrival.captureTime).status == Fine
    ensures Follows(DecodeBody(was.decoder, was.parser, arrival.frame.body, arrival.captureTime).parser, product, precision,
                    History(product, venue[..arrival.frame.sequence - base + 1]))
  {
    var k := arrival.frame.sequence - base;
    var before := History(product, venue[..k]);
    assert before + [] == before;
    assert venue[..k + 1][..k] == venue[..k];
    assert Follows(was.parser, product, precision, before);
    if arrival.frame.body.L2Data? {
      EventsFollow(was.parser, product, precision, before, arrival.frame.body.events,
                   arrival.frame.body.venueTime, arrival.captureTime);
    }
  }

  /**
    Drop, repeat and reorder the venue's frames at will, and subscribe and unsubscribe between them. While
    decoding neither throws nor overflows, a product whose snapshot got through since it was attached
    replays, at its receiver, to what the decoder reads of everything the venue sent of it, up to the last frame
    acted on. That was the venue's own book, after every change since the snapshot, if and only if each of
    these was harmless, as all are that fit.
   */
  lemma BookSurvivesNetwork(venue: seq<Frame>, base: nat, p: Parser, hs: seq<Happening>, now: Decoding, product: string)
    requires Happens(venue, base, p, hs) && JustStarted(p) && now == HappenAll(p, hs) && now.status == Fine
    requires product in now.parser.routes && now.parser.routes[product].depth == FULL_DEPTH
    requires !now.parser.routes[product].awaiting
    ensures now.decoder.lastSequence.Some? && base <= now.decoder.lastSequence.value < base + |venue|
    ensures var route := now.parser.routes[product];
      var history := History(product, venue[..now.decoder.lastSequence.value - base + 1]);
      && route.receiver in now.parser.logs
      && ReadSince(route.precision, history)
      && CopyOf(now.parser, product) == ReadBook(route.precision, history)
      && (NumbersSince(history) ==>
           && (RightSince(route.precision, history) <==> HarmlessSince(route.precision, history))
           && (FitSince(route.precision, history) ==> HarmlessSince(route.precision, history))
           && (HarmlessSince(route.precision, history) ==>
                Stands(route.precision, CopyOf(now.parser, product), VenueBook(history))))
  {
    ReceiverReplays(venue, base, p, hs, now, product);
    var precision := now.parser.routes[product].precision;
    var history := History(product, venue[..now.decoder.lastSequence.value - base + 1]);
    if NumbersSince(history) {
      RightExactlyIfHarmless(precision, history);
      if FitSince(precision, history) { FittingIsHarmless(precision, history); }
    }
  }

  /** The network's part of it: what any texts are read as. */
  lemma ReceiverReplays(venue: seq<Frame>, base: nat, p: Parser, hs: seq<Happening>, now: Decoding, product: string)
    requires Happens(venue, base, p, hs) && JustStarted(p) && now == HappenAll(p, hs) && now.status == Fine
    requires product in now.parser.routes && now.parser.routes[product].depth == FULL_DEPTH
    requires !now.parser.routes[product].awaiting
    ensures now.decoder.lastSequence.Some? && base <= now.decoder.lastSequence.value < base + |venue|
    ensures var route := now.parser.routes[product];
      var history := History(product, venue[..now.decoder.lastSequence.value - base + 1]);
      && route.receiver in now.parser.logs
      && ReadSince(route.precision, history)
      && CopyOf(now.parser, product) == ReadBook(route.precision, history)
  {
    HappeningsTrack(venue, base, p, hs, product);
    var history := HistoryAsOf(venue, base, product, now.decoder.lastSequence);
    FollowerHasBook(now.parser, product, now.parser.routes[product].precision, history);
  }

  lemma FollowerHasBook(p: Parser, product: string, precision: Precision, history: seq<BookEvent>)
    requires Follows(p, product, precision, history) && !p.routes[product].awaiting
    ensures p.routes[product].receiver in p.logs && CopyOf(p, product) == ReadBook(precision, history)
    ensures ReadSince(precision, history)
  {
  }

  // ----- A run in which it is not the venue's ---------------------------------------

  const UNITS := Precision(0, 0)

  /** A bid of 1 at a price. */
  function Bid(price: string): BookEvent { BookEvent("X", "snapshot", [Change("bid", price, "1")]) }

  function BidFrame(price: string): Frame { Frame(0, L2Data(0, [Bid(price)])) }

  function BidRun(price: string): seq<Happening> {
    [Attaches("X", UNITS, FULL_DEPTH, 0), Arrives(Arrival(BidFrame(price), 0))]
  }

  lemma BidIsRead(price: string)
    requires Decimals.AllDigits(price) && Decimals.Value(price) > I64_MAX
    ensures ReadLevels(Bid(price).updates, UNITS) == Sides([Level(0, 1)], [], Fine)
  {
    TooLargeReadsAsZero(price, 0);
    OneReadsAsOne();
    BidIsOneLevel(Bid(price).updates[0], UNITS, Level(0, 1));
  }

  lemma BidIsOneLevel(change: Change, precision: Precision, level: Level)
    requires change.side == "bid"
    requires RequireScaled(change.price, precision.price) == Read(level.price)
    requires RequireScaled(change.quantity, precision.quantity) == Read(level.quantity)
    ensures ReadLevels([change], precision) == Sides([level], [], Fine)
  {
    assert [change][..0] == [];
    assert AddLevel(Sides([], [], Fine), change, precision) == Sides([] + [level], [], Fine);
  }

  lemma OneReadsAsOne()
    ensures RequireScaled("1", 0) == Read(1) && Decimals.IsDecimal("1") && Worth("1") == 1.0
  {
    Decimals.OneIsWhole();
    DecimalIsNotNegative("1");
    Decimals.ScalingIsExact("1", 0, 1);
    WholeNumber("1");
  }

  lemma BidIsMeant(price: string)
    requires Decimals.AllDigits(price)
    ensures Decimals.IsDecimal(price) && NumbersSince([Bid(price)])
    ensures VenueBook([Bid(price)]) == QuoteBook(map[Worth(price) := 1.0], map[])
  {
    WholeNumber(price);
    OneReadsAsOne();
    OneChange([Bid(price)], Bid(price).updates[0]);
    BidQuotes(price, "1");
  }

  lemma OneChange(history: seq<BookEvent>, change: Change)
    requires |history| == 1 && IsSnapshot(history[0]) && history[0].updates == [change]
    ensures VenueBook(history) == Mean(NO_QUOTES, change)
  {
    assert [change][..0] == [] && MeanAll(NO_QUOTES, []) == NO_QUOTES;
  }

  lemma BidQuotes(price: string, one: string)
    requires Decimals.IsDecimal(price) && Decimals.IsDecimal(one) && Worth(one) == 1.0
    ensures Mean(NO_QUOTES, Change("bid", price, one)) == QuoteBook(map[Worth(price) := 1.0], map[])
  {
  }

  lemma BidIsMisread(price: string)
    requires Decimals.AllDigits(price) && Decimals.Value(price) > I64_MAX
    ensures !Stands(UNITS, BookState(map[0 := 1], map[]), VenueBook([Bid(price)]))
  {
    BidIsMeant(price);
    OneReadsAsOne();
    TooLargeReadsAsZero(price, 0);
    WholeDigits(price);
    LargePriceIsWrong(UNITS, map[0 := 1], map[], price, "1");
  }

  lemma WholeDigits(text: string)
    requires Decimals.AllDigits(text)
    ensures Decimals.IsDecimal(text) && Decimals.Digits(text, 0) == Decimals.Value(text)
  {
    WholeNumber(text);
    assert Decimals.FractionPart(text)[..0] == "" && Decimals.Value("") == 0;
  }

  lemma BidHistory(price: string)
    ensures History("X", [BidFrame(price)]) == [Bid(price)]
  {
    assert [Bid(price)][..0] == [] && [BidFrame(price)][..0] == [];
    assert Mine("X", [Bid(price)]) == [Bid(price)];
  }

  function BidRoute(awaiting: bool): Route { Route(UNITS, FULL_DEPTH, 0, awaiting, EMPTY) }

  function BidParser(): Parser { Parser(map["X" := BidRoute(true)], true, 1, map[0 := Log(FULL_DEPTH, [])]) }

  lemma BidRunBegins(price: string)
    ensures HappenAll(Start(INITIAL), BidRun(price)[..0]) == Decoding(NEW, Start(INITIAL), Fine)
    ensures HappenAll(Start(INITIAL), BidRun(price)[..1]) == Decoding(NEW, BidParser(), Fine)
  {
    assert BidRun(price)[..1][..0] == [];
  }

  lemma BidDecodes(price: string)
    requires Decimals.AllDigits(price) && Decimals.Value(price) > I64_MAX
    ensures var message := MakeMessage(Bid(price), Sides([Level(0, 1)], [], Fine), 0, 0);
      DecodeEvents(BidParser(), [Bid(price)], 0, 0) == Output(Emit(None, BidParser(), message).parser, Fine)
  {
    BidIsRead(price);
    assert [Bid(price)][..0] == [];
  }

  lemma BidRunEnds(price: string)
    requires Decimals.AllDigits(price) && Decimals.Value(price) > I64_MAX
    ensures var message := MakeMessage(Bid(price), Sides([Level(0, 1)], [], Fine), 0, 0);
      HappenAll(Start(INITIAL), BidRun(price))
      == Decoding(Decoder(Some(0), None), Emit(None, BidParser(), message).parser, Fine)
  {
    BidRunBegins(price);
    BidDecodes(price);
    var frame := BidFrame(price);
    assert Decode(NEW, BidParser(), frame, 0) == DecodeBody(Decoder(Some(0), None), BidParser(), frame.body, 0);
  }

  lemma BidIsEmitted(message: Message)
    requires message.symbol == "X" && message.kind.Snapshot? && message.buys == [Level(0, 1)] && message.sells == []
    ensures var q := Emit(None, BidParser(), message).parser;
      && "X" in q.routes && q.routes["X"] == BidRoute(false)
      && 0 in q.logs && CopyOf(q, "X") == BookState(map[0 := 1], map[])
  {
    var q := Emit(None, BidParser(), message).parser;
    assert q.logs[0].events == [] + [Received(message, 1)];
    LogBookGrows(FULL_DEPTH, [], Received(message, 1));
    assert [Level(0, 1)][..0] == [];
  }

  lemma BidHappens(price: string)
    ensures Happens([BidFrame(price)], 0, Start(INITIAL), BidRun(price)) && JustStarted(Start(INITIAL))
  {
    BidRunBegins(price);
    forall i | 0 <= i < 2
      ensures BidRun(price)[i].Arrives? ==> Genuine([BidFrame(price)], 0, BidRun(price)[i].arrival)
      ensures Fresh(HappenAll(Start(INITIAL), BidRun(price)[..i]).parser, BidRun(price)[i])
    {
      if i == 0 { assert BidRun(price)[0].Attaches?; } else { assert BidRun(price)[1].Arrives?; }
    }
  }

  /** A bid at any price past i64, twenty nines for instance: decoding is fine, and the receiver has it at price zero. */
  lemma TooLargePriceIsTaken(price: string)
    requires Decimals.AllDigits(price) && Decimals.Value(price) > I64_MAX
    ensures Happens([BidFrame(price)], 0, Start(INITIAL), BidRun(price)) && JustStarted(Start(INITIAL))
    ensures var now := HappenAll(Start(INITIAL), BidRun(price));
      && now.status == Fine && now.decoder.lastSequence == Some(0)
      && "X" in now.parser.routes && now.parser.routes["X"] == BidRoute(false)
      && 0 in now.parser.logs && CopyOf(now.parser, "X") == BookState(map[0 := 1], map[])
    ensures var history := History("X", [BidFrame(price)]);
      && NumbersSince(history) && !Stands(UNITS, BookState(map[0 := 1], map[]), VenueBook(history))
      && Decimals.IsDecimal(price) && VenueBook(history) == QuoteBook(map[Worth(price) := 1.0], map[])
  {
    BidHistory(price);
    BidIsMeant(price);
    BidIsMisread(price);
    BidHappens(price);
    BidRunEnds(price);
    BidIsEmitted(MakeMessage(Bid(price), Sides([Level(0, 1)], [], Fine), 0, 0));
  }
}

/** The class of coinbase/l2_decoder.h. */
module Coinbase {
  import opened Messages
  import opened CoinbaseSpec
  import L2Parsers

  class L2Decoder {
    var lastSequence: Option<u64>
    var lastHeartbeat: Option<u64>

    ghost function State(): Decoder
      reads this
    {
      Decoder(lastSequence, lastHeartbeat)
    }

    constructor ()
      ensures State() == NEW
    {
      lastSequence, lastHeartbeat := None, None;
    }

    method Decode(frame: Frame, captureTime: i64, output: L2Parsers.L2Parser) returns (status: Status)
      requires output.Valid() && output.running && output.check == None
      modifies this, output
      ensures output.Valid()
      ensures Decoding(State(), output.State(), status)
           == CoinbaseSpec.Decode(old(State()), old(output.State()), frame, captureTime)
    {
      if frame.Unnumbered? {
        return Fine;
      }
      var verdict := Advance(lastSequence, frame.sequence);
      if verdict.Stale? {
        return Fine;
      }
      if verdict.Skips? {
        return Threw;
      }
      lastSequence := Some(frame.sequence);
      match frame.body
      case Heartbeats(counters) => status := DecodeHeartbeats(counters);
      case L2Data(venueTime, events) => status := DecodeEvents(events, venueTime, captureTime, output);
      case OtherChannel => status := Fine;
    }

    static method Advance(last: Option<u64>, next: u64) returns (verdict: Verdict)
      ensures verdict == Judge(last, next)
    {
      if last.Some? && next <= last.value {
        return Stale;
      }
      if last.Some? && next != last.value + 1 {
        return Skips;
      }
      verdict := Follows;
    }

    method DecodeHeartbeats(counters: seq<u64>) returns (status: Status)
      modifies this`lastHeartbeat
      ensures Beat(lastHeartbeat, status == Fine) == Hear(old(lastHeartbeat), counters) && status != Undefined
    {
      var i := 0;
      while i < |counters|
        invariant 0 <= i <= |counters|
        invariant Hear(old(lastHeartbeat), counters[..i]) == Beat(lastHeartbeat, true)
      {
        assert counters[..i + 1][..i] == counters[..i];
        var verdict := Advance(lastHeartbeat, counters[i]);
        if verdict.Skips? {
          HearStops(old(lastHeartbeat), counters, i + 1);
          return Threw;
        }
        if verdict.Follows? {
          lastHeartbeat := Some(counters[i]);
        }
        i := i + 1;
      }
      assert counters[..i] == counters;
      status := Fine;
    }

    static method DecodeEvents(events: seq<BookEvent>, venueTime: i64, captureTime: i64, output: L2Parsers.L2Parser)
      returns (status: Status)
      requires output.Valid() && output.running && output.check == None
      modifies output
      ensures output.Valid()
      ensures Output(output.State(), status)
           == CoinbaseSpec.DecodeEvents(old(output.State()), events, venueTime, captureTime)
    {
      var i := 0;
      ghost var was := output.State();
      while i < |events|
        invariant 0 <= i <= |events|
        invariant output.Valid() && output.running
        invariant CoinbaseSpec.DecodeEvents(was, events[..i], venueTime, captureTime) == Output(output.State(), Fine)
      {
        assert events[..i + 1][..i] == events[..i];
        status := DecodeEvent(events[i], venueTime, captureTime, output);
        if status != Fine {
          DecodingStops(was, events, venueTime, captureTime, i + 1);
          return;
        }
        i := i + 1;
      }
      assert events[..i] == events;
      status := Fine;
    }

    static method DecodeEvent(event: BookEvent, venueTime: i64, captureTime: i64, output: L2Parsers.L2Parser)
      returns (status: Status)
      requires output.Valid() && output.running && output.check == None
      modifies output
      ensures output.Valid() && output.running
      ensures Output(output.State(), status)
           == CoinbaseSpec.DecodeEvent(old(output.State()), event, venueTime, captureTime)
    {
      if !IsKind(event.kind) {
        return Threw;
      }
      var kind := KindOf(event.kind);
      var precision := output.Find(event.product, kind);
      if precision.None? {
        return Fine;
      }
      var sides := DecodeLevels(event.updates, precision.value);
      if sides.status != Fine {
        return sides.status;
      }
      var mismatch := output.Emit(MakeMessage(event, sides, venueTime, captureTime));
      status := Fine;
    }

    static method DecodeLevels(updates: seq<Change>, precision: Precision) returns (sides: Sides)
      ensures sides == ReadLevels(updates, precision)
    {
      sides := Sides([], [], Fine);
      var i := 0;
      while i < |updates|
        invariant 0 <= i <= |updates|
        invariant sides == ReadLevels(updates[..i], precision) && sides.status == Fine
      {
        assert updates[..i + 1][..i] == updates[..i];
        sides := AddLevel(sides, updates[i], precision);
        if sides.status != Fine {
          ReadingStops(updates, precision, i + 1);
          return;
        }
        i := i + 1;
      }
      assert updates[..i] == updates;
    }
  }
}
