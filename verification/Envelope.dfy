/**
  The frames a client is sent (frontend/wire.cc): a MarketDataEvent's sequence, send time and
  payload header written by hand in front of the payload's own bytes. Read back here as the
  Protocol Buffers encoding guide says ("Base 128 Varints", "Message Structure"): fields in any order, the
  last scalar wins, and embedded messages of one field are concatenated.
 */
module Envelope {
  import opened Messages
  import opened LittleEndian

  const U32_RANGE: nat := 0x1_0000_0000
  const U64_RANGE: nat := 0x1_0000_0000_0000_0000

  const VARINT: nat := 0
  const FIXED64: nat := 1
  const LENGTH_DELIMITED: nat := 2

  const SEQUENCE: nat := 1
  const SEND_TIME: nat := 2

  /** StreamInfo, Book, FeedStatus, Heartbeat and CommandResult. */
  predicate IsPayload(number: nat) { 3 <= number <= 7 }

  // ----- Writing --------------------------------------------------------------------

  function PutVarint(n: nat): (bytes: seq<byte>)
    ensures bytes != []
  {
    if n < 128 then [n] else [128 + n % 128] + PutVarint(n / 128)
  }

  function Range128(k: nat): (r: nat)
    ensures r >= 1
  {
    if k == 0 then 1 else 128 * Range128(k - 1)
  }

  /** (field number << 3) | wire type. */
  function Tag(number: nat, wireType: nat): nat { number * 8 + wireType }

  function Header(sequence: u64, sendTime: i64, number: nat, size: nat): seq<byte> {
    PutVarint(Tag(SEQUENCE, VARINT)) + PutVarint(sequence)
    + PutVarint(Tag(SEND_TIME, FIXED64)) + Put64(Unsigned(sendTime))
    + PutVarint(Tag(number, LENGTH_DELIMITED)) + PutVarint(size % U32_RANGE)
  }

  function Frame(sequence: u64, sendTime: i64, number: nat, payload: seq<byte>): seq<byte> {
    Header(sequence, sendTime, number, |payload|) + payload
  }

  /** Seven bits a byte, the lowest first, and a high bit on every byte but the last. */
  lemma {:induction false} VarintBytes(n: nat, k: nat)
    requires k < |PutVarint(n)|
    ensures PutVarint(n)[k] % 128 == n / Range128(k) % 128
    ensures PutVarint(n)[k] >= 128 <==> k < |PutVarint(n)| - 1
    decreases k
  {
    if n >= 128 && k > 0 {
      VarintBytes(n / 128, k - 1);
      DivideTwice(n, Range128(k - 1));
    }
  }

  lemma DivideTwice(n: nat, r: nat)
    requires r >= 1
    ensures n / 128 / r == n / (128 * r)
  {
    var q := n / 128 / r;
    assert q * r <= n / 128 < (q + 1) * r;
    assert q * (128 * r) <= n < (q + 1) * (128 * r) by {
      assert q * (128 * r) == 128 * (q * r) && (q + 1) * (128 * r) == 128 * ((q + 1) * r);
    }
    Quotient(n, 128 * r, q);
  }

  /** The three fields, each behind its number and wire type. */
  lemma FrameLayout(sequence: u64, sendTime: i64, number: nat, payload: seq<byte>)
    requires IsPayload(number)
    ensures Frame(sequence, sendTime, number, payload)
         == [0x08] + PutVarint(sequence) + [0x11] + Put64(Unsigned(sendTime))
            + [8 * number + 2] + PutVarint(|payload| % U32_RANGE) + payload
  {
  }

  method WriteVarint(out: seq<byte>, n: nat) returns (longer: seq<byte>)
    ensures longer == out + PutVarint(n)
  {
    longer := out;
    var left := n;
    while left >= 128
      invariant left >= 0
      invariant longer + PutVarint(left) == out + PutVarint(n)
    {
      assert longer + PutVarint(left) == (longer + [128 + left % 128]) + PutVarint(left / 128);
      longer := longer + [128 + left % 128];
      left := left / 128;
    }
    longer := longer + [left];
  }

  method FrameHeader(sequence: u64, sendTime: i64, number: nat, payload: seq<byte>) returns (header: seq<byte>)
    ensures header == Header(sequence, sendTime, number, |payload|)
  {
    header := WriteVarint([], Tag(SEQUENCE, VARINT));
    header := WriteVarint(header, sequence);
    header := WriteVarint(header, Tag(SEND_TIME, FIXED64));
    header := header + Put64(Unsigned(sendTime));
    header := WriteVarint(header, Tag(number, LENGTH_DELIMITED));
    header := WriteVarint(header, |payload| % U32_RANGE);
  }

  // ----- Reading --------------------------------------------------------------------

  /** A varint of at most `most` bytes. */
  function TakeVarint(s: seq<byte>, most: nat): Taken<nat> {
    if s == [] || most == 0 then Short
    else if s[0] < 128 then Taken(s[0], s[1..])
    else
      match TakeVarint(s[1..], most - 1)
      case Short => Short
      case Taken(high, rest) => Taken(s[0] - 128 + 128 * high, rest)
  }

  datatype Field = Scalar(number: nat, value: u64) | Fixed(number: nat, value: u64) | Embedded(number: nat, bytes: seq<byte>)

  function TakeValue(number: nat, wireType: nat, s: seq<byte>): Taken<Field> {
    if wireType == VARINT then
      match TakeVarint(s, 10)
      case Short => Short
      case Taken(n, rest) => Taken(Scalar(number, n % U64_RANGE), rest)
    else if wireType == FIXED64 then
      match Take64(s)
      case Short => Short
      case Taken(n, rest) => Taken(Fixed(number, n), rest)
    else if wireType == LENGTH_DELIMITED then
      match TakeVarint(s, 5)
      case Short => Short
      case Taken(size, rest) => if size > |rest| then Short else Taken(Embedded(number, rest[..size]), rest[size..])
    else Short
  }

  function TakeField(s: seq<byte>): Taken<Field> {
    match TakeVarint(s, 5)
    case Short => Short
    case Taken(tag, rest) => if tag / 8 == 0 then Short else TakeValue(tag / 8, tag % 8, rest)
  }

  datatype Event = Event(sequence: u64, sendTime: i64, number: nat, payload: seq<byte>)

  const NOTHING := Event(0, 0, 0, [])

  function Absorb(e: Event, field: Field): Event {
    match field
    case Scalar(number, value) => if number == SEQUENCE then e.(sequence := value) else e
    case Fixed(number, value) => if number == SEND_TIME then e.(sendTime := Signed(value)) else e
    case Embedded(number, bytes) =>
      if !IsPayload(number) then e
      else e.(number := number, payload := (if e.number == number then e.payload else []) + bytes)
  }

  lemma {:induction false} VarintShrinks(s: seq<byte>, most: nat)
    ensures TakeVarint(s, most).Taken? ==> |TakeVarint(s, most).rest| < |s|
  {
    if s != [] && most > 0 { VarintShrinks(s[1..], most - 1); }
  }

  /** A field takes at least its tag, besides the bytes it embeds. */
  lemma FieldShrinks(s: seq<byte>)
    requires TakeField(s).Taken?
    ensures |TakeField(s).rest| < |s|
    ensures TakeField(s).value.Embedded? ==> |TakeField(s).value.bytes| + |TakeField(s).rest| < |s|
  {
    VarintShrinks(s, 5);
    var rest := TakeVarint(s, 5).rest;
    VarintShrinks(rest, 10);
    VarintShrinks(rest, 5);
  }

  /** None if the bytes are no message. */
  function ParseOnto(e: Event, s: seq<byte>): Option<Event>
    decreases |s|
  {
    if s == [] then Some(e)
    else
      match TakeField(s)
      case Short => None
      case Taken(field, rest) =>
        FieldShrinks(s);
        ParseOnto(Absorb(e, field), rest)
  }

  function Parse(s: seq<byte>): Option<Event> { ParseOnto(NOTHING, s) }

  // ----- Round trip -----------------------------------------------------------------

  lemma {:induction false} TakesVarint(n: nat, most: nat, rest: seq<byte>)
    requires most > 0 && n < Range128(most)
    ensures TakeVarint(PutVarint(n) + rest, most) == Taken(n, rest)
  {
    if n < 128 {
      assert ([n] + rest)[1..] == rest;
    } else {
      assert (PutVarint(n) + rest)[1..] == PutVarint(n / 128) + rest;
      TakesVarint(n / 128, most - 1, rest);
    }
  }

  lemma VarintRanges()
    ensures Range128(5) >= U32_RANGE && Range128(10) >= U64_RANGE
  {
    assert Range128(3) == 0x20_0000;
    assert Range128(5) == 0x8_0000_0000;
    assert Range128(8) == 0x100_0000_0000_0000;
  }

  lemma TakesTag(number: nat, wireType: nat, rest: seq<byte>)
    requires 1 <= number < 0x2000_0000 && wireType < 8
    ensures TakeField(PutVarint(Tag(number, wireType)) + rest) == TakeValue(number, wireType, rest)
  {
    VarintRanges();
    TakesVarint(Tag(number, wireType), 5, rest);
  }

  lemma TakesSequence(sequence: u64, rest: seq<byte>)
    ensures TakeField(PutVarint(Tag(SEQUENCE, VARINT)) + (PutVarint(sequence) + rest)) == Taken(Scalar(SEQUENCE, sequence), rest)
  {
    assert sequence < Range128(10) by { VarintRanges(); }
    TakesVarint(sequence, 10, rest);
    TakesTag(SEQUENCE, VARINT, PutVarint(sequence) + rest);
  }

  lemma TakesSendTime(sendTime: i64, rest: seq<byte>)
    ensures TakeField(PutVarint(Tag(SEND_TIME, FIXED64)) + (Put64(Unsigned(sendTime)) + rest))
         == Taken(Fixed(SEND_TIME, Unsigned(sendTime)), rest)
  {
    TakesTag(SEND_TIME, FIXED64, Put64(Unsigned(sendTime)) + rest);
    Takes64(Unsigned(sendTime), rest);
  }

  lemma TakesPayload(number: nat, size: nat, payload: seq<byte>)
    requires 1 <= number < 0x2000_0000 && size < U32_RANGE && size <= |payload|
    ensures TakeField(PutVarint(Tag(number, LENGTH_DELIMITED)) + (PutVarint(size) + payload))
         == Taken(Embedded(number, payload[..size]), payload[size..])
  {
    TakesTag(number, LENGTH_DELIMITED, PutVarint(size) + payload);
    VarintRanges();
    TakesVarint(size, 5, payload);
  }

  lemma FrameInOrder(sequence: u64, sendTime: i64, number: nat, payload: seq<byte>)
    ensures Frame(sequence, sendTime, number, payload)
         == PutVarint(Tag(SEQUENCE, VARINT)) + (PutVarint(sequence)
            + (PutVarint(Tag(SEND_TIME, FIXED64)) + (Put64(Unsigned(sendTime))
               + (PutVarint(Tag(number, LENGTH_DELIMITED)) + (PutVarint(|payload| % U32_RANGE) + payload)))))
  {
  }

  /** What is left to read once the header is. */
  lemma ReadsHeader(sequence: u64, sendTime: i64, number: nat, payload: seq<byte>)
    requires IsPayload(number)
    ensures var size := |payload| % U32_RANGE;
      Parse(Frame(sequence, sendTime, number, payload))
      == ParseOnto(Event(sequence, sendTime, number, payload[..size]), payload[size..])
  {
    var size := |payload| % U32_RANGE;
    var third := PutVarint(Tag(number, LENGTH_DELIMITED)) + (PutVarint(size) + payload);
    var second := PutVarint(Tag(SEND_TIME, FIXED64)) + (Put64(Unsigned(sendTime)) + third);
    FrameInOrder(sequence, sendTime, number, payload);
    TakesSequence(sequence, second);
    TakesSendTime(sendTime, third);
    TakesPayload(number, size, payload);
    var e := NOTHING.(sequence := sequence);
    var timed := e.(sendTime := sendTime);
    assert Absorb(e, Fixed(SEND_TIME, Unsigned(sendTime))) == timed;
    assert [] + payload[..size] == payload[..size];
    assert Absorb(timed, Embedded(number, payload[..size])) == Event(sequence, sendTime, number, payload[..size]);
    ParsesField(NOTHING, Frame(sequence, sendTime, number, payload), Scalar(SEQUENCE, sequence), second);
    ParsesField(e, second, Fixed(SEND_TIME, Unsigned(sendTime)), third);
    ParsesField(timed, third, Embedded(number, payload[..size]), payload[size..]);
  }

  lemma ParsesField(e: Event, s: seq<byte>, field: Field, rest: seq<byte>)
    requires TakeField(s) == Taken(field, rest)
    ensures ParseOnto(e, s) == ParseOnto(Absorb(e, field), rest)
  {
  }

  lemma {:induction false} ParsingLosesBytes(e: Event, s: seq<byte>)
    ensures ParseOnto(e, s).Some? && s != [] ==> |ParseOnto(e, s).value.payload| < |e.payload| + |s|
    decreases |s|
  {
    if s != [] && TakeField(s).Taken? {
      FieldShrinks(s);
      ParsingLosesBytes(Absorb(e, TakeField(s).value), TakeField(s).rest);
    }
  }

  /**
    A frame parses back to exactly what was framed, for every sequence, time and payload, as long as
    the payload's size fits the u32 it is written as; past that it never does.
   */
  lemma FrameParsesBack(sequence: u64, sendTime: i64, number: nat, payload: seq<byte>)
    requires IsPayload(number)
    ensures Parse(Frame(sequence, sendTime, number, payload)) == Some(Event(sequence, sendTime, number, payload))
      <==> |payload| < U32_RANGE
  {
    var size := |payload| % U32_RANGE;
    ReadsHeader(sequence, sendTime, number, payload);
    if |payload| < U32_RANGE {
      assert payload[..size] == payload && payload[size..] == [];
    } else {
      assert payload[size..] != [];
      ParsingLosesBytes(Event(sequence, sendTime, number, payload[..size]), payload[size..]);
    }
  }
}
