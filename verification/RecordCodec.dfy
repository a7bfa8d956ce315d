/** Fixed-width little-endian integers, as the recordings and the wire hold them. */
module LittleEndian {
  import opened Messages

  type byte = x: int | 0 <= x < 256

  function Range(size: nat): (r: nat)
    ensures r >= 1
  {
    if size == 0 then 1 else 256 * Range(size - 1)
  }

  lemma Widths()
    ensures Range(4) == 0x1_0000_0000 && Range(8) == 0x1_0000_0000_0000_0000
  {
    assert Range(2) == 0x1_0000;
    assert Range(6) == 0x1_0000_0000_0000;
  }

  function Put(n: nat, size: nat): (bytes: seq<byte>)
    requires n < Range(size)
    ensures |bytes| == size
  {
    if size == 0 then [] else [n % 256] + Put(n / 256, size - 1)
  }

  function Get(bytes: seq<byte>): (n: nat)
    ensures n < Range(|bytes|)
  {
    if bytes == [] then 0 else bytes[0] + 256 * Get(bytes[1..])
  }

  lemma {:induction false} PutGet(n: nat, size: nat)
    requires n < Range(size)
    ensures Get(Put(n, size)) == n
  {
    if size > 0 { PutGet(n / 256, size - 1); }
  }

  /** The byte at `k` counts 256^k. */
  lemma {:induction false} LowestFirst(n: nat, size: nat, k: nat)
    requires n < Range(size) && k < size
    ensures Put(n, size)[k] == n / Range(k) % 256
    decreases k
  {
    if k > 0 {
      LowestFirst(n / 256, size - 1, k - 1);
      DivideTwice(n, Range(k - 1));
    }
  }

  lemma DivideTwice(n: nat, r: nat)
    requires r >= 1
    ensures n / 256 / r == n / (256 * r)
  {
    var q := n / 256 / r;
    assert q * r <= n / 256 < (q + 1) * r;
    assert q * (256 * r) <= n < (q + 1) * (256 * r) by {
      assert q * (256 * r) == 256 * (q * r) && (q + 1) * (256 * r) == 256 * ((q + 1) * r);
    }
    Quotient(n, 256 * r, q);
  }

  lemma Quotient(n: nat, d: nat, q: nat)
    requires d >= 1 && q * d <= n < (q + 1) * d
    ensures n / d == q
  {
    var m := n / d;
    assert m * d <= n < (m + 1) * d;
    if m < q { MulLe(m + 1, q, d); }
    if q < m { MulLe(q + 1, m, d); }
  }

  lemma MulLe(a: nat, b: nat, k: nat)
    requires a <= b
    ensures a * k <= b * k
  {
  }

  function Put32(n: u32): (bytes: seq<byte>)
    ensures |bytes| == 4
  {
    Widths();
    Put(n, 4)
  }

  /** Two's complement. */
  function Unsigned(x: i64): u64 { if x < 0 then x + 0x1_0000_0000_0000_0000 else x }

  function Signed(n: u64): i64 { if n <= I64_MAX then n else n - 0x1_0000_0000_0000_0000 }

  function Put64(n: u64): (bytes: seq<byte>)
    ensures |bytes| == 8
  {
    Widths();
    Put(n, 8)
  }

  /** A value and the bytes left behind it. */
  datatype Taken<T> = Short | Taken(value: T, rest: seq<byte>)

  function Take32(s: seq<byte>): Taken<u32> {
    Widths();
    if |s| < 4 then Short else Taken(Get(s[..4]), s[4..])
  }

  function Take64(s: seq<byte>): Taken<u64> {
    Widths();
    if |s| < 8 then Short else Taken(Get(s[..8]), s[8..])
  }

  lemma Takes32(n: u32, rest: seq<byte>)
    ensures Take32(Put32(n) + rest) == Taken(n, rest)
  {
    Widths();
    PutGet(n, 4);
    assert (Put32(n) + rest)[..4] == Put32(n);
  }

  lemma Takes64(n: u64, rest: seq<byte>)
    ensures Take64(Put64(n) + rest) == Taken(n, rest)
  {
    Widths();
    PutGet(n, 8);
    assert (Put64(n) + rest)[..8] == Put64(n);
  }

  lemma More32(s: seq<byte>, more: seq<byte>)
    requires Take32(s).Taken?
    ensures Take32(s + more) == Taken(Take32(s).value, Take32(s).rest + more)
  {
    assert (s + more)[..4] == s[..4] && (s + more)[4..] == s[4..] + more;
  }

  lemma More64(s: seq<byte>, more: seq<byte>)
    requires Take64(s).Taken?
    ensures Take64(s + more) == Taken(Take64(s).value, Take64(s).rest + more)
  {
    assert (s + more)[..8] == s[..8] && (s + more)[8..] == s[8..] + more;
  }
}

/**
  The records of a recording (l2/message.cc, layout in l2/message.h) and its header
  (l2/file_header.h), with the reader the layout implies.
 */
module RecordSpec {
  import opened Messages
  import opened LittleEndian

  /** The bytes of that many levels. */
  function LevelBytes(count: nat): nat { 16 * count }

  function KindCode(kind: Kind): u32 { if kind.Snapshot? then 1 else 0 }

  function PutLevel(level: Level): (bytes: seq<byte>)
    ensures |bytes| == 16
  {
    Put64(Unsigned(level.price)) + Put64(Unsigned(level.quantity))
  }

  function PutLevels(levels: seq<Level>): (bytes: seq<byte>)
    ensures |bytes| == LevelBytes(|levels|)
  {
    if levels == [] then []
    else PutLevels(levels[..|levels| - 1]) + PutLevel(levels[|levels| - 1])
  }

  /** The byte count of a side fits the u64 it is written as, as it must for the side to fit in memory. */
  predicate Sized(levels: seq<Level>) { LevelBytes(|levels|) < 0x1_0000_0000_0000_0000 }

  predicate Writable(m: Message) { Sized(m.buys) && Sized(m.sells) }

  function PutSide(levels: seq<Level>): (bytes: seq<byte>)
    requires Sized(levels)
    ensures |bytes| == 8 + LevelBytes(|levels|)
  {
    Put64(LevelBytes(|levels|)) + PutLevels(levels)
  }

  function PutPrefix(m: Message): (bytes: seq<byte>)
    ensures |bytes| == 24
  {
    Put32(KindCode(m.kind)) + (Put32(m.checksum) + (Put64(Unsigned(m.venueTime)) + Put64(Unsigned(m.captureTime))))
  }

  function GetByteSize(m: Message): nat { 4 + 4 + 8 + 8 + 8 + LevelBytes(|m.buys|) + 8 + LevelBytes(|m.sells|) }

  function Record(m: Message): (bytes: seq<byte>)
    requires Writable(m)
    ensures |bytes| == GetByteSize(m)
  {
    PutPrefix(m) + (PutSide(m.buys) + PutSide(m.sells))
  }

  type Storable = m: Message | Writable(m) witness Message(Update, 0, 0, 0, "", [], [])

  function Records(ms: seq<Storable>): seq<byte>
  {
    if ms == [] then [] else Record(ms[0]) + Records(ms[1..])
  }

  // ----- The reader -----------------------------------------------------------------

  function TakeLevel(s: seq<byte>): Taken<Level> {
    match Take64(s)
    case Short => Short
    case Taken(price, afterPrice) =>
      match Take64(afterPrice)
      case Short => Short
      case Taken(quantity, rest) => Taken(Level(Signed(price), Signed(quantity)), rest)
  }

  function TakeLevels(s: seq<byte>, count: nat): Taken<seq<Level>> {
    if count == 0 then Taken([], s)
    else
      match TakeLevel(s)
      case Short => Short
      case Taken(level, afterLevel) =>
        match TakeLevels(afterLevel, count - 1)
        case Short => Short
        case Taken(levels, rest) => Taken([level] + levels, rest)
  }

  function TakeSide(s: seq<byte>): Taken<seq<Level>> {
    match Take64(s)
    case Short => Short
    case Taken(size, rest) => if size % 16 != 0 then Short else TakeLevels(rest, size / 16)
  }

  function TakePrefix(s: seq<byte>): Taken<Message> {
    match Take32(s)
    case Short => Short
    case Taken(code, afterCode) =>
      if code > 1 then Short
      else
        match Take32(afterCode)
        case Short => Short
        case Taken(checksum, afterChecksum) =>
          match Take64(afterChecksum)
          case Short => Short
          case Taken(venueTime, afterVenueTime) =>
            match Take64(afterVenueTime)
            case Short => Short
            case Taken(captureTime, rest) =>
              Taken(Message(if code == 1 then Snapshot else Update, checksum, Signed(venueTime), Signed(captureTime), "", [], []),
                    rest)
  }

  function TakeRecord(s: seq<byte>): Taken<Message> {
    match TakePrefix(s)
    case Short => Short
    case Taken(m, afterPrefix) =>
      match TakeSide(afterPrefix)
      case Short => Short
      case Taken(buys, afterBuys) =>
        match TakeSide(afterBuys)
        case Short => Short
        case Taken(sells, rest) => Taken(m.(buys := buys, sells := sells), rest)
  }

  lemma {:induction false} LevelsShrink(s: seq<byte>, count: nat)
    ensures TakeLevels(s, count).Taken? ==> |TakeLevels(s, count).rest| == |s| - LevelBytes(count)
  {
    if count > 0 && TakeLevels(s, count).Taken? {
      LevelsShrink(TakeLevel(s).rest, count - 1);
    }
  }

  lemma RecordShrinks(s: seq<byte>)
    requires TakeRecord(s).Taken?
    ensures |TakeRecord(s).rest| < |s|
  {
    var afterPrefix := TakePrefix(s).rest;
    var afterBuys := TakeSide(afterPrefix).rest;
    LevelsShrink(Take64(afterPrefix).rest, Take64(afterPrefix).value / 16);
    LevelsShrink(Take64(afterBuys).rest, Take64(afterBuys).value / 16);
  }

  /** Every whole record, up to the end or to one cut short. */
  function ReadRecords(s: seq<byte>): seq<Message>
    decreases |s|
  {
    match TakeRecord(s)
    case Short => []
    case Taken(m, rest) =>
      RecordShrinks(s);
      [m] + ReadRecords(rest)
  }

  // ----- Round trip -----------------------------------------------------------------

  lemma Associates(a: seq<byte>, b: seq<byte>, c: seq<byte>)
    ensures (a + b) + c == a + (b + c)
  {
  }

  lemma {:induction false} FirstLevel(levels: seq<Level>)
    requires levels != []
    ensures PutLevels(levels) == PutLevel(levels[0]) + PutLevels(levels[1..])
  {
    var n := |levels| - 1;
    if n == 0 {
      assert levels[..0] == [] && levels[1..] == [];
    } else {
      FirstLevel(levels[..n]);
      assert levels[..n][1..] == levels[1..][..n - 1] && levels[..n][0] == levels[0];
      assert levels[1..][n - 1] == levels[n];
      Associates(PutLevel(levels[0]), PutLevels(levels[1..][..n - 1]), PutLevel(levels[n]));
    }
  }

  lemma {:induction false} TakesLevels(levels: seq<Level>, rest: seq<byte>)
    ensures TakeLevels(PutLevels(levels) + rest, |levels|) == Taken(levels, rest)
  {
    if levels == [] {
      assert PutLevels(levels) + rest == rest;
    } else {
      var others := PutLevels(levels[1..]);
      FirstLevel(levels);
      Associates(PutLevel(levels[0]), others, rest);
      TakesLevel(levels[0], others + rest);
      TakesLevels(levels[1..], rest);
      assert [levels[0]] + levels[1..] == levels;
    }
  }

  lemma TakesLevel(level: Level, rest: seq<byte>)
    ensures TakeLevel(PutLevel(level) + rest) == Taken(level, rest)
  {
    var price, quantity := Put64(Unsigned(level.price)), Put64(Unsigned(level.quantity));
    Associates(price, quantity, rest);
    Takes64(Unsigned(level.price), quantity + rest);
    Takes64(Unsigned(level.quantity), rest);
  }

  lemma LevelsAreWhole(count: nat)
    ensures LevelBytes(count) % 16 == 0 && LevelBytes(count) / 16 == count
  {
  }

  lemma TakesSide(levels: seq<Level>, rest: seq<byte>)
    requires Sized(levels)
    ensures TakeSide(PutSide(levels) + rest) == Taken(levels, rest)
  {
    Associates(Put64(LevelBytes(|levels|)), PutLevels(levels), rest);
    LevelsAreWhole(|levels|);
    Takes64(LevelBytes(|levels|), PutLevels(levels) + rest);
    TakesLevels(levels, rest);
  }

  lemma TakesPrefix(m: Message, rest: seq<byte>)
    ensures TakePrefix(PutPrefix(m) + rest) == Taken(m.(symbol := "", buys := [], sells := []), rest)
  {
    var checksum, venueTime, captureTime := Put32(m.checksum), Put64(Unsigned(m.venueTime)), Put64(Unsigned(m.captureTime));
    assert PutPrefix(m) + rest == Put32(KindCode(m.kind)) + (checksum + (venueTime + (captureTime + rest)));
    Takes32(KindCode(m.kind), checksum + (venueTime + (captureTime + rest)));
    Takes32(m.checksum, venueTime + (captureTime + rest));
    Takes64(Unsigned(m.venueTime), captureTime + rest);
    Takes64(Unsigned(m.captureTime), rest);
  }

  /** A message as a recording holds it: the symbol is in the header. */
  function Bare(m: Message): Message { m.(symbol := "") }

  lemma TakesRecord(m: Message, rest: seq<byte>)
    requires Writable(m)
    ensures TakeRecord(Record(m) + rest) == Taken(Bare(m), rest)
  {
    var buys, sells := PutSide(m.buys), PutSide(m.sells);
    assert Record(m) + rest == PutPrefix(m) + (buys + (sells + rest));
    TakesPrefix(m, buys + (sells + rest));
    TakesSide(m.buys, sells + rest);
    TakesSide(m.sells, rest);
  }

  // ----- A record cut short is not read at all --------------------------------------

  lemma {:induction false} MoreLevels(s: seq<byte>, more: seq<byte>, count: nat)
    requires TakeLevels(s, count).Taken?
    ensures TakeLevels(s + more, count) == Taken(TakeLevels(s, count).value, TakeLevels(s, count).rest + more)
  {
    if count > 0 {
      More64(s, more);
      More64(Take64(s).rest, more);
      MoreLevels(TakeLevel(s).rest, more, count - 1);
    }
  }

  lemma MoreSide(s: seq<byte>, more: seq<byte>)
    requires TakeSide(s).Taken?
    ensures TakeSide(s + more) == Taken(TakeSide(s).value, TakeSide(s).rest + more)
  {
    More64(s, more);
    MoreLevels(Take64(s).rest, more, Take64(s).value / 16);
  }

  lemma MorePrefix(s: seq<byte>, more: seq<byte>)
    requires TakePrefix(s).Taken?
    ensures TakePrefix(s + more) == Taken(TakePrefix(s).value, TakePrefix(s).rest + more)
  {
    var afterCode := Take32(s).rest;
    var afterChecksum := Take32(afterCode).rest;
    var afterVenueTime := Take64(afterChecksum).rest;
    More32(s, more);
    More32(afterCode, more);
    More64(afterChecksum, more);
    More64(afterVenueTime, more);
  }

  /** Bytes behind a record do not change how it reads. */
  lemma MoreRecord(s: seq<byte>, more: seq<byte>)
    requires TakeRecord(s).Taken?
    ensures TakeRecord(s + more) == Taken(TakeRecord(s).value, TakeRecord(s).rest + more)
  {
    var afterPrefix := TakePrefix(s).rest;
    MorePrefix(s, more);
    MoreSide(afterPrefix, more);
    MoreSide(TakeSide(afterPrefix).rest, more);
  }

  lemma CutRecordIsShort(m: Message, n: nat)
    requires Writable(m) && n < |Record(m)|
    ensures TakeRecord(Record(m)[..n]).Short?
  {
    var cut, more := Record(m)[..n], Record(m)[n..];
    assert cut + more == Record(m) && |more| > 0;
    assert Record(m) == Record(m) + [];
    TakesRecord(m, []);
    if TakeRecord(cut).Taken? {
      MoreRecord(cut, more);
    }
  }

  function BareAll(ms: seq<Storable>): seq<Message> {
    if ms == [] then [] else [Bare(ms[0])] + BareAll(ms[1..])
  }

  /** Cut anywhere, the records read back as a prefix: every one that is whole, and nothing else. */
  lemma {:induction false} CutRecordsReadBack(ms: seq<Storable>, n: nat) returns (k: nat)
    requires n <= |Records(ms)|
    ensures k <= |ms| && ReadRecords(Records(ms)[..n]) == BareAll(ms[..k])
    ensures |Records(ms[..k])| <= n
    ensures k < |ms| ==> n < |Records(ms[..k + 1])|
  {
    if ms == [] {
      k := 0;
    } else if n < |Record(ms[0])| {
      k := 0;
      CutInFirst(ms, n);
    } else {
      var j := CutRecordsReadBack(ms[1..], n - |Record(ms[0])|);
      k := j + 1;
      CutLater(ms, n, j);
      RecordsOfPrefix(ms, j + 1);
      if j + 1 < |ms| { RecordsOfPrefix(ms, j + 2); }
    }
  }

  lemma CutInFirst(ms: seq<Storable>, n: nat)
    requires ms != [] && n < |Record(ms[0])|
    ensures n <= |Records(ms)| && ReadRecords(Records(ms)[..n]) == [] && n < |Records(ms[..1])|
  {
    assert Records(ms)[..n] == Record(ms[0])[..n];
    CutRecordIsShort(ms[0], n);
    assert ms[..1] == [ms[0]] && ms[..1][1..] == [];
  }

  lemma CutLater(ms: seq<Storable>, n: nat, j: nat)
    requires ms != [] && |Record(ms[0])| <= n <= |Records(ms)| && j < |ms|
    requires ReadRecords(Records(ms[1..])[..n - |Record(ms[0])|]) == BareAll(ms[1..][..j])
    ensures ReadRecords(Records(ms)[..n]) == BareAll(ms[..j + 1])
  {
    var later := Records(ms[1..]);
    TakesRecord(ms[0], later[..n - |Record(ms[0])|]);
    ReadsFirst(Record(ms[0]), later, Bare(ms[0]), n);
    BareGrows(ms, j);
  }

  lemma BareGrows(ms: seq<Storable>, j: nat)
    requires j < |ms|
    ensures BareAll(ms[..j + 1]) == [Bare(ms[0])] + BareAll(ms[1..][..j])
  {
    assert ms[..j + 1][1..] == ms[1..][..j];
  }

  lemma SliceOfSum(a: seq<byte>, b: seq<byte>, n: nat)
    requires |a| <= n <= |a| + |b|
    ensures (a + b)[..n] == a + b[..n - |a|]
  {
  }

  lemma ReadsFirst(first: seq<byte>, later: seq<byte>, m: Message, n: nat)
    requires |first| <= n <= |first| + |later|
    requires TakeRecord(first + later[..n - |first|]) == Taken(m, later[..n - |first|])
    ensures ReadRecords((first + later)[..n]) == [m] + ReadRecords(later[..n - |first|])
  {
    SliceOfSum(first, later, n);
  }

  lemma RecordsOfPrefix(ms: seq<Storable>, k: nat)
    requires 0 < k <= |ms|
    ensures Records(ms[..k]) == Record(ms[0]) + Records(ms[1..][..k - 1])
  {
    assert ms[..k][1..] == ms[1..][..k - 1];
  }

  /** Reading what was written gives every message back. */
  lemma {:induction false} RecordsReadBack(ms: seq<Storable>)
    ensures ReadRecords(Records(ms)) == BareAll(ms)
  {
    if ms != [] {
      TakesRecord(ms[0], Records(ms[1..]));
      RecordsReadBack(ms[1..]);
    }
  }

  lemma {:induction false} RecordsGrow(ms: seq<Storable>, k: nat)
    requires k <= |ms|
    ensures Records(ms) == Records(ms[..k]) + Records(ms[k..])
  {
    if k == 0 {
      assert ms[..0] == [] && ms[0..] == ms;
    } else {
      RecordsGrow(ms[1..], k - 1);
      RecordsOfPrefix(ms, k);
      assert ms[1..][k - 1..] == ms[k..];
      Associates(Record(ms[0]), Records(ms[1..][..k - 1]), Records(ms[k..]));
    }
  }

  // ----- The header -----------------------------------------------------------------

  const TEXT_SIZE: nat := 16
  const HEADER_SIZE: nat := 64
  const FORMAT_VERSION: u32 := 1

  /** "KRKNL2", zero padded. */
  const MAGIC: seq<byte> := [75, 82, 75, 78, 76, 50, 0, 0]

  type Text = s: seq<byte> | |s| == TEXT_SIZE witness seq(TEXT_SIZE, _ => 0)

  datatype FileHeader = FileHeader(
    formatVersion: u32, depth: u32, priceDecimals: u32, qtyDecimals: u32, startTime: i64, venue: Text, symbol: Text)

  function FixedText(value: seq<byte>): Text {
    if |value| >= TEXT_SIZE then value[..TEXT_SIZE] else value + seq(TEXT_SIZE - |value|, _ => 0)
  }

  /** A reader takes the bytes before the first zero, or all of them. */
  function TextOf(field: seq<byte>): seq<byte> {
    if field == [] || field[0] == 0 then [] else [field[0]] + TextOf(field[1..])
  }

  lemma {:induction false} TextEnds(value: seq<byte>, zeros: nat)
    requires 0 !in value
    ensures TextOf(value + seq(zeros, _ => 0)) == value
  {
    if value != [] {
      var s := value + seq(zeros, _ => 0);
      assert s[1..] == value[1..] + seq(zeros, _ => 0);
      assert value[0] in value;
      TextEnds(value[1..], zeros);
    }
  }

  /** A text of up to sixteen bytes reads back whole, a longer one cut. */
  lemma TextReadsBack(value: seq<byte>)
    requires 0 !in value
    ensures TextOf(FixedText(value)) == if |value| <= TEXT_SIZE then value else value[..TEXT_SIZE]
  {
    if |value| >= TEXT_SIZE {
      TextEnds(value[..TEXT_SIZE], 0);
      assert value[..TEXT_SIZE] + seq(0, _ => 0) == value[..TEXT_SIZE];
    } else {
      TextEnds(value, TEXT_SIZE - |value|);
    }
  }

  function PutNumbers(h: FileHeader): (bytes: seq<byte>)
    ensures |bytes| == 24
  {
    Put32(h.formatVersion) + (Put32(h.depth) + (Put32(h.priceDecimals) + (Put32(h.qtyDecimals) + Put64(Unsigned(h.startTime)))))
  }

  function Header(h: FileHeader): (bytes: seq<byte>)
    ensures |bytes| == HEADER_SIZE
  {
    MAGIC + (PutNumbers(h) + (h.venue + h.symbol))
  }

  function TakeNumbers(s: seq<byte>, venue: Text, symbol: Text): Taken<FileHeader> {
    match Take32(s)
    case Short => Short
    case Taken(version, afterVersion) =>
      match Take32(afterVersion)
      case Short => Short
      case Taken(depth, afterDepth) =>
        match Take32(afterDepth)
        case Short => Short
        case Taken(priceDecimals, afterPrice) =>
          match Take32(afterPrice)
          case Short => Short
          case Taken(qtyDecimals, afterQty) =>
            match Take64(afterQty)
            case Short => Short
            case Taken(startTime, rest) =>
              Taken(FileHeader(version, depth, priceDecimals, qtyDecimals, Signed(startTime), venue, symbol), rest)
  }

  datatype File = NotAFile | File(header: FileHeader, messages: seq<Message>)

  /** Refuses anything without the magic, and any version but the one it knows. */
  function ReadFile(s: seq<byte>): File {
    if |s| < HEADER_SIZE || s[..8] != MAGIC then NotAFile
    else
      match TakeNumbers(s[8..32], s[32..48], s[48..64])
      case Short => NotAFile
      case Taken(h, _) => if h.formatVersion != FORMAT_VERSION then NotAFile else File(h, ReadRecords(s[HEADER_SIZE..]))
  }

  lemma TakesNumbers(h: FileHeader)
    ensures TakeNumbers(PutNumbers(h), h.venue, h.symbol) == Taken(h, [])
  {
    var depth, price, qty, start := Put32(h.depth), Put32(h.priceDecimals), Put32(h.qtyDecimals), Put64(Unsigned(h.startTime));
    Takes32(h.formatVersion, depth + (price + (qty + start)));
    Takes32(h.depth, price + (qty + start));
    Takes32(h.priceDecimals, qty + start);
    Takes32(h.qtyDecimals, start);
    assert start + [] == start;
    Takes64(Unsigned(h.startTime), []);
  }

  function FileBytes(h: FileHeader, ms: seq<Storable>): seq<byte>
  {
    Header(h) + Records(ms)
  }

  /** A recording cut anywhere past its header reads back its header and every whole record before the cut. */
  lemma CutFileReadsBack(h: FileHeader, ms: seq<Storable>, n: nat) returns (k: nat)
    requires h.formatVersion == FORMAT_VERSION
    requires HEADER_SIZE <= n <= |FileBytes(h, ms)|
    ensures k <= |ms| && ReadFile(FileBytes(h, ms)[..n]) == File(h, BareAll(ms[..k]))
    ensures HEADER_SIZE + |Records(ms[..k])| <= n
    ensures k < |ms| ==> n < HEADER_SIZE + |Records(ms[..k + 1])|
  {
    var cut := Records(ms)[..n - HEADER_SIZE];
    k := CutRecordsReadBack(ms, n - HEADER_SIZE);
    SliceOfSum(Header(h), Records(ms), n);
    ReadsHeader(h, cut);
  }

  lemma ReadsHeader(h: FileHeader, rest: seq<byte>)
    requires h.formatVersion == FORMAT_VERSION
    ensures ReadFile(Header(h) + rest) == File(h, ReadRecords(rest))
  {
    HeaderFields(h, rest);
    TakesNumbers(h);
  }

  function MakeFileHeader(venue: seq<byte>, symbol: seq<byte>, depth: u32, priceDecimals: u32, qtyDecimals: u32, startTime: i64): FileHeader {
    FileHeader(FORMAT_VERSION, depth, priceDecimals, qtyDecimals, startTime, FixedText(venue), FixedText(symbol))
  }

  /** A recording says on its own what its integers mean: a whole file reads back as it was written. */
  lemma RecordingDescribesItself(venue: seq<byte>, symbol: seq<byte>, depth: u32, priceDecimals: u32, qtyDecimals: u32,
                                 startTime: i64, ms: seq<Storable>)
    requires 0 !in venue && 0 !in symbol && |venue| <= TEXT_SIZE && |symbol| <= TEXT_SIZE
    ensures var h := MakeFileHeader(venue, symbol, depth, priceDecimals, qtyDecimals, startTime);
      var file := ReadFile(FileBytes(h, ms));
      && file == File(h, BareAll(ms))
      && file.header.formatVersion == 1 && file.header.startTime == startTime
      && file.header.depth == depth && file.header.priceDecimals == priceDecimals && file.header.qtyDecimals == qtyDecimals
      && TextOf(file.header.venue) == venue && TextOf(file.header.symbol) == symbol
  {
    var h := MakeFileHeader(venue, symbol, depth, priceDecimals, qtyDecimals, startTime);
    ReadsHeader(h, Records(ms));
    RecordsReadBack(ms);
    TextReadsBack(venue);
    TextReadsBack(symbol);
  }

  lemma HeaderFields(h: FileHeader, rest: seq<byte>)
    ensures var s := Header(h) + rest;
      && s[..8] == MAGIC && s[8..32] == PutNumbers(h) && s[32..48] == h.venue && s[48..64] == h.symbol
      && s[HEADER_SIZE..] == rest
  {
  }

  // ----- Alignment ------------------------------------------------------------------

  /** Where in the file the buys of the `k`th record are, and its sells. */
  function BuysAt(ms: seq<Storable>, k: nat): nat
    requires k < |ms|
  {
    HEADER_SIZE + |Records(ms[..k])| + 24 + 8
  }

  function SellsAt(ms: seq<Storable>, k: nat): nat
    requires k < |ms|
  {
    BuysAt(ms, k) + LevelBytes(|ms[k].buys|) + 8
  }

  predicate Aligned(n: nat) { n % 8 == 0 }

  lemma EightsAreAligned(n: nat)
    ensures Aligned(8 * n)
  {
  }

  /** The records' length in units of eight bytes. */
  function Eights(ms: seq<Storable>): nat {
    if ms == [] then 0 else 5 + 2 * |ms[0].buys| + 2 * |ms[0].sells| + Eights(ms[1..])
  }

  lemma {:induction false} RecordsAreEights(ms: seq<Storable>)
    ensures |Records(ms)| == 8 * Eights(ms)
  {
    if ms != [] {
      RecordsAreEights(ms[1..]);
      assert |Record(ms[0])| == 8 * (5 + 2 * |ms[0].buys| + 2 * |ms[0].sells|);
    }
  }

  /** Type, checksum, venue time, capture time and the buys' byte count, where the layout puts them. */
  lemma RecordLayout(m: Storable)
    ensures Record(m)[0..4] == Put32(if m.kind.Snapshot? then 1 else 0) && Record(m)[4..8] == Put32(m.checksum)
    ensures Record(m)[8..16] == Put64(Unsigned(m.venueTime)) && Record(m)[16..24] == Put64(Unsigned(m.captureTime))
    ensures Record(m)[24..32] == Put64(16 * |m.buys|)
  {
    var prefix, rest := PutPrefix(m), PutSide(m.buys) + PutSide(m.sells);
    assert prefix[0..4] == Put32(KindCode(m.kind)) && prefix[4..8] == Put32(m.checksum);
    assert prefix[8..16] == Put64(Unsigned(m.venueTime)) && prefix[16..24] == Put64(Unsigned(m.captureTime));
    forall i, j | 0 <= i <= j <= 24 ensures Record(m)[i..j] == prefix[i..j] {}
    assert rest[0..8] == Put64(LevelBytes(|m.buys|));
    assert Record(m)[24..32] == rest[0..8];
  }

  /** A level is its price and then its quantity, sixteen bytes from the one before. */
  lemma {:induction false} LevelLayout(levels: seq<Level>, k: nat)
    requires k < |levels|
    ensures |PutLevels(levels)| == 16 * |levels|
    ensures PutLevels(levels)[16 * k..16 * k + 8] == Put64(Unsigned(levels[k].price))
    ensures PutLevels(levels)[16 * k + 8..16 * k + 16] == Put64(Unsigned(levels[k].quantity))
  {
    var rest, last := levels[..|levels| - 1], levels[|levels| - 1];
    var bytes := PutLevels(rest);
    if k < |rest| {
      LevelLayout(rest, k);
      assert PutLevels(levels)[16 * k..16 * k + 8] == bytes[16 * k..16 * k + 8];
      assert PutLevels(levels)[16 * k + 8..16 * k + 16] == bytes[16 * k + 8..16 * k + 16];
    } else {
      assert PutLevel(last)[0..8] == Put64(Unsigned(last.price)) && PutLevel(last)[8..16] == Put64(Unsigned(last.quantity));
      assert PutLevels(levels)[16 * k..16 * k + 8] == PutLevel(last)[0..8];
      assert PutLevels(levels)[16 * k + 8..16 * k + 16] == PutLevel(last)[8..16];
    }
  }

  /** The magic, then the version, depth, both precisions and start, then both texts. */
  lemma HeaderLayout(h: FileHeader)
    ensures Header(h)[0..8] == [75, 82, 75, 78, 76, 50, 0, 0] && |Header(h)| == 64
    ensures Header(h)[8..12] == Put32(h.formatVersion) && Header(h)[12..16] == Put32(h.depth)
    ensures Header(h)[16..20] == Put32(h.priceDecimals) && Header(h)[20..24] == Put32(h.qtyDecimals)
    ensures Header(h)[24..32] == Put64(Unsigned(h.startTime)) && Header(h)[32..48] == h.venue && Header(h)[48..64] == h.symbol
  {
    var numbers := PutNumbers(h);
    assert numbers[0..4] == Put32(h.formatVersion) && numbers[4..8] == Put32(h.depth);
    assert numbers[8..12] == Put32(h.priceDecimals) && numbers[12..16] == Put32(h.qtyDecimals);
    assert numbers[16..24] == Put64(Unsigned(h.startTime));
    forall i, j | 0 <= i <= j <= 24 ensures Header(h)[8 + i..8 + j] == numbers[i..j] {}
  }

  lemma RecordFields(m: Message)
    requires Writable(m)
    ensures var sells := 32 + LevelBytes(|m.buys|) + 8;
      && Record(m)[32..32 + LevelBytes(|m.buys|)] == PutLevels(m.buys)
      && Record(m)[sells..sells + LevelBytes(|m.sells|)] == PutLevels(m.sells)
  {
    var buys, sells := PutLevels(m.buys), PutLevels(m.sells);
    var buySize, sellSize := Put64(LevelBytes(|m.buys|)), Put64(LevelBytes(|m.sells|));
    assert Record(m) == (PutPrefix(m) + buySize) + buys + (sellSize + sells);
    Middle(PutPrefix(m) + buySize, buys, sellSize + sells);
    assert Record(m) == (PutPrefix(m) + buySize + buys + sellSize) + sells + [];
    Middle(PutPrefix(m) + buySize + buys + sellSize, sells, []);
  }

  lemma Middle(before: seq<byte>, middle: seq<byte>, after: seq<byte>)
    ensures (before + middle + after)[|before|..|before| + |middle|] == middle
  {
  }

  /** Every level array of the file starts on a multiple of eight bytes, so it can be mapped in place. */
  lemma LevelsAreAligned(ms: seq<Storable>, k: nat)
    requires k < |ms|
    ensures Aligned(BuysAt(ms, k)) && Aligned(SellsAt(ms, k))
  {
    RecordsAreEights(ms[..k]);
    EightsAreAligned(Eights(ms[..k]) + 12);
    EightsAreAligned(Eights(ms[..k]) + 13 + 2 * |ms[k].buys|);
  }

  /** BuysAt and SellsAt are where the levels are. */
  lemma LevelsAreThere(h: FileHeader, ms: seq<Storable>, k: nat)
    requires k < |ms|
    ensures SellsAt(ms, k) + LevelBytes(|ms[k].sells|) <= |FileBytes(h, ms)|
    ensures FileBytes(h, ms)[BuysAt(ms, k)..BuysAt(ms, k) + LevelBytes(|ms[k].buys|)] == PutLevels(ms[k].buys)
    ensures FileBytes(h, ms)[SellsAt(ms, k)..SellsAt(ms, k) + LevelBytes(|ms[k].sells|)] == PutLevels(ms[k].sells)
  {
    RecordAt(h, ms, k);
    LevelsInside(Header(h) + Records(ms[..k]), ms[k], Records(ms[k + 1..]));
  }

  lemma LevelsInside(before: seq<byte>, m: Storable, after: seq<byte>)
    ensures var file := before + Record(m) + after;
      var buys, sells := |before| + 32, |before| + 40 + LevelBytes(|m.buys|);
      && file[buys..buys + LevelBytes(|m.buys|)] == PutLevels(m.buys)
      && file[sells..sells + LevelBytes(|m.sells|)] == PutLevels(m.sells)
  {
    RecordFields(m);
    Inside(before, Record(m), after, 32, 32 + LevelBytes(|m.buys|));
    Inside(before, Record(m), after, 40 + LevelBytes(|m.buys|), |Record(m)|);
  }

  lemma RecordAt(h: FileHeader, ms: seq<Storable>, k: nat)
    requires k < |ms|
    ensures FileBytes(h, ms) == (Header(h) + Records(ms[..k])) + Record(ms[k]) + Records(ms[k + 1..])
  {
    RecordsGrow(ms, k);
    assert ms[k..][0] == ms[k] && ms[k..][1..] == ms[k + 1..];
    Associates(Header(h), Records(ms[..k]), Record(ms[k]) + Records(ms[k + 1..]));
    Associates(Header(h) + Records(ms[..k]), Record(ms[k]), Records(ms[k + 1..]));
  }

  lemma Inside(before: seq<byte>, middle: seq<byte>, after: seq<byte>, lo: nat, hi: nat)
    requires lo <= hi <= |middle|
    ensures (before + middle + after)[|before| + lo..|before| + hi] == middle[lo..hi]
  {
  }
}

/** Message::Serialize and ToFixedText, writing into a caller's bytes. */
module RecordWriter {
  import opened Messages
  import opened LittleEndian
  import opened RecordSpec

  function Overwrite(s: seq<byte>, at: nat, bytes: seq<byte>): seq<byte>
    requires at + |bytes| <= |s|
  {
    s[..at] + bytes + s[at + |bytes|..]
  }

  lemma OverwriteTwice(s: seq<byte>, at: nat, a: seq<byte>, b: seq<byte>)
    requires at + |a| + |b| <= |s|
    ensures Overwrite(Overwrite(s, at, a), at + |a|, b) == Overwrite(s, at, a + b)
  {
  }

  /** Writes `n` in `size` bytes at `at` and returns where the rest begins. */
  method WriteValue(out: array<byte>, at: nat, n: nat, size: nat) returns (rest: nat)
    requires n < Range(size) && at + size <= out.Length
    modifies out
    ensures out[..] == Overwrite(old(out[..]), at, Put(n, size)) && rest == at + size
  {
    var left: nat := n;
    var i := 0;
    while i < size
      invariant 0 <= i <= size && left < Range(size - i)
      invariant Put(n, size) == out[at..at + i] + Put(left, size - i)
      invariant out[..at] == old(out[..at]) && out[at + i..] == old(out[at + i..])
    {
      out[at + i] := left % 256;
      left := left / 256;
      i := i + 1;
    }
    rest := at + size;
    assert out[..] == out[..at] + out[at..at + size] + out[at + size..];
  }

  method WriteLevel(out: array<byte>, at: nat, level: Level) returns (rest: nat)
    requires at + 16 <= out.Length
    modifies out
    ensures out[..] == Overwrite(old(out[..]), at, PutLevel(level)) && rest == at + 16
  {
    Widths();
    rest := WriteValue(out, at, Unsigned(level.price), 8);
    rest := WriteValue(out, rest, Unsigned(level.quantity), 8);
    OverwriteTwice(old(out[..]), at, Put64(Unsigned(level.price)), Put64(Unsigned(level.quantity)));
  }

  lemma LevelsGrow(levels: seq<Level>, i: nat)
    requires i < |levels|
    ensures PutLevels(levels[..i + 1]) == PutLevels(levels[..i]) + PutLevel(levels[i])
  {
    assert levels[..i + 1][..i] == levels[..i];
  }

  method WriteLevels(out: array<byte>, at: nat, side: seq<Level>) returns (rest: nat)
    requires at + LevelBytes(|side|) <= out.Length
    modifies out
    ensures out[..] == Overwrite(old(out[..]), at, PutLevels(side)) && rest == at + LevelBytes(|side|)
  {
    ghost var was := out[..];
    rest := at;
    var i := 0;
    assert PutLevels(side[..0]) == [];
    while i < |side|
      invariant 0 <= i <= |side| && rest == at + LevelBytes(i)
      invariant out[..] == Overwrite(was, at, PutLevels(side[..i]))
    {
      rest := WriteLevel(out, rest, side[i]);
      OverwriteTwice(was, at, PutLevels(side[..i]), PutLevel(side[i]));
      LevelsGrow(side, i);
      i := i + 1;
    }
    assert side[..i] == side;
  }

  method WriteSide(out: array<byte>, at: nat, side: seq<Level>) returns (rest: nat)
    requires Sized(side) && at + 8 + LevelBytes(|side|) <= out.Length
    modifies out
    ensures out[..] == Overwrite(old(out[..]), at, PutSide(side)) && rest == at + 8 + LevelBytes(|side|)
  {
    Widths();
    rest := WriteValue(out, at, LevelBytes(|side|), 8);
    rest := WriteLevels(out, rest, side);
    OverwriteTwice(old(out[..]), at, Put64(LevelBytes(|side|)), PutLevels(side));
  }

  method WritePrefix(out: array<byte>, m: Message) returns (rest: nat)
    requires 24 <= out.Length
    modifies out
    ensures out[..] == Overwrite(old(out[..]), 0, PutPrefix(m)) && rest == 24
  {
    Widths();
    ghost var was := out[..];
    ghost var kind, checksum := Put32(KindCode(m.kind)), Put32(m.checksum);
    ghost var venueTime, captureTime := Put64(Unsigned(m.venueTime)), Put64(Unsigned(m.captureTime));
    rest := WriteValue(out, 0, KindCode(m.kind), 4);
    rest := WriteValue(out, rest, m.checksum, 4);
    OverwriteTwice(was, 0, kind, checksum);
    rest := WriteValue(out, rest, Unsigned(m.venueTime), 8);
    OverwriteTwice(was, 0, kind + checksum, venueTime);
    rest := WriteValue(out, rest, Unsigned(m.captureTime), 8);
    OverwriteTwice(was, 0, kind + checksum + venueTime, captureTime);
    assert kind + checksum + venueTime + captureTime == PutPrefix(m);
  }

  /** None if the buffer is too small, and then it is left alone. */
  method Serialize(m: Message, out: array<byte>) returns (written: Option<nat>)
    requires Writable(m)
    modifies out
    ensures out.Length < GetByteSize(m) ==> written == None && out[..] == old(out[..])
    ensures out.Length >= GetByteSize(m) ==> written == Some(GetByteSize(m)) && out[..GetByteSize(m)] == Record(m)
    ensures out.Length >= GetByteSize(m) ==> out[GetByteSize(m)..] == old(out[GetByteSize(m)..])
  {
    if out.Length < GetByteSize(m) {
      return None;
    }
    ghost var was := out[..];
    var rest := WritePrefix(out, m);
    rest := WriteSide(out, rest, m.buys);
    OverwriteTwice(was, 0, PutPrefix(m), PutSide(m.buys));
    rest := WriteSide(out, rest, m.sells);
    OverwriteTwice(was, 0, PutPrefix(m) + PutSide(m.buys), PutSide(m.sells));
    assert PutPrefix(m) + PutSide(m.buys) + PutSide(m.sells) == Record(m);
    written := Some(GetByteSize(m));
  }

  /** A zeroed field, the text copied over its front. */
  method ToFixedText(value: seq<byte>) returns (text: array<byte>)
    ensures fresh(text) && text[..] == FixedText(value)
  {
    text := new byte[TEXT_SIZE](_ => 0);
    var n := if |value| < TEXT_SIZE then |value| else TEXT_SIZE;
    var i := 0;
    while i < n
      invariant 0 <= i <= n
      invariant text[..i] == value[..i]
      invariant forall j :: i <= j < TEXT_SIZE ==> text[j] == 0
    {
      text[i] := value[i];
      i := i + 1;
    }
  }
}
