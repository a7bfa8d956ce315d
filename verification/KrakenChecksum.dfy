/**
  Kraken's book checksum (kraken/checksum.cc): the CRC-32 over the digits of the ten best
  asks, then the ten best bids. Proved to hash the documented text: each level's decimal
  text at the pair's precision, without the point and leading zeros.
 */
module KrakenChecksum {
  import opened Messages
  import opened BookSpec
  import opened Decimals
  import opened Printing
  import CrcBits
  import Crc32
  import Books

  const CHECKSUM_DEPTH: nat := 10

  // ----- Digits without leading zeros ----------------------------------------------

  function StripZeros(s: string): string {
    if s != "" && s[0] == '0' then StripZeros(s[1..]) else s
  }

  lemma {:induction false} StripKeepsValue(s: string)
    requires AllDigits(s)
    ensures AllDigits(StripZeros(s)) && Value(StripZeros(s)) == Value(s)
    ensures StripZeros(s) != "" ==> StripZeros(s)[0] != '0'
  {
    if s != "" && s[0] == '0' {
      StripKeepsValue(s[1..]);
      assert s == s[..1] + s[1..];
      ValueSplits(s[..1], s[1..]);
      assert Value(s[..1]) == 10 * Value(s[..1][..0]) + 0;
    }
  }

  lemma {:induction false} PrintsItsDigits(s: string)
    requires AllDigits(s) && s != "" && s[0] != '0'
    ensures Value(s) > 0 && PrintNat(Value(s)) == s
  {
    var rest := s[..|s| - 1];
    assert s == rest + [s[|s| - 1]];
    if rest != "" {
      PrintsItsDigits(rest);
    } else {
      assert Value(s) == DigitValue(s[0]);
    }
  }

  function Zeros(n: nat): string { seq(n, _ => '0') }

  /** A decimal text zero-padded to `decimals` fraction digits, without its point and leading zeros. */
  function FeedDigits(text: string, decimals: nat): string
    requires |FractionPart(text)| <= decimals
  {
    StripZeros(text[..Find(text, '.')] + FractionPart(text) + Zeros(decimals - |FractionPart(text)|))
  }

  lemma PaddedValue(text: string, decimals: nat)
    requires IsDecimal(text) && |FractionPart(text)| <= decimals
    ensures var padded := text[..Find(text, '.')] + FractionPart(text) + Zeros(decimals - |FractionPart(text)|);
            AllDigits(padded) && Value(padded) == Numerator(text) * Power(decimals - |FractionPart(text)|)
  {
    ZerosPad(text[..Find(text, '.')] + FractionPart(text), decimals - |FractionPart(text)|);
  }

  lemma ZerosPad(digits: string, zeros: nat)
    requires AllDigits(digits)
    ensures AllDigits(digits + Zeros(zeros)) && Value(digits + Zeros(zeros)) == Value(digits) * Power(zeros)
  {
    TrailingZeros(digits + Zeros(zeros), |digits|);
    assert (digits + Zeros(zeros))[..|digits|] == digits;
  }

  /**
    The scaled integer prints as exactly the digits the feed's text shows, unless it is zero:
    that prints as "0" where stripping every zero leaves nothing.
   */
  lemma PrintedDigits(text: string, decimals: nat, n: nat)
    requires IsDecimal(text) && |FractionPart(text)| <= decimals <= 18
    requires IsExactly(text, decimals, n) && n <= I64_MAX
    ensures Scaled(text, decimals) == Some(n)
    ensures Print(n) == FeedDigits(text, decimals) <==> n != 0
  {
    var f := |FractionPart(text)|;
    var padded := text[..Find(text, '.')] + FractionPart(text) + Zeros(decimals - f);
    PaddedValue(text, decimals);
    PowerAdds(f, decimals - f);
    SameProduct(n, Power(f), Numerator(text), Power(decimals - f));
    StripKeepsValue(padded);
    if n != 0 {
      PrintsItsDigits(StripZeros(padded));
    } else if StripZeros(padded) != "" {
      PrintsItsDigits(StripZeros(padded));
    }
    MulLt(n, n + 1, Denominator(text));
    ScalingIsExact(text, decimals, n);
  }

  lemma ZeroPrintsADigit()
    ensures Print(0) == "0" && FeedDigits("0", 0) == ""
  {
    assert Find("0", '.') == 1;
    assert "0"[..1] == "0" && FractionPart("0") == "" && Zeros(0) == "";
    assert "0" + "" + "" == "0";
    assert "0"[1..] == "";
  }

  lemma SameProduct(n: nat, den: nat, v: nat, k: nat)
    requires den >= 1 && n * den == v * (den * k)
    ensures n == v * k
  {
    assert v * (den * k) == (v * k) * den;
    CancelFactor(n, v * k, den);
  }

  // ----- The checksummed text -------------------------------------------------------

  function Best(side: seq<Level>): seq<Level> {
    if |side| <= CHECKSUM_DEPTH then side else side[..CHECKSUM_DEPTH]
  }

  function LevelText(level: Level): string { Print(level.price) + Print(level.quantity) }

  function SideText(levels: seq<Level>): string {
    if levels == [] then "" else SideText(levels[..|levels| - 1]) + LevelText(levels[|levels| - 1])
  }

  method AppendSide(side: seq<Level>, text: string) returns (out: string)
    ensures out == text + SideText(Best(side))
  {
    out := text;
    var i := 0;
    ghost var added := "";
    while i < |side| && i < CHECKSUM_DEPTH
      invariant 0 <= i <= |side| && i <= CHECKSUM_DEPTH
      invariant out == text + added && added == SideText(side[..i])
    {
      SideTextGrows(side, i);
      Associates(text, added, LevelText(side[i]));
      out := out + LevelText(side[i]);
      added := added + LevelText(side[i]);
      i := i + 1;
    }
    assert side[..i] == Best(side);
  }

  lemma SideTextGrows(side: seq<Level>, i: nat)
    requires i < |side|
    ensures SideText(side[..i + 1]) == SideText(side[..i]) + LevelText(side[i])
  {
    assert side[..i + 1][..i] == side[..i];
  }

  lemma Associates(a: string, b: string, c: string)
    ensures (a + b) + c == a + (b + c)
  {
  }

  function Bytes(s: string): seq<CrcBits.byte> {
    seq(|s|, i requires 0 <= i < |s| => (s[i] as int % 256) as bv8)
  }

  function HashText(text: string): u32 { CrcBits.Checksum(Bytes(text)) as int }

  /** What is hashed: ten asks, then ten bids, best first. */
  function TextOf(book: BookState): string {
    SideText(Best(Listing(false, book.asks))) + SideText(Best(Listing(true, book.bids)))
  }

  function ChecksumOf(book: BookState): u32 { HashText(TextOf(book)) }

  method BookText(book: Books.Book) returns (text: string)
    requires book.Valid()
    ensures text == TextOf(book.state)
  {
    book.SidesAreListings();
    var empty := "";
    var asks := AppendSide(book.asks, empty);
    assert asks == SideText(Best(book.asks));
    text := AppendSide(book.bids, asks);
  }

  method BookChecksum(book: Books.Book) returns (checksum: u32)
    requires book.Valid()
    ensures checksum == ChecksumOf(book.state)
  {
    var text := BookText(book);
    var crc := Crc32.Crc32(Bytes(text));
    checksum := crc as int;
  }

  // ----- Kraken's documented text ---------------------------------------------------

  /** A level as the feed sends it. */
  datatype TextLevel = TextLevel(price: string, quantity: string)

  ghost predicate Shows(text: string, decimals: nat, n: int) {
    && IsDecimal(text) && |FractionPart(text)| <= decimals <= 18
    && 0 < n <= I64_MAX && IsExactly(text, decimals, n)
  }

  ghost predicate ShowsLevels(texts: seq<TextLevel>, precision: Precision, levels: seq<Level>) {
    && |texts| == |levels|
    && forall i :: 0 <= i < |texts| ==>
         && Shows(texts[i].price, precision.price, levels[i].price)
         && Shows(texts[i].quantity, precision.quantity, levels[i].quantity)
  }

  ghost function Documented(texts: seq<TextLevel>, precision: Precision, levels: seq<Level>): string
    requires ShowsLevels(texts, precision, levels)
  {
    if texts == [] then ""
    else
      var n := |texts| - 1;
      Documented(texts[..n], precision, levels[..n])
      + (FeedDigits(texts[n].price, precision.price) + FeedDigits(texts[n].quantity, precision.quantity))
  }

  /** The hashed text is Kraken's documented one, whatever decimal texts the levels came from. */
  lemma {:induction false} TextIsDocumented(texts: seq<TextLevel>, precision: Precision, levels: seq<Level>)
    requires ShowsLevels(texts, precision, levels)
    ensures SideText(levels) == Documented(texts, precision, levels)
  {
    if texts != [] {
      var n := |texts| - 1;
      TextIsDocumented(texts[..n], precision, levels[..n]);
      PrintedDigits(texts[n].price, precision.price, levels[n].price);
      PrintedDigits(texts[n].quantity, precision.quantity, levels[n].quantity);
    }
  }

  /** The texts are those of the best ten levels of a side, best first, or of all if there are fewer. */
  ghost predicate ShowsTen(texts: seq<TextLevel>, precision: Precision, descending: bool, side: Side) {
    var levels := Listing(descending, side);
    |texts| == (if |levels| < 10 then |levels| else 10) && ShowsLevels(texts, precision, levels[..|texts|])
  }

  /** Kraken's string for a side: its ten best levels, best first. */
  ghost function DocumentedSide(texts: seq<TextLevel>, precision: Precision, descending: bool, side: Side): string
    requires ShowsTen(texts, precision, descending, side)
  {
    Documented(texts, precision, Listing(descending, side)[..|texts|])
  }

  lemma SideIsDocumented(texts: seq<TextLevel>, precision: Precision, descending: bool, side: Side)
    requires ShowsTen(texts, precision, descending, side)
    ensures SideText(Best(Listing(descending, side))) == DocumentedSide(texts, precision, descending, side)
    ensures AllDigits(DocumentedSide(texts, precision, descending, side))
  {
    var levels := Listing(descending, side);
    assert levels[..|texts|] == Best(levels);
    TextIsDocumented(texts, precision, levels[..|texts|]);
    DocumentedIsDigits(texts, precision, levels[..|texts|]);
  }

  lemma {:induction false} DocumentedIsDigits(texts: seq<TextLevel>, precision: Precision, levels: seq<Level>)
    requires ShowsLevels(texts, precision, levels)
    ensures AllDigits(Documented(texts, precision, levels))
  {
    if texts != [] {
      var n := |texts| - 1;
      DocumentedIsDigits(texts[..n], precision, levels[..n]);
      PaddedValue(texts[n].price, precision.price);
      PaddedValue(texts[n].quantity, precision.quantity);
      StripKeepsValue(texts[n].price[..Find(texts[n].price, '.')] + FractionPart(texts[n].price)
                      + Zeros(precision.price - |FractionPart(texts[n].price)|));
      StripKeepsValue(texts[n].quantity[..Find(texts[n].quantity, '.')] + FractionPart(texts[n].quantity)
                      + Zeros(precision.quantity - |FractionPart(texts[n].quantity)|));
    }
  }

  /** A digit in ASCII. */
  function Ascii(c: char): CrcBits.byte
    requires IsDigit(c)
  {
    match c
    case '0' => 0x30 case '1' => 0x31 case '2' => 0x32 case '3' => 0x33 case '4' => 0x34
    case '5' => 0x35 case '6' => 0x36 case '7' => 0x37 case '8' => 0x38 case _ => 0x39
  }

  /** The bytes are the digits, one a character. */
  ghost predicate AreBytesOf(data: seq<CrcBits.byte>, text: string) {
    |data| == |text| && forall i :: 0 <= i < |data| ==> IsDigit(text[i]) && data[i] == Ascii(text[i])
  }

  lemma DigitIsByte(c: char)
    requires IsDigit(c)
    ensures (c as int % 256) as bv8 == Ascii(c)
  {
    var n := c as int;
    assert n == 48 || n == 49 || n == 50 || n == 51 || n == 52 || n == 53 || n == 54 || n == 55 || n == 56 || n == 57;
  }

  lemma DigitsAreBytes(text: string)
    requires AllDigits(text)
    ensures AreBytesOf(Bytes(text), text)
  {
    forall i | 0 <= i < |text| ensures Bytes(text)[i] == Ascii(text[i]) { DigitIsByte(text[i]); }
  }

  /** The checksum is the CRC over Kraken's string: the ten best asks, then the ten best bids. */
  lemma ChecksumIsDocumented(book: BookState, precision: Precision, asks: seq<TextLevel>, bids: seq<TextLevel>)
    returns (data: seq<CrcBits.byte>)
    requires ShowsTen(asks, precision, false, book.asks) && ShowsTen(bids, precision, true, book.bids)
    ensures AreBytesOf(data, DocumentedSide(asks, precision, false, book.asks) + DocumentedSide(bids, precision, true, book.bids))
    ensures ChecksumOf(book) == CrcBits.Checksum(data) as int
  {
    SideIsDocumented(asks, precision, false, book.asks);
    SideIsDocumented(bids, precision, true, book.bids);
    data := Bytes(TextOf(book));
    DigitsAreBytes(TextOf(book));
  }
}
