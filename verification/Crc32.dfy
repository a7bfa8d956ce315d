/**
  The table-driven CRC-32 of crypto/crc32.cc, proved equal to the bit-by-bit reflected
  CRC-32 of section 8 of RFC 1952, and to tell apart any two inputs that differ
  only within four consecutive bytes. Facts about repeated steps are proved for any
  step function, so that bit-vector reasoning stays in one-line lemmas.
 */
module CrcBits {

  type byte = bv8

  function Iterate<T>(f: T -> T, x: T, n: nat): T
    decreases n
  {
    if n == 0 then x else f(Iterate(f, x, n - 1))
  }

  lemma {:induction false} IterateSplits<T>(f: T -> T, x: T, a: nat, b: nat)
    ensures Iterate(f, Iterate(f, x, a), b) == Iterate(f, x, a + b)
    decreases b
  {
    if b > 0 { IterateSplits(f, x, a, b - 1); }
  }

  lemma {:induction false} IterateIsLinear<T>(f: T -> T, plus: (T, T) -> T, x: T, y: T, n: nat)
    requires forall a, b :: f(plus(a, b)) == plus(f(a), f(b))
    ensures Iterate(f, plus(x, y), n) == plus(Iterate(f, x, n), Iterate(f, y, n))
    decreases n
  {
    if n > 0 { IterateIsLinear(f, plus, x, y, n - 1); }
  }

  lemma {:induction false} IterateIsInjective<T>(f: T -> T, x: T, y: T, n: nat)
    requires forall a, b :: f(a) == f(b) ==> a == b
    requires Iterate(f, x, n) == Iterate(f, y, n)
    ensures x == y
    decreases n
  {
    if n > 0 { IterateIsInjective(f, x, y, n - 1); }
  }

  /** One byte at a time, eight steps each. */
  function FeedFour<T>(f: T -> T, plus: (T, T) -> T, s: T, b0: T, b1: T, b2: T, b3: T): T {
    var t1 := Iterate(f, plus(s, b0), 8);
    var t2 := Iterate(f, plus(t1, b1), 8);
    var t3 := Iterate(f, plus(t2, b2), 8);
    Iterate(f, plus(t3, b3), 8)
  }

  /** All four placed in the word first. */
  function Placed<T>(plus: (T, T) -> T, up: T -> T, s: T, b0: T, b1: T, b2: T, b3: T): T {
    plus(plus(plus(plus(s, b0), up(b1)), up(up(b2))), up(up(up(b3))))
  }

  /**
    Four bytes folded in eight steps apart equal one word folded in at once, if
    folding in after eight steps is folding in the moved-up byte before them.
   */
  lemma FourBytes<T>(f: T -> T, plus: (T, T) -> T, up: T -> T, s: T, b0: T, b1: T, b2: T, b3: T,
                     w1: T, w2: T, w3: T)
    requires w1 == plus(plus(s, b0), up(b1)) && w2 == plus(w1, up(up(b2))) && w3 == plus(w2, up(up(up(b3))))
    requires plus(Iterate(f, plus(s, b0), 8), b1) == Iterate(f, w1, 8)
    requires plus(Iterate(f, Iterate(f, w1, 8), 8), b2) == Iterate(f, plus(Iterate(f, w1, 8), up(b2)), 8)
    requires plus(Iterate(f, w1, 8), up(b2)) == Iterate(f, w2, 8)
    requires plus(Iterate(f, Iterate(f, Iterate(f, w2, 8), 8), 8), b3)
          == Iterate(f, plus(Iterate(f, Iterate(f, w2, 8), 8), up(b3)), 8)
    requires plus(Iterate(f, Iterate(f, w2, 8), 8), up(b3)) == Iterate(f, plus(Iterate(f, w2, 8), up(up(b3))), 8)
    requires plus(Iterate(f, w2, 8), up(up(b3))) == Iterate(f, w3, 8)
    ensures FeedFour(f, plus, s, b0, b1, b2, b3) == Iterate(f, Placed(plus, up, s, b0, b1, b2, b3), 32)
  {
    IterateSplits(f, w3, 8, 8);
    IterateSplits(f, w3, 16, 8);
    IterateSplits(f, w3, 24, 8);
  }

  // ----- The definition -------------------------------------------------------------

  /** One bit: shift right, and subtract the polynomial if a one fell out. */
  function Shift(crc: bv32): bv32 {
    if crc & 1 != 0 then (crc >> 1) ^ 0xEDB88320 else crc >> 1
  }

  function Xor(x: bv32, y: bv32): bv32 { x ^ y }

  /** RFC 1952: fold a byte into the low end, then shift out its eight bits. */
  function Feed(crc: bv32, b: byte): bv32 {
    Iterate(Shift, Xor(crc, b as bv32), 8)
  }

  function FeedAll(crc: bv32, data: seq<byte>): bv32
    decreases |data|
  {
    if data == [] then crc else Feed(FeedAll(crc, data[..|data| - 1]), data[|data| - 1])
  }

  function Checksum(data: seq<byte>): bv32 {
    Xor(FeedAll(0xFFFFFFFF, data), 0xFFFFFFFF)
  }

  lemma FeedsAs(crc: bv32, b: byte, x0: bv32, x1: bv32, x2: bv32, x3: bv32, x4: bv32, x5: bv32, x6: bv32, x7: bv32, x8: bv32)
    requires Xor(crc, b as bv32) == x0 && Shift(x0) == x1 && Shift(x1) == x2 && Shift(x2) == x3 && Shift(x3) == x4
    requires Shift(x4) == x5 && Shift(x5) == x6 && Shift(x6) == x7 && Shift(x7) == x8
    ensures Feed(crc, b) == x8
  {
    assert Iterate(Shift, x0, 2) == x2 && Iterate(Shift, x0, 4) == x4 && Iterate(Shift, x0, 6) == x6;
  }

  lemma FeedsOn(data: seq<byte>, b: byte, crc: bv32, next: bv32, longer: seq<byte>)
    requires FeedAll(0xFFFFFFFF, data) == crc && Feed(crc, b) == next && longer == data + [b]
    ensures FeedAll(0xFFFFFFFF, longer) == next
  {
    assert longer[..|longer| - 1] == data;
  }

  lemma DigitOne()
    ensures Feed(0xFFFFFFFF, 0x31) == 0x7C231048
  {
    FeedsAs(0xFFFFFFFF, 0x31, 0xFFFFFFCE,
            0x7FFFFFE7, 0xD2477CD3, 0x849B3D49, 0xAFF51D84, 0x57FA8EC2, 0x2BFD4761, 0xF8462090, 0x7C231048);
  }

  lemma DigitTwo()
    ensures Feed(0x7C231048, 0x32) == 0xB0ACBB32
  {
    FeedsAs(0x7C231048, 0x32, 0x7C23107A,
            0x3E11883D, 0xF2B0473E, 0x7958239F, 0xD11492EF, 0x8532CA57, 0xAF21E60B, 0xBA287025, 0xB0ACBB32);
  }

  lemma DigitThree()
    ensures Feed(0xB0ACBB32, 0x33) == 0x77B79C2D
  {
    FeedsAs(0xB0ACBB32, 0x33, 0xB0ACBB01,
            0xB5EEDEA0, 0x5AF76F50, 0x2D7BB7A8, 0x16BDDBD4, 0x0B5EEDEA, 0x05AF76F5, 0xEF6F385A, 0x77B79C2D);
  }

  lemma DigitFour()
    ensures Feed(0x77B79C2D, 0x34) == 0x641C1F5C
  {
    FeedsAs(0x77B79C2D, 0x34, 0x77B79C19,
            0xD6634D2C, 0x6B31A696, 0x3598D34B, 0xF774EA85, 0x9602F662, 0x4B017B31, 0xC8383EB8, 0x641C1F5C);
  }

  lemma DigitFive()
    ensures Feed(0x641C1F5C, 0x35) == 0x340AC5E3
  {
    FeedsAs(0x641C1F5C, 0x35, 0x641C1F69,
            0xDFB68C94, 0x6FDB464A, 0x37EDA325, 0xF64E52B2, 0x7B272959, 0xD02B178C, 0x68158BC6, 0x340AC5E3);
  }

  lemma DigitSix()
    ensures Feed(0x340AC5E3, 0x36) == 0xF68D2C9E
  {
    FeedsAs(0x340AC5E3, 0x36, 0x340AC5D5,
            0xF7BDE1CA, 0x7BDEF0E5, 0xD057FB52, 0x682BFDA9, 0xD9AD7DF4, 0x6CD6BEFA, 0x366B5F7D, 0xF68D2C9E);
  }

  lemma DigitSeven()
    ensures Feed(0xF68D2C9E, 0x37) == 0xAFFC9660
  {
    FeedsAs(0xF68D2C9E, 0x37, 0xF68D2CA9,
            0x96FE1574, 0x4B7F0ABA, 0x25BF855D, 0xFF67418E, 0x7FB3A0C7, 0xD2615343, 0x84882A81, 0xAFFC9660);
  }

  lemma DigitEight()
    ensures Feed(0xAFFC9660, 0x38) == 0x651F2550
  {
    FeedsAs(0xAFFC9660, 0x38, 0xAFFC9658,
            0x57FE4B2C, 0x2BFF2596, 0x15FF92CB, 0xE7474A45, 0x9E1B2602, 0x4F0D9301, 0xCA3E4AA0, 0x651F2550);
  }

  lemma DigitNine()
    ensures Feed(0x651F2550, 0x39) == 0x340BC6D9
  {
    FeedsAs(0x651F2550, 0x39, 0x651F2569,
            0xDF371194, 0x6F9B88CA, 0x37CDC465, 0xF65E6112, 0x7B2F3089, 0xD02F1B64, 0x68178DB2, 0x340BC6D9);
  }

  /** The check value of this CRC, that of the text "123456789". */
  lemma CheckValue()
    ensures Checksum([0x31, 0x32, 0x33, 0x34, 0x35, 0x36, 0x37, 0x38, 0x39]) == 0xCBF43926
  {
    var data: seq<byte> := [0x31, 0x32, 0x33, 0x34, 0x35, 0x36, 0x37, 0x38, 0x39];
    assert FeedAll(0xFFFFFFFF, data[..0]) == 0xFFFFFFFF;
    DigitOne();
    FeedsOn(data[..0], 0x31, 0xFFFFFFFF, 0x7C231048, data[..1]);
    DigitTwo();
    FeedsOn(data[..1], 0x32, 0x7C231048, 0xB0ACBB32, data[..2]);
    DigitThree();
    FeedsOn(data[..2], 0x33, 0xB0ACBB32, 0x77B79C2D, data[..3]);
    DigitFour();
    FeedsOn(data[..3], 0x34, 0x77B79C2D, 0x641C1F5C, data[..4]);
    DigitFive();
    FeedsOn(data[..4], 0x35, 0x641C1F5C, 0x340AC5E3, data[..5]);
    DigitSix();
    FeedsOn(data[..5], 0x36, 0x340AC5E3, 0xF68D2C9E, data[..6]);
    DigitSeven();
    FeedsOn(data[..6], 0x37, 0xF68D2C9E, 0xAFFC9660, data[..7]);
    DigitEight();
    FeedsOn(data[..7], 0x38, 0xAFFC9660, 0x651F2550, data[..8]);
    DigitNine();
    FeedsOn(data[..8], 0x39, 0x651F2550, 0x340BC6D9, data[..9]);
    assert data[..9] == data;
  }

  // ----- One bit step is linear and loses nothing -----------------------------------

  lemma EvenPlusEven(x: bv32, y: bv32)
    requires x & 1 == 0 && y & 1 == 0
    ensures Shift(x ^ y) == Shift(x) ^ Shift(y)
  {
  }

  lemma OddPlusEven(x: bv32, y: bv32)
    requires x & 1 != 0 && y & 1 == 0
    ensures Shift(x ^ y) == Shift(x) ^ Shift(y)
  {
  }

  lemma OddPlusOdd(x: bv32, y: bv32)
    requires x & 1 != 0 && y & 1 != 0
    ensures Shift(x ^ y) == Shift(x) ^ Shift(y)
  {
  }

  lemma ShiftIsLinear(x: bv32, y: bv32)
    ensures Shift(Xor(x, y)) == Xor(Shift(x), Shift(y))
  {
    if x & 1 == 0 {
      if y & 1 == 0 { EvenPlusEven(x, y); } else { OddPlusEven(y, x); }
    } else {
      if y & 1 == 0 { OddPlusEven(x, y); } else { OddPlusOdd(x, y); }
    }
  }

  lemma ShiftsAreLinear(x: bv32, y: bv32, n: nat)
    ensures Iterate(Shift, Xor(x, y), n) == Xor(Iterate(Shift, x, n), Iterate(Shift, y, n))
  {
    forall a, b ensures Shift(Xor(a, b)) == Xor(Shift(a), Shift(b)) { ShiftIsLinear(a, b); }
    IterateIsLinear(Shift, Xor, x, y, n);
  }

  lemma ShiftIsInjective(x: bv32, y: bv32)
    requires Shift(x) == Shift(y)
    ensures x == y
  {
  }

  lemma ShiftsAreInjective(x: bv32, y: bv32, n: nat)
    requires Iterate(Shift, x, n) == Iterate(Shift, y, n)
    ensures x == y
  {
    forall a, b | Shift(a) == Shift(b) ensures a == b { ShiftIsInjective(a, b); }
    IterateIsInjective(Shift, x, y, n);
  }

  // ----- A whole byte at once -------------------------------------------------------

  lemma OneShift(x: bv32)
    requires x & 1 == 0
    ensures Shift(x) == x >> 1
  {
  }

  lemma TwoShifts(x: bv32)
    requires x & 3 == 0
    ensures Iterate(Shift, x, 2) == x >> 2
  {
    assert x & 1 == 0 && (x >> 1) & 1 == 0 && (x >> 1) >> 1 == x >> 2;
    OneShift(x);
    OneShift(x >> 1);
    assert Iterate(Shift, x, 1) == x >> 1;
  }

  lemma FourShifts(x: bv32)
    requires x & 0xF == 0
    ensures Iterate(Shift, x, 4) == x >> 4
  {
    assert x & 3 == 0 && (x >> 2) & 3 == 0 && (x >> 2) >> 2 == x >> 4;
    TwoShifts(x);
    TwoShifts(x >> 2);
    IterateSplits(Shift, x, 2, 2);
  }

  /** Bits above the ones shifted out just move down. */
  lemma HighBitsMoveDown(x: bv32)
    requires x & 0xFF == 0
    ensures Iterate(Shift, x, 8) == x >> 8
  {
    assert x & 0xF == 0 && (x >> 4) & 0xF == 0 && (x >> 4) >> 4 == x >> 8;
    FourShifts(x);
    FourShifts(x >> 4);
    IterateSplits(Shift, x, 4, 4);
  }

  lemma SplitLowByte(x: bv32)
    ensures x == Xor(x & 0xFF, x & 0xFFFFFF00)
  {
  }

  lemma HighPartClear(x: bv32)
    ensures (x & 0xFFFFFF00) & 0xFF == 0
  {
  }

  lemma HighPartShifted(crc: bv32, b: byte)
    ensures ((crc ^ (b as bv32)) & 0xFFFFFF00) >> 8 == crc >> 8
  {
  }

  /** What one table lookup per byte computes. */
  lemma TableStep(crc: bv32, b: byte)
    ensures Feed(crc, b) == Xor(Iterate(Shift, Xor(crc, b as bv32) & 0xFF, 8), crc >> 8)
  {
    var x := Xor(crc, b as bv32);
    SplitLowByte(x);
    HighPartClear(x);
    HighBitsMoveDown(x & 0xFFFFFF00);
    HighPartShifted(crc, b);
    ShiftsAreLinear(x & 0xFF, x & 0xFFFFFF00, 8);
  }

  // ----- The table ------------------------------------------------------------------

  function Entry(v: nat): bv32
    requires v < 256
  {
    Iterate(Shift, v as bv32, 8)
  }

  ghost predicate IsTable(table: seq<bv32>) {
    |table| == 256 && forall v :: 0 <= v < 256 ==> table[v] == Entry(v)
  }

  /** The inner loop of the table: eight bit steps. */
  method ShiftOut(value: nat) returns (crc: bv32)
    requires value < 256
    ensures crc == Entry(value)
  {
    var start := value as bv32;
    crc := start;
    var bit := 0;
    while bit < 8
      invariant 0 <= bit <= 8
      invariant crc == Iterate(Shift, start, bit)
    {
      crc := Shift(crc);
      bit := bit + 1;
    }
  }

  method BuildCrc32Table() returns (table: array<bv32>)
    ensures fresh(table) && IsTable(table[..])
  {
    table := new bv32[256];
    ghost var done: seq<bv32> := [];
    var value := 0;
    while value < table.Length
      invariant 0 <= value <= table.Length
      invariant table[..value] == done
      invariant forall v :: 0 <= v < value ==> done[v] == Entry(v)
    {
      table[value] := ShiftOut(value);
      done := done + [table[value]];
      value := value + 1;
    }
    assert table[..] == done;
  }

  // ----- Error detection ------------------------------------------------------------

  lemma {:induction false} FeedAllSplits(crc: bv32, a: seq<byte>, b: seq<byte>)
    ensures FeedAll(crc, a + b) == FeedAll(FeedAll(crc, a), b)
    decreases |b|
  {
    if b == [] {
      assert a + b == a;
    } else {
      assert (a + b)[..|a + b| - 1] == a + b[..|b| - 1];
      FeedAllSplits(crc, a, b[..|b| - 1]);
    }
  }

  lemma XorIsInjective(x: bv32, y: bv32, z: bv32)
    requires Xor(x, z) == Xor(y, z)
    ensures x == y
  {
  }

  lemma XorIsInjectiveRight(x: bv32, y: bv32, z: bv32)
    requires Xor(z, x) == Xor(z, y)
    ensures x == y
  {
  }

  /** A byte changes the state reversibly: different states stay different. */
  lemma FeedIsInjective(x: bv32, y: bv32, b: byte)
    requires Feed(x, b) == Feed(y, b)
    ensures x == y
  {
    ShiftsAreInjective(Xor(x, b as bv32), Xor(y, b as bv32), 8);
    XorIsInjective(x, y, b as bv32);
  }

  lemma {:induction false} FeedAllIsInjective(x: bv32, y: bv32, data: seq<byte>)
    requires FeedAll(x, data) == FeedAll(y, data)
    ensures x == y
    decreases |data|
  {
    if data != [] {
      var rest := data[..|data| - 1];
      FeedIsInjective(FeedAll(x, rest), FeedAll(y, rest), data[|data| - 1]);
      FeedAllIsInjective(x, y, rest);
    }
  }

  function Up(y: bv32): bv32 { y << 8 }

  function Small(y: bv32): bool { y & 0xFF000000 == 0 }

  lemma UpAndDown(y: bv32)
    requires Small(y)
    ensures Up(y) >> 8 == y
  {
  }

  lemma UpClearsLowByte(y: bv32)
    ensures Up(y) & 0xFF == 0
  {
  }

  /** Folding in after eight shifts is folding in eight bits higher before them. */
  lemma FoldEarlier(x: bv32, y: bv32)
    requires Small(y)
    ensures Xor(Iterate(Shift, x, 8), y) == Iterate(Shift, Xor(x, Up(y)), 8)
  {
    ShiftsAreLinear(x, Up(y), 8);
    UpClearsLowByte(y);
    HighBitsMoveDown(Up(y));
    UpAndDown(y);
  }

  lemma BytesAreSmall(b: byte)
    ensures Small(b as bv32) && Small(Up(b as bv32)) && Small(Up(Up(b as bv32)))
  {
  }

  lemma FeedAllOfFour(crc: bv32, w: seq<byte>)
    requires |w| == 4
    ensures FeedAll(crc, w) == Feed(Feed(Feed(Feed(crc, w[0]), w[1]), w[2]), w[3])
  {
    assert w[..3][..2] == w[..2] && w[..2][..1] == w[..1] && w[..1][..0] == [];
    assert FeedAll(crc, w[..1]) == Feed(crc, w[0]);
    assert FeedAll(crc, w[..2]) == Feed(Feed(crc, w[0]), w[1]);
    assert FeedAll(crc, w[..3]) == Feed(Feed(Feed(crc, w[0]), w[1]), w[2]);
  }

  lemma FeedIsShifted(crc: bv32, b0: byte, b1: byte, b2: byte, b3: byte)
    ensures Feed(Feed(Feed(Feed(crc, b0), b1), b2), b3)
         == FeedFour(Shift, Xor, crc, b0 as bv32, b1 as bv32, b2 as bv32, b3 as bv32)
  {
  }

  lemma FeedWord(crc: bv32, b0: bv32, b1: bv32, b2: bv32, b3: bv32)
    requires Small(b1) && Small(b2) && Small(Up(b2)) && Small(b3) && Small(Up(b3)) && Small(Up(Up(b3)))
    ensures FeedFour(Shift, Xor, crc, b0, b1, b2, b3)
         == Iterate(Shift, Placed(Xor, Up, crc, b0, b1, b2, b3), 32)
  {
    var w1 := Xor(Xor(crc, b0), Up(b1));
    var w2 := Xor(w1, Up(Up(b2)));
    var w3 := Xor(w2, Up(Up(Up(b3))));
    var i1, i2 := Iterate(Shift, w1, 8), Iterate(Shift, w2, 8);
    FoldEarlier(Xor(crc, b0), b1);
    FoldEarlier(i1, b2);
    FoldEarlier(w1, Up(b2));
    FoldEarlier(Iterate(Shift, i2, 8), b3);
    FoldEarlier(i2, Up(b3));
    FoldEarlier(w2, Up(Up(b3)));
    FourBytes(Shift, Xor, Up, crc, b0, b1, b2, b3, w1, w2, w3);
  }

  /** Four bytes as a little-endian word. */
  function Word(b0: byte, b1: byte, b2: byte, b3: byte): bv32 {
    Xor(Xor(Xor(b0 as bv32, Up(b1 as bv32)), Up(Up(b2 as bv32))), Up(Up(Up(b3 as bv32))))
  }

  lemma XorAssociates(x: bv32, y: bv32, z: bv32)
    ensures Xor(Xor(x, y), z) == Xor(x, Xor(y, z))
  {
  }

  lemma PlacedIsWord(s: bv32, b0: byte, b1: byte, b2: byte, b3: byte)
    ensures Placed(Xor, Up, s, b0 as bv32, b1 as bv32, b2 as bv32, b3 as bv32) == Xor(s, Word(b0, b1, b2, b3))
  {
    var u1, u2, u3 := Up(b1 as bv32), Up(Up(b2 as bv32)), Up(Up(Up(b3 as bv32)));
    var w1 := Xor(b0 as bv32, u1);
    XorAssociates(s, b0 as bv32, u1);
    XorAssociates(s, w1, u2);
    XorAssociates(s, Xor(w1, u2), u3);
  }

  lemma WordBytes(b0: byte, b1: byte, b2: byte, b3: byte)
    ensures Word(b0, b1, b2, b3) & 0xFF == b0 as bv32
    ensures (Word(b0, b1, b2, b3) >> 8) & 0xFF == b1 as bv32
    ensures (Word(b0, b1, b2, b3) >> 16) & 0xFF == b2 as bv32
    ensures Word(b0, b1, b2, b3) >> 24 == b3 as bv32
  {
  }

  lemma SameByte(v: byte, w: byte)
    requires v as bv32 == w as bv32
    ensures v == w
  {
  }

  lemma WordIsInjective(v: seq<byte>, w: seq<byte>)
    requires |v| == |w| == 4
    requires Word(v[0], v[1], v[2], v[3]) == Word(w[0], w[1], w[2], w[3])
    ensures v == w
  {
    WordBytes(v[0], v[1], v[2], v[3]);
    WordBytes(w[0], w[1], w[2], w[3]);
    SameByte(v[0], w[0]);
    SameByte(v[1], w[1]);
    SameByte(v[2], w[2]);
    SameByte(v[3], w[3]);
  }

  /** Four bytes at once: fold in their word, then shift out its 32 bits. */
  lemma FeedAllIsWord(crc: bv32, w: seq<byte>)
    requires |w| == 4
    ensures FeedAll(crc, w) == Iterate(Shift, Xor(crc, Word(w[0], w[1], w[2], w[3])), 32)
  {
    FeedAllOfFour(crc, w);
    FeedIsShifted(crc, w[0], w[1], w[2], w[3]);
    BytesAreSmall(w[1]);
    BytesAreSmall(w[2]);
    BytesAreSmall(w[3]);
    FeedWord(crc, w[0] as bv32, w[1] as bv32, w[2] as bv32, w[3] as bv32);
    PlacedIsWord(crc, w[0], w[1], w[2], w[3]);
  }

  /** Damage confined to four consecutive bytes is always seen, whatever surrounds it. */
  lemma BurstIsDetected(before: seq<byte>, v: seq<byte>, w: seq<byte>, after: seq<byte>)
    requires |v| == |w| <= 4
    ensures Checksum(before + v + after) == Checksum(before + w + after) <==> v == w
  {
    var start := FeedAll(0xFFFFFFFF, before);
    FeedAllSplits(0xFFFFFFFF, before + v, after);
    FeedAllSplits(0xFFFFFFFF, before, v);
    FeedAllSplits(0xFFFFFFFF, before + w, after);
    FeedAllSplits(0xFFFFFFFF, before, w);
    if Checksum(before + v + after) == Checksum(before + w + after) {
      XorIsInjective(FeedAll(FeedAll(start, v), after), FeedAll(FeedAll(start, w), after), 0xFFFFFFFF);
      FeedAllIsInjective(FeedAll(start, v), FeedAll(start, w), after);
      SameStateSameBytes(start, v, w);
    }
  }

  /** Up to four bytes can be told from the state they leave: padded to four, they are one word. */
  lemma SameStateSameBytes(start: bv32, v: seq<byte>, w: seq<byte>)
    requires |v| == |w| <= 4
    requires FeedAll(start, v) == FeedAll(start, w)
    ensures v == w
  {
    var zeros: seq<byte> := seq(4 - |v|, _ => 0);
    FeedAllSplits(start, v, zeros);
    FeedAllSplits(start, w, zeros);
    SameStateSameWord(start, v + zeros, w + zeros);
    assert (v + zeros)[..|v|] == v && (w + zeros)[..|w|] == w;
  }

  lemma SameStateSameWord(start: bv32, v: seq<byte>, w: seq<byte>)
    requires |v| == |w| == 4
    requires FeedAll(start, v) == FeedAll(start, w)
    ensures v == w
  {
    FeedAllIsWord(start, v);
    FeedAllIsWord(start, w);
    var x, y := Word(v[0], v[1], v[2], v[3]), Word(w[0], w[1], w[2], w[3]);
    ShiftsAreInjective(Xor(start, x), Xor(start, y), 32);
    XorIsInjectiveRight(x, y, start);
    WordIsInjective(v, w);
  }
}

/** The program: one table entry per byte. */
module Crc32 {
  import opened CrcBits

  lemma LowByteInRange(x: bv32)
    ensures (x & 0xFF) as int < 256
  {
  }

  lemma IntRoundTrip(x: bv32)
    ensures (x as int) as bv32 == x
  {
  }

  /** One byte of the loop: a table entry and a shift by eight. */
  function LookUp(table: seq<bv32>, crc: bv32, b: byte): bv32
    requires |table| == 256
  {
    var x := Xor(crc, b as bv32);
    Xor(LowEntry(table, x), crc >> 8)
  }

  /** The entry of the low byte. */
  function LowEntry(table: seq<bv32>, x: bv32): bv32
    requires |table| == 256
  {
    LowByteInRange(x);
    table[(x & 0xFF) as int]
  }

  lemma EntryAt(table: seq<bv32>, low: bv32)
    requires IsTable(table) && low as int < 256
    ensures table[low as int] == Iterate(Shift, low, 8)
  {
    IntRoundTrip(low);
  }

  lemma LowEntryShiftsOut(table: seq<bv32>, x: bv32)
    requires IsTable(table)
    ensures LowEntry(table, x) == Iterate(Shift, x & 0xFF, 8)
  {
    LowByteInRange(x);
    EntryAt(table, x & 0xFF);
  }

  lemma LookUpFeeds(table: seq<bv32>, crc: bv32, b: byte)
    requires IsTable(table)
    ensures LookUp(table, crc, b) == Feed(crc, b)
  {
    LowEntryShiftsOut(table, Xor(crc, b as bv32));
    TableStep(crc, b);
  }

  lemma FeedAllGrows(crc: bv32, data: seq<byte>, i: nat)
    requires i < |data|
    ensures FeedAll(crc, data[..i + 1]) == Feed(FeedAll(crc, data[..i]), data[i])
  {
    assert data[..i + 1][..i] == data[..i];
  }

  method Crc32(data: seq<byte>) returns (result: bv32)
    ensures result == Checksum(data)
  {
    var built := BuildCrc32Table();
    var table := built[..];
    var crc: bv32 := 0xFFFFFFFF;
    var i := 0;
    while i < |data|
      invariant 0 <= i <= |data|
      invariant crc == FeedAll(0xFFFFFFFF, data[..i])
    {
      LookUpFeeds(table, crc, data[i]);
      FeedAllGrows(0xFFFFFFFF, data, i);
      crc := LookUp(table, crc, data[i]);
      i := i + 1;
    }
    assert data[..i] == data;
    result := Xor(crc, 0xFFFFFFFF);
  }
}
