/**
  Fixed-point decimal text (core/decimal.cc). The code's signed arithmetic is modelled with
  its width: a product or sum that leaves i64 is undefined in C++, which is None here, while a run of
  digits too long for std::from_chars silently leaves zero.
 */
module Decimals {
  import opened Messages

  // ----- Digits ---------------------------------------------------------------------

  predicate IsDigit(c: char) { '0' <= c <= '9' }

  predicate AllDigits(s: string) { forall i :: 0 <= i < |s| ==> IsDigit(s[i]) }

  function DigitValue(c: char): nat
    requires IsDigit(c)
  {
    c as int - '0' as int
  }

  function Value(s: string): nat
    requires AllDigits(s)
  {
    if s == "" then 0 else 10 * Value(s[..|s| - 1]) + DigitValue(s[|s| - 1])
  }

  function Power(n: nat): (p: nat)
    ensures p >= 1
  {
    if n == 0 then 1 else 10 * Power(n - 1)
  }

  lemma {:induction false} PowerAdds(a: nat, b: nat)
    ensures Power(a + b) == Power(a) * Power(b)
  {
    if a > 0 {
      PowerAdds(a - 1, b);
      calc {
        Power(a + b);
        10 * Power(a - 1 + b);
        10 * (Power(a - 1) * Power(b));
        (10 * Power(a - 1)) * Power(b);
      }
    }
  }

  lemma {:induction false} PowerGrows(a: nat, b: nat)
    requires a <= b
    ensures Power(a) <= Power(b)
  {
    if a < b { PowerGrows(a, b - 1); }
  }

  lemma {:induction false} ValueBound(s: string)
    requires AllDigits(s)
    ensures Value(s) < Power(|s|)
  {
    if s != "" { ValueBound(s[..|s| - 1]); }
  }

  lemma {:induction false} ValueSplits(a: string, b: string)
    requires AllDigits(a) && AllDigits(b)
    ensures AllDigits(a + b) && Value(a + b) == Value(a) * Power(|b|) + Value(b)
  {
    if b == "" {
      assert a + b == a;
    } else {
      var rest := b[..|b| - 1];
      ValueSplits(a, rest);
      assert (a + b)[..|a + b| - 1] == a + rest;
      AppendDigit(Value(a), Power(|rest|), Value(rest), DigitValue(b[|b| - 1]));
    }
  }

  lemma AppendDigit(v: nat, power: nat, rest: nat, digit: nat)
    ensures 10 * (v * power + rest) + digit == v * (10 * power) + (10 * rest + digit)
  {
  }

  // ----- The code -------------------------------------------------------------------

  function Find(s: string, c: char): (i: nat)
    ensures i <= |s| && c !in s[..i] && (i < |s| ==> s[i] == c)
  {
    if s == "" || s[0] == c then 0 else 1 + Find(s[1..], c)
  }

  function DigitPrefix(s: string): (n: nat)
    ensures n <= |s| && AllDigits(s[..n]) && (n < |s| ==> !IsDigit(s[n]))
  {
    if s == "" || !IsDigit(s[0]) then 0 else 1 + DigitPrefix(s[1..])
  }

  predicate InI64(x: int) { -I64_MAX - 1 <= x <= I64_MAX }

  /** std::from_chars into an i64 holding zero, which it leaves alone on any failure. */
  function FromChars(s: string): i64 {
    var negative := s != "" && s[0] == '-';
    var digits := if negative then s[1..] else s;
    var value := Value(digits[..DigitPrefix(digits)]);
    var signed := if negative then 0 - value else value;
    if InI64(signed) then signed else 0
  }

  function Checked(x: int): Option<i64> { if InI64(x) then Some(x) else None }

  method Pow10(exponent: nat) returns (result: Option<i64>)
    ensures result == Checked(Power(exponent))
  {
    var power: i64 := 1;
    var i := 0;
    while i < exponent
      invariant 0 <= i <= exponent
      invariant power == Power(i)
    {
      if !InI64(power * 10) {
        PowerGrows(i + 1, exponent);
        return None;
      }
      power := power * 10;
      i := i + 1;
    }
    result := Some(power);
  }

  function FractionPart(value: string): string {
    var dot := Find(value, '.');
    if dot == |value| then "" else value[dot + 1..]
  }

  /** `a * scaleA + b * scaleB` in i64, step by step. */
  function CheckedSum(a: int, scaleA: Option<i64>, b: int, scaleB: Option<i64>): Option<i64> {
    if scaleA.None? || scaleB.None? || !InI64(a * scaleA.value) || !InI64(b * scaleB.value) then None
    else Checked(a * scaleA.value + b * scaleB.value)
  }

  /** What ScaleDecimalStringToI64 returns; None where its arithmetic is undefined. */
  function Scaled(value: string, decimals: nat): Option<i64> {
    var fraction := FractionPart(value);
    var used := if |fraction| < decimals then |fraction| else decimals;
    CheckedSum(FromChars(value[..Find(value, '.')]), Checked(Power(decimals)),
               FromChars(fraction[..used]), Checked(Power(decimals - used)))
  }

  method ScaleDecimalStringToI64(value: string, decimals: nat) returns (scaled: Option<i64>)
    ensures scaled == Scaled(value, decimals)
  {
    var dot := Find(value, '.');
    var integerPart := value[..dot];
    var fractionPart := if dot == |value| then "" else value[dot + 1..];
    var integerValue := FromChars(integerPart);
    var digitsUsed := if |fractionPart| < decimals then |fractionPart| else decimals;
    var fractionValue: i64 := 0;
    if digitsUsed > 0 {
      fractionValue := FromChars(fractionPart[..digitsUsed]);
    }
    var whole := Pow10(decimals);
    var rest := Pow10(decimals - digitsUsed);
    scaled := CheckedSum(integerValue, whole, fractionValue, rest);
  }

  /** The last position holding anything but '0', or none. */
  function LastNonZero(s: string): (r: Option<nat>)
    ensures r.None? ==> forall i :: 0 <= i < |s| ==> s[i] == '0'
    ensures r.Some? ==> r.value < |s| && s[r.value] != '0' && forall i :: r.value < i < |s| ==> s[i] == '0'
  {
    if s == "" then None
    else if s[|s| - 1] != '0' then Some(|s| - 1)
    else LastNonZero(s[..|s| - 1])
  }

  function FractionDigits(value: string): nat {
    var dot := Find(value, '.');
    if dot == |value| then 0
    else
      match LastNonZero(value)
      case None => 0
      case Some(last) => if last <= dot then 0 else last - dot
  }

  // ----- What a text means ----------------------------------------------------------

  /** Digits, then optionally a point and more digits; either run may be empty. */
  predicate IsDecimal(text: string) {
    AllDigits(text[..Find(text, '.')]) && AllDigits(FractionPart(text))
  }

  /** The text stands for Numerator(text) / Denominator(text). */
  function Numerator(text: string): nat
    requires IsDecimal(text)
  {
    ValueSplits(text[..Find(text, '.')], FractionPart(text));
    Value(text[..Find(text, '.')] + FractionPart(text))
  }

  function Denominator(text: string): nat { Power(|FractionPart(text)|) }

  /** The largest integer not above the text's value times 10^decimals. */
  ghost predicate IsFloor(text: string, decimals: nat, n: nat)
    requires IsDecimal(text)
  {
    n * Denominator(text) <= Numerator(text) * Power(decimals) < (n + 1) * Denominator(text)
  }

  /** The text's value times 10^decimals is the integer `n`. */
  ghost predicate IsExactly(text: string, decimals: nat, n: nat)
    requires IsDecimal(text)
  {
    n * Denominator(text) == Numerator(text) * Power(decimals)
  }

  lemma MulLe(a: int, b: int, k: int)
    requires a <= b && k >= 0
    ensures a * k <= b * k
  {
  }

  lemma MulLt(a: int, b: int, k: int)
    requires a < b && k >= 1
    ensures a * k < b * k
  {
  }

  lemma CancelFactor(a: int, b: int, k: int)
    requires k >= 1 && a * k == b * k
    ensures a == b
  {
    if a < b { MulLt(a, b, k); }
    if b < a { MulLt(b, a, k); }
  }

  lemma FloorIsUnique(d: nat, x: nat, m: nat, n: nat)
    requires d >= 1 && m * d <= x < (m + 1) * d && n * d <= x < (n + 1) * d
    ensures m == n
  {
    if m < n { MulLe(m + 1, n, d); }
    if n < m { MulLe(n + 1, m, d); }
  }

  function Digits(text: string, decimals: nat): nat
    requires IsDecimal(text)
  {
    var fraction := FractionPart(text);
    var used := if |fraction| < decimals then |fraction| else decimals;
    Value(text[..Find(text, '.')]) * Power(decimals) + Value(fraction[..used]) * Power(decimals - used)
  }

  /** Integer digits and kept fraction digits together are the floor. */
  lemma DigitsAreFloor(text: string, decimals: nat)
    requires IsDecimal(text)
    ensures IsFloor(text, decimals, Digits(text, decimals))
    ensures |FractionPart(text)| <= decimals ==> IsExactly(text, decimals, Digits(text, decimals))
  {
    if |FractionPart(text)| <= decimals {
      PaddedDigits(text, decimals);
    } else {
      CutDigits(text, decimals);
    }
  }

  lemma PaddedDigits(text: string, decimals: nat)
    requires IsDecimal(text) && |FractionPart(text)| <= decimals
    ensures IsFloor(text, decimals, Digits(text, decimals)) && IsExactly(text, decimals, Digits(text, decimals))
  {
    var i, f := text[..Find(text, '.')], FractionPart(text);
    ValueSplits(i, f);
    PowerAdds(|f|, decimals - |f|);
    assert f[..|f|] == f;
    FloorOfPadded(Value(i), Denominator(text), Power(decimals - |f|), Value(f));
    assert Digits(text, decimals) == Value(i) * Power(decimals) + Value(f) * Power(decimals - |f|);
  }

  lemma CutDigits(text: string, decimals: nat)
    requires IsDecimal(text) && |FractionPart(text)| > decimals
    ensures IsFloor(text, decimals, Digits(text, decimals))
  {
    var i, f := text[..Find(text, '.')], FractionPart(text);
    var kept, cut := f[..decimals], f[decimals..];
    assert f == kept + cut;
    ValueSplits(i, f);
    ValueSplits(kept, cut);
    ValueBound(cut);
    PowerAdds(decimals, |cut|);
    var p, k := Power(decimals), Power(|cut|);
    assert Digits(text, decimals) == Value(i) * p + Value(kept);
    assert Denominator(text) == p * k;
    assert Numerator(text) == Value(i) * (p * k) + (Value(kept) * k + Value(cut));
    FloorOfCut(Value(i), p, k, Value(kept), Value(cut));
  }

  lemma FloorOfPadded(i: nat, den: nat, k: nat, f: nat)
    requires den >= 1
    ensures (i * (den * k) + f * k) * den == (i * den + f) * (den * k) < (i * (den * k) + f * k + 1) * den
  {
    assert i * (den * k) + f * k == (i * den + f) * k;
    var n := (i * den + f) * k;
    assert n * den == (i * den + f) * (den * k);
    assert (n + 1) * den == n * den + den;
  }

  lemma FloorOfCut(i: nat, p: nat, k: nat, kept: nat, cut: nat)
    requires p >= 1 && cut < k
    ensures (i * p + kept) * (p * k) <= (i * (p * k) + (kept * k + cut)) * p < (i * p + kept + 1) * (p * k)
  {
    var n := i * p + kept;
    assert i * (p * k) + (kept * k + cut) == n * k + cut;
    MulLe(n * k, n * k + cut, p);
    MulLt(n * k + cut, n * k + k, p);
    assert (n * k) * p == n * (p * k);
    assert (n * k + k) * p == (n + 1) * (p * k);
  }

  lemma FromCharsReads(s: string)
    requires AllDigits(s) && Value(s) <= I64_MAX
    ensures FromChars(s) == Value(s)
  {
    assert s[..DigitPrefix(s)] == s;
  }

  /**
    The scaled integer is the floor of the text's value times 10^decimals exactly when 10^decimals and
    that floor fit an i64. Beyond that the code overflows, or drops the integer part.
   */
  lemma ScalingIsExact(text: string, decimals: nat, floor: nat)
    requires IsDecimal(text) && IsFloor(text, decimals, floor)
    ensures Scaled(text, decimals) == Some(floor) <==> decimals <= 18 && floor <= I64_MAX
  {
    FloorIsDigits(text, decimals, floor);
    if decimals > 18 {
      TooFineIsUndefined(text, decimals);
    } else if floor <= I64_MAX {
      ScalingFits(text, decimals);
    }
  }

  lemma FloorIsDigits(text: string, decimals: nat, floor: nat)
    requires IsDecimal(text) && IsFloor(text, decimals, floor)
    ensures floor == Digits(text, decimals)
  {
    DigitsAreFloor(text, decimals);
    FloorIsUnique(Denominator(text), Numerator(text) * Power(decimals), floor, Digits(text, decimals));
  }

  lemma TooFineIsUndefined(text: string, decimals: nat)
    requires decimals > 18
    ensures Scaled(text, decimals) == None
  {
    PowersOfTen();
    PowerGrows(19, decimals);
  }

  lemma ScalingFits(text: string, decimals: nat)
    requires IsDecimal(text) && decimals <= 18 && Digits(text, decimals) <= I64_MAX
    ensures Scaled(text, decimals) == Some(Digits(text, decimals))
  {
    var i, f := text[..Find(text, '.')], FractionPart(text);
    var used := if |f| < decimals then |f| else decimals;
    PartsFit(i, f[..used], decimals);
  }

  lemma PartsFit(i: string, kept: string, decimals: nat)
    requires AllDigits(i) && AllDigits(kept) && |kept| <= decimals <= 18
    requires Value(i) * Power(decimals) + Value(kept) * Power(decimals - |kept|) <= I64_MAX
    ensures CheckedSum(FromChars(i), Checked(Power(decimals)), FromChars(kept), Checked(Power(decimals - |kept|)))
         == Some(Value(i) * Power(decimals) + Value(kept) * Power(decimals - |kept|))
  {
    var p, q := Power(decimals), Power(decimals - |kept|);
    assert p <= I64_MAX && q <= I64_MAX by { PowerFits(decimals); PowerFits(decimals - |kept|); }
    FactorsFit(Value(i), p, Value(kept), q);
    FromCharsReads(i);
    FromCharsReads(kept);
  }

  lemma FactorsFit(a: nat, p: nat, b: nat, q: nat)
    requires 1 <= p <= I64_MAX && 1 <= q <= I64_MAX && a * p + b * q <= I64_MAX
    ensures a <= I64_MAX && b <= I64_MAX
    ensures CheckedSum(a, Checked(p), b, Checked(q)) == Some(a * p + b * q)
  {
    MulLe(1, p, a);
    MulLe(1, q, b);
    MulLe(0, a, p);
    MulLe(0, b, q);
  }

  lemma PowersOfTen()
    ensures Power(18) == 1_000_000_000_000_000_000 && Power(19) == 10 * Power(18)
  {
    assert Power(6) == 1_000_000;
    PowerAdds(6, 6);
    PowerAdds(12, 6);
  }

  /** The value of `a` is not above that of `b`. */
  predicate NotAbove(a: string, b: string)
    requires IsDecimal(a) && IsDecimal(b)
  {
    Numerator(a) * Denominator(b) <= Numerator(b) * Denominator(a)
  }

  /** What the code returns for both is defined and in order. */
  predicate InOrder(a: string, b: string, decimals: nat) {
    && Scaled(a, decimals).Some? && Scaled(b, decimals).Some?
    && Scaled(a, decimals).value <= Scaled(b, decimals).value
  }

  predicate FloorFits(text: string, decimals: nat)
    requires IsDecimal(text)
  {
    decimals <= 18 && Digits(text, decimals) <= I64_MAX
  }

  lemma FloorsKeepOrder(a: string, b: string, decimals: nat, floorA: nat, floorB: nat)
    requires IsDecimal(a) && IsDecimal(b) && NotAbove(a, b)
    requires IsFloor(a, decimals, floorA) && IsFloor(b, decimals, floorB)
    ensures floorA <= floorB
  {
    if floorA > floorB {
      OrderClash(Power(decimals), Denominator(a), Denominator(b), Numerator(a), Numerator(b), floorA, floorB);
    }
  }

  /** Two texts in order are scaled in order if the larger one's floor fits. */
  lemma ScalingKeepsOrder(a: string, b: string, decimals: nat)
    requires IsDecimal(a) && IsDecimal(b) && NotAbove(a, b) && FloorFits(b, decimals)
    ensures InOrder(a, b, decimals)
  {
    DigitsAreFloor(a, decimals);
    DigitsAreFloor(b, decimals);
    FloorsKeepOrder(a, b, decimals, Digits(a, decimals), Digits(b, decimals));
    ScalingFits(a, decimals);
    ScalingFits(b, decimals);
  }

  /** And only then: a text that does not fit is undefined, or comes out below a smaller one that does. */
  lemma OrderIsKeptExactlyIfItFits(b: string, decimals: nat)
    requires IsDecimal(b)
    ensures (forall a: string :: IsDecimal(a) && NotAbove(a, b) ==> InOrder(a, b, decimals)) <==> FloorFits(b, decimals)
  {
    if FloorFits(b, decimals) {
      forall a: string | IsDecimal(a) && NotAbove(a, b) ensures InOrder(a, b, decimals) {
        ScalingKeepsOrder(a, b, decimals);
      }
    } else if decimals > 18 {
      TooFineIsUndefined(b, decimals);
      assert NotAbove(b, b) && !InOrder(b, b, decimals);
    } else {
      TooLargeBreaksOrder(b, decimals);
    }
  }

  /** "1" is not above any text too large to fit, but does not scale below it. */
  lemma TooLargeBreaksOrder(b: string, decimals: nat)
    requires IsDecimal(b) && decimals <= 18 && Digits(b, decimals) > I64_MAX
    ensures IsDecimal("1") && NotAbove("1", b) && !InOrder("1", b, decimals)
  {
    OneIsWhole();
    OneScales(decimals);
    TooLargeIsAboveOne(b, decimals);
    TooLargeScalesSmall(b, decimals);
  }

  lemma OneIsWhole()
    ensures IsDecimal("1") && "1"[..Find("1", '.')] == "1" && FractionPart("1") == ""
    ensures Value("1") == 1 && Numerator("1") == 1 && Denominator("1") == 1
  {
    assert Find("1", '.') == 1 && "1"[..1] == "1";
    assert "1" + "" == "1" && "1"[..0] == "";
  }

  lemma PowerFits(decimals: nat)
    requires decimals <= 18
    ensures Power(decimals) <= I64_MAX
  {
    PowersOfTen();
    PowerGrows(decimals, 18);
  }

  lemma OneScales(decimals: nat)
    requires decimals <= 18
    ensures IsDecimal("1") && Scaled("1", decimals) == Some(Power(decimals))
  {
    OneIsWhole();
    PowerFits(decimals);
    var none := FractionPart("1")[..0];
    assert none == "";
    FromCharsReads("1");
    FromCharsReads(none);
    FactorsFit(1, Power(decimals), 0, Power(decimals));
  }

  lemma TooLargeIsAboveOne(b: string, decimals: nat)
    requires IsDecimal(b) && decimals <= 18 && Digits(b, decimals) > I64_MAX
    ensures Denominator(b) <= Numerator(b)
  {
    PowersOfTen();
    PowerGrows(decimals, 18);
    DigitsAreFloor(b, decimals);
    MulLe(Power(decimals), Digits(b, decimals), Denominator(b));
    if Numerator(b) < Denominator(b) { MulLt(Numerator(b), Denominator(b), Power(decimals)); }
  }

  /** If it reads at all, its integer part was dropped. */
  lemma TooLargeScalesSmall(b: string, decimals: nat)
    requires IsDecimal(b) && decimals <= 18 && Digits(b, decimals) > I64_MAX
    ensures Scaled(b, decimals).Some? ==> Scaled(b, decimals).value < Power(decimals)
  {
    var f := FractionPart(b);
    var used := if |f| < decimals then |f| else decimals;
    PartsScaleSmall(b[..Find(b, '.')], f[..used], decimals);
  }

  lemma PartsScaleSmall(i: string, kept: string, decimals: nat)
    requires AllDigits(i) && AllDigits(kept) && |kept| <= decimals <= 18
    requires Value(i) * Power(decimals) + Value(kept) * Power(decimals - |kept|) > I64_MAX
    ensures var sum := CheckedSum(FromChars(i), Checked(Power(decimals)), FromChars(kept), Checked(Power(decimals - |kept|)));
      sum.Some? ==> sum.value < Power(decimals)
  {
    var p, pu, q := Power(decimals), Power(|kept|), Power(decimals - |kept|);
    assert p <= I64_MAX && q <= I64_MAX by { PowerFits(decimals); PowerFits(decimals - |kept|); }
    assert p == pu * q by { PowerAdds(|kept|, decimals - |kept|); }
    assert Value(kept) < pu && FromChars(kept) == Value(kept) by { KeptReads(kept); }
    FromCharsStores(i);
    SumIsSmall(Value(i), FromChars(i), p, Value(kept), pu, q);
  }

  lemma KeptReads(kept: string)
    requires AllDigits(kept) && |kept| <= 18
    ensures Value(kept) < Power(|kept|) && FromChars(kept) == Value(kept)
  {
    ValueBound(kept);
    PowerFits(|kept|);
    FromCharsReads(kept);
  }

  lemma FromCharsStores(s: string)
    requires AllDigits(s)
    ensures FromChars(s) == if Value(s) <= I64_MAX then Value(s) else 0
  {
    if Value(s) <= I64_MAX { FromCharsReads(s); } else { DroppedIsZero(s); }
  }

  lemma SumIsSmall(i: nat, stored: int, p: nat, b: nat, pu: nat, q: nat)
    requires stored == if i <= I64_MAX then i else 0
    requires p <= I64_MAX && 1 <= q <= I64_MAX && b < pu && p == pu * q && i * p + b * q > I64_MAX
    ensures var sum := CheckedSum(stored, Checked(p), b, Checked(q)); sum.Some? ==> sum.value < p
  {
    if i <= I64_MAX {
      SumOverflows(i, p, b, q);
    } else {
      DroppedSum(p, b, pu, q);
    }
  }

  lemma SumOverflows(a: nat, p: nat, b: nat, q: nat)
    requires p <= I64_MAX && q <= I64_MAX && a * p + b * q > I64_MAX
    ensures CheckedSum(a, Checked(p), b, Checked(q)) == None
  {
  }

  lemma DroppedSum(p: nat, b: nat, pu: nat, q: nat)
    requires p <= I64_MAX && q <= I64_MAX && q >= 1 && b < pu && p == pu * q
    ensures CheckedSum(0, Checked(p), b, Checked(q)) == Some(b * q) && b * q < p
  {
    MulLt(b, pu, q);
    MulLe(0, b, q);
  }

  lemma DroppedIsZero(s: string)
    requires AllDigits(s) && Value(s) > I64_MAX
    ensures FromChars(s) == 0
  {
    assert s[..DigitPrefix(s)] == s;
  }

  lemma OrderClash(p: nat, da: nat, db: nat, na: nat, nb: nat, fa: nat, fb: nat)
    requires p >= 1 && da >= 1 && db >= 1
    requires fa * da <= na * p && nb * p < (fb + 1) * db && na * db <= nb * da
    ensures fa <= fb
  {
    MulLe(fa * da, na * p, db);
    assert (na * p) * db == (na * db) * p;
    MulLe(na * db, nb * da, p);
    assert (nb * da) * p == (nb * p) * da;
    MulLt(nb * p, (fb + 1) * db, da);
    assert (fa * da) * db < ((fb + 1) * db) * da;
    assert fa * (da * db) < (fb + 1) * (da * db);
    if fa >= fb + 1 {
      MulLe(fb + 1, fa, da * db);
    }
  }

  // ----- FractionDigits is the least number of decimals that loses nothing ----------

  lemma {:induction false} TrailingZeros(s: string, n: nat)
    requires AllDigits(s) && n <= |s| && forall i :: n <= i < |s| ==> s[i] == '0'
    ensures Value(s) == Value(s[..n]) * Power(|s| - n)
  {
    if n == |s| {
      assert s[..n] == s;
    } else {
      var rest := s[..|s| - 1];
      TrailingZeros(rest, n);
      assert rest[..n] == s[..n];
      AppendDigit(Value(s[..n]), Power(|rest| - n), 0, 0);
    }
  }

  /** The text without its fraction's trailing zeros: FractionDigits(text) fraction digits. */
  function Significant(text: string): (s: string)
    requires IsDecimal(text)
    ensures AllDigits(s) && |s| == Find(text, '.') + FractionDigits(text)
  {
    text[..Find(text, '.')] + FractionPart(text)[..FractionDigits(text)]
  }

  lemma SignificantDigits(text: string)
    requires IsDecimal(text)
    ensures FractionDigits(text) <= |FractionPart(text)|
    ensures Numerator(text) == Value(Significant(text)) * Power(|FractionPart(text)| - FractionDigits(text))
    ensures FractionDigits(text) > 0 ==> Significant(text)[|Significant(text)| - 1] != '0'
  {
    var dot, f, k := Find(text, '.'), FractionPart(text), FractionDigits(text);
    var all := text[..dot] + f;
    ValueSplits(text[..dot], f);
    forall i | dot + k <= i < |all| ensures all[i] == '0' {
      assert all[i] == text[i + 1];
    }
    TrailingZeros(all, dot + k);
    assert all[..dot + k] == Significant(text);
  }

  lemma FractionDigitsIsLeast(text: string, decimals: nat)
    requires IsDecimal(text)
    ensures FractionDigits(text) <= decimals <==> exists n: nat :: IsExactly(text, decimals, n)
  {
    if FractionDigits(text) <= decimals {
      SignificantSuffice(text, decimals);
    } else {
      forall n: nat ensures !IsExactly(text, decimals, n) {
        if IsExactly(text, decimals, n) { FewerLoseDigits(text, decimals, n); }
      }
    }
  }

  lemma SignificantSuffice(text: string, decimals: nat)
    requires IsDecimal(text) && FractionDigits(text) <= decimals
    ensures IsExactly(text, decimals, Value(Significant(text)) * Power(decimals - FractionDigits(text)))
  {
    var k := FractionDigits(text);
    var z := |FractionPart(text)| - k;
    SignificantDigits(text);
    PowerAdds(k, z);
    PowerAdds(k, decimals - k);
    EnoughDigits(Value(Significant(text)), Power(k), Power(z), Power(decimals - k));
  }

  lemma FewerLoseDigits(text: string, decimals: nat, n: nat)
    requires IsDecimal(text) && IsExactly(text, decimals, n)
    ensures FractionDigits(text) <= decimals
  {
    if FractionDigits(text) > decimals {
      SignificantDigits(text);
      LastDigit(Significant(text));
      CutLosesDigits(text, decimals, n, FractionDigits(text), Value(Significant(text)));
    }
  }

  lemma CutLosesDigits(text: string, decimals: nat, n: nat, k: nat, v: nat)
    requires IsDecimal(text) && IsExactly(text, decimals, n) && decimals < k <= |FractionPart(text)|
    requires Numerator(text) == v * Power(|FractionPart(text)| - k)
    ensures v % 10 == 0
  {
    var z := |FractionPart(text)| - k;
    SplitPower(decimals, k - decimals - 1, z);
    TooFewDigits(v, n, Power(decimals), Power(k - decimals - 1), Power(z), Numerator(text), Denominator(text));
  }

  lemma SplitPower(a: nat, b: nat, c: nat)
    ensures Power(a + b + 1 + c) == (10 * (Power(a) * Power(b))) * Power(c)
  {
    PowerAdds(a, b);
    PowerAdds(a + b + 1, c);
  }

  lemma LastDigit(s: string)
    requires AllDigits(s) && s != "" && s[|s| - 1] != '0'
    ensures Value(s) % 10 != 0
  {
  }

  lemma EnoughDigits(v: nat, pk: nat, pz: nat, pr: nat)
    ensures (v * pr) * (pk * pz) == (v * pz) * (pk * pr)
  {
  }

  lemma TooFewDigits(v: nat, n: nat, pd: nat, q: nat, pz: nat, num: nat, den: nat)
    requires pd >= 1 && pz >= 1
    requires num == v * pz && den == (10 * (pd * q)) * pz && n * den == num * pd
    ensures v % 10 == 0
  {
    var m := n * q;
    IsTenfold(v, n, pd, q, pz, num, den);
    assert v == 10 * m;
  }

  lemma IsTenfold(v: nat, n: nat, pd: nat, q: nat, pz: nat, num: nat, den: nat)
    requires pd >= 1 && pz >= 1
    requires num == v * pz && den == (10 * (pd * q)) * pz && n * den == num * pd
    ensures v == 10 * (n * q)
  {
    assert (v * pz) * pd == v * (pd * pz);
    assert n * ((10 * (pd * q)) * pz) == (10 * (n * q)) * (pd * pz);
    MulLe(1, pd, pz);
    assert pd * pz >= 1;
    CancelFactor(v, 10 * (n * q), pd * pz);
  }
}

/** Integers as std::format prints them. */
module Printing {
  import opened Decimals

  function DigitChar(d: nat): char
    requires d < 10
  {
    ('0' as int + d) as char
  }

  function PrintNat(n: nat): string {
    if n < 10 then [DigitChar(n)] else PrintNat(n / 10) + [DigitChar(n % 10)]
  }

  function Print(x: int): string { if x < 0 then "-" + PrintNat(-x) else PrintNat(x) }

  /** Reading what was printed gives the number back, so no two print alike. */
  lemma {:induction false} PrintReadsBack(n: nat)
    ensures AllDigits(PrintNat(n)) && Value(PrintNat(n)) == n
  {
    if n < 10 {
      assert PrintNat(n)[..0] == "";
    } else {
      PrintReadsBack(n / 10);
      var s := PrintNat(n);
      assert s[..|s| - 1] == PrintNat(n / 10);
    }
  }
}
