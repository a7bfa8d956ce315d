/**
  What Coinbase's texts mean, whatever reads them: the venue's own book in the numbers its decimals stand
  for, when a book of scaled integers is that book, and exactly when the decoder's readings keep it so.
 */
module Quoted {
  import opened Messages
  import opened BookSpec
  import opened CoinbaseSpec
  import Decimals

  // ----- Numbers --------------------------------------------------------------------

  function Worth(text: string): real
    requires Decimals.IsDecimal(text)
  {
    Decimals.Numerator(text) as real / Decimals.Denominator(text) as real
  }

  /** The number a scaled integer stands for. */
  function Amount(n: int, decimals: nat): real { n as real / Decimals.Power(decimals) as real }

  lemma SameRatio(a: int, b: int, c: int, d: int)
    requires b >= 1 && d >= 1
    ensures a as real / b as real == c as real / d as real <==> a * d == c * b
  {
    var x, y := a as real / b as real, c as real / d as real;
    assert x * b as real == a as real && y * d as real == c as real;
    assert (a * d) as real == a as real * d as real && (c * b) as real == c as real * b as real;
    assert a as real * d as real == x * (b as real * d as real);
    assert c as real * b as real == y * (b as real * d as real);
    if x != y {
      assert b as real * d as real > 0.0;
      RealsDiffer(x, y, b as real * d as real);
    }
  }

  lemma RealsDiffer(x: real, y: real, k: real)
    requires x != y && k > 0.0
    ensures x * k != y * k
  {
    assert (x - y) * k != 0.0;
    assert (x - y) * k == x * k - y * k;
  }

  lemma AmountsDiffer(m: int, n: int, decimals: nat)
    ensures Amount(m, decimals) == Amount(n, decimals) <==> m == n
  {
    var power := Decimals.Power(decimals);
    SameRatio(m, power, n, power);
    if m * power == n * power { Decimals.CancelFactor(m, n, power); }
  }

  lemma ZeroAmount(n: int, decimals: nat)
    ensures Amount(n, decimals) == 0.0 <==> n == 0
  {
    AmountsDiffer(n, 0, decimals);
    assert Amount(0, decimals) == 0.0;
  }

  lemma ZeroWorth(text: string)
    requires Decimals.IsDecimal(text)
    ensures Worth(text) == 0.0 <==> Decimals.Numerator(text) == 0
  {
    SameRatio(Decimals.Numerator(text), Decimals.Denominator(text), 0, 1);
  }

  /** An integer stands for a text exactly if it is the floor of one that is not too fine. */
  lemma AmountIsWorth(n: int, text: string, decimals: nat)
    requires Decimals.IsDecimal(text)
    ensures Amount(n, decimals) == Worth(text)
       <==> Decimals.FractionDigits(text) <= decimals && n == Decimals.Digits(text, decimals)
  {
    var den, power := Decimals.Denominator(text), Decimals.Power(decimals);
    SameRatio(n, power, Decimals.Numerator(text), den);
    Decimals.FractionDigitsIsLeast(text, decimals);
    if n * den == Decimals.Numerator(text) * power {
      NotNegative(n, den, Decimals.Numerator(text), power);
      assert Decimals.IsExactly(text, decimals, n);
      ExactIsDigits(text, decimals, n);
    } else if Decimals.FractionDigits(text) <= decimals {
      var m: nat :| Decimals.IsExactly(text, decimals, m);
      ExactIsDigits(text, decimals, m);
    }
  }

  lemma NotNegative(n: int, den: nat, numerator: nat, power: nat)
    requires den >= 1 && n * den == numerator * power
    ensures n >= 0
  {
    if n < 0 { Decimals.MulLt(n, 0, den); }
  }

  lemma ExactIsDigits(text: string, decimals: nat, n: nat)
    requires Decimals.IsDecimal(text) && Decimals.IsExactly(text, decimals, n)
    ensures n == Decimals.Digits(text, decimals)
  {
    Decimals.MulLt(n, n + 1, Decimals.Denominator(text));
    Decimals.FloorIsDigits(text, decimals, n);
  }

  /** A text is read as the number it stands for if and only if it is neither too fine nor too large. */
  lemma ReadsWhatIsSent(text: string, decimals: nat)
    requires Decimals.IsDecimal(text)
    ensures RequireScaled(text, decimals).Read? && Amount(RequireScaled(text, decimals).value, decimals) == Worth(text)
       <==> Decimals.FractionDigits(text) <= decimals && Decimals.FloorFits(text, decimals)
  {
    var floor := Decimals.Digits(text, decimals);
    DecimalIsNotNegative(text);
    Decimals.DigitsAreFloor(text, decimals);
    Decimals.ScalingIsExact(text, decimals, floor);
    if RequireScaled(text, decimals).Read? { AmountIsWorth(RequireScaled(text, decimals).value, text, decimals); }
  }

  /** What is too large is no scaled integer. */
  lemma TooLargeIsNoAmount(text: string, decimals: nat, n: i64)
    requires Decimals.IsDecimal(text) && RequireScaled(text, decimals).Read? && !Decimals.FloorFits(text, decimals)
    ensures Amount(n, decimals) != Worth(text)
  {
    AmountIsWorth(n, text, decimals);
    if decimals > 18 { Decimals.TooFineIsUndefined(text, decimals); }
  }

  // ----- The venue's own book -------------------------------------------------------

  type Quotes = map<real, real>

  datatype QuoteBook = QuoteBook(bids: Quotes, asks: Quotes)

  const NO_QUOTES := QuoteBook(map[], map[])

  predicate IsNumber(change: Change) { Decimals.IsDecimal(change.price) && Decimals.IsDecimal(change.quantity) }

  function Quote(quotes: Quotes, price: real, quantity: real): Quotes {
    if quantity == 0.0 then quotes - {price} else quotes[price := quantity]
  }

  /** One level as the venue means it: what is no number, or on no side, means nothing. */
  function Mean(book: QuoteBook, change: Change): QuoteBook {
    if !IsNumber(change) then book
    else if change.side == "bid" then book.(bids := Quote(book.bids, Worth(change.price), Worth(change.quantity)))
    else if change.side == "offer" then book.(asks := Quote(book.asks, Worth(change.price), Worth(change.quantity)))
    else book
  }

  function MeanAll(book: QuoteBook, updates: seq<Change>): QuoteBook {
    if updates == [] then book else Mean(MeanAll(book, updates[..|updates| - 1]), updates[|updates| - 1])
  }

  predicate IsSnapshot(event: BookEvent) { event.kind == "snapshot" }

  /** A product's book after every event the venue ever sent of it. */
  function VenueBook(history: seq<BookEvent>): QuoteBook
    decreases |history|, 1
  {
    if history == [] then NO_QUOTES else MeanAll(VenueBefore(history), history[|history| - 1].updates)
  }

  /** What the last event is applied to. */
  function VenueBefore(history: seq<BookEvent>): QuoteBook
    requires history != []
    decreases |history|, 0
  {
    if IsSnapshot(history[|history| - 1]) then NO_QUOTES else VenueBook(history[..|history| - 1])
  }

  // ----- What the decoder reads -----------------------------------------------------

  predicate IsRead(precision: Precision, change: Change) {
    RequireScaled(change.price, precision.price).Read? && RequireScaled(change.quantity, precision.quantity).Read?
  }

  /** A level the decoder reads, as it will be applied to a full-depth book. */
  function Take(precision: Precision, book: BookState, change: Change): BookState {
    var price, quantity := RequireScaled(change.price, precision.price), RequireScaled(change.quantity, precision.quantity);
    if !price.Read? || !quantity.Read? then book
    else if change.side == "bid" then book.(bids := Set(book.bids, Level(price.value, quantity.value)))
    else book.(asks := Set(book.asks, Level(price.value, quantity.value)))
  }

  function TakeAll(precision: Precision, book: BookState, updates: seq<Change>): BookState {
    if updates == [] then book
    else Take(precision, TakeAll(precision, book, updates[..|updates| - 1]), updates[|updates| - 1])
  }

  function ReadBook(precision: Precision, history: seq<BookEvent>): BookState
    decreases |history|, 1
  {
    if history == [] then EMPTY else TakeAll(precision, ReadBefore(precision, history), history[|history| - 1].updates)
  }

  function ReadBefore(precision: Precision, history: seq<BookEvent>): BookState
    requires history != []
    decreases |history|, 0
  {
    if IsSnapshot(history[|history| - 1]) then EMPTY else ReadBook(precision, history[..|history| - 1])
  }

  /** Applying the levels read to a full-depth book is taking them one at a time. */
  lemma {:induction false} LevelsTakeAll(precision: Precision, book: BookState, updates: seq<Change>)
    requires ReadLevels(updates, precision).status == Fine
    ensures var sides := ReadLevels(updates, precision);
      TakeAll(precision, book, updates) == BookState(SetAll(book.bids, sides.buys), SetAll(book.asks, sides.sells))
  {
    if updates != [] {
      var rest, last := updates[..|updates| - 1], updates[|updates| - 1];
      LevelsTakeAll(precision, book, rest);
      LevelIsRead(ReadLevels(rest, precision), last, precision);
    }
  }

  lemma LevelIsRead(before: Sides, change: Change, precision: Precision)
    requires before.status == Fine && AddLevel(before, change, precision).status == Fine
    ensures IsRead(precision, change) && (change.side == "bid" || change.side == "offer")
    ensures var after := AddLevel(before, change, precision);
      var level := Level(RequireScaled(change.price, precision.price).value,
                         RequireScaled(change.quantity, precision.quantity).value);
      forall side: Side ::
        && SetAll(side, after.buys) == (if change.side == "bid" then Set(SetAll(side, before.buys), level)
                                        else SetAll(side, before.buys))
        && SetAll(side, after.sells) == (if change.side == "bid" then SetAll(side, before.sells)
                                         else Set(SetAll(side, before.sells), level))
  {
    var level := Level(RequireScaled(change.price, precision.price).value,
                       RequireScaled(change.quantity, precision.quantity).value);
    assert (before.buys + [level])[..|before.buys|] == before.buys;
    assert (before.sells + [level])[..|before.sells|] == before.sells;
  }

  lemma MessageTakesAll(precision: Precision, book: BookState, event: BookEvent, venueTime: i64, captureTime: i64)
    requires IsKind(event.kind) && ReadLevels(event.updates, precision).status == Fine
    ensures Apply(FULL_DEPTH, book, MakeMessage(event, ReadLevels(event.updates, precision), venueTime, captureTime))
         == TakeAll(precision, if IsSnapshot(event) then EMPTY else book, event.updates)
  {
    LevelsTakeAll(precision, if IsSnapshot(event) then EMPTY else book, event.updates);
  }

  // ----- One stands for the other ---------------------------------------------------

  ghost predicate Has(side: Side, decimals: nat, x: real) { exists p: i64 :: p in side && Amount(p, decimals) == x }

  ghost predicate SideStands(precision: Precision, side: Side, quotes: Quotes) {
    && (forall p: i64 :: p in side ==>
         Amount(p, precision.price) in quotes && quotes[Amount(p, precision.price)] == Amount(side[p], precision.quantity))
    && (forall x :: x in quotes ==> Has(side, precision.price, x))
  }

  /** The scaled book holds the same levels as the venue's, no more and no less. */
  ghost predicate Stands(precision: Precision, book: BookState, quotes: QuoteBook) {
    SideStands(precision, book.bids, quotes.bids) && SideStands(precision, book.asks, quotes.asks)
  }

  lemma SetStands(precision: Precision, side: Side, quotes: Quotes, level: Level)
    requires SideStands(precision, side, quotes)
    ensures SideStands(precision, Set(side, level),
                       Quote(quotes, Amount(level.price, precision.price), Amount(level.quantity, precision.quantity)))
  {
    var price := Amount(level.price, precision.price);
    var after := Set(side, level);
    var quoted := Quote(quotes, price, Amount(level.quantity, precision.quantity));
    ZeroAmount(level.quantity, precision.quantity);
    forall p: i64 | p in after
      ensures Amount(p, precision.price) in quoted
      ensures quoted[Amount(p, precision.price)] == Amount(after[p], precision.quantity)
    {
      AmountsDiffer(p, level.price, precision.price);
    }
    forall x | x in quoted ensures Has(after, precision.price, x) {
      if x == price {
        assert level.price in after;
      } else {
        assert x in quotes;
        var p: i64 :| p in side && Amount(p, precision.price) == x;
        assert p in after;
      }
    }
  }

  /** A change as read, against the change as meant. */
  lemma LargePriceIsWrong(precision: Precision, side: Side, quotes: Quotes, price: string, quantity: string)
    requires Decimals.IsDecimal(price) && RequireScaled(price, precision.price).Read?
    requires !Decimals.FloorFits(price, precision.price) && Decimals.IsDecimal(quantity) && Worth(quantity) != 0.0
    ensures !SideStands(precision, side, Quote(quotes, Worth(price), Worth(quantity)))
  {
    if Has(side, precision.price, Worth(price)) {
      var p: i64 :| p in side && Amount(p, precision.price) == Worth(price);
      TooLargeIsNoAmount(price, precision.price, p);
    }
    assert Worth(price) in Quote(quotes, Worth(price), Worth(quantity));
  }

  lemma LargeQuantityIsWrong(precision: Precision, side: Side, quotes: Quotes, price: string, quantity: string)
    requires Decimals.IsDecimal(price) && Decimals.IsDecimal(quantity) && RequireScaled(quantity, precision.quantity).Read?
    requires !Decimals.FloorFits(quantity, precision.quantity)
    ensures Worth(quantity) != 0.0
    ensures !SideStands(precision, side, Quote(quotes, Worth(price), Worth(quantity)))
  {
    TooLargeIsNoAmount(quantity, precision.quantity, 0);
    ZeroAmount(0, precision.quantity);
    var quoted := Quote(quotes, Worth(price), Worth(quantity));
    if SideStands(precision, side, quoted) {
      assert Worth(price) in quoted;
      assert Has(side, precision.price, Worth(price));
      var p: i64 :| p in side && Amount(p, precision.price) == Worth(price);
      TooLargeIsNoAmount(quantity, precision.quantity, side[p]);
    }
  }

  /** Removing a level the venue cannot have: harmless unless what its price is read as is in the book. */
  lemma LargeRemoval(precision: Precision, side: Side, quotes: Quotes, price: string)
    requires SideStands(precision, side, quotes)
    requires Decimals.IsDecimal(price) && RequireScaled(price, precision.price).Read?
    requires !Decimals.FloorFits(price, precision.price)
    ensures var taken := RequireScaled(price, precision.price).value;
      SideStands(precision, side - {taken}, quotes - {Worth(price)}) <==> taken !in side
  {
    var taken := RequireScaled(price, precision.price).value;
    if Worth(price) in quotes {
      var p: i64 :| p in side && Amount(p, precision.price) == Worth(price);
      TooLargeIsNoAmount(price, precision.price, p);
    }
    assert quotes - {Worth(price)} == quotes;
    if taken in side {
      if Has(side - {taken}, precision.price, Amount(taken, precision.price)) {
        var p: i64 :| p in side - {taken} && Amount(p, precision.price) == Amount(taken, precision.price);
        AmountsDiffer(p, taken, precision.price);
      }
    } else {
      assert side - {taken} == side;
    }
  }

  // ----- Exactly when the readings are right ----------------------------------------

  predicate FitsAt(precision: Precision, change: Change)
    requires IsNumber(change)
  {
    Decimals.FloorFits(change.price, precision.price) && Decimals.FloorFits(change.quantity, precision.quantity)
  }

  /** Both texts fit; or the change removes a level too dear to be in the book, and is read as one that is not there. */
  predicate HarmlessTo(precision: Precision, side: Side, change: Change)
    requires IsNumber(change)
  {
    || FitsAt(precision, change)
    || (&& !Decimals.FloorFits(change.price, precision.price) && Decimals.Numerator(change.quantity) == 0
        && RequireScaled(change.price, precision.price).Read?
        && RequireScaled(change.price, precision.price).value !in side)
  }

  predicate Harmless(precision: Precision, book: BookState, change: Change)
    requires IsNumber(change)
  {
    HarmlessTo(precision, if change.side == "bid" then book.bids else book.asks, change)
  }

  lemma ZeroFits(text: string, decimals: nat)
    requires Decimals.IsDecimal(text) && RequireScaled(text, decimals).Read? && Decimals.Numerator(text) == 0
    ensures Decimals.FloorFits(text, decimals) && RequireScaled(text, decimals).value == 0
  {
    ZeroWorth(text);
    ZeroAmount(0, decimals);
    if !Decimals.FloorFits(text, decimals) { TooLargeIsNoAmount(text, decimals, 0); }
    ReadIsNotTooFine(text, decimals);
    ReadsWhatIsSent(text, decimals);
    ZeroAmount(RequireScaled(text, decimals).value, decimals);
  }

  lemma ReadIsNotTooFine(text: string, decimals: nat)
    requires RequireScaled(text, decimals).Read?
    ensures Decimals.FractionDigits(text) <= decimals
  {
  }

  /** One change read into a right side leaves it right if and only if the change is harmless. */
  lemma SideStaysExactlyIfHarmless(precision: Precision, side: Side, quotes: Quotes, change: Change)
    requires SideStands(precision, side, quotes) && IsNumber(change) && IsRead(precision, change)
    ensures var level := Level(RequireScaled(change.price, precision.price).value,
                               RequireScaled(change.quantity, precision.quantity).value);
      SideStands(precision, Set(side, level), Quote(quotes, Worth(change.price), Worth(change.quantity)))
      <==> HarmlessTo(precision, side, change)
  {
    var price, quantity := change.price, change.quantity;
    var level := Level(RequireScaled(price, precision.price).value, RequireScaled(quantity, precision.quantity).value);
    ReadIsNotTooFine(price, precision.price);
    ReadIsNotTooFine(quantity, precision.quantity);
    ZeroWorth(quantity);
    if !Decimals.FloorFits(quantity, precision.quantity) {
      LargeQuantityIsWrong(precision, Set(side, level), quotes, price, quantity);
    } else if Decimals.FloorFits(price, precision.price) {
      ReadsWhatIsSent(price, precision.price);
      ReadsWhatIsSent(quantity, precision.quantity);
      SetStands(precision, side, quotes, level);
    } else if Worth(quantity) != 0.0 {
      LargePriceIsWrong(precision, Set(side, level), quotes, price, quantity);
    } else {
      ZeroFits(quantity, precision.quantity);
      LargeRemoval(precision, side, quotes, price);
    }
  }

  lemma StaysExactlyIfHarmless(precision: Precision, book: BookState, quotes: QuoteBook, change: Change)
    requires Stands(precision, book, quotes) && IsNumber(change) && IsRead(precision, change)
    requires change.side == "bid" || change.side == "offer"
    ensures Stands(precision, Take(precision, book, change), Mean(quotes, change)) <==> Harmless(precision, book, change)
  {
    if change.side == "bid" {
      SideStaysExactlyIfHarmless(precision, book.bids, quotes.bids, change);
    } else {
      SideStaysExactlyIfHarmless(precision, book.asks, quotes.asks, change);
    }
  }

  // ----- Over a history -------------------------------------------------------------

  /** There is a snapshot, and the decoder read it and everything since. */
  predicate ReadSince(precision: Precision, history: seq<BookEvent>) {
    && history != []
    && ReadLevels(history[|history| - 1].updates, precision).status == Fine
    && (IsSnapshot(history[|history| - 1]) || ReadSince(precision, history[..|history| - 1]))
  }

  predicate AreNumbers(updates: seq<Change>) { forall i :: 0 <= i < |updates| ==> IsNumber(updates[i]) }

  /** Every text since the last snapshot is a decimal. */
  predicate NumbersSince(history: seq<BookEvent>) {
    && history != []
    && AreNumbers(history[|history| - 1].updates)
    && (IsSnapshot(history[|history| - 1]) || NumbersSince(history[..|history| - 1]))
  }

  /** Every decimal since the last snapshot fits. */
  predicate FitSince(precision: Precision, history: seq<BookEvent>)
    requires NumbersSince(history)
  {
    var last := history[|history| - 1];
    && (forall i :: 0 <= i < |last.updates| ==> FitsAt(precision, last.updates[i]))
    && (IsSnapshot(last) || FitSince(precision, history[..|history| - 1]))
  }

  /** The book read stands for the venue's now, and did after every change before. */
  ghost predicate RightAll(precision: Precision, book: BookState, quotes: QuoteBook, updates: seq<Change>) {
    && Stands(precision, TakeAll(precision, book, updates), MeanAll(quotes, updates))
    && (updates == [] || RightAll(precision, book, quotes, updates[..|updates| - 1]))
  }

  predicate HarmlessAll(precision: Precision, book: BookState, updates: seq<Change>)
    requires AreNumbers(updates)
  {
    updates == []
    || (&& Harmless(precision, TakeAll(precision, book, updates[..|updates| - 1]), updates[|updates| - 1])
        && HarmlessAll(precision, book, updates[..|updates| - 1]))
  }

  ghost predicate RightSince(precision: Precision, history: seq<BookEvent>) {
    && history != []
    && RightAll(precision, ReadBefore(precision, history), VenueBefore(history), history[|history| - 1].updates)
    && (IsSnapshot(history[|history| - 1]) || RightSince(precision, history[..|history| - 1]))
  }

  predicate HarmlessSince(precision: Precision, history: seq<BookEvent>)
    requires NumbersSince(history)
  {
    && HarmlessAll(precision, ReadBefore(precision, history), history[|history| - 1].updates)
    && (IsSnapshot(history[|history| - 1]) || HarmlessSince(precision, history[..|history| - 1]))
  }

  lemma {:induction false} BatchIsRightExactlyIfHarmless(precision: Precision, book: BookState, quotes: QuoteBook,
                                                         updates: seq<Change>)
    requires Stands(precision, book, quotes) && AreNumbers(updates) && ReadLevels(updates, precision).status == Fine
    ensures RightAll(precision, book, quotes, updates) <==> HarmlessAll(precision, book, updates)
  {
    if updates != [] {
      var rest, last := updates[..|updates| - 1], updates[|updates| - 1];
      BatchIsRightExactlyIfHarmless(precision, book, quotes, rest);
      LevelIsRead(ReadLevels(rest, precision), last, precision);
      if RightAll(precision, book, quotes, rest) {
        StaysExactlyIfHarmless(precision, TakeAll(precision, book, rest), MeanAll(quotes, rest), last);
      }
    }
  }

  /**
    What the decoder makes of a product stands for the venue's own book after every change since the last snapshot
    if and only if each of them fits, or removes a level too dear to be there and is read as one that is not.
   */
  lemma {:induction false} RightExactlyIfHarmless(precision: Precision, history: seq<BookEvent>)
    requires ReadSince(precision, history) && NumbersSince(history)
    ensures RightSince(precision, history) <==> HarmlessSince(precision, history)
    ensures RightSince(precision, history) ==> Stands(precision, ReadBook(precision, history), VenueBook(history))
  {
    var rest, last := history[..|history| - 1], history[|history| - 1];
    if IsSnapshot(last) {
      BatchIsRightExactlyIfHarmless(precision, EMPTY, NO_QUOTES, last.updates);
    } else {
      RightExactlyIfHarmless(precision, rest);
      if RightSince(precision, rest) {
        BatchIsRightExactlyIfHarmless(precision, ReadBook(precision, rest), VenueBook(rest), last.updates);
      }
    }
  }

  lemma {:induction false} BatchThatFitsIsHarmless(precision: Precision, book: BookState, updates: seq<Change>)
    requires AreNumbers(updates) && forall i :: 0 <= i < |updates| ==> FitsAt(precision, updates[i])
    ensures HarmlessAll(precision, book, updates)
  {
    if updates != [] { BatchThatFitsIsHarmless(precision, book, updates[..|updates| - 1]); }
  }

  lemma {:induction false} FittingIsHarmless(precision: Precision, history: seq<BookEvent>)
    requires NumbersSince(history) && FitSince(precision, history)
    ensures HarmlessSince(precision, history)
  {
    BatchThatFitsIsHarmless(precision, ReadBefore(precision, history), history[|history| - 1].updates);
    if !IsSnapshot(history[|history| - 1]) { FittingIsHarmless(precision, history[..|history| - 1]); }
  }
}
