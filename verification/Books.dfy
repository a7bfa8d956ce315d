/**
  One pair's book (l2/book.cc): two price maps, a batch of level changes, and one
  truncation after the batch. `Apply` and `Replay` are the specification every
  other module compares copies of a book against; the class keeps the two sides
  sorted best first and is proved to follow them.
 */
module BookSpec {
  import opened Messages

  const FULL_DEPTH: nat := 0

  type Side = map<i64, i64>

  datatype BookState = BookState(bids: Side, asks: Side)

  const EMPTY := BookState(map[], map[])

  /** Best first: bids descend, asks ascend. */
  predicate Before(descending: bool, p: int, q: int) {
    if descending then p > q else p < q
  }

  function Set(side: Side, level: Level): Side {
    if level.quantity == 0 then side - {level.price} else side[level.price := level.quantity]
  }

  function SetAll(side: Side, levels: seq<Level>): Side {
    if levels == [] then side
    else Set(SetAll(side, levels[..|levels| - 1]), levels[|levels| - 1])
  }

  function Better(descending: bool, side: Side, p: i64): set<i64> {
    set q | q in side && Before(descending, q, p)
  }

  /** The best `depth` levels: those fewer than `depth` others come before. */
  function Top(descending: bool, depth: nat, side: Side): Side {
    if depth == FULL_DEPTH then side
    else map p | p in side && |Better(descending, side, p)| < depth :: side[p]
  }

  function ApplySide(descending: bool, depth: nat, side: Side, levels: seq<Level>): Side {
    Top(descending, depth, SetAll(side, levels))
  }

  function Apply(depth: nat, book: BookState, message: Message): BookState {
    var start := if message.kind.Snapshot? then EMPTY else book;
    BookState(ApplySide(true, depth, start.bids, message.buys),
              ApplySide(false, depth, start.asks, message.sells))
  }

  function Replay(depth: nat, messages: seq<Message>): BookState {
    if messages == [] then EMPTY
    else Apply(depth, Replay(depth, messages[..|messages| - 1]), messages[|messages| - 1])
  }

  // ----- Sorted listings of a side --------------------------------------------------

  ghost predicate Sorted(descending: bool, s: seq<Level>) {
    forall i, j :: 0 <= i < j < |s| ==> Before(descending, s[i].price, s[j].price)
  }

  ghost predicate Listed(s: seq<Level>, p: int) {
    exists i :: 0 <= i < |s| && s[i].price == p
  }

  /** `s` lists exactly the levels of `side`, best first. */
  ghost predicate Lists(descending: bool, s: seq<Level>, side: Side) {
    && Sorted(descending, s)
    && (forall i :: 0 <= i < |s| ==> s[i].price in side && side[s[i].price] == s[i].quantity)
    && (forall p :: p in side ==> Listed(s, p))
  }

  lemma BetterGrows(descending: bool, s: seq<Level>, side: Side, i: nat)
    requires Lists(descending, s, side) && 0 < i < |s|
    ensures Better(descending, side, s[i].price) == Better(descending, side, s[i - 1].price) + {s[i - 1].price}
    ensures s[i - 1].price !in Better(descending, side, s[i - 1].price)
  {
    forall q | q in Better(descending, side, s[i].price)
      ensures q in Better(descending, side, s[i - 1].price) + {s[i - 1].price}
    {
      assert Listed(s, q);
      var k :| 0 <= k < |s| && s[k].price == q;
      assert k < i;
    }
  }

  lemma {:induction false} RankInListing(descending: bool, s: seq<Level>, side: Side, i: nat)
    requires Lists(descending, s, side) && i < |s|
    ensures |Better(descending, side, s[i].price)| == i
  {
    if i == 0 {
      assert Better(descending, side, s[0].price) == {};
    } else {
      RankInListing(descending, s, side, i - 1);
      BetterGrows(descending, s, side, i);
    }
  }

  function Cut(depth: nat, s: seq<Level>): seq<Level> {
    if depth == FULL_DEPTH || |s| <= depth then s else s[..depth]
  }

  /** Cutting a listing at `depth` lists the top `depth` levels. */
  lemma CutListing(descending: bool, s: seq<Level>, side: Side, depth: nat)
    requires Lists(descending, s, side)
    ensures Lists(descending, Cut(depth, s), Top(descending, depth, side))
  {
    var cut := Cut(depth, s);
    forall i | 0 <= i < |s| ensures s[i].price in Top(descending, depth, side) <==> i < |cut| {
      RankInListing(descending, s, side, i);
    }
    forall p | p in Top(descending, depth, side) ensures Listed(cut, p) {
      assert Listed(s, p);
      var i :| 0 <= i < |s| && s[i].price == p;
      assert cut[i].price == p;
    }
  }

  lemma {:induction false} ListingLength(descending: bool, s: seq<Level>, side: Side)
    requires Lists(descending, s, side)
    ensures |s| == |side|
  {
    if s == [] {
      assert side == map[];
    } else {
      var last := s[|s| - 1].price;
      var rest := side - {last};
      forall p | p in rest ensures Listed(s[..|s| - 1], p) {
        var i :| 0 <= i < |s| && s[i].price == p;
        assert s[..|s| - 1][i].price == p;
      }
      ListingLength(descending, s[..|s| - 1], rest);
      assert side.Keys == rest.Keys + {last};
      assert |side.Keys| == |side|;
      assert |rest.Keys| == |rest|;
    }
  }

  predicate Worst(descending: bool, prices: set<i64>, p: i64) {
    p in prices && forall q :: q in prices ==> q == p || Before(descending, q, p)
  }

  lemma {:induction false} WorstExists(descending: bool, prices: set<i64>)
    requires prices != {}
    ensures exists p :: Worst(descending, prices, p)
  {
    var x :| x in prices;
    var rest := prices - {x};
    assert forall q :: q in prices ==> q == x || q in rest;
    if rest == {} {
      assert Worst(descending, prices, x);
    } else {
      WorstExists(descending, rest);
      var w :| Worst(descending, rest, w);
      assert Worst(descending, prices, if Before(descending, w, x) then x else w);
    }
  }

  lemma AppendWorst(descending: bool, s: seq<Level>, side: Side, w: i64)
    requires Worst(descending, side.Keys, w)
    requires Lists(descending, s, side - {w})
    ensures Lists(descending, s + [Level(w, side[w])], side)
  {
    var t := s + [Level(w, side[w])];
    forall p | p in side ensures Listed(t, p) {
      if p == w {
        assert t[|s|].price == p;
      } else {
        assert Listed(s, p);
        var i :| 0 <= i < |s| && s[i].price == p;
        assert t[i].price == p;
      }
    }
  }

  /** The levels of `side`, best first: what iterating its std::map yields. */
  function Listing(descending: bool, side: Side): (s: seq<Level>)
    ensures Lists(descending, s, side)
    decreases |side.Keys|
  {
    if side.Keys == {} then []
    else
      WorstExists(descending, side.Keys);
      var w :| Worst(descending, side.Keys, w);
      assert (side - {w}).Keys == side.Keys - {w};
      AppendWorst(descending, Listing(descending, side - {w}), side, w);
      Listing(descending, side - {w}) + [Level(w, side[w])]
  }

  /** A side has one listing only. */
  lemma ListingIsUnique(descending: bool, s: seq<Level>, t: seq<Level>, side: Side)
    requires Lists(descending, s, side) && Lists(descending, t, side)
    ensures s == t
  {
    ListingLength(descending, s, side);
    ListingLength(descending, t, side);
    forall i | 0 <= i < |s| ensures s[i] == t[i] {
      var j :| 0 <= j < |t| && t[j].price == s[i].price;
      RankInListing(descending, s, side, i);
      RankInListing(descending, t, side, j);
    }
  }

  // ----- What truncation keeps ------------------------------------------------------

  ghost predicate Within(t: Side, side: Side) {
    forall p :: p in t ==> p in side && side[p] == t[p]
  }

  /** Every level of `t` is better than every level of `side` that `t` leaves out. */
  ghost predicate Leads(descending: bool, t: Side, side: Side) {
    forall p, q :: p in t && q in side && q !in t ==> Before(descending, p, q)
  }

  function Min(a: int, b: int): int { if a < b then a else b }

  lemma TopShape(descending: bool, depth: nat, side: Side)
    requires depth != FULL_DEPTH
    ensures Within(Top(descending, depth, side), side)
    ensures Leads(descending, Top(descending, depth, side), side)
    ensures |Top(descending, depth, side)| == Min(depth, |side|)
  {
    var s := Listing(descending, side);
    var t := Top(descending, depth, side);
    CutListing(descending, s, side, depth);
    ListingLength(descending, s, side);
    ListingLength(descending, Cut(depth, s), t);
    forall p, q | p in t && q in side && q !in t ensures Before(descending, p, q) {
      if !Before(descending, p, q) {
        assert p != q;
        assert Better(descending, side, q) <= Better(descending, side, p);
        SubsetSize(Better(descending, side, q), Better(descending, side, p));
      }
    }
  }

  lemma {:induction false} SubsetSize<T>(a: set<T>, b: set<T>)
    requires a <= b
    ensures |a| <= |b|
    ensures |a| == |b| ==> a == b
  {
    assert b == a + (b - a);
    assert |b| == |a| + |b - a|;
    if |a| == |b| { assert b - a == {}; }
  }

  /** The three facts of TopShape leave no choice. */
  lemma TopIsUnique(descending: bool, depth: nat, side: Side, t: Side)
    requires depth != FULL_DEPTH
    requires Within(t, side) && Leads(descending, t, side) && |t| == Min(depth, |side|)
    ensures Top(descending, depth, side) == t
  {
    forall p | p in side ensures p in t <==> |Better(descending, side, p)| < depth {
      assert |t.Keys| == |t| && |side.Keys| == |side|;
      if p in t {
        assert Better(descending, side, p) <= t.Keys - {p};
        SubsetSize(Better(descending, side, p), t.Keys - {p});
      } else {
        assert t.Keys <= Better(descending, side, p);
        SubsetSize(t.Keys, Better(descending, side, p));
        SubsetSize(t.Keys, side.Keys);
        assert t.Keys != side.Keys;
      }
    }
  }

  // ----- The batch: last write wins, order does not matter --------------------------

  function LastWrite(levels: seq<Level>, p: i64): Option<i64> {
    if levels == [] then None
    else if levels[|levels| - 1].price == p then Some(levels[|levels| - 1].quantity)
    else LastWrite(levels[..|levels| - 1], p)
  }

  /** After a batch, a price holds the last quantity written to it, and is absent when that is zero. */
  lemma {:induction false} BatchIsLastWrite(side: Side, levels: seq<Level>, p: i64)
    ensures p in SetAll(side, levels)
       <==> match LastWrite(levels, p) case None => p in side case Some(q) => q != 0
    ensures p in SetAll(side, levels) ==>
              SetAll(side, levels)[p] == match LastWrite(levels, p) case None => side[p] case Some(q) => q
  {
    if levels != [] {
      BatchIsLastWrite(side, levels[..|levels| - 1], p);
    }
  }

  ghost predicate DistinctPrices(levels: seq<Level>) {
    forall i, j :: 0 <= i < j < |levels| ==> levels[i].price != levels[j].price
  }

  lemma {:induction false} LastWriteOfDistinct(levels: seq<Level>, p: i64)
    requires DistinctPrices(levels)
    ensures forall i :: 0 <= i < |levels| && levels[i].price == p ==> LastWrite(levels, p) == Some(levels[i].quantity)
    ensures LastWrite(levels, p).Some? ==> Level(p, LastWrite(levels, p).value) in levels
    ensures LastWrite(levels, p).None? ==> forall i :: 0 <= i < |levels| ==> levels[i].price != p
  {
    if levels != [] {
      LastWriteOfDistinct(levels[..|levels| - 1], p);
    }
  }

  /** With distinct prices, any reordering of a batch leaves the same side. */
  lemma BatchOrderIsIrrelevant(descending: bool, depth: nat, side: Side, a: seq<Level>, b: seq<Level>)
    requires DistinctPrices(a) && DistinctPrices(b)
    requires multiset(a) == multiset(b)
    ensures ApplySide(descending, depth, side, a) == ApplySide(descending, depth, side, b)
  {
    forall p: i64 ensures LastWrite(a, p) == LastWrite(b, p) {
      LastWriteOfDistinct(a, p);
      LastWriteOfDistinct(b, p);
      assert forall l :: l in a <==> l in multiset(a);
      assert forall l :: l in b <==> l in multiset(b);
    }
    forall p: i64 ensures p in SetAll(side, a) <==> p in SetAll(side, b)
                  ensures p in SetAll(side, a) ==> SetAll(side, a)[p] == SetAll(side, b)[p] {
      BatchIsLastWrite(side, a, p);
      BatchIsLastWrite(side, b, p);
    }
    assert SetAll(side, a) == SetAll(side, b);
  }

  // ----- Truncation refines the venue's full book -----------------------------------

  /**
    What a venue keeping the full side `before`, which became `after`, sends a
    subscriber at `depth`: every level that enters the top or changes in it, the
    removal of every top level it deleted, and never the removal of one merely
    pushed out. Repeating current top levels is allowed.
   */
  ghost predicate Describes(descending: bool, depth: nat, before: Side, after: Side, levels: seq<Level>) {
    var was := Top(descending, depth, before);
    var now := Top(descending, depth, after);
    && DistinctPrices(levels)
    && (forall l :: l in levels && l.quantity != 0 ==> l.price in now && now[l.price] == l.quantity)
    && (forall l :: l in levels && l.quantity == 0 ==> l.price !in after)
    && (forall p :: p in now && !(p in was && was[p] == now[p]) ==> Level(p, now[p]) in levels)
    && (forall p :: p in was && p !in after ==> Level(p, 0) in levels)
  }

  ghost predicate NoZero(side: Side) { forall p :: p in side ==> side[p] != 0 }

  /** Applying what the venue sends to the top of its old side gives the top of its new one. */
  lemma TruncationRefines(descending: bool, depth: nat, before: Side, after: Side, levels: seq<Level>)
    requires NoZero(after)
    requires Describes(descending, depth, before, after, levels)
    ensures ApplySide(descending, depth, Top(descending, depth, before), levels) == Top(descending, depth, after)
  {
    var was := Top(descending, depth, before);
    var now := Top(descending, depth, after);
    var mixed := SetAll(was, levels);
    forall p: i64 ensures p in mixed <==> p in now || (p in was && p in after)
                  ensures p in now ==> p in mixed && mixed[p] == now[p] {
      BatchIsLastWrite(was, levels, p);
      LastWriteOfDistinct(levels, p);
      if p in now && !(p in was && was[p] == now[p]) {
        assert Level(p, now[p]) in levels;
        var i :| 0 <= i < |levels| && levels[i] == Level(p, now[p]);
        assert LastWrite(levels, p) == Some(now[p]);
      }
      if p in was && p !in after {
        assert Level(p, 0) in levels;
        var i :| 0 <= i < |levels| && levels[i] == Level(p, 0);
        assert LastWrite(levels, p) == Some(0);
      }
    }
    if depth == FULL_DEPTH {
      assert mixed == now;
    } else {
      TopShape(descending, depth, after);
      assert Within(now, mixed) && Leads(descending, now, mixed);
      SubsetSize(now.Keys, mixed.Keys);
      assert |now.Keys| == |now| && |mixed.Keys| == |mixed| && |after.Keys| == |after|;
      if |now| < depth {
        SubsetSize(now.Keys, after.Keys);
        assert now.Keys == after.Keys;
        assert mixed.Keys == now.Keys;
      }
      TopIsUnique(descending, depth, mixed, now);
    }
  }

  /** `books[0]` is empty and each message describes the change from one full book to the next, or snapshots it. */
  ghost predicate VenueRun(depth: nat, books: seq<BookState>, messages: seq<Message>) {
    && |books| == |messages| + 1
    && books[0] == EMPTY
    && forall i :: 0 <= i < |messages| ==> VenueSends(depth, books[i], books[i + 1], messages[i])
  }

  ghost predicate VenueSends(depth: nat, before: BookState, after: BookState, message: Message) {
    var start := if message.kind.Snapshot? then EMPTY else before;
    && NoZero(after.bids) && NoZero(after.asks)
    && Describes(true, depth, start.bids, after.bids, message.buys)
    && Describes(false, depth, start.asks, after.asks, message.sells)
  }

  function TopBook(depth: nat, book: BookState): BookState {
    BookState(Top(true, depth, book.bids), Top(false, depth, book.asks))
  }

  lemma TopOfEmpty(descending: bool, depth: nat)
    ensures Top(descending, depth, map[]) == map[]
  {
  }

  /** However long the run, replaying the venue's messages yields the top of its current full book. */
  lemma {:induction false} ReplayRefinesVenue(depth: nat, books: seq<BookState>, messages: seq<Message>)
    requires VenueRun(depth, books, messages)
    ensures Replay(depth, messages) == TopBook(depth, books[|messages|])
  {
    TopOfEmpty(true, depth);
    TopOfEmpty(false, depth);
    if messages != [] {
      var n := |messages| - 1;
      assert messages[..n] + [messages[n]] == messages;
      assert VenueRun(depth, books[..n + 1], messages[..n]);
      ReplayRefinesVenue(depth, books[..n + 1], messages[..n]);
      assert VenueSends(depth, books[n], books[n + 1], messages[n]);
      var start := if messages[n].kind.Snapshot? then EMPTY else books[n];
      TruncationRefines(true, depth, start.bids, books[n + 1].bids, messages[n].buys);
      TruncationRefines(false, depth, start.asks, books[n + 1].asks, messages[n].sells);
    }
  }

  /** Truncating after every level instead of once per batch would lose levels. */
  lemma TruncatingEachLevelDiffers()
    ensures var was: Side := map[100 := 1];
            var levels := [Level(101, 1), Level(101, 0)];
            && ApplySide(true, 1, was, levels) == was
            && ApplySide(true, 1, ApplySide(true, 1, was, levels[..1]), levels[1..]) == map[]
  {
    var was: Side := map[100 := 1];
    var levels := [Level(101, 1), Level(101, 0)];
    assert levels[..2] == levels && levels[..1] == [levels[0]] && levels[1..] == [levels[1]];
    assert levels[..1][..0] == [] && levels[1..][..0] == [];
    var both: Side := map[100 := 1, 101 := 1];
    assert SetAll(was, levels[..1]) == both;
    assert SetAll(was, levels) == was;
    assert [Level(100, 1)][0].price == 100;
    assert Lists(true, [Level(100, 1)], was);
    CutListing(true, [Level(100, 1)], was, 1);
    assert Top(true, 1, was) == was;
    var listed := [Level(101, 1), Level(100, 1)];
    assert Lists(true, listed, both) by {
      assert listed[0].price == 101 && listed[1].price == 100;
    }
    CutListing(true, listed, both, 1);
    var top := Top(true, 1, both);
    assert listed[..1] == [Level(101, 1)];
    assert top == map[101 := 1];
    assert SetAll(top, levels[1..]) == map[];
    TopOfEmpty(true, 1);
  }

  // ----- Books reached by Apply -----------------------------------------------------

  ghost predicate Fits(depth: nat, book: BookState) {
    && NoZero(book.bids) && NoZero(book.asks)
    && (depth != FULL_DEPTH ==> |book.bids| <= depth && |book.asks| <= depth)
  }

  lemma {:induction false} SetAllKeepsNoZero(side: Side, levels: seq<Level>)
    requires NoZero(side)
    ensures NoZero(SetAll(side, levels))
  {
    if levels != [] { SetAllKeepsNoZero(side, levels[..|levels| - 1]); }
  }

  /** A book never holds a zero quantity or more levels than its depth. */
  lemma ApplyFits(depth: nat, book: BookState, message: Message)
    requires Fits(depth, book)
    ensures Fits(depth, Apply(depth, book, message))
  {
    var start := if message.kind.Snapshot? then EMPTY else book;
    SetAllKeepsNoZero(start.bids, message.buys);
    SetAllKeepsNoZero(start.asks, message.sells);
    if depth != FULL_DEPTH {
      TopShape(true, depth, SetAll(start.bids, message.buys));
      TopShape(false, depth, SetAll(start.asks, message.sells));
    }
  }

  lemma {:induction false} ListingRebuildsSide(descending: bool, depth: nat, s: seq<Level>, side: Side)
    requires Lists(descending, s, side) && NoZero(side)
    requires depth != FULL_DEPTH ==> |side| <= depth
    ensures ApplySide(descending, depth, map[], s) == side
  {
    assert DistinctPrices(s);
    forall p: i64 ensures p in SetAll(map[], s) <==> p in side
                  ensures p in side ==> SetAll(map[], s)[p] == side[p] {
      BatchIsLastWrite(map[], s, p);
      LastWriteOfDistinct(s, p);
      if p in side {
        var i :| 0 <= i < |s| && s[i].price == p;
      }
    }
    assert SetAll(map[], s) == side;
    if depth != FULL_DEPTH {
      TopIsUnique(descending, depth, side, side);
    }
  }

  /** A snapshot listing a book rebuilds exactly that book, at its depth. */
  lemma SnapshotRebuildsBook(depth: nat, book: BookState, was: BookState, snapshot: Message)
    requires Fits(depth, book)
    requires snapshot.kind.Snapshot?
    requires snapshot.buys == Listing(true, book.bids) && snapshot.sells == Listing(false, book.asks)
    ensures Apply(depth, was, snapshot) == book
  {
    ListingRebuildsSide(true, depth, snapshot.buys, book.bids);
    ListingRebuildsSide(false, depth, snapshot.sells, book.asks);
  }
}

/** The class of l2/book.h, its sides kept as sorted sequences. */
module Books {
  import opened Messages
  import opened BookSpec

  /** The first position of `side` not before `price`. */
  method LowerBound(descending: bool, side: seq<Level>, price: i64) returns (i: nat)
    requires Sorted(descending, side)
    ensures i <= |side|
    ensures forall k :: 0 <= k < i ==> Before(descending, side[k].price, price)
    ensures forall k :: i <= k < |side| ==> !Before(descending, side[k].price, price)
  {
    i := 0;
    while i < |side| && Before(descending, side[i].price, price)
      invariant i <= |side|
      invariant forall k :: 0 <= k < i ==> Before(descending, side[k].price, price)
    {
      i := i + 1;
    }
  }

  lemma ErasedIsSorted(descending: bool, side: seq<Level>, i: nat)
    requires Sorted(descending, side) && i < |side|
    ensures Sorted(descending, side[..i] + side[i + 1..])
  {
    var out := side[..i] + side[i + 1..];
    forall j, k | 0 <= j < k < |out| ensures Before(descending, out[j].price, out[k].price) {
      assert out[j] == side[if j < i then j else j + 1] && out[k] == side[if k < i then k else k + 1];
    }
  }

  lemma EraseAt(descending: bool, side: seq<Level>, contents: Side, i: nat)
    requires Lists(descending, side, contents) && i < |side|
    ensures Lists(descending, side[..i] + side[i + 1..], contents - {side[i].price})
  {
    var out := side[..i] + side[i + 1..];
    var rest := contents - {side[i].price};
    ErasedIsSorted(descending, side, i);
    forall k | 0 <= k < |out| ensures out[k].price in rest && rest[out[k].price] == out[k].quantity {
      assert out[k] == side[if k < i then k else k + 1];
    }
    forall p | p in rest ensures Listed(out, p) {
      var k :| 0 <= k < |side| && side[k].price == p;
      assert out[if k < i then k else k - 1].price == p;
    }
  }

  lemma AssignAt(descending: bool, side: seq<Level>, contents: Side, i: nat, level: Level)
    requires Lists(descending, side, contents) && i < |side| && side[i].price == level.price
    ensures Lists(descending, side[i := level], contents[level.price := level.quantity])
  {
    forall p | p in contents ensures Listed(side[i := level], p) {
      var k :| 0 <= k < |side| && side[k].price == p;
      assert side[i := level][k].price == p;
    }
  }

  lemma InsertAt(descending: bool, side: seq<Level>, contents: Side, i: nat, level: Level)
    requires Lists(descending, side, contents) && i <= |side|
    requires forall k :: 0 <= k < i ==> Before(descending, side[k].price, level.price)
    requires forall k :: i <= k < |side| ==> Before(descending, level.price, side[k].price)
    ensures Lists(descending, side[..i] + [level] + side[i..], contents[level.price := level.quantity])
  {
    var out := side[..i] + [level] + side[i..];
    InsertedIsSorted(descending, side, i, level, out);
    assert out[i] == level;
    forall p | p in contents ensures Listed(out, p) {
      var k :| 0 <= k < |side| && side[k].price == p;
      assert out[if k < i then k else k + 1].price == p;
    }
  }

  lemma InsertedIsSorted(descending: bool, side: seq<Level>, i: nat, level: Level, out: seq<Level>)
    requires Sorted(descending, side) && i <= |side| && out == side[..i] + [level] + side[i..]
    requires forall k :: 0 <= k < i ==> Before(descending, side[k].price, level.price)
    requires forall k :: i <= k < |side| ==> Before(descending, level.price, side[k].price)
    ensures Sorted(descending, out)
  {
    assert forall k :: 0 <= k < |out| ==> out[k] == if k < i then side[k] else if k == i then level else side[k - 1];
  }

  /** One level of a batch: std::map's erase, or insert_or_assign. */
  method SetLevel(descending: bool, side: seq<Level>, level: Level, ghost contents: Side)
    returns (out: seq<Level>)
    requires Lists(descending, side, contents)
    ensures Lists(descending, out, Set(contents, level))
  {
    var i := LowerBound(descending, side, level.price);
    var found := i < |side| && side[i].price == level.price;
    if level.quantity == 0 {
      if found {
        EraseAt(descending, side, contents, i);
        out := side[..i] + side[i + 1..];
      } else {
        out := side;
        assert level.price !in contents;
      }
    } else if found {
      out := side[i := level];
      AssignAt(descending, side, contents, i, level);
    } else {
      out := side[..i] + [level] + side[i..];
      InsertAt(descending, side, contents, i, level);
    }
  }

  method ApplyLevels(levels: seq<Level>, depth: nat, descending: bool, side: seq<Level>, ghost contents: Side)
    returns (out: seq<Level>)
    requires Lists(descending, side, contents)
    ensures Lists(descending, out, ApplySide(descending, depth, contents, levels))
  {
    out := side;
    var i := 0;
    while i < |levels|
      invariant 0 <= i <= |levels|
      invariant Lists(descending, out, SetAll(contents, levels[..i]))
    {
      assert levels[..i + 1][..i] == levels[..i];
      out := SetLevel(descending, out, levels[i], SetAll(contents, levels[..i]));
      i := i + 1;
    }
    assert levels[..i] == levels;
    CutListing(descending, out, SetAll(contents, levels), depth);
    if depth != FULL_DEPTH && |out| > depth {
      out := out[..depth];
    }
  }

  class Book {
    const depth: nat
    var bids: seq<Level>
    var asks: seq<Level>
    ghost var state: BookState

    ghost predicate Valid()
      reads this
    {
      && Lists(true, bids, state.bids) && Lists(false, asks, state.asks)
      && Fits(depth, state)
    }

    /** Iterating a side yields its listing. */
    lemma SidesAreListings()
      requires Valid()
      ensures bids == Listing(true, state.bids) && asks == Listing(false, state.asks)
    {
      ListingIsUnique(true, bids, Listing(true, state.bids), state.bids);
      ListingIsUnique(false, asks, Listing(false, state.asks), state.asks);
    }

    constructor (depth: nat)
      ensures Valid() && this.depth == depth && state == EMPTY
    {
      this.depth := depth;
      bids, asks := [], [];
      state := EMPTY;
    }

    method Apply(message: Message)
      requires Valid()
      modifies this
      ensures Valid()
      ensures state == BookSpec.Apply(depth, old(state), message)
    {
      ghost var after := BookSpec.Apply(depth, state, message);
      ApplyFits(depth, state, message);
      if message.kind.Snapshot? {
        Clear();
      }
      bids := ApplyLevels(message.buys, depth, true, bids, state.bids);
      asks := ApplyLevels(message.sells, depth, false, asks, state.asks);
      state := after;
    }

    method Clear()
      requires Valid()
      modifies this
      ensures Valid() && state == EMPTY
    {
      bids, asks := [], [];
      state := EMPTY;
    }
  }
}
