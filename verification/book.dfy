/** Order-book normalisation (clob_client.py, `_parse_orderbook` and
    `_parse_order_level`): the venue's levels are parsed, asks are sorted by
    ascending price and bids by descending price, the best prices, the spread
    and the depth of the top ten levels are computed, and each side is cut to
    twenty levels. */
module Book {
  import opened Wrappers
  import opened Helpers
  import opened Text

  /** One level as the venue sends it; `None` stands for a field that is
      missing or does not parse as a number. */
  datatype RawLevel = RawLevel(price: Option<real>, size: Option<real>)

  /** One side of a dict response: the key is missing, holds null, or
      holds a list of levels. */
  datatype DictSide = KeyMissing | KeyNull | KeyLevels(levels: seq<RawLevel>)

  /** The venue's book. An object response (one with an `asks` attribute)
      has each side as a list or as a falsy value (`None`); a dict response
      has each side as a `DictSide`; any other response is `NotABook`. */
  datatype RawBook =
    | ObjectBook(asks: Option<seq<RawLevel>>, bids: Option<seq<RawLevel>>)
    | DictBook(askSide: DictSide, bidSide: DictSide)
    | NotABook

  /** The raw levels of a dict side: a missing key reads as no levels, a
      key holding levels gives them, and a key holding null cannot be
      iterated, which raises a type error (`None` here). */
  function DictLevels(side: DictSide): (r: Option<seq<RawLevel>>)
    ensures r.None? <==> side.KeyNull?
  {
    match side
    case KeyMissing => Some([])
    case KeyNull => None
    case KeyLevels(levels) => Some(levels)
  }

  /** The raw ask levels the parser iterates: an object's empty or null
      side reads as no levels, and `None` stands for a side whose iteration
      raises. */
  function RawAsks(raw: RawBook): Option<seq<RawLevel>> {
    match raw
    case ObjectBook(asks, _) => Some(asks.GetOr([]))
    case DictBook(askSide, _) => DictLevels(askSide)
    case NotABook => Some([])
  }

  /** The raw bid levels, likewise. */
  function RawBids(raw: RawBook): Option<seq<RawLevel>> {
    match raw
    case ObjectBook(_, bids) => Some(bids.GetOr([]))
    case DictBook(_, bidSide) => DictLevels(bidSide)
    case NotABook => Some([])
  }

  /** The normalised book `_parse_orderbook` returns. */
  datatype OrderBook = OrderBook(
    asks: seq<Level>,
    bids: seq<Level>,
    bestAsk: Option<real>,
    bestBid: Option<real>,
    spreadPct: Option<real>,
    asksDepth: real,
    bidsDepth: real)

  /** Number of levels summed into the depth figures. */
  const DepthLevels: nat := 10
  /** Number of levels kept on each side. */
  const KeptLevels: nat := 20

  /** `_parse_order_level`: a missing or unparsable field becomes 0. */
  function ParseLevel(l: RawLevel): (r: Level)
    ensures l.price.None? ==> r.price == 0.0
    ensures l.size.None? ==> r.size == 0.0
    ensures l.price.Some? ==> r.price == l.price.value
    ensures l.size.Some? ==> r.size == l.size.value
  {
    Level(l.price.GetOr(0.0), l.size.GetOr(0.0))
  }

  /** A level written out in full by the venue parses back to itself. */
  lemma ParseLevelRoundTrip(level: Level)
    ensures ParseLevel(RawLevel(Some(level.price), Some(level.size))) == level
  {
  }

  function ParseLevels(raw: seq<RawLevel>): (r: seq<Level>)
    ensures |r| == |raw|
    ensures forall i :: 0 <= i < |raw| ==> r[i] == ParseLevel(raw[i])
  {
    if raw == [] then [] else [ParseLevel(raw[0])] + ParseLevels(raw[1..])
  }

  /** The parsed ask levels of a response, in the venue's order. */
  function AskLevels(raw: RawBook): seq<Level>
    requires RawAsks(raw).Some?
  {
    ParseLevels(RawAsks(raw).value)
  }

  /** The parsed bid levels of a response, in the venue's order. */
  function BidLevels(raw: RawBook): seq<Level>
    requires RawBids(raw).Some?
  {
    ParseLevels(RawBids(raw).value)
  }

  datatype Direction = Ascending | Descending

  /** Price `p` may precede price `q` in direction `dir`. */
  predicate PriceInOrder(dir: Direction, p: real, q: real) {
    match dir
    case Ascending => p <= q
    case Descending => p >= q
  }

  /** `a` may precede `b` in a list sorted in direction `dir`. */
  predicate InOrder(dir: Direction, a: Level, b: Level) {
    PriceInOrder(dir, a.price, b.price)
  }

  predicate Sorted(dir: Direction, s: seq<Level>) {
    forall i, j :: 0 <= i < j < |s| ==> InOrder(dir, s[i], s[j])
  }

  /** Inserts `x` into a sorted list in front of every level it does not
      have to follow, so that `x` stays ahead of the levels of equal price. */
  function Insert(dir: Direction, x: Level, s: seq<Level>): (r: seq<Level>)
    requires Sorted(dir, s)
    ensures Sorted(dir, r)
    ensures multiset(r) == multiset(s) + multiset{x}
    ensures |r| == |s| + 1
    ensures SumSizes(r) == x.size + SumSizes(s)
  {
    if s == [] || InOrder(dir, x, s[0]) then
      ConsSorted(dir, x, s);
      assert ([x] + s)[1..] == s;
      [x] + s
    else
      var rest := Insert(dir, x, s[1..]);
      assert s == [s[0]] + s[1..];
      HeadPrecedes(dir, s, x, rest);
      ConsSorted(dir, s[0], rest);
      assert ([s[0]] + rest)[1..] == rest;
      [s[0]] + rest
  }

  /** A level that may precede the head of a sorted list may precede the
      whole list. */
  lemma ConsSorted(dir: Direction, a: Level, s: seq<Level>)
    requires Sorted(dir, s)
    requires s == [] || InOrder(dir, a, s[0])
    ensures Sorted(dir, [a] + s)
  {
    var r := [a] + s;
    forall i, j | 0 <= i < j < |r|
      ensures InOrder(dir, r[i], r[j])
    {
      if i == 0 {
        assert r[j] == s[j - 1];
        if j > 1 {
          assert InOrder(dir, s[0], s[j - 1]);
        }
      } else {
        assert r[i] == s[i - 1] && r[j] == s[j - 1];
      }
    }
  }

  /** The head of a sorted list may precede every level of its tail with
      `x` inserted, when it may precede `x`. */
  lemma HeadPrecedes(dir: Direction, s: seq<Level>, x: Level, rest: seq<Level>)
    requires Sorted(dir, s) && s != [] && !InOrder(dir, x, s[0])
    requires multiset(rest) == multiset(s[1..]) + multiset{x}
    ensures forall k :: 0 <= k < |rest| ==> InOrder(dir, s[0], rest[k])
  {
    forall k | 0 <= k < |rest|
      ensures InOrder(dir, s[0], rest[k])
    {
      assert rest[k] in multiset(rest);
      if rest[k] != x {
        assert rest[k] in multiset(s[1..]);
        var j :| 0 <= j < |s[1..]| && s[1..][j] == rest[k];
        assert s[j + 1] == rest[k];
      }
    }
  }

  /** A stable sort by price, ascending or descending; in both directions
      levels at one price keep their relative order, as Python's sort
      does. */
  function Sort(dir: Direction, s: seq<Level>): (r: seq<Level>)
    ensures Sorted(dir, r)
    ensures multiset(r) == multiset(s)
    ensures |r| == |s|
    ensures SumSizes(r) == SumSizes(s)
  {
    if s == [] then []
    else
      assert s == [s[0]] + s[1..];
      Insert(dir, s[0], Sort(dir, s[1..]))
  }

  /** The levels of `s` quoted at price `p`, in their order in `s`. */
  function AtPrice(s: seq<Level>, p: real): seq<Level> {
    if s == [] then [] else (if s[0].price == p then [s[0]] else []) + AtPrice(s[1..], p)
  }

  lemma {:induction false} InsertStable(dir: Direction, x: Level, s: seq<Level>, p: real)
    requires Sorted(dir, s)
    ensures AtPrice(Insert(dir, x, s), p) == (if x.price == p then [x] else []) + AtPrice(s, p)
  {
    if s == [] || InOrder(dir, x, s[0]) {
      assert ([x] + s)[1..] == s;
    } else {
      var rest := Insert(dir, x, s[1..]);
      assert ([s[0]] + rest)[1..] == rest;
      InsertStable(dir, x, s[1..], p);
      assert !(x.price == p && s[0].price == p);
    }
  }

  /** The sort is stable: the levels at any one price keep the venue's
      order. */
  lemma {:induction false} SortStable(dir: Direction, s: seq<Level>, p: real)
    ensures AtPrice(Sort(dir, s), p) == AtPrice(s, p)
  {
    if s != [] {
      SortStable(dir, s[1..], p);
      InsertStable(dir, s[0], Sort(dir, s[1..]), p);
    }
  }

  lemma {:induction false} AtPriceConcat(a: seq<Level>, b: seq<Level>, p: real)
    ensures AtPrice(a + b, p) == AtPrice(a, p) + AtPrice(b, p)
  {
    if a == [] {
      assert a + b == b;
    } else {
      var head := if a[0].price == p then [a[0]] else [];
      assert (a + b)[0] == a[0];
      assert (a + b)[1..] == a[1..] + b;
      assert AtPrice(a + b, p) == head + AtPrice(a[1..] + b, p);
      AtPriceConcat(a[1..], b, p);
      assert AtPrice(a, p) == head + AtPrice(a[1..], p);
      assert head + (AtPrice(a[1..], p) + AtPrice(b, p)) == (head + AtPrice(a[1..], p)) + AtPrice(b, p);
    }
  }

  /** Cutting a list keeps, at every price, a prefix of that price's
      levels. */
  lemma TakeKeepsPricePrefix(s: seq<Level>, n: nat, p: real)
    ensures IsPrefix(AtPrice(Take(s, n), p), AtPrice(s, p))
  {
    var kept := Take(s, n);
    assert s == kept + s[|kept|..];
    AtPriceConcat(kept, s[|kept|..], p);
  }

  /** The first level of a sorted permutation of `s` comes no later, in the
      sort direction, than any level of `s`, and is one of them. */
  lemma FirstIsBest(dir: Direction, s: seq<Level>, sorted: seq<Level>)
    requires Sorted(dir, sorted) && multiset(sorted) == multiset(s)
    ensures |sorted| == |s|
    ensures s != [] ==> forall i :: 0 <= i < |s| ==> InOrder(dir, sorted[0], s[i])
    ensures s != [] ==> exists i :: 0 <= i < |s| && s[i] == sorted[0]
  {
    assert |sorted| == |multiset(sorted)| == |s|;
    if s == [] {
      return;
    }
    forall i | 0 <= i < |s|
      ensures InOrder(dir, sorted[0], s[i])
    {
      assert s[i] in multiset(sorted);
      var j :| 0 <= j < |sorted| && sorted[j] == s[i];
      if j == 0 {
        assert InOrder(dir, sorted[0], sorted[0]);
      }
    }
    assert sorted[0] in multiset(s);
    var k :| 0 <= k < |s| && s[k] == sorted[0];
  }

  function Min(a: nat, b: nat): nat {
    if a <= b then a else b
  }

  /** The first `n` levels, or all of them when there are fewer. */
  function Take(s: seq<Level>, n: nat): (r: seq<Level>)
    ensures |r| == Min(n, |s|)
  {
    s[..Min(n, |s|)]
  }

  /** The price of the first level, `None` for an empty side. */
  function BestPrice(sorted: seq<Level>): Option<real> {
    if sorted == [] then None else Some(sorted[0].price)
  }

  /** Python's truth test on an optional price: present and non-zero. */
  predicate PriceTruthy(p: Option<real>) {
    p.Some? && p.value != 0.0
  }

  /** One side of the normalised book: the kept levels, the best price and
      the depth. */
  datatype Side = Side(levels: seq<Level>, best: Option<real>, depth: real)

  /** The input levels a side leaves out. */
  function Dropped(parsed: seq<Level>, levels: seq<Level>): multiset<Level> {
    multiset(parsed) - multiset(levels)
  }

  /** What a normalised side promises about the parsed levels it came
      from: at most `KeptLevels` levels, sorted in `dir` and drawn from the
      input, with every level left out coming after every level kept (so
      the kept ones are the best) and, at every price, the kept levels
      being the first of that price's levels in the venue's order (as
      with a stable sort); a best price that is `None` exactly for
      an empty input and otherwise the input's extreme price in `dir`; a
      depth equal to the total size of the first `DepthLevels` kept levels,
      which for at most `DepthLevels` levels is the input's total size. */
  ghost predicate SideSpec(dir: Direction, parsed: seq<Level>, levels: seq<Level>, best: Option<real>, depth: real) {
    && |levels| == Min(KeptLevels, |parsed|) && Sorted(dir, levels)
    && multiset(levels) <= multiset(parsed)
    && (forall i, x :: 0 <= i < |levels| && x in Dropped(parsed, levels) ==> InOrder(dir, levels[i], x))
    && (forall p :: IsPrefix(AtPrice(levels, p), AtPrice(parsed, p)))
    && (best.None? <==> parsed == [])
    && (best.Some? ==>
          (forall i :: 0 <= i < |parsed| ==> PriceInOrder(dir, best.value, parsed[i].price)) &&
          (exists i :: 0 <= i < |parsed| && parsed[i].price == best.value))
    && depth == SumSizes(levels[..Min(DepthLevels, |levels|)])
    && (|parsed| <= DepthLevels ==> depth == SumSizes(parsed))
  }

  /** What a prefix leaves of a list is exactly the rest of the list. */
  lemma DroppedIsSuffix(s: seq<Level>, k: nat)
    requires k <= |s|
    ensures Dropped(s, s[..k]) == multiset(s[k..])
  {
    assert s == s[..k] + s[k..];
  }

  /** In a sorted list, every level of a prefix comes before every level
      after it. */
  lemma PrefixBeforeSuffix(dir: Direction, s: seq<Level>, k: nat)
    requires Sorted(dir, s) && k <= |s|
    ensures forall i, x :: 0 <= i < k && x in s[k..] ==> InOrder(dir, s[i], x)
  {
    forall i, x | 0 <= i < k && x in s[k..]
      ensures InOrder(dir, s[i], x)
    {
      var j :| 0 <= j < |s[k..]| && s[k..][j] == x;
      assert x == s[k + j];
    }
  }

  /** Cutting a sorted list leaves out only levels that come after every
      level kept. */
  lemma CutKeepsBest(dir: Direction, sorted: seq<Level>, n: nat)
    requires Sorted(dir, sorted)
    ensures var kept := Take(sorted, n);
            forall i, x :: 0 <= i < |kept| && x in Dropped(sorted, kept) ==> InOrder(dir, kept[i], x)
  {
    var k := Min(n, |sorted|);
    var kept := Take(sorted, n);
    assert kept == sorted[..k];
    DroppedIsSuffix(sorted, k);
    PrefixBeforeSuffix(dir, sorted, k);
    forall i, x | 0 <= i < |kept| && x in Dropped(sorted, kept)
      ensures InOrder(dir, kept[i], x)
    {
      assert kept[i] == sorted[i];
    }
  }

  /** Sorts one side, reads its best price off the first level, sums the
      top `DepthLevels` sizes and keeps the top `KeptLevels` levels. */
  function NormaliseSide(dir: Direction, parsed: seq<Level>): (r: Side)
    ensures SideSpec(dir, parsed, r.levels, r.best, r.depth)
  {
    var sorted := Sort(dir, parsed);
    var kept := Take(sorted, KeptLevels);
    var depth := SumSizes(Take(sorted, DepthLevels));
    assert SideSpec(dir, parsed, kept, BestPrice(sorted), depth) by {
      KeptAreBest(dir, parsed, sorted);
      KeptInVenueOrder(dir, parsed);
      BestIsExtreme(dir, parsed, sorted);
      DepthOfKept(parsed, sorted);
    }
    Side(kept, BestPrice(sorted), depth)
  }

  /** The first `KeptLevels` of a sorted copy are sorted, drawn from the
      input and ahead of every level left out. */
  lemma KeptAreBest(dir: Direction, parsed: seq<Level>, sorted: seq<Level>)
    requires Sorted(dir, sorted) && multiset(sorted) == multiset(parsed)
    ensures var kept := Take(sorted, KeptLevels);
            && |kept| == Min(KeptLevels, |parsed|) && Sorted(dir, kept)
            && multiset(kept) <= multiset(parsed)
            && forall i, x :: 0 <= i < |kept| && x in Dropped(parsed, kept) ==> InOrder(dir, kept[i], x)
  {
    var kept := Take(sorted, KeptLevels);
    assert |sorted| == |multiset(sorted)| == |parsed|;
    assert sorted == kept + sorted[|kept|..];
    assert multiset(sorted) == multiset(kept) + multiset(sorted[|kept|..]);
    CutKeepsBest(dir, sorted, KeptLevels);
  }

  /** At every price, the first `KeptLevels` of the sorted side are the
      first of that price's levels in the venue's order. */
  lemma KeptInVenueOrder(dir: Direction, parsed: seq<Level>)
    ensures forall p :: IsPrefix(AtPrice(Take(Sort(dir, parsed), KeptLevels), p), AtPrice(parsed, p))
  {
    forall p
      ensures IsPrefix(AtPrice(Take(Sort(dir, parsed), KeptLevels), p), AtPrice(parsed, p))
    {
      SortStable(dir, parsed, p);
      TakeKeepsPricePrefix(Sort(dir, parsed), KeptLevels, p);
    }
  }

  lemma {:induction false} AllAtPrice(s: seq<Level>, p: real)
    requires forall i :: 0 <= i < |s| ==> s[i].price == p
    ensures AtPrice(s, p) == s
  {
    if s != [] {
      AllAtPrice(s[1..], p);
      assert s == [s[0]] + s[1..];
    }
  }

  /** When every level of a side shares one price and none is cut, the
      levels are kept in the venue's order, so the depth is the total size
      of the venue's first `DepthLevels` levels: ties are never reordered. */
  lemma OnePriceKeepsVenueOrder(dir: Direction, parsed: seq<Level>, levels: seq<Level>,
                                best: Option<real>, depth: real, p: real)
    requires forall i :: 0 <= i < |parsed| ==> parsed[i].price == p
    requires |parsed| <= KeptLevels
    requires SideSpec(dir, parsed, levels, best, depth)
    ensures levels == parsed
    ensures depth == SumSizes(parsed[..Min(DepthLevels, |parsed|)])
  {
    forall i | 0 <= i < |levels|
      ensures levels[i].price == p
    {
      assert levels[i] in multiset(parsed);
    }
    AllAtPrice(levels, p);
    AllAtPrice(parsed, p);
    assert IsPrefix(AtPrice(levels, p), AtPrice(parsed, p));
  }

  /** The first price of a sorted copy is `None` exactly for an empty input
      and otherwise the input's extreme price. */
  lemma BestIsExtreme(dir: Direction, parsed: seq<Level>, sorted: seq<Level>)
    requires Sorted(dir, sorted) && multiset(sorted) == multiset(parsed)
    ensures var best := BestPrice(sorted);
            && (best.None? <==> parsed == [])
            && (best.Some? ==>
                  (forall i :: 0 <= i < |parsed| ==> PriceInOrder(dir, best.value, parsed[i].price)) &&
                  (exists i :: 0 <= i < |parsed| && parsed[i].price == best.value))
  {
    FirstIsBest(dir, parsed, sorted);
  }

  /** The depth summed over the sorted copy's first `DepthLevels` is the
      depth of the kept levels, and the whole input's size when it is no
      longer than that. */
  lemma DepthOfKept(parsed: seq<Level>, sorted: seq<Level>)
    requires |sorted| == |parsed| && SumSizes(sorted) == SumSizes(parsed)
    ensures var kept := Take(sorted, KeptLevels);
            var depth := SumSizes(Take(sorted, DepthLevels));
            && depth == SumSizes(kept[..Min(DepthLevels, |kept|)])
            && (|parsed| <= DepthLevels ==> depth == SumSizes(parsed))
  {
    var kept := Take(sorted, KeptLevels);
    assert Take(sorted, DepthLevels) == kept[..Min(DepthLevels, |kept|)];
    if |parsed| <= DepthLevels {
      assert Take(sorted, DepthLevels) == sorted;
    }
  }

  /** `_parse_orderbook`; `None` where it raises `TypeError` on a dict
      side holding null, which `get_orderbook` catches and turns into
      `None`. */
  function ParseOrderbook(raw: RawBook): (r: Option<OrderBook>)
    ensures r.None? <==> RawAsks(raw).None? || RawBids(raw).None?
    ensures r.Some? ==> SideSpec(Ascending, AskLevels(raw), r.value.asks, r.value.bestAsk, r.value.asksDepth)
    ensures r.Some? ==> SideSpec(Descending, BidLevels(raw), r.value.bids, r.value.bestBid, r.value.bidsDepth)
    ensures r.Some? ==> (r.value.spreadPct.Some? <==> PriceTruthy(r.value.bestAsk) && PriceTruthy(r.value.bestBid))
    ensures r.Some? && r.value.spreadPct.Some? ==>
              r.value.spreadPct.value == Spread(r.value.bestBid.value, r.value.bestAsk.value)
  {
    if RawAsks(raw).None? || RawBids(raw).None? then None
    else
      var asks := NormaliseSide(Ascending, AskLevels(raw));
      var bids := NormaliseSide(Descending, BidLevels(raw));
      var spread :=
        if PriceTruthy(asks.best) && PriceTruthy(bids.best) then Some(Spread(bids.best.value, asks.best.value))
        else None;
      Some(OrderBook(asks.levels, bids.levels, asks.best, bids.best, spread, asks.depth, bids.depth))
  }

  /** An object response's null side reads as an empty side. */
  lemma ObjectNullSideIsEmpty(bids: Option<seq<RawLevel>>)
    ensures ParseOrderbook(ObjectBook(None, bids)).Some?
    ensures ParseOrderbook(ObjectBook(None, bids)).value.asks == []
    ensures ParseOrderbook(ObjectBook(None, bids)).value.bestAsk == None
  {
    assert AskLevels(ObjectBook(None, bids)) == [];
  }

  /** A dict response's null side makes the whole parse fail, while a
      missing key reads as an empty side. */
  lemma DictNullSideFails(levels: seq<RawLevel>)
    ensures ParseOrderbook(DictBook(KeyNull, KeyLevels(levels))).None?
    ensures ParseOrderbook(DictBook(KeyLevels(levels), KeyNull)).None?
    ensures ParseOrderbook(DictBook(KeyMissing, KeyLevels(levels))).Some?
  {
  }

  /** With non-negative sizes the reported depth of a side is non-negative
      and never more than the total size the venue quoted on that side. */
  lemma DepthBounded(dir: Direction, parsed: seq<Level>)
    requires forall i :: 0 <= i < |parsed| ==> parsed[i].size >= 0.0
    ensures 0.0 <= NormaliseSide(dir, parsed).depth <= SumSizes(parsed)
  {
    var sorted := Sort(dir, parsed);
    forall i | 0 <= i < |sorted|
      ensures sorted[i].size >= 0.0
    {
      assert sorted[i] in multiset(parsed);
    }
    PrefixSumBounded(sorted, Min(DepthLevels, |sorted|));
    SumSizesNonNegative(sorted[..Min(DepthLevels, |sorted|)]);
  }

  /** A response that is not a book parses to an empty book with no prices. */
  lemma NotABookIsEmpty()
    ensures ParseOrderbook(NotABook) == Some(OrderBook([], [], None, None, None, 0.0, 0.0))
  {
  }

  /** Worked examples of the sort: two asks and two bids given out of
      order. */
  lemma SortExample()
    ensures Sort(Ascending, [Level(0.55, 100.0), Level(0.50, 40.0)]) == [Level(0.50, 40.0), Level(0.55, 100.0)]
    ensures Sort(Descending, [Level(0.40, 10.0), Level(0.45, 0.0)]) == [Level(0.45, 0.0), Level(0.40, 10.0)]
  {
    var a1, a2 := Level(0.55, 100.0), Level(0.50, 40.0);
    var b1, b2 := Level(0.40, 10.0), Level(0.45, 0.0);
    assert [a1, a2][1..] == [a2];
    assert [b1, b2][1..] == [b2];
    assert Sort(Ascending, [a2]) == [a2];
    assert Sort(Descending, [b2]) == [b2];
    assert Insert(Ascending, a1, [a2]) == [a2] + Insert(Ascending, a1, []);
    assert Insert(Descending, b1, [b2]) == [b2] + Insert(Descending, b1, []);
  }
}
