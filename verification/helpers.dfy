/** Market predicates and price arithmetic shared by the scanner, the signal
    engine and the executor (utils/helpers.py). */
module Helpers {
  import opened Text

  /** One price level of an order book: `{"price": p, "size": s}`. */
  datatype Level = Level(price: real, size: real)

  /** `calculate_spread`: the bid/ask gap as a percentage of the ask, or 100
      when there is no ask price to divide by. */
  function Spread(bestBid: real, bestAsk: real): (r: real)
    ensures bestAsk == 0.0 ==> r == 100.0
    ensures bestAsk != 0.0 ==> (r == 0.0 <==> bestBid == bestAsk)
    ensures 0.0 <= bestBid <= bestAsk && bestAsk > 0.0 ==> 0.0 <= r <= 100.0
  {
    if bestAsk == 0.0 then 100.0 else ((bestAsk - bestBid) / bestAsk) * 100.0
  }

  /** The spread loses no information: the bid can be read back from the ask
      and the spread. */
  lemma SpreadRecoversBid(bestBid: real, bestAsk: real)
    requires bestAsk != 0.0
    ensures bestAsk - bestAsk * Spread(bestBid, bestAsk) / 100.0 == bestBid
  {
  }

  /** `calculate_slippage`: how far the fill moved from the expected price, as
      a percentage of the expected price (positive means a worse fill). */
  function Slippage(expected: real, actual: real): (r: real)
    ensures expected == 0.0 ==> r == 0.0
    ensures actual == expected ==> r == 0.0
    ensures expected > 0.0 ==> (r > 0.0 <==> actual > expected)
    ensures expected > 0.0 ==> (r < 0.0 <==> actual < expected)
  {
    if expected == 0.0 then 0.0 else ((actual - expected) / expected) * 100.0
  }

  /** Slippage is invertible: applying it to the expected price gives back the
      fill price. */
  lemma SlippageRoundTrip(expected: real, actual: real)
    requires expected != 0.0
    ensures expected + expected * Slippage(expected, actual) / 100.0 == actual
  {
  }

  /** Total size of a run of levels. */
  function SumSizes(levels: seq<Level>): real
  {
    if levels == [] then 0.0 else levels[0].size + SumSizes(levels[1..])
  }

  /** Some non-empty prefix of the book holds at least `required` tokens. */
  ghost predicate SomePrefixReaches(levels: seq<Level>, acc: real, required: real) {
    exists k :: 1 <= k <= |levels| && acc + SumSizes(levels[..k]) >= required
  }

  /** The accumulation loop of `validate_orderbook_depth`, started with
      `acc` tokens already counted. */
  function DepthScan(levels: seq<Level>, acc: real, required: real): (r: bool)
    ensures r <==> SomePrefixReaches(levels, acc, required)
  {
    if levels == [] then false
    else
      var cumulative := acc + levels[0].size;
      assert levels[..1][1..] == [];
      assert cumulative == acc + SumSizes(levels[..1]);
      assert forall k :: 2 <= k <= |levels| ==> levels[..k][1..] == levels[1..][..k - 1];
      if cumulative >= required then true
      else
        var rest := DepthScan(levels[1..], cumulative, required);
        assert rest ==> SomePrefixReaches(levels, acc, required) by {
          if rest {
            var j :| 1 <= j <= |levels[1..]| && cumulative + SumSizes(levels[1..][..j]) >= required;
            assert acc + SumSizes(levels[..j + 1]) >= required;
          }
        }
        assert SomePrefixReaches(levels, acc, required) ==> rest by {
          if SomePrefixReaches(levels, acc, required) {
            var k :| 1 <= k <= |levels| && acc + SumSizes(levels[..k]) >= required;
            assert k >= 2;
            assert cumulative + SumSizes(levels[1..][..k - 1]) >= required;
          }
        }
        rest
  }

  /** `validate_orderbook_depth`: false for an empty book, otherwise true iff
      the running total of level sizes reaches `required` at some level. */
  function DepthSufficient(levels: seq<Level>, required: real): (r: bool)
    ensures r <==> levels != [] && SomePrefixReaches(levels, 0.0, required)
    ensures levels == [] ==> !r
  {
    if levels == [] then false else DepthScan(levels, 0.0, required)
  }

  lemma {:induction false} SumSizesNonNegative(levels: seq<Level>)
    requires forall i :: 0 <= i < |levels| ==> levels[i].size >= 0.0
    ensures SumSizes(levels) >= 0.0
  {
    if levels != [] {
      SumSizesNonNegative(levels[1..]);
    }
  }

  lemma {:induction false} PrefixSumBounded(levels: seq<Level>, k: nat)
    requires k <= |levels|
    requires forall i :: 0 <= i < |levels| ==> levels[i].size >= 0.0
    ensures SumSizes(levels[..k]) <= SumSizes(levels)
  {
    if k == 0 {
      SumSizesNonNegative(levels);
    } else {
      assert levels[..k][1..] == levels[1..][..k - 1];
      assert levels[..k][0] == levels[0];
      PrefixSumBounded(levels[1..], k - 1);
    }
  }

  /** With non-negative sizes the depth check is a test on the whole book:
      a non-empty book is deep enough iff all its levels together hold the
      required size. */
  lemma DepthIsTotalSize(levels: seq<Level>, required: real)
    requires forall i :: 0 <= i < |levels| ==> levels[i].size >= 0.0
    ensures DepthSufficient(levels, required) <==> levels != [] && SumSizes(levels) >= required
  {
    if levels != [] {
      if DepthSufficient(levels, required) {
        var k :| 1 <= k <= |levels| && 0.0 + SumSizes(levels[..k]) >= required;
        PrefixSumBounded(levels, k);
      } else {
        assert levels[..|levels|] == levels;
      }
    }
  }

  /** A book deep enough for some size is deep enough for any smaller size. */
  lemma DepthMonotone(levels: seq<Level>, required: real, smaller: real)
    requires smaller <= required
    requires DepthSufficient(levels, required)
    ensures DepthSufficient(levels, smaller)
  {
    var k :| 1 <= k <= |levels| && 0.0 + SumSizes(levels[..k]) >= required;
    assert 0.0 + SumSizes(levels[..k]) >= smaller;
  }

  /** `calculate_kelly_fraction`: a fraction of the Kelly stake, never
      negative; zero unless the odds exceed 1 and the probability lies strictly
      between 0 and 1. */
  function KellyFraction(probability: real, odds: real, kellyFraction: real): (r: real)
    ensures r >= 0.0
    ensures odds <= 1.0 || probability <= 0.0 || probability >= 1.0 ==> r == 0.0
    ensures kellyFraction >= 0.0 && probability >= 0.0 ==> r <= kellyFraction * probability
    ensures odds > 1.0 && 0.0 < probability < 1.0 && kellyFraction > 0.0 ==>
              (r > 0.0 <==> probability * odds > 1.0)
  {
    if odds <= 1.0 || probability <= 0.0 || probability >= 1.0 then 0.0
    else
      var b := odds - 1.0;
      var p := probability;
      var q := 1.0 - p;
      var fullKelly := (b * p - q) / b;
      assert fullKelly == p - q / b;
      assert q / b > 0.0;
      assert fullKelly > 0.0 <==> b * p > q;
      var scaled := fullKelly * kellyFraction;
      assert kellyFraction >= 0.0 ==> scaled <= p * kellyFraction;
      assert kellyFraction > 0.0 ==> (scaled > 0.0 <==> fullKelly > 0.0);
      if scaled > 0.0 then scaled else 0.0
  }

  /** `is_within_late_window`, given the seconds left before close. */
  predicate WithinLateWindow(secondsToClose: int, windowStart: int, windowEnd: int) {
    windowEnd <= secondsToClose <= windowStart
  }

  /** Both window bounds are inclusive, and a window whose end lies beyond its
      start admits no time at all. */
  lemma LateWindowBounds(windowStart: int, windowEnd: int)
    ensures WithinLateWindow(windowStart, windowStart, windowEnd) <==> windowEnd <= windowStart
    ensures WithinLateWindow(windowEnd, windowStart, windowEnd) <==> windowEnd <= windowStart
    ensures windowStart < windowEnd ==> forall s :: !WithinLateWindow(s, windowStart, windowEnd)
  {
  }

  /** The upper-cased outcome names, as `validate_binary_market` builds them. */
  function UpperNames(names: seq<string>): (r: seq<string>)
    ensures |r| == |names|
    ensures forall i :: 0 <= i < |names| ==> r[i] == Upper(names[i])
  {
    if names == [] then [] else [Upper(names[0])] + UpperNames(names[1..])
  }

  /** `validate_binary_market`: exactly two outcomes, named YES and NO or UP
      and DOWN in any letter case. */
  predicate IsBinaryMarket(names: seq<string>) {
    var u := UpperNames(names);
    |names| == 2 && (("YES" in u && "NO" in u) || ("UP" in u && "DOWN" in u))
  }

  /** A binary market is exactly a pair whose upper-cased names form the set
      {YES, NO} or the set {UP, DOWN}. */
  lemma BinaryMarketPairs(names: seq<string>)
    ensures IsBinaryMarket(names) <==>
              |names| == 2 &&
              ({Upper(names[0]), Upper(names[1])} == {"YES", "NO"} ||
               {Upper(names[0]), Upper(names[1])} == {"UP", "DOWN"})
  {
    if |names| == 2 {
      var a, b := Upper(names[0]), Upper(names[1]);
      var u := UpperNames(names);
      assert u == [a, b];
      PairSet(a, b, "YES", "NO");
      PairSet(a, b, "UP", "DOWN");
    }
  }

  /** Two distinct values are the members of a pair exactly when each of
      them is one of its two elements. */
  lemma PairSet<T>(a: T, b: T, x: T, y: T)
    requires x != y
    ensures {a, b} == {x, y} <==> (x == a || x == b) && (y == a || y == b)
  {
    if (x == a || x == b) && (y == a || y == b) {
      assert a in {x, y} && b in {x, y};
    }
    if {a, b} == {x, y} {
      assert x in {a, b} && y in {a, b};
    }
  }

  /** `is_btc_5m_market`: the lower-cased title names bitcoin and an up/down
      direction. */
  predicate IsBtc5mMarket(question: string) {
    var q := Lower(question);
    (Contains(q, "bitcoin") || Contains(q, "btc")) && (Contains(q, "up or down") || Contains(q, "up/down"))
  }

  const CryptoKeywords: seq<string> :=
    ["btc", "bitcoin", "eth", "ethereum", "sol", "solana", "xrp", "ripple", "crypto", "cryptocurrency"]

  /** `is_crypto_market`: the lower-cased title contains a crypto keyword. */
  predicate IsCryptoMarket(title: string) {
    exists i :: 0 <= i < |CryptoKeywords| && Contains(Lower(title), CryptoKeywords[i])
  }

  /** Every BTC 5-minute market is a crypto market. */
  lemma Btc5mIsCrypto(question: string)
    requires IsBtc5mMarket(question)
    ensures IsCryptoMarket(question)
  {
    if Contains(Lower(question), "bitcoin") {
      assert Contains(Lower(question), CryptoKeywords[1]);
    } else {
      assert Contains(Lower(question), CryptoKeywords[0]);
    }
  }

  /** The test suite's binary outcome lists. */
  lemma BinaryMarketExamples()
    ensures IsBinaryMarket(["Yes", "No"])
    ensures IsBinaryMarket(["Up", "Down"])
  {
    assert Upper("Yes") == "YES" && Upper("No") == "NO";
    assert UpperNames(["Yes", "No"]) == ["YES", "NO"];
    assert Upper("Up") == "UP" && Upper("Down") == "DOWN";
    assert UpperNames(["Up", "Down"]) == ["UP", "DOWN"];
  }

  /** The test suite's non-binary outcome lists: three outcomes, and two
      that name neither pair. */
  lemma NonBinaryExamples()
    ensures !IsBinaryMarket(["A", "B", "C"])
    ensures !IsBinaryMarket(["Red", "Blue"])
  {
    var u := UpperNames(["Red", "Blue"]);
    assert u[0][0] == 'R' && u[1][0] == 'B';
    assert "YES" !in u && "UP" !in u;
  }
}
