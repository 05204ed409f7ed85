/** Signal detection (signal_engine.py): the three strategy checks, each a
    pure function of one market record. The clock is replaced by the
    seconds left before the market closes (`None` when `expires_at` does
    not parse), the Binance feed by a snapshot of what the late-market check
    reads from it, and `generate_position_id` by the id it would return. */
module Signals {
  import opened Wrappers
  import opened Text
  import opened Helpers
  import opened Config
  import Feed

  /** A book's `spread_pct` entry: absent (read as 100), explicitly null, or
      a number. */
  datatype SpreadField = SpreadMissing | SpreadNull | SpreadValue(pct: real)

  /** An outcome's `orderbook` as the signal engine reads it. */
  datatype OutcomeBook = OutcomeBook(bestAsk: Option<real>, spread: SpreadField, asks: seq<Level>)

  /** An outcome with no `orderbook` entry reads as an empty dict. */
  const NoBook: OutcomeBook := OutcomeBook(None, SpreadMissing, [])

  /** An outcome; a missing `outcome` name reads as "". */
  datatype Outcome = Outcome(name: string, tokenId: Option<string>, book: OutcomeBook)

  /** A market record as the scanner queues it; a missing `expires_at` is
      "". */
  datatype Market = Market(
    marketId: string,
    question: string,
    isBtc5m: bool,
    negRisk: bool,
    expiresAt: string,
    outcomes: seq<Outcome>)

  datatype Strategy = OneOfMany | YesNo | LateMarket | OtherStrategy(name: string)

  /** The strategy name stored on a signal and its position: every
      comparison the bot makes on a strategy compares this string, so
      `OtherStrategy("late_market")` is the late-market strategy. */
  function StrategyName(st: Strategy): (r: string)
    ensures st.OneOfMany? ==> r == "one_of_many"
    ensures st.YesNo? ==> r == "yes_no"
    ensures st.LateMarket? ==> r == "late_market"
    ensures st.OtherStrategy? ==> r == st.name
  {
    match st
    case OneOfMany => "one_of_many"
    case YesNo => "yes_no"
    case LateMarket => "late_market"
    case OtherStrategy(name) => name
  }

  datatype Leg = Leg(
    outcome: string,
    tokenId: Option<string>,
    negRisk: bool,
    price: real,
    sizeUsd: real,
    sizeTokens: real,
    spreadPct: Option<real>)

  /** The extra fields of a late-market signal. */
  datatype LateInfo = LateInfo(
    secondsToClose: int,
    btcPrice: real,
    openingPrice: real,
    changePct: real,
    volatility: real)

  datatype Signal = Signal(
    strategy: Strategy,
    marketId: string,
    question: string,
    legs: seq<Leg>,
    totalCost: real,
    expectedPayout: real,
    expectedEdge: real,
    expiresAt: string,
    positionId: string,
    late: Option<LateInfo>)

  /** The spread the check reads from a book: 100 when the entry is
      missing, nothing when it is null, otherwise the stored figure. */
  function SpreadReported(sp: SpreadField): (r: Option<real>)
    ensures sp.SpreadMissing? ==> r == Some(100.0)
    ensures r.None? <==> sp.SpreadNull?
  {
    match sp
    case SpreadMissing => Some(100.0)
    case SpreadNull => None
    case SpreadValue(p) => Some(p)
  }

  /** The spread is present and above the limit. */
  predicate TooWide(sp: SpreadField, maxSpread: real) {
    SpreadReported(sp).Some? && SpreadReported(sp).value > maxSpread
  }

  /** A missing spread is always too wide for a sane limit, and an explicit
      null never is. */
  lemma SpreadDefaults(maxSpread: real)
    ensures maxSpread < 100.0 ==> TooWide(SpreadMissing, maxSpread)
    ensures !TooWide(SpreadNull, maxSpread)
  {
  }

  /** Tokens bought for `usd` at price `ask`; 0 for a non-positive ask. */
  function Tokens(usd: real, ask: real): (r: real)
    ensures ask > 0.0 ==> r * ask == usd
    ensures ask <= 0.0 ==> r == 0.0
  {
    if ask > 0.0 then usd / ask else 0.0
  }

  /** The time gate of both arbitrage checks: an expiry is given, it parses,
      and at least `min_time_to_close_minutes` remain. */
  predicate OpenLongEnough(m: Market, secondsLeft: Option<int>, s: Settings) {
    m.expiresAt != "" && secondsLeft.Some? && secondsLeft.value >= s.minTimeToCloseMinutes * 60
  }

  function Names(outs: seq<Outcome>): (r: seq<string>)
    ensures |r| == |outs|
    ensures forall i :: 0 <= i < |outs| ==> r[i] == outs[i].name
  {
    if outs == [] then [] else [outs[0].name] + Names(outs[1..])
  }

  // ---------------------------------------------------------------------
  // One-of-many arbitrage

  /** One outcome of a one-of-many check passes: it has an ask, its spread
      is within the limit, and its asks hold the tokens `usd` buys. */
  predicate LegOk(o: Outcome, usd: real, maxSpread: real) {
    && o.book.bestAsk.Some?
    && !TooWide(o.book.spread, maxSpread)
    && DepthSufficient(o.book.asks, Tokens(usd, o.book.bestAsk.value))
  }

  /** The leg an outcome contributes at `usd` dollars. */
  function LegFor(o: Outcome, negRisk: bool, usd: real): (r: Leg)
    requires o.book.bestAsk.Some?
    ensures r.outcome == o.name && r.tokenId == o.tokenId && r.price == o.book.bestAsk.value
    ensures r.sizeUsd == usd && r.sizeTokens == Tokens(usd, r.price)
    ensures r.spreadPct == SpreadReported(o.book.spread)
  {
    var ask := o.book.bestAsk.value;
    Leg(o.name, o.tokenId, negRisk, ask, usd, Tokens(usd, ask), SpreadReported(o.book.spread))
  }

  /** The per-outcome loop: a leg for every outcome, or `None` as soon as one
      fails. */
  function ArbLegs(outs: seq<Outcome>, negRisk: bool, usd: real, maxSpread: real): (r: Option<seq<Leg>>)
    ensures r.Some? <==> forall i :: 0 <= i < |outs| ==> LegOk(outs[i], usd, maxSpread)
    ensures r.Some? ==> |r.value| == |outs|
    ensures r.Some? ==> forall i :: 0 <= i < |outs| ==> r.value[i] == LegFor(outs[i], negRisk, usd)
  {
    if outs == [] then Some([])
    else if !LegOk(outs[0], usd, maxSpread) then None
    else
      match ArbLegs(outs[1..], negRisk, usd, maxSpread)
      case None =>
        assert !LegOk(outs[1..][0], usd, maxSpread) || exists i :: 0 <= i < |outs[1..]| && !LegOk(outs[1..][i], usd, maxSpread);
        None
      case Some(rest) =>
        assert forall i :: 1 <= i < |outs| ==> outs[i] == outs[1..][i - 1];
        Some([LegFor(outs[0], negRisk, usd)] + rest)
  }

  function SumPrices(legs: seq<Leg>): real {
    if legs == [] then 0.0 else legs[0].price + SumPrices(legs[1..])
  }

  function SumUsd(legs: seq<Leg>): real {
    if legs == [] then 0.0 else legs[0].sizeUsd + SumUsd(legs[1..])
  }

  /** The sum of the outcomes' best asks (an absent ask counts 0). */
  function SumBestAsks(outs: seq<Outcome>): real {
    if outs == [] then 0.0 else outs[0].book.bestAsk.GetOr(0.0) + SumBestAsks(outs[1..])
  }

  lemma {:induction false} SumUsdUniform(legs: seq<Leg>, usd: real, n: nat)
    requires n == |legs|
    requires forall i :: 0 <= i < |legs| ==> legs[i].sizeUsd == usd
    ensures SumUsd(legs) == n as real * usd
  {
    if legs != [] {
      SumUsdUniform(legs[1..], usd, n - 1);
      var k := (n - 1) as real;
      assert usd + k * usd == (k + 1.0) * usd;
    }
  }

  lemma {:induction false} SumPricesAreAsks(legs: seq<Leg>, outs: seq<Outcome>)
    requires |legs| == |outs|
    requires forall i :: 0 <= i < |legs| ==> legs[i].price == outs[i].book.bestAsk.GetOr(0.0)
    ensures SumPrices(legs) == SumBestAsks(outs)
  {
    if legs != [] {
      SumPricesAreAsks(legs[1..], outs[1..]);
    }
  }

  lemma DivCancels(x: real, n: real)
    requires n != 0.0
    ensures n * (x / n) == x
  {
  }

  /** The legs' prices sum to the outcomes' best asks. */
  lemma ArbLegsCost(outs: seq<Outcome>, negRisk: bool, usd: real, maxSpread: real, legs: seq<Leg>)
    requires ArbLegs(outs, negRisk, usd, maxSpread) == Some(legs)
    ensures SumPrices(legs) == SumBestAsks(outs)
  {
    ArbLegsFields(outs, negRisk, usd, maxSpread, legs);
    SumPricesAreAsks(legs, outs);
  }

  /** n legs that each spend the same share spend n times it together. */
  lemma EvenSplitSpendsLimit(legs: seq<Leg>, share: real, limit: real)
    requires forall i :: 0 <= i < |legs| ==> legs[i].sizeUsd == share
    requires |legs| as real * share == limit
    ensures SumUsd(legs) == limit
  {
    SumUsdUniform(legs, share, |legs|);
  }

  /** Each arbitrage leg spends `usd` at its outcome's best ask. */
  lemma ArbLegsFields(outs: seq<Outcome>, negRisk: bool, usd: real, maxSpread: real, legs: seq<Leg>)
    requires ArbLegs(outs, negRisk, usd, maxSpread) == Some(legs)
    ensures |legs| == |outs|
    ensures forall i :: 0 <= i < |legs| ==>
              legs[i].sizeUsd == usd && legs[i].price == outs[i].book.bestAsk.GetOr(0.0)
  {
    forall i | 0 <= i < |legs|
      ensures legs[i].sizeUsd == usd && legs[i].price == outs[i].book.bestAsk.GetOr(0.0)
    {
      assert outs[i].book.bestAsk.Some?;
      assert legs[i] == LegFor(outs[i], negRisk, usd);
    }
  }

  /** Every outcome passes at limit/n dollars and the asks leave enough
      edge. */
  predicate OneOfManyOk(m: Market, s: Settings)
    requires |m.outcomes| > 0
  {
    && (forall i :: 0 <= i < |m.outcomes| ==>
          LegOk(m.outcomes[i], s.MaxArbPositionSize() / |m.outcomes| as real, s.maxSpreadOneOfMany))
    && (1.0 - SumBestAsks(m.outcomes)) * 100.0 >= s.minArbEdgePct
  }

  /** A well-formed one-of-many signal: one leg per outcome, in order, at
      limit/n dollars each; the cost is the sum of the asks, the edge what is
      left of 1 in percent, and the legs together spend the limit. */
  predicate OneOfManyShape(sig: Signal, m: Market, s: Settings)
    requires |m.outcomes| > 0
  {
    && sig.strategy == OneOfMany && sig.marketId == m.marketId
    && |sig.legs| == |m.outcomes|
    && (forall i :: 0 <= i < |m.outcomes| ==>
          m.outcomes[i].book.bestAsk.Some? &&
          sig.legs[i] == LegFor(m.outcomes[i], m.negRisk, s.MaxArbPositionSize() / |m.outcomes| as real))
    && sig.totalCost == SumBestAsks(m.outcomes)
    && sig.expectedEdge == (1.0 - sig.totalCost) * 100.0 >= s.minArbEdgePct
    && sig.expectedPayout == 1.0
    && SumUsd(sig.legs) == s.MaxArbPositionSize()
  }

  /** The per-outcome loop and the edge test of `_check_one_of_many_arb`. */
  function OneOfManyPriced(m: Market, s: Settings, positionId: string): (r: Option<Signal>)
    requires |m.outcomes| > 0
    ensures r.Some? <==> OneOfManyOk(m, s)
  {
    var usd := s.MaxArbPositionSize() / |m.outcomes| as real;
    match ArbLegs(m.outcomes, m.negRisk, usd, s.maxSpreadOneOfMany)
    case None => None
    case Some(legs) =>
      ArbLegsCost(m.outcomes, m.negRisk, usd, s.maxSpreadOneOfMany, legs);
      var cost := SumPrices(legs);
      var edge := (1.0 - cost) * 100.0;
      if edge < s.minArbEdgePct then None
      else Some(Signal(OneOfMany, m.marketId, m.question, legs, cost, 1.0, edge, m.expiresAt, positionId, None))
  }

  /** At limit/n dollars a leg, the legs of n outcomes spend the limit and
      cost the sum of the asks. */
  lemma ArbLegsSpendLimit(outs: seq<Outcome>, negRisk: bool, limit: real, maxSpread: real)
    requires |outs| > 0
    requires ArbLegs(outs, negRisk, limit / |outs| as real, maxSpread).Some?
    ensures SumUsd(ArbLegs(outs, negRisk, limit / |outs| as real, maxSpread).value) == limit
    ensures SumPrices(ArbLegs(outs, negRisk, limit / |outs| as real, maxSpread).value) == SumBestAsks(outs)
  {
    var n := |outs| as real;
    var legs := ArbLegs(outs, negRisk, limit / n, maxSpread).value;
    ArbLegsCost(outs, negRisk, limit / n, maxSpread, legs);
    ArbLegsFields(outs, negRisk, limit / n, maxSpread, legs);
    DivCancels(limit, n);
    EvenSplitSpendsLimit(legs, limit / n, limit);
  }

  /** What the one-of-many check returns is a well-formed signal. */
  lemma OneOfManyPricedShape(m: Market, s: Settings, positionId: string)
    requires |m.outcomes| > 0 && OneOfManyPriced(m, s, positionId).Some?
    ensures OneOfManyShape(OneOfManyPriced(m, s, positionId).value, m, s)
  {
    var n := |m.outcomes| as real;
    var usd := s.MaxArbPositionSize() / n;
    var legs := ArbLegs(m.outcomes, m.negRisk, usd, s.maxSpreadOneOfMany).value;
    var sig := OneOfManyPriced(m, s, positionId).value;
    assert sig.legs == legs && sig.totalCost == SumPrices(legs);
    assert sig.expectedEdge == (1.0 - sig.totalCost) * 100.0 >= s.minArbEdgePct;
    ArbLegsSpendLimit(m.outcomes, m.negRisk, s.MaxArbPositionSize(), s.maxSpreadOneOfMany);
    forall i | 0 <= i < |m.outcomes|
      ensures m.outcomes[i].book.bestAsk.Some? && sig.legs[i] == LegFor(m.outcomes[i], m.negRisk, usd)
    {
      assert LegOk(m.outcomes[i], usd, s.maxSpreadOneOfMany);
    }
  }

  /** `_check_one_of_many_arb` */
  function CheckOneOfMany(m: Market, secondsLeft: Option<int>, s: Settings, positionId: string): (r: Option<Signal>)
    ensures r.Some? <==> |m.outcomes| >= 3 && OpenLongEnough(m, secondsLeft, s) && OneOfManyOk(m, s)
    ensures r.Some? ==> OneOfManyShape(r.value, m, s)
  {
    if |m.outcomes| < 3 || !OpenLongEnough(m, secondsLeft, s) then None
    else
      var r := OneOfManyPriced(m, s, positionId);
      if r.Some? then OneOfManyPricedShape(m, s, positionId); r
      else r
  }

  // ---------------------------------------------------------------------
  // YES/NO arbitrage

  const SideANames: set<string> := {"YES", "UP"}
  const SideBNames: set<string> := {"NO", "DOWN"}

  /** The index of the last outcome whose upper-cased name is in `names`:
      the loop keeps overwriting its choice. */
  function LastMatch(outs: seq<Outcome>, names: set<string>): (r: Option<nat>)
    ensures r.Some? ==> r.value < |outs| && Upper(outs[r.value].name) in names
    ensures r.Some? ==> forall j :: r.value < j < |outs| ==> Upper(outs[j].name) !in names
    ensures r.None? <==> forall j :: 0 <= j < |outs| ==> Upper(outs[j].name) !in names
  {
    if outs == [] then None
    else if Upper(outs[|outs| - 1].name) in names then Some(|outs| - 1)
    else
      var r := LastMatch(outs[..|outs| - 1], names);
      assert forall j :: 0 <= j < |outs| - 1 ==> outs[..|outs| - 1][j] == outs[j];
      r
  }

  /** In a binary market both sides are found, and they are different
      outcomes. */
  lemma BinarySidesFound(outs: seq<Outcome>)
    requires IsBinaryMarket(Names(outs))
    ensures LastMatch(outs, SideANames).Some? && LastMatch(outs, SideBNames).Some?
    ensures LastMatch(outs, SideANames).value != LastMatch(outs, SideBNames).value
  {
    var u := UpperNames(Names(outs));
    assert u == [Upper(outs[0].name), Upper(outs[1].name)];
    assert Upper(outs[0].name) in SideANames || Upper(outs[1].name) in SideANames;
    assert Upper(outs[0].name) in SideBNames || Upper(outs[1].name) in SideBNames;
    var a := LastMatch(outs, SideANames).value;
    SidesDisjoint(Upper(outs[a].name));
  }

  /** No name belongs to both sides. */
  lemma SidesDisjoint(x: string)
    ensures !(x in SideANames && x in SideBNames)
  {
    if x in SideANames {
      assert x[0] == 'Y' || x[0] == 'U';
    }
  }

  /** The pair of outcomes passes the yes/no checks: both asks present, both
      spreads within the limit, enough edge, and both books deep enough. */
  predicate PairOk(a: Outcome, b: Outcome, s: Settings) {
    && a.book.bestAsk.Some? && b.book.bestAsk.Some?
    && !TooWide(a.book.spread, s.maxSpreadYesNo) && !TooWide(b.book.spread, s.maxSpreadYesNo)
    && (1.0 - (a.book.bestAsk.value + b.book.bestAsk.value)) * 100.0 >= s.minArbEdgePct
    && DepthSufficient(a.book.asks, Tokens(s.MaxArbPositionSize() / 2.0, a.book.bestAsk.value))
    && DepthSufficient(b.book.asks, Tokens(s.MaxArbPositionSize() / 2.0, b.book.bestAsk.value))
  }

  /** The checks after the sides are chosen, in the order the code runs them. */
  function PairSignal(m: Market, a: Outcome, b: Outcome, s: Settings, positionId: string): (r: Option<Signal>)
    ensures r.Some? <==> PairOk(a, b, s)
    ensures r.Some? ==>
              && r.value.strategy == YesNo && r.value.marketId == m.marketId
              && r.value.legs == [LegFor(a, m.negRisk, s.MaxArbPositionSize() / 2.0),
                                  LegFor(b, m.negRisk, s.MaxArbPositionSize() / 2.0)]
              && r.value.totalCost == a.book.bestAsk.value + b.book.bestAsk.value
              && r.value.expectedEdge == (1.0 - r.value.totalCost) * 100.0 >= s.minArbEdgePct
              && r.value.expectedPayout == 1.0
  {
    if a.book.bestAsk.None? || b.book.bestAsk.None? then None
    else if TooWide(a.book.spread, s.maxSpreadYesNo) || TooWide(b.book.spread, s.maxSpreadYesNo) then None
    else
      var askA, askB := a.book.bestAsk.value, b.book.bestAsk.value;
      var cost := askA + askB;
      var edge := (1.0 - cost) * 100.0;
      if edge < s.minArbEdgePct then None
      else
        var half := s.MaxArbPositionSize() / 2.0;
        if !DepthSufficient(a.book.asks, Tokens(half, askA)) then None
        else if !DepthSufficient(b.book.asks, Tokens(half, askB)) then None
        else Some(Signal(YesNo, m.marketId, m.question, [LegFor(a, m.negRisk, half), LegFor(b, m.negRisk, half)],
                         cost, 1.0, edge, m.expiresAt, positionId, None))
  }

  /** A well-formed yes/no signal: two legs, side A then side B, each at
      half the arbitrage limit, the cost the sum of the two asks and the edge
      what is left of 1 in percent. */
  predicate YesNoShape(sig: Signal, m: Market, s: Settings) {
    && sig.strategy == YesNo && sig.marketId == m.marketId
    && |sig.legs| == 2
    && Upper(sig.legs[0].outcome) in SideANames
    && Upper(sig.legs[1].outcome) in SideBNames
    && sig.totalCost == sig.legs[0].price + sig.legs[1].price
    && sig.expectedEdge == (1.0 - sig.totalCost) * 100.0 >= s.minArbEdgePct
    && sig.expectedPayout == 1.0
    && sig.legs[0].sizeUsd == sig.legs[1].sizeUsd == s.MaxArbPositionSize() / 2.0
    && sig.legs[0].sizeTokens == Tokens(sig.legs[0].sizeUsd, sig.legs[0].price)
    && sig.legs[1].sizeTokens == Tokens(sig.legs[1].sizeUsd, sig.legs[1].price)
  }

  /** `_check_yes_no_arb` */
  function CheckYesNo(m: Market, secondsLeft: Option<int>, s: Settings, positionId: string): (r: Option<Signal>)
    ensures r.Some? ==> IsBinaryMarket(Names(m.outcomes)) && OpenLongEnough(m, secondsLeft, s)
    ensures r.Some? ==> YesNoShape(r.value, m, s)
    ensures IsBinaryMarket(Names(m.outcomes)) && OpenLongEnough(m, secondsLeft, s) ==>
              (r.Some? <==> PairOk(m.outcomes[LastMatch(m.outcomes, SideANames).value],
                                   m.outcomes[LastMatch(m.outcomes, SideBNames).value], s))
    ensures IsBinaryMarket(Names(m.outcomes)) && OpenLongEnough(m, secondsLeft, s) ==>
              r == PairSignal(m, m.outcomes[LastMatch(m.outcomes, SideANames).value],
                              m.outcomes[LastMatch(m.outcomes, SideBNames).value], s, positionId)
  {
    if !IsBinaryMarket(Names(m.outcomes)) || !OpenLongEnough(m, secondsLeft, s) then None
    else
      BinarySidesFound(m.outcomes);
      var a := m.outcomes[LastMatch(m.outcomes, SideANames).value];
      var b := m.outcomes[LastMatch(m.outcomes, SideBNames).value];
      PairSignalShape(m, a, b, s, positionId);
      PairSignal(m, a, b, s, positionId)
  }

  lemma PairSignalShape(m: Market, a: Outcome, b: Outcome, s: Settings, positionId: string)
    requires Upper(a.name) in SideANames && Upper(b.name) in SideBNames
    ensures PairSignal(m, a, b, s, positionId).Some? ==> YesNoShape(PairSignal(m, a, b, s, positionId).value, m, s)
  {
  }

  // ---------------------------------------------------------------------
  // Late-market sure side

  /** What the late-market check reads from the Binance feed: the BTC price,
      the 30-sample volatility, and the BTC price history. */
  datatype FeedSnapshot = FeedSnapshot(price: Option<real>, volatility: real, history: seq<real>)

  /** The snapshot a feed state gives, with the volatility figure supplied
      (its square-root formula is outside the model). */
  function Snapshot(st: Feed.FeedState, volatility: real): (r: FeedSnapshot)
    ensures r.price == Feed.GetPrice(st, "btcusdt")
  {
    FeedSnapshot(Feed.GetPrice(st, "btcusdt"), volatility,
                 if "btcusdt" in st.history then st.history["btcusdt"] else [])
  }

  /** A snapshot of a well-formed feed never has a zero opening price, so
      the `opening_price == 0` guard cannot fire. */
  lemma SnapshotOpeningPositive(st: Feed.FeedState, volatility: real)
    requires Feed.Valid(st)
    ensures var h := Snapshot(st, volatility).history; h != [] ==> h[0] > 0.0
  {
    if "btcusdt" in st.history {
      assert Feed.SymbolOk(st, "btcusdt");
    }
  }

  function Abs(x: real): real {
    if x < 0.0 then -x else x
  }

  /** Fewest history samples the late-market check needs. */
  const MinHistory: nat := 5

  /** The names the late-market check looks for on each side. */
  const UpNames: set<string> := {"UP"}
  const DownNames: set<string> := {"DOWN"}

  /** The move from `opening` to `current`, in percent of `opening`. */
  function ChangePct(opening: real, current: real): real
    requires opening != 0.0
  {
    (current - opening) / opening * 100.0
  }

  /** The side the move points to: Up for a change of zero or more, Down
      below zero. */
  function Winner(opening: real, current: real, up: Outcome, down: Outcome): Outcome
    requires opening != 0.0
  {
    if ChangePct(opening, current) >= 0.0 then up else down
  }

  /** The gates applied once the side is chosen, in the code's order: the
      minimum deviation, the maximum entry price, depth for the late-market
      limit at the winner's ask, and the winner's spread (a missing spread
      reads as 100). */
  predicate MoveOk(s: Settings, opening: real, current: real, up: Outcome, down: Outcome)
    requires opening != 0.0 && up.book.bestAsk.Some? && down.book.bestAsk.Some?
  {
    var w := Winner(opening, current, up, down);
    && Abs(ChangePct(opening, current)) >= s.lateMarketMinDeviationPct
    && w.book.bestAsk.value <= s.lateMarketMaxPrice
    && DepthSufficient(w.book.asks, Tokens(s.MaxLatePositionSize(), w.book.bestAsk.value))
    && !TooWide(w.book.spread, s.maxSpreadLateMarket)
  }

  /** The signal's one leg buys outcome `w` at its best ask. */
  predicate BuysAtAsk(sig: Signal, w: Outcome) {
    && |sig.legs| == 1 && w.book.bestAsk.Some?
    && sig.legs[0].tokenId == w.tokenId
    && sig.legs[0].price == w.book.bestAsk.value
    && sig.legs[0].spreadPct == SpreadReported(w.book.spread)
  }

  /** A well-formed late-market signal for a move from `opening` to
      `current`: one leg on the side the move points to (Up for a change of
      zero or more, Down below zero), a move of at least the minimum
      deviation, an entry of at most the maximum price, the late-market
      limit in dollars, and edge, cost and payout that follow from them. */
  predicate LateShape(sig: Signal, m: Market, s: Settings, opening: real, current: real) {
    && sig.strategy == LateMarket && sig.marketId == m.marketId && |sig.legs| == 1
    && sig.late.Some?
    && sig.late.value.openingPrice == opening
    && sig.late.value.btcPrice == current
    && opening != 0.0
    && sig.late.value.changePct == ChangePct(opening, current)
    && (sig.legs[0].outcome == "Up" <==> sig.late.value.changePct >= 0.0)
    && (sig.legs[0].outcome == "Down" <==> sig.late.value.changePct < 0.0)
    && Abs(sig.late.value.changePct) >= s.lateMarketMinDeviationPct
    && sig.legs[0].price <= s.lateMarketMaxPrice
    && sig.legs[0].sizeUsd == s.MaxLatePositionSize()
    && sig.legs[0].sizeTokens == Tokens(s.MaxLatePositionSize(), sig.legs[0].price)
    && sig.expectedEdge == (1.0 - sig.legs[0].price) * 100.0
    && sig.totalCost == sig.legs[0].price * sig.legs[0].sizeTokens
    && sig.expectedPayout == sig.legs[0].sizeTokens
  }

  /** The late-market check once both sides have an ask and the opening
      price is known to be non-zero: pick the side, then apply the
      deviation, price, depth and spread gates in the code's order. */
  function LateFromMove(m: Market, secondsLeft: int, s: Settings, volatility: real,
                        opening: real, current: real, up: Outcome, down: Outcome, positionId: string): (r: Option<Signal>)
    requires opening != 0.0 && up.book.bestAsk.Some? && down.book.bestAsk.Some?
    ensures r.Some? <==> MoveOk(s, opening, current, up, down)
    ensures r.Some? ==> LateShape(r.value, m, s, opening, current)
    ensures r.Some? ==> BuysAtAsk(r.value, Winner(opening, current, up, down))
  {
    var change := ChangePct(opening, current);
    var side := if change >= 0.0 then "Up" else "Down";
    var winner := Winner(opening, current, up, down);
    var entry := winner.book.bestAsk.value;
    if Abs(change) < s.lateMarketMinDeviationPct then None
    else if entry > s.lateMarketMaxPrice then None
    else
      var usd := s.MaxLatePositionSize();
      var tokens := Tokens(usd, entry);
      if !DepthSufficient(winner.book.asks, tokens) then None
      else if TooWide(winner.book.spread, s.maxSpreadLateMarket) then None
      else
        var leg := Leg(side, winner.tokenId, m.negRisk, entry, usd, tokens, SpreadReported(winner.book.spread));
        Some(Signal(LateMarket, m.marketId, m.question, [leg], entry * tokens, tokens,
                    (1.0 - entry) * 100.0, m.expiresAt, positionId,
                    Some(LateInfo(secondsLeft, current, opening, change, volatility))))
  }

  /** Every gate of the late-market check after the market filter and the
      dedup set, in the code's order: expiry and the late window, a BTC
      price, calm volatility, an UP and a DOWN outcome that both have an
      ask, at least `MinHistory` samples with a non-zero opening price, and
      then the gates on the move. */
  predicate LateOk(m: Market, secondsLeft: Option<int>, s: Settings, feed: FeedSnapshot) {
    && m.expiresAt != "" && secondsLeft.Some?
    && WithinLateWindow(secondsLeft.value, s.lateMarketWindowStart, s.lateMarketWindowEnd)
    && feed.price.Some? && feed.volatility <= s.lateMarketMaxVolatilityPct
    && LastMatch(m.outcomes, UpNames).Some? && LastMatch(m.outcomes, DownNames).Some?
    && var up := m.outcomes[LastMatch(m.outcomes, UpNames).value];
       var down := m.outcomes[LastMatch(m.outcomes, DownNames).value];
       && up.book.bestAsk.Some? && down.book.bestAsk.Some?
       && |feed.history| >= MinHistory && feed.history[0] != 0.0
       && MoveOk(s, feed.history[0], feed.history[|feed.history| - 1], up, down)
  }

  /** The outcome a late-market signal buys: the last UP outcome when the
      price rose or stayed, the last DOWN outcome when it fell. */
  function LateWinner(m: Market, feed: FeedSnapshot): Outcome
    requires LastMatch(m.outcomes, UpNames).Some? && LastMatch(m.outcomes, DownNames).Some?
    requires |feed.history| > 0 && feed.history[0] != 0.0
  {
    Winner(feed.history[0], feed.history[|feed.history| - 1],
           m.outcomes[LastMatch(m.outcomes, UpNames).value], m.outcomes[LastMatch(m.outcomes, DownNames).value])
  }

  /** The late-market check from the feed checks on, for a market that is
      BTC 5-minute and not deduplicated. */
  function LateSignal(m: Market, secondsLeft: Option<int>, s: Settings, feed: FeedSnapshot, positionId: string): (r: Option<Signal>)
    ensures r.Some? <==> LateOk(m, secondsLeft, s, feed)
    ensures r.Some? ==> LateShape(r.value, m, s, feed.history[0], feed.history[|feed.history| - 1])
    ensures r.Some? ==> BuysAtAsk(r.value, LateWinner(m, feed))
  {
    if m.expiresAt == "" || secondsLeft.None? then None
    else if !WithinLateWindow(secondsLeft.value, s.lateMarketWindowStart, s.lateMarketWindowEnd) then None
    else if feed.price.None? then None
    else if feed.volatility > s.lateMarketMaxVolatilityPct then None
    else
      var up := LastMatch(m.outcomes, UpNames);
      var down := LastMatch(m.outcomes, DownNames);
      if up.None? || down.None? then None
      else
        var upOutcome := m.outcomes[up.value];
        var downOutcome := m.outcomes[down.value];
        if upOutcome.book.bestAsk.None? || downOutcome.book.bestAsk.None? then None
        else if |feed.history| < MinHistory then None
        else
          var opening := feed.history[0];
          if opening == 0.0 then None
          else LateFromMove(m, secondsLeft.value, s, feed.volatility, opening, feed.history[|feed.history| - 1],
                            upOutcome, downOutcome, positionId)
  }

  /** `_check_late_market`: the signal, if any, and the dedup set after the
      call. */
  function CheckLateMarket(m: Market, secondsLeft: Option<int>, s: Settings, feed: FeedSnapshot,
                           recent: set<string>, positionId: string): (r: (Option<Signal>, set<string>))
    ensures r.0 == (if (m.isBtc5m || IsBtc5mMarket(m.question)) && m.marketId !in recent
                    then LateSignal(m, secondsLeft, s, feed, positionId) else None)
    ensures r.0.Some? <==> (m.isBtc5m || IsBtc5mMarket(m.question)) && m.marketId !in recent
                           && LateOk(m, secondsLeft, s, feed)
    ensures r.0.Some? ==> r.1 == recent + {m.marketId}
    ensures r.0.None? ==> r.1 == recent
  {
    if !m.isBtc5m && !IsBtc5mMarket(m.question) then (None, recent)
    else if m.marketId in recent then (None, recent)
    else
      match LateSignal(m, secondsLeft, s, feed, positionId)
      case None => (None, recent)
      case Some(sig) => (Some(sig), recent + {m.marketId})
  }

  /** A market signals at most once while its id stays in the dedup set:
      whatever the feed and clock say the second time, the repeat call
      returns nothing and leaves the set alone. */
  lemma LateSignalsOnce(m: Market, t1: Option<int>, t2: Option<int>, s: Settings,
                        f1: FeedSnapshot, f2: FeedSnapshot, recent: set<string>, id1: string, id2: string)
    requires CheckLateMarket(m, t1, s, f1, recent, id1).0.Some?
    ensures var after := CheckLateMarket(m, t1, s, f1, recent, id1).1;
            CheckLateMarket(m, t2, s, f2, after, id2) == (None, after)
  {
  }

  /** With a positive entry price a late-market signal commits exactly the
      late-market position limit. */
  lemma LateCostIsLimit(m: Market, secondsLeft: Option<int>, s: Settings, feed: FeedSnapshot, positionId: string)
    requires LateSignal(m, secondsLeft, s, feed, positionId).Some?
    requires LateSignal(m, secondsLeft, s, feed, positionId).value.legs[0].price > 0.0
    ensures LateSignal(m, secondsLeft, s, feed, positionId).value.totalCost == s.MaxLatePositionSize()
  {
  }

  /** A price that did not move never signals under loaded settings: zero
      change picks Up but then fails the minimum deviation. */
  lemma FlatPriceNeverSignals(m: Market, secondsLeft: Option<int>, s: Settings, feed: FeedSnapshot, positionId: string)
    requires FieldsValid(s)
    requires |feed.history| >= MinHistory && feed.history[0] == feed.history[|feed.history| - 1]
    ensures LateSignal(m, secondsLeft, s, feed, positionId).None?
  {
  }

  /** Under loaded settings every arbitrage signal costs less than 1 per set
      of outcome tokens. */
  lemma ArbCostBelowOne(m: Market, secondsLeft: Option<int>, s: Settings, positionId: string)
    requires FieldsValid(s)
    ensures CheckOneOfMany(m, secondsLeft, s, positionId).Some? ==>
              CheckOneOfMany(m, secondsLeft, s, positionId).value.totalCost < 1.0
    ensures CheckYesNo(m, secondsLeft, s, positionId).Some? ==>
              CheckYesNo(m, secondsLeft, s, positionId).value.totalCost < 1.0
  {
  }

  /** The binary market of the test suite, with the YES ask given and a
      NO ask of 0.50. */
  function ArbMarket(yesAsk: real): Market {
    Market("0xarb", "Will X happen?", false, false, "2026-01-01T00:00:00Z",
           [Outcome("Yes", Some("tok_yes"), OutcomeBook(Some(yesAsk), SpreadValue(0.22), [Level(yesAsk, 1000.0)])),
            Outcome("No", Some("tok_no"), OutcomeBook(Some(0.50), SpreadValue(0.20), [Level(0.50, 1000.0)]))])
  }

  /** The market is binary, with YES first and NO second. */
  lemma ArbMarketSides(yesAsk: real)
    ensures IsBinaryMarket(Names(ArbMarket(yesAsk).outcomes))
    ensures LastMatch(ArbMarket(yesAsk).outcomes, SideANames) == Some(0)
    ensures LastMatch(ArbMarket(yesAsk).outcomes, SideBNames) == Some(1)
  {
    var outs := ArbMarket(yesAsk).outcomes;
    assert Upper("Yes") == "YES" && Upper("No") == "NO";
    assert Names(outs) == ["Yes", "No"];
    assert UpperNames(["Yes", "No"]) == ["YES", "NO"];
    assert outs[..1] == [outs[0]];
  }

  /** A YES ask of 0.45 against a NO ask of 0.50 gives a 5% edge under the
      default settings. */
  lemma YesNoExample()
    ensures CheckYesNo(ArbMarket(0.45), Some(7200), Defaults, "pid").Some?
    ensures CheckYesNo(ArbMarket(0.45), Some(7200), Defaults, "pid").value.expectedEdge == 5.0
  {
    var m := ArbMarket(0.45);
    ArbMarketSides(0.45);
    assert OpenLongEnough(m, Some(7200), Defaults);
    ArbMarketPairOk();
    assert (1.0 - (0.45 + 0.50)) * 100.0 == 5.0;
  }

  /** Both sides of the 0.45/0.50 market are priced, narrow and deep enough
      for $50, and leave at least the default minimum edge. */
  lemma ArbMarketPairOk()
    ensures PairOk(ArbMarket(0.45).outcomes[0], ArbMarket(0.45).outcomes[1], Defaults)
  {
    DefaultLimits();
    assert Defaults.MaxArbPositionSize() / 2.0 == 50.0;
    assert [Level(0.45, 1000.0)][..1] == [Level(0.45, 1000.0)];
    assert DepthSufficient([Level(0.45, 1000.0)], Tokens(50.0, 0.45));
    assert [Level(0.50, 1000.0)][..1] == [Level(0.50, 1000.0)];
    assert DepthSufficient([Level(0.50, 1000.0)], Tokens(50.0, 0.50));
  }

  /** A YES ask of 0.55 leaves no edge: no signal. */
  lemma YesNoNoEdge()
    ensures CheckYesNo(ArbMarket(0.55), Some(7200), Defaults, "pid").None?
  {
    ArbMarketSides(0.55);
  }

  /** The four-outcome market of the test suite: asks summing to 0.94 give a
      four-leg signal with a 6% edge, $25 a leg, under the default settings. */
  lemma OneOfManyExample()
    ensures var book := (ask: real) => OutcomeBook(Some(ask), SpreadValue(0.4), [Level(ask, 500.0)]);
            var m := Market("0xmulti", "Who wins?", false, true, "2026-01-01T00:00:00Z",
                            [Outcome("A", Some("a"), book(0.22)), Outcome("B", Some("b"), book(0.25)),
                             Outcome("C", Some("c"), book(0.23)), Outcome("D", Some("d"), book(0.24))]);
            var r := CheckOneOfMany(m, Some(7200), Defaults, "pid");
            r.Some? && |r.value.legs| == 4 && r.value.expectedEdge == 6.0 && r.value.legs[0].sizeUsd == 25.0
  {
    var book := (ask: real) => OutcomeBook(Some(ask), SpreadValue(0.4), [Level(ask, 500.0)]);
    var outs := [Outcome("A", Some("a"), book(0.22)), Outcome("B", Some("b"), book(0.25)),
                 Outcome("C", Some("c"), book(0.23)), Outcome("D", Some("d"), book(0.24))];
    forall i | 0 <= i < 4
      ensures LegOk(outs[i], 25.0, Defaults.maxSpreadOneOfMany)
    {
      var lv := outs[i].book.asks;
      assert lv[..1] == lv;
      assert SumSizes(lv[..1]) == 500.0;
      assert Tokens(25.0, outs[i].book.bestAsk.value) <= 500.0;
    }
    assert outs[1..][1..] == outs[2..] && outs[2..][1..] == outs[3..] && outs[3..][1..] == [];
    assert SumBestAsks(outs[3..]) == 0.24;
    assert SumBestAsks(outs[2..]) == 0.47;
    assert SumBestAsks(outs[1..]) == 0.72;
    assert SumBestAsks(outs) == 0.94;
  }

  /** The BTC 5-minute market of the test suite. */
  function BtcMarket(): Market {
    Market("0xabc", "Bitcoin Up or Down", true, true, "2026-01-01T00:00:00Z",
           [Outcome("Up", Some("tok_up"), OutcomeBook(Some(0.55), SpreadValue(0.18), [Level(0.55, 500.0), Level(0.56, 300.0)])),
            Outcome("Down", Some("tok_down"), OutcomeBook(Some(0.46), SpreadValue(0.22), [Level(0.46, 500.0)]))])
  }

  /** The test suite's feed: BTC up from 97000 to 97500 over five samples,
      at 0.03% volatility. */
  const BtcFeed: FeedSnapshot := FeedSnapshot(Some(97500.0), 0.03, [97000.0, 97100.0, 97200.0, 97300.0, 97500.0])

  /** Two minutes before close the late-market check buys Up at 0.55 for
      $75. */
  lemma LateExample()
    ensures LateSignal(BtcMarket(), Some(120), Defaults, BtcFeed, "pid").Some?
    ensures var sig := LateSignal(BtcMarket(), Some(120), Defaults, BtcFeed, "pid").value;
            sig.legs[0].outcome == "Up" && sig.legs[0].price == 0.55 && sig.totalCost == 75.0
  {
    var outs := BtcMarket().outcomes;
    assert Upper("Up") == "UP" && Upper("Down") == "DOWN";
    assert outs[..1] == [outs[0]];
    assert LastMatch(outs, {"UP"}) == Some(0);
    assert LastMatch(outs, {"DOWN"}) == Some(1);
    DefaultLimits();
    var asks := outs[0].book.asks;
    assert asks[..1] == [Level(0.55, 500.0)];
    assert SumSizes(asks[..1]) == 500.0;
    assert DepthSufficient(asks, Tokens(75.0, 0.55));
  }

  /** The same market through `_check_late_market`: it signals once and
      records the market, and asking again returns nothing. */
  lemma LateExampleOnce()
    ensures var r := CheckLateMarket(BtcMarket(), Some(120), Defaults, BtcFeed, {}, "pid");
            && r.0.Some? && r.1 == {"0xabc"}
            && CheckLateMarket(BtcMarket(), Some(120), Defaults, BtcFeed, r.1, "pid").0.None?
  {
    var m := BtcMarket();
    assert m.isBtc5m && m.marketId == "0xabc";
    LateExample();
    var r := CheckLateMarket(m, Some(120), Defaults, BtcFeed, {}, "pid");
    assert r.0.Some?;
    LateSignalsOnce(m, Some(120), Some(120), Defaults, BtcFeed, BtcFeed, {}, "pid", "pid");
  }
}
