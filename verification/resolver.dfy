/** The position resolver (position_resolver.py): deciding whether an open
    position's market has settled and on which outcome, the realized PnL of
    the position, the close-out write, and the resolver's share of the daily
    record. Fetching a market is an HTTP call; its answer (or `None`) is a
    parameter, and a pass over the open positions takes the answers as a
    map from market id. */
module Resolver {
  import opened Wrappers
  import opened Text
  import opened Config
  import opened Signals
  import opened DailyStore
  import opened Risk
  import opened PositionStore
  import opened Executor

  /** How `_calculate_pnl` compares outcome names: lower-cased, then
      stripped. */
  function Key(name: string): string {
    Strip(Lower(name))
  }

  /** The normalised outcome name of every leg. */
  function LegKeys(legs: seq<Leg>): (r: seq<string>)
    ensures |r| == |legs|
    ensures forall i :: 0 <= i < |legs| ==> r[i] == Key(legs[i].outcome)
  {
    if legs == [] then [] else [Key(legs[0].outcome)] + LegKeys(legs[1..])
  }

  /** The first position of `key` in `keys`. */
  function IndexOf(keys: seq<string>, key: string): (r: Option<nat>)
    ensures r.None? <==> key !in keys
    ensures r.Some? ==> r.value < |keys| && keys[r.value] == key
    ensures r.Some? ==> key !in keys[..r.value]
  {
    if keys == [] then None
    else if keys[0] == key then Some(0)
    else
      match IndexOf(keys[1..], key)
      case None => None
      case Some(j) =>
        assert keys[..j + 1] == [keys[0]] + keys[1..][..j];
        Some(j + 1)
  }

  /** The first leg whose outcome matches `key`. */
  function FirstMatch(legs: seq<Leg>, key: string): (r: Option<nat>)
    ensures r.None? <==> forall i :: 0 <= i < |legs| ==> Key(legs[i].outcome) != key
    ensures r.Some? ==> r.value < |legs| && Key(legs[r.value].outcome) == key
    ensures r.Some? ==> forall i :: 0 <= i < r.value ==> Key(legs[i].outcome) != key
  {
    var keys := LegKeys(legs);
    var r := IndexOf(keys, key);
    assert r.None? <==> forall i :: 0 <= i < |keys| ==> keys[i] != key;
    assert r.Some? ==> forall i :: 0 <= i < r.value ==> keys[..r.value][i] == keys[i];
    r
  }

  predicate IsArbName(name: string) {
    name == "one_of_many" || name == "yes_no"
  }

  /** `_calculate_pnl`: what a resolved position made, with `cost` the
      `actual_total_cost` (0 when absent). An arbitrage position is paid one
      dollar per token of its first leg on the winning outcome; a
      late-market position is paid only if its single leg won; anything
      else counts 0. */
  function CalculatePnl(p: Position, winner: string): (r: real)
    ensures p.legs == [] ==> r == 0.0
    ensures !IsArbName(StrategyName(p.strategy)) && StrategyName(p.strategy) != "late_market" ==> r == 0.0
    ensures p.legs != [] && IsArbName(StrategyName(p.strategy)) ==>
              var m := FirstMatch(p.legs, Key(winner));
              r == (if m.Some? then p.legs[m.value].sizeTokens else 0.0) - p.actualTotalCost.GetOr(0.0)
    ensures p.legs != [] && StrategyName(p.strategy) == "late_market" ==>
              r == (if Key(p.legs[0].outcome) == Key(winner) then p.legs[0].sizeTokens else 0.0)
                   - p.actualTotalCost.GetOr(0.0)
  {
    var cost := p.actualTotalCost.GetOr(0.0);
    if p.legs == [] then 0.0
    else
      var w := Key(winner);
      var name := StrategyName(p.strategy);
      if IsArbName(name) then
        match FirstMatch(p.legs, w)
        case None => -cost
        case Some(i) => p.legs[i].sizeTokens - cost
      else if name == "late_market" then
        if Key(p.legs[0].outcome) == w then p.legs[0].sizeTokens - cost else -cost
      else 0.0
  }

  lemma KeyIgnoresCase(w: string)
    ensures Key(Upper(w)) == Key(w) && Key(Lower(w)) == Key(w)
  {
    LowerOfUpper(w);
    LowerIdempotent(w);
  }

  lemma KeyIgnoresLeadingSpace(w: string)
    ensures Key(" " + w) == Key(w)
  {
    assert Lower(" " + w) == " " + Lower(w);
    assert (" " + Lower(w))[1..] == Lower(w);
  }

  /** The PnL sees the winner only through its normalised name. */
  lemma PnlDependsOnKey(p: Position, w1: string, w2: string)
    requires Key(w1) == Key(w2)
    ensures CalculatePnl(p, w1) == CalculatePnl(p, w2)
  {
  }

  /** The winner's letter case and a leading blank do not change the PnL. */
  lemma PnlIgnoresCaseAndSpace(p: Position, w: string)
    ensures CalculatePnl(p, Upper(w)) == CalculatePnl(p, w)
    ensures CalculatePnl(p, Lower(w)) == CalculatePnl(p, w)
    ensures CalculatePnl(p, " " + w) == CalculatePnl(p, w)
  {
    KeyIgnoresCase(w);
    KeyIgnoresLeadingSpace(w);
    PnlDependsOnKey(p, Upper(w), w);
    PnlDependsOnKey(p, Lower(w), w);
    PnlDependsOnKey(p, " " + w, w);
  }

  /** A late-market position opened by a dry run from a late-market signal
      makes its tokens less what they cost when its side wins, which is never
      a loss since the entry is at most the late-market price cap of 1, and
      loses exactly the signal's cost otherwise. */
  lemma LateMarketPnl(m: Market, secondsLeft: Option<int>, s: Settings, feed: FeedSnapshot,
                      positionId: string, now: int, winner: string)
    requires LateSignal(m, secondsLeft, s, feed, positionId).Some?
    requires s.lateMarketMaxPrice <= 1.0
    ensures var sig := LateSignal(m, secondsLeft, s, feed, positionId).value;
            var p := ExecuteDryRun(sig, CreatePositionRecord(sig, now));
            && (Key(winner) == Key(sig.legs[0].outcome) ==>
                  CalculatePnl(p, winner) == sig.legs[0].sizeTokens * (1.0 - sig.legs[0].price)
                  && (sig.legs[0].sizeTokens >= 0.0 ==> CalculatePnl(p, winner) >= 0.0))
            && (Key(winner) != Key(sig.legs[0].outcome) ==> CalculatePnl(p, winner) == -sig.totalCost)
  {
    var sig := LateSignal(m, secondsLeft, s, feed, positionId).value;
    var p := ExecuteDryRun(sig, CreatePositionRecord(sig, now));
    LateDryRunCostIsTotalCost(m, secondsLeft, s, feed, positionId);
    DryRunCostIsFillCost(sig.positionId, sig.legs);
    assert p.strategy == LateMarket && p.legs == sig.legs && |p.legs| == 1;
    assert p.actualTotalCost == Some(sig.totalCost);
    var leg := sig.legs[0];
    assert sig.totalCost == leg.price * leg.sizeTokens;
    assert p.legs == [leg] && leg.price <= s.lateMarketMaxPrice;
    SingleLegPnl(p, leg, winner, s.lateMarketMaxPrice);
  }

  /** A late-market position with one leg that cost its price times its
      tokens makes tokens·(1 − price) when its outcome wins, which is never
      a loss for a price at most `cap` ≤ 1, and loses its cost otherwise. */
  lemma SingleLegPnl(p: Position, leg: Leg, winner: string, cap: real)
    requires StrategyName(p.strategy) == "late_market" && p.legs == [leg]
    requires p.actualTotalCost == Some(leg.price * leg.sizeTokens)
    requires leg.price <= cap <= 1.0
    ensures Key(winner) == Key(leg.outcome) ==>
              CalculatePnl(p, winner) == leg.sizeTokens * (1.0 - leg.price)
              && (leg.sizeTokens >= 0.0 ==> CalculatePnl(p, winner) >= 0.0)
    ensures Key(winner) != Key(leg.outcome) ==> CalculatePnl(p, winner) == -(leg.price * leg.sizeTokens)
  {
    Payoff(leg.sizeTokens, leg.price, cap);
  }

  lemma Payoff(t: real, pr: real, cap: real)
    requires pr <= cap <= 1.0
    ensures t - pr * t == t * (1.0 - pr)
    ensures t >= 0.0 ==> t * (1.0 - pr) >= 0.0
  {
    if t >= 0.0 {
      assert 1.0 - pr >= 0.0;
    }
  }

  // ----- winner extraction -----

  /** An entry of the market's `tokens` array: its `winner` flag (truthiness)
      and its `outcome`. */
  datatype WinnerToken = WinnerToken(winner: bool, outcome: Option<string>)

  /** An entry of the market's `outcomes` array: a non-dict, or a dict with
      a `winner` flag, an `outcome` and a `name`. */
  datatype OutcomeEntry = NotADict | OutcomeDict(winner: bool, outcome: Option<string>, name: Option<string>)

  /** The fields of a fetched market the resolver reads. */
  datatype MarketData = MarketData(
    resolved: bool,
    closed: bool,
    winner: Option<string>,
    tokens: seq<WinnerToken>,
    outcomes: seq<OutcomeEntry>)

  predicate TokenNames(t: WinnerToken) {
    t.winner && Truthy(t.outcome)
  }

  /** The name an outcome entry offers as the winner, if any: its `outcome`,
      or else its `name`, when it is a dict marked as the winner. */
  function EntryName(e: OutcomeEntry): (r: Option<string>)
    ensures r.Some? ==> e.OutcomeDict? && e.winner && r.value != ""
    ensures r.Some? ==> (Truthy(e.outcome) ==> r == e.outcome) && (!Truthy(e.outcome) ==> r == e.name)
    ensures e.OutcomeDict? && e.winner && (Truthy(e.outcome) || Truthy(e.name)) ==> r.Some?
  {
    match e
    case NotADict => None
    case OutcomeDict(w, outcome, name) =>
      if !w then None
      else
        var n := if Truthy(outcome) then outcome else name;
        if Truthy(n) then n else None
  }

  /** The first token marked as winner that names an outcome. */
  function TokenWinner(tokens: seq<WinnerToken>): (r: Option<string>)
    ensures r.None? <==> forall i :: 0 <= i < |tokens| ==> !TokenNames(tokens[i])
    ensures r.Some? ==> exists i :: 0 <= i < |tokens| && TokenNames(tokens[i]) && r == tokens[i].outcome
                          && forall j :: 0 <= j < i ==> !TokenNames(tokens[j])
  {
    if tokens == [] then None
    else if TokenNames(tokens[0]) then Some(tokens[0].outcome.value)
    else
      var rest := TokenWinner(tokens[1..]);
      assert forall i :: 1 <= i < |tokens| ==> tokens[i] == tokens[1..][i - 1];
      if rest.Some? then
        var i :| 0 <= i < |tokens[1..]| && TokenNames(tokens[1..][i]) && rest == tokens[1..][i].outcome
                 && forall j :: 0 <= j < i ==> !TokenNames(tokens[1..][j]);
        assert TokenNames(tokens[i + 1]) && forall j :: 0 <= j < i + 1 ==> !TokenNames(tokens[j]);
        rest
      else rest
  }

  /** The first outcome entry that offers a winner name. */
  function EntryWinner(entries: seq<OutcomeEntry>): (r: Option<string>)
    ensures r.None? <==> forall i :: 0 <= i < |entries| ==> EntryName(entries[i]).None?
    ensures r.Some? ==> exists i :: 0 <= i < |entries| && r == EntryName(entries[i])
                          && forall j :: 0 <= j < i ==> EntryName(entries[j]).None?
  {
    if entries == [] then None
    else if EntryName(entries[0]).Some? then EntryName(entries[0])
    else
      var rest := EntryWinner(entries[1..]);
      assert forall i :: 1 <= i < |entries| ==> entries[i] == entries[1..][i - 1];
      if rest.Some? then
        var i :| 0 <= i < |entries[1..]| && rest == EntryName(entries[1..][i])
                 && forall j :: 0 <= j < i ==> EntryName(entries[1..][j]).None?;
        assert rest == EntryName(entries[i + 1]) && forall j :: 0 <= j < i + 1 ==> EntryName(entries[j]).None?;
        rest
      else rest
  }

  /** `_extract_winner`: a truthy top-level `winner`, else the first winning
      token that names its outcome, else the first winning outcome entry
      with a name, else `None`. Whatever it returns is a non-empty name. */
  function ExtractWinner(md: MarketData): (r: Option<string>)
    ensures Truthy(md.winner) ==> r == md.winner
    ensures !Truthy(md.winner) && TokenWinner(md.tokens).Some? ==> r == TokenWinner(md.tokens)
    ensures !Truthy(md.winner) && TokenWinner(md.tokens).None? ==> r == EntryWinner(md.outcomes)
    ensures r.None? <==>
              !Truthy(md.winner)
              && (forall i :: 0 <= i < |md.tokens| ==> !TokenNames(md.tokens[i]))
              && (forall i :: 0 <= i < |md.outcomes| ==> EntryName(md.outcomes[i]).None?)
    ensures r.Some? ==> r.value != ""
  {
    if Truthy(md.winner) then md.winner
    else
      var t := TokenWinner(md.tokens);
      if t.Some? then
        assert t.value != "";
        t
      else
        var e := EntryWinner(md.outcomes);
        if e.Some? then
          var i :| 0 <= i < |md.outcomes| && e == EntryName(md.outcomes[i]);
          e
        else e
  }

  /** The examples the resolver's behaviour is pinned to: the top-level
      field wins over the arrays, a winning token without an outcome name is
      passed over, and the outcomes array is the last resort. */
  lemma WinnerPriorityExamples()
    ensures ExtractWinner(MarketData(true, false, Some("Yes"), [WinnerToken(true, Some("No"))], [])) == Some("Yes")
    ensures ExtractWinner(MarketData(true, false, None,
              [WinnerToken(true, None), WinnerToken(false, Some("Yes")), WinnerToken(true, Some("No"))], [])) == Some("No")
    ensures ExtractWinner(MarketData(true, false, Some(""), [],
              [OutcomeDict(false, Some("Down"), None), OutcomeDict(true, None, Some("Up"))])) == Some("Up")
    ensures ExtractWinner(MarketData(true, false, None, [WinnerToken(true, Some(""))], [NotADict])) == None
  {
    var t2 := [WinnerToken(true, None), WinnerToken(false, Some("Yes")), WinnerToken(true, Some("No"))];
    assert t2[1..][1..][0] == WinnerToken(true, Some("No"));
    assert TokenWinner(t2[1..][1..]) == Some("No");
    assert TokenWinner(t2[1..]) == Some("No");
    var o3 := [OutcomeDict(false, Some("Down"), None), OutcomeDict(true, None, Some("Up"))];
    assert EntryName(o3[1]) == Some("Up");
    assert EntryWinner(o3[1..]) == Some("Up");
  }

  // ----- the resolve decision -----

  /** The winner `_check_and_resolve` settles a position on, given the
      market fetch's answer: none when the position has no market id, the
      fetch gave nothing, the market is neither resolved nor closed, or no
      winner can be read. */
  function Decide(marketId: string, fetched: Option<MarketData>): (r: Option<string>)
    ensures marketId == "" || fetched.None? ==> r.None?
    ensures fetched.Some? && !fetched.value.resolved && !fetched.value.closed ==> r.None?
    ensures marketId != "" && fetched.Some? && (fetched.value.resolved || fetched.value.closed) ==>
              r == ExtractWinner(fetched.value)
  {
    if marketId == "" then None
    else match fetched
      case None => None
      case Some(md) =>
        if !(md.resolved || md.closed) then None else ExtractWinner(md)
  }

  /** `_update_daily_pnl` (resolver): adds the trade to today's totals, its
      win to the win count, its PnL to its strategy's total, and recomputes
      the win rate; the risk guard's fields are left alone. */
  function UpdateRollup(today: Option<DailyRecord>, pnl: real, strategy: string): (r: DailyRecord)
    ensures r.totalPnl == Some((if today.Some? then today.value.totalPnl.GetOr(0.0) else 0.0) + pnl)
    ensures r.totalTrades == Some(Trades(today) + 1)
    ensures r.winningTrades == Some(Wins(today) + (if pnl > 0.0 then 1 else 0))
    ensures r.strategyPnl.Some? && strategy in r.strategyPnl.value
    ensures r.strategyPnl.value[strategy] ==
              (if today.Some? && today.value.strategyPnl.Some? && strategy in today.value.strategyPnl.value
               then today.value.strategyPnl.value[strategy] else 0.0) + pnl
    ensures today.Some? && today.value.strategyPnl.Some? ==>
              forall k :: k in today.value.strategyPnl.value && k != strategy ==>
                k in r.strategyPnl.value && r.strategyPnl.value[k] == today.value.strategyPnl.value[k]
    ensures r.realizedPnl == Base(today).realizedPnl && r.returnPct == Base(today).returnPct
    ensures r.tradesCount == Base(today).tradesCount
  {
    if today.Some? then
      var ex := today.value;
      var total := ex.totalPnl.GetOr(0.0) + pnl;
      var trades := ex.totalTrades.GetOr(0) + 1;
      var wins := ex.winningTrades.GetOr(0) + (if pnl > 0.0 then 1 else 0);
      var sp := ex.strategyPnl.GetOr(map[]);
      var sp' := sp[strategy := (if strategy in sp then sp[strategy] else 0.0) + pnl];
      var rate := if trades > 0 then wins as real / trades as real * 100.0 else 0.0;
      SetRollupFields(today, total, trades, wins, rate, sp')
    else
      SetRollupFields(today, pnl, 1, if pnl > 0.0 then 1 else 0, if pnl > 0.0 then 100.0 else 0.0,
                      map[strategy := pnl])
  }

  /** Trades and wins counted so far today (absent counts 0). */
  function Trades(today: Option<DailyRecord>): int {
    if today.Some? then today.value.totalTrades.GetOr(0) else 0
  }

  function Wins(today: Option<DailyRecord>): int {
    if today.Some? then today.value.winningTrades.GetOr(0) else 0
  }

  /** The roll-up invariant: the win count lies between 0 and the trade
      count, and the win rate is a percentage. */
  predicate RollupOk(today: Option<DailyRecord>) {
    && 0 <= Wins(today) <= Trades(today)
    && (today.Some? && today.value.winRate.Some? ==> 0.0 <= today.value.winRate.value <= 100.0)
  }

  /** A win rate of `wins` out of `trades` lies in [0, 100]. */
  lemma RateIsPercentage(wins: int, trades: int)
    requires 0 <= wins <= trades && trades > 0
    ensures 0.0 <= wins as real / trades as real * 100.0 <= 100.0
  {
    assert wins as real / trades as real <= 1.0 by {
      assert wins as real <= trades as real;
    }
  }

  /** Every roll-up keeps the invariant, and the rate it writes is the wins
      as a percentage of the trades. */
  lemma RollupKeepsInvariant(today: Option<DailyRecord>, pnl: real, strategy: string)
    requires RollupOk(today)
    ensures RollupOk(Some(UpdateRollup(today, pnl, strategy)))
    ensures var r := UpdateRollup(today, pnl, strategy);
            r.winRate.Some? && r.winRate.value * (r.totalTrades.value as real) == r.winningTrades.value as real * 100.0
  {
    var r := UpdateRollup(today, pnl, strategy);
    var trades := Trades(today) + 1;
    var wins := Wins(today) + (if pnl > 0.0 then 1 else 0);
    RateIsPercentage(wins, trades);
    if today.Some? {
      assert r.winRate == Some(wins as real / trades as real * 100.0);
    }
  }

  /** The risk guard's daily update keeps the roll-up invariant too: it does
      not touch the roll-up's fields. */
  lemma RiskUpdateKeepsRollup(today: Option<DailyRecord>, pnl: real, s: Settings)
    requires s.bankroll > 0.0 && RollupOk(today)
    ensures RollupOk(Some(UpdateDailyPnl(today, pnl, s)))
  {
  }

  datatype Resolution = Skipped | Resolved(winner: string, pnl: real, write: Write, daily: DailyRecord)

  /** `_check_and_resolve` with the market fetch's answer: skip, or close the
      position with its PnL and winner and roll the PnL into today's record. */
  function CheckAndResolve(p: Position, fetched: Option<MarketData>, today: Option<DailyRecord>, now: int): (r: Resolution)
    ensures r.Skipped? <==> Decide(p.marketId, fetched).None?
    ensures r.Resolved? ==>
              && Some(r.winner) == Decide(p.marketId, fetched)
              && r.pnl == CalculatePnl(p, r.winner)
              && r.write == SetClosed(p.positionId, now, r.pnl, r.winner)
              && r.daily == UpdateRollup(today, r.pnl, StrategyName(p.strategy))
  {
    match Decide(p.marketId, fetched)
    case None => Skipped
    case Some(w) =>
      var pnl := CalculatePnl(p, w);
      Resolved(w, pnl, SetClosed(p.positionId, now, pnl, w), UpdateRollup(today, pnl, StrategyName(p.strategy)))
  }

  /** What fetching a market yields in a pass: the market if the map has it. */
  function Fetch(markets: map<string, MarketData>, marketId: string): Option<MarketData> {
    if marketId in markets then Some(markets[marketId]) else None
  }

  /** The winner a position settles on in a pass. */
  function WinnerIn(p: Position, markets: map<string, MarketData>): Option<string> {
    Decide(p.marketId, Fetch(markets, p.marketId))
  }

  /** `_resolve_open_positions`: every open position checked in turn; the
      close-out writes in order and today's record afterwards. */
  function ResolvePass(ps: seq<Position>, markets: map<string, MarketData>, today: Option<DailyRecord>, now: int): (r: (seq<Write>, Option<DailyRecord>))
    decreases |ps|
  {
    if ps == [] then ([], today)
    else
      match CheckAndResolve(ps[0], Fetch(markets, ps[0].marketId), today, now)
      case Skipped => ResolvePass(ps[1..], markets, today, now)
      case Resolved(w, pnl, write, daily) =>
        var rest := ResolvePass(ps[1..], markets, Some(daily), now);
        ([write] + rest.0, rest.1)
  }

  /** The ids a pass closes: those of the positions that have a winner. */
  function Decided(ps: seq<Position>, markets: map<string, MarketData>): set<string>
    decreases |ps|
  {
    if ps == [] then {}
    else (if WinnerIn(ps[0], markets).Some? then {ps[0].positionId} else {}) + Decided(ps[1..], markets)
  }

  lemma {:induction false} DecidedHas(ps: seq<Position>, markets: map<string, MarketData>, i: int)
    requires 0 <= i < |ps| && WinnerIn(ps[i], markets).Some?
    ensures ps[i].positionId in Decided(ps, markets)
    decreases |ps|
  {
    if i > 0 {
      assert ps[1..][i - 1] == ps[i];
      DecidedHas(ps[1..], markets, i - 1);
    }
  }

  predicate AllClosing(ws: seq<Write>) {
    forall i :: 0 <= i < |ws| ==> ws[i].SetClosed?
  }

  function Targets(ws: seq<Write>): set<string>
    decreases |ws|
  {
    if ws == [] then {} else {Target(ws[0])} + Targets(ws[1..])
  }

  /** A pass writes only close-outs, one per decided position. */
  lemma {:induction false} PassWrites(ps: seq<Position>, markets: map<string, MarketData>, today: Option<DailyRecord>, now: int)
    ensures AllClosing(ResolvePass(ps, markets, today, now).0)
    ensures Targets(ResolvePass(ps, markets, today, now).0) == Decided(ps, markets)
    decreases |ps|
  {
    if ps != [] {
      match CheckAndResolve(ps[0], Fetch(markets, ps[0].marketId), today, now)
      case Skipped =>
        PassWrites(ps[1..], markets, today, now);
      case Resolved(w, pnl, write, daily) =>
        PassWrites(ps[1..], markets, Some(daily), now);
        var rest := ResolvePass(ps[1..], markets, Some(daily), now).0;
        var ws := [write] + rest;
        assert ws[1..] == rest;
        assert AllClosing(ws) by {
          assert forall i :: 1 <= i < |ws| ==> ws[i] == rest[i - 1];
        }
    }
  }

  /** A pass counts one trade per close-out, and one that closes nothing
      leaves today's record alone. */
  lemma {:induction false} PassCounts(ps: seq<Position>, markets: map<string, MarketData>, today: Option<DailyRecord>, now: int)
    ensures var (ws, daily) := ResolvePass(ps, markets, today, now);
            && (ws != [] ==> Trades(daily) == Trades(today) + |ws|)
            && (ws == [] ==> daily == today)
    decreases |ps|
  {
    if ps != [] {
      match CheckAndResolve(ps[0], Fetch(markets, ps[0].marketId), today, now)
      case Skipped =>
        PassCounts(ps[1..], markets, today, now);
      case Resolved(w, pnl, write, daily) =>
        PassCounts(ps[1..], markets, Some(daily), now);
    }
  }

  /** A pass keeps the roll-up invariant and never touches the realized PnL
      the risk guard's loss check reads. */
  lemma {:induction false} PassKeepsRollup(ps: seq<Position>, markets: map<string, MarketData>, today: Option<DailyRecord>, now: int)
    requires RollupOk(today)
    ensures RollupOk(ResolvePass(ps, markets, today, now).1)
    ensures TodayPnl(ResolvePass(ps, markets, today, now).1) == TodayPnl(today)
    decreases |ps|
  {
    if ps != [] {
      match CheckAndResolve(ps[0], Fetch(markets, ps[0].marketId), today, now)
      case Skipped =>
        PassKeepsRollup(ps[1..], markets, today, now);
      case Resolved(w, pnl, write, daily) =>
        RollupKeepsInvariant(today, pnl, StrategyName(ps[0].strategy));
        PassKeepsRollup(ps[1..], markets, Some(daily), now);
    }
  }

  /** The whole account of a pass: one close-out per decided position, one
      trade per close-out, the roll-up invariant kept and the risk guard's
      PnL untouched. */
  lemma PassAccounting(ps: seq<Position>, markets: map<string, MarketData>, today: Option<DailyRecord>, now: int)
    requires RollupOk(today)
    ensures var (ws, daily) := ResolvePass(ps, markets, today, now);
            && AllClosing(ws)
            && Targets(ws) == Decided(ps, markets)
            && RollupOk(daily)
            && (ws != [] ==> Trades(daily) == Trades(today) + |ws|)
            && (ws == [] ==> daily == today)
            && TodayPnl(daily) == TodayPnl(today)
  {
    PassWrites(ps, markets, today, now);
    PassCounts(ps, markets, today, now);
    PassKeepsRollup(ps, markets, today, now);
  }

  /** A sequence of close-outs of stored positions closes exactly the
      positions it names and leaves every other one as it was. */
  lemma {:induction false} ClosingEffect(store: Store, ws: seq<Write>)
    requires AllClosing(ws)
    ensures var after := ApplyAll(store, ws);
            && after.Keys == store.Keys
            && (forall id :: id in store && id in Targets(ws) ==> after[id].status == Closed)
            && (forall id :: id in store && id !in Targets(ws) ==> after[id] == store[id])
    decreases |ws|
  {
    if ws != [] {
      var s1 := Apply(store, ws[0]);
      assert AllClosing(ws[1..]) by {
        assert forall i :: 0 <= i < |ws[1..]| ==> ws[1..][i] == ws[i + 1];
      }
      ClosingEffect(s1, ws[1..]);
      forall id | id in store && id in Targets(ws)
        ensures ApplyAll(store, ws)[id].status == Closed
      {
        if id !in Targets(ws[1..]) {
          assert id == Target(ws[0]);
        }
      }
    }
  }

  /** `ps` is what `get_open_positions` returns for `store`: the stored open
      positions, each once. */
  predicate IsOpenListing(ps: seq<Position>, store: Store) {
    && (forall i :: 0 <= i < |ps| ==> ps[i].positionId in store && store[ps[i].positionId] == ps[i])
    && (forall i :: 0 <= i < |ps| ==> ps[i].status == Open)
    && (forall id :: id in OpenIds(store) ==> exists i :: 0 <= i < |ps| && ps[i].positionId == id)
  }

  /** A pass closes exactly the decided positions: the open ones after it
      are the open ones before it less those that had a winner. */
  lemma PassClosesDecided(store: Store, ps: seq<Position>, markets: map<string, MarketData>,
                          today: Option<DailyRecord>, now: int)
    requires RollupOk(today)
    ensures OpenIds(ApplyAll(store, ResolvePass(ps, markets, today, now).0)) == OpenIds(store) - Decided(ps, markets)
  {
    var ws := ResolvePass(ps, markets, today, now).0;
    PassAccounting(ps, markets, today, now);
    ClosingEffect(store, ws);
  }

  /** A position still open after a pass had no winner in that pass, so it
      has none in a pass with the same market answers. */
  lemma OpenAfterPassUndecided(store: Store, ps: seq<Position>, ps2: seq<Position>, markets: map<string, MarketData>,
                               today: Option<DailyRecord>, now: int)
    requires RollupOk(today)
    requires IsOpenListing(ps, store)
    requires IsOpenListing(ps2, ApplyAll(store, ResolvePass(ps, markets, today, now).0))
    ensures forall j :: 0 <= j < |ps2| ==> WinnerIn(ps2[j], markets).None?
  {
    var ws := ResolvePass(ps, markets, today, now).0;
    PassAccounting(ps, markets, today, now);
    ClosingEffect(store, ws);
    var after := ApplyAll(store, ws);
    forall j | 0 <= j < |ps2| ensures WinnerIn(ps2[j], markets).None? {
      var id := ps2[j].positionId;
      assert id in OpenIds(after);
      assert id !in Targets(ws);
      assert after[id] == store[id];
      assert id in OpenIds(store);
      var i :| 0 <= i < |ps| && ps[i].positionId == id;
      assert ps[i] == ps2[j];
      if WinnerIn(ps[i], markets).Some? {
        DecidedHas(ps, markets, i);
      }
    }
  }

  /** A second pass with the same market answers, over the positions the
      first pass left open, writes nothing and leaves today's record as the
      first pass left it. */
  lemma SecondPassIsIdle(store: Store, ps: seq<Position>, ps2: seq<Position>,
                         markets: map<string, MarketData>, today: Option<DailyRecord>, now: int, later: int)
    requires RollupOk(today)
    requires IsOpenListing(ps, store)
    requires IsOpenListing(ps2, ApplyAll(store, ResolvePass(ps, markets, today, now).0))
    ensures ResolvePass(ps2, markets, ResolvePass(ps, markets, today, now).1, later).0 == []
    ensures ResolvePass(ps2, markets, ResolvePass(ps, markets, today, now).1, later).1
         == ResolvePass(ps, markets, today, now).1
  {
    OpenAfterPassUndecided(store, ps, ps2, markets, today, now);
    NothingDecided(ps2, markets, ResolvePass(ps, markets, today, now).1, later);
  }

  /** A pass over positions none of which has a winner writes nothing. */
  lemma {:induction false} NothingDecided(ps: seq<Position>, markets: map<string, MarketData>, today: Option<DailyRecord>, now: int)
    requires forall j :: 0 <= j < |ps| ==> WinnerIn(ps[j], markets).None?
    ensures ResolvePass(ps, markets, today, now) == ([], today)
    decreases |ps|
  {
    if ps != [] {
      assert WinnerIn(ps[0], markets).None?;
      assert forall j :: 0 <= j < |ps[1..]| ==> ps[1..][j] == ps[j + 1];
      NothingDecided(ps[1..], markets, today, now);
    }
  }
}
