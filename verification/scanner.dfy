/** The market scanner's pure steps (scanner.py): the basic filters a Gamma
    market must pass, and the enrichment that turns it into the market
    record the signal engine reads. Fetching markets is an HTTP call and is
    not modelled; the seconds left before the market's end date, which the
    scanner computes from the clock, are a parameter (`None` when the date
    does not parse). */
module Scanner {
  import opened Wrappers
  import opened Config
  import opened Helpers
  import opened Signals

  /** The fields of a Gamma market the scanner reads; an absent key is
      `None`. `volume` is the number `safe_float` made of the field (0 when
      absent). */
  datatype GammaMarket = GammaMarket(
    id: Option<string>,
    conditionId: Option<string>,
    question: Option<string>,
    active: Option<bool>,
    volume: real,
    endDateIso: Option<string>,
    outcomes: seq<string>)

  /** `_passes_basic_filters`: active, enough volume, an end date that
      parses and leaves at least `min_time_to_close_minutes`, and at least
      two outcomes. */
  function PassesBasicFilters(m: GammaMarket, secondsLeft: Option<int>, s: Settings): (r: bool)
    ensures r <==>
              && m.active == Some(true)
              && m.volume >= s.minMarketVolume
              && Truthy(m.endDateIso) && secondsLeft.Some?
              && secondsLeft.value >= s.minTimeToCloseMinutes * 60
              && |m.outcomes| >= 2
  {
    if !m.active.GetOr(false) then false
    else if m.volume < s.minMarketVolume then false
    else if !Truthy(m.endDateIso) then false
    else if secondsLeft.None? || secondsLeft.value < s.minTimeToCloseMinutes * 60 then false
    else if |m.outcomes| == 0 || |m.outcomes| < 2 then false
    else true
  }

  /** The placeholder order book every enriched outcome carries: no asks, no
      best ask, and an explicit `None` spread. */
  const EmptyBook: OutcomeBook := OutcomeBook(None, SpreadNull, [])

  function EnrichOutcomes(names: seq<string>): (r: seq<Outcome>)
    ensures |r| == |names|
    ensures forall i :: 0 <= i < |names| ==> r[i] == Outcome(names[i], None, EmptyBook)
  {
    if names == [] then [] else [Outcome(names[0], None, EmptyBook)] + EnrichOutcomes(names[1..])
  }

  /** `_enrich_with_orderbook`: `None` without an id (neither `id` nor
      `condition_id`) or without outcomes; otherwise the market under `id`,
      or `condition_id` when `id` is falsy, with one placeholder-book
      outcome per Gamma outcome, in order. */
  function EnrichWithOrderbook(m: GammaMarket): (r: Option<Market>)
    ensures r.None? <==> (!Truthy(m.id) && !Truthy(m.conditionId)) || m.outcomes == []
    ensures r.Some? ==> r.value.marketId == (if Truthy(m.id) then m.id.value else m.conditionId.value)
    ensures r.Some? ==> r.value.marketId != ""
    ensures r.Some? ==> r.value.question == m.question.GetOr("") && r.value.expiresAt == m.endDateIso.GetOr("")
    ensures r.Some? ==> |r.value.outcomes| == |m.outcomes|
    ensures r.Some? ==> forall i :: 0 <= i < |m.outcomes| ==>
              r.value.outcomes[i].name == m.outcomes[i] && r.value.outcomes[i].book == EmptyBook
  {
    var marketId := if Truthy(m.id) then m.id else m.conditionId;
    if !Truthy(marketId) || m.outcomes == [] then None
    else Some(Market(marketId.value, m.question.GetOr(""), false, false, m.endDateIso.GetOr(""),
                     EnrichOutcomes(m.outcomes)))
  }

  /** Every enriched outcome lacks a best ask, so neither arbitrage check
      can fire on a market the scanner produced, whatever the clock and the
      settings. */
  lemma ArbitrageNeverFiresOnScannerOutput(m: GammaMarket, secondsLeft: Option<int>, s: Settings, positionId: string)
    requires EnrichWithOrderbook(m).Some?
    ensures CheckOneOfMany(EnrichWithOrderbook(m).value, secondsLeft, s, positionId).None?
    ensures CheckYesNo(EnrichWithOrderbook(m).value, secondsLeft, s, positionId).None?
  {
    var mk := EnrichWithOrderbook(m).value;
    assert !LegOk(mk.outcomes[0], s.MaxArbPositionSize() / |mk.outcomes| as real, s.maxSpreadOneOfMany);
    if IsBinaryMarket(Names(mk.outcomes)) && OpenLongEnough(mk, secondsLeft, s) {
      BinarySidesFound(mk.outcomes);
      var a := mk.outcomes[LastMatch(mk.outcomes, SideANames).value];
      assert a.book.bestAsk.None?;
    }
  }

  /** The late-market check cannot fire on scanner output either: the side
      it would buy has no ask. */
  lemma LateNeverFiresOnScannerOutput(m: GammaMarket, secondsLeft: Option<int>, s: Settings,
                                      feed: FeedSnapshot, recent: set<string>, positionId: string)
    requires EnrichWithOrderbook(m).Some?
    ensures CheckLateMarket(EnrichWithOrderbook(m).value, secondsLeft, s, feed, recent, positionId).0.None?
    ensures CheckLateMarket(EnrichWithOrderbook(m).value, secondsLeft, s, feed, recent, positionId).1 == recent
  {
    var mk := EnrichWithOrderbook(m).value;
    var up := LastMatch(mk.outcomes, {"UP"});
    if up.Some? {
      assert mk.outcomes[up.value].book.bestAsk.None?;
    }
  }

  /** A market the filters pass always enriches to a market the signal
      engine can read: its outcomes are all kept, and the time gate of the
      arbitrage checks holds for the same clock reading. */
  lemma FilteredMarketsEnrich(m: GammaMarket, secondsLeft: Option<int>, s: Settings)
    requires PassesBasicFilters(m, secondsLeft, s)
    requires Truthy(m.id) || Truthy(m.conditionId)
    ensures EnrichWithOrderbook(m).Some?
    ensures |EnrichWithOrderbook(m).value.outcomes| >= 2
    ensures OpenLongEnough(EnrichWithOrderbook(m).value, secondsLeft, s)
  {
  }
}
