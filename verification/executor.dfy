/** The order executor's bookkeeping (executor.py): the position record it
    creates, the simulated fills of a dry run, the checks it makes on the
    order results of a live run, the failed-trade record, and the control
    flow of executing one signal. Placing an order is a call into the CLOB
    client; its answer for each leg is a parameter. Timeouts and order
    cancellation are not modelled. */
module Executor {
  import opened Wrappers
  import opened Helpers
  import opened Config
  import opened Signals
  import opened DailyStore
  import opened Risk
  import opened PositionStore

  /** `_create_position_record`: the signal's fields, status pending, no close
      time, no realized PnL and no orders. */
  function CreatePositionRecord(sig: Signal, now: int): (p: Position)
    ensures p.positionId == sig.positionId && p.marketId == sig.marketId && p.question == sig.question
    ensures p.strategy == sig.strategy && p.legs == sig.legs
    ensures p.totalCost == sig.totalCost && p.expectedPayout == sig.expectedPayout
    ensures p.expectedEdge == sig.expectedEdge
    ensures p.status == Pending && p.openedAt == now && p.closedAt.None? && p.realizedPnl.None?
    ensures p.orders == []
    ensures p.actualTotalCost.None? && p.actualEdge.None? && p.avgSlippage.None?
    ensures p.failureReason.None? && p.winner.None?
  {
    Position(sig.positionId, sig.marketId, sig.question, sig.strategy, Pending, sig.legs,
             sig.totalCost, sig.expectedPayout, sig.expectedEdge, now, None, None, [],
             None, None, None, None, None)
  }

  /** The record `_record_failed_trade` writes: a fresh position record
      marked failed, with the reason and a close time. */
  function FailedRecord(sig: Signal, reason: FailureReason, now: int): (p: Position)
    ensures p.status == Failed && p.failureReason == Some(reason) && p.closedAt == Some(now)
    ensures p.(status := Pending, failureReason := None, closedAt := None) == CreatePositionRecord(sig, now)
  {
    CreatePositionRecord(sig, now).(status := Failed, failureReason := Some(reason), closedAt := Some(now))
  }

  /** `_record_failed_trade`, as written: an update of the signal's position
      id, which does not insert. */
  function RecordFailedTrade(sig: Signal, reason: FailureReason, now: int): (w: Write)
    ensures w.SetRecord? && Target(w) == sig.positionId && w.doc == FailedRecord(sig, reason, now)
  {
    SetRecord(sig.positionId, FailedRecord(sig, reason, now))
  }

  /** `_record_failed_trade` with the upsert it needs to store a record for
      a trade that never got a position. */
  function RecordFailedTradeUpsert(sig: Signal, reason: FailureReason, now: int): (w: Write)
    ensures w.UpsertRecord? && Target(w) == sig.positionId && w.doc == FailedRecord(sig, reason, now)
  {
    UpsertRecord(sig.positionId, FailedRecord(sig, reason, now))
  }

  // ----- dry run -----

  function DryRunOrderId(positionId: string, outcome: string): string {
    "DRY_RUN_" + positionId + "_" + outcome
  }

  /** The simulated order for one leg: filled in full at the leg's price,
      with no slippage. */
  function DryRunOrder(positionId: string, leg: Leg): (o: OrderRecord)
    ensures o.outcome == leg.outcome && o.slippagePct == 0.0
    ensures o.response.status == Some("filled")
    ensures o.response.fillPrice == Some(leg.price) && o.response.size == Some(leg.sizeTokens)
  {
    OrderRecord(leg.outcome,
                OrderResponse(Some(DryRunOrderId(positionId, leg.outcome)), Some("filled"),
                              Some(leg.price), Some(leg.sizeTokens)),
                0.0)
  }

  function DryRunOrders(positionId: string, legs: seq<Leg>): (r: seq<OrderRecord>)
    ensures |r| == |legs|
    ensures forall i :: 0 <= i < |legs| ==> r[i] == DryRunOrder(positionId, legs[i])
  {
    if legs == [] then [] else [DryRunOrder(positionId, legs[0])] + DryRunOrders(positionId, legs[1..])
  }

  /** What filling every leg at its price costs: the sum of price times
      tokens. */
  function FillCost(legs: seq<Leg>): real {
    if legs == [] then 0.0 else legs[0].price * legs[0].sizeTokens + FillCost(legs[1..])
  }

  /** What a list of orders cost, summing fill price times size. */
  function OrdersCost(orders: seq<OrderRecord>): real
    requires forall i :: 0 <= i < |orders| ==> orders[i].response.fillPrice.Some? && orders[i].response.size.Some?
  {
    if orders == [] then 0.0
    else orders[0].response.fillPrice.value * orders[0].response.size.value + OrdersCost(orders[1..])
  }

  /** `_execute_dry_run`: the position opened with one simulated order per
      leg and the cost those fills add up to. Nothing else changes. */
  function ExecuteDryRun(sig: Signal, pos: Position): (r: Position)
    ensures r.status == Open && r.orders == DryRunOrders(sig.positionId, sig.legs)
    ensures r.actualTotalCost == Some(OrdersCost(r.orders))
    ensures r.(status := pos.status, orders := pos.orders, actualTotalCost := pos.actualTotalCost) == pos
  {
    var orders := DryRunOrders(sig.positionId, sig.legs);
    DryRunCostIsFillCost(sig.positionId, sig.legs);
    pos.(status := Open, orders := orders, actualTotalCost := Some(FillCost(sig.legs)))
  }

  lemma {:induction false} DryRunCostIsFillCost(positionId: string, legs: seq<Leg>)
    ensures OrdersCost(DryRunOrders(positionId, legs)) == FillCost(legs)
  {
    if legs != [] {
      var os := DryRunOrders(positionId, legs);
      assert os[1..] == DryRunOrders(positionId, legs[1..]);
      DryRunCostIsFillCost(positionId, legs[1..]);
    }
  }

  /** A leg sized in dollars at a positive price costs those dollars. */
  predicate DollarSized(leg: Leg) {
    leg.price > 0.0 && leg.sizeTokens == Tokens(leg.sizeUsd, leg.price)
  }

  /** Filling legs sized in dollars costs the dollars they were sized at. */
  lemma {:induction false} FillCostIsDollars(legs: seq<Leg>)
    requires forall i :: 0 <= i < |legs| ==> DollarSized(legs[i])
    ensures FillCost(legs) == SumUsd(legs)
  {
    if legs != [] {
      assert DollarSized(legs[0]);
      assert legs[0].price * legs[0].sizeTokens == legs[0].sizeUsd;
      FillCostIsDollars(legs[1..]);
    }
  }

  /** A dry run of a one-of-many signal whose asks are positive spends the
      whole arbitrage limit, although the signal's `total_cost` (what the
      risk guard checks against that limit) is a sum of prices below 1. */
  lemma OneOfManyDryRunSpendsLimit(m: Market, secondsLeft: Option<int>, s: Settings, positionId: string)
    requires CheckOneOfMany(m, secondsLeft, s, positionId).Some? && s.minArbEdgePct > 0.0
    requires forall i :: 0 <= i < |m.outcomes| ==> m.outcomes[i].book.bestAsk.GetOr(0.0) > 0.0
    ensures var sig := CheckOneOfMany(m, secondsLeft, s, positionId).value;
            FillCost(sig.legs) == s.MaxArbPositionSize() && sig.totalCost < 1.0
  {
    var sig := CheckOneOfMany(m, secondsLeft, s, positionId).value;
    forall i | 0 <= i < |sig.legs| ensures DollarSized(sig.legs[i]) {
      assert m.outcomes[i].book.bestAsk.GetOr(0.0) > 0.0;
    }
    FillCostIsDollars(sig.legs);
  }

  /** The same for a yes/no signal: both halves of the limit are spent. */
  lemma YesNoDryRunSpendsLimit(m: Market, secondsLeft: Option<int>, s: Settings, positionId: string)
    requires CheckYesNo(m, secondsLeft, s, positionId).Some?
    requires var sig := CheckYesNo(m, secondsLeft, s, positionId).value;
             sig.legs[0].price > 0.0 && sig.legs[1].price > 0.0
    ensures FillCost(CheckYesNo(m, secondsLeft, s, positionId).value.legs) == s.MaxArbPositionSize()
  {
    var sig := CheckYesNo(m, secondsLeft, s, positionId).value;
    assert YesNoShape(sig, m, s);
    assert DollarSized(sig.legs[0]) && DollarSized(sig.legs[1]);
    FillCostIsDollars(sig.legs);
    assert sig.legs[1..][1..] == [];
    assert SumUsd(sig.legs[1..]) == sig.legs[1].sizeUsd + SumUsd(sig.legs[1..][1..]);
    assert SumUsd(sig.legs) == sig.legs[0].sizeUsd + SumUsd(sig.legs[1..]);
  }

  /** For a late-market signal the dry-run cost is the signal's `total_cost`. */
  lemma LateDryRunCostIsTotalCost(m: Market, secondsLeft: Option<int>, s: Settings, feed: FeedSnapshot, positionId: string)
    requires LateSignal(m, secondsLeft, s, feed, positionId).Some?
    ensures var sig := LateSignal(m, secondsLeft, s, feed, positionId).value;
            FillCost(sig.legs) == sig.totalCost
  {
    var sig := LateSignal(m, secondsLeft, s, feed, positionId).value;
    assert sig.legs[1..] == [];
  }

  // ----- live run -----

  /** What awaiting one order yields: an exception, a falsy value (`None` or
      an empty response), or a response. */
  datatype OrderResult = Raised | NoResponse | Response(resp: OrderResponse)

  /** `_place_order`: a leg without a token id never reaches the client and
      yields `None`; otherwise the client's answer is the result. */
  function PlaceOrder(leg: Leg, client: OrderResult): (r: OrderResult)
    ensures !Truthy(leg.tokenId) ==> r == NoResponse
    ensures Truthy(leg.tokenId) ==> r == client
  {
    if !Truthy(leg.tokenId) then NoResponse else client
  }

  function PlaceOrders(legs: seq<Leg>, client: seq<OrderResult>): (r: seq<OrderResult>)
    requires |client| == |legs|
    ensures |r| == |legs|
    ensures forall i :: 0 <= i < |legs| ==> r[i] == PlaceOrder(legs[i], client[i])
  {
    if legs == [] then [] else [PlaceOrder(legs[0], client[0])] + PlaceOrders(legs[1..], client[1..])
  }

  /** The price a response filled at, defaulting to the leg's price. */
  function FillPrice(leg: Leg, resp: OrderResponse): real {
    resp.fillPrice.GetOr(leg.price)
  }

  /** One leg passes verification: its order is filled and slipped no more
      than `maxSlippage` percent either way. */
  predicate LegVerified(leg: Leg, resp: OrderResponse, maxSlippage: real) {
    resp.status == Some("filled") && Abs(Slippage(leg.price, FillPrice(leg, resp))) <= maxSlippage
  }

  function SumSlippage(orders: seq<OrderRecord>): real {
    if orders == [] then 0.0 else orders[0].slippagePct + SumSlippage(orders[1..])
  }

  /** The verification loop: the stored orders if every leg passes, `None`
      at the first one that does not. */
  function VerifyFills(legs: seq<Leg>, resps: seq<OrderResponse>, maxSlippage: real): (r: Option<seq<OrderRecord>>)
    requires |resps| == |legs|
    ensures r.Some? <==> forall i :: 0 <= i < |legs| ==> LegVerified(legs[i], resps[i], maxSlippage)
    ensures r.Some? ==> |r.value| == |legs|
    ensures r.Some? ==> forall i :: 0 <= i < |legs| ==>
              r.value[i] == OrderRecord(legs[i].outcome, resps[i], Slippage(legs[i].price, FillPrice(legs[i], resps[i])))
  {
    if legs == [] then Some([])
    else if !LegVerified(legs[0], resps[0], maxSlippage) then None
    else
      match VerifyFills(legs[1..], resps[1..], maxSlippage)
      case None =>
        assert !LegVerified(legs[1..][0], resps[1..][0], maxSlippage)
               || exists i :: 0 <= i < |legs[1..]| && !LegVerified(legs[1..][i], resps[1..][i], maxSlippage);
        None
      case Some(rest) =>
        assert forall i :: 1 <= i < |legs| ==> legs[i] == legs[1..][i - 1] && resps[i] == resps[1..][i - 1];
        Some([OrderRecord(legs[0].outcome, resps[0], Slippage(legs[0].price, FillPrice(legs[0], resps[0])))] + rest)
  }

  /** The total cost of the orders, each order's fill price times its
      size; it fails with a missing-key error at the first order whose
      response lacks either figure. */
  function CostOf(orders: seq<OrderRecord>): (r: Result<real, string>)
    ensures r.Success? <==> forall i :: 0 <= i < |orders| ==>
                              orders[i].response.fillPrice.Some? && orders[i].response.size.Some?
    ensures r.Success? ==> r.value == OrdersCost(orders)
    ensures r.Failure? ==> r.error == "fill_price" || r.error == "size"
  {
    if orders == [] then Success(0.0)
    else if orders[0].response.fillPrice.None? then Failure("fill_price")
    else if orders[0].response.size.None? then Failure("size")
    else
      match CostOf(orders[1..])
      case Failure(k) =>
        assert exists i :: 0 <= i < |orders[1..]| &&
                 !(orders[1..][i].response.fillPrice.Some? && orders[1..][i].response.size.Some?);
        Failure(k)
      case Success(c) =>
        assert forall i :: 1 <= i < |orders| ==> orders[i] == orders[1..][i - 1];
        Success(orders[0].response.fillPrice.value * orders[0].response.size.value + c)
  }

  datatype LiveOutcome =
    | LiveFailed(reason: FailureReason)
    | LiveFilled(orders: seq<OrderRecord>, cost: real, edge: real, avgSlippage: real)

  function Responses(results: seq<OrderResult>): (r: seq<OrderResponse>)
    requires forall i :: 0 <= i < |results| ==> results[i].Response?
    ensures |r| == |results| && forall i :: 0 <= i < |results| ==> r[i] == results[i].resp
  {
    if results == [] then [] else [results[0].resp] + Responses(results[1..])
  }

  /** What a successful live run reports about its orders: one record per
      leg, in order, each within the slippage tolerance; the summed cost; the
      edge left of the expected payout in percent; and the mean slippage. */
  predicate FilledWell(r: LiveOutcome, legs: seq<Leg>, resps: seq<OrderResponse>,
                       expectedPayout: real, maxSlippage: real)
    requires r.LiveFilled? && |resps| == |legs|
  {
    && |r.orders| == |legs|
    && (forall i :: 0 <= i < |legs| ==>
          r.orders[i].outcome == legs[i].outcome && r.orders[i].response == resps[i]
          && Abs(r.orders[i].slippagePct) <= maxSlippage
          && resps[i].fillPrice.Some? && resps[i].size.Some?)
    && r.cost == OrdersCost(r.orders)
    && r.edge == (expectedPayout - r.cost) * 100.0
    && r.avgSlippage * (|legs| as real) == SumSlippage(r.orders)
    && (|legs| == 0 ==> r.avgSlippage == 0.0)
  }

  /** The part of `_execute_live` after every order answered: every order
      must be filled within the slippage tolerance, then the cost is summed. */
  function SettleFills(legs: seq<Leg>, resps: seq<OrderResponse>, expectedPayout: real, maxSlippage: real): (r: LiveOutcome)
    requires |resps| == |legs|
    ensures r.LiveFilled? <==>
              (forall i :: 0 <= i < |legs| ==>
                 LegVerified(legs[i], resps[i], maxSlippage)
                 && resps[i].fillPrice.Some? && resps[i].size.Some?)
    ensures r.LiveFilled? ==> FilledWell(r, legs, resps, expectedPayout, maxSlippage)
    ensures r.LiveFailed? ==>
              (r.reason == FillVerificationFailed <==>
                 exists i :: 0 <= i < |legs| && !LegVerified(legs[i], resps[i], maxSlippage))
  {
    match VerifyFills(legs, resps, maxSlippage)
    case None => LiveFailed(FillVerificationFailed)
    case Some(orders) =>
      match CostOf(orders)
      case Failure(k) =>
        LiveFailed(MissingKey(k))
      case Success(cost) =>
        var n := |orders| as real;
        var avg := if |orders| > 0 then SumSlippage(orders) / n else 0.0;
        assert |orders| > 0 ==> avg * n == SumSlippage(orders) by {
          if |orders| > 0 { DivCancels(SumSlippage(orders), n); }
        }
        LiveFilled(orders, cost, (expectedPayout - cost) * 100.0, avg)
  }

  /** `_execute_live` from the gathered results on: any exception or empty
      result fails the trade as a partial fill; otherwise the responses are
      settled as above. */
  function VerifyLive(legs: seq<Leg>, results: seq<OrderResult>, expectedPayout: real, maxSlippage: real): (r: LiveOutcome)
    requires |results| == |legs|
    ensures (exists i :: 0 <= i < |results| && !results[i].Response?) ==> r == LiveFailed(PartialFill)
    ensures r.LiveFilled? <==>
              (forall i :: 0 <= i < |legs| ==>
                 results[i].Response? && LegVerified(legs[i], results[i].resp, maxSlippage)
                 && results[i].resp.fillPrice.Some? && results[i].resp.size.Some?)
    ensures r.LiveFilled? ==> FilledWell(r, legs, Responses(results), expectedPayout, maxSlippage)
    ensures r.LiveFailed? && (forall i :: 0 <= i < |results| ==> results[i].Response?) ==>
              (r.reason == FillVerificationFailed <==>
                 exists i :: 0 <= i < |legs| && !LegVerified(legs[i], results[i].resp, maxSlippage))
  {
    if exists i :: 0 <= i < |results| && !results[i].Response? then LiveFailed(PartialFill)
    else SettleFills(legs, Responses(results), expectedPayout, maxSlippage)
  }

  /** The live position update on success. */
  function OpenLive(pos: Position, filled: LiveOutcome): (r: Position)
    requires filled.LiveFilled?
    ensures r.status == Open && r.orders == filled.orders
    ensures r.actualTotalCost == Some(filled.cost) && r.actualEdge == Some(filled.edge)
    ensures r.avgSlippage == Some(filled.avgSlippage)
  {
    pos.(status := Open, orders := filled.orders, actualTotalCost := Some(filled.cost),
         actualEdge := Some(filled.edge), avgSlippage := Some(filled.avgSlippage))
  }

  // ----- one signal -----

  /** What executing one signal leaves behind: the risk guard, today's daily
      record, the writes made to the positions collection in order, and the
      success flag passed to `record_trade_result` (`None` when it is not
      called). */
  datatype Execution = Execution(risk: RiskState, daily: Option<DailyRecord>, writes: seq<Write>, recorded: Option<bool>)

  /** `_execute_signal`. `client` holds the CLOB client's answer for each leg
      of a live run. The position's `realized_pnl` is still unset when the
      result is recorded, so the daily record is never touched. */
  function ExecuteSignal(sig: Signal, st: RiskState, openCount: int, exposure: real,
                         today: Option<DailyRecord>, s: Settings, now: int,
                         client: seq<OrderResult>): (r: Execution)
    requires s.bankroll > 0.0
    requires |client| == |sig.legs|
    ensures var v := ValidateTrade(st, sig, openCount, exposure, today, s);
            v.1.Rejected? ==>
              r == Execution(v.0, today, [RecordFailedTrade(sig, RiskCheckFailed(v.1.why), now)], None)
    ensures var v := ValidateTrade(st, sig, openCount, exposure, today, s);
            v.1.Approved? ==>
              && r.recorded.Some? && r.risk == RecordOutcome(v.0, r.recorded.value, s)
              && |r.writes| == 2 && r.writes[0] == Insert(CreatePositionRecord(sig, now))
              && Target(r.writes[1]) == sig.positionId
    ensures r.daily == today
    ensures s.dryRun && r.recorded.Some? ==>
              r.recorded == Some(true)
              && r.writes[1] == SetRecord(sig.positionId, ExecuteDryRun(sig, CreatePositionRecord(sig, now)))
    ensures !s.dryRun && r.recorded.Some? ==>
              var live := VerifyLive(sig.legs, PlaceOrders(sig.legs, client), sig.expectedPayout, s.maxSlippagePct);
              && (r.recorded == Some(true) <==> live.LiveFilled?)
              && (live.LiveFilled? ==> r.writes[1] == SetRecord(sig.positionId, OpenLive(CreatePositionRecord(sig, now), live)))
              && (live.LiveFailed? ==> r.writes[1] == RecordFailedTrade(sig, live.reason, now))
  {
    var (st1, verdict) := ValidateTrade(st, sig, openCount, exposure, today, s);
    if verdict.Rejected? then
      Execution(st1, today, [RecordFailedTrade(sig, RiskCheckFailed(verdict.why), now)], None)
    else
      var pos := CreatePositionRecord(sig, now);
      var (success, update) :=
        if s.dryRun then (true, SetRecord(sig.positionId, ExecuteDryRun(sig, pos)))
        else
          var live := VerifyLive(sig.legs, PlaceOrders(sig.legs, client), sig.expectedPayout, s.maxSlippagePct);
          if live.LiveFailed? then (false, RecordFailedTrade(sig, live.reason, now))
          else (true, SetRecord(sig.positionId, OpenLive(pos, live)));
      var (st2, daily) := RecordTradeResult(st1, success, pos.realizedPnl, today, s);
      Execution(st2, daily, [Insert(pos), update], Some(success))
  }

  /** The same control flow with the failed-trade record upserted, so a
      rejected trade leaves a record too. */
  function ExecuteSignalUpserting(sig: Signal, st: RiskState, openCount: int, exposure: real,
                                  today: Option<DailyRecord>, s: Settings, now: int,
                                  client: seq<OrderResult>): (r: Execution)
    requires s.bankroll > 0.0
    requires |client| == |sig.legs|
    ensures var v := ValidateTrade(st, sig, openCount, exposure, today, s);
            v.1.Rejected? ==>
              r == Execution(v.0, today, [RecordFailedTradeUpsert(sig, RiskCheckFailed(v.1.why), now)], None)
    ensures ValidateTrade(st, sig, openCount, exposure, today, s).1.Approved? ==>
              r == ExecuteSignal(sig, st, openCount, exposure, today, s, now, client)
  {
    var e := ExecuteSignal(sig, st, openCount, exposure, today, s, now, client);
    var v := ValidateTrade(st, sig, openCount, exposure, today, s);
    if v.1.Rejected? then e.(writes := [RecordFailedTradeUpsert(sig, RiskCheckFailed(v.1.why), now)]) else e
  }

  /** What the positions collection holds for a new signal's id after the
      execution's writes: nothing after a rejection, an open position after
      a dry run or a filled live run, and a failed one with the reason after
      a live run that did not fill. */
  lemma ExecutionEffect(sig: Signal, st: RiskState, openCount: int, exposure: real,
                        today: Option<DailyRecord>, s: Settings, now: int,
                        client: seq<OrderResult>, store: Store)
    requires s.bankroll > 0.0
    requires |client| == |sig.legs|
    requires sig.positionId !in store
    ensures var e := ExecuteSignal(sig, st, openCount, exposure, today, s, now, client);
            var after := ApplyAll(store, e.writes);
            && (e.recorded.None? ==> after == store)
            && (e.recorded == Some(true) ==>
                  sig.positionId in after && after[sig.positionId].status == Open
                  && after[sig.positionId].actualTotalCost.Some?)
            && (e.recorded == Some(false) ==>
                  sig.positionId in after && after[sig.positionId].status == Failed
                  && after[sig.positionId].failureReason ==
                       Some(VerifyLive(sig.legs, PlaceOrders(sig.legs, client), sig.expectedPayout, s.maxSlippagePct).reason))
            && (forall id :: id in store ==> id in after && after[id] == store[id])
  {
    var e := ExecuteSignal(sig, st, openCount, exposure, today, s, now, client);
    if e.recorded.None? {
      RejectionWritesNothing(sig, st, openCount, exposure, today, s, now, client, store);
    } else {
      RecordedExecutionEffect(sig, st, openCount, exposure, today, s, now, client, store);
    }
  }

  /** A rejected signal's one write targets an id the store does not hold,
      so it changes nothing. */
  lemma RejectionWritesNothing(sig: Signal, st: RiskState, openCount: int, exposure: real,
                               today: Option<DailyRecord>, s: Settings, now: int,
                               client: seq<OrderResult>, store: Store)
    requires s.bankroll > 0.0
    requires |client| == |sig.legs|
    requires sig.positionId !in store
    requires ExecuteSignal(sig, st, openCount, exposure, today, s, now, client).recorded.None?
    ensures ApplyAll(store, ExecuteSignal(sig, st, openCount, exposure, today, s, now, client).writes) == store
  {
    var e := ExecuteSignal(sig, st, openCount, exposure, today, s, now, client);
    OneWrite(store, e.writes[0]);
  }

  /** An approved signal inserts its position and then sets its outcome on
      it; no other record changes. */
  lemma RecordedExecutionEffect(sig: Signal, st: RiskState, openCount: int, exposure: real,
                                today: Option<DailyRecord>, s: Settings, now: int,
                                client: seq<OrderResult>, store: Store)
    requires s.bankroll > 0.0
    requires |client| == |sig.legs|
    requires sig.positionId !in store
    requires ExecuteSignal(sig, st, openCount, exposure, today, s, now, client).recorded.Some?
    ensures var e := ExecuteSignal(sig, st, openCount, exposure, today, s, now, client);
            var after := ApplyAll(store, e.writes);
            && sig.positionId in after
            && (e.recorded == Some(true) ==>
                  after[sig.positionId].status == Open && after[sig.positionId].actualTotalCost.Some?)
            && (e.recorded == Some(false) ==>
                  after[sig.positionId].status == Failed
                  && after[sig.positionId].failureReason ==
                       Some(VerifyLive(sig.legs, PlaceOrders(sig.legs, client), sig.expectedPayout, s.maxSlippagePct).reason))
            && (forall id :: id in store ==> id in after && after[id] == store[id])
  {
    var e := ExecuteSignal(sig, st, openCount, exposure, today, s, now, client);
    var pos := CreatePositionRecord(sig, now);
    assert e.writes == [Insert(pos), e.writes[1]];
    InsertThenSet(store, pos, e.writes[1]);
  }

  /** A single write, applied as a sequence of one. */
  lemma OneWrite(store: Store, w: Write)
    ensures ApplyAll(store, [w]) == Apply(store, w)
  {
    assert [w][1..] == [];
  }

  /** Inserting a new record and then setting fields on it leaves the fields
      set on the inserted record and every other record as it was. */
  lemma InsertThenSet(store: Store, pos: Position, w: Write)
    requires pos.positionId !in store && w.SetRecord? && Target(w) == pos.positionId
    ensures var after := ApplyAll(store, [Insert(pos), w]);
            && pos.positionId in after && after[pos.positionId] == SetFields(pos, w.doc)
            && forall id :: id in store ==> id in after && after[id] == store[id]
  {
    var s1 := Apply(store, Insert(pos));
    assert [Insert(pos), w][1..] == [w];
    OneWrite(s1, w);
  }

  /** With the upsert, a rejected trade is stored as a failed position
      carrying the risk guard's reason. */
  lemma UpsertRecordsRejection(sig: Signal, st: RiskState, openCount: int, exposure: real,
                               today: Option<DailyRecord>, s: Settings, now: int,
                               client: seq<OrderResult>, store: Store)
    requires s.bankroll > 0.0
    requires |client| == |sig.legs|
    requires sig.positionId !in store
    requires ValidateTrade(st, sig, openCount, exposure, today, s).1.Rejected?
    ensures var e := ExecuteSignalUpserting(sig, st, openCount, exposure, today, s, now, client);
            var after := ApplyAll(store, e.writes);
            && sig.positionId in after && after[sig.positionId].status == Failed
            && after[sig.positionId].failureReason ==
                 Some(RiskCheckFailed(ValidateTrade(st, sig, openCount, exposure, today, s).1.why))
            && after[sig.positionId].closedAt == Some(now)
  {
    var e := ExecuteSignalUpserting(sig, st, openCount, exposure, today, s, now, client);
    assert ApplyAll(store, e.writes) == ApplyAll(Apply(store, e.writes[0]), []);
  }

  /** A rejected trade leaves no record: the failed-trade update finds no
      position with the signal's id. With the default settings, a halted
      guard rejects any signal, and the collection is unchanged. */
  lemma RejectionLeavesNoRecord(sig: Signal, now: int, store: Store)
    requires sig.positionId !in store
    requires |sig.legs| == 0
    ensures var st := Halt(Initial, Manual("maintenance"));
            var e := ExecuteSignal(sig, st, 0, 0.0, None, Defaults, now, []);
            e.recorded.None? && ApplyAll(store, e.writes) == store && sig.positionId !in ApplyAll(store, e.writes)
  {
    var st := Halt(Initial, Manual("maintenance"));
    var e := ExecuteSignal(sig, st, 0, 0.0, None, Defaults, now, []);
    assert ApplyAll(store, e.writes) == ApplyAll(Apply(store, e.writes[0]), []);
  }
}
