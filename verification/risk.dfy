/** The risk guard (risk_guard.py): the pre-trade checks, the consecutive-
    failure circuit breaker, the manual halt and resume, and the risk guard's
    share of the daily PnL record. The database reads the checks make (open
    position count, total exposure, today's record) are parameters. */
module Risk {
  import opened Wrappers
  import opened Config
  import opened Signals
  import opened DailyStore

  /** Why trading is halted; `NoReason` is the empty reason string. */
  datatype HaltReason =
    | NoReason
    | DailyLossExceeded(pnl: real)     // "Daily loss limit exceeded: $<pnl>"
    | ConsecutiveFailures(limit: int)  // "<limit> consecutive failed trades"
    | Manual(text: string)             // any other caller of `halt_trading`

  datatype RiskState = RiskState(consecutiveFails: nat, tradingHalted: bool, haltReason: HaltReason)

  /** A freshly constructed guard. */
  const Initial: RiskState := RiskState(0, false, NoReason)

  datatype Rejection =
    | Halted(reason: HaltReason)       // "Trading halted: <reason>"
    | SizeExceedsLimit(limit: real)    // "Position size exceeds limit (<limit>)"
    | MaxConcurrentReached(max: int)   // "Max concurrent positions reached (<max>)"
    | ExposureWouldExceed              // "Daily exposure limit would be exceeded"
    | DailyLossHalt(reason: HaltReason) // the halt reason just set

  datatype Verdict = Approved | Rejected(why: Rejection)

  /** `_get_max_position_size`: the late-market cap when the strategy's
      name is "late_market", the arbitrage cap for every other name. */
  function MaxPositionSize(strategy: Strategy, s: Settings): (r: real)
    ensures StrategyName(strategy) == "late_market" ==> r == s.MaxLatePositionSize()
    ensures StrategyName(strategy) != "late_market" ==> r == s.MaxArbPositionSize()
  {
    if StrategyName(strategy) == "late_market" then s.MaxLatePositionSize() else s.MaxArbPositionSize()
  }

  /** The cap depends on the strategy only through its name: two strategies
      stored under the same name get the same cap. */
  lemma CapDependsOnName(a: Strategy, b: Strategy, s: Settings)
    requires StrategyName(a) == StrategyName(b)
    ensures MaxPositionSize(a, s) == MaxPositionSize(b, s)
    ensures MaxPositionSize(OtherStrategy("late_market"), s) == s.MaxLatePositionSize()
  {
  }

  /** `_get_today_pnl`: today's `realized_pnl`, 0 when the record lacks it or
      there is no record. */
  function TodayPnl(today: Option<DailyRecord>): (r: real)
    ensures today.None? ==> r == 0.0
    ensures today.Some? && today.value.realizedPnl.Some? ==> r == today.value.realizedPnl.value
    ensures today.Some? && today.value.realizedPnl.None? ==> r == 0.0
  {
    match today
    case None => 0.0
    case Some(rec) => rec.realizedPnl.GetOr(0.0)
  }

  /** `halt_trading`: sets the flag and the reason and nothing else. */
  function Halt(st: RiskState, reason: HaltReason): (r: RiskState)
    ensures r.tradingHalted && r.haltReason == reason
    ensures r.consecutiveFails == st.consecutiveFails
  {
    st.(tradingHalted := true, haltReason := reason)
  }

  /** `resume_trading`: clears the flag, the reason and the counter. */
  function Resume(st: RiskState): (r: RiskState)
    ensures r == Initial
  {
    RiskState(0, false, NoReason)
  }

  /** The four checks after the halt test, in the order the source runs them. */
  predicate SizeOk(sig: Signal, s: Settings) {
    sig.totalCost <= MaxPositionSize(sig.strategy, s)
  }

  predicate ConcurrencyOk(openCount: int, s: Settings) {
    openCount < s.maxConcurrentPositions
  }

  predicate ExposureOk(sig: Signal, exposure: real, s: Settings) {
    exposure + sig.totalCost <= s.MaxDailyExposure()
  }

  predicate LossOk(today: Option<DailyRecord>, s: Settings) {
    !(TodayPnl(today) < -s.DailyLossHaltAmount())
  }

  /** `validate_trade`: the guard after the call and its verdict. */
  function ValidateTrade(st: RiskState, sig: Signal, openCount: int, exposure: real,
                         today: Option<DailyRecord>, s: Settings): (r: (RiskState, Verdict))
    // a halt rejects before anything else is looked at
    ensures st.tradingHalted ==> r == (st, Rejected(Halted(st.haltReason)))
    // approval exactly when every check passes
    ensures r.1.Approved? <==>
              !st.tradingHalted && SizeOk(sig, s) && ConcurrencyOk(openCount, s)
              && ExposureOk(sig, exposure, s) && LossOk(today, s)
    // the first failing check names the rejection
    ensures !st.tradingHalted && !SizeOk(sig, s) ==>
              r.1 == Rejected(SizeExceedsLimit(MaxPositionSize(sig.strategy, s)))
    ensures !st.tradingHalted && SizeOk(sig, s) && !ConcurrencyOk(openCount, s) ==>
              r.1 == Rejected(MaxConcurrentReached(s.maxConcurrentPositions))
    ensures (!st.tradingHalted && SizeOk(sig, s) && ConcurrencyOk(openCount, s)
             && !ExposureOk(sig, exposure, s)) ==> r.1 == Rejected(ExposureWouldExceed)
    // the guard changes only when the daily loss check trips, and then it halts
    ensures r.0 != st <==>
              !st.tradingHalted && SizeOk(sig, s) && ConcurrencyOk(openCount, s)
              && ExposureOk(sig, exposure, s) && !LossOk(today, s)
    ensures r.0 != st ==>
              r.0 == Halt(st, DailyLossExceeded(TodayPnl(today)))
              && r.1 == Rejected(DailyLossHalt(DailyLossExceeded(TodayPnl(today))))
  {
    if st.tradingHalted then (st, Rejected(Halted(st.haltReason)))
    else if !SizeOk(sig, s) then (st, Rejected(SizeExceedsLimit(MaxPositionSize(sig.strategy, s))))
    else if !ConcurrencyOk(openCount, s) then (st, Rejected(MaxConcurrentReached(s.maxConcurrentPositions)))
    else if !ExposureOk(sig, exposure, s) then (st, Rejected(ExposureWouldExceed))
    else if !LossOk(today, s) then
      var halted := Halt(st, DailyLossExceeded(TodayPnl(today)));
      (halted, Rejected(DailyLossHalt(halted.haltReason)))
    else (st, Approved)
  }

  /** The success/failure half of `record_trade_result`: a success resets the
      counter; a failure increments it and, at the limit, halts with the
      consecutive-failure reason. */
  function RecordOutcome(st: RiskState, success: bool, s: Settings): (r: RiskState)
    ensures success ==> r == st.(consecutiveFails := 0)
    ensures !success ==> r.consecutiveFails == st.consecutiveFails + 1
    ensures !success ==> (r.tradingHalted <==> st.tradingHalted || st.consecutiveFails + 1 >= s.maxConsecutiveFails)
    ensures !success && st.consecutiveFails + 1 >= s.maxConsecutiveFails ==>
              r.haltReason == ConsecutiveFailures(s.maxConsecutiveFails)
    ensures !success && st.consecutiveFails + 1 < s.maxConsecutiveFails ==> r == st.(consecutiveFails := st.consecutiveFails + 1)
  {
    if success then st.(consecutiveFails := 0)
    else
      var counted := st.(consecutiveFails := st.consecutiveFails + 1);
      if counted.consecutiveFails >= s.maxConsecutiveFails
      then Halt(counted, ConsecutiveFailures(s.maxConsecutiveFails))
      else counted
  }

  /** `_update_daily_pnl`: adds `pnl` to today's realized PnL, recomputes the
      return on the bankroll and counts one more trade; the resolver's fields
      are left alone. */
  function UpdateDailyPnl(today: Option<DailyRecord>, pnl: real, s: Settings): (r: DailyRecord)
    requires s.bankroll > 0.0
    ensures TodayPnl(Some(r)) == TodayPnl(today) + pnl
    ensures r.returnPct.Some? && r.returnPct.value * s.bankroll == TodayPnl(Some(r)) * 100.0
    ensures r.tradesCount == Some(if today.Some? then today.value.tradesCount.GetOr(0) + 1 else 1)
    ensures r.totalPnl == Base(today).totalPnl && r.totalTrades == Base(today).totalTrades
    ensures r.winningTrades == Base(today).winningTrades && r.winRate == Base(today).winRate
    ensures r.strategyPnl == Base(today).strategyPnl
  {
    var newTotal := if today.Some? then today.value.realizedPnl.GetOr(0.0) + pnl else pnl;
    var returnPct := (newTotal / s.bankroll) * 100.0;
    var count := if today.Some? then today.value.tradesCount.GetOr(0) + 1 else 1;
    SetRiskFields(today, newTotal, returnPct, count)
  }

  /** `record_trade_result`: the counter update, then the daily record only
      when a PnL is given. */
  function RecordTradeResult(st: RiskState, success: bool, pnl: Option<real>,
                             today: Option<DailyRecord>, s: Settings): (r: (RiskState, Option<DailyRecord>))
    requires s.bankroll > 0.0
    ensures r.0 == RecordOutcome(st, success, s)
    ensures pnl.None? ==> r.1 == today
    ensures pnl.Some? ==> r.1.Some? && TodayPnl(r.1) == TodayPnl(today) + pnl.value
  {
    (RecordOutcome(st, success, s),
     match pnl
     case None => today
     case Some(p) => Some(UpdateDailyPnl(today, p, s)))
  }

  datatype RiskStatus = RiskStatus(tradingHalted: bool, haltReason: HaltReason,
                                   consecutiveFails: nat, maxConsecutiveFails: int)

  /** `get_risk_status`: the guard's state and the configured failure limit. */
  function GetRiskStatus(st: RiskState, s: Settings): (r: RiskStatus)
    ensures r.tradingHalted == st.tradingHalted && r.haltReason == st.haltReason
    ensures r.consecutiveFails == st.consecutiveFails && r.maxConsecutiveFails == s.maxConsecutiveFails
  {
    RiskStatus(st.tradingHalted, st.haltReason, st.consecutiveFails, s.maxConsecutiveFails)
  }

  // ----- the guard as a state machine over a sequence of calls -----

  /** One call into the guard, with the database reads it would make. */
  datatype Call =
    | Validate(sig: Signal, openCount: int, exposure: real)
    | Record(success: bool, pnl: Option<real>)
    | HaltCall(reason: HaltReason)
    | ResumeCall

  /** The guard and the daily record after a sequence of calls. */
  function Run(st: RiskState, today: Option<DailyRecord>, calls: seq<Call>, s: Settings): (r: (RiskState, Option<DailyRecord>))
    requires s.bankroll > 0.0
    decreases |calls|
  {
    if calls == [] then (st, today)
    else
      var next: (RiskState, Option<DailyRecord>) :=
        match calls[0]
        case Validate(sig, n, e) => (ValidateTrade(st, sig, n, e, today, s).0, today)
        case Record(ok, pnl) => RecordTradeResult(st, ok, pnl, today, s)
        case HaltCall(reason) => (Halt(st, reason), today)
        case ResumeCall => (Resume(st), today);
      Run(next.0, next.1, calls[1..], s)
  }

  /** The verdicts the `Validate` calls of a run receive, in order. */
  function Verdicts(st: RiskState, today: Option<DailyRecord>, calls: seq<Call>, s: Settings): (r: seq<Verdict>)
    requires s.bankroll > 0.0
    decreases |calls|
  {
    if calls == [] then []
    else
      match calls[0]
      case Validate(sig, n, e) =>
        var v := ValidateTrade(st, sig, n, e, today, s);
        [v.1] + Verdicts(v.0, today, calls[1..], s)
      case Record(ok, pnl) =>
        var nx := RecordTradeResult(st, ok, pnl, today, s);
        Verdicts(nx.0, nx.1, calls[1..], s)
      case HaltCall(reason) => Verdicts(Halt(st, reason), today, calls[1..], s)
      case ResumeCall => Verdicts(Resume(st), today, calls[1..], s)
  }

  /** There is no cooldown: once halted, the guard stays halted through any
      calls that do not include a resume, and every trade it is asked about
      in the meantime is rejected. */
  lemma {:induction false} HaltIsSticky(st: RiskState, today: Option<DailyRecord>, calls: seq<Call>, s: Settings)
    requires s.bankroll > 0.0
    requires st.tradingHalted
    requires forall i :: 0 <= i < |calls| ==> !calls[i].ResumeCall?
    ensures Run(st, today, calls, s).0.tradingHalted
    ensures forall i :: 0 <= i < |Verdicts(st, today, calls, s)| ==> Verdicts(st, today, calls, s)[i].Rejected?
    decreases |calls|
  {
    if calls != [] {
      match calls[0]
      case Validate(sig, n, e) =>
        HaltIsSticky(st, today, calls[1..], s);
      case Record(ok, pnl) =>
        var nx := RecordTradeResult(st, ok, pnl, today, s);
        HaltIsSticky(nx.0, nx.1, calls[1..], s);
      case HaltCall(reason) =>
        HaltIsSticky(Halt(st, reason), today, calls[1..], s);
    }
  }

  /** A run of failures with nothing in between. */
  function Failures(k: nat): (r: seq<Call>)
    ensures |r| == k && forall i :: 0 <= i < k ==> r[i] == Record(false, None)
  {
    if k == 0 then [] else [Record(false, None)] + Failures(k - 1)
  }

  /** `k` consecutive failures add `k` to the counter and leave the guard
      halted exactly when it was halted already or the counter reached the
      limit; the daily record is untouched. */
  lemma {:induction false} FailuresCount(st: RiskState, today: Option<DailyRecord>, k: nat, s: Settings)
    requires s.bankroll > 0.0
    ensures Run(st, today, Failures(k), s).0.consecutiveFails == st.consecutiveFails + k
    ensures Run(st, today, Failures(k), s).1 == today
    ensures k > 0 ==>
              (Run(st, today, Failures(k), s).0.tradingHalted <==>
               st.tradingHalted || st.consecutiveFails + k >= s.maxConsecutiveFails)
    decreases k
  {
    if k > 0 {
      var st1 := RecordOutcome(st, false, s);
      assert Failures(k)[1..] == Failures(k - 1);
      assert Run(st, today, Failures(k), s) == Run(st1, today, Failures(k - 1), s);
      FailuresCount(st1, today, k - 1, s);
    }
  }

  /** From a fresh or resumed guard, `max_consecutive_fails` failures in a
      row halt trading with the consecutive-failure reason, and one failure
      fewer does not. */
  lemma BreakerTrips(today: Option<DailyRecord>, s: Settings)
    requires s.bankroll > 0.0 && s.maxConsecutiveFails > 0
    ensures Run(Initial, today, Failures(s.maxConsecutiveFails), s).0.tradingHalted
    ensures Run(Initial, today, Failures(s.maxConsecutiveFails), s).0.haltReason == ConsecutiveFailures(s.maxConsecutiveFails)
    ensures s.maxConsecutiveFails > 1 ==> !Run(Initial, today, Failures(s.maxConsecutiveFails - 1), s).0.tradingHalted
  {
    var m := s.maxConsecutiveFails;
    FailuresCount(Initial, today, m, s);
    if m > 1 {
      FailuresCount(Initial, today, m - 1, s);
    }
    LastFailureReason(Initial, today, m, s);
  }

  /** After at least one failure that brings the counter to the limit, the
      reason is the consecutive-failure one. */
  lemma {:induction false} LastFailureReason(st: RiskState, today: Option<DailyRecord>, k: nat, s: Settings)
    requires s.bankroll > 0.0
    requires k > 0 && st.consecutiveFails + k >= s.maxConsecutiveFails
    ensures Run(st, today, Failures(k), s).0.haltReason == ConsecutiveFailures(s.maxConsecutiveFails)
    decreases k
  {
    var st1 := RecordOutcome(st, false, s);
    assert Failures(k)[1..] == Failures(k - 1);
    assert Run(st, today, Failures(k), s) == Run(st1, today, Failures(k - 1), s);
    if k > 1 {
      LastFailureReason(st1, today, k - 1, s);
    } else {
      assert Failures(0) == [];
    }
  }

  /** A success after a halt resets the counter but does not lift the halt. */
  lemma SuccessKeepsHalt(st: RiskState, today: Option<DailyRecord>, s: Settings)
    requires s.bankroll > 0.0
    ensures RecordTradeResult(st, true, None, today, s).0.consecutiveFails == 0
    ensures RecordTradeResult(st, true, None, today, s).0.tradingHalted == st.tradingHalted
    ensures RecordTradeResult(st, true, None, today, s).0.haltReason == st.haltReason
  {
  }

  /** A halt followed by a resume leaves a guard that approves whatever a
      fresh guard approves. */
  lemma ResumeRestores(st: RiskState, reason: HaltReason, sig: Signal, n: int, e: real,
                       today: Option<DailyRecord>, s: Settings)
    ensures ValidateTrade(Resume(Halt(st, reason)), sig, n, e, today, s) == ValidateTrade(Initial, sig, n, e, today, s)
    ensures GetRiskStatus(Resume(st), s) == RiskStatus(false, NoReason, 0, s.maxConsecutiveFails)
  {
  }

  /** The daily loss halt only ever sees `realized_pnl`: however the
      resolver's fields of today's record read, the loss check and so the
      verdict are the same. */
  lemma LossCheckIgnoresRollup(st: RiskState, sig: Signal, n: int, e: real, rec: DailyRecord,
                               total: real, trades: int, wins: int, winRate: real,
                               strategyPnl: map<string, real>, s: Settings)
    ensures ValidateTrade(st, sig, n, e, Some(SetRollupFields(Some(rec), total, trades, wins, winRate, strategyPnl)), s)
         == ValidateTrade(st, sig, n, e, Some(rec), s)
  {
  }

  /** Equality with the cap passes the size check; one cent over fails it
      (with the default settings, a $100 arbitrage trade is allowed and a
      $100.01 one is not). */
  lemma SizeCapExamples(sig: Signal)
    requires sig.strategy == OneOfMany
    ensures SizeOk(sig.(totalCost := 100.0), Defaults)
    ensures !SizeOk(sig.(totalCost := 100.01), Defaults)
    ensures SizeOk(sig.(strategy := LateMarket, totalCost := 75.0), Defaults)
    ensures !SizeOk(sig.(strategy := LateMarket, totalCost := 80.0), Defaults)
  {
    DefaultLimits();
  }
}
