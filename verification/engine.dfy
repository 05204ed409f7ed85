/** The signal engine's loop body (signal_engine.py, `SignalEngine.start`):
    one market taken from the queue is run through the enabled checks, the
    signals found are sent on in check order, and the late-market dedup set
    is cleared every 200 markets. The queues, the 30-second wait and the
    one-second back-off after an error are outside the model. */
module Engine {
  import opened Wrappers
  import opened Helpers
  import opened Config
  import opened Signals

  /** The engine's state between markets: the late-market dedup set and the
      number of markets fully handled since start (`cleanup_counter`). */
  datatype EngineState = EngineState(recent: set<string>, handled: nat)

  /** The position ids the three checks would generate for this market. */
  datatype PositionIds = PositionIds(oneOfMany: string, yesNo: string, late: string)

  /** What one pass sends to the executor and the state it leaves. */
  datatype StepResult = StepResult(sent: seq<Signal>, state: EngineState)

  /** Markets handled between two clearings of the dedup set. */
  const CleanupEvery: nat := 200

  /** The position of a strategy in the order the loop runs the checks. */
  function CheckOrder(strategy: Strategy): nat {
    match strategy
    case OneOfMany => 0
    case YesNo => 1
    case LateMarket => 2
    case OtherStrategy(_) => 3
  }

  /** Signals sent in the order the loop runs the checks, so at most one
      per strategy. */
  predicate InCheckOrder(sent: seq<Signal>) {
    forall i, j :: 0 <= i < j < |sent| ==> CheckOrder(sent[i].strategy) < CheckOrder(sent[j].strategy)
  }

  /** What a full pass sends, given whether each strategy is enabled and
      what its check returned: each enabled strategy's signal exactly when
      its check found one, a disabled strategy's never, and in check order. */
  predicate Sends(sent: seq<Signal>, ea: bool, a: Option<Signal>, eb: bool, b: Option<Signal>, ec: bool, c: Option<Signal>) {
    && SentBy(sent, OneOfMany) == (if ea then a else None)
    && SentBy(sent, YesNo) == (if eb then b else None)
    && SentBy(sent, LateMarket) == (if ec then c else None)
    && InCheckOrder(sent)
  }

  /** A market that a `btc_5m_only` gate skips: neither its question nor its
      `is_btc_5m` flag marks it as a BTC 5-minute market. */
  predicate GatedOut(m: Market, btc5mOnly: bool) {
    btc5mOnly && !IsBtc5mMarket(m.question) && !m.isBtc5m
  }

  /** The first signal of a strategy among those sent, if any. */
  function SentBy(sent: seq<Signal>, strategy: Strategy): (r: Option<Signal>)
    ensures r.Some? <==> exists i :: 0 <= i < |sent| && sent[i].strategy == strategy
    ensures r.Some? ==> r.value in sent && r.value.strategy == strategy
  {
    if sent == [] then None
    else if sent[0].strategy == strategy then Some(sent[0])
    else SentBy(sent[1..], strategy)
  }

  lemma {:induction false} SentByConcat(xs: seq<Signal>, ys: seq<Signal>, strategy: Strategy)
    ensures SentBy(xs + ys, strategy) == if SentBy(xs, strategy).Some? then SentBy(xs, strategy) else SentBy(ys, strategy)
  {
    if xs != [] {
      assert (xs + ys)[1..] == xs[1..] + ys;
      SentByConcat(xs[1..], ys, strategy);
    } else {
      assert xs + ys == ys;
    }
  }

  /** A check's result as the loop appends it: only when the strategy is
      enabled and the check found a signal. */
  function Found(enabled: bool, sig: Option<Signal>): seq<Signal> {
    if enabled && sig.Some? then [sig.value] else []
  }

  /** `SentBy` on a found signal of a known strategy. */
  lemma SentByFound(enabled: bool, sig: Option<Signal>, own: Strategy, strategy: Strategy)
    requires sig.Some? ==> sig.value.strategy == own
    ensures SentBy(Found(enabled, sig), strategy) ==
              if enabled && sig.Some? && own == strategy then sig else None
  {
  }

  /** The loop body with the gate read from `btc5mOnly`: a gated-out market
      is dropped before the counter moves; otherwise every enabled check
      runs, each signal found is sent once in check order, and the dedup
      set is cleared when the counter reaches a multiple of 200. */
  function Step(m: Market, secondsLeft: Option<int>, s: Settings, btc5mOnly: bool, feed: FeedSnapshot,
                st: EngineState, ids: PositionIds): (r: StepResult)
    ensures GatedOut(m, btc5mOnly) ==> r == StepResult([], st)
    ensures !GatedOut(m, btc5mOnly) ==> r.state.handled == st.handled + 1
    ensures !GatedOut(m, btc5mOnly) ==>
              Sends(r.sent, s.enableOneOfMany, CheckOneOfMany(m, secondsLeft, s, ids.oneOfMany),
                    s.enableYesNo, CheckYesNo(m, secondsLeft, s, ids.yesNo),
                    s.enableLateMarket, CheckLateMarket(m, secondsLeft, s, feed, st.recent, ids.late).0)
    ensures !GatedOut(m, btc5mOnly) ==>
              r.state.recent ==
                if r.state.handled % CleanupEvery == 0 then {}
                else if s.enableLateMarket then CheckLateMarket(m, secondsLeft, s, feed, st.recent, ids.late).1
                else st.recent
  {
    if GatedOut(m, btc5mOnly) then StepResult([], st)
    else
      OneOfManyStrategy(m, secondsLeft, s, ids.oneOfMany);
      YesNoStrategy(m, secondsLeft, s, ids.yesNo);
      LateStrategy(m, secondsLeft, s, feed, st.recent, ids.late);
      Pass(s, st, CheckOneOfMany(m, secondsLeft, s, ids.oneOfMany), CheckYesNo(m, secondsLeft, s, ids.yesNo),
           if s.enableLateMarket then CheckLateMarket(m, secondsLeft, s, feed, st.recent, ids.late) else (None, st.recent))
  }

  /** A full pass given what the three checks return: the enabled ones'
      signals in check order, the counter moved on, and the dedup set the
      late-market check left, or cleared every 200 markets. */
  function Pass(s: Settings, st: EngineState, a: Option<Signal>, b: Option<Signal>,
                late: (Option<Signal>, set<string>)): (r: StepResult)
    requires a.Some? ==> a.value.strategy == OneOfMany
    requires b.Some? ==> b.value.strategy == YesNo
    requires late.0.Some? ==> late.0.value.strategy == LateMarket
    ensures r.state.handled == st.handled + 1
    ensures Sends(r.sent, s.enableOneOfMany, a, s.enableYesNo, b, s.enableLateMarket, late.0)
    ensures r.state.recent == if r.state.handled % CleanupEvery == 0 then {} else late.1
  {
    var sent := Found(s.enableOneOfMany, a) + Found(s.enableYesNo, b) + Found(s.enableLateMarket, late.0);
    ThreeFound(s.enableOneOfMany, a, s.enableYesNo, b, s.enableLateMarket, late.0);
    var handled := st.handled + 1;
    StepResult(sent, EngineState(if handled % CleanupEvery == 0 then {} else late.1, handled))
  }

  lemma FoundInOrder(ea: bool, a: Option<Signal>, eb: bool, b: Option<Signal>, ec: bool, c: Option<Signal>)
    requires a.Some? ==> a.value.strategy == OneOfMany
    requires b.Some? ==> b.value.strategy == YesNo
    requires c.Some? ==> c.value.strategy == LateMarket
    ensures InCheckOrder(Found(ea, a) + Found(eb, b) + Found(ec, c))
  {
    var fa, fb, fc := Found(ea, a), Found(eb, b), Found(ec, c);
    var sent := fa + fb + fc;
    assert |fa| <= 1 && |fb| <= 1 && |fc| <= 1;
    forall k | 0 <= k < |sent|
      ensures CheckOrder(sent[k].strategy) == if k < |fa| then 0 else if k < |fa| + |fb| then 1 else 2
    {
      if k < |fa| {
        assert sent[k] == fa[k];
      } else if k < |fa| + |fb| {
        assert sent[k] == fb[k - |fa|];
      } else {
        assert sent[k] == fc[k - |fa| - |fb|];
      }
    }
  }

  /** Three checks' results appended in order, each of its own strategy,
      are sent once each and in that order. */
  lemma ThreeFound(ea: bool, a: Option<Signal>, eb: bool, b: Option<Signal>, ec: bool, c: Option<Signal>)
    requires a.Some? ==> a.value.strategy == OneOfMany
    requires b.Some? ==> b.value.strategy == YesNo
    requires c.Some? ==> c.value.strategy == LateMarket
    ensures Sends(Found(ea, a) + Found(eb, b) + Found(ec, c), ea, a, eb, b, ec, c)
  {
    var fa, fb, fc := Found(ea, a), Found(eb, b), Found(ec, c);
    FoundInOrder(ea, a, eb, b, ec, c);
    forall strategy
      ensures SentBy(fa + fb + fc, strategy) ==
                if SentBy(fa, strategy).Some? then SentBy(fa, strategy)
                else if SentBy(fb, strategy).Some? then SentBy(fb, strategy)
                else SentBy(fc, strategy)
    {
      SentByConcat(fa + fb, fc, strategy);
      SentByConcat(fa, fb, strategy);
    }
    forall strategy
      ensures SentBy(fa, strategy) == if ea && a.Some? && strategy == OneOfMany then a else None
      ensures SentBy(fb, strategy) == if eb && b.Some? && strategy == YesNo then b else None
      ensures SentBy(fc, strategy) == if ec && c.Some? && strategy == LateMarket then c else None
    {
      SentByFound(ea, a, OneOfMany, strategy);
      SentByFound(eb, b, YesNo, strategy);
      SentByFound(ec, c, LateMarket, strategy);
    }
  }

  lemma OneOfManyStrategy(m: Market, secondsLeft: Option<int>, s: Settings, id: string)
    ensures var r := CheckOneOfMany(m, secondsLeft, s, id); r.Some? ==> r.value.strategy == OneOfMany
  {
  }

  lemma YesNoStrategy(m: Market, secondsLeft: Option<int>, s: Settings, id: string)
    ensures var r := CheckYesNo(m, secondsLeft, s, id); r.Some? ==> r.value.strategy == YesNo
  {
  }

  lemma LateStrategy(m: Market, secondsLeft: Option<int>, s: Settings, feed: FeedSnapshot, recent: set<string>, id: string)
    ensures var r := CheckLateMarket(m, secondsLeft, s, feed, recent, id).0; r.Some? ==> r.value.strategy == LateMarket
  {
  }

  /** The boolean flags `Settings` declares, by their Python names; reading
      any other attribute of the settings object raises `AttributeError`
      (`extra="ignore"` drops undeclared environment values). */
  function Flag(s: Settings, name: string): (r: Option<bool>)
    ensures r.Some? <==> name in {"dry_run", "enable_one_of_many", "enable_yes_no", "enable_late_market"}
    ensures name == "enable_late_market" ==> r == Some(s.enableLateMarket)
  {
    if name == "dry_run" then Some(s.dryRun)
    else if name == "enable_one_of_many" then Some(s.enableOneOfMany)
    else if name == "enable_yes_no" then Some(s.enableYesNo)
    else if name == "enable_late_market" then Some(s.enableLateMarket)
    else None
  }

  /** The loop body as written: the gate reads `settings.btc_5m_only`, and a
      failed read raises inside the `try`, whose `except` logs the error and
      drops the market with nothing sent and the counter unmoved. Since
      `Settings` declares no such field, every market is dropped. */
  function StepAsWritten(m: Market, secondsLeft: Option<int>, s: Settings, feed: FeedSnapshot,
                         st: EngineState, ids: PositionIds): (r: StepResult)
    ensures r.sent == [] && r.state == st
  {
    match Flag(s, "btc_5m_only")
    case None => StepResult([], st)
    case Some(btc5mOnly) => Step(m, secondsLeft, s, btc5mOnly, feed, st, ids)
  }

  /** Wherever the late-market check fires on an enabled strategy (as it
      does for the BTC 5-minute market of `Signals.LateExample`), a pass
      with the gate off, or on for a BTC 5-minute market, sends that signal
      and records the market, while the loop as written sends nothing and
      records nothing. */
  lemma GateFinding(m: Market, secondsLeft: Option<int>, s: Settings, btc5mOnly: bool, feed: FeedSnapshot,
                    st: EngineState, ids: PositionIds)
    requires s.enableLateMarket && !GatedOut(m, btc5mOnly)
    requires CheckLateMarket(m, secondsLeft, s, feed, st.recent, ids.late).0.Some?
    requires (st.handled + 1) % CleanupEvery != 0
    ensures var r := Step(m, secondsLeft, s, btc5mOnly, feed, st, ids);
            && SentBy(r.sent, LateMarket) == CheckLateMarket(m, secondsLeft, s, feed, st.recent, ids.late).0
            && m.marketId in r.state.recent && m.marketId !in st.recent
    ensures StepAsWritten(m, secondsLeft, s, feed, st, ids) == StepResult([], st)
  {
  }

  /** With the gate on, a market that is not a BTC 5-minute one is dropped
      whatever the checks would find, and the engine state is unchanged. */
  lemma GateDropsOtherMarkets(m: Market, secondsLeft: Option<int>, s: Settings, feed: FeedSnapshot,
                              st: EngineState, ids: PositionIds)
    requires !m.isBtc5m && !IsBtc5mMarket(m.question)
    ensures Step(m, secondsLeft, s, true, feed, st, ids) == StepResult([], st)
  {
  }

  /** Every 200th fully handled market clears the dedup set, so a market
      can signal again afterwards. */
  lemma CleanupClears(m: Market, secondsLeft: Option<int>, s: Settings, btc5mOnly: bool, feed: FeedSnapshot,
                      st: EngineState, ids: PositionIds)
    requires !GatedOut(m, btc5mOnly) && (st.handled + 1) % CleanupEvery == 0
    ensures Step(m, secondsLeft, s, btc5mOnly, feed, st, ids).state == EngineState({}, st.handled + 1)
  {
  }
}
