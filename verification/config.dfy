/** The bot's settings (config.py): the trading and strategy parameters, the
    limits derived from the bankroll, and the checks applied when the settings
    are loaded. */
module Config {
  import opened Wrappers
  import opened Text

  datatype Settings = Settings(
    // credentials
    privateKey: Option<string>,
    apiKey: Option<string>,
    apiSecret: Option<string>,
    apiPassphrase: Option<string>,
    // trading parameters
    bankroll: real,
    maxArbPositionPct: real,
    maxLatePositionPct: real,
    maxDailyExposurePct: real,
    maxConcurrentPositions: int,
    dailyLossHaltPct: real,
    maxConsecutiveFails: int,
    // strategy parameters
    minArbEdgePct: real,
    maxSlippagePct: real,
    orderTimeoutSeconds: int,
    minMarketVolume: real,
    minTimeToCloseMinutes: int,
    maxSpreadOneOfMany: real,
    maxSpreadYesNo: real,
    maxSpreadLateMarket: real,
    // late-market strategy
    enableLateMarket: bool,
    lateMarketWindowStart: int,
    lateMarketWindowEnd: int,
    lateMarketMinDeviationPct: real,
    lateMarketMaxVolatilityPct: real,
    lateMarketMaxPrice: real,
    // BTC 5-minute scan
    btc5mScanIntervalSeconds: int,
    btc5mMinVolume: real,
    // feature flags and logging
    dryRun: bool,
    enableOneOfMany: bool,
    enableYesNo: bool,
    scannerIntervalSeconds: int,
    logLevel: string)
  {
    /** Largest cost of one arbitrage trade, in USD. */
    function MaxArbPositionSize(): real {
      bankroll * (maxArbPositionPct / 100.0)
    }

    /** Largest cost of one late-market trade, in USD. */
    function MaxLatePositionSize(): real {
      bankroll * (maxLatePositionPct / 100.0)
    }

    /** Largest total cost of the open positions, in USD. */
    function MaxDailyExposure(): real {
      bankroll * (maxDailyExposurePct / 100.0)
    }

    /** Size of the day's realized loss that halts trading, in USD. */
    function DailyLossHaltAmount(): real {
      bankroll * (dailyLossHaltPct / 100.0)
    }
  }

  /** The values every field takes when the environment sets nothing. */
  const Defaults: Settings := Settings(
    None, None, None, None,
    5000.0, 2.0, 1.5, 25.0, 10, 5.0, 3,
    2.0, 0.3, 5, 5000.0, 30, 2.0, 1.5, 1.0,
    true, 180, 60, 0.05, 1.5, 0.95,
    2, 100.0,
    true, true, true, 5, "INFO")

  /** With the default settings the derived limits are $100 per arbitrage
      trade, $75 per late-market trade, $1250 of exposure and a $250 daily
      loss halt. */
  lemma DefaultLimits()
    ensures Defaults.MaxArbPositionSize() == 100.0
    ensures Defaults.MaxLatePositionSize() == 75.0
    ensures Defaults.MaxDailyExposure() == 1250.0
    ensures Defaults.DailyLossHaltAmount() == 250.0
  {
  }

  datatype ConfigError =
    | OutOfRange(field: string)      // a declared lower or upper bound of the field is violated
    | BadLateWindow(field: string)   // `validate_late_window` rejected the value
    | BadLogLevel(level: string)     // `validate_log_level` rejected the value
    | MissingCredentials             // `model_post_init` found no way to sign orders

  const LogLevels: seq<string> := ["DEBUG", "INFO", "WARNING", "ERROR", "CRITICAL"]

  /** `validate_log_level`: the upper-cased level if it is a known one. */
  function ValidateLogLevel(level: string): (r: Result<string, ConfigError>)
    ensures r.Success? <==> Upper(level) in LogLevels
    ensures r.Success? ==> r.value == Upper(level) && r.value in LogLevels
    ensures r.Failure? ==> r.error == BadLogLevel(level)
  {
    var v := Upper(level);
    if v !in LogLevels then Failure(BadLogLevel(level)) else Success(v)
  }

  lemma {:induction false} UpperIdempotent(s: string)
    ensures Upper(Upper(s)) == Upper(s)
  {
    if s != [] {
      UpperIdempotent(s[1..]);
    }
  }

  /** An accepted log level is accepted again unchanged, and the level names
      are accepted in any letter case. */
  lemma LogLevelNormalForm(level: string)
    ensures ValidateLogLevel(level).Success? ==>
              ValidateLogLevel(ValidateLogLevel(level).value) == ValidateLogLevel(level)
    ensures ValidateLogLevel("info") == Success("INFO")
  {
    UpperIdempotent(level);
    assert Upper("info") == "INFO";
  }

  /** `validate_late_window`: the value itself when it lies in [10, 600]. */
  function ValidateLateWindow(field: string, v: int): (r: Result<int, ConfigError>)
    ensures r.Success? <==> 10 <= v <= 600
    ensures r.Success? ==> r.value == v
  {
    if v < 10 || v > 600 then Failure(BadLateWindow(field)) else Success(v)
  }

  function Bound(ok: bool, field: string): seq<ConfigError> {
    if ok then [] else [OutOfRange(field)]
  }

  /** A late-window field: the `gt=0` bound first, then the validator, which
      pydantic runs only on a value that met its bound. */
  function WindowErrors(field: string, v: int): seq<ConfigError> {
    if !(v > 0) then [OutOfRange(field)]
    else match ValidateLateWindow(field, v)
      case Success(_) => []
      case Failure(e) => [e]
  }

  function LogLevelErrors(level: string): seq<ConfigError> {
    match ValidateLogLevel(level)
    case Success(_) => []
    case Failure(e) => [e]
  }

  /** Errors of the trading parameters. */
  function TradingErrors(s: Settings): seq<ConfigError> {
    Bound(s.bankroll > 0.0, "bankroll")
    + Bound(0.0 < s.maxArbPositionPct <= 10.0, "max_arb_position_pct")
    + Bound(0.0 < s.maxLatePositionPct <= 10.0, "max_late_position_pct")
    + Bound(0.0 < s.maxDailyExposurePct <= 100.0, "max_daily_exposure_pct")
    + Bound(s.maxConcurrentPositions > 0, "max_concurrent_positions")
    + Bound(s.dailyLossHaltPct > 0.0, "daily_loss_halt_pct")
    + Bound(s.maxConsecutiveFails > 0, "max_consecutive_fails")
  }

  /** Errors of the strategy parameters. */
  function StrategyErrors(s: Settings): seq<ConfigError> {
    Bound(s.minArbEdgePct > 0.0, "min_arb_edge_pct")
    + Bound(s.maxSlippagePct > 0.0, "max_slippage_pct")
    + Bound(s.orderTimeoutSeconds > 0, "order_timeout_seconds")
    + Bound(s.minMarketVolume > 0.0, "min_market_volume")
    + Bound(s.minTimeToCloseMinutes > 0, "min_time_to_close_minutes")
    + Bound(s.maxSpreadOneOfMany > 0.0, "max_spread_one_of_many")
    + Bound(s.maxSpreadYesNo > 0.0, "max_spread_yes_no")
    + Bound(s.maxSpreadLateMarket > 0.0, "max_spread_late_market")
  }

  /** Errors of the late-market parameters. */
  function LateErrors(s: Settings): seq<ConfigError> {
    WindowErrors("late_market_window_start", s.lateMarketWindowStart)
    + WindowErrors("late_market_window_end", s.lateMarketWindowEnd)
    + Bound(s.lateMarketMinDeviationPct > 0.0, "late_market_min_deviation_pct")
    + Bound(s.lateMarketMaxVolatilityPct > 0.0, "late_market_max_volatility_pct")
    + Bound(0.0 < s.lateMarketMaxPrice <= 1.0, "late_market_max_price")
  }

  /** Errors of the scan intervals and the BTC 5-minute volume floor. */
  function ScanErrors(s: Settings): seq<ConfigError> {
    Bound(s.btc5mScanIntervalSeconds > 0, "btc_5m_scan_interval_seconds")
    + Bound(s.btc5mMinVolume > 0.0, "btc_5m_min_volume")
    + Bound(s.scannerIntervalSeconds > 0, "scanner_interval_seconds")
  }

  /** Every field-level error, in declaration order (pydantic reports them
      all at once). */
  function FieldErrors(s: Settings): seq<ConfigError> {
    TradingErrors(s) + StrategyErrors(s) + LateErrors(s) + ScanErrors(s) + LogLevelErrors(s.logLevel)
  }

  ghost predicate TradingValid(s: Settings) {
    && s.bankroll > 0.0
    && 0.0 < s.maxArbPositionPct <= 10.0
    && 0.0 < s.maxLatePositionPct <= 10.0
    && 0.0 < s.maxDailyExposurePct <= 100.0
    && s.maxConcurrentPositions > 0
    && s.dailyLossHaltPct > 0.0
    && s.maxConsecutiveFails > 0
  }

  ghost predicate StrategyValid(s: Settings) {
    && s.minArbEdgePct > 0.0
    && s.maxSlippagePct > 0.0
    && s.orderTimeoutSeconds > 0
    && s.minMarketVolume > 0.0
    && s.minTimeToCloseMinutes > 0
    && s.maxSpreadOneOfMany > 0.0
    && s.maxSpreadYesNo > 0.0
    && s.maxSpreadLateMarket > 0.0
  }

  ghost predicate LateValid(s: Settings) {
    && 10 <= s.lateMarketWindowStart <= 600
    && 10 <= s.lateMarketWindowEnd <= 600
    && s.lateMarketMinDeviationPct > 0.0
    && s.lateMarketMaxVolatilityPct > 0.0
    && 0.0 < s.lateMarketMaxPrice <= 1.0
  }

  ghost predicate ScanValid(s: Settings) {
    && s.btc5mScanIntervalSeconds > 0
    && s.btc5mMinVolume > 0.0
    && s.scannerIntervalSeconds > 0
  }

  /** The field bounds and validators, stated directly. */
  ghost predicate FieldsValid(s: Settings) {
    TradingValid(s) && StrategyValid(s) && LateValid(s) && ScanValid(s) && s.logLevel in LogLevels
  }

  /** The field checks report nothing exactly when every bound and
      validator holds, the log level being checked once upper-cased. */
  lemma FieldErrorsSpec(s: Settings)
    ensures FieldErrors(s) == [] <==> FieldsValid(s.(logLevel := Upper(s.logLevel)))
  {
    assert TradingErrors(s) == [] <==> TradingValid(s);
    assert StrategyErrors(s) == [] <==> StrategyValid(s);
    assert LateErrors(s) == [] <==> LateValid(s);
    assert ScanErrors(s) == [] <==> ScanValid(s);
    assert LogLevelErrors(s.logLevel) == [] <==> Upper(s.logLevel) in LogLevels;
  }

  /** A Python truth test on an optional string: present and non-empty. */
  predicate Truthy(v: Option<string>) {
    v.Some? && v.value != ""
  }

  /** `model_post_init`: live trading needs a private key or the full set of
      API credentials; a dry run needs neither. */
  predicate CredentialsOk(s: Settings) {
    s.dryRun || Truthy(s.privateKey) ||
    (Truthy(s.apiKey) && Truthy(s.apiSecret) && Truthy(s.apiPassphrase))
  }

  /** Constructing `Settings`: field validation (which upper-cases the log
      level), then `model_post_init`, which runs only if every field passed. */
  function Load(raw: Settings): (r: Result<Settings, seq<ConfigError>>)
    ensures r.Success? <==> FieldsValid(raw.(logLevel := Upper(raw.logLevel))) && CredentialsOk(raw)
    ensures r.Success? ==> r.value == raw.(logLevel := Upper(raw.logLevel)) && FieldsValid(r.value)
    ensures r.Failure? ==> r.error != []
    ensures r.Failure? && FieldsValid(raw.(logLevel := Upper(raw.logLevel))) ==> r.error == [MissingCredentials]
  {
    var errors := FieldErrors(raw);
    FieldErrorsSpec(raw);
    if errors != [] then Failure(errors)
    else
      var s := raw.(logLevel := Upper(raw.logLevel));
      if !CredentialsOk(s) then Failure([MissingCredentials]) else Success(s)
  }

  /** The default settings load unchanged. */
  lemma DefaultsLoad()
    ensures Load(Defaults) == Success(Defaults)
  {
    assert Upper("INFO") == "INFO";
  }

  /** A positive percentage of a positive bankroll, capped at `cap` percent,
      is positive and at most `cap` percent of the bankroll. */
  lemma ShareOfBankroll(bankroll: real, pct: real, cap: real)
    requires bankroll > 0.0 && 0.0 < pct <= cap
    ensures 0.0 < bankroll * (pct / 100.0) <= bankroll * (cap / 100.0)
  {
    var d := cap / 100.0 - pct / 100.0;
    assert d >= 0.0;
    assert bankroll * (cap / 100.0) - bankroll * (pct / 100.0) == bankroll * d;
  }

  /** Under the trading bounds (so under loaded settings) the per-trade
      limits are positive and at most a tenth of the bankroll, and the
      exposure limit is positive and at most the whole bankroll. */
  lemma LimitsWithinBankroll(s: Settings)
    requires TradingValid(s)
    ensures 0.0 < s.MaxArbPositionSize() <= s.bankroll / 10.0
    ensures 0.0 < s.MaxLatePositionSize() <= s.bankroll / 10.0
    ensures 0.0 < s.MaxDailyExposure() <= s.bankroll
    ensures s.DailyLossHaltAmount() > 0.0
  {
    ShareOfBankroll(s.bankroll, s.maxArbPositionPct, 10.0);
    ShareOfBankroll(s.bankroll, s.maxLatePositionPct, 10.0);
    ShareOfBankroll(s.bankroll, s.maxDailyExposurePct, 100.0);
    ShareOfBankroll(s.bankroll, s.dailyLossHaltPct, s.dailyLossHaltPct);
  }
}
