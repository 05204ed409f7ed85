# Polymarket arbitrage bot: a Dafny model of its decision and accounting core

The bot scans Polymarket markets, detects three kinds of trade signal, and passes each one through a risk guard. The executor then fills the trade, either simulated in dry-run mode or live through the CLOB order book. A resolver later closes positions whose market has settled and rolls up the day's profit and loss.

This project models the pure logic of that pipeline as total functions over immutable datatypes. Prices and amounts are Dafny `real`s. Reads from the outside world become parameters:

- the clock becomes the seconds left before a market closes, or the `now` a record is stamped with
- the Binance feed becomes a price snapshot
- MongoDB reads become the open-position count, the exposure and today's daily record
- the CLOB client becomes the answer given for each leg

Writes to MongoDB are returned as values:

- the new daily record
- a list of `Write`s to the positions collection, with `update_one`'s `$set` semantics made explicit

Modules, one per source file or concern:

| module | models |
|---|---|
| `Wrappers` | `Option` and `Result` |
| `Text` | ASCII case mapping, `strip`, substring search |
| `Helpers` | `utils/helpers.py` |
| `Config` | `config.py`: the settings, their validators and the derived dollar limits |
| `Book` | `clob_client.py` `_parse_orderbook` and `_parse_order_level` |
| `Feed` | `binance_feed.py` |
| `Signals` | `signal_engine.py`: the three checks and the late-market dedup set |
| `Engine` | `signal_engine.py` `start`: one pass of the loop over a queued market |
| `DailyStore` | the date-keyed daily record in `db.py`, which two writers share |
| `Risk` | `risk_guard.py` |
| `PositionStore` | the positions collection in `db.py` |
| `Executor` | `executor.py` |
| `Resolver` | `position_resolver.py` |
| `Scanner` | `scanner.py` `_passes_basic_filters` and `_enrich_with_orderbook` |

Where the code's behaviour differs from what its tests or documentation suggest, the model follows the code:

- There is no time-based cooldown: a halt lasts until `resume_trading`.
- An oversized trade is rejected, never down-sized, and nothing reserves exposure between the check and the fill.
- A live run with any missing or failed order fails as a whole.
- The risk guard's loss halt reads `realized_pnl`. The resolver writes `total_pnl` and its companions into the same daily document. They are separate fields, and neither writer touches the other's (`DailyStore.WritersCommute`, `Risk.LossCheckIgnoresRollup`).
- `_execute_signal` returns after a risk rejection without calling `record_trade_result`, although tests/test_executor.py:117-128 expects that call. `Executor.ExecuteSignal` reports `recorded == None` in that case.
- The executor passes the position's `realized_pnl` to `record_trade_result`, and that value is always `None` at that point. The daily record is therefore never written by the trade path (`r.daily == today` in `Executor.ExecuteSignal`). As a result, the daily-loss halt can only fire on a `realized_pnl` some other writer put there.
- An arbitrage signal's `total_cost` is a sum of per-token prices, below 1 (`Signals.ArbCostBelowOne`). The risk guard compares it with dollar caps, and a dry run then spends the full dollar limit (`Executor.OneOfManyDryRunSpendsLimit`).
- tests/test_scanner.py calls methods and reads fields that scanner.py does not have. These include `_passes_btc_5m_filters`, `_parse_json_field`, `endDate` and token ids. The model follows scanner.py. Every outcome it produces has no token id and no best ask, so no arbitrage or late-market signal can come from scanner output (`Scanner.ArbitrageNeverFiresOnScannerOutput`, `Scanner.LateNeverFiresOnScannerOutput`).

## Model

| member | source | states |
|---|---|---|
| Helpers.Spread | utils/helpers.py:10-23 | 100 for a zero ask; otherwise zero exactly when bid equals ask, and within [0, 100] when 0 ≤ bid ≤ ask |
| Helpers.SpreadRecoversBid | utils/helpers.py:21-23 | the spread is invertible: the bid is the ask less the spread's share of it |
| Helpers.Slippage | utils/helpers.py:95-108 | 0 for a zero expected price or an exact fill; for a positive expected price, positive iff the fill is dearer and negative iff it is cheaper |
| Helpers.SlippageRoundTrip | utils/helpers.py:106-108 | applying the slippage percentage to the expected price gives back the actual price |
| Helpers.DepthScan | utils/helpers.py:45-51 | the accumulation loop returns true iff some non-empty prefix of the levels reaches the required size |
| Helpers.DepthSufficient | utils/helpers.py:26-51 | false for an empty book; otherwise true iff some prefix of sizes sums to at least the requirement |
| Helpers.SumSizesNonNegative | utils/helpers.py:45-47 | non-negative level sizes sum to a non-negative total |
| Helpers.PrefixSumBounded | utils/helpers.py:45-47 | with non-negative sizes no prefix sums to more than the whole book |
| Helpers.DepthIsTotalSize | utils/helpers.py:42-51 | with non-negative sizes the depth check is "non-empty and total size ≥ required" |
| Helpers.DepthMonotone | utils/helpers.py:42-51 | a book deep enough for one size is deep enough for any smaller size |
| Helpers.KellyFraction | utils/helpers.py:54-82 | never negative; 0 when odds ≤ 1 or p ∉ (0, 1); at most fraction·p; positive iff p·odds > 1 on the open domain |
| Helpers.LateWindowBounds | utils/helpers.py:212-229 | `WithinLateWindow` includes both bounds, and an inverted window admits no time |
| Helpers.UpperNames | utils/helpers.py:245 | the upper-cased outcome names, index by index |
| Helpers.BinaryMarketPairs | utils/helpers.py:232-248 | `IsBinaryMarket` holds iff there are exactly two names whose upper-cased set is {YES, NO} or {UP, DOWN} |
| Helpers.BinaryMarketExamples | utils/helpers.py:242-248 | Yes/No and Up/Down are binary |
| Helpers.NonBinaryExamples | utils/helpers.py:242-248 | three outcomes, or Red/Blue, are not binary |
| Helpers.Btc5mIsCrypto | utils/helpers.py:146-161 | every title `IsBtc5mMarket` accepts (lines 267-284) also passes `IsCryptoMarket` |
| Text.Lower | utils/helpers.py:281 | ASCII lower-casing, character by character, length kept |
| Text.Upper | utils/helpers.py:245 | ASCII upper-casing, character by character, length kept |
| Text.StripSpec | position_resolver.py:182-203 | `strip` leaves no space at either end and returns a contiguous piece of its input |
| Text.StripLeftSpec | position_resolver.py:182-203 | the left strip is a suffix of its input, and everything it dropped is white space |
| Text.StripRightSpec | position_resolver.py:182-203 | the right strip is a prefix of its input, and everything it dropped is white space |
| Text.ContainsInfix | utils/helpers.py:281-284 | a title contains every word placed inside it |
| Text.LowerIdempotent | utils/helpers.py:281 | lower-casing twice is lower-casing once |
| Text.LowerOfUpper | position_resolver.py:182-203 | lower-casing an upper-cased string is lower-casing it |
| Config.DefaultLimits | config.py:53-58 | the default settings give limits of 100, 75, 1250 and 250 dollars |
| Config.ValidateLogLevel | config.py:102-110 | accepts iff the upper-cased level is one of the five names, and returns it upper-cased |
| Config.UpperIdempotent | config.py:107 | upper-casing twice is upper-casing once |
| Config.LogLevelNormalForm | config.py:102-110 | an accepted level is accepted again unchanged; "info" becomes "INFO" |
| Config.ValidateLateWindow | config.py:112-118 | accepts exactly the values in [10, 600] and returns them unchanged |
| Config.Load | config.py:30-135 | construction succeeds iff every field bound (including the two scan intervals and the BTC 5-minute volume floor) and validator holds and live mode has credentials; on success it returns the settings with the log level upper-cased; a field-valid live configuration without credentials fails with exactly the credentials error |
| Config.FieldErrorsSpec | config.py:30-118 | the field checks report no error exactly when every `gt`/`le` bound and both validators hold, the log level being checked upper-cased |
| Config.DefaultsLoad | config.py:23-100 | the defaults construct unchanged |
| Config.ShareOfBankroll | config.py:140-158 | a positive percentage of a positive bankroll is positive, and is at most the capped percentage of it |
| Config.LimitsWithinBankroll | config.py:140-158 | under the trading bounds the per-trade limits are positive and at most a tenth of the bankroll, and the exposure cap is at most the whole bankroll |
| Book.ParseLevel | clob_client.py:156-167 | a missing or unparsable price or size becomes 0; present values are kept |
| Book.ParseLevelRoundTrip | clob_client.py:156-167 | a fully given level parses to itself |
| Book.ParseLevels | clob_client.py:124 | parses every level, in the venue's order |
| Book.Insert | clob_client.py:123-131 | insertion keeps the order and adds exactly one level |
| Book.Sort | clob_client.py:123-131 | the result is sorted in the requested direction and is a permutation of the input, with the same total size |
| Book.InsertStable | clob_client.py:123-131 | an inserted level lands before the existing levels at its price |
| Book.SortStable | clob_client.py:123-131 | like Python's stable sort, levels at one price keep the venue's order |
| Book.FirstIsBest | clob_client.py:134-135 | the head of a sorted permutation is a best level of the input |
| Book.Take | clob_client.py:143-148 | slicing keeps min(n, length) levels |
| Book.NormaliseSide | clob_client.py:123-148 | the kept levels are sorted and drawn from the input, min(20, n) of them; every level left out comes after every level kept; at each price the kept levels are the first of that price's levels in the venue's order, as a stable sort keeps them; the best price is the extreme input price, and `None` iff the side is empty; depth is the total size of the first 10 kept levels, which is the whole side when it has at most 10 |
| Book.ParseOrderbook | clob_client.py:111-154 | `None` iff a dict response holds null on a side (the `TypeError` that `get_orderbook` turns into `None`); otherwise asks ascending and bids descending, the best min(20, n) of each drawn from the parsed input, with ties kept in the venue's order; best ask is the lowest ask and best bid the highest bid, each `None` iff its side is empty; depth sums the first 10 kept levels; a spread exists iff both best prices are truthy, and then it is `Spread(bid, ask)` |
| Book.CutKeepsBest | clob_client.py:133-148 | cutting a sorted side leaves out only levels that come after every kept level |
| Book.KeptAreBest | clob_client.py:123-133 | the first 20 of a sorted permutation are sorted, drawn from the input, min(20, n) long, and ahead of every level left out |
| Book.TakeKeepsPricePrefix | clob_client.py:143-148 | cutting a list keeps, at every price, a prefix of that price's levels |
| Book.KeptInVenueOrder | clob_client.py:123-148 | at every price, the kept levels of the sorted side are the first of that price's levels in the venue's order |
| Book.OnePriceKeepsVenueOrder | clob_client.py:123-148 | a side whose levels all share one price and number at most 20 keeps the venue's order exactly, so its depth is the size of the venue's first 10 levels |
| Book.BestIsExtreme | clob_client.py:134-135 | the first price of a sorted permutation is the extreme input price, `None` iff the input is empty |
| Book.DepthOfKept | clob_client.py:143-144 | the depth over the first 10 sorted levels is the depth of the first 10 kept ones, and the whole size for at most 10 levels |
| Book.DictLevels | clob_client.py:115-124 | a dict side is unusable exactly when its key holds null |
| Book.ObjectNullSideIsEmpty | clob_client.py:112-114 | an object response's null side reads as an empty side with no best price |
| Book.DictNullSideFails | clob_client.py:115-124 | a dict response's null side makes the parse fail; a missing key reads as an empty side |
| Book.DepthBounded | clob_client.py:143-144 | with non-negative sizes the depth of a side lies between 0 and the side's total size |
| Book.NotABookIsEmpty | clob_client.py:118-120 | a response that is neither an object with `asks` nor a dict gives an empty book |
| Book.SortExample | clob_client.py:123-131 | two asks and two bids out of order are sorted |
| Feed.EmptyHistories | binance_feed.py:24 | each tracked symbol starts with an empty history, and no other symbol has one |
| Feed.Init | binance_feed.py:20-26 | a fresh feed satisfies the invariant, has no prices and is not running |
| Feed.Accepted | binance_feed.py:77-86 | a message yields an update iff its payload exists, its lower-cased symbol is tracked and its price is positive |
| Feed.LastN | binance_feed.py:93-94 | the newest min(n, length) elements, as a suffix |
| Feed.Push | binance_feed.py:91-94 | appending then dropping the oldest beyond 60 is "the last 60 of history + [price]" |
| Feed.PushKeepsHistoryOk | binance_feed.py:91-94 | a history of at most 60 positive prices stays so after a positive push |
| Feed.Apply | binance_feed.py:86-94 | an accepted tick keeps the feed invariant |
| Feed.ProcessMessage | binance_feed.py:72-99 | a rejected message changes nothing; an accepted one sets the price and appends to that symbol's bounded history only |
| Feed.ProcessAll | binance_feed.py:72-99 | processing messages in order keeps the invariant |
| Feed.StepHistory | binance_feed.py:86-94 | one message changes a symbol's history only by the price it carries for that symbol |
| Feed.LastNAppend | binance_feed.py:91-94 | trimming before appending does not change the trimmed result |
| Feed.TrimThenAppend | binance_feed.py:91-94 | trimming between two appends does not change the trimmed result |
| Feed.HistoryIsLastAccepted | binance_feed.py:72-99 | after any message sequence a symbol's history is the newest 60 of its old history followed by its accepted prices |
| Feed.HistoryFromStart | binance_feed.py:20-26 | from a fresh feed the history is the newest 60 accepted prices |
| Feed.GetPrice | binance_feed.py:101-111 | the price of the lower-cased symbol, `None` when unknown |
| Feed.PriceAfterTick | binance_feed.py:88 | an accepted tick is what `get_price` reports next, in any letter case |
| Feed.Window | binance_feed.py:129 | `history[-window:]`, including Python's reading of zero and negative windows |
| Feed.VolatilitySamples | binance_feed.py:113-130 | no samples (volatility 0) below two points; otherwise the window of the lower-cased symbol's history |
| Feed.DefaultWindow | binance_feed.py:113-130 | the default window uses the newest min(30, length) samples |
| Feed.ConnectedAfterTick | binance_feed.py:132-134 | a fresh feed is not connected; a running feed is connected after an accepted tick and stays connected |
| Feed.AcceptUpperCase | binance_feed.py:83-86 | an upper-case symbol is accepted and lower-cased |
| Feed.AcceptCombined | binance_feed.py:78-79 | a combined-stream envelope's `data` is the payload |
| Feed.RejectUntracked | binance_feed.py:83-86 | a symbol outside the tracked four is rejected |
| Feed.RejectExamples | binance_feed.py:77-86 | a zero price and a combined envelope without data are rejected |
| Feed.SetSymbolKeepsValid | binance_feed.py:86-94 | storing a price with a well-formed history ending in it keeps the feed invariant |
| Signals.StrategyName | position_resolver.py:110 | each strategy's stored name, the string every strategy comparison of the risk guard and the resolver reads |
| Signals.SpreadReported | signal_engine.py:132 | a missing spread reads as 100; only an explicit null reads as `None` |
| Signals.SpreadDefaults | signal_engine.py:132-134 | a missing spread fails any limit below 100, and an explicit null passes every limit |
| Signals.Tokens | signal_engine.py:137-138 | tokens times ask is the dollar amount for a positive ask; 0 otherwise |
| Signals.Names | signal_engine.py:147 | the outcome names, index by index |
| Signals.LegFor | signal_engine.py:146-154 | a leg carries the outcome's name, token, best ask, dollars, tokens and reported spread |
| Signals.ArbLegs | signal_engine.py:124-154 | a leg per outcome, in order, iff every outcome has an ask, a spread within the limit and enough depth |
| Signals.ArbLegsCost | signal_engine.py:121-145 | the legs' prices sum to the outcomes' best asks, the `total_cost` the loop accumulates |
| Signals.ArbLegsFields | signal_engine.py:136-153 | every leg spends the per-outcome dollars at its own outcome's best ask |
| Signals.EvenSplitSpendsLimit | signal_engine.py:137 | n legs of one equal share spend n times that share |
| Signals.ArbLegsSpendLimit | signal_engine.py:137-153 | at limit/n dollars a leg, the n legs spend exactly the arbitrage limit and cost the sum of the asks |
| Signals.OneOfManyPriced | signal_engine.py:121-176 | a signal iff every outcome passes at limit/n dollars and the edge reaches the minimum |
| Signals.OneOfManyPricedShape | signal_engine.py:145-174 | that signal has one leg per outcome in order, cost Σ asks, edge (1 − cost)·100, payout 1, and spends the limit |
| Signals.CheckOneOfMany | signal_engine.py:96-181 | a signal iff at least 3 outcomes, enough time left, every leg passes and the edge reaches the minimum; legs per outcome in order at limit/n dollars; cost Σ asks; edge (1−cost)·100; payout 1; the legs' dollars sum to the limit |
| Signals.LastMatch | signal_engine.py:211-216 | the index of the last outcome whose upper-cased name is in the set, `None` iff there is none |
| Signals.BinarySidesFound | signal_engine.py:207-219 | in a binary market both sides are found and are different outcomes |
| Signals.PairSignal | signal_engine.py:221-290 | a signal iff both asks exist, both spreads pass, the edge reaches the minimum and both books are deep enough; two legs at half the limit, cost the sum of the asks, payout 1 |
| Signals.CheckYesNo | signal_engine.py:183-297 | a signal only for a binary market with enough time left; then the result is exactly the pair signal of the last YES/UP outcome and the last NO/DOWN outcome, so a signal iff that pair passes, with the yes/no shape |
| Signals.PairSignalShape | signal_engine.py:260-290 | a pair signal from correctly named sides has the yes/no shape |
| Signals.Snapshot | signal_engine.py:338 | the snapshot's price is the feed's BTC price |
| Signals.SnapshotOpeningPositive | signal_engine.py:376-380 | a well-formed feed never gives a zero opening price |
| Signals.LateSignal | signal_engine.py:319-428 | a signal iff every gate passes: inside the late window, a price, calm volatility, both an UP and a DOWN outcome with asks, at least 5 samples, a non-zero opening price, the minimum deviation, the maximum entry price, enough depth and a narrow enough spread on the winning side; the signal buys the winning side (Up iff the change is ≥ 0) at its best ask with its token, for the late limit; tokens, edge, cost and payout follow |
| Signals.LateFromMove | signal_engine.py:382-428 | from a non-zero opening price: a signal iff the change reaches the minimum deviation, the winner's ask is at most the maximum price, and the winner's book is deep and narrow enough; the winner is Up iff the change is ≥ 0; the signal buys the winner at its best ask with its token; dollars, tokens, edge, cost and payout follow from the entry |
| Signals.CheckLateMarket | signal_engine.py:299-428 | the result is the late signal for a BTC 5-minute market whose id is not in the dedup set, and nothing otherwise, so a signal iff those hold and every late gate passes; the id is added exactly when a signal is emitted |
| Signals.LateSignalsOnce | signal_engine.py:315-317 | after a signal, a repeat check of the same market returns nothing and keeps the set, whatever the clock and feed |
| Signals.LateCostIsLimit | signal_engine.py:407-427 | with a positive entry a late signal costs exactly the late limit |
| Signals.FlatPriceNeverSignals | signal_engine.py:382-400 | an unchanged price picks Up but fails the minimum deviation under valid settings |
| Signals.ArbCostBelowOne | signal_engine.py:156-161 | under valid settings both arbitrage signals cost less than 1 per token set |
| Signals.ArbMarketSides | signal_engine.py:207-219 | the test market's Yes/No outcomes make it binary, with YES at index 0 and NO at index 1 |
| Signals.YesNoExample | signal_engine.py:239-258 | asks 0.45 + 0.50 give a signal with a 5% edge |
| Signals.ArbMarketPairOk | signal_engine.py:227-258 | in that market both sides have asks, narrow spreads and depth for $50, and the edge passes the default minimum |
| Signals.YesNoNoEdge | signal_engine.py:239-244 | asks 0.55 + 0.50 give no signal |
| Signals.OneOfManyExample | signal_engine.py:121-170 | four asks summing to 0.94 give four $25 legs and a 6% edge |
| Signals.LateExample | signal_engine.py:370-428 | BTC up from 97000 to 97500 with two minutes left buys Up at 0.55 for $75 |
| Signals.LateExampleOnce | signal_engine.py:315-317 | the same market signals once through the dedup set, and asking again returns nothing |
| Engine.SentBy | signal_engine.py:60-79 | the first sent signal of a strategy, `None` iff no sent signal has it |
| Engine.SentByConcat | signal_engine.py:60-79 | in an appended list, a strategy's first signal comes from the front part if it has one |
| Engine.SentByFound | signal_engine.py:60-77 | a check's appended result holds its own strategy's signal exactly when enabled and found |
| Engine.FoundInOrder | signal_engine.py:60-79 | the three checks' results, appended in turn, are in check order |
| Engine.ThreeFound | signal_engine.py:60-79 | appended in turn, each enabled strategy's signal is sent exactly when its check found one, a disabled one's never, in check order |
| Engine.Pass | signal_engine.py:60-85 | a full pass moves the counter on by one, sends each enabled strategy's signal exactly when found and in check order, and keeps the late check's dedup set unless the counter reaches a multiple of 200, which clears it |
| Engine.Step | signal_engine.py:44-85 | with the gate on, a market that is not a BTC 5-minute one leaves the state unchanged and sends nothing; any other market gets a full pass over the three checks' own results |
| Engine.OneOfManyStrategy | signal_engine.py:163-165 | a one-of-many signal is tagged with its strategy |
| Engine.YesNoStrategy | signal_engine.py:260-262 | a yes/no signal is tagged with its strategy |
| Engine.LateStrategy | signal_engine.py:430-432 | a late-market signal is tagged with its strategy |
| Engine.GateDropsOtherMarkets | signal_engine.py:53-58 | with the gate on, a non-BTC-5-minute market is dropped and the state is unchanged |
| Engine.CleanupClears | signal_engine.py:80-85 | the 200th, 400th, … fully handled market leaves an empty dedup set |
| Engine.Flag | config.py:10-100 | reading a flag succeeds exactly for the four boolean flags `Settings` declares |
| Engine.StepAsWritten | signal_engine.py:44-89 | as written, every pass sends nothing and leaves the state unchanged, because the gate's read raises |
| Engine.GateFinding | signal_engine.py:44-89 | wherever the late check fires, the corrected pass sends its signal and records the market, while the pass as written sends nothing |
| DailyStore.Base | db.py:182-194 | an upsert starts from the stored record, or an empty one |
| DailyStore.SetRiskFields | risk_guard.py:139-150 | the risk guard's `$set` writes its three fields and leaves the roll-up fields unchanged |
| DailyStore.SetRollupFields | position_resolver.py:326-342 | the resolver's `$set` writes its five fields and leaves the risk guard's fields unchanged |
| DailyStore.WritersCommute | db.py:182-189 | the two writers' upserts commute |
| Risk.MaxPositionSize | risk_guard.py:79-85 | the late limit exactly when the strategy's name is "late_market" (however the strategy is spelled in the model), the arbitrage limit for every other name |
| Risk.CapDependsOnName | risk_guard.py:79-85 | the cap depends on the strategy only through its name, so a strategy stored under the name "late_market" gets the late limit |
| Risk.TodayPnl | risk_guard.py:87-95 | today's `realized_pnl`, or 0 without a record or the field |
| Risk.Halt | risk_guard.py:152-161 | sets the flag and the reason and leaves the failure count |
| Risk.Resume | risk_guard.py:163-168 | back to the initial state: not halted, no reason, no failures |
| Risk.ValidateTrade | risk_guard.py:24-77 | a halted guard rejects with its reason and changes nothing; otherwise approval iff size, concurrency, exposure and loss all pass, and each first failing check is the reason; the state changes iff the loss check trips, and then it halts with that loss |
| Risk.RecordOutcome | risk_guard.py:108-127 | success resets the count and keeps the halt; failure counts one more and halts iff already halted or the count reaches the maximum |
| Risk.UpdateDailyPnl | risk_guard.py:133-150 | realized PnL grows by pnl; return % is realized PnL over bankroll; the trade count grows by 1 (1 for a new record); roll-up fields untouched |
| Risk.RecordTradeResult | risk_guard.py:97-131 | the state follows `RecordOutcome`; the daily record changes only when pnl is given, and then by exactly pnl |
| Risk.GetRiskStatus | risk_guard.py:170-182 | reports the flag, reason, failure count and maximum |
| Risk.HaltIsSticky | risk_guard.py:35-36 | without `resume_trading`, a halted guard stays halted through any calls and rejects every trade |
| Risk.Failures | risk_guard.py:116-127 | k failed outcomes without PnL |
| Risk.FailuresCount | risk_guard.py:116-127 | k failures add k to the count and leave the daily record; a halt they trigger names the maximum |
| Risk.BreakerTrips | risk_guard.py:116-127 | from the initial state, exactly the maximum number of failures halts, and one fewer does not |
| Risk.LastFailureReason | risk_guard.py:121-127 | failures that reach the maximum leave the consecutive-failures reason |
| Risk.SuccessKeepsHalt | risk_guard.py:111-114 | a success resets the count and leaves the halt flag and reason |
| Risk.ResumeRestores | risk_guard.py:163-168 | resuming after any halt validates like a fresh guard and reports a clean status |
| Risk.LossCheckIgnoresRollup | risk_guard.py:87-95 | a resolver roll-up write never changes a validation |
| Risk.SizeCapExamples | risk_guard.py:42-48 | a cost equal to the cap passes and one above it fails, for both caps |
| PositionStore.SetFields | db.py:135-140 | `$set` of a whole record replaces each field it carries, and an absent optional key keeps the stored value |
| PositionStore.Close | position_resolver.py:115-120 | sets status, close time, PnL and winner, and nothing else |
| PositionStore.Apply | db.py:130-140 | an insert adds the record; an update without upsert changes only an existing id and is a no-op otherwise; an upsert inserts when the id is missing; other ids are untouched |
| PositionStore.OpenIds | db.py:146-151 | exactly the stored positions whose status is open |
| Executor.CreatePositionRecord | executor.py:88-104 | copies the signal's fields; status pending, no close time, no PnL, no orders |
| Executor.FailedRecord | executor.py:327-334 | the pending record with status failed, the reason and a close time |
| Executor.RecordFailedTrade | executor.py:327-336 | an update without upsert of the failed record under the signal's id |
| Executor.RecordFailedTradeUpsert | executor.py:327-336 | the same record written with upsert, as the corrected definition |
| Executor.DryRunOrder | executor.py:129-147 | one filled order at the leg's price and token size, with no slippage |
| Executor.DryRunOrders | executor.py:126-147 | one simulated order per leg, in order |
| Executor.ExecuteDryRun | executor.py:149-154 | status open, the simulated orders and their cost; every other field unchanged |
| Executor.DryRunCostIsFillCost | executor.py:129-135 | the simulated orders cost Σ price·tokens over the legs |
| Executor.FillCostIsDollars | executor.py:133 | for legs sized in dollars, price·tokens sums to the dollars committed |
| Executor.OneOfManyDryRunSpendsLimit | executor.py:129-135 | a dry-run one-of-many trade spends the whole arbitrage limit, while its `total_cost` is below 1 |
| Executor.YesNoDryRunSpendsLimit | executor.py:129-135 | a dry-run yes/no trade spends the whole arbitrage limit |
| Executor.LateDryRunCostIsTotalCost | executor.py:129-135 | a dry-run late trade spends exactly the signal's `total_cost` |
| Executor.PlaceOrder | executor.py:290-316 | no token id gives no response without calling the client; otherwise the client's answer |
| Executor.PlaceOrders | executor.py:199-202 | one placement per leg, in order |
| Executor.VerifyFills | executor.py:230-262 | verified orders iff every leg's status is filled and its slippage is within the limit |
| Executor.CostOf | executor.py:265 | Σ fill price·size when every order has both; otherwise the missing key's error |
| Executor.Responses | executor.py:217-219 | the responses, once none is missing |
| Executor.SettleFills | executor.py:230-288 | with every order answered: filled iff each leg is filled within tolerance with price and size present; failed for verification iff some leg is not |
| Executor.VerifyLive | executor.py:197-288 | any missing or failed order is a partial fill; success iff every leg is filled within tolerance with price and size present; then cost, edge (payout − cost)·100 and the mean slippage; a verification failure iff some leg fails its check |
| Executor.OpenLive | executor.py:264-274 | status open with the verified orders, cost, edge and average slippage |
| Executor.ExecuteSignal | executor.py:54-86 | a rejection writes only the failed-record update and records nothing; an approval inserts the record, then writes its outcome and records the success flag; the daily record is never changed |
| Executor.ExecuteSignalUpserting | executor.py:54-86 | the corrected control flow: identical except that a rejection's record is upserted |
| Executor.ExecutionEffect | executor.py:54-86 | on the positions collection: nothing after a rejection; open with a cost after success; failed with the live reason after a failed live run; other positions untouched |
| Executor.RejectionWritesNothing | executor.py:69-72 | a rejected signal's write leaves the positions collection unchanged |
| Executor.RecordedExecutionEffect | executor.py:74-86 | an approved signal's position exists afterwards, open or failed as recorded, and no other position changes |
| Executor.RejectionLeavesNoRecord | executor.py:69-72 | a halted guard's rejection leaves no position under the signal's id |
| Executor.UpsertRecordsRejection | executor.py:327-336 | with the upsert, a rejection is stored as a failed position with the risk reason and close time |
| Resolver.LegKeys | position_resolver.py:186-188 | each leg outcome's lower-cased, stripped key |
| Resolver.IndexOf | position_resolver.py:186-191 | the first index of a key, `None` iff absent |
| Resolver.FirstMatch | position_resolver.py:182-191 | the first leg whose key equals the winner's, `None` iff there is none |
| Resolver.CalculatePnl | position_resolver.py:150-225 | 0 without legs or for an unknown strategy; arbitrage: the first matching leg's tokens (or 0) minus the actual cost; late market: leg 0's tokens if it matches, else 0, minus the cost |
| Resolver.KeyIgnoresCase | position_resolver.py:182-188 | upper- or lower-casing a name does not change its key |
| Resolver.KeyIgnoresLeadingSpace | position_resolver.py:182-188 | a leading space does not change a key |
| Resolver.PnlDependsOnKey | position_resolver.py:150-225 | PnL depends on the winner only through its key |
| Resolver.PnlIgnoresCaseAndSpace | position_resolver.py:182-220 | the winner's case and a leading space do not change the PnL |
| Resolver.SingleLegPnl | position_resolver.py:205-220 | a one-leg position stored under the name "late_market" that cost price·tokens makes tokens·(1 − price) ≥ 0 when its side wins (price ≤ 1) and loses its cost otherwise |
| Resolver.LateMarketPnl | position_resolver.py:205-220 | a dry-run late position pays tokens·(1 − price) ≥ 0 when it wins and loses its whole cost otherwise |
| Resolver.EntryName | position_resolver.py:289-293 | a winning outcome dict's `outcome`, else its `name`, when truthy |
| Resolver.TokenWinner | position_resolver.py:280-285 | the first token marked winner with an outcome, `None` iff there is none |
| Resolver.EntryWinner | position_resolver.py:287-293 | the first outcome dict marked winner with a name, `None` iff there is none |
| Resolver.ExtractWinner | position_resolver.py:261-295 | a truthy top-level winner first, then tokens, then outcomes; `None` iff none gives a name; never empty |
| Resolver.WinnerPriorityExamples | position_resolver.py:274-295 | the top-level field beats tokens; an empty winner falls through; non-dicts are skipped |
| Resolver.Decide | position_resolver.py:87-107 | nothing without a market id, market data, or a resolved or closed flag; otherwise the extracted winner |
| Resolver.UpdateRollup | position_resolver.py:301-342 | totals grow by pnl and one trade; wins grow iff pnl > 0; the strategy's entry grows by pnl and the others are kept; the risk guard's fields are untouched |
| Resolver.RateIsPercentage | position_resolver.py:330 | wins over trades times 100 lies in [0, 100] |
| Resolver.RollupKeepsInvariant | position_resolver.py:315-342 | wins ≤ trades and a rate in [0, 100] survive every roll-up, and the rate is wins/trades·100 |
| Resolver.RiskUpdateKeepsRollup | risk_guard.py:133-150 | the risk guard's write keeps the roll-up invariant |
| Resolver.CheckAndResolve | position_resolver.py:80-123 | skips iff `Decide` finds no winner; otherwise closes the position with its PnL and winner and rolls the day up once |
| Resolver.DecidedHas | position_resolver.py:63-78 | every position whose market has a winner is decided in the pass |
| Resolver.PassWrites | position_resolver.py:63-78 | a pass writes only close-outs, exactly one for each position with a winner |
| Resolver.PassCounts | position_resolver.py:63-78 | a pass adds one trade per close-out, and one that closes nothing leaves today's record unchanged |
| Resolver.PassKeepsRollup | position_resolver.py:63-78 | a pass keeps the roll-up invariant and leaves the risk guard's realized PnL alone |
| Resolver.PassAccounting | position_resolver.py:63-78 | a pass writes only close-outs, exactly for the decided positions; it keeps the roll-up invariant; it adds one trade per close-out; it leaves the risk guard's PnL alone |
| Resolver.ClosingEffect | db.py:135-140 | close-outs close exactly the stored positions they name and leave the rest unchanged |
| Resolver.PassClosesDecided | position_resolver.py:63-78 | after a pass the open positions are the old ones minus the decided ones |
| Resolver.OpenAfterPassUndecided | position_resolver.py:63-78 | a position still open after a pass has no winner under the same market answers |
| Resolver.SecondPassIsIdle | position_resolver.py:63-78 | a second pass over the positions left open writes nothing and keeps the daily record |
| Resolver.NothingDecided | position_resolver.py:63-78 | with no winners anywhere a pass writes nothing and keeps the daily record |
| Scanner.PassesBasicFilters | scanner.py:135-177 | true iff active, enough volume, a parsable end date with enough time left, and at least two outcomes |
| Scanner.EnrichOutcomes | scanner.py:198-214 | one placeholder-book outcome per Gamma outcome, in order |
| Scanner.EnrichWithOrderbook | scanner.py:179-229 | `None` iff neither id nor condition id is truthy or there are no outcomes; otherwise id preferred over condition id, question and expiry copied, and every outcome kept in order with an empty book |
| Scanner.ArbitrageNeverFiresOnScannerOutput | scanner.py:198-224 | no arbitrage signal can come from an enriched market, because its outcomes have no best ask (signal_engine.py:128-129, 228-229) |
| Scanner.LateNeverFiresOnScannerOutput | scanner.py:198-224 | no late-market signal can come from an enriched market, and the dedup set is unchanged |
| Scanner.FilteredMarketsEnrich | scanner.py:135-229 | a market passing the filters and carrying an id enriches, with at least two outcomes, and passes the arbitrage checks' time gate |

## Left out

- The asynchronous loops, queues, timeouts and scheduling in the `start` methods and in main.py. One pass of the signal engine's loop is modelled (`Engine.Step`); the 30-second queue timeout that clears the dedup set, the one-second back-off after an error and `task_done` are not.
- Network and SDK calls: fetching Gamma markets and order books, placing, cancelling and querying CLOB orders, `_fetch_market`, and the Binance websocket. Their results are parameters.
- Order cancellation after a failed live run (`_cancel_all_orders`), and every `log_event` and logger call.
- The live-run timeout path (executor.py:210-214). It is concurrency; as written it reads `results` before that name is bound.
- `generate_position_id` (SHA-256 and uuid4), `time_to_close` and ISO date parsing. The id and the seconds left are parameters. Each record is stamped with one `now`, so the second clock read in `_record_failed_trade` is not distinguished.
- `calculate_volatility` (a square root), `format_usd`, `format_percentage`, `extract_time_frame`, `safe_float` and `safe_int`. Parsed numbers arrive as `Option<real>`.
- Floating-point rounding. Prices are exact reals.
- The rejection and halt reasons are datatypes rather than formatted strings.
- Text.Lower: ASCII case mapping only, not Python's Unicode `lower`.
- Text.Upper: ASCII case mapping only, not Python's Unicode `upper`.
- Text.StripSpec: ASCII white space only, not Python's Unicode `strip`.
- Text.StripLeftSpec: ASCII white space only, not Python's Unicode `lstrip`.
- Text.StripRightSpec: ASCII white space only, not Python's Unicode `rstrip`.
- The dashboard, Telegram bot, logger, scripts, the rest of db.py, and `_store_market`.
- Gamma `outcomes` delivered as a JSON-encoded string. The scanner model takes the decoded list.
- A live order response that is an empty dict is falsy in Python. It is modelled as `NoResponse`, alongside `None` and exceptions.
- Executor.CreatePositionRecord: the `expected_payout` default of 1.0 is not modelled, because every signal carries the field.
- Risk.UpdateDailyPnl: requires a positive bankroll. The settings validator guarantees it (config.py:53); with a zero bankroll the source would raise instead.
- Executor.OrdersCost and Executor.Responses require what their callers establish first: fill data present and no missing responses.
- Book.ParseOrderbook: an object response with `asks` but no `bids` attribute, or a side that is neither null nor a list, raises in the source and is not modelled; the raw book datatype cannot express either.
- Engine.Step: the gate is a parameter, because `Settings` declares no `btc_5m_only`; the position ids of the three checks are parameters too.
- PositionStore.Apply: an insert of an existing id is not modelled as an error, because position ids are unique.

## Findings

| source | as written | input that shows it | evidently intended | confidence | as-written member | corrected member |
|---|---|---|---|---|---|---|
| executor.py:69-72, 327-336 with db.py:135-140 | a risk rejection is "recorded" by `update_one` without upsert, before any position with that id exists, so nothing is stored | a halted guard and any fresh signal: the collection is unchanged after `_execute_signal` | the rejected trade is stored as a failed position carrying the risk reason, as `_record_failed_trade`'s purpose says | high (not executed) | Executor.RecordFailedTrade, Executor.ExecuteSignal, Executor.RejectionLeavesNoRecord | Executor.RecordFailedTradeUpsert, Executor.ExecuteSignalUpserting, Executor.UpsertRecordsRejection |
| signal_engine.py:53-58 with config.py:10-100 | the gate reads `settings.btc_5m_only`, which `Settings` does not declare (`extra="ignore"` drops such a variable from the environment), so every pass raises `AttributeError` inside the `try`, is logged, and the market is dropped: no strategy ever runs | the BTC 5-minute market of `Signals.LateExample`, which the late check signals, is sent nothing | a declared boolean setting gating non-BTC-5-minute markets, the checks running on every market that passes it | plausible (not executed) | Engine.StepAsWritten, Engine.GateFinding | Engine.Step, Engine.GateDropsOtherMarkets |
