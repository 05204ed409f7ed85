/** The date-keyed daily PnL record (db.py `upsert_daily_pnl` and
    `get_daily_pnl`). Two writers share it: the risk guard sets
    `realized_pnl`, `return_pct` and `trades_count`, and the position resolver
    sets `total_pnl`, `total_trades`, `winning_trades`, `win_rate` and
    `strategy_pnl`. Each write is a MongoDB `$set` with upsert, so a writer
    leaves the other writer's fields as they were. A field the record does
    not hold is `None`. */
module DailyStore {
  import opened Wrappers

  datatype DailyRecord = DailyRecord(
    // written by the risk guard
    realizedPnl: Option<real>,
    returnPct: Option<real>,
    tradesCount: Option<int>,
    // written by the position resolver
    totalPnl: Option<real>,
    totalTrades: Option<int>,
    winningTrades: Option<int>,
    winRate: Option<real>,
    strategyPnl: Option<map<string, real>>)

  /** A record freshly created by an upsert: only the date (which every
      stored record carries, so a stored record is always truthy). */
  const Blank: DailyRecord := DailyRecord(None, None, None, None, None, None, None, None)

  /** The record a write starts from: today's, or a blank one. */
  function Base(today: Option<DailyRecord>): (r: DailyRecord)
    ensures today.Some? ==> r == today.value
    ensures today.None? ==> r == Blank
  {
    today.GetOr(Blank)
  }

  /** The risk guard's `$set`: its three fields change, the resolver's stay. */
  function SetRiskFields(today: Option<DailyRecord>, realized: real, returnPct: real, count: int): (r: DailyRecord)
    ensures r.realizedPnl == Some(realized) && r.returnPct == Some(returnPct) && r.tradesCount == Some(count)
    ensures r.totalPnl == Base(today).totalPnl && r.totalTrades == Base(today).totalTrades
    ensures r.winningTrades == Base(today).winningTrades && r.winRate == Base(today).winRate
    ensures r.strategyPnl == Base(today).strategyPnl
  {
    Base(today).(realizedPnl := Some(realized), returnPct := Some(returnPct), tradesCount := Some(count))
  }

  /** The resolver's `$set`: its five fields change, the risk guard's stay. */
  function SetRollupFields(today: Option<DailyRecord>, total: real, trades: int, wins: int,
                           winRate: real, strategyPnl: map<string, real>): (r: DailyRecord)
    ensures r.totalPnl == Some(total) && r.totalTrades == Some(trades)
    ensures r.winningTrades == Some(wins) && r.winRate == Some(winRate)
    ensures r.strategyPnl == Some(strategyPnl)
    ensures r.realizedPnl == Base(today).realizedPnl && r.returnPct == Base(today).returnPct
    ensures r.tradesCount == Base(today).tradesCount
  {
    Base(today).(totalPnl := Some(total), totalTrades := Some(trades), winningTrades := Some(wins),
                 winRate := Some(winRate), strategyPnl := Some(strategyPnl))
  }

  /** The two writers commute: whichever runs first, the record ends up the
      same. */
  lemma WritersCommute(today: Option<DailyRecord>, realized: real, returnPct: real, count: int,
                       total: real, trades: int, wins: int, winRate: real, strategyPnl: map<string, real>)
    ensures SetRiskFields(Some(SetRollupFields(today, total, trades, wins, winRate, strategyPnl)), realized, returnPct, count)
         == SetRollupFields(Some(SetRiskFields(today, realized, returnPct, count)), total, trades, wins, winRate, strategyPnl)
  {
  }
}
