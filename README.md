# CITARION trading core in Dafny

A verified model of the trading core of CITARION's two Python services.

The **iaf-service** side:

- **Backtester.** The event-driven backtester keeps a ledger of cash, open positions keyed by `pos_<n>`, closed trades, an equity curve and its peak. Each candle runs:
  1. stop, target and trailing exits;
  2. price tracking and the trailing ratchet;
  3. the strategy's signals;
  4. opens and closes;
  5. one equity point.

  Its summary metrics are modelled: win rate, profit factor, run lengths and drawdown duration. So is its vectorised loop.
- **Risk rules.** Position sizing, take-profit and stop-loss prices, trailing levels and the per-symbol rule lookup.
- **Portfolio manager.** A second ledger, keyed by symbol, with an admission guard, rule-filled brackets, partial closes, exit detection and a drawdown tracker.
- **Strategy plumbing.** Signals, the bounded error log, the strategy registry, and the conversion of per-symbol flag series into signals.
- **Indicators and built-in rules.** SMA, true range, OBV, Heikin Ashi, supertrend and crossings, and the built-in grid, DCA, RSI, EMA and MACD rules.

The **lumibot-service** side covers the strategies of its five strategy files. Each `on_trading_iteration` is modelled as follows:

- It takes the bars the framework would return and the position it would report.
- It updates the strategy's fields and returns the orders it would submit and the signal it would emit.

The model's layout:

- There is one module per source file.
- Entities that the source updates in place are classes. Their methods assign the fields from a pure step function, and their `ensures` tie the new state to that function of the old state.
- The lemmas beside each step function state what the source promises: both directions of every trading rule, preserved invariants, bounds and round trips.
- Prices and amounts are `real`. A NaN that pandas would produce is `None`.
- Python dicts are association lists in insertion order.
- Loops stay loops, each with the invariants its proof needs.

Where the code departs from what it evidently intends, the model keeps both versions; see "## Findings". Also where the code and the description of the system disagree, the model follows the code:

- The backtester opens a second position on a symbol it already holds.
- Its equity peak starts at the initial capital.
- The portfolio manager's `update_prices` never passes a high or a low, so `highest_price` does not move there.

## Model

| member | source | states |
|---|---|---|
| BacktestTypes.NewPosition | iaf-service/backtesting/types.py:27-47 | a new position carries every given field and starts with its highest and lowest price equal to the entry price |
| BacktestTypes.UpdatePriceTracking | iaf-service/backtesting/types.py:49-52 | the highest price becomes the larger of the old highest and the bar high, the lowest the smaller of the old lowest and the bar low; no other field changes |
| BacktestTypes.CalculatePnl | iaf-service/backtesting/types.py:54-59 | zero at the entry price; for a positive size the PnL is positive exactly when the price moved in the position's favour (up for long, down for short) |
| BacktestTypes.PnlSidesOpposite | iaf-service/backtesting/types.py:54-59 | the long and the short PnL of the same position at the same price are negatives of each other |
| BacktestTypes.CalculatePnlPercentage | iaf-service/backtesting/types.py:61-66 | the percentage is the PnL divided by the entry notional times 100 |
| BacktestTypes.MakeTrade | iaf-service/backtesting/types.py:86-110 | a trade carries every given field and its holding time is the elapsed time in whole seconds, truncated toward zero |
| BacktestTypes.CalculateWinRate | iaf-service/backtesting/types.py:208-212 | zero with no trades, otherwise winners / total × 100, and within [0, 100] when winners ≤ total |
| BacktestTypes.CalculateProfitFactor | iaf-service/backtesting/types.py:214-218 | infinite exactly when there is no loss and some profit; 0 with neither; otherwise the absolute profit over the absolute loss |
| BacktestTypes.DefaultConfig | iaf-service/backtesting/types.py:257-282 | the configuration defaults: capital 10000, commission 0.001, slippage 0.0005, five positions, trailing stop off at 2 % |
| BacktestTypes.Validate | iaf-service/backtesting/types.py:284-300 | each of the four messages is reported exactly when its condition holds, in the source's order; no message exactly when the configuration is valid |
| BacktestEngine.EntryPricePositive | iaf-service/backtesting/engine.py:236 | the slipped entry price of a positive close is positive when slippage is below 100 % |
| BacktestEngine.ExitPriceNonNegative | iaf-service/backtesting/engine.py:287 | the slipped exit price of a positive close is not negative |
| BacktestEngine.NotionalNonNegative | iaf-service/backtesting/engine.py:231-233 | the notional spent on a signal is never negative for a sane signal and non-negative cash |
| BacktestEngine.OpenedPositionSane | iaf-service/backtesting/engine.py:223-265 | a position opened by the engine has non-negative size and prices |
| BacktestEngine.CloseAt | iaf-service/backtesting/engine.py:352-385 | the trade written on closing a position refers to that position, the exit price and the trade type |
| BacktestEngine.CloseAtBalances | iaf-service/backtesting/engine.py:352-385 | for a long position, the trade's PnL plus the entry notional equals the cash the close returns (proceeds net of commission) |
| BacktestEngine.ProceedsNonNegative | iaf-service/backtesting/engine.py:360-364 | closing at a non-negative price with commission in [0, 1] never takes cash away |
| BacktestEngine.FindSymbol | iaf-service/backtesting/engine.py:279-286 | the first open position of the symbol, or none exactly when no position has that symbol |
| BacktestEngine.ExitDecision | iaf-service/backtesting/engine.py:333-344 | an exit fires exactly when the stop, the target or the trailing stop is touched by the bar, with the stop checked first, then the target, then the trailing stop |
| BacktestEngine.ExitLevelSane | iaf-service/backtesting/engine.py:333-344 | the exit price of a sane position is not negative |
| BacktestEngine.ExitPlan | iaf-service/backtesting/engine.py:324-346 | every planned exit is for an open position and is the decision for that position |
| BacktestEngine.CollectExits | iaf-service/backtesting/engine.py:324-346 | the collecting loop yields exactly the exit plan |
| BacktestEngine.PlanIdsIncreasing | iaf-service/backtesting/engine.py:324-346 | planned exits keep the positions' order |
| BacktestEngine.PlanIdsExact | iaf-service/backtesting/engine.py:324-346 | a position is planned for exit exactly when its exit decision fires |
| BacktestEngine.PlanIdsStep | iaf-service/backtesting/engine.py:324-346 | the planned ids grow by the last position's id exactly when its decision fires |
| BacktestEngine.PlanIdsConcat | iaf-service/backtesting/engine.py:324-346 | the planned ids of two concatenated plans are the union of their ids |
| BacktestEngine.LastNotPlanned | iaf-service/backtesting/engine.py:324-346 | with increasing ids, the last position is not planned by the plan of the earlier ones |
| BacktestEngine.PlanTrades | iaf-service/backtesting/engine.py:347-350 | closing a plan writes one trade per planned exit |
| BacktestEngine.PlanPrefixExcludes | iaf-service/backtesting/engine.py:347-350 | an exit is not closed twice: its id is not among the exits before it |
| BacktestEngine.PlanPrefixStep | iaf-service/backtesting/engine.py:347-350 | closing one more planned exit adds its id, its trade and its proceeds |
| BacktestEngine.PlanProceedsNonNegative | iaf-service/backtesting/engine.py:347-350 | the cash a plan returns is not negative for non-negative prices |
| BacktestEngine.LocateExit | iaf-service/backtesting/engine.py:347-350 | each planned position is still open when its turn to close comes |
| BacktestEngine.ExitStep | iaf-service/backtesting/engine.py:347-350 | closing one planned exit keeps the positions, trades and cash equal to the plan's prefix applied to the start |
| BacktestEngine.ExitsStart | iaf-service/backtesting/engine.py:347-350 | before any exit is closed, the state is the start state |
| BacktestEngine.ExitsFinish | iaf-service/backtesting/engine.py:347-350 | after the plan, the open positions, the trades and the cash are the start minus the plan's positions, plus its trades, plus its proceeds |
| BacktestEngine.WithoutMember | iaf-service/backtesting/engine.py:385 | a position survives removal exactly when its id is not removed |
| BacktestEngine.WithoutIncreasing | iaf-service/backtesting/engine.py:385 | removing positions keeps ids increasing |
| BacktestEngine.RemoveAtIsWithout | iaf-service/backtesting/engine.py:385 | removing the position at an index is removing its id |
| BacktestEngine.WithoutLength | iaf-service/backtesting/engine.py:385 | removing one open id shortens the list by one |
| BacktestEngine.WithoutNone | iaf-service/backtesting/engine.py:385 | removing ids nobody holds changes nothing |
| BacktestEngine.WithoutTwice | iaf-service/backtesting/engine.py:385 | removing two id sets in turn is removing their union |
| BacktestEngine.IdsDetermine | iaf-service/backtesting/engine.py:385 | with increasing ids, an id names one position |
| BacktestEngine.ExitIdUnique | iaf-service/backtesting/engine.py:385 | with increasing ids, every index holding a position's id holds that position |
| BacktestEngine.TrackAndRatchet | iaf-service/backtesting/engine.py:387-397 | price tracking widens the high/low range; with trailing stops on, a long position's stop only rises and sits at least at highest × (1 − percent/100); nothing else changes |
| BacktestEngine.RatchetSane | iaf-service/backtesting/engine.py:387-397 | tracking keeps a position sane |
| BacktestEngine.Peak | iaf-service/backtesting/engine.py:410-414 | the peak equity is at least the initial capital and every recorded equity |
| BacktestEngine.CurveExtend | iaf-service/backtesting/engine.py:399-422 | appending a point whose drawdown is measured from the running peak keeps the curve consistent |
| BacktestEngine.CurveAppend | iaf-service/backtesting/engine.py:399-422 | appending with the tracked peak keeps the curve consistent and the peak updated |
| BacktestEngine.DrawdownNonNegative | iaf-service/backtesting/engine.py:399-422 | every drawdown is non-negative and is zero exactly at a new peak |
| BacktestEngine.WarmedUpCount | iaf-service/backtesting/engine.py:165 | the number of bars that reach the strategy: none up to 50 bars, then all bars after max(50, columns) |
| BacktestEngine.LedgerOpen | iaf-service/backtesting/engine.py:223-265 | opening a position below the limit keeps the ledger invariant |
| BacktestEngine.LedgerClose | iaf-service/backtesting/engine.py:352-385 | closing a position keeps the ledger invariant |
| BacktestEngine.LedgerTrack | iaf-service/backtesting/engine.py:387-397 | updating a position's tracking keeps the ledger invariant |
| BacktestEngine.SolventOpen | iaf-service/backtesting/engine.py:243-244 | paying no more than the cash for a sane position keeps the book solvent |
| BacktestEngine.SolventClose | iaf-service/backtesting/engine.py:352-385 | closing positions with non-negative proceeds keeps the book solvent |
| BacktestEngine.SolventTrack | iaf-service/backtesting/engine.py:387-397 | replacing a position by a sane one keeps the book solvent |
| BacktestEngine.SolventAfterExits | iaf-service/backtesting/engine.py:324-350 | executing a plan of exits keeps the book solvent |
| BacktestEngine.MarkToMarket | iaf-service/backtesting/engine.py:402-405 | the loop's position value is the sum of size × close over the open positions |
| BacktestEngine.PositionValueNonNegative | iaf-service/backtesting/engine.py:402-405 | the position value is not negative for non-negative sizes and close |
| BacktestEngine.InWindow | iaf-service/backtesting/engine.py:139-150 | the kept candles are exactly those dated within [start, end] |
| BacktestEngine.FilterByDate | iaf-service/backtesting/engine.py:139-150 | undated data is returned whole, dated data is restricted to the window |
| BacktestEngine.InWindowWhole | iaf-service/backtesting/engine.py:139-150 | filtering candles that all lie in the window keeps them all |
| BacktestEngine.VectorStep | iaf-service/backtesting/engine.py:616-634 | one vectorised bar: a buy when flat spends all equity, a sell when holding closes and records the equity twice, otherwise the holding is marked to market |
| BacktestEngine.VectorFold | iaf-service/backtesting/engine.py:616-634 | after n bars the equity series starts with the capital and holds between n + 1 and 2n + 1 points |
| BacktestEngine.VectorFoldNext | iaf-service/backtesting/engine.py:616-634 | the fold over n + 1 bars is one step on the fold over n |
| BacktestEngine.VectorNoBuyFlat | iaf-service/backtesting/engine.py:616-634 | without buy signals the backtest never holds and the equity stays the capital |
| BacktestEngine.VectorStepPositive | iaf-service/backtesting/engine.py:616-634 | one bar with a positive close keeps every equity positive |
| BacktestEngine.VectorPositive | iaf-service/backtesting/engine.py:616-634 | positive capital and closes keep every equity positive |
| BacktestEngine.VectorBar | iaf-service/backtesting/engine.py:616-634 | the loop body performs one step of the fold |
| BacktestEngine.VectorEquity | iaf-service/backtesting/engine.py:616-634 | the loop yields the fold over all bars |
| BacktestEngine.VectorAdvance | iaf-service/backtesting/engine.py:616-634 | one pass of the loop advances the equity and position by exactly one bar of the fold |
| BacktestEngine.ReturnPercentage | iaf-service/backtesting/engine.py:636-640 | the return percentage is the return over the capital × 100 |
| BacktestEngine.SeriesFor | iaf-service/backtesting/engine.py:603-614 | the series of a symbol, or none exactly when no symbol matches |
| BacktestEngine.SellSeries | iaf-service/backtesting/engine.py:603-614 | a missing sell series means no sells |
| BacktestEngine.OpenStep | iaf-service/backtesting/engine.py:223-265 | opening on a book leaves it exactly unchanged when the cost exceeds the cash, and never touches the trades or the curve |
| BacktestEngine.CloseStep | iaf-service/backtesting/engine.py:267-322 | closing a symbol on a book leaves it exactly unchanged when no position holds the symbol, otherwise appends at most one trade and keeps the counter and the curve |
| BacktestEngine.SignalStep | iaf-service/backtesting/engine.py:200-221 | processing a signal on a book keeps the curve and only ever appends trades |
| BacktestEngine.SignalsFold | iaf-service/backtesting/engine.py:194-195 | processing a candle's signals in order keeps the curve and only ever appends trades |
| BacktestEngine.ExitsStep | iaf-service/backtesting/engine.py:324-350 | checking exits on a book keeps the counter and the curve and only ever appends trades |
| BacktestEngine.TrackAll | iaf-service/backtesting/engine.py:387-397 | tracking keeps the number of positions and the non-zero entry prices |
| BacktestEngine.CandleStep | iaf-service/backtesting/engine.py:170-198 | one candle appends exactly one equity point, stamped with the candle time, after the old curve, and only ever appends trades |
| BacktestEngine.RunFromNext | iaf-service/backtesting/engine.py:165-198 | stepping the loop over one more candle is one more candle step, on the candles up to and including it |
| BacktestEngine.RunFromAppends | iaf-service/backtesting/engine.py:165-198 | one more candle of the loop appends exactly one equity point, stamped with that candle's timestamp, and keeps every earlier trade |
| BacktestEngine.RunFromRecords | iaf-service/backtesting/engine.py:165-198 | a run over the candles from the warm-up to k appends one equity point per candle, stamped in candle order, after the points it started with, and only ever appends trades |
| BacktestEngine.EventRunLength | iaf-service/backtesting/engine.py:152-198 | the event-driven run adds exactly one equity point per candle after the warm-up |
| BacktestEngine.Engine.constructor | iaf-service/backtesting/engine.py:70-85 | a new engine holds the configuration, cash equal to the capital and an empty book |
| BacktestEngine.Engine.Reset | iaf-service/backtesting/engine.py:87-95 | reset restores cash to the capital and empties positions, trades and curve, and zeroes the counters |
| BacktestEngine.Engine.OpenPosition | iaf-service/backtesting/engine.py:223-265 | too little cash leaves the book alone; otherwise cash falls by the cost and exactly the opened position is appended with the next id; solvency is kept |
| BacktestEngine.Engine.IndexOfSymbol | iaf-service/backtesting/engine.py:279-286 | the loop finds the first position of the symbol |
| BacktestEngine.Engine.ClosePositionAt | iaf-service/backtesting/engine.py:352-385 | the position leaves the book, its trade is appended and its proceeds added to cash; solvency is kept |
| BacktestEngine.Engine.ClosePosition | iaf-service/backtesting/engine.py:267-322 | without a position of the symbol nothing changes; otherwise the first one is closed at the slipped close |
| BacktestEngine.CloseStepOf | iaf-service/backtesting/engine.py:267-322 | a state whose cash, book, trade list, counter, curve and peak are those a close of the symbol's first position produces is exactly the state the close specification gives |
| BacktestEngine.Engine.ProcessSignal | iaf-service/backtesting/engine.py:200-221 | the new book is the signal step of the old one: HOLD, NO_SIGNAL and a BUY at the position limit change nothing; an affordable BUY lowers cash by exactly the cost and appends exactly the opened position with the next id, an unaffordable one changes nothing; SELL, CLOSE_LONG and CLOSE_SHORT close the first position of the symbol at the slipped close as an EXIT trade, removing it and crediting its proceeds, or change nothing without one; the curve is untouched and solvency is kept |
| BacktestEngine.Engine.CheckExitOrders | iaf-service/backtesting/engine.py:324-350 | exactly the positions whose exit fires are closed, each with its trade and proceeds; solvency is kept |
| BacktestEngine.Engine.ExecuteExits | iaf-service/backtesting/engine.py:347-350 | executing a plan removes its positions and adds its trades and proceeds |
| BacktestEngine.Engine.CloseExit | iaf-service/backtesting/engine.py:347-350 | closing the next planned exit advances the plan by one |
| BacktestEngine.Engine.UpdatePositionPrices | iaf-service/backtesting/engine.py:387-397 | each position is replaced by its tracked and ratcheted self; nothing else changes |
| BacktestEngine.Engine.RecordEquity | iaf-service/backtesting/engine.py:399-422 | one point is appended with cash, the marked position value, their sum and the drawdown from the new peak |
| BacktestEngine.Engine.ProcessSignals | iaf-service/backtesting/engine.py:193-195 | the book after the candle's signals is the in-order fold of the signal step over them; solvency is kept |
| BacktestEngine.Engine.Step | iaf-service/backtesting/engine.py:170-198 | the new book is the candle step of the old one: exits, price tracking, the signals in order, then exactly one equity point stamped with the candle time; solvency is kept |
| BacktestEngine.Engine.RunEventDriven | iaf-service/backtesting/engine.py:152-198 | the new book is the event-driven run of the old one over the candles after the warm-up of max(50, columns), each candle showing the strategy the candles up to it; the curve grows by one point per warmed-up candle; solvency is kept |
| BacktestEngine.Engine.AdvanceCandle | iaf-service/backtesting/engine.py:165-198 | one pass of the loop takes the book from the run over the candles before i to the run including candle i, keeping solvency |
| BacktestEngine.Engine.Run | iaf-service/backtesting/engine.py:97-137 | no data source and an unloaded source are errors that leave a reset book; otherwise the book is the event-driven run from a fresh book over the date-filtered candles, and the result carries the configuration, the trades, the curve and exactly the metrics _calculate_metrics defines for them |
| BacktestEngine.Engine.RunVectorized | iaf-service/backtesting/engine.py:578-647 | no signal series or an empty symbol yields no result; otherwise the return is the last equity of the fold minus the capital |
| BacktestMetrics.WinFlags | iaf-service/backtesting/engine.py:556-576 | flag k is set exactly when trade k is a winner |
| BacktestMetrics.LossFlags | iaf-service/backtesting/engine.py:556-576 | flag k is set exactly when trade k is not a winner |
| BacktestMetrics.DrawdownFlags | iaf-service/backtesting/engine.py:539-554 | flag k is set exactly when point k is in drawdown |
| BacktestMetrics.Pnls | iaf-service/backtesting/engine.py:431-437 | the PnL column of the trades |
| BacktestMetrics.WinLossCounts | iaf-service/backtesting/engine.py:431-437 | the winners are the counted winners, and winners plus losers are all trades |
| BacktestMetrics.WinLossSums | iaf-service/backtesting/engine.py:441-453 | gross profit plus gross loss is the total PnL |
| BacktestMetrics.WinLossSigns | iaf-service/backtesting/engine.py:431-437 | every winning PnL is positive, every losing one non-positive |
| BacktestMetrics.DrawdownAmounts | iaf-service/backtesting/engine.py:487-500 | the drawdown column of the curve |
| BacktestMetrics.DrawdownPercentages | iaf-service/backtesting/engine.py:487-500 | the drawdown-percentage column of the curve |
| BacktestMetrics.HoldingHours | iaf-service/backtesting/engine.py:511-513 | each trade's holding time in hours |
| BacktestMetrics.Equities | iaf-service/backtesting/engine.py:525-537 | the equity column of the curve |
| BacktestMetrics.PeriodReturnsAllPositive | iaf-service/backtesting/engine.py:525-537 | one return per consecutive pair of equities, each the relative change |
| BacktestMetrics.CalculateReturns | iaf-service/backtesting/engine.py:525-537 | the loop yields the period returns of the curve's equities |
| BacktestMetrics.MaxDrawdownDuration | iaf-service/backtesting/engine.py:539-554 | the result is the longest run of consecutive points in drawdown |
| BacktestMetrics.RunExtends | iaf-service/backtesting/engine.py:539-576 | a set flag extends the current run |
| BacktestMetrics.RunBreaks | iaf-service/backtesting/engine.py:539-576 | a clear flag closes the current run into the best |
| BacktestMetrics.RunAdvance | iaf-service/backtesting/engine.py:539-576 | one step of the run-length loop keeps the tracked run and best |
| BacktestMetrics.ConsecutiveWinsLosses | iaf-service/backtesting/engine.py:556-576 | the results are the longest runs of winners and of losers; both zero without trades |
| BacktestMetrics.PnlStatistics | iaf-service/backtesting/engine.py:431-462 | the counts, win rate, mean and extreme wins and losses, mean trade, profit factor, risk/reward and expectancy are those _calculate_metrics defines for the trades |
| BacktestMetrics.ExpectancyIsAverageTrade | iaf-service/backtesting/engine.py:457-462 | the expectancy reported is the mean pnl per trade: win rate times mean win minus loss rate times mean loss is the mean trade |
| BacktestMetrics.AbsQuotient | iaf-service/backtesting/engine.py:456-457 | the risk-reward ratio `abs(avg_win / avg_loss)` is the size of the mean win over the size of the mean loss |
| BacktestMetrics.ExpectancyOfMeans | iaf-service/backtesting/engine.py:441-462 | with at least one trade the expectancy of the mean win and loss equals the mean trade |
| BacktestMetrics.LossSumNonPositive | iaf-service/backtesting/engine.py:439 | the trades that are not winners never sum to a profit |
| BacktestMetrics.CurveStatistics | iaf-service/backtesting/engine.py:466-508 | return from the last equity, percentage undefined exactly for zero capital, maximum drawdown bounds every drawdown, duration the longest drawdown run |
| BacktestMetrics.CalculateMetrics | iaf-service/backtesting/engine.py:424-523 | no trades give the default metrics; otherwise every field is the one _calculate_metrics defines: counts, win rate, means, extremes, profit factor, risk/reward, expectancy, holding time, trades per day and runs from the trades, return and drawdown figures from the curve |
| BacktestMetrics.MetricsDetermined | iaf-service/backtesting/engine.py:424-523 | the metrics of a trade list and a curve are unique: any two values meeting the definition are equal |
| Risk.LongSpellings | iaf-service/strategies/risk.py:153 | the side test is case-insensitive: "long", "LONG" and "Long" are long, "short" and "" are not |
| Risk.RiskSize | iaf-service/strategies/risk.py:87-92 | the risk-based size times the distance to the stop is the risked share of the portfolio |
| Risk.LossWithinRisk | iaf-service/strategies/risk.py:87-92 | any size at or below the risk size loses at most risk_per_trade % of the portfolio at the stop |
| Risk.CalculateSize | iaf-service/strategies/risk.py:61-103 | the size never exceeds the maximum amount's size; it reaches the minimum amount's size unless the maximum caps it; without a minimum the loss at the stop stays within the risk budget and the size never exceeds the base size, and equals it when no rule applies |
| Risk.RiskSizingNeverIncreases | iaf-service/strategies/risk.py:86-92 | passing a stop price never makes the size larger than without one |
| Risk.TargetPrice | iaf-service/strategies/risk.py:143-157 | the target lies the threshold percentage above the entry for a long and below it otherwise; with positive entry and threshold it is above the entry exactly for a long |
| Risk.TargetsSymmetric | iaf-service/strategies/risk.py:143-157 | the long and the short target are symmetric about the entry |
| Risk.TakeProfitTrailing | iaf-service/strategies/risk.py:159-184 | no trailing target exactly when trailing is off; a long's trailing target is at most the highest price, a short's at least |
| Risk.LevelOf | iaf-service/strategies/risk.py:195-202 | a level's target lies above a positive entry when its percentage (5 by default) is positive |
| Risk.GetLevelTargets | iaf-service/strategies/risk.py:186-208 | with levels configured, one target per level in order; otherwise the single long target with the rule's sell percentage |
| Risk.LevelTargetsAboveEntry | iaf-service/strategies/risk.py:186-208 | with positive percentages every level target lies above the entry |
| Risk.StopPrice | iaf-service/strategies/risk.py:252-280 | an ATR stop with an ATR sits ATR × multiplier (2 by default) away from the entry, otherwise the threshold percentage away, on the losing side |
| Risk.StopAndTargetBracketEntry | iaf-service/strategies/risk.py:252-280 | with positive thresholds and entry, the percentage stop and the target lie on opposite sides of the entry, the stop on the losing side |
| Risk.StopLossTrailing | iaf-service/strategies/risk.py:282-319 | no trailing stop exactly when trailing is off or the activation profit is not reached; a long's trailing stop is at most the highest price, a short's at least |
| Risk.TrailingStaysActive | iaf-service/strategies/risk.py:282-319 | for a long, once the trailing stop is active a higher high keeps it active and never lowers it |
| Risk.FirstIndex | iaf-service/strategies/risk.py:367-386 | the first index holding the symbol, or none exactly when the symbol is absent |
| Risk.RuleSymbols | iaf-service/strategies/risk.py:367-386 | the symbols of a rule list, one per rule, in order |
| Risk.FirstRule | iaf-service/strategies/risk.py:367-386 | a rule of the list for exactly this symbol, or none exactly when no rule names it |
| Risk.WildcardNotImplicit | iaf-service/strategies/risk.py:367-372 | a rule for "*" does not match other symbols: lookup is by exact symbol |
| Risk.FindRule | iaf-service/strategies/risk.py:367-386 | the search loop returns the first rule of the list for the symbol, none when there is none |
| Risk.GetPositionSize | iaf-service/strategies/risk.py:367-372 | the search loop returns the first sizing rule of the symbol |
| Risk.GetTakeProfitRule | iaf-service/strategies/risk.py:374-379 | the search loop returns the first take-profit rule of the symbol |
| Risk.GetStopLossRule | iaf-service/strategies/risk.py:381-386 | the search loop returns the first stop-loss rule of the symbol |
| Risk.FirstFound | iaf-service/strategies/risk.py:367-386 | an index holding the symbol with no earlier occurrence is the one found |
| PortfolioTypes.NewPositionState | iaf-service/portfolio/types.py:20-47 | a new position state carries the given fields; a zero highest price and a missing lowest price default to the entry price |
| PortfolioTypes.DefaultTrackingAtEntry | iaf-service/portfolio/types.py:43-47 | with the defaults, lowest, entry, highest and current price coincide |
| PortfolioTypes.Pnl | iaf-service/portfolio/types.py:59-65 | a long's PnL is value minus entry value, any other side's the reverse |
| PortfolioTypes.PnlSidesOpposite | iaf-service/portfolio/types.py:59-65 | zero at the entry price; long and short PnL are opposite |
| PortfolioTypes.PnlPercentage | iaf-service/portfolio/types.py:67-75 | zero for a zero entry price |
| PortfolioTypes.PnlPercentageOfEntryValue | iaf-service/portfolio/types.py:54-75 | the percentage times the entry value is the PnL times 100 |
| PortfolioTypes.UpdatePrice | iaf-service/portfolio/types.py:82-88 | the current price is replaced; a truthy high raises the highest price to at least it, a truthy low lowers the lowest to at most it; falsy values (none or zero) change nothing |
| PortfolioTypes.UpdatePriceIdempotent | iaf-service/portfolio/types.py:82-88 | repeating the same update changes nothing |
| PortfolioTypes.Symbols | iaf-service/portfolio/types.py:176 | the symbols of the positions, in order |
| PortfolioTypes.FindPosition | iaf-service/portfolio/types.py:201-207 | the first position of the symbol, or none exactly when the symbol is not held |
| PortfolioTypes.FindPositionUnique | iaf-service/portfolio/types.py:201-203 | with distinct symbols, the position holding the symbol is the one found |
| PortfolioTypes.Values | iaf-service/portfolio/types.py:184-188 | the value of each position, in order |
| PortfolioTypes.Pnls | iaf-service/portfolio/types.py:221 | the PnL of each position, in order |
| PortfolioTypes.OpenPositions | iaf-service/portfolio/types.py:209-211 | exactly the positions whose status is open |
| PortfolioTypes.ValuesNonNegative | iaf-service/portfolio/types.py:184-188 | non-negative sizes and prices give a non-negative position value |
| PortfolioTypes.PortfolioValue | iaf-service/portfolio/types.py:184-188 | the total value is at least the cash when holdings are non-negative |
| PortfolioTypes.ReturnPercentage | iaf-service/portfolio/types.py:195-199 | zero for zero capital, otherwise PnL / capital × 100 |
| PortfolioTypes.PortfolioState.constructor | iaf-service/portfolio/types.py:167-182 | a new portfolio holds its identity, capital and cash, no positions and no metrics |
| PortfolioTypes.PortfolioState.TotalReturnPercentage | iaf-service/portfolio/types.py:195-199 | zero for zero capital, otherwise total PnL / capital × 100 |
| PortfolioTypes.PortfolioState.GetPosition | iaf-service/portfolio/types.py:201-207 | a position is returned exactly when the symbol is held, and it is that symbol's position |
| PortfolioTypes.PortfolioState.GetOpenPositions | iaf-service/portfolio/types.py:209-211 | exactly the open positions |
| PortfolioTypes.PortfolioState.CalculateMetrics | iaf-service/portfolio/types.py:213-229 | the stored and returned metrics are the snapshot of the state before the call; cash and positions are untouched |
| PortfolioTypes.PortfolioState.Snapshot | iaf-service/portfolio/types.py:213-229 | total value = cash + position value, total PnL = total value − capital, the cash, the unrealised PnL as the sum of position PnLs and the open count |
| StrategyTypes.ActionableExactly | iaf-service/strategies/types.py:234-236 | hold and no-signal are not actionable; buy, sell and the two closes are |
| StrategyTypes.FromList | iaf-service/strategies/types.py:90-100 | a list of at least five numbers gives a candle with the timestamp truncated and volume from the sixth entry or 0; a shorter list gives none |
| StrategyTypes.GetLatestCandle | iaf-service/strategies/types.py:154-171 | the last candle, or none exactly when the source is not loaded |
| StrategyTypes.GetPrice | iaf-service/strategies/types.py:173-176 | the last close, or none exactly when the source is not loaded |
| StrategyTypes.NewIndicatorConfig | iaf-service/strategies/types.py:180-199 | without a result column the column is the name, an underscore and the period |
| StrategyTypes.AfterError | iaf-service/strategies/types.py:304-309 | the new error is last and only the latest 100 are kept |
| StrategyTypes.AfterErrors | iaf-service/strategies/types.py:304-309 | after recording errors, at most 100 are kept and the latest is last |
| StrategyTypes.StrategyState.constructor | iaf-service/strategies/types.py:284-296 | a new state is inactive with no signal, zero counters and no errors |
| StrategyTypes.StrategyState.RecordSignal | iaf-service/strategies/types.py:298-302 | the signal becomes the last and the counter rises by one; nothing else changes |
| StrategyTypes.StrategyState.RecordError | iaf-service/strategies/types.py:304-309 | the error list becomes the bounded append; nothing else changes |
| StrategyTypes.StrategyState.ErrorsShown | iaf-service/strategies/types.py:318 | the last ten errors (or all, if fewer), in order |
| PortfolioManagement.FilledStop | iaf-service/portfolio/manager.py:170-173 | a given stop is kept; a missing one is filled from the symbol's stop-loss rule exactly when there is one, at that rule's stop price |
| PortfolioManagement.FilledTarget | iaf-service/portfolio/manager.py:175-178 | a given target is kept; a missing one is filled from the symbol's take-profit rule exactly when there is one, at that rule's target price |
| PortfolioManagement.OpenedState | iaf-service/portfolio/manager.py:180-195 | the opened position holds the symbol, side and size, open status, every price at the entry price and no trailing stop |
| PortfolioManagement.FilledLevelsBracketLongEntry | iaf-service/portfolio/manager.py:165-175 | with positive-threshold percentage rules for the symbol, a long opened without levels gets a stop below and a target above the entry |
| PortfolioManagement.CalculatePositionSize | iaf-service/portfolio/manager.py:108-136 | with a sizing rule for the symbol the size is that rule's size |
| PortfolioManagement.DefaultPositionSize | iaf-service/portfolio/manager.py:126-129 | without a sizing rule for the symbol the position's value (size times price) is 10 % of the portfolio value |
| PortfolioManagement.BuyOutcome | iaf-service/portfolio/manager.py:384-401 | a buy opens a long with the signal's symbol, size and entry price exactly when the rules admit its value, and otherwise does nothing |
| PortfolioManagement.DistinctAppend | iaf-service/portfolio/manager.py:103-104 | adding a position for a symbol not yet held keeps one position per symbol |
| PortfolioManagement.CloseTrade | iaf-service/portfolio/manager.py:219-255 | the trade refers to the position, closes the partial size when one is given and the whole size otherwise, its PnL is the side's price move times that size and its percentage is the PnL over the closed entry value |
| PortfolioManagement.FullCloseRealisesUnrealized | iaf-service/portfolio/manager.py:219-255 | a full close realises exactly the position's unrealised PnL and percentage at the exit price |
| PortfolioManagement.AfterClose | iaf-service/portfolio/manager.py:259-265 | a partial close smaller than the position shrinks it by that size; otherwise the position is removed |
| PortfolioManagement.AfterCloseShape | iaf-service/portfolio/manager.py:259-265 | closing keeps one position per symbol; the symbol stays held exactly when a smaller partial size was closed, and then the sizes add up |
| PortfolioManagement.Retrail | iaf-service/portfolio/manager.py:292-304 | only a long with a trailing stop and a trailing stop-loss rule changes, and only its trailing stop, which rises to highest × (1 − offset/100) and never falls |
| PortfolioManagement.RetrailIdempotent | iaf-service/portfolio/manager.py:292-304 | re-trailing twice is re-trailing once |
| PortfolioManagement.Reprice | iaf-service/portfolio/manager.py:280-285 | repricing one symbol keeps the symbols, sizes, highest prices and the presence of trailing stops, and never lowers a trailing stop |
| PortfolioManagement.RepriceAllRatchets | iaf-service/portfolio/manager.py:274-290 | repricing from a price map keeps the symbols and never lowers a trailing stop |
| PortfolioManagement.SymbolsDistinct | iaf-service/portfolio/manager.py:274-290 | positions with the same symbols as a distinct list are distinct |
| PortfolioManagement.PositionExits | iaf-service/portfolio/manager.py:318-370 | a hit stop gives exactly one stop-loss order; otherwise one order for a hit target and one for a hit trailing stop; a side other than long or short gives none |
| PortfolioManagement.ExitOrdersHeld | iaf-service/portfolio/manager.py:306-372 | every exit order is for a held symbol that has a quote, at most two per position |
| PortfolioManagement.DrawdownPercentage | iaf-service/portfolio/manager.py:418 | zero for a non-positive peak, otherwise drawdown / peak × 100, non-negative for a non-negative drawdown |
| PortfolioManagement.HistoryAppend | iaf-service/portfolio/manager.py:412-427 | appending a sample whose drawdown is measured from the updated peak keeps the history consistent |
| PortfolioManagement.WinPnls | iaf-service/portfolio/manager.py:439 | the winning PnLs are positive |
| PortfolioManagement.LossPnls | iaf-service/portfolio/manager.py:440 | the losing PnLs are not positive |
| PortfolioManagement.TradePnls | iaf-service/portfolio/manager.py:450 | the PnL of each closed trade |
| PortfolioManagement.WinsAndLossesSplit | iaf-service/portfolio/manager.py:439-450 | wins and losses partition the trades and their sums add up to the realised PnL |
| PortfolioManagement.ProfitFactorAsWritten | iaf-service/portfolio/manager.py:441-449 | the division as written fails exactly when there are wins and losses and the losses sum to zero |
| PortfolioManagement.ProfitFactorBreakEvenCrash | iaf-service/portfolio/manager.py:441-449 | one winning and one break-even trade make the metrics fail |
| PortfolioManagement.TradesProfitFactor | iaf-service/portfolio/manager.py:441-449 | the corrected factor: 0 without wins, infinite exactly when the losses sum to zero, never negative |
| PortfolioManagement.ProfitFactorAgrees | iaf-service/portfolio/manager.py:441-449 | wherever the original does not fail, it agrees with the corrected factor |
| PortfolioManagement.WithTradeStats | iaf-service/portfolio/manager.py:436-450 | with trades: counts partition the trades, the win rate is in [0, 100], the realised PnL is the sum of PnLs and, with wins, the profit factor is the corrected one |
| PortfolioManagement.Drawdowns | iaf-service/portfolio/manager.py:454 | the drawdown of each equity sample |
| PortfolioManagement.DrawdownPercentages | iaf-service/portfolio/manager.py:455 | the drawdown percentage of each equity sample |
| PortfolioManagement.WithDrawdowns | iaf-service/portfolio/manager.py:453-455 | only the two drawdown fields change; with a history the maximum drawdown and percentage bound every sample and are attained by one, without one nothing changes |
| PortfolioManagement.CashAfterClose | iaf-service/portfolio/manager.py:228-240 | the cash a closed trade credits is exactly the close value of the closed size at the exit price |
| PortfolioManagement.PortfolioManager.constructor | iaf-service/portfolio/manager.py:34-66 | a new manager holds the capital as cash, the given or default risk configuration, no positions, trades or history, and the capital as peak |
| PortfolioManagement.PortfolioManager.OpenPosition | iaf-service/portfolio/manager.py:138-202 | a refused open changes nothing; an admitted one pays size × price and adds exactly the opened position; cash stays non-negative and the position limit is kept |
| PortfolioManagement.PortfolioManager.ClosePosition | iaf-service/portfolio/manager.py:204-272 | without a position nothing changes; otherwise the trade is recorded, the close value is credited and the position shrinks or is removed |
| PortfolioManagement.PortfolioManager.UpdateTrailingStop | iaf-service/portfolio/manager.py:292-304 | the position becomes its re-trailed self |
| PortfolioManagement.PortfolioManager.RepriceOne | iaf-service/portfolio/manager.py:280-285 | the positions become the repriced ones; cash is untouched |
| PortfolioManagement.PortfolioManager.UpdatePrices | iaf-service/portfolio/manager.py:274-290 | every quoted position is repriced and re-trailed, cash and trades are unchanged, the peak becomes the larger of the old peak and the new total value, and exactly one sample of that value, the cash, the position value and the drawdown from the peak is appended |
| PortfolioManagement.PortfolioManager.RepricePositions | iaf-service/portfolio/manager.py:281-287 | each quoted position is repriced and re-trailed in place; cash and metrics are unchanged |
| PortfolioManagement.PortfolioManager.CheckExitConditions | iaf-service/portfolio/manager.py:306-372 | the loop yields exactly the exit orders of the positions |
| PortfolioManagement.PortfolioManager.OpenLong | iaf-service/portfolio/manager.py:393-401 | the buy branch's result is the BuyOutcome of the pre-call cash and positions; when opened, the position is appended and the cash falls by exactly size × price; otherwise nothing changes |
| PortfolioManagement.PortfolioManager.BuyOnSignal | iaf-service/portfolio/manager.py:385-401 | the size is calculate_position_size on the pre-call portfolio value, signal price and stop; the result is the BuyOutcome of that size, the opened position is appended and the cash falls by its value |
| PortfolioManagement.PortfolioManager.CloseOnSignal | iaf-service/portfolio/manager.py:403-408 | a sell or close-long closes exactly when the symbol is held: the trade is the close of its first position at the signal price for "signal", the cash rises by the close value, the position leaves and the trade is appended; otherwise cash, positions and trades are unchanged |
| PortfolioManagement.PortfolioManager.ProcessSignal | iaf-service/portfolio/manager.py:374-410 | a buy sizes the position from the rules on the pre-call portfolio value and is the BuyOutcome of that size, appending the opened position; a sell or close-long closes the symbol's first position at the signal price for "signal" exactly when one is held, with the exact trade, cash and positions; any other signal changes nothing; in every case the cash moves by exactly the outcome's value |
| PortfolioManagement.PortfolioManager.RecordEquity | iaf-service/portfolio/manager.py:412-427 | the peak becomes the larger of the old peak and the value, and one sample with equity, cash, position value and drawdown from the peak is appended |
| PortfolioManagement.PortfolioManager.GetMetrics | iaf-service/portfolio/manager.py:429-458 | the result is the state's snapshot with the trade statistics of the closed trades and the drawdowns of the history, and is stored; value, cash and open count are the state's; with trades counts, win rate in [0, 100], realised PnL and the corrected profit factor; with history non-negative maximum drawdowns; cash and positions are untouched |
| StrategyBase.LaterSourceWins | iaf-service/strategies/base.py:83-86 | when two sources share an identifier, the later one is kept |
| StrategyBase.SourcesFromDistinct | iaf-service/strategies/base.py:83-86 | the source table has one entry per identifier |
| StrategyBase.FirstSourceFor | iaf-service/strategies/base.py:127-133 | the first source of the symbol in insertion order, or none exactly when no source has that symbol |
| StrategyBase.LatestPrice | iaf-service/strategies/base.py:120-125 | a price is returned exactly when the first source of the symbol is loaded |
| StrategyBase.LoadedData | iaf-service/strategies/base.py:181-182 | the data map keeps only identifiers of known sources |
| StrategyBase.LoadedDataGet | iaf-service/strategies/base.py:181-182 | each identifier maps to its source's data when that data exists |
| StrategyBase.EmitFrom | iaf-service/strategies/base.py:191-203 | a pass emits at most one signal per series, and its only error is an empty series read at its last element |
| StrategyBase.EmitBuilt | iaf-service/strategies/base.py:191-203 | the pass fails exactly when some series is empty, and every emitted signal is built for this strategy and kind |
| StrategyBase.EmitSound | iaf-service/strategies/base.py:191-203 | every emitted signal comes from a series whose last flag is set and whose symbol has a price |
| StrategyBase.EmitComplete | iaf-service/strategies/base.py:191-203 | every series that fires before any failure yields a signal for its symbol |
| StrategyBase.EmitQuiet | iaf-service/strategies/base.py:191-203 | series that never fire emit nothing |
| StrategyBase.EmitAdvance | iaf-service/strategies/base.py:191-203 | one series of the pass emits its optional signal, then the rest follow |
| StrategyBase.EmitSignals | iaf-service/strategies/base.py:191-207 | the loop's signals and error are those of the pass, and each emitted signal is recorded in the state |
| StrategyBase.GeneratorPass | iaf-service/strategies/base.py:190-207 | a generator failure yields no signal and records the error; otherwise the pass runs on its series |
| StrategyBase.NoDataNoSignals | iaf-service/strategies/base.py:184-186 | with no data, no signal and no error |
| StrategyBase.GeneratedSignalsShape | iaf-service/strategies/base.py:168-230 | buys come before sells and every signal is built by this strategy with a latest price |
| StrategyBase.FailureIsolated | iaf-service/strategies/base.py:190-228 | a failing buy generator does not stop the sell pass, and its error is recorded first |
| StrategyBase.AfterErrorsConcat | iaf-service/strategies/types.py:304-309 | recording two batches of errors is recording their concatenation |
| StrategyBase.MissingSizeErrorsEmpty | iaf-service/strategies/base.py:302-310 | no sizing error exactly when every symbol has a rule or a wildcard rule exists |
| StrategyBase.ValidIff | iaf-service/strategies/base.py:284-312 | a strategy validates exactly when it has an id, a symbol, a data source and a sizing rule for each symbol |
| StrategyBase.InitialRiskConfig | iaf-service/strategies/base.py:88-96 | a given risk configuration is used as is; otherwise one is built from the given rule lists with default limits |
| StrategyBase.TradingStrategy.constructor | iaf-service/strategies/base.py:58-96 | a new strategy holds its sources by identifier, the initial risk configuration and a fresh state |
| StrategyBase.TradingStrategy.AddDataSource | iaf-service/strategies/base.py:111-113 | the source is stored under its identifier, replacing any earlier one |
| StrategyBase.TradingStrategy.GetData | iaf-service/strategies/base.py:115-118 | the data of the identified source, if any |
| StrategyBase.TradingStrategy.GetDataSource | iaf-service/strategies/base.py:127-133 | a source with the symbol, or none exactly when no source has that symbol |
| StrategyBase.TradingStrategy.RunPass | iaf-service/strategies/base.py:190-228 | one pass's signals are recorded and its error appended to the bounded error list |
| StrategyBase.TradingStrategy.GenerateSignals | iaf-service/strategies/base.py:168-230 | the signals are the generated ones; each is recorded and the errors are appended |
| StrategyBase.TradingStrategy.OnPositionClosed | iaf-service/strategies/base.py:272-282 | the executed-trade counter rises by one; nothing else changes |
| StrategyBase.TradingStrategy.Validate | iaf-service/strategies/base.py:284-312 | the errors are the validation errors of the class, sources and risk configuration |
| StrategyBase.CollectMissingSizes | iaf-service/strategies/base.py:302-310 | the loop yields one error per symbol without a sizing rule, when there is no wildcard |
| StrategyBase.Values | iaf-service/strategies/base.py:122 | the sources in insertion order |
| StrategyBase.StrategyRegistry.constructor | iaf-service/strategies/base.py:334 | the registry starts empty |
| StrategyBase.StrategyRegistry.Register | iaf-service/strategies/base.py:336-354 | the class is stored under its id, replacing any earlier one, and returned |
| StrategyBase.StrategyRegistry.GetClass | iaf-service/strategies/base.py:356-359 | no class exactly when the id is not registered |
| StrategyBase.StrategyRegistry.List | iaf-service/strategies/base.py:361-364 | the registered ids in registration order |
| StrategyBase.StrategyRegistry.Create | iaf-service/strategies/base.py:366-381 | an instance exactly when the id is registered, built from the arguments |
| StrategyBase.StrategyRegistry.Unregister | iaf-service/strategies/base.py:383-388 | true exactly when the id was registered; afterwards it is not |
| StrategyBase.RegisterThenGet | iaf-service/strategies/base.py:336-359 | after registering, the id yields the class and other ids are unaffected |
| StrategyBase.RemoveAbsent | iaf-service/strategies/base.py:383-388 | unregistering an unknown id changes nothing |
| Indicators.Closes | iaf-service/strategies/indicators.py:49 | the close column of the candles |
| Indicators.Sma | iaf-service/strategies/indicators.py:33-51 | one entry per input, defined exactly from the period-th element on |
| Common.MeanWithin | iaf-service/strategies/indicators.py:49 | the mean of values within bounds lies within those bounds |
| Indicators.SmaWithinWindow | iaf-service/strategies/indicators.py:33-51 | every defined SMA lies between the minimum and the maximum of its window |
| Indicators.TrueRange | iaf-service/strategies/indicators.py:180-184 | the true range is the largest of high − low and, after the first bar, the two gaps to the previous close |
| Indicators.TrueRanges | iaf-service/strategies/indicators.py:180-184 | the true range of every bar |
| Indicators.AtrNonNegative | iaf-service/strategies/indicators.py:160-188 | every defined ATR is non-negative on bars with high ≥ low |
| Indicators.ObvBounded | iaf-service/strategies/indicators.py:291-297 | the OBV never exceeds in size the volume traded after the first bar |
| Indicators.ObvOnRisingCloses | iaf-service/strategies/indicators.py:291-297 | on strictly rising closes the OBV is the cumulative volume after the first bar |
| Indicators.Obv | iaf-service/strategies/indicators.py:276-300 | an empty frame fails (the one-element list does not fit the column); otherwise the loop yields the OBV of every bar |
| Indicators.Crossover | iaf-service/strategies/indicators.py:304-326 | one flag per row and never on the first row |
| Indicators.Crossunder | iaf-service/strategies/indicators.py:328-350 | one flag per row and never on the first row |
| Indicators.CrossingsExclusive | iaf-service/strategies/indicators.py:304-350 | a row is never both a crossover and a crossunder |
| Indicators.CrossunderIsSwappedCrossover | iaf-service/strategies/indicators.py:304-350 | the crossunder of two columns is the crossover with the columns swapped |
| Indicators.HaCandleOf | iaf-service/strategies/indicators.py:372-373 | a Heikin Ashi candle's open and close lie within its high and low, which enclose the bar's range |
| Indicators.HaOpenWithinRange | iaf-service/strategies/indicators.py:365-370 | the Heikin Ashi open stays within any bounds holding every bar's prices |
| Indicators.HaOpens | iaf-service/strategies/indicators.py:365-370 | the loop yields the recursive Heikin Ashi opens |
| Indicators.HeikinAshi | iaf-service/strategies/indicators.py:352-376 | one Heikin Ashi candle per bar, as defined |
| Indicators.TrendAt | iaf-service/strategies/indicators.py:398-407 | the trend is always 1 or −1 |
| Indicators.TrendFlipNeedsBreak | iaf-service/strategies/indicators.py:398-407 | the trend turns up only on a close above the previous upper band and down only on one below the previous lower band |
| Indicators.TrendColumn | iaf-service/strategies/indicators.py:398-407 | the loop yields the trend of every bar |
| Indicators.Supertrend | iaf-service/strategies/indicators.py:378-421 | one trend and one supertrend value per bar: the lower band in an up trend, the upper band in a down trend |
| Indicators.Registered | iaf-service/strategies/indicators.py:458-477 | an indicator is found exactly for a registered name |
| Indicators.CalculateIndicator | iaf-service/strategies/indicators.py:480-503 | an unknown name fails exactly, with the message naming it and listing the available names |
| Indicators.BbAliasesBollingerBands | iaf-service/strategies/indicators.py:458-477 | "bb" and "bollinger_bands" name the same indicator |
| Indicators.StochAliasesStochastic | iaf-service/strategies/indicators.py:458-477 | "stoch" and "stochastic" name the same indicator |
| Indicators.HaAliasesHeikinAshi | iaf-service/strategies/indicators.py:458-477 | "ha" and "heikin_ashi" name the same indicator |
| Builtin.SymbolOf | iaf-service/strategies/builtin.py:126 | removing every "_data" never lengthens the identifier |
| Builtin.SymbolOfClean | iaf-service/strategies/builtin.py:126 | an identifier without "_data" is its own symbol |
| Builtin.SymbolOfSuffixed | iaf-service/strategies/builtin.py:126 | appending "_data" does not change the symbol read back |
| Builtin.IdentifierNamesSymbol | iaf-service/strategies/builtin.py:77 | the identifier each builtin strategy gives its source reads back as the symbol, when the symbol holds no "_data" |
| Builtin.CollectGet | iaf-service/strategies/builtin.py:108-129 | a symbol has a series exactly when some long enough frame names it, and the series is the rule applied to the last such frame |
| Builtin.CollectEntries | iaf-service/strategies/builtin.py:108-129 | every stored series is the rule applied to a long enough frame of that symbol |
| Builtin.CollectSignals | iaf-service/strategies/builtin.py:108-129 | the generator loop builds the collected map |
| Builtin.ToSeries | iaf-service/strategies/base.py:193 | the symbol series in dict order |
| Builtin.RisesThrough | iaf-service/strategies/builtin.py:121-124 | one flag per row and never on the first row |
| Builtin.FallsThrough | iaf-service/strategies/builtin.py:144-147 | one flag per row and never on the first row |
| Builtin.CrossesAbove | iaf-service/strategies/builtin.py:247-250 | one flag per row and never on the first row |
| Builtin.CrossesBelow | iaf-service/strategies/builtin.py:518-521 | one flag per row and never on the first row |
| Builtin.CrossesAreIndicatorCrossings | iaf-service/strategies/builtin.py:494-521 | the strategies' crossing tests are the crossover and crossunder indicators |
| Builtin.CrossesExclusive | iaf-service/strategies/builtin.py:494-521 | no row crosses both ways |
| Builtin.RisesThroughIsStrictCrossover | iaf-service/strategies/builtin.py:121-124 | rising through a level is crossing over it, except from a previous value exactly at the level |
| Builtin.RsiReversalBuyRows | iaf-service/strategies/builtin.py:108-129 | a buy series comes from a frame of at least rsi_period + 1 rows and flags exactly the rows where the RSI rises through oversold |
| Builtin.RsiReversalExclusive | iaf-service/strategies/builtin.py:108-153 | with oversold ≤ overbought no row is both a buy and a sell |
| Builtin.EmaBuySellExclusive | iaf-service/strategies/builtin.py:485-530 | on every symbol the EMA crossover buys and sells never flag the same row |
| Builtin.UnderBand | iaf-service/strategies/builtin.py:372 | one flag per row |
| Builtin.OverBand | iaf-service/strategies/builtin.py:380-398 | one flag per row |
| Builtin.BandsExclusive | iaf-service/strategies/builtin.py:361-398 | where the lower band is not above the upper, no row is both under and over the bands |
| Builtin.LevelCount | iaf-service/strategies/builtin.py:604 | the offset range holds n + 1 offsets for n ≥ 0 and none below |
| Builtin.RawLevels | iaf-service/strategies/builtin.py:603-605 | the loop appends one level per offset |
| Builtin.SortedLevels | iaf-service/strategies/builtin.py:607 | sorting keeps the number of levels |
| Builtin.GridLevels | iaf-service/strategies/builtin.py:599-607 | the grid has one level per offset |
| Builtin.SortedLevelsSorted | iaf-service/strategies/builtin.py:599-607 | for any spacing the levels are in ascending order and a permutation of those appended |
| Builtin.RawLevelsAscending | iaf-service/strategies/builtin.py:599-607 | with a non-negative spacing the levels in the order the loop appends them already ascend |
| Builtin.ReversedLevelsAscending | iaf-service/strategies/builtin.py:599-607 | with a negative spacing the appended levels, reversed, ascend |
| Builtin.RawLevelsDescend | iaf-service/strategies/builtin.py:603-605 | with a negative spacing a level appended later is never higher than an earlier one |
| Builtin.GridLevelsSorted | iaf-service/strategies/builtin.py:599-607 | the grid levels are sorted and a permutation of those appended |
| Builtin.LevelsBelow | iaf-service/strategies/builtin.py:622 | exactly the levels below the price |
| Builtin.LevelsAbove | iaf-service/strategies/builtin.py:651 | exactly the levels above the price |
| Builtin.RawLevelAt | iaf-service/strategies/builtin.py:603-605 | every appended level is the price plus an offset of the range times the spacing |
| Builtin.RawNeighbours | iaf-service/strategies/builtin.py:603-605 | with a positive spacing no level lies strictly within one spacing of the price, and a level above exists only from two levels on |
| Builtin.OffsetNeighbours | iaf-service/strategies/builtin.py:603-605 | a level a whole number of positive spacings from the price is at least one spacing below or above it unless it is the price, and one above it lies a positive number of spacings away |
| Builtin.NearestBelow | iaf-service/strategies/builtin.py:620-626 | with a positive spacing the price is a level and the nearest level below it is one spacing down |
| Builtin.NearestAbove | iaf-service/strategies/builtin.py:649-655 | a level above the price exists exactly from two levels on, and then the nearest is one spacing up |
| Builtin.FreshGridNeighbours | iaf-service/strategies/builtin.py:599-655 | on a fresh grid the nearest buy level is one spacing below the price, and a sell level exists exactly from two levels on, one spacing above |
| Builtin.GridBuyFlags | iaf-service/strategies/builtin.py:622-629 | one flag per row |
| Builtin.GridSellFlags | iaf-service/strategies/builtin.py:651-658 | one flag per row |
| Builtin.GridBuyNearestLower | iaf-service/strategies/builtin.py:622-629 | a row is a grid buy exactly when it closes at most 0.1 % above the nearest level below the latest close |
| Builtin.GridSellNearestUpper | iaf-service/strategies/builtin.py:651-658 | a row is a grid sell exactly when it closes at most 0.1 % below the nearest level above the latest close, or higher |
| Builtin.GridFlags | iaf-service/strategies/builtin.py:610-666 | one flag per row on either side |
| Builtin.GridRunPrefix | iaf-service/strategies/builtin.py:614-634 | a grid pass over one more frame is one more frame step |
| Builtin.GridNextKeeps | iaf-service/strategies/builtin.py:618-619 | a frame keeps a filled level cache |
| Builtin.GridNextFills | iaf-service/strategies/builtin.py:618-619 | a frame of two rows or more fills an empty cache from its latest close |
| Builtin.GridCacheKept | iaf-service/strategies/builtin.py:618-619 | a filled cache is never recomputed |
| Builtin.GridCacheFilled | iaf-service/strategies/builtin.py:614-619 | an empty cache is filled from the latest close of the first frame of two rows or more |
| Builtin.GridSkipsShort | iaf-service/strategies/builtin.py:614-615 | frames that are all too short yield nothing and leave the cache empty |
| Builtin.GridStrategy.constructor | iaf-service/strategies/builtin.py:556-597 | a new grid strategy holds its level count and spacing and no cached levels |
| Builtin.GridStrategy.GenerateBuySignals | iaf-service/strategies/builtin.py:610-637 | the buy pass's signals and new cache are those of the grid run from the old cache |
| Builtin.GridStrategy.GenerateSellSignals | iaf-service/strategies/builtin.py:639-666 | the sell pass's signals and new cache are those of the grid run from the old cache |
| Builtin.GridStrategy.RunGrid | iaf-service/strategies/builtin.py:610-666 | either pass yields the grid run from the old cache |
| Builtin.GridLoop | iaf-service/strategies/builtin.py:613-637 | the frame loop yields the grid run |
| Builtin.DcaStep | iaf-service/strategies/builtin.py:764 | the row step is max(1, hours // 24): at least one, and the whole number of days from 48 hours on |
| Builtin.DcaFlags | iaf-service/strategies/builtin.py:760-771 | one flag per row |
| Builtin.DcaBuyFlags | iaf-service/strategies/builtin.py:760-771 | the loop flags every k-th row from the first whose RSI, when filtered, is below the threshold |
| Builtin.DcaFilterOnlyRemoves | iaf-service/strategies/builtin.py:764-771 | without the filter the first row is bought, and the filter only removes buys |
| Builtin.DcaBuyCount | iaf-service/strategies/builtin.py:764-771 | without the filter a frame of n rows gets ceil(n / k) buys |
| Builtin.DcaNeverSells | iaf-service/strategies/builtin.py:781-792 | the DCA sell pass never emits a signal |
| LumibotCommon.PnlPercent | lumibot-service/strategies/extended_strategies.py:372 | zero without a (truthy) entry price, otherwise the move from the entry in percent of it |
| LumibotCommon.DecideCases | lumibot-service/strategies/extended_strategies.py:94-126 | a strategy enters exactly when its entry test holds and it holds nothing, exits exactly when its exit test holds and it holds something, and otherwise stays |
| LumibotCommon.Closes | lumibot-service/strategies/extended_strategies.py:336 | the close of every bar, in order |
| LumibotCommon.Highs | lumibot-service/strategies/extended_strategies.py:131-133 | the high of every bar, in order |
| LumibotCommon.Lows | lumibot-service/strategies/extended_strategies.py:131-133 | the low of every bar, in order |
| LumibotCommon.Deltas | lumibot-service/strategies/base.py:137 | one change per consecutive pair of prices, each the later minus the earlier |
| LumibotCommon.Gains | lumibot-service/strategies/base.py:139 | each gain is the change when positive and 0 otherwise |
| LumibotCommon.Losses | lumibot-service/strategies/base.py:140 | each loss is the negated change when negative and 0 otherwise |
| LumibotCommon.GainsNonNegative | lumibot-service/strategies/base.py:139-140 | the sums of gains and of losses are never negative |
| LumibotCommon.RsiOf | lumibot-service/strategies/base.py:145-151 | the RSI lies in [0, 100], is 100 exactly when there is no loss, is 0 when there is no gain but some loss, and otherwise satisfies 100 − RSI = 100 × loss / (gain + loss) |
| LumibotCommon.RsiOfScaled | lumibot-service/strategies/base.py:142-143 | dividing both sums by the period does not change the RSI |
| LumibotCommon.RecentChanges | lumibot-service/strategies/base.py:139-140 | the last period changes, exactly period of them when there are period + 1 prices |
| LumibotCommon.LastPeriodRsi | lumibot-service/strategies/base.py:132-151 | 50 with fewer than period + 1 prices; otherwise the RSI of the last period changes; always within [0, 100] |
| LumibotCommon.RsiOfRisingSeries | lumibot-service/strategies/base.py:132-151 | a series that never falls has RSI 100 |
| LumibotCommon.RsiOfFallingSeries | lumibot-service/strategies/base.py:132-151 | a series that only falls over the window has RSI 0 |
| LumibotCommon.TrueRangeIsLargest | lumibot-service/strategies/extended_strategies.py:163-167 | the true range is the largest of its three candidates and hence never negative |
| LumibotCommon.TrueRangesLength | lumibot-service/strategies/extended_strategies.py:162-168 | one true range per bar after the first |
| LumibotCommon.TrueRangesIndex | lumibot-service/strategies/extended_strategies.py:162-168 | true range i compares bar i + 1 with the close of bar i |
| LumibotCommon.CalculateAtr | lumibot-service/strategies/extended_strategies.py:156-170 | the loop and the average yield the ATR: the last period true ranges summed over period, or 0 without any |
| LumibotCommon.AtrBounds | lumibot-service/strategies/extended_strategies.py:156-170 | the ATR is never negative and never above the largest true range it averages |
| LumibotCommon.AtrShortHistory | lumibot-service/strategies/extended_strategies.py:170 | with fewer true ranges than the period, the divisor is still the period |
| LumibotCommon.AverageOfLast | lumibot-service/strategies/extended_strategies.py:170 | the average of the last period terms in [0, top] lies in [0, top] |
| LumibotCommon.Multiplier | lumibot-service/strategies/extended_strategies.py:395 | the smoothing multiplier 2 / (period + 1) lies in (0, 1] |
| LumibotCommon.EmaStepWithin | lumibot-service/strategies/extended_strategies.py:401-402 | one EMA step stays within any bounds holding both the previous EMA and the price |
| LumibotCommon.EmaAfterPrefix | lumibot-service/strategies/extended_strategies.py:397-402 | the EMA only depends on the prices it has folded |
| LumibotCommon.EmaAfterWithin | lumibot-service/strategies/extended_strategies.py:397-402 | every SMA-seeded EMA lies within any bounds of the prices |
| LumibotCommon.CalculateEmaValue | lumibot-service/strategies/extended_strategies.py:390-404 | the loop yields the EMA value: the last price, or 0, when too short; otherwise the SMA seed folded over the later prices |
| LumibotCommon.EmaValueWithin | lumibot-service/strategies/extended_strategies.py:390-404 | the EMA value lies within any bounds of the prices |
| LumibotCommon.SafetyOrderPositive | lumibot-service/strategies/extended_strategies.py:263 | a safety order of a positive base and multiplier is positive |
| LumibotCommon.SafetyOrderSize | lumibot-service/strategies/extended_strategies.py:263 | the safety order size at a level is positive |
| LumibotCommon.PowGrows | lumibot-service/strategies/extended_strategies.py:263 | with a multiplier of at least one, each safety order is at least as large as the previous and the base |
| LumibotCommon.SizesPositive | lumibot-service/strategies/extended_strategies.py:274 | the total size of positive fills is positive exactly when there is a fill |
| LumibotCommon.DcaBookAppend | lumibot-service/strategies/extended_strategies.py:269-276 | a buy keeps the totals equal to the sums over the entries and the average equal to invested / size |
| LumibotCommon.DcaBookEmpty | lumibot-service/strategies/extended_strategies.py:241-245 | the reset book is consistent |
| LumibotCommon.DcaBought | lumibot-service/strategies/extended_strategies.py:269-276 | after a buy the average entry is defined |
| LumibotCommon.DcaBoughtKeepsBook | lumibot-service/strategies/extended_strategies.py:254-276 | a buy below the level limit keeps the cost basis consistent with the entries and the entries within the limit |
| LumibotCommon.InvestedBounds | lumibot-service/strategies/extended_strategies.py:274 | the invested amount lies between the cheapest and the dearest fill price times the total size |
| LumibotCommon.AverageWithinFills | lumibot-service/strategies/extended_strategies.py:276 | the average entry lies between the cheapest and the dearest fill |
| LumibotCommon.CrossMoveCases | lumibot-service/strategies/extended_strategies.py:348-383 | enter exactly on a bullish cross after a stored pair and with nothing held; exit exactly on a bearish cross with something held |
| LumibotCommon.CrossMoveNoRepeat | lumibot-service/strategies/extended_strategies.py:385-386 | once the new pair is stored, the next reading cannot repeat the same cross |
| LumibotCommon.Appended | lumibot-service/strategies/extended_strategies.py:19-29 | an emitted signal is appended to the signal list, and nothing else is |
| LumibotExtended.SupertrendFlips | lumibot-service/strategies/extended_strategies.py:129-154 | the direction stays ±1 and turns up only on a close above the upper band, down only on one below the lower band, with the line on the opposite band |
| LumibotExtended.SupertrendHoldsInside | lumibot-service/strategies/extended_strategies.py:147-150 | inside the bands the direction is kept, and the line is the stored value when truthy, otherwise the latest midpoint |
| LumibotExtended.SupertrendTradeCases | lumibot-service/strategies/extended_strategies.py:80-126 | an order goes out exactly with a signal; the new line and direction are stored; a BUY needs a turn up from −1 with nothing held and a SELL a turn down from 1 with something held |
| LumibotExtended.SupertrendTradesOnBands | lumibot-service/strategies/extended_strategies.py:80-126 | a BUY happens only on a close above the upper band and a SELL only below the lower band, and neither signal follows itself in the next iteration |
| LumibotExtended.SupertrendStrategy.constructor | lumibot-service/strategies/extended_strategies.py:32-56 | a new strategy holds its parameters, no signal or entry, no line and direction 1 |
| LumibotExtended.SupertrendStrategy.CalculateSupertrend | lumibot-service/strategies/extended_strategies.py:129-154 | the line and direction are those of the latest bar's bands with the stored state |
| LumibotExtended.SupertrendStrategy.OnTradingIteration | lumibot-service/strategies/extended_strategies.py:58-126 | no or too few bars change nothing; otherwise fields, orders and signal are the supertrend step on the computed line, and the signal is appended |
| LumibotExtended.DcaOrderSizeCases | lumibot-service/strategies/extended_strategies.py:248-263 | a buy happens only below the level limit: the base size without a position, otherwise the safety order of the level once the price has dropped by the threshold from the average |
| LumibotExtended.DcaStepKeepsBook | lumibot-service/strategies/extended_strategies.py:205-293 | an iteration keeps the cost basis consistent with the entries and within the level limit |
| LumibotExtended.DcaStepTrades | lumibot-service/strategies/extended_strategies.py:205-293 | an order goes out exactly with a signal; no bars change nothing; a take profit sells the total size and empties the book; a buy adds the entry |
| LumibotExtended.DcaStrategy.constructor | lumibot-service/strategies/extended_strategies.py:173-203 | a new strategy holds its parameters and an empty book |
| LumibotExtended.DcaStrategy.OnTradingIteration | lumibot-service/strategies/extended_strategies.py:205-293 | fields, orders and signal are the DCA step; the book stays consistent and the signal is appended |
| LumibotExtended.EmaCrossStepTrades | lumibot-service/strategies/extended_strategies.py:322-388 | with enough bars the new EMA pair is stored, and BUY and SELL happen exactly on the stored-pair crossings with the holding condition |
| LumibotExtended.EmaCrossNoRepeat | lumibot-service/strategies/extended_strategies.py:348-386 | two consecutive iterations on the same bars cannot emit the same signal twice |
| LumibotExtended.EmaCrossStrategy.constructor | lumibot-service/strategies/extended_strategies.py:294-320 | a new strategy holds its parameters and no stored EMAs |
| LumibotExtended.EmaCrossStrategy.OnTradingIteration | lumibot-service/strategies/extended_strategies.py:322-388 | fields, orders and signal are the EMA cross step, and the signal is appended |
| LumibotExtended.BreakoutAsWrittenNeverEnters | lumibot-service/strategies/extended_strategies.py:452-483 | as written, the range includes the current bar, so on well-formed bars the close never exceeds the range high and no breakout buy can happen |
| LumibotExtended.PriorRangeBounds | lumibot-service/strategies/extended_strategies.py:452-453 | the corrected range over the lookback bars before the current one bounds them and is attained |
| LumibotExtended.PriorRangePositive | lumibot-service/strategies/extended_strategies.py:454 | on priced bars the range low is positive, so the range size is defined |
| LumibotExtended.BreakoutEntryAbove | lumibot-service/strategies/extended_strategies.py:481-483 | a corrected breakout closes above every high of the range |
| LumibotExtended.BreakoutCorrectedFires | lumibot-service/strategies/extended_strategies.py:452-483 | on a tight range followed by a higher close the corrected entry fires where the written one does not |
| LumibotExtended.BreakoutStopLoss | lumibot-service/strategies/extended_strategies.py:444-478 | an order goes out exactly with a signal, and STOP_LOSS is emitted exactly when at least `lookback` bars arrived, something is held with an entry and the loss reaches the threshold; it sells the whole position and clears the entry |
| LumibotExtended.BreakoutBuy | lumibot-service/strategies/extended_strategies.py:480-503 | BREAKOUT_BUY is emitted exactly when more than `lookback` bars arrived, nothing is held, the range of the previous bars is tight and the close breaks above it; it buys the configured size, stores the entry and range, and the close exceeds every high of the range |
| LumibotExtended.BreakoutStrategy.constructor | lumibot-service/strategies/extended_strategies.py:407-432 | a new strategy holds its parameters, no entry and no range |
| LumibotExtended.BreakoutStrategy.OnTradingIteration | lumibot-service/strategies/extended_strategies.py:434-505 | fields, orders and signal are the corrected breakout step: fewer than `lookback` bars do nothing, the stop-loss runs from `lookback` bars on, the entry from one bar more; the signal is appended |
| LumibotExtended.ExtendedRegistry | lumibot-service/strategies/extended_strategies.py:507-522 | the registry lists supertrend, dca, ema_cross and breakout in that order, and a lookup fails exactly for other names |
| LumibotCitarion.LastEmitted | lumibot-service/strategies/citarion_integration.py:458-461 | the iteration returns nothing exactly when nothing was emitted, otherwise the last signal emitted |
| LumibotCitarion.DcaIntegrationNeverSignals | lumibot-service/strategies/citarion_integration.py:79-90 | as written the iteration raises exactly when the bar-count guard passes, and otherwise returns nothing and changes nothing |
| LumibotCitarion.DcaIntegrationCrashes | lumibot-service/strategies/citarion_integration.py:85-90 | thirty flat bars with the default period of 20 already raise the NameError |
| LumibotCitarion.DcaIntegrationKeepsBook | lumibot-service/strategies/citarion_integration.py:79-156 | the corrected iteration keeps the cost basis consistent with the entries and within the safety-order limit |
| LumibotCitarion.DcaIntegrationSignals | lumibot-service/strategies/citarion_integration.py:103-156 | the corrected iteration never orders; DCA_TAKE_PROFIT exactly when the take profit is due, emptying the book; DCA_BUY exactly when it is not, a level is free, RSI is oversold and the close is under the lower band, adding an entry at the close of the level's size; no signal leaves the book unchanged |
| LumibotCitarion.DcaIntegrationStrategy.constructor | lumibot-service/strategies/citarion_integration.py:32-77 | a new strategy holds its parameters and an empty book |
| LumibotCitarion.DcaIntegrationStrategy.OnTradingIteration | lumibot-service/strategies/citarion_integration.py:79-156 | the fields and signal are the corrected DCA step on the bars, the book stays consistent, and the signal is appended |
| LumibotCitarion.GridSpacingBounds | lumibot-service/strategies/citarion_integration.py:243-246 | the spacing is the ATR fraction times the multiplier, clamped into the minimum and maximum spacing |
| LumibotCitarion.SupportResistanceBounds | lumibot-service/strategies/citarion_integration.py:323-334 | support and resistance bound every bar of the lookback window and are each attained by one of them |
| LumibotCitarion.GridBoundsWithin | lumibot-service/strategies/citarion_integration.py:251-253 | the grid lies between support and resistance, and holds the price when the price does |
| LumibotCitarion.GridRebalanceCases | lumibot-service/strategies/citarion_integration.py:226-306 | GRID_REBALANCE exactly when there is no grid, the price left it, the spacing moved by more than 20 % or a day passed; it stores the new grid and time, otherwise nothing changes, and no order is placed |
| LumibotCitarion.GridSettles | lumibot-service/strategies/citarion_integration.py:255-306 | right after a rebalance, the same bars at the same time do not rebalance again |
| LumibotCitarion.GridHoldsPrice | lumibot-service/strategies/citarion_integration.py:249-253 | the grid laid from the latest bars contains the latest close and keeps the spacing it was given |
| LumibotCitarion.NoReasonsAfterRebalance | lumibot-service/strategies/citarion_integration.py:262-277 | a grid containing the price with the same non-zero spacing, rebalanced at the same time, gives no reason to rebalance |
| LumibotCitarion.GridIntegrationStrategy.constructor | lumibot-service/strategies/citarion_integration.py:190-224 | a new strategy holds its parameters and no grid |
| LumibotCitarion.GridIntegrationStrategy.OnTradingIteration | lumibot-service/strategies/citarion_integration.py:226-321 | fewer than 50 bars change nothing; otherwise the fields and signal are the grid step with the ATR of the bars, and the signal is appended |
| LumibotCitarion.PercentBScale | lumibot-service/strategies/citarion_integration.py:395 | %B is 0.5 on flat bands, otherwise the position of the price between the bands, 0 at the lower and 1 at the upper |
| LumibotCitarion.BbSqueezeLatch | lumibot-service/strategies/citarion_integration.py:398-419 | after every iteration the latch says whether the bandwidth is under the threshold, and BB_SQUEEZE is emitted exactly when it falls under it with the latch open |
| LumibotCitarion.BbSqueezeOnce | lumibot-service/strategies/citarion_integration.py:398-419 | the iteration after a BB_SQUEEZE cannot emit it again |
| LumibotCitarion.BbTouches | lumibot-service/strategies/citarion_integration.py:421-456 | the last signal is a lower touch exactly under 5 % %B, an upper touch exactly over 95 %, a middle return exactly between 45 % and 55 % right after a touch |
| LumibotCitarion.BbLastSignal | lumibot-service/strategies/citarion_integration.py:398-461 | at most two signals per iteration, and the stored last signal is the last one emitted, or unchanged |
| LumibotCitarion.BbIntegrationStrategy.constructor | lumibot-service/strategies/citarion_integration.py:337-372 | a new strategy holds its parameters, no last signal and an open latch |
| LumibotCitarion.BbIntegrationStrategy.OnTradingIteration | lumibot-service/strategies/citarion_integration.py:374-461 | too few bars change nothing; otherwise the fields are the BB step on the close and bands and its signals are appended |
| LumibotCitarion.RunningMean | lumibot-service/strategies/citarion_integration.py:526-529 | the incremental update of the average volume is the mean of the samples including the new one |
| LumibotCitarion.ArgusSignals | lumibot-service/strategies/citarion_integration.py:519-566 | a whale move is reported exactly on a relative move beyond the threshold, and first; a volume spike exactly when the latest volume exceeds the threshold times a positive average; one sample is added |
| LumibotCitarion.ArgusIntegrationStrategy.constructor | lumibot-service/strategies/citarion_integration.py:477-508 | a new strategy holds its parameters, no samples and a zero average |
| LumibotCitarion.ArgusIntegrationStrategy.OnTradingIteration | lumibot-service/strategies/citarion_integration.py:510-566 | fewer than 20 bars change nothing; otherwise the fields are the Argus step, the average stays the mean of every sampled volume, and the signals are appended |
| LumibotCitarion.CitarionRegistry | lumibot-service/strategies/citarion_integration.py:570-585 | the registry lists the four integration strategies in order, and a lookup fails exactly for other names |
| LumibotBase.RsiTradeCases | lumibot-service/strategies/base.py:86-130 | a BUY of the position size exactly when oversold and flat, recording the entry; a SELL of the held quantity exactly when overbought and holding, clearing it; no order exactly when no signal, and then nothing changes |
| LumibotBase.RsiStrategy.constructor | lumibot-service/strategies/base.py:32-58 | a new strategy holds its parameters, no last signal and no entry |
| LumibotBase.RsiStrategy.OnTradingIteration | lumibot-service/strategies/base.py:60-151 | too few bars change nothing and order nothing; otherwise fields, orders and signal are the RSI step on the last close and the RSI of the closes, and the signal is appended |
| LumibotBase.Ema | lumibot-service/strategies/base.py:263-271 | the array the loop fills is the EMA series of the data: the first value, then each value moved towards the next price by the smoothing factor |
| LumibotBase.EmaAtWithin | lumibot-service/strategies/base.py:263-271 | every EMA value lies between the smallest and the largest price it was computed from |
| LumibotBase.EmaSeriesWithin | lumibot-service/strategies/base.py:263-271 | the whole EMA series stays within the range of the prices |
| LumibotBase.Subtract | lumibot-service/strategies/base.py:252-259 | the element-wise difference of the two arrays, as numpy subtraction computes it |
| LumibotBase.CalculateMacd | lumibot-service/strategies/base.py:242-261 | the three arrays are the MACD line, its signal EMA and their difference, one value per price |
| LumibotBase.MacdFlat | lumibot-service/strategies/base.py:242-261 | on a flat price series the MACD line and the histogram are zero throughout |
| LumibotBase.MacdTradeCases | lumibot-service/strategies/base.py:202-240 | a buy exactly on a bullish histogram cross while flat, a sell of the held quantity exactly on a bearish one while holding; no order exactly when no signal, and then nothing changes |
| LumibotBase.MacdFlatNeverTrades | lumibot-service/strategies/base.py:192-240 | on a flat market the MACD strategy never orders |
| LumibotBase.MacdStrategy.constructor | lumibot-service/strategies/base.py:154-177 | a new strategy holds its parameters, no last signal and no entry |
| LumibotBase.MacdOneBar | lumibot-service/strategies/base.py:242-271 | on a single price the MACD histogram is [0], so neither cross test of the iteration reads `histogram[-2]` |
| LumibotBase.MacdStrategy.OnTradingIteration | lumibot-service/strategies/base.py:179-240 | too few bars change nothing and order nothing; past the guard an empty bar list raises the IndexError of `_ema` (exactly when slow + signal period is 0), a single bar orders nothing and changes nothing, and otherwise fields, orders and signal are the MACD step on the MACD of the closes, with the signal appended |
| LumibotBase.MacdStrategy.TradeOnCloses | lumibot-service/strategies/base.py:192-240 | on a single close nothing is ordered, emitted or changed; on two or more, fields, orders and signal are the MACD step on the MACD of the closes at the latest close, with the signal appended |
| LumibotBase.LevelDistance | lumibot-service/strategies/base.py:429-445 | neighbouring buy levels, and neighbouring sell levels, are one spacing of the centre price apart |
| LumibotBase.GridLevelsOrdered | lumibot-service/strategies/base.py:429-445 | buy levels fall strictly away from the centre, sell levels rise strictly away from it, and every buy level lies below the centre and every sell level above it |
| LumibotBase.GridLevelsWithinBounds | lumibot-service/strategies/base.py:416-445 | every level lies inside the lower and upper grid prices |
| LumibotBase.LayGrid | lumibot-service/strategies/base.py:428-445 | the two loops produce the buy and sell levels and one limit order per level, buys first, each for the position size |
| LumibotBase.GridStrategy.constructor | lumibot-service/strategies/base.py:370-393 | a new strategy holds its parameters, no grid and not initialized |
| LumibotBase.GridStrategy.SetupGrid | lumibot-service/strategies/base.py:414-454 | the stored grid is the grid around the price: the centre, the bounds and levels // 2 buy and sell levels; the orders are a limit buy at each buy level then a limit sell at each sell level; GRID_INITIALIZED is appended |
| LumibotBase.GridStrategy.OnTradingIteration | lumibot-service/strategies/base.py:395-412 | no bars or an initialized grid change and order nothing; otherwise the stored grid is the grid around the last close, the orders are its limit orders, GRID_INITIALIZED with its bounds is appended, and the strategy is initialized |
| LumibotBase.BaseRegistry | lumibot-service/strategies/base.py:463-476 | the registry lists rsi_reversal, macd_trend, bollinger_reversion and grid_trading in that order, and a lookup fails exactly for other names |
| LumibotStrategies.FirstPeriodRsi | lumibot-service/strategies.py:99-127 | no RSI exactly when there are fewer than period + 1 closes; otherwise a value between 0 and 100 |
| LumibotStrategies.CalculateRsi | lumibot-service/strategies.py:99-127 | the loop over the bars yields the RSI of the first period of closes |
| LumibotStrategies.CloseChanges | lumibot-service/strategies.py:104-108 | the loop collects exactly the change from each close to the next, in order |
| LumibotStrategies.DeltasExtend | lumibot-service/strategies.py:106-108 | each pass of the loop appends the difference of the current and previous close, so the changes collected are a prefix of the close-to-close changes |
| LumibotStrategies.RsiOfRatio | lumibot-service/strategies.py:124-125 | with a positive average loss, `100 - 100 / (1 + rs)` with rs the gain over the loss is the RSI of the averages |
| LumibotStrategies.FirstPeriodRsiIgnoresLater | lumibot-service/strategies.py:113-127 | the RSI depends only on the first period + 1 closes, whatever comes after them |
| LumibotStrategies.FirstPeriodRsiOnShortWindow | lumibot-service/strategies.py:113-127 | on exactly period + 1 closes the first-period RSI agrees with the latest-period RSI of the other strategies |
| LumibotStrategies.EmaList | lumibot-service/strategies.py:249-260 | no EMA list exactly when there are fewer values than the period; otherwise one value per price from the period-th on |
| LumibotStrategies.CalculateEma | lumibot-service/strategies.py:249-260 | the loop yields the EMA list of the data |
| LumibotStrategies.EmaListShape | lumibot-service/strategies.py:249-260 | the list starts at the simple mean of the first period values, ends at the latest EMA, and stays within the range of the data |
| LumibotStrategies.MacdFrom | lumibot-service/strategies.py:233-247 | the histogram is the MACD line minus its signal |
| LumibotStrategies.MacdTail | lumibot-service/strategies.py:233-247 | with fewer values than the signal period no MACD; otherwise the last paired value, the last value of its EMA and their difference |
| LumibotStrategies.PairFromStart | lumibot-service/strategies.py:228-231 | the loop as written pairs the two EMA lists index by index from the front, as long as the shorter one |
| LumibotStrategies.PairFromEnd | lumibot-service/strategies.py:228-231 | the corrected loop pairs the two EMA lists aligned at their last values, as long as the shorter one |
| LumibotStrategies.CalculateMacd | lumibot-service/strategies.py:216-247 | the method as written computes the front-paired MACD |
| LumibotStrategies.CalculateMacdAligned | lumibot-service/strategies.py:216-247 | the corrected method computes the MACD with the lists aligned at the latest bar |
| LumibotStrategies.MacdAsWrittenStale | lumibot-service/strategies.py:228-244 | as written, the MACD line subtracts the latest slow EMA from a fast EMA that stops slow − fast bars before the latest close |
| LumibotStrategies.MacdAlignedLatest | lumibot-service/strategies.py:228-244 | aligned, the MACD line is the latest fast EMA minus the latest slow EMA |
| LumibotStrategies.MacdMisalignmentExample | lumibot-service/strategies.py:228-231 | on closes 0, 0, 3 with periods 1 and 2 the written line is −2 while the aligned one is 1 |
| LumibotStrategies.CrossStepCases | lumibot-service/strategies.py:189-212 | the pair is always stored; BUY exactly on a cross up of a stored pair while flat, buying cash × size / price; SELL exactly on a cross down while holding, selling all; no order exactly when no signal |
| LumibotStrategies.MacdTrendStrategy.constructor | lumibot-service/strategies.py:151-161 | a new strategy holds its parameters and no stored MACD |
| LumibotStrategies.MacdTrendStrategy.OnTradingIteration | lumibot-service/strategies.py:163-214 | too few bars or no MACD change nothing; otherwise orders, signal and the stored pair are the cross step on the aligned MACD line and signal |
| LumibotStrategies.EmaCrossStrategy.constructor | lumibot-service/strategies.py:443-450 | a new strategy holds its parameters and no stored EMAs |
| LumibotStrategies.EmaCrossStrategy.OnTradingIteration | lumibot-service/strategies.py:452-496 | too few bars change nothing; otherwise orders, signal and the stored pair are the cross step on the latest fast and slow EMAs |
| LumibotStrategies.RsiReversalCrashes | lumibot-service/strategies.py:45-53 | as written every iteration with bars raises, and without bars returns with nothing changed |
| LumibotStrategies.RsiReversalCases | lumibot-service/strategies.py:45-97 | with the period name corrected: BUY exactly when there are enough bars, RSI is oversold and nothing is held, buying cash × size / price; SELL exactly when overbought and holding, selling all; otherwise no order and the record is unchanged |
| LumibotStrategies.RsiReversalStrategy.constructor | lumibot-service/strategies.py:34-43 | a new strategy holds its parameters and no signal record |
| LumibotStrategies.RsiReversalStrategy.OnTradingIteration | lumibot-service/strategies.py:45-127 | orders, signal and record are the corrected RSI reversal step |
| LumibotStrategies.GridLevelEnds | lumibot-service/strategies.py:400-407 | the first level is the lower bound and the last the upper bound |
| LumibotStrategies.GridLayoutSides | lumibot-service/strategies.py:406-418 | the grid book holds exactly the levels other than the price, a level being a buy exactly when it is under the price |
| LumibotStrategies.GridOrdersSides | lumibot-service/strategies.py:406-418 | every order is a limit order for the position size, a buy strictly under the price or a sell strictly over it |
| LumibotStrategies.GridLevels | lumibot-service/strategies.py:400-407 | there are grid_levels levels |
| LumibotStrategies.LayLevels | lumibot-service/strategies.py:406-418 | the loop yields the grid book and the orders of the levels |
| LumibotStrategies.GridTradingStrategy.constructor | lumibot-service/strategies.py:366-376 | a new strategy holds its parameters, an empty book and no grid |
| LumibotStrategies.GridTradingStrategy.InitializeGrid | lumibot-service/strategies.py:390-418 | without bars nothing happens; otherwise the book gains the layout of the levels around the centre (the configured one, or the last close) and the orders are theirs |
| LumibotStrategies.GridTradingStrategy.OnTradingIteration | lumibot-service/strategies.py:378-388 | afterwards the grid counts as initialized, even without bars; an initialized grid changes and orders nothing |
| LumibotStrategies.StrategyRegistryLookup | lumibot-service/strategies.py:504-515 | the registry lists the five strategies in order, and a lookup fails exactly for other ids |
| LumibotAi.CalculateIndicators | lumibot-service/strategies/ai_strategies.py:118-144 | no indicators exactly under 20 prices; otherwise an RSI in [0, 100] within half a hundredth of the unrounded RSI of the last 14 changes, a 20-bar mean within half a hundredth of the unrounded one, and the price counts as above its SMA exactly when the last price exceeds the unrounded 20-bar mean |
| LumibotAi.RoundHalfEven | lumibot-service/strategies/ai_strategies.py:138-140 | the integer within one half of y, as `round` picks it |
| LumibotAi.Round2Bounds | lumibot-service/strategies/ai_strategies.py:138-140 | `round(x, 2)` is the nearest whole number of hundredths, so within half a hundredth of x, and in [0, 100] when x is |
| LumibotAi.RoundedBounds | lumibot-service/strategies/ai_strategies.py:138-140 | the rounded value is under 30 exactly when x is under 29.995 and over 70 exactly when x is over 70.005 |
| LumibotAi.IndicatorsOfFlat | lumibot-service/strategies/ai_strategies.py:118-162 | on a flat series both means are the price rounded to hundredths, the trend is neutral, the RSI is 100 and the price is not above its mean |
| LumibotAi.AiAnalysisCases | lumibot-service/strategies/ai_strategies.py:164-187 | BUY exactly on RSI under 30 with a trend that is not bearish, SELL exactly on RSI over 70 with one that is not bullish, HOLD otherwise at confidence 0.5; a trade signal has confidence 0.8 |
| LumibotAi.AiDecisionOnRawRsi | lumibot-service/strategies/ai_strategies.py:118-187 | on at least 20 prices the analysis says BUY exactly when the unrounded RSI is under 29.995 and the trend is not bearish, SELL exactly when it is over 70.005 and the trend is not bullish |
| LumibotAi.FlatMarketSells | lumibot-service/strategies/ai_strategies.py:118-187 | a perfectly flat market reads as overbought and the analysis says SELL |
| LumibotAi.RisingMarketNeverBuys | lumibot-service/strategies/ai_strategies.py:118-187 | a market whose closes never fall has RSI 100, so the analysis never says BUY |
| LumibotAi.AiTradeCases | lumibot-service/strategies/ai_strategies.py:80-116 | a buy of the position size exactly on a confident BUY while flat, recording the entry; a sell of the held quantity exactly on a confident SELL while holding, clearing it; no order exactly when no signal, and then nothing changes |
| LumibotAi.AiThresholdAboveCeiling | lumibot-service/strategies/ai_strategies.py:80-116 | with a confidence threshold above 0.8 the strategy never trades, whatever the market |
| LumibotAi.AiTradingStrategy.constructor | lumibot-service/strategies/ai_strategies.py:12-46 | a new strategy holds its parameters, no last signal and no entry |
| LumibotAi.AiTradingStrategy.OnTradingIteration | lumibot-service/strategies/ai_strategies.py:48-116 | fewer than 20 bars change nothing; otherwise fields, orders and signal are the AI step on the analysis of the indicators of the closes, and the signal is appended |
| LumibotAi.AiTradingStrategy.Trade | lumibot-service/strategies/ai_strategies.py:80-116 | fields, orders and signal are the AI step on the given indicators and their analysis, and the signal is appended |
| LumibotAi.ClampScore | lumibot-service/strategies/ai_strategies.py:289-292 | the score lies in [−1, 1] and equals the draw when the draw already does |
| LumibotAi.SentimentTradeCases | lumibot-service/strategies/ai_strategies.py:245-277 | a buy exactly when the score exceeds the threshold while flat; a sell of the held quantity exactly when it is under minus the threshold while holding; no order exactly when no signal, and then nothing changes |
| LumibotAi.SentimentThresholdAtOne | lumibot-service/strategies/ai_strategies.py:245-292 | with a threshold of 1 or more the strategy never trades, whatever the draw |
| LumibotAi.SentimentStrategy.constructor | lumibot-service/strategies/ai_strategies.py:202-224 | a new strategy holds its parameters, no last signal and no entry |
| LumibotAi.SentimentStrategy.OnTradingIteration | lumibot-service/strategies/ai_strategies.py:226-277 | no bars change nothing; otherwise fields, orders and signal are the sentiment step on the clamped draw, and the signal is appended |
| LumibotAi.AnalyzeAssetCases | lumibot-service/strategies/ai_strategies.py:392-417 | the RSI lies in [0, 100] and the price is the last close; BUY exactly above the 20-bar mean with RSI under 70, SELL exactly below it with RSI over 30, HOLD exactly at confidence 0.5 |
| LumibotAi.AnalyzeFlatHolds | lumibot-service/strategies/ai_strategies.py:392-417 | a flat market is a HOLD |
| LumibotAi.AnalyzeRisingNeverBuys | lumibot-service/strategies/ai_strategies.py:392-435 | a market whose closes never fall never reads as BUY |
| LumibotAi.Visit | lumibot-service/strategies/ai_strategies.py:344-390 | one symbol's turn keeps the portfolio's set of symbols |
| LumibotAi.Run | lumibot-service/strategies/ai_strategies.py:344-390 | the turns over all symbols keep the portfolio's set of symbols |
| LumibotAi.BuyTurnSkipped | lumibot-service/strategies/ai_strategies.py:360 | a BUY analysis while holding, or with the count at the cap, changes nothing |
| LumibotAi.BuyTurnTaken | lumibot-service/strategies/ai_strategies.py:360-373 | a BUY analysis while flat under the cap submits one buy and records the entry at the close with the position stored as the bookkeeping says |
| LumibotAi.FirstTurn | lumibot-service/strategies/ai_strategies.py:336-373 | from an empty portfolio a BUY turn buys once and counts one position |
| LumibotAi.FirstIteration | lumibot-service/strategies/ai_strategies.py:336-390 | with a cap of one, the first iteration buys the first symbol only |
| LumibotAi.SecondIterationAsWritten | lumibot-service/strategies/ai_strategies.py:338-373 | as written the next iteration counts no held position, because the stored position is the one reported before the buy, and buys a second symbol above the cap of one |
| LumibotAi.SecondIterationFixed | lumibot-service/strategies/ai_strategies.py:338-373 | with the bought quantity stored, the next iteration sees the cap reached and buys nothing |
| LumibotAi.VisitFixedCapped | lumibot-service/strategies/ai_strategies.py:338-390 | with the fix, a turn keeps the number of held positions within the cap |
| LumibotAi.SellTurnClears | lumibot-service/strategies/ai_strategies.py:375-390 | a sold turn that raises leaves the portfolio as it was, and one that does not clears the symbol's entry and nothing else |
| LumibotAi.RunFixedCapped | lumibot-service/strategies/ai_strategies.py:336-390 | with the fix, a whole iteration keeps the number of held positions within the cap |
| LumibotAi.RunTurns | lumibot-service/strategies/ai_strategies.py:344-390 | the loop over the symbols computes the run of their turns and keeps the set of symbols |
| LumibotAi.MultiAssetStrategy.constructor | lumibot-service/strategies/ai_strategies.py:324-334 | a new strategy has one empty entry per symbol and holds nothing |
| LumibotAi.MultiAssetStrategy.OnTradingIteration | lumibot-service/strategies/ai_strategies.py:336-390 | portfolio, orders, error and signals are those of the fixed run over the symbols, and the cap on held positions is kept |
| LumibotAi.AdvancedStrategiesLookup | lumibot-service/strategies/ai_strategies.py:451-455 | the registry lists ai_trading, sentiment and multi_asset in order, and a lookup fails exactly for other ids |

## Left out

- Statistics built on square roots and powers are not modelled: annualised return, volatility, Sharpe, Sortino and Calmar ratios (iaf-service/backtesting/engine.py:472-508). They are floating-point numerics.
- The ewm- and rolling-std indicators are not modelled as computations: ema, rsi, macd, bollinger_bands, stochastic, adx, vwap and ichimoku (iaf-service/strategies/indicators.py). They appear only as registry entries. The built-in strategies take their columns as inputs.
- The Bollinger-band strategies of lumibot-service/strategies/base.py and lumibot-service/strategies.py are not modelled. They rest on `np.std` and `** 0.5`. The citarion integrations that read Bollinger bands take the three bands as an input.
- LumibotAi.CalculateIndicators: the volatility figure is not modelled. Neither is its loop's division by each of the first 19 closes (lumibot-service/strategies/ai_strategies.py:131), so a zero among those closes, which raises `ZeroDivisionError` in the source, does not abort the model. `round(x, 2)` is applied to the exact value, a tie going to the even hundredth; Python rounds the binary float nearest to it, which can fall on the other side of a tie. So the decisions of LumibotAi.AiAnalysis on the rounded RSI (BUY below 29.995, SELL above 70.005 on the unrounded value) may differ from the source's at those two ties.
- LumibotAi.AiTradingStrategy.OnTradingIteration: computes its indicators through LumibotAi.CalculateIndicators. So a zero among the first 19 closes of the window, on which the source's volatility loop raises `ZeroDivisionError` and the iteration aborts, still yields an analysis in the model.
- Floating point is modelled as exact `real` arithmetic. There is no rounding, overflow, infinity or NaN beyond the `None` of a pandas column and the infinite profit factor, which has its own case.
- Wall-clock times, `uuid4` ids and the `pos_`/`trade_` string formatting are inputs or plain counters. So are the signal timestamps and ids.
- `StopLossRule.check_time_limit`, `PositionState.holding_time` and every `to_dict` serialiser are not modelled, because they only read the clock or format output.
- Network data providers, the FastAPI layers, `simulate_backtest`, configuration and `__init__` re-export modules are not part of this model. `async`, logging and concurrency are left out too.
- pandas details are not modelled: index alignment, dtype conversion, and the timestamp parsing of `_filter_data_by_date`. The date filter is an order-preserving filter with inclusive bounds.
- Lumibot framework calls are replaced by inputs and outputs:
  - `get_historical_prices`, `get_position`, `get_cash` and `get_datetime` are inputs;
  - `create_order`, `submit_order`, `buy`, `sell` and `sell_all` become the returned list of orders.
- The sentiment strategy's `random.gauss` draw is an input. The fear-and-greed figure it reports is not modelled.
- `MultiAssetStrategy` keeps the symbol list fixed once it is built; reassigning `self.symbols` after `initialize` is not modelled.
- Objects are values: the aliasing of a Python dict entry that is mutated in place is not modelled. A position update replaces the position in the ledger.
- Where the source would raise `ZeroDivisionError`, `IndexError` or a pandas `ValueError` on a degenerate input, the model requires the input away rather than modelling the raise. This covers a zero price, an empty bar list, a zero-width band or a period of 0. The exception is where that raise is a finding. The members concerned follow.
- BacktestEngine.Engine.ProcessSignal: requires a non-zero entry price on a BUY, where the source divides the notional by it. Engine.Step, Engine.RunEventDriven and Engine.Run require the same of every candle. Engine.ProcessSignals and the specification functions BacktestEngine.OpenStep, BacktestEngine.SignalStep, BacktestEngine.SignalsFold and BacktestEngine.CandleStep require the same, and BacktestEngine.PlanTrades requires non-zero entry prices on the positions it closes.
- BacktestEngine.Engine.RunVectorized: requires non-zero closes and a non-zero initial capital, the divisors of the loop and of the return. BacktestEngine.VectorStep, BacktestEngine.VectorFold, BacktestEngine.VectorBar, BacktestEngine.VectorEquity and BacktestEngine.VectorAdvance require the same non-zero closes.
- PortfolioManagement.PortfolioManager.ClosePosition: requires a non-zero entry value for the closed size, the divisor of the trade's pnl percentage. PortfolioManager.ProcessSignal requires the same for SELL and CLOSE_LONG, and a non-zero price for BUY.
- PortfolioManagement.CalculatePositionSize: requires a non-zero price. Risk.CalculateSize and Risk.RiskSizingNeverIncreases require the same.
- Indicators.Sma: requires a period of at least 1, as pandas `rolling` does.
- Indicators.Crossover: requires columns of equal length, where pandas would align them by index. Indicators.Crossunder requires the same.
- The Lumibot iterations require, through `Priced`, that every high, low and close they read is positive, because they divide by closes and lows. This covers LumibotExtended, LumibotCitarion and LumibotStrategies. They also require indicator periods of at least 1.
- LumibotBase.GridStrategy.OnTradingIteration: requires a non-empty bar list, where the source would raise `IndexError` on `bars[-1]`. LumibotAi.SentimentStrategy.OnTradingIteration, LumibotExtended.DcaStrategy.OnTradingIteration, LumibotStrategies.GridTradingStrategy.InitializeGrid and LumibotStrategies.GridTradingStrategy.OnTradingIteration require the same.
- LumibotCitarion.BbIntegrationStrategy.OnTradingIteration: requires a non-zero middle band, the divisor of the bandwidth.
- LumibotAi.MultiAssetStrategy.OnTradingIteration: requires one feed per symbol.
- LumibotExtended.DcaStrategy.constructor: requires a positive base size and a positive safety-order multiplier. The source accepts any; a zero base size makes the first buy divide by a zero total size, and a negative multiplier can bring the total size back to zero. LumibotCommon.SafetyOrderSize requires the same positive base and multiplier, and LumibotCommon.DcaBought a positive bought size.
- LumibotCitarion.GridIntegrationStrategy.constructor: requires the minimum grid spacing to be at most the maximum. The source accepts a minimum above the maximum and then clamps to the maximum; the model does not cover that configuration. It also requires a positive minimum, where the source accepts 0: with a zero minimum and a flat ATR the stored spacing is 0, and the next iteration divides by it (lumibot-service/strategies/citarion_integration.py:270) and raises `ZeroDivisionError`. LumibotCitarion.RebalanceReasons and LumibotCitarion.GridTrade require a non-zero stored spacing for the same reason.
- LumibotStrategies.GridTradingStrategy.constructor: requires at least two grid levels. The source accepts 0, which lays no orders, and 1, which raises `ZeroDivisionError` on the level spacing; neither is modelled. LumibotStrategies.GridTradingStrategy.InitializeGrid and LumibotStrategies.GridTradingStrategy.OnTradingIteration require the same. LumibotStrategies.GridLevels and LumibotStrategies.LayLevels require the same.
- BacktestMetrics.CalculateMetrics: with a curve and a zero initial capital it reports no return percentage, where the source raises `ZeroDivisionError` at iaf-service/backtesting/engine.py:469. `BacktestConfig.validate` would reject that capital, but nothing on the run path calls it.
- BacktestTypes.CalculatePnlPercentage: requires a non-zero entry price, the divisor of the percentage. BacktestEngine.CloseAt, which records that percentage on the closed trade, requires the same.
- BacktestEngine.ReturnPercentage: requires a non-zero initial capital, the divisor of the return.
- BacktestEngine.Engine.OpenPosition: requires a non-zero entry price, the divisor of the quantity.
- Risk.StopLossTrailing: requires a non-zero entry price when trailing with a positive activation, where the source divides the profit by it (iaf-service/strategies/risk.py:307 and 309). Risk.ActivationProfit requires a non-zero entry price; Risk.BaseSize requires a non-zero price.
- Indicators.Supertrend: requires a period of at least 1, as the pandas `rolling` under its ATR does. Indicators.Atr requires the same.
- LumibotBase.Ema: requires a non-empty array, where the source raises `IndexError` on `data[0]`. LumibotBase.CalculateMacd requires the same of its prices.
- LumibotBase.RsiStrategy.OnTradingIteration: requires an RSI period of at least 1; with 0 the source's `deltas[-0:]` takes every change and the average divides by 0, raising `ZeroDivisionError`.
- LumibotCommon.LastPeriodRsi: requires a period of at least 1, the divisor of the average gain and loss. LumibotCommon.RecentChanges, LumibotCommon.AtrOf, LumibotCommon.CalculateAtr, LumibotCommon.EmaValue and LumibotCommon.CalculateEmaValue require the same; with 0 the source divides by zero or slices with `[-0:]`, and neither is modelled.
- LumibotCommon.LastClose: requires a non-empty bar list, where the source raises `IndexError`.
- LumibotStrategies.FirstPeriodRsi: requires a period of at least 1. LumibotStrategies.CalculateRsi, LumibotStrategies.EmaList, LumibotStrategies.CalculateEma, LumibotStrategies.MacdFrom, LumibotStrategies.CalculateMacd and LumibotStrategies.CalculateMacdAligned require the same of their periods; LumibotStrategies.CloseChanges requires at least one bar. LumibotStrategies.MacdTail requires a signal period of at least 1 too.
- LumibotStrategies.BuyQuantity: requires a non-zero price, the divisor of the quantity. LumibotStrategies.CrossStep requires the same.
- LumibotExtended.SupertrendStrategy.constructor: requires an ATR period of at least 1. LumibotExtended.SupertrendStrategy.CalculateSupertrend requires a non-empty bar list. LumibotExtended.EmaCrossStrategy.constructor, LumibotExtended.EmaCrossStrategy.OnTradingIteration and LumibotExtended.EmaCrossStep require periods of at least 1. LumibotExtended.BreakoutStrategy.constructor, LumibotExtended.BreakoutStrategy.OnTradingIteration and LumibotExtended.BreakoutStep require a lookback of at least 1.
- LumibotCitarion.SupportResistance: requires a non-empty bar list, where the source's `min` and `max` of an empty window raise `ValueError`. It also requires a lookback of at least 1; with 0 the source's `[-0:]` takes the whole history, which the model does not cover.
- LumibotCitarion.DcaIntegrationStrategy.constructor: requires an RSI period of at least 1, a positive base order size and a positive safety-order multiplier, for the reasons given for LumibotExtended.DcaStrategy.constructor. LumibotCitarion.DcaIntegrationStep requires the same.
- LumibotCitarion.ArgusTrade: requires a non-zero previous close, the divisor of the price change. LumibotCitarion.BbTrade requires a non-zero middle band.
- PortfolioManagement.CloseTrade: requires a non-zero entry value for the closed size, the divisor of the trade's pnl percentage. PortfolioManagement.PortfolioManager.BuyOnSignal requires a non-zero signal price.
- StrategyBase.StrategyRegistry.Create: runs the base TradingStrategy constructor on the given configuration. The source calls the registered class with the keyword arguments (iaf-service/strategies/base.py:379), so a built-in's own `__init__` runs instead; it builds that strategy's data sources and risk configuration. Those subclass constructors are not modelled.
- LumibotStrategies.MacdTrendStrategy.OnTradingIteration, LumibotStrategies.RsiReversalStrategy.OnTradingIteration, LumibotExtended.BreakoutStrategy.OnTradingIteration, LumibotCitarion.DcaIntegrationStrategy.OnTradingIteration, LumibotAi.MultiAssetStrategy.OnTradingIteration and PortfolioManagement.PortfolioManager.GetMetrics: these run the corrected versions of the findings below. PortfolioManager.GetMetrics reports an infinite profit factor where iaf-service/portfolio/manager.py:449 raises `ZeroDivisionError` on break-even trades and no losing trade. The code as written is modelled beside them.

## Findings

| source | as written | input that shows it | evidently intended | confidence | as-written member | corrected member |
|---|---|---|---|---|---|---|
| iaf-service/portfolio/manager.py:441-449 | the profit factor divides the sum of winning pnl by the absolute sum of losing pnl whenever there is a losing trade, and losing trades include break-even ones | one trade with pnl 10 and one with pnl 0 divide by zero and `get_metrics` raises | infinite profit factor when the losses sum to zero, as `calculate_profit_factor` of the backtester does | not executed | PortfolioManagement.ProfitFactorBreakEvenCrash | PortfolioManagement.TradesProfitFactor |
| lumibot-service/strategies/extended_strategies.py:452-483 | the breakout range takes the last `lookback` highs including the current bar, then asks for a close above that range high | bars (high 100.5, low 100, close 100) then (high 102, low 100, close 101), lookback 1, threshold 0.02: a close of 101 never exceeds its own high, so no breakout buy is ever possible | the range over the `lookback` bars before the current one | not executed | LumibotExtended.BreakoutAsWrittenNeverEnters | LumibotExtended.BreakoutEntryAbove |
| lumibot-service/strategies/citarion_integration.py:88 | the DCA integration reads the name `bands`, which is not defined, as soon as the bar-count guard passes | thirty flat bars with the default period of 20 raise NameError | the lower band of `_calculate_bollinger_bands` on the closes | not executed | LumibotCitarion.DcaIntegrationCrashes | LumibotCitarion.DcaIntegrationSignals |
| lumibot-service/strategies.py:52 | the RSI reversal guard reads `self.ri_period`, which nothing defines | any iteration that receives bars raises AttributeError | `self.rsi_period` | not executed | LumibotStrategies.RsiReversalCrashes | LumibotStrategies.RsiReversalCases |
| lumibot-service/strategies.py:228-231 | the MACD values pair the fast and slow EMA lists by index from the front, although the fast list is longer and starts earlier in time | closes 0, 0, 3 with periods 1 and 2 give a MACD line of −2 instead of 1 | the two lists aligned at the latest bar | not executed | LumibotStrategies.MacdMisalignmentExample | LumibotStrategies.MacdAlignedLatest |
| lumibot-service/strategies/ai_strategies.py:338-373 | a buy stores the position `get_position` reported before the order (None), so the next iteration's count of held positions misses it | cap 1, symbols A and B both reading BUY: the first iteration buys A, the second counts 0 held and buys B | the count includes every bought symbol, so the cap holds across iterations | not executed | LumibotAi.SecondIterationAsWritten | LumibotAi.RunFixedCapped |
