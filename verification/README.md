# Verified model of the trading core

A Dafny 4.11 model of the stateful core of the trading platform's backend and of one of its
strategies. Each part is a small state machine whose step follows the code branch by branch, with
theorems about every run of that machine. Code that changes records or fields in place is also
written as classes with methods, and each method is proved against the step it stands for.

| part | files | what it is |
|---|---|---|
| portfolio book | `PositionRows`, `Book`, `BookConservation`, `BookShape`, `BookHistory`, `BookCost`, `BookEffects`, `BookDividends`, `PnlSummary`, `Portfolio` | fills, marks, splits, dividends, cash, the realised-profit ledger and the stored equity peak, over any number of positions and cash scopes |
| backtest engine | `Backtest`, `BacktestEntries`, `BacktestExits`, `PythonExits`, `BacktestLedger`, `BacktestBounds`, `BacktestCurve`, `BacktestSampling`, `BacktestExcursions`, `BacktestRunner`, `PythonRunner`, `BacktestMetrics` | the bar-by-bar engine of the condition runner and of the Python strategy runner |
| signal pipeline | `RiskPipeline`, `Signals`, `SignalInvariant`, `SignalRuns`, `SignalVerdicts`, `SignalOrders`, `SignalServices` | creation, expiry, cancelling, the risk cycle and the order cycle, interleaved in any order |
| one-pass algorithms | `Drawdown`, `Streaks`, `RateLimiting`, `Listing`, `Downsampling` | each with an independent specification |
| streaming machines | `LondonBreakout`, `RefreshTokens` | the London breakout strategy; refresh-token rotation |

`Reals` and `Sums` hold the arithmetic and the sums over tables that the others share.

`dafny verify dfyconfig.toml` checks the whole project.

## Conventions

- Decimals and floats are exact reals; times are integers, and reals in the rate limiter. A table is a sequence of rows, and a
  row's index is its id.
- Each service call is one atomic step. What a call reads from outside (prices, check outcomes,
  executor answers, the clock, a strategy's signals, condition verdicts) is a parameter of the step
  and is arbitrary.
- Dafny's unbounded `int` stands for Python's; Python's `int()` on a decimal cuts towards zero and
  is written out.

## What the code does that one might not expect

Each of these is a lemma, with the exact condition where there is one.

- A fill that closes a position books profit on the position's quantity while cash moves by the
  fill's, so a fill larger than the position leaves cash and books apart by the difference at the
  fill price (exactly then: `BookConservation.FillConservesIff`,
  `BookConservation.OverfillIsTheOnlyDrift`; a family of runs: `BookConservation.OverfillDrifts`).
- Equity adds the market value of shorts with a plus sign (`BookConservation.EquityIdentity`).
- A split skips closed rows, so a full exit commutes with a split only when the ratio is one
  (`PositionRows.SplitCommutesWithFill`; a case: `PositionRows.FullExitDoesNotCommute`).
- Announced split rates are cut to whole numbers first; a forward rate below one leaves the first
  position open with no quantity and then raises (`BookHistory.SplitRatioLaw`,
  `BookHistory.SplitKeepsBookIff`; a case: `BookHistory.HalfForwardSplitEmptiesPosition`).
- Marks raise a stored equity peak but never create one (`BookShape.PeakIsHighWaterMark`).
- A backtest short gets back at its close an entry value that opening it did not take, so a short
  run ends with more cash than its profit explains exactly when a bar of its feeds makes it enter
  (`BacktestLedger.FinalCashIsNetPnlIff`, `BacktestEntries.RunTradesIff`; a case:
  `BacktestLedger.ShortRunOverstatesCash`).
- A stop tighter than half a pip is not respected on the entry bar, because of the slippage
  (`BacktestBounds.EntryBarExitRespectsStopIff`).
- The one-pass maximum drawdown can be too small once equity goes negative: it is the largest
  decline exactly when every fall to a negative value is matched by a fall at least as deep from a
  running peak (`Drawdown.OnePassIsMaxIff`; a series where it is not:
  `Drawdown.NegativeEquityCanBeUnderstated`).
- A signal cancelled or expired between the risk cycle's listing and its evaluation is still
  evaluated: the session keeps the listed row, so the cancellation is overwritten
  (`SignalInvariant.StaleEvaluationRevivesIff`; a run: `SignalInvariant.CanceledSignalIsRevived`).
  With the row read afresh the status would be refused and a decision left behind
  (`SignalInvariant.StaleEvaluationIff`).
- Of all that the risk checks change, only a "qty" reaches the order
  (`SignalInvariant.OnlyQtyReachesTheOrder`). The caps set an approved value instead, so an order
  can be worth many times that value (`SignalInvariant.CapIsNotApplied`).
- A sale needs no cash, and is still turned away for lack of it exactly when the cash is negative
  (`SignalOrders.SaleNeedsNoDebtIff`; a case: `SignalOrders.DebtBlocksSale`).
- A merged listing loses rows for good, on every page, exactly when the strategies' first pages
  together are longer than one page (`Listing.EveryRowIsShownIff`), that is, when more than one
  strategy has rows and the rows do not fit one page (`Listing.FirstPagesFitIff`; a family:
  `Listing.LaterPagesCanLoseRows`).
- A clock that steps back can make the rate limiter forget a grant and overfill a window: it counts
  right exactly when no earlier call has pruned a time that still counts
  (`RateLimiting.PruningIsInvisibleIff`; a sequence of calls: `RateLimiting.BackwardsClockOverfills`).
- Suspending a user through the status update revokes no token; only the suspension call does
  (`RefreshTokens.StatusChangeOnlyPauses`).

## Model

| member | source | states |
|---|---|---|
| `PositionRows.FillKeepsRow` | backend/app/portfolio/fill_processor.py:131-346 | a fill in any scenario keeps market value and unrealised profit in agreement with quantity and prices, and moves the position's signed cost by the booked profit plus the traded value; closing any part leaves the average entry alone |
| `PositionRows.SplitKeepsRow` | backend/app/portfolio/splits.py:70-95 | a split with a positive ratio preserves market value, cost, unrealised profit and the price band, and splitting back by the inverse ratio restores the row |
| `PositionRows.SplitCommutesWithFill` | backend/app/portfolio/splits.py:42-95 | split then fill in new units equals fill then split, the scenario and the booked profit included; for the row as the split processor leaves it, exactly when the fill is not a full exit or the ratio is one |
| `PositionRows.SplitCommutesWithEntry` | backend/app/portfolio/fill_processor.py:65-129 | the same for a fill that opens a position |
| `PositionRows.FullExitDoesNotCommute` | backend/app/portfolio/splits.py:42-95 | an exit of one unit before or after a two-for-one split: the closed row keeps the old price in one order and has half of it in the other |
| `BookConservation.StepConserves` | backend/app/portfolio/fill_processor.py:24-63 | any event keeps the rows consistent and changes unexplained cash by its deposit and its drift only |
| `BookConservation.RunAccounts` | backend/app/portfolio/fill_processor.py:24-63 | the same summed over any run from any consistent book |
| `BookConservation.BookConservation` | backend/app/portfolio/fill_processor.py:65-365 | after any run of fills, marks, splits, dividends, cash adjustments and initialisations: cash = deposits + gross profit in the ledger - fees + paid dividends - signed cost of open positions, plus the exact drift |
| `BookConservation.FillConservesIff` | backend/app/portfolio/fill_processor.py:260-365 | for a fill priced by the fill engine, cash and books stay together exactly when the position books the quantity the fill trades |
| `BookConservation.OverfillIsTheOnlyDrift` | backend/app/portfolio/fill_processor.py:367-386 | with one multiplier per position, that is exactly when an opposing fill is no larger than the position |
| `BookConservation.OverfillDrifts` | backend/app/portfolio/fill_processor.py:367-386 | buying any quantity and selling more of it at the same price drifts by the excess at that price |
| `BookConservation.FaithfulRunsDoNotDrift` | backend/app/paper_trading/fill_simulation/engine.py:52-62 | a run whose fills all meet that condition has no drift at all |
| `BookConservation.FairBooksBalance` | backend/app/portfolio/fill_processor.py:65-386 | after any run of engine fills that keep a position's multiplier and never exceed the position they go against: cash = deposits + gross profit - fees + dividends - signed cost of open positions, and the equity identity, with no drift term |
| `BookConservation.EquityIdentity` | backend/app/portfolio/service.py:110-117 | in every reachable book, equity = deposits + gross profit - fees + dividends + unrealised profit + twice the value of open shorts (+ drift) |
| `BookConservation.ShortTermVanishesIff` | backend/app/portfolio/service.py:110-117 | the short term is zero exactly when no open position is short |
| `BookShape.StepKeepsKeys` | backend/app/portfolio/repository.py:25-35 | at most one open position per strategy and symbol, positions keep their identity, and a closed position stays closed and unchanged |
| `BookShape.StepKeepsLedgers` | backend/app/portfolio/pnl.py:19-61 | a position's realised profit is the sum of its ledger entries' net profit, and its dividends the sum of its paid payments |
| `BookShape.StepKeepsPayments` | backend/app/portfolio/dividends.py:22-82 | at most one payment per position and announcement, and a paid payment stays paid |
| `BookShape.DividendJobsAreIdempotent` | backend/app/portfolio/dividends.py:84-148 | running the two dividend jobs again for the same day changes nothing |
| `BookShape.RunsStaySound` | backend/app/portfolio/fill_processor.py:24-63 | all of the above hold after every run |
| `BookShape.ReachableBooksAreSound` | backend/app/portfolio/fill_processor.py:24-63 | and in every book reachable from the empty one |
| `BookShape.PeakIsHighWaterMark` | backend/app/portfolio/mark_to_market.py:170-194 | short of a reset a stored peak never falls, and marks never create one |
| `BookShape.MarkedPeakCoversEquity` | backend/app/portfolio/mark_to_market.py:80-168 | after a cycle that marked something, a stored peak is the greater of the old peak and the new equity |
| `BookShape.DrawdownIffBelowPeak` | backend/app/portfolio/service.py:127-141 | the reported drawdown is never negative, is positive exactly when equity is below a positive stored peak, and exceeds 100 percent exactly when equity is then negative |
| `BookHistory.PositionsTellTheirHistory` | backend/app/portfolio/fill_processor.py:131-180 | after every run, in split-adjusted units: quantity opened = quantity held + quantity closed, the average entry lies between opening prices, and the highest and lowest are the extremes of the first fill and all marks |
| `BookHistory.LedgerQuantitiesAddUp` | backend/app/portfolio/pnl.py:19-61 | absent splits, quantity closed in the ledger plus quantity held is the quantity opened |
| `BookCost.FillKeepsUnitCost` | backend/app/portfolio/fill_processor.py:131-346 | a fill in the position's direction adds its net value to the cost basis, a partial close keeps what each remaining unit cost, a full exit leaves the basis standing |
| `BookCost.CostsTellTheirHistory` | backend/app/portfolio/fill_processor.py:65-258 | after every run, in split-adjusted units: a position never reduced has cost the sum of its opening fills' net values, and a unit still held has cost between the least and the most that a unit of some opening fill did |
| `BookEffects.FillMovesOneAccount` | backend/app/portfolio/fill_processor.py:348-365 | a fill's money moves in one account only, the broker's for a forex fill that names one and else the equities account; out for a buy, in for a sale |
| `BookEffects.ClosesAreRecorded` | backend/app/portfolio/pnl.py:19-61 | a fill against a position adds one ledger entry, for the smaller of the two quantities, with its prices, its fee and both profits; any other fill adds none |
| `BookEffects.FillTouches` | backend/app/portfolio/fill_processor.py:24-63 | a fill leaves every position but the open one of its strategy and symbol as it was |
| `BookEffects.MarksTouch` | backend/app/portfolio/mark_to_market.py:80-168 | a mark reprices exactly the open positions of open markets whose symbol has a close, at that close |
| `BookEffects.SplitsTouch` | backend/app/portfolio/splits.py:42-95 | a split restates exactly the open positions of its symbol |
| `BookEffects.InitializingAddsTheMissing` | backend/app/portfolio/service.py:314-345 | initialising adds the missing accounts with the balances asked for and leaves the others; a missing peak becomes the total cash |
| `BookDividends.ExDatePends` | backend/app/portfolio/dividends.py:22-82 | the ex-date job adds, for each open position of an announced symbol and only once, the quantity held times the announced amount, unpaid |
| `BookDividends.PayableDatePays` | backend/app/portfolio/dividends.py:84-148 | the payable-date job pays exactly the payments payable by then, and changes nothing else of any |
| `BookEffects.DividendsMoveOneAccount` | backend/app/portfolio/dividends.py:84-148 | what it pays, and no more, comes into the equities account |
| `BookDividends.PaymentsAreAccounted` | backend/app/portfolio/dividends.py:22-148 | in every reachable book, every payment is for the quantity its position held at an ex-date job of the run times the amount announced then, and none is paid before a payable-date job on or after its date |
| `BookHistory.SplitRatioLaw` | backend/app/portfolio/splits.py:53-67 | which announced rates give a usable ratio, which are applied as announced, which give the ratio zero and which divide by zero, each told from the rate |
| `BookHistory.SplitKeepsBookIff` | backend/app/portfolio/splits.py:53-95 | a split action that meets a position leaves the book consistent exactly when the derived ratio is positive or the division by zero comes before any write |
| `BookHistory.HalfForwardSplitEmptiesPosition` | backend/app/portfolio/splits.py:53-95 | a forward rate of one half, met by any position bought from the empty book: the action raises and the position stays open with no quantity |
| `PnlSummary.GroupTotalsAddUp` | backend/app/portfolio/pnl.py:108-192 | grouping the ledger by any key splits its total exactly |
| `PnlSummary.GroupCountsAddUp` | backend/app/portfolio/pnl.py:108-192 | the groups' entry counts add up to the number of entries, whatever the key |
| `PnlSummary.SummaryAddsUp` | backend/app/portfolio/pnl.py:108-192 | the by-strategy and by-symbol groups each count the whole ledger; without a filter their totals each sum to the overall figure, with one the overall figure is that strategy's total; today, this week and this month each differ from it by exactly the chosen entries outside the period |
| `Portfolio.Position.Enter` | backend/app/portfolio/fill_processor.py:65-129 | a new position's fields are the entry row |
| `Portfolio.Position.UpdateUnrealizedPnl` | backend/app/portfolio/fill_processor.py:388-414 | recomputes the signed unrealised profit |
| `Portfolio.Position.ScaleIn` | backend/app/portfolio/fill_processor.py:131-180 | fields become the scaled-in row |
| `Portfolio.Position.ScaleOut` | backend/app/portfolio/fill_processor.py:182-258 | fields become the scaled-out row, each remaining unit having cost what it did; returns the gross profit |
| `Portfolio.Position.FullExit` | backend/app/portfolio/fill_processor.py:260-346 | fields become the closed row; returns the whole quantity and its profit |
| `Portfolio.Position.Mark` | backend/app/portfolio/mark_to_market.py:80-168 | fields become the marked row |
| `Portfolio.Position.Split` | backend/app/portfolio/splits.py:79-95 | fields become the split row |
| `Portfolio.PortfolioService.FindOpenPosition` | backend/app/portfolio/repository.py:25-35 | finds the open position of a strategy and symbol, or the end of the table |
| `Portfolio.PortfolioService.UpdateBalance` | backend/app/portfolio/repository.py:217-235 | credits the scope's balance, creating it when missing |
| `Portfolio.PortfolioService.RecordClose` | backend/app/portfolio/pnl.py:19-61 | appends the closing entry |
| `Portfolio.PortfolioService.AdjustCash` | backend/app/portfolio/fill_processor.py:348-365 | moves the fill's net value in or out of its scope |
| `Portfolio.PortfolioService.ProcessFill` | backend/app/portfolio/fill_processor.py:24-63 | the book after a fill, whole |
| `Portfolio.PortfolioService.GetTotalCash` | backend/app/portfolio/repository.py:237-243 | the sum of the balances |
| `Portfolio.PortfolioService.GetEquity` | backend/app/portfolio/service.py:110-117 | cash plus open market values |
| `Portfolio.PortfolioService.GetDrawdown` | backend/app/portfolio/service.py:127-141 | never negative, positive exactly when equity is below a positive stored peak, above 100 percent exactly when equity is then negative |
| `Portfolio.PortfolioService.RunCycle` | backend/app/portfolio/mark_to_market.py:80-168 | the book after a mark cycle, peak included; the counts are how many open positions were marked and how many were passed over |
| `Portfolio.PortfolioService.UpdatePeakEquity` | backend/app/portfolio/mark_to_market.py:170-194 | raises a stored peak to a new high |
| `Portfolio.PortfolioService.ApplySplitAction` | backend/app/portfolio/splits.py:40-95 | the book after one split action, including the one that raises half way |
| `Portfolio.PortfolioService.ProcessSplits` | backend/app/portfolio/splits.py:19-100 | the book after a day's actions, stopping at the first that raises; it reports raising exactly when one does |
| `Portfolio.PortfolioService.ProcessExDate` | backend/app/portfolio/dividends.py:22-82 | the payments after the ex-date job |
| `Portfolio.PortfolioService.ProcessPayableDate` | backend/app/portfolio/dividends.py:84-148 | cash, payments and positions after the payable-date job |
| `Portfolio.PortfolioService.InitializeAccounts` | backend/app/portfolio/service.py:314-345 | opens missing accounts and a missing peak |
| `Portfolio.PortfolioService.ResetPeakEquity` | backend/app/portfolio/service.py:436-441 | sets the peak to the current equity |
| `BacktestLedger.RunsBalance` | backend/app/backtesting/runner.py:282-340 | after every run: cash = initial + closed profits - fees of all trades - cost of open longs + entry value of closed shorts |
| `BacktestLedger.FinalCash` | backend/app/backtesting/runner.py:117-127 | a run with bars ends with nothing open and cash = initial + net profit + entry value of closed shorts |
| `BacktestEntries.RunTradesIff` | backend/app/backtesting/runner.py:282-310 | a run trades exactly when some warmed-up bar of its feeds asks for an entry whose size is positive and which the initial capital covers |
| `BacktestEntries.PositionSizeMeans` | backend/app/backtesting/sizing.py:4-40 | what each sizing is worth: units, cash, a percentage of equity, or a size whose stop distance loses a percentage of equity; zero when its divisor is not positive |
| `BacktestEntries.EntryIsTakenIff` | backend/app/backtesting/runner.py:261-310 | an entry is taken, for the size so told, exactly when nothing of its symbol and side is held, the size is positive and the cash covers it at the close |
| `BacktestEntries.SignalIsTakenIff` | backend/app/backtesting/python_runner.py:156-206 | likewise for a strategy's signal, for its own quantity, the run's sizing or ten thousand units, with cash asked of longs only, and with its levels |
| `BacktestEntries.OpeningTakes` | backend/app/backtesting/runner.py:291-310 | opening takes one trade half a pip off the close, with a fee of two hundredths of a percent, and the cash it costs |
| `BacktestEntries.RunsHoldOnePerSide` | backend/app/backtesting/runner.py:268-272 | no run of either runner ever holds two trades of one symbol and side |
| `BacktestLedger.FinalCashIsNetPnlIff` | backend/app/backtesting/runner.py:330-334 | final cash is initial capital plus reported net profit for every long run; for a short run over prices above half a pip, exactly when no bar of the feeds makes it enter |
| `BacktestLedger.ShortRunOverstatesCash` | backend/app/backtesting/runner.py:312-340 | a one-bar short run that ends with more cash than initial capital plus net profit |
| `BacktestLedger.PythonFinalCash` | backend/app/backtesting/python_runner.py:208-233 | the same cash identity for the Python runner, longs and shorts mixed |
| `BacktestBounds.EveryTradeIsLimited` | backend/app/backtesting/runner.py:217-259 | in a single-symbol run every closed trade, whatever closed it, lies between the stop's loss (at least half a pip) and the target's gain and within the bar limit |
| `BacktestBounds.EntryBarExitRespectsStopIff` | backend/app/backtesting/runner.py:342-351 | a trade closed on its entry bar respects its stop exactly when the stop is at least half a pip |
| `BacktestExits.ExitSignalCloses` | backend/app/backtesting/runner.py:90-97 | a true exit condition on a warmed-up bar leaves no trade of its symbol open, closes those that reached no level at the bar's close, and leaves the other symbols' trades open |
| `BacktestExits.OppositeEntryCloses` | backend/app/backtesting/runner.py:261-266 | with signal exits on, an entry closes the other side's trades of its symbol at the bar's close |
| `BacktestExits.BarSorts` | backend/app/backtesting/runner.py:70-106 | what a bar does to every trade: stop, target, time limit and signal each take out exactly the trades they reach, at their price and in that order; the rest stay; what else is open was entered on the bar |
| `BacktestExits.TradesLeaveInTime` | backend/app/backtesting/runner.py:217-259 | in every single-symbol run a trade leaves on the first bar since its entry that gives it a cause, for that cause and at its price; one still open has had none, and is closed at the last close |
| `PythonExits.PythonBarSorts` | backend/app/backtesting/python_runner.py:74-99 | what a bar of the Python runner does to every trade of any symbol: a touched level takes it out, at that level and the stop first; the rest stay; what else is open a signal of a warmed-up bar asked for |
| `PythonExits.PythonTradesLeaveInTime` | backend/app/backtesting/python_runner.py:133-206 | in every run, over any symbols, a trade leaves at the first later bar that touches one of its own signal's levels, at that level, or is closed at the end of data untouched |
| `BacktestCurve.RunsTrack` | backend/app/backtesting/state.py:84-106 | every sampled point carries its decline from the peak so far, initial capital included |
| `BacktestSampling.BarSamples` | backend/app/backtesting/state.py:71-106 | a bar is sampled exactly when every bar is, when it is a tenth one, or when it closed or entered a trade; its point is the cash plus every open trade at the bar's close |
| `BacktestSampling.RunsSample` | backend/app/backtesting/state.py:84-106 | in every single-symbol run the curve has, in order, one point for each such bar and no other |
| `BacktestCurve.ReportedDrawdownIsMaxIff` | backend/app/backtesting/metrics.py:59-59 | the reported maximum drawdown is the largest decline over all pairs of samples exactly when falls to negative equity are matched by falls from a running peak, which nonnegative equity always gives |
| `BacktestCurve.PythonRunsTrack` | backend/app/backtesting/python_runner.py:60-99 | the same for every run of the Python strategy runner, sampling included |
| `BacktestCurve.LongCashFloor` | backend/app/backtesting/runner.py:282-310 | in long mode cash is never negative by more than one trade's slippage and fee |
| `BacktestExcursions.ExcursionsCoverTheBarsHeld` | backend/app/backtesting/state.py:32-42 | after a single-symbol run a trade's excursions are the extremes over exactly the bars it was held over; the bar that closes it counts only at the end of data |
| `BacktestRunner.TradeRecord.UpdateExcursion` | backend/app/backtesting/state.py:32-42 | keeps the largest favourable and adverse moves |
| `BacktestRunner.TradeRecord.Close` | backend/app/backtesting/runner.py:312-326 | fills in the exit columns |
| `BacktestRunner.Runner.ClosePosition` | backend/app/backtesting/runner.py:312-340 | the state after one close, whole |
| `BacktestRunner.Runner.DecideExit` | backend/app/backtesting/runner.py:217-259 | a stop exit exactly when the bar moves the stop's distance against the trade, losing just that; a target exit exactly when it moves the target's distance in its favour and not the stop's against it, gaining just that; a time exit at the close when only the bar limit is reached |
| `BacktestRunner.Runner.CheckExits` | backend/app/backtesting/runner.py:217-259 | the loop over a snapshot is the sweep of the exit rule |
| `BacktestRunner.Runner.CloseWhere` | backend/app/backtesting/runner.py:92-97 | the snapshot loop for signal, opposite-side and end-of-data closes; which trades those are is `BacktestExits.BarSorts` |
| `BacktestRunner.Runner.GetCurrentEquity` | backend/app/backtesting/state.py:71-82 | cash plus unrealised profit at the bar's close |
| `BacktestRunner.Runner.EnterTrade` | backend/app/backtesting/runner.py:261-310 | the state after an entry, with its opposite-side closes, sizing and cash check |
| `BacktestRunner.Runner.UpdateOpenExcursions` | backend/app/backtesting/runner.py:99-102 | updates the open trades of the symbol only |
| `BacktestRunner.Runner.Record` | backend/app/backtesting/state.py:84-106 | samples the curve and keeps the peak |
| `BacktestRunner.Runner.ProcessBar` | backend/app/backtesting/runner.py:73-105 | one bar is one engine step |
| `BacktestRunner.Runner.RunAll` | backend/app/backtesting/runner.py:64-127 | all symbols' bars and the final closes are one engine run |
| `BacktestRunner.RunBacktest` | backend/app/backtesting/runner.py:20-135 | a backtest ends in the state the theorems above are about |
| `PythonRunner.DecideLevels` | backend/app/backtesting/python_runner.py:133-154 | leaves at the stop exactly when the bar touches it, at the target exactly when it touches that and not the stop, and stays otherwise |
| `PythonRunner.CheckExits` | backend/app/backtesting/python_runner.py:133-154 | that decision over a snapshot of all open trades |
| `PythonRunner.EnterOnSignal` | backend/app/backtesting/python_runner.py:156-206 | the state after one strategy signal |
| `PythonRunner.ProcessBar` | backend/app/backtesting/python_runner.py:60-99 | one bar is one engine step |
| `PythonRunner.RunPythonBacktest` | backend/app/backtesting/python_runner.py:50-120 | a Python backtest is one engine run |
| `BacktestMetrics.ComputeTotals` | backend/app/backtesting/metrics.py:19-25 | the loop's totals are the profit summed over the positive results, the loss over the others with its sign turned, and how many there are of each, missing results skipped |
| `BacktestMetrics.TotalsAddUp` | backend/app/backtesting/metrics.py:17-25 | gross profit less gross loss is the total, winners and losers are all the results, neither gross figure is negative, and each is positive exactly when some result has its sign |
| `BacktestMetrics.ProfitFactorAboveOneIff` | backend/app/backtesting/metrics.py:53-53 | the profit factor exceeds one exactly for a run that made money before fees |
| `RiskPipeline.RunChecks` | backend/app/risk/service.py:82-145 | the check loop yields the judgement defined by the first check that stops it |
| `RiskPipeline.RunExitChecks` | backend/app/risk/service.py:254-293 | the exit fast path yields the judgement over the checks meant for exits |
| `RiskPipeline.EntryRejectedIff` | backend/app/risk/service.py:86-112 | an entry is rejected exactly when some check rejects it and all before let it on |
| `RiskPipeline.EntryModifiedIff` | backend/app/risk/service.py:114-129 | it is modified exactly when all let it on and some check changes something |
| `RiskPipeline.ExitVerdict` | backend/app/risk/service.py:254-293 | an exit is never rejected by a check; when it gets a decision, and when that is a modification |
| `RiskPipeline.LastChangeWins` | backend/app/risk/service.py:114-118 | the last check to set a key decides its value |
| `SignalVerdicts.EvaluationIsRight` | backend/app/risk/service.py:48-145 | the status a pending signal ends in, told from its type and its checks: rejected without its strategy, undecided without a portfolio; an exit never rejected by a check and held up only by an exit check that raises; any other signal rejected or held up by the first check that does not let it on |
| `SignalVerdicts.CycleIsRight` | backend/app/risk/service.py:147-177 | in every risk cycle from consistent tables, that is the status of every pending signal, and every other signal keeps its own |
| `SignalVerdicts.ExitsAreNeverRejected` | backend/app/risk/service.py:254-293 | in every run, a cycle never rejects an exit whose strategy exists and whose portfolio can be read |
| `SignalInvariant.RunsStayConsistent` | backend/app/signals/service.py:21-25 | under every interleaving: cleared and ordered signals have exactly one approving decision, rejected ones one rejecting decision, the others none; an order exists exactly for ordered signals; a filled order has exactly one fill, of its filled quantity |
| `SignalInvariant.StepKeeps` | backend/app/signals/service.py:320-369 | one service call keeps that invariant |
| `SignalInvariant.ClearedHasDecision` | backend/app/paper_trading/service.py:92-116 | the branch for a missing decision is never taken, and no cleared signal has an order yet |
| `SignalInvariant.OnlyQtyReachesTheOrder` | backend/app/paper_trading/service.py:489-548 | a decision's changes make no difference to any order exactly when they do not set "qty" |
| `SignalInvariant.StaleEvaluationIff` | backend/app/risk/service.py:131-145 | evaluating a signal whose row is read afresh keeps the invariant exactly when it is still pending, already decided, or the evaluation raises first |
| `SignalInvariant.StaleEvaluationRevivesIff` | backend/app/common/database.py:28-33 | evaluating a signal as the cycle listed it always keeps the tables in agreement, but its status moves along a listed transition exactly under that condition; otherwise a cancelled or expired signal comes back |
| `SignalInvariant.CanceledSignalIsRevived` | backend/app/risk/service.py:131-177 | a run that creates and cancels a signal, which the listed evaluation then approves |
| `SignalInvariant.CapsWithoutQtyAreIgnored` | backend/app/paper_trading/service.py:489-500 | when no check sets "qty", an order is the one an untouched approval would give, whatever else the checks set |
| `SignalInvariant.CapIsNotApplied` | backend/app/risk/checks/position_sizing.py:44-55 | a cap to a value of 1000 under which an order worth 15000 is executed |
| `SignalInvariant.ExecutedOrders` | backend/app/paper_trading/service.py:148-243 | an order that goes through is positive, a buy is covered by the available cash with its fee, and a strategy-sized share or contract order is for at least one whole unit |
| `SignalOrders.SizedMeans` | backend/app/paper_trading/service.py:502-538 | what each sizing method's quantity is worth: dollars, a percentage of equity, or a stop distance that loses a percentage of equity; zero when its divisor is not positive |
| `SignalOrders.OrderIsRight` | backend/app/paper_trading/service.py:148-243 | an order is executed for the quantity wanted exactly when that is positive, the cash covers its cost with the fee and an option's multiplier, the broker takes it and the fill succeeds; it is turned away for cash when that is what it lacks |
| `SignalOrders.SaleNeedsNoDebtIff` | backend/app/paper_trading/cash_manager.py:67-81 | a sale that would otherwise go through is turned away for lack of cash exactly when the cash is negative |
| `SignalOrders.DebtBlocksSale` | backend/app/paper_trading/cash_manager.py:48-65 | ten shares to be sold with one dollar owed |
| `SignalOrders.CycleIsRight` | backend/app/paper_trading/service.py:48-78 | in every order cycle from consistent tables, every cleared signal is filled or rejected as its decision, its sizing and the broker's answers call for, and every other signal keeps its status |
| `SignalRuns.StepMoves` | backend/app/signals/service.py:21-25 | every service call moves each signal along at most one listed transition and changes nothing else in its row |
| `SignalRuns.PipelineTerminates` | backend/app/signals/service.py:21-25 | once creation stops, at most twice as many calls as there are signals change anything, in any schedule |
| `SignalRuns.SignalsChangeAtMostTwice` | backend/app/signals/service.py:21-25 | no signal changes status more than twice, whatever else happens |
| `SignalRuns.RunsStaySeparated` | backend/app/signals/dedup.py:54-84 | two live signals for the same trade, the later one deduplicated, were created more than its window less five seconds apart |
| `SignalRuns.EndsAreExact` | backend/app/signals/repository.py:114-140 | the sweep expires exactly the pending signals past their time, a strategy's cancel exactly its pending ones, and every other row stays |
| `SignalRuns.EndsHaveCauses` | backend/app/signals/service.py:21-25 | in every run, a signal that expired did so in a sweep later than its time, and one that was cancelled was cancelled by its user or with its strategy |
| `SignalRuns.LifetimeInBars` | backend/app/signals/config.py:5-33 | a created signal is good for two bars of a timeframe below an hour and one bar of a longer one, give or take its timestamp's tolerance |
| `SignalServices.SignalTables.ValidateSignal` | backend/app/signals/service.py:160-220 | no errors exactly for a valid request |
| `SignalServices.SignalTables.FindDuplicate` | backend/app/signals/dedup.py:39-77 | finds a duplicate exactly when there is one |
| `SignalServices.SignalTables.CreateSignal` | backend/app/signals/service.py:42-158 | creates exactly the valid requests that are no duplicates |
| `SignalServices.SignalTables.CancelSignal` | backend/app/signals/service.py:297-311 | cancels exactly the user's own pending signals, and reports why not otherwise |
| `SignalServices.SignalTables.ExpireStale` | backend/app/signals/repository.py:114-128 | expires exactly the pending signals past their time, row by row, and counts them |
| `SignalServices.SignalTables.CancelStrategySignals` | backend/app/signals/repository.py:130-140 | cancels exactly a strategy's pending signals, row by row, and counts them |
| `SignalServices.SignalTables.UpdateSignalStatus` | backend/app/signals/service.py:320-369 | moves a signal along a listed transition and refuses any other |
| `SignalServices.SignalTables.EvaluateSignal` | backend/app/risk/service.py:48-145 | decision row and status after one evaluation; of a pending signal, the status its type and checks call for |
| `SignalServices.SignalTables.EvaluatePendingSignals` | backend/app/risk/service.py:147-177 | listing the pending signals and evaluating them in turn is the risk cycle; its counts are the decisions written, in all and of each verdict |
| `SignalServices.SignalTables.DetermineQty` | backend/app/paper_trading/service.py:489-548 | the quantity a check set, or one sized so that its worth is what the method says and cut to whole units for equities and options; none exactly when the check's value is no number |
| `SignalServices.SignalTables.SubmitOrder` | backend/app/paper_trading/service.py:182-420 | the order's statuses as it goes through cash check, submission and fill |
| `SignalServices.SignalTables.ProcessSignal` | backend/app/paper_trading/service.py:80-458 | all branches of processing one cleared signal |
| `SignalServices.SignalTables.ProcessApprovedSignals` | backend/app/paper_trading/service.py:48-78 | listing the cleared signals and processing them in turn is the order cycle; its counts are the orders written, those filled and those rejected |
| `Drawdown.OnePassIsMaxIff` | backend/app/portfolio/metrics.py:262-273 | the one-pass figure is the largest decline over all pairs of points exactly when every fall to a negative value is matched by a fall at least as deep from a running peak |
| `Drawdown.OnePassIsMaxDrawdown` | backend/app/portfolio/metrics.py:262-273 | so it is for nonnegative equity |
| `Drawdown.NegativeEquityCanBeUnderstated` | backend/app/portfolio/metrics.py:262-273 | a series with negative equity where it is not |
| `Drawdown.CalculateMaxDrawdown` | backend/app/portfolio/metrics.py:245-273 | the loop computes the one-pass figure, which is the largest decline exactly under that condition |
| `Streaks.LongestRunIsLongest` | backend/app/portfolio/metrics.py:275-299 | the counted length is attained by a run and no run is longer |
| `Streaks.CalculateStreaks` | backend/app/portfolio/metrics.py:275-299 | both streaks are longest runs; a zero breaks both |
| `Streaks.MaxStreak` | backend/app/backtesting/metrics.py:103-116 | the streak is the longest run; a zero counts as a loss and missing results are skipped |
| `RateLimiting.PruningIsInvisibleIff` | backend/app/common/rate_limiter.py:21-28 | for any clock, the pruned list and the full list of grants agree on what a call counts exactly when no earlier call has pruned a time that still counts |
| `RateLimiting.PruningIsInvisible` | backend/app/common/rate_limiter.py:21-28 | a call no earlier than the key's calls so far sees in the pruned list what it would see in the full list of grants |
| `RateLimiting.OrderedRemembers` | backend/app/common/rate_limiter.py:21-28 | with an ordered clock no call loses anything it would count |
| `RateLimiting.WindowsAreBounded` | backend/app/common/rate_limiter.py:21-28 | as long as no call has lost anything it would count, no half-open window of the configured length holds more grants than the limit |
| `RateLimiting.DeniedIffWindowIsFull` | backend/app/common/rate_limiter.py:25-26 | under that condition the latest request is denied exactly when the window ending now holds the full quota |
| `RateLimiting.KeysAreIndependent` | backend/app/common/rate_limiter.py:19-28 | what a key stores and is granted depends on its own calls alone |
| `RateLimiting.BackwardsClockOverfills` | backend/app/common/rate_limiter.py:22-24 | calls with the clock stepping back that overfill a window |
| `RateLimiting.RateLimiter.IsAllowed` | backend/app/common/rate_limiter.py:21-28 | the stored lists and the verdict after a call: it allows what the full history would allow, and more only when an earlier call has pruned a time that still counts |
| `Listing.MergedPageIsNewest` | backend/app/paper_trading/service.py:646-665 | sorting the strategies' first pages together and cutting gives the newest rows of all: sorted, as many as possible, none left out newer |
| `Listing.EveryRowIsShownIff` | backend/app/signals/service.py:256-271 | of distinct rows, every one is on some page of the merged listing exactly when the strategies' first pages together fit one page |
| `Listing.FirstPagesFitIff` | backend/app/signals/service.py:256-271 | and they fit exactly when all rows fit one page or at most one strategy has any |
| `Listing.LaterPagesCanLoseRows` | backend/app/signals/service.py:256-271 | two strategies of one row each at page size one: the older row is on no page |
| `Listing.ListAll` | backend/app/signals/service.py:256-271 | the loop over strategies, the sort and the cut: on every page the newest of the gathered rows, on page one the newest of all, and the true total |
| `Downsampling.StrictlyIncreasing` | backend/app/backtesting/repository.py:79-81 | the computed indices never repeat |
| `Downsampling.StepBetween` | backend/app/backtesting/repository.py:79-81 | neighbouring indices differ by at least one and at most the rounded-up step |
| `Downsampling.LastGap` | backend/app/backtesting/repository.py:82-84 | replacing the last index keeps the order and bounds the last gap |
| `Downsampling.Indices` | backend/app/backtesting/repository.py:77-84 | the index list is the computed one with the last point put last: right length, in range, increasing, both ends kept, gaps bounded |
| `Downsampling.Thin` | backend/app/backtesting/repository.py:77-86 | the points at exactly those indices, or all of them when no thinning is asked for |
| `LondonBreakout.RunRemembers` | strategies/london_breakout.py:70-152 | after any time-ordered bars the stored range, its validity and the trade count are those of the current date's bars |
| `LondonBreakout.SignalIff` | strategies/london_breakout.py:104-220 | a signal is given exactly on the bars that qualify, told from the bars alone, body and momentum included, and it is the one they call for |
| `LondonBreakout.EverySignalIsSound` | strategies/london_breakout.py:154-220 | every signal falls in the entry window, on a bar that closed beyond the whole day's range and its buffer with a large enough body, with a range within the pip limits, the stop its buffer behind the range, and the target at the configured ratio |
| `LondonBreakout.DailyLimit` | strategies/london_breakout.py:111-112 | no date sees more signals than the daily limit |
| `LondonBreakout.Score` | strategies/london_breakout.py:222-274 | the score lies between 15 and 100 |
| `LondonBreakout.Strategy.AccumulateRange` | strategies/london_breakout.py:119-134 | widens the stored range by one bar |
| `LondonBreakout.Strategy.CheckRange` | strategies/london_breakout.py:136-152 | marks the range valid exactly within the limits |
| `LondonBreakout.Strategy.ScoreSetup` | strategies/london_breakout.py:222-274 | accumulates the score factor by factor; it is a multiple of five from 15 to 100, and 100 exactly when all four factors are at their best |
| `LondonBreakout.Strategy.CheckBreakout` | strategies/london_breakout.py:154-220 | the signal and the trade count after a breakout check |
| `LondonBreakout.Strategy.OnBar` | strategies/london_breakout.py:70-117 | one bar is one step of the machine |
| `RefreshTokens.RunsStaySound` | backend/app/auth/service.py:29-114 | every token stems from a login or an accepted refresh; a chain is one user's and all of it but the last was accepted and is revoked; no token is accepted twice |
| `RefreshTokens.OneLiveTokenPerLogin` | backend/app/auth/service.py:95-107 | of the tokens that stem from one login at most one is unrevoked |
| `RefreshTokens.LoginGives` | backend/app/auth/service.py:29-76 | a login goes through exactly with good credentials of a known user who is not suspended; its token is then accepted exactly up to its lifetime while the user is active |
| `RefreshTokens.RefreshHandsOver` | backend/app/auth/service.py:78-114 | an accepted refresh issues the same user a token accepted exactly up to its lifetime, and the presented one never again |
| `RefreshTokens.LogoutEnds` | backend/app/auth/service.py:116-120 | logging out ends the presented session and no other |
| `RefreshTokens.LoggedOutStaysOut` | backend/app/auth/service.py:116-120 | and over the rest of any run the token is refused |
| `RefreshTokens.PurgesEndSessions` | backend/app/auth/service.py:122-137 | after a password change, a reset or a suspension, none of the user's earlier tokens is accepted in any continuation |
| `RefreshTokens.PurgedAreNeverAccepted` | backend/app/auth/repository.py:76-82 | the invariant behind it, over any continuation |
| `RefreshTokens.StatusChangeOnlyPauses` | backend/app/auth/service.py:172-195 | after a suspension by status update and a return to active, a token is accepted exactly as before; after the suspension call, never |
| `RefreshTokens.CleanupIsInvisible` | backend/app/auth/repository.py:84-94 | cleaning up expired tokens changes no later verdict |
| `RefreshTokens.AuthService.LogIn` | backend/app/auth/service.py:29-76 | issues a token exactly for a known, unsuspended user with good credentials |
| `RefreshTokens.AuthService.RefreshTokens` | backend/app/auth/service.py:78-114 | accepts exactly a stored, unrevoked, unexpired token of an active user, and rotates it |
| `RefreshTokens.AuthService.LogOut` | backend/app/auth/service.py:116-120 | revokes the presented token if it is live |
| `RefreshTokens.AuthService.SetPassword` | backend/app/auth/service.py:216-223 | change and reset revoke all of the user's tokens, when they go through |
| `RefreshTokens.AuthService.SuspendUser` | backend/app/auth/service.py:231-235 | suspends and revokes all |
| `RefreshTokens.AuthService.UpdateStatus` | backend/app/auth/service.py:192-195 | activation and the status update change the user's status and no token |
| `RefreshTokens.AuthService.RevokeAllForUser` | backend/app/auth/repository.py:76-82 | the bulk revocation; the count is the number of tokens it changed |
| `RefreshTokens.AuthService.CleanupTokens` | backend/app/auth/repository.py:84-94 | the bulk cleanup; the count is the number of tokens it changed |

## Left out

- Rounding: `quantize`, the `Numeric(18,2)` columns and binary floats; all amounts are exact reals. In particular the sampling index is the exact quotient, where the code rounds a float product.
- Several users: the book, the token table and the signal tables are each one user's or one system's; ownership is a flag of the call.
- Percentage, timestamp and text columns that nothing reads back: total return, profit percent, entry and exit times, reasons and reports.
- Interleaving inside a service call: calls are atomic. The one place where this hides something is a signal that changes between the risk cycle's listing and its evaluation. The cycle's session keeps the rows it listed (backend/app/common/database.py:32), so `get_by_id` returns the old status and the evaluation overwrites the change; `SignalInvariant.StaleEvaluationRevivesIff` states when.
- Ledger entries that are not written: recording a close is skipped when no ledger is set up, and an exception in it is swallowed (backend/app/portfolio/fill_processor.py:221-230 and 307-316). The model always writes the entry, and `BookShape.StepKeepsLedgers` and the conservation laws hold of runs where it is written.
- Closing times of ledger entries: which entries fall in today, this week and this month is a parameter of the summary.
- Order of the cycles: they take their signals in table order, which is the order of creation times when the clock does not run back.
- Creation times: a signal's is the clock its call reads, where the database stamps the start of the transaction.
- A signal's underlying symbol: the contract multiplier follows the market alone.
- An executor whose submission raises: submission is taken to answer, and only the fill to fail by raising.
- The database's own errors: a second decision or order for a signal is refused by its unique column and changes nothing, and the failed session's rollback is not followed.
- `SignalRuns.RunsStaySeparated`: speaks of signals that deduplication applies to, so of a positive window; with none set there is nothing to separate.
- `LondonBreakout.RunRemembers`: bars are ordered by New York date and hour; the hour that repeats when summer time ends is not.
- `BacktestExcursions.ExcursionsCoverTheBarsHeld`: single-symbol runs, for the same reason as the per-trade limits.
- `BacktestExits.TradesLeaveInTime`, `BacktestSampling.RunsSample`: single-symbol runs, because a trade's bar index does not say which symbol's bars were being walked; the bar-level lemmas beside them speak of any state.
- `BacktestBounds.EveryTradeIsLimited`: single-symbol runs only, because at the end of data every symbol's trades close at one symbol's price.
- `BookHistory.LedgerQuantitiesAddUp`: absent splits, because ledger quantities are not restated by a split.
- `RefreshTokens.RunsStaySound`: new hashes are taken to be unused, and two tokens with one hash, which the lookup would refuse, do not occur.
- The equity point added after a run with no samples: bar zero is always sampled, so that branch is never reached.
- Closed backtest trades are kept as values, since nothing updates them after the close.
- Exposure queries, position listings and snapshots: plain sums and filters over the same rows.
- Options expiry: it books profit against cost basis and moves no cash, outside the conservation law.
- Live exit rules of the strategy runner and the safety monitor: they read position keys that the portfolio does not write, and the natural properties do not hold of them.
- Sharpe and Sortino ratios: square roots of floats, without a clean exact contract.
- The individual risk checks, risk monitors, indicators, the condition engine, sizing formulas behind conditions and executors: their answers are arbitrary inputs.
- Login lockout, password hashing, access tokens, sessions and rollback: library or transport behaviour.
- Routers, schemas, migrations, the frontend, event emission and logging.
