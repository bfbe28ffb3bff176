# Verified model of the backtest engine

A Dafny 4.11 model of the quantitative core of the platform: the bar-by-bar execution engine, which exists
twice (Python and C++), the portfolio ledger under it, the four signal strategies above it, and the two
small arithmetic cores beside it (drawdown, concentration and scenario weights). `dafny verify dfyconfig.toml`
checks everything.

Floats are exact reals, NaN is a missing `Option`, and the thresholds 1e-9 (orders, weights) and 1e-12
(snap to flat) are the source's constants. What the source updates in place is a class or an array here,
written as the source writes it and proved against a function on values; whatever is then proved about that
function holds of the code's own steps.

## Map

- `Prelude`, `RealMath`, `Events`: options and results, exact arithmetic, the cost model and the event vocabulary.
- `Ledger` (values), `PyPortfolio` (objects), `FillLaws`, `TradeRecords`, `Conservation`: one fill in its four
  cases, what it puts on record, and what every history of fills on any number of symbols conserves.
- `Engine` (values), `EngineLoop` (the loop over objects), `Steps`, `RunLaws`: a run as a state machine, one
  bar at a time, the queue discipline and the one-to-one match of orders and outcomes. The decision function
  is a parameter of a run; what the source's closure captures is threaded through as its memory.
- `Executions`: orders, fills, the close-out and the marks of a bar, in the numbers of the configuration.
- `Cash`, `Tracking`, `Causality`: for any decision function, how far cash can fall, how positions follow
  targets, and that the future is invisible.
- `Simulation`, `Decisions`, `Suppression`, `Whipsaw`, `LongOnly`, `WholeUnits`: the closure that turns signals
  into targets, what it decides and what the hooks see, exit suppression and the runs that break it, the joint
  safety invariant of long-only runs, and what default sizing adds.
- `CppLedger`, `CppPortfolio`, `CppEngine`, `CppSimulator`, `Parity`: the second implementation, and its
  agreement with the first under the translation of bar indices and one position to timestamps and a
  dictionary.
- `Series`, `MovingAverage`, `Statistics`, `PairStatistics`: the pandas operations and indicators, with the
  inequalities behind them.
- `SignalFrame`, `Macd`, `Bollinger`, `DualThrust`, `PairTrading`: masked assignments and forward fills, each
  strategy's state machine, and that its signals never look ahead.
- `MacdRows`, `BollingerRows`, `DualThrustRows`, `PairRows`: every row that a strategy emits, with its strength,
  reason and indicators, in terms of the prices.
- `LookAhead`: strategy and engine together.
- `Drawdown`, `Weights`, `Concentration`, `Instruments`, `Holdings`, `Scenario`: the metrics and weights
  arithmetic, and the table of instruments behind the sectors.

## Conditions in the statements

- *Bounded costs*: rates are not negative, commission is at most 100% of notional, slippage plus half the
  spread at most 100% of the price. *Positive prices*: every open and close is above zero. Bounds on cash
  and the long-only invariant need both; tracking, suppression and the exact law of the close-out need only that
  costs (and the last close) are not negative, and the conservation, causality and parity results need neither.
- *Whole targets*: every decided target is a whole number of units, as default sizing makes them
  (`WholeUnits.DefaultSizingTracks`).
- Strategy parameters are within the bounds that the strategies declare. Indexes increase strictly where
  events are dated.
- The signal functions are stated for series of any length; `GenerateSignals` returns them from the
  strategy's warm-up on and fails below it. Both hooks of a strategy are arbitrary pure functions unless a
  statement says otherwise.

## Where the code and its documentation differ

The model follows the code.

- `max_affordable_quantity` is documented as including commission, but ignores the commission floor. Cash can
  therefore go below zero: it never does exactly when `commission_min` is 0 (`Cash.OverdraftNeedsAFloor`),
  and never by more than the floor per fill (`Cash.CashBound`).
- For the same reason a buy reported as "reduced" can be larger than its order; this too happens for some
  input exactly when there is a floor (`Tracking.CutsAreSmallerWithoutAFloor`).
- The same cut can turn a cover round: a run that exits a short may find itself long, remember the wrong
  direction and enter again while the signal stands unchanged, which exit suppression is documented to
  prevent. Suppression holds on every run exactly when there is no floor (`Whipsaw.SuppressionNeedsNoFloor`,
  `Whipsaw.FloorReenters`); as long as the position keeps its side it holds under any costs
  (`Suppression.ExitIsRemembered`).
- The close-out at the end has no affordability check. Covering a short can leave an account without any
  costs deep below zero; when it does is stated exactly (`Cash.LiquidatedCash`, `Cash.ShortCloseOutOverdraws`).
- `Trade.pnl` is described as net of the costs of both legs, but slippage is inside the gross result and is
  subtracted again, so the cash gained by a flat account is realized PnL plus total slippage
  (`Conservation.FlatCashGain`). The two agree exactly when no fill slipped
  (`Conservation.GainIsRealizedWithoutSlippage`); `Conservation.SlippageCountsTwice` is a history on which
  they do not.
- The EMA's seed is documented as making values independent of where a series was cut. They are not
  (`MovingAverage.CutsDiffer`); above a span of 1 a value is independent of the cut exactly when the longer
  EMA equals the mean of the later seed window at that seed (`MovingAverage.CutMatters`), and the difference
  fades geometrically, at exactly the rate given (`MovingAverage.EmaContracts`).
- Default sizing allocates a share of current equity; with negative equity a LONG signal therefore asks for a
  short position, and a SHORT signal for a long one (`Decisions.DefaultSizeMirrors`).
- The last position event of a liquidated run is the state before the close-out, in both engines.

One latent condition is not reachable today: `sector_exposure` would lose the weight of a sector that is itself
named "Unclassified" (`Holdings.ExposureIsComplete`). No instrument in the table carries that label, so its
breakdown is complete on every input (`Holdings.ListedExposureIsComplete`).

## Model

| member | source | states |
|---|---|---|
| `PyPortfolio.PositionState.constructor` | services/quant/backtest/portfolio.py:75-88 | a new position is flat: no quantity, average price, realized PnL, entry or attached costs |
| `PyPortfolio.Portfolio.constructor` | services/quant/backtest/portfolio.py:122-125 | a new portfolio holds its initial cash, no positions, no trades and zero totals |
| `PyPortfolio.Portfolio.PositionOf` | services/quant/backtest/portfolio.py:127-128 | looking a symbol up enters a flat position for it at the end of the dictionary if there was none, and otherwise changes nothing |
| `PyPortfolio.Portfolio.Open` | services/quant/backtest/portfolio.py:205-218 | a flat position takes the signed quantity, fill price, entry data and costs of the fill |
| `PyPortfolio.Portfolio.Add` | services/quant/backtest/portfolio.py:220-228 | adding blends the average price by quantity and attaches the fill's costs |
| `PyPortfolio.Portfolio.Close` | services/quant/backtest/portfolio.py:230-276 | closing appends exactly one trade, releases the closed share of the entry costs, leaves the average price alone and snaps a remainder below 1e-12 to flat |
| `PyPortfolio.Portfolio.FillPosition` | services/quant/backtest/portfolio.py:170-203 | the four cases (open, add, reduce, reverse) take the position and the trade list to the specified outcome, for every fill but one that divides by zero |
| `PyPortfolio.Portfolio.BookTotals` | services/quant/backtest/portfolio.py:164-167 | cash and the three running totals move by the fill's cash delta, commission, slippage and traded notional |
| `PyPortfolio.Portfolio.ApplyFill` | services/quant/backtest/portfolio.py:152-203 | the whole portfolio after a fill is the specified one; no other position object is touched |
| `PyPortfolio.Portfolio.Equity` | services/quant/backtest/portfolio.py:133-139 | cash plus the market value of every position that has a price |
| `FillLaws.QuantityMoves` | services/quant/backtest/portfolio.py:161-203 | in all four cases the position moves by the fill's signed quantity, less what the snap forgets, which is below 1e-12 |
| `FillLaws.WholeFillsLeaveNoResidue` | services/quant/backtest/portfolio.py:270-276 | whole fills keep whole positions whole and never lose a remainder to the snap |
| `FillLaws.BookMoves` | services/quant/backtest/portfolio.py:161-203 | quantity times average price changes by what was paid plus the gross result realized, through opens, adds, partial closes and reversals |
| `FillLaws.CostsMove` | services/quant/backtest/portfolio.py:178-203 | entry costs plus the fill's cost are afterwards either on a trade or still attached to the position |
| `FillLaws.RealizedIsTradePnl` | services/quant/backtest/portfolio.py:243-248 | realized PnL grows by the net result of the trade recorded |
| `FillLaws.TradeIsNet` | services/quant/backtest/portfolio.py:243-268 | every recorded trade's pnl is its gross result less its costs |
| `FillLaws.TidyKept` | services/quant/backtest/portfolio.py:270-276 | a flat position carries no price, costs or entry, an open one knows its entry; every fill keeps this |
| `TradeRecords.FillFromFlat` | services/quant/backtest/portfolio.py:170-218 | a fill from flat enters: signed quantity, fill price, timestamp, bar, reason and its own cost; no trade |
| `TradeRecords.FillAdds` | services/quant/backtest/portfolio.py:174-228 | a fill on the held side keeps the entry data, averages the price by quantity and attaches its cost; no trade |
| `TradeRecords.FillReduces` | services/quant/backtest/portfolio.py:182-276 | an opposite fill of no more than is held records one trade with every field given by position and fill, and keeps entry, price and the unclosed share of the entry costs, or is flat when less than 1e-12 would be left |
| `TradeRecords.FillReverses` | services/quant/backtest/portfolio.py:182-203 | an opposite fill of more than is held records the closing of all of it and enters the rest at the fill price, bearing the share of the cost that belongs to the rest |
| `TradeRecords.RoundTrip` | services/quant/backtest/portfolio.py:152-276 | in by one fill and out by another of the same size: one trade with both fills' dates, prices, reasons, costs and the bars between, and its pnl in these numbers |
| `TradeRecords.TotalsOfFills` | services/quant/backtest/portfolio.py:161-167 | over any history cash and the totals of commission, slippage and traded notional are sums over the fills |
| `Conservation.ApplyFillBalances` | services/quant/backtest/portfolio.py:152-203 | one fill on a portfolio of any number of symbols keeps cash, book value, costs and realized PnL in balance |
| `Conservation.LedgerIdentity` | services/quant/backtest/portfolio.py:152-276 | for every sequence of positive fills on any symbols: cash + sum of quantity * average price = initial cash + gross trade results - commissions; trade costs + attached costs = commissions + slippage; realized PnL = sum of trade pnl; up to the named residues of snaps |
| `Conservation.ResidueIsTiny` | services/quant/backtest/portfolio.py:270-276 | the book residue is at most 1e-12 times the average price per snapped close |
| `Conservation.NoSnapNoResidue` | services/quant/backtest/portfolio.py:270-276 | a history in which no close leaves a speck behind has no residue, so the identities are exact |
| `Conservation.WholeUnitsNeverSnap` | services/quant/backtest/portfolio.py:270-276 | whole-unit histories keep all positions whole and have no residue, so the identity is exact for them |
| `Conservation.FlatCashGain` | services/quant/backtest/portfolio.py:238-276 | a whole-unit history that ends flat gained realized PnL plus total slippage in cash (trade pnl subtracts slippage that the gross result already contains) |
| `Conservation.GainIsRealizedWithoutSlippage` | services/quant/backtest/portfolio.py:238-276 | such an account gained exactly its realized PnL if and only if every fill was at its reference price |
| `Conservation.SlippageCountsTwice` | services/quant/backtest/portfolio.py:238-252 | bought at 101 and sold at 99 against a reference of 100, one unit loses 2 in cash and 4 according to its trade |
| `Conservation.EquityDecomposes` | services/quant/backtest/portfolio.py:138-150 | for every history, equity at any prices = initial cash + gross realized + unrealized - commissions - the book residue, which is zero for whole units |
| `Cash.AffordableIsLargest` | services/quant/backtest/portfolio.py:292-297 | the affordable quantity is whole and the largest whole quantity that cash pays for at the proportional commission |
| `Cash.AffordablePositiveNeedsCash` | services/quant/backtest/portfolio.py:292-297 | nothing is affordable without cash or at a price that is not positive |
| `EngineLoop.ExecuteOrder` | services/quant/backtest/engine.py:457-507 | an order on its bar is filled in full, cut with one warning, or skipped with one warning, exactly as specified |
| `EngineLoop.SettlePending` | services/quant/backtest/engine.py:171-177 | the pending order is executed, booked and cleared |
| `EngineLoop.MarkToMarket` | services/quant/backtest/engine.py:179-198 | equity, exposure and position event of the bar are those of the specification |
| `EngineLoop.DecideTarget` | services/quant/backtest/engine.py:203-215 | the decision becomes an order for the next bar unless the change is below 1e-9 |
| `EngineLoop.LiquidatePosition` | services/quant/backtest/engine.py:510-540 | an open position is closed at the final close |
| `EngineLoop.RunExecution` | services/quant/backtest/engine.py:131-227 | the loop over the heap leaves the portfolio, the event lists, equity and exposure of the specified run |
| `EngineLoop.PendingIsForThisBar` | services/quant/backtest/engine.py:466-472 | a pending order is always scheduled for the bar about to be processed, so the wrong-bar error is unreachable, and none is left after a bar |
| `Engine.TouchedEquity` | services/quant/backtest/portfolio.py:127-139 | entering a flat symbol into the dictionary changes no equity |
| `Engine.MarkShape` | services/quant/backtest/engine.py:179-198 | what a bar appends, and that the decision sees exactly the equity, cash and position just recorded |
| `Engine.OnePointPerBar` | services/quant/backtest/engine.py:150-198 | after bar i there are i + 1 equity, exposure and position entries |
| `Steps.NextBar` | services/quant/backtest/engine.py:158-215 | between two marks exactly one thing happens: nothing, a skip with its warning, or one fill applied to the portfolio |
| `Steps.RunIsSolo` | services/quant/backtest/engine.py:131-227 | a run holds a tidy position in the traded symbol and nothing else |
| `Executions.ExecutionMeans` | services/quant/backtest/engine.py:457-507 | with costs in basis points of the bar's open or close: a sale, or a buy that cash pays for with its commission, is filled in full; another buy is cut to the largest whole number of units that cash pays for at the proportional rate, with a warning, or skipped with one when that is none |
| `Executions.CloseOutMeans` | services/quant/backtest/engine.py:510-540 | the closing fill is for the whole position, at the last close with adverse costs and its own commission |
| `Executions.OrderMeans` | services/quant/backtest/engine.py:85-102 | an order for the difference between target and position, for the next bar, unless the difference is below 1e-9 |
| `Executions.MarkOf` | services/quant/backtest/engine.py:179-198 | at every later bar the entries of bar j say what it closed with: the position event's cash and market value add up to the equity point, and exposure is the share of the one in the other |
| `Executions.TargetsAreHeld` | services/quant/backtest/engine.py:369-428 | with a whole targets array the position at bar i + 1 is targets[i] unless that bar warns, and orders carry the reason of their bar |
| `RunLaws.QueueDiscipline` | services/quant/backtest/engine.py:153-215 | every recorded order was decided on some bar and every fill is how the order of some bar came out on the next one, at that bar's price; fills + skips = orders |
| `RunLaws.OrdersMeetOutcomes` | services/quant/backtest/engine.py:153-215 | orders and outcomes one to one: the k-th order was placed on the k-th placing bar, its single outcome is a fill or a skip on the bar after it, and the recorded fills and warnings are those outcomes in order |
| `RunLaws.NoOrderIsMissed` | services/quant/backtest/engine.py:203-215 | the placing bars are all the bars that placed an order |
| `RunLaws.LiquidatedRunEndsFlat` | services/quant/backtest/engine.py:217-227 | with liquidation on the run ends flat, its last equity point is its cash and its last exposure 0, everything earlier is untouched and at most one fill is added |
| `RunLaws.RunIsFold` | services/quant/backtest/engine.py:171-177 | the portfolio of a run is the fold of its fills, so the ledger laws hold of every run |
| `RunLaws.RunConserves` | services/quant/backtest/portfolio.py:152-276 | the ledger identity at every bar of every run, for any decider, costs and bars |
| `RunLaws.WholeRunConserves` | services/quant/backtest/engine.py:131-227 | the same ledger identity for the finished run, its close-out included |
| `RunLaws.LiquidatedGain` | services/quant/backtest/engine.py:217-227 | a run of whole-unit fills that is closed out gained its gross trade results less commissions in cash, which is its realized PnL plus slippage |
| `Cash.FillPriceSign` | services/quant/backtest/costs.py:58-72 | with bounded costs fill prices are not negative and a buy never pays less than the reference price |
| `Cash.ExecutionCash` | services/quant/backtest/engine.py:474-496 | after a buy cash is at least minus the commission floor; a sale costs at most the floor |
| `Cash.CashBound` | services/quant/backtest/engine.py:479-496 | for any targets, shorts included, cash before the close-out is never below -commission_min times the number of fills |
| `Cash.CashNeverNegative` | services/quant/backtest/portfolio.py:278-297 | without a floor cash is never negative before the close-out |
| `Cash.OverdraftNeedsAFloor` | services/quant/backtest/portfolio.py:292-297 | cash stays non-negative on every run exactly when commission_min is 0; the affordable quantity ignores the floor |
| `Cash.FloorOverdraws` | services/quant/backtest/portfolio.py:292-297 | for every positive floor, a two-bar market whose cash goes below zero |
| `Cash.LiquidatedCash` | services/quant/backtest/engine.py:510-540 | under any floor the close-out leaves the equity marked at the final close less the cost of closing (commission and the gap to the close), so cash is non-negative exactly when that equity covers that cost: the close-out checks nothing |
| `Cash.LongCloseOutBound` | services/quant/backtest/engine.py:510-540 | a run that does not end short keeps its cash, close-out included, above -commission_min times the number of all fills |
| `Cash.ShortCloseOutOverdraws` | services/quant/backtest/engine.py:510-540 | a two-bar short, without any costs, that the close-out leaves 8990 below zero |
| `Tracking.WholeTargetsAreTracked` | services/quant/backtest/engine.py:204-215 | with whole targets positions stay whole; each is the previous target unless its bar warns; a skip leaves it; a cut moves it strictly towards the target (strictly between without a floor) by the largest whole affordable quantity |
| `WholeUnits.DefaultTargetIsWhole` | services/quant/strategies/base.py:366-379 | a decision under default sizing asks for nothing, for what is held, or for a whole number of units |
| `WholeUnits.DefaultSizingTracks` | services/quant/backtest/engine.py:204-215 | so with default sizing, for any signals and exits, every target and position is whole and the tracking laws hold at every bar |
| `WholeUnits.WholeTargetsGain` | services/quant/backtest/engine.py:131-227 | hence a run with whole targets that is closed out gained its gross trade results less commissions, or realized PnL plus slippage |
| `Tracking.ReducedAmount` | services/quant/backtest/engine.py:479-494 | the size of a cut: whole, affordable, one more unit is not, and below the order when there is no floor |
| `Tracking.CutsAreSmallerWithoutAFloor` | services/quant/backtest/engine.py:479-494 | a "reduced" buy is smaller than its order on all inputs exactly when commission_min is 0 |
| `Tracking.FloorInflatesCut` | services/quant/backtest/portfolio.py:292-297 | for every positive floor, cash and a price at which an order of one unit is not affordable and is "reduced" to four |
| `Causality.FutureIsInvisible` | services/quant/backtest/engine.py:153-215 | runs with the same first k bars and agreeing deciders are in the same state up to bar k - 1, whatever follows |
| `Causality.LaterExtends` | services/quant/backtest/engine.py:153-198 | every later state extends an earlier one, and every order, fill, warning and trade it adds is dated later |
| `Causality.RecordsAreDated` | services/quant/backtest/engine.py:153-198 | every order, fill, warning and trade recorded by bar i is dated at or before it |
| `Causality.Truncation` | services/quant/backtest/tests/test_lookahead_bias.py:154-178 | without liquidation, running the first k bars gives exactly the first k equity, exposure and position entries and exactly the orders, fills, warnings and trades dated up to there of any longer agreeing run: all of its own are dated so, all others later |
| `Simulation.Decider.constructor` | services/quant/backtest/engine.py:264-271 | the closure starts with no suppressed direction |
| `Simulation.Decider.Decide` | services/quant/backtest/engine.py:271-344 | the closure over its captured variable returns the target and reason, and leaves the memory, of the pure decision |
| `Decisions.DecisionMeans` | services/quant/backtest/engine.py:271-344 | a decision leaves, with a zero target and the held side remembered, exactly when an open position's exit hook says so; else it follows the bar's row, with shorts flat where not allowed and a remembered direction flat, holds what is on that side already, and otherwise takes the size hook's answer to the bar's close, conviction, indicators, equity and cash |
| `Decisions.ExitSeesIt` | services/quant/backtest/engine.py:281-300 | the exit hook sees the whole bar, its indicators, the open position and what it would gain at this close |
| `Decisions.SizingSeesIt` | services/quant/backtest/engine.py:327-342 | the sizing hook sees the bar's close, conviction and indicators, the direction decided, and the account at this close |
| `Decisions.SignalIsHeld` | services/quant/backtest/engine.py:304-342 | with default sizing, no exits and equity that is not negative the position at bar i + 1 is on the side of row i, or flat because the allotted money buys no unit, unless that bar warns; only SHORT rows are flattened without allow_short |
| `Simulation.Simulate` | services/quant/backtest/engine.py:230-366 | the errors in their order, else the run of the strategy's decisions on fresh objects |
| `Simulation.SimulateTargets` | services/quant/backtest/engine.py:369-428 | the errors in their order, else the run of the targets array on fresh objects |
| `Suppression.SuppressedTarget` | services/quant/backtest/engine.py:299-316 | what a decision remembers, and that a remembered direction means a zero target |
| `Suppression.ExitIsRemembered` | services/quant/backtest/engine.py:299-316 | after an exit, while the effective signal is unchanged and the position has not changed sides, every target is 0 and the exited direction stays remembered, under any costs and prices |
| `Suppression.NoFloorKeepsSide` | services/quant/backtest/engine.py:479-494 | without a commission floor the position only shrinks towards flat meanwhile, cash-limited covers included |
| `Suppression.ExitSuppresses` | services/quant/backtest/engine.py:264-344 | hence without a floor, after an exit and until the effective signal changes, every target is 0, the exited direction stays remembered and the position only shrinks |
| `Whipsaw.SuppressionNeedsNoFloor` | services/quant/backtest/engine.py:264-344 | exit suppression holds on every run of every strategy exactly when commission_min is 0 |
| `Whipsaw.FloorReenters` | services/quant/backtest/engine.py:479-494 | for every positive floor, a run under one unchanged SHORT signal that exits one unit short, overshoots to three units long, and enters short again |
| `Suppression.SignalChangeReleases` | services/quant/backtest/engine.py:312-316 | the first bar with another effective direction lifts the suppression and decides as if there had been no exit, given no floor or that the position has not changed sides |
| `LongOnly.DefaultSizeNonNegative` | services/quant/strategies/base.py:366-379 | default sizing is non-negative unless the direction is short |
| `Decisions.DefaultSizeFits` | services/quant/strategies/base.py:366-379 | a default long size is the largest whole number of units worth at most 0.95 of equity times the clamped conviction |
| `Decisions.DefaultSizeMirrors` | services/quant/strategies/base.py:366-379 | a short size is minus the long one, FLAT or a price that is not positive gives 0, and negative equity turns the side round |
| `LongOnly.LongOnlyTarget` | services/quant/backtest/engine.py:304-342 | a long-only decision never asks for a negative position, whatever the signals and exits |
| `LongOnly.LongOnlySafety` | services/quant/backtest/engine.py:304-342 | with allow_short off, default sizing, bounded costs and no floor: quantity, cash and equity are non-negative at every bar |
| `LongOnly.LongOnlyEnd` | services/quant/backtest/engine.py:510-540 | the close-out of such a run leaves it flat with non-negative cash |
| `CppPortfolio.Portfolio.constructor` | services/execution-cpp/src/portfolio.cpp:8-14 | the single-position ledger starts flat with its cash |
| `CppPortfolio.Portfolio.Open` | services/execution-cpp/src/portfolio.cpp:54-61 | opening overwrites quantity, price, entry and costs |
| `CppPortfolio.Portfolio.Add` | services/execution-cpp/src/portfolio.cpp:63-70 | adding blends the price and attaches the cost |
| `CppPortfolio.Portfolio.Close` | services/execution-cpp/src/portfolio.cpp:72-119 | closing appends one trade and snaps to flat below 1e-12 |
| `CppPortfolio.Portfolio.ApplyFill` | services/execution-cpp/src/portfolio.cpp:16-52 | the whole ledger after a fill is the specified one |
| `CppSimulator.PendingIsForThisBar` | services/execution-cpp/src/simulator.cpp:121-139 | the optional slot always holds an order for the current bar: the logic_error is unreachable |
| `CppSimulator.ExecuteOrder` | services/execution-cpp/src/simulator.cpp:30-72 | an order on its bar is filled in full, cut with one warning or skipped with one warning, exactly as specified |
| `CppSimulator.SettlePending` | services/execution-cpp/src/simulator.cpp:130-139 | the slot is executed, booked and reset |
| `CppSimulator.MarkAndDecide` | services/execution-cpp/src/simulator.cpp:141-160 | one point per list, and the order for the next bar unless this is the last |
| `CppSimulator.LiquidateAtEnd` | services/execution-cpp/src/simulator.cpp:163-172 | the close-out overwrites the last equity and exposure point and leaves the last position event alone |
| `CppSimulator.SimulateTargets` | services/execution-cpp/src/simulator.cpp:97-183 | the errors in their order, else the result record of the specified run |
| `Parity.SameFilled` | services/execution-cpp/src/portfolio.cpp:16-119 | one fill takes the C++ position and trades to the image of the Python ones, in all four cases |
| `Parity.SameApplyFill` | services/execution-cpp/src/portfolio.cpp:16-52 | the same for the whole ledger: cash, totals, position and trade log |
| `Parity.SameExecute` | services/execution-cpp/src/simulator.cpp:31-72 | an order is filled, cut or skipped the same way, with the same warning facts |
| `Parity.ReachedAgrees` | services/execution-cpp/src/simulator.cpp:126-161 | the two loops are in corresponding states after every bar |
| `Parity.EnginesAgree` | services/quant/backtest/cpp_engine.py:209-319 | for all bars, targets, reasons and configurations the C++ run mapped back to timestamps and a dictionary is the Python run: orders, fills, trades, warnings, equity, exposure, positions and totals |
| `MovingAverage.ComputeEma` | services/quant/indicators/moving_average.py:35-63 | the loop writes the seeded recursion: missing before the seed, the mean at it, blended values after it |
| `MovingAverage.EmaPrefix` | services/quant/indicators/moving_average.py:35-63 | causality: the EMA of a truncated series is the truncated EMA |
| `MovingAverage.EmaBetween` | services/quant/indicators/moving_average.py:35-63 | each EMA value lies between any bounds of the inputs so far |
| `MovingAverage.EmaContracts` | services/quant/indicators/moving_average.py:35-63 | two EMAs started at different bars differ by exactly (1 - alpha)^(t - t0) times their difference at the later seed |
| `MovingAverage.CutMatters` | services/quant/indicators/moving_average.py:35-63 | for a span above 1 a value is the same for two cuts exactly when the longer EMA equals the mean of the later cut's seed window at that seed |
| `MovingAverage.CutsDiffer` | services/quant/indicators/moving_average.py:35-63 | the two-bar EMA of 0, 1, 1 ends at 5/6, and at 1 once the first value is cut off |
| `MovingAverage.SpanOneIsTheSeries` | services/quant/indicators/moving_average.py:35-63 | a span of 1 gives the series itself, wherever it is cut |
| `MovingAverage.EmaForgets` | services/quant/indicators/moving_average.py:35-63 | hence by at most that factor times the range of the inputs |
| `Statistics.Samuelson` | services/quant/indicators/zscore.py:49-56 | in a window of w values (last - mean)^2 <= (w - 1) * population variance |
| `Statistics.CauchySchwarz` | services/quant/indicators/correlation.py:62-76 | (a.b)^2 <= (a.a)(b.b) |
| `Statistics.CorrelationBound` | services/quant/indicators/correlation.py:62-76 | cov(a, b)^2 <= var(a) var(b) |
| `Statistics.LeastSquares` | services/quant/indicators/correlation.py:95-101 | cov / var with the best intercept has the least sum of squared residuals of all lines |
| `PairStatistics.ClipIsIdle` | services/quant/indicators/correlation.py:71-76 | the clip never changes an exact correlation |
| `PairStatistics.HedgeRatioIsLeastSquares` | services/quant/indicators/correlation.py:79-101 | wherever the hedge ratio exists it is the least-squares slope of its window |
| `PairStatistics.ZScoreAtRow` | services/quant/indicators/zscore.py:49-56 | a z-score is the last value's distance from its window's mean in population deviations, and exists only where they are positive |
| `PairStatistics.ZScoreBound` | services/quant/indicators/zscore.py:49-56 | z^2 <= window - 1 on every row |
| `Series.KnownWindow` | services/quant/indicators/moving_average.py:25-32 | a rolling window over known values is the last `window` of them, and missing until there are so many |
| `Series.RollingPrefix` | services/quant/indicators/moving_average.py:25-32 | rolling aggregates are causal |
| `Series.RollingPairPrefix` | services/quant/indicators/correlation.py:62-63 | rolling aggregates of two columns are causal |
| `Series.ForwardFillSteps` | services/quant/strategies/macd.py:105 | forward fill, row by row: a cell that is set wins, else the previous result, else the default |
| `SignalFrame.AssignWhere` | services/quant/strategies/macd.py:100-103 | a masked assignment overwrites the cells of the mask and no others |
| `SignalFrame.TwoMasksStep` | services/quant/strategies/macd.py:99-105 | two masks in order and a forward fill are a state machine in which the later mask wins |
| `Macd.GenerateSignals` | services/quant/strategies/macd.py:76-136 | fails below warm-up, else the specified rows and indicators |
| `Macd.CrossoverMachine` | services/quant/strategies/macd.py:87-107 | a downward crossover decides, else an upward one, else the target is held; flat at the start |
| `Macd.HistogramKnown` | services/quant/indicators/macd.py:66-73 | the histogram exists exactly from row slow + signal - 2 on |
| `Macd.SignalLinePrefix` | services/quant/indicators/macd.py:70-71 | the signal line over the seeded part, put back on its rows, is causal |
| `Macd.FollowsHistogram` | services/quant/strategies/macd.py:90-107 | without the zero-line filter: flat before the first crossover, afterwards long exactly while the last nonzero histogram value is positive |
| `MacdRows.EmittedRows` | services/quant/strategies/macd.py:83-128 | each row from the emitted indicators of it and the row before: up-crossing LONG, down-crossing SHORT or FLAT, both behind the zero-line filter if asked for, else the previous direction; strength and reason to match |
| `MacdRows.EmittedColumns` | services/quant/indicators/macd.py:66-73 | the emitted columns are fast EMA less slow EMA, the EMA of that seeded from its first values, and their difference, each on exactly the rows that have it |
| `MacdRows.TrendSign` | services/quant/indicators/macd.py:66-68 | on closes that never fall no emitted MACD value is negative, on closes that never rise none is positive |
| `MacdRows.TurnGoesLong` | services/quant/strategies/macd.py:87-107 | on closes 4, 3, 2, 0, 3, 5 the histogram turns from -1/12 to 11/54 and the strategy goes long on that row |
| `Macd.SignalsPrefix` | services/quant/strategies/macd.py:79-136 | signals and indicators of a truncated series are the truncated ones of the full series |
| `Bollinger.GenerateSignals` | services/quant/strategies/bollinger.py:72-162 | fails below warm-up, else the specified rows and indicators |
| `Bollinger.BandsAtRow` | services/quant/indicators/bollinger.py:81-84 | the bands exist from row window - 1 on and are mean plus or minus num_std population deviations of that window |
| `Bollinger.PercentBLocatesTouches` | services/quant/indicators/bollinger.py:86-94 | percent_b exists exactly where the bands have width; there it is below 0 exactly on a lower touch and above 1 exactly on an upper one |
| `Bollinger.BandMachine` | services/quant/strategies/bollinger.py:81-120 | an upper touch decides, else a lower touch, else a middle crossing flattens, else the target is held |
| `BollingerRows.EmittedRows` | services/quant/strategies/bollinger.py:81-152 | each row from the closes: above mean + num_std deviations SHORT or FLAT, below LONG, else FLAT when the close crosses the mean of its window, else the previous direction; strength and reason to match |
| `BollingerRows.EmittedColumns` | services/quant/indicators/bollinger.py:78-96 | the five emitted columns in terms of the mean and deviation of the trailing window |
| `Bollinger.BandsNeverTouched` | services/quant/indicators/bollinger.py:81-84 | with num_std^2 >= window - 1 no close ever leaves its bands |
| `Bollinger.NeverTradesExactly` | services/quant/strategies/bollinger.py:81-120 | the signals are flat on every series exactly when num_std^2 >= window - 1 |
| `Bollinger.SignalsPrefix` | services/quant/strategies/bollinger.py:72-162 | signals, reasons and indicators of a truncated series are the truncated ones of the full series |
| `DualThrust.GenerateSignals` | services/quant/strategies/dual_thrust.py:101-208 | fails below warm-up, else the specified rows and indicators |
| `DualThrust.RangeOfCompletedBars` | services/quant/strategies/dual_thrust.py:118-136 | the range on row t is max(HH - LC, HC - LL) of the lookback bars before it, and missing until there are so many |
| `DualThrust.RangeNonNegative` | services/quant/strategies/dual_thrust.py:128-136 | on validated bars the range is never negative |
| `DualThrust.CloseBreaksOneWay` | services/quant/strategies/dual_thrust.py:138-160 | judged from closes a bar never breaks out both ways |
| `DualThrust.BreakoutLevels` | services/quant/strategies/dual_thrust.py:133-157 | a bar breaks out exactly when, from row lookback on and with a range of some width, its close (or high, or low) reaches open + k_upper * range or open - k_lower * range of the bars before it |
| `DualThrust.BreakoutMachine` | services/quant/strategies/dual_thrust.py:138-175 | a downside break decides, else an upside break, else the target is held |
| `DualThrustRows.PriorRangeIsWidest` | services/quant/strategies/dual_thrust.py:118-130 | the range is the widest move from a close up to a high or from a low up to a close among the lookback bars before the row |
| `DualThrustRows.EmittedRows` | services/quant/strategies/dual_thrust.py:133-190 | each row from its bar and that range: down-break SHORT or FLAT, else up-break LONG, else the previous direction; strength and reason to match |
| `DualThrustRows.EmittedColumns` | services/quant/strategies/dual_thrust.py:128-200 | the emitted range and triggers are that move and k of it above and below the open |
| `DualThrust.SignalsPrefix` | services/quant/strategies/dual_thrust.py:101-208 | signals, reasons and indicators of truncated bars are the truncated ones of the full bars |
| `PairTrading.GenerateSignals` | services/quant/strategies/pair_trading.py:265-407 | the four errors in their order, else the specified rows and indicators |
| `PairTrading.CommonMember` | services/quant/strategies/pair_trading.py:284-287 | the common index holds exactly the shared timestamps |
| `PairTrading.EventsAreDisjoint` | services/quant/strategies/pair_trading.py:319-331 | enter-long, enter-short, revert and unusable exclude each other, since exit_z < entry_z |
| `PairTrading.PairMachine` | services/quant/strategies/pair_trading.py:333-346 | the masked and filled target as a state machine over those events |
| `PairTrading.LatestEventDecides` | services/quant/strategies/pair_trading.py:333-346 | a common bar is long exactly when its latest event is enter-long and short exactly when it is enter-short |
| `PairTrading.RowIsTarget` | services/quant/strategies/pair_trading.py:376-383 | the emitted row of a bar on the common index carries the target of that common bar |
| `PairTrading.EmittedRows` | services/quant/strategies/pair_trading.py:333-383 | an emitted row is long exactly when both legs have its bar and the latest event up to it enters long, and short exactly when that event enters short |
| `PairRows.EmittedPositions` | services/quant/strategies/pair_trading.py:294-383 | an emitted row is LONG exactly when, since a common bar on which log(primary) - ratio * log(pair) lay at least entry_z deviations below its mean, no bar entered, reverted, decoupled or could not be measured; SHORT the same since it lay above |
| `PairRows.EventsMean` | services/quant/strategies/pair_trading.py:319-331 | the four events of a row in terms of the spreads and returns of its window, for any two legs |
| `PairRows.EmittedColumns` | services/quant/strategies/pair_trading.py:348-398 | strength, reason and the four indicators of an emitted row, in the same terms |
| `PairTrading.NoEventIsFlat` | services/quant/strategies/pair_trading.py:346 | before any event the target is flat |
| `PairTrading.MissingBarsAreFlat` | services/quant/strategies/pair_trading.py:376-383 | every bar without a counterpart in the pair is flat |
| `PairTrading.NeverEnters` | services/quant/strategies/pair_trading.py:319-331 | with entry_z^2 > lookback - 1 the target is flat on every common bar |
| `PairTrading.NeverTrades` | services/quant/strategies/pair_trading.py:319-383 | so every emitted row of any two series is flat |
| `PairTrading.CutCommon` | services/quant/strategies/pair_trading.py:284-287 | legs cut at the same moment share the first common timestamps, all others come later |
| `PairTrading.StatsPrefix` | services/quant/strategies/pair_trading.py:294-316 | spread, z-score, correlation and hedge ratio are causal on the common index |
| `PairTrading.SignalsPrefix` | services/quant/strategies/pair_trading.py:287-398 | signals and indicators of legs cut at the same moment are the truncated ones of the full legs |
| `LookAhead.SameDecision` | services/quant/backtest/engine.py:271-344 | before bar k the decision cannot tell truncated signals from full ones, for any pure sizing and exit |
| `LookAhead.CutSignalsSameHistory` | services/quant/backtest/tests/test_lookahead_bias.py:154-178 | running the first k rows gives the first k equity, exposure and position entries and exactly the orders, fills, warnings and trades dated up to there |
| `LookAhead.MacdSeesNoFuture` | services/quant/strategies/macd.py:76-136 | no look-ahead end to end: cut the bars, generate MACD signals, run the engine, and get the beginning of the full result |
| `LookAhead.BollingerSeesNoFuture` | services/quant/strategies/bollinger.py:72-162 | the same for Bollinger |
| `LookAhead.DualThrustSeesNoFuture` | services/quant/strategies/dual_thrust.py:101-208 | the same for Dual Thrust |
| `LookAhead.PairTradingSeesNoFuture` | services/quant/strategies/pair_trading.py:265-407 | the same for pair trading, both legs cut at the same moment |
| `LookAhead.MacdCorruptedFuture` | services/quant/backtest/tests/test_lookahead_bias.py:154-196 | two MACD backtests over the same first k bars record the same equity, exposure, positions, orders, fills, warnings and trades of them, however their futures differ |
| `LookAhead.BollingerCorruptedFuture` | services/quant/backtest/tests/test_lookahead_bias.py:154-196 | the same for Bollinger |
| `LookAhead.DualThrustCorruptedFuture` | services/quant/backtest/tests/test_lookahead_bias.py:154-196 | the same for Dual Thrust |
| `LookAhead.PairTradingCorruptedFuture` | services/quant/backtest/tests/test_lookahead_bias.py:154-196 | the same for pair trading, when both legs agree up to the same moment |
| `Drawdown.PeakIsHighest` | services/quant/backtest/metrics.py:85-88 | the running peak is the highest equity so far, and was reached |
| `Drawdown.MaxDrawdownIsWorstPair` | services/quant/backtest/metrics.py:91-95 | on a curve that never goes negative the running-peak drawdown is the minimum of e[j] / e[i] - 1 over all i <= j with e[i] > 0, is attained, and is at least -1 |
| `Drawdown.NegativeEquityDiffers` | services/quant/backtest/metrics.py:91-95 | a curve below zero on which the two definitions differ |
| `Drawdown.DrawdownScales` | services/quant/backtest/metrics.py:85-95 | the drawdown curve and its minimum do not depend on the size of the account |
| `Drawdown.LongerIsDeeper` | services/quant/backtest/metrics.py:91-95 | a longer curve has at least the drawdown of its beginning |
| `Drawdown.DrawdownMeansUnderwater` | services/quant/backtest/metrics.py:91-107 | the drawdown is never positive, and negative exactly when some bar lies below an earlier one |
| `Drawdown.MaxDrawdownDuration` | services/quant/backtest/metrics.py:98-111 | the loop returns the length of the longest contiguous stretch of bars strictly below an earlier peak |
| `Drawdown.PointAt` | services/quant/backtest/engine.py:180-186 | a run's curve holds at each bar the equity of the portfolio as it stood then |
| `Drawdown.FirstPoint` | services/quant/backtest/engine.py:180-223 | every run's equity curve starts at its initial cash, so its running peak is positive |
| `Drawdown.LongOnlyDrawdown` | services/quant/backtest/metrics.py:91-95 | the drawdown of a whole long-only run lies between -100% and 0 |
| `Concentration.SortIsOrdered` | services/quant/portfolio/holdings.py:381-383 | heaviest first, ties by symbol |
| `Concentration.SortKeepsEntries` | services/quant/portfolio/holdings.py:381-383 | sorting keeps exactly the entries |
| `Concentration.TopIsHeaviest` | services/quant/portfolio/holdings.py:384-392 | the top-N weight is the largest total of any N holdings, and is the total of N of them |
| `Concentration.HhiBounds` | services/quant/portfolio/holdings.py:386-396 | the square of the largest weight <= HHI <= the largest weight <= 1, and 1 / n <= HHI |
| `Concentration.HhiIsOne` | services/quant/portfolio/holdings.py:126-135 | HHI is 1 exactly when everything sits in one name |
| `Concentration.HhiIsLeast` | services/quant/portfolio/holdings.py:126-135 | HHI is 1 / n exactly when the n positions are equally weighted |
| `Concentration.SummaryMeans` | services/quant/portfolio/holdings.py:376-397 | the summary: an entry that precedes all others, the top N of the order with their total, which no other selection exceeds, the sum of squares, and its reciprocal above 1e-9 |
| `Concentration.EffectiveBounds` | services/quant/portfolio/holdings.py:394-396 | with fewer than a billion holdings the effective number of holdings exists and lies between 1 and n |
| `Holdings.WeightsAllocate` | services/quant/portfolio/holdings.py:253-279 | the weights of a valued portfolio are positive, one per holding, and sum to 1 |
| `Holdings.HoldingAccepts` | services/quant/portfolio/holdings.py:60-81 | a holding is accepted exactly when its symbol is known, its quantity positive and its cost, if any, not negative |
| `Holdings.PortfolioAccepts` | services/quant/portfolio/holdings.py:210-221 | a portfolio is accepted exactly when it holds something, no symbol twice, against a known benchmark |
| `Holdings.ValueAccepts` | services/quant/portfolio/holdings.py:228-256 | a portfolio is valued exactly when every holding has a positive price and they are worth more than 1e-9 |
| `Holdings.PnlAddsUp` | services/quant/portfolio/holdings.py:258-275 | when every cost is recorded the positions' PnL adds up to total value less total cost, and otherwise there is no total |
| `Holdings.ValueMeans` | services/quant/portfolio/holdings.py:228-275 | every holding in order at quantity * price, its weight of the total, its PnL and its return on cost, and the summaries of those weights |
| `Holdings.HoldingsAreWorth` | services/quant/portfolio/holdings.py:341-346 | the holdings built from weights are worth weight * total each, on the positive weights only |
| `Holdings.ComputeExposure` | services/quant/portfolio/holdings.py:400-438 | the accumulating loop returns the specified sector dictionary, remainder and symbols |
| `Holdings.BucketHolds` | services/quant/portfolio/holdings.py:413-419 | each sector's bucket holds the weight of its holdings |
| `Holdings.BucketsCover` | services/quant/portfolio/holdings.py:413-419 | buckets and unclassified remainder make up the whole weight |
| `Holdings.SectorlessRemain` | services/quant/portfolio/holdings.py:404-419 | the remainder lists exactly the symbols without a sector, in order, and weighs what they weigh |
| `Holdings.ExposureTotal` | services/quant/portfolio/holdings.py:421-424 | what classified + unclassified weight misses is the weight of a sector named like the reserved label |
| `Holdings.ExposureIsComplete` | services/quant/portfolio/holdings.py:421-424 | classified and unclassified weight make up the whole exactly when no held sector carries the reserved label |
| `Holdings.ListedExposureIsComplete` | services/quant/data/universe.py:55-75 | over the instruments that exist, none of whose sectors is the reserved label, classified and unclassified weight make up the whole for every weight vector |
| `Scenario.ValidateAccepts` | services/quant/portfolio/scenario.py:42-86 | an override map passes exactly when it is not empty and every entry is finite, not negative and known |
| `Scenario.ValidateComplains` | services/quant/portfolio/scenario.py:42-86 | a malformed map is an invalid request, a well-formed one with an unknown symbol an unknown symbol |
| `Scenario.ResolveWeights` | services/quant/portfolio/scenario.py:89-125 | the dictionary overwritten entry by entry, normalised, with the sum it was divided by when that was not 1 |
| `Scenario.AppliedAt` | services/quant/portfolio/scenario.py:107-110 | overridden symbols take their override, the others keep their weight, nothing else appears |
| `Scenario.ResolvedWeights` | services/quant/portfolio/scenario.py:112-125 | resolved weights sum to 1, each the override or base weight over the same total |
| `Scenario.ResolveReports` | services/quant/portfolio/scenario.py:112-125 | a scenario resolves exactly when its map is well formed and weighs more than 1e-9, and names the sum exactly when that is not within 1e-9 of 1 |
| `Scenario.ProportionsKept` | services/quant/portfolio/scenario.py:124 | symbols the scenario leaves alone keep their relative size |
| `Scenario.WeightsRoundTrip` | services/quant/portfolio/holdings.py:320-350 | weights to holdings and back: valuing the rebuilt portfolio gives the weights on their support and the same total |
| `Scenario.ScenarioRoundTrip` | services/quant/portfolio/scenario.py:105-124 | resolve, rebuild and value: the normalised vector on its support, summing to 1, and the total value kept |

## Left out

- Suppression.SignalChangeReleases: for positions that keep their side, as they do without a floor; once a floor has turned one round, another direction is remembered.
- Simulation.Simulate: the loop it calls threads the closure's captured variable as a value; that the closure object itself computes the same decision and memory is `Simulation.Decider.Decide`.
- PairTrading.NeverTrades: one direction only; that lower thresholds are reached depends on the correlation filter as well.
- Drawdown.MaxDrawdownIsWorstPair: for curves that never go negative; below zero the two definitions differ, as `Drawdown.NegativeEquityDiffers` shows.
- Drawdown.DrawdownCurve: for curves with a positive first point, as every run's is; otherwise the source produces infinities or NaN.
- PyPortfolio.Portfolio.ApplyFill: every fill but one of negative quantity that undoes the position exactly, on which the source divides by zero; orders never have negative quantities, and `FillEvent` itself checks nothing.
- PyPortfolio.Portfolio.FillPosition: the same fill is excluded.
- CppPortfolio.Portfolio.ApplyFill: the same fill is excluded; the source leaves a price that is no number there.
- Macd.FollowsHistogram: without the zero-line filter; with it `Macd.CrossoverMachine` still gives the machine.
- Bollinger.Bandwidth: missing when the middle band is 0, where the source yields an infinity.
- Simulation.ExitContextOf: the unrealized return is 0 when the average price is 0, where the source divides by zero; indicator rows are found by position, as all strategies index them like the bars.
- Holdings.ComputeExposure: leaves the sector dictionary in insertion order; the source sorts it by name for display.
- Holdings.Value: prices are real numbers, so non-finite prices do not occur; whitespace-only symbols count as unknown.
- Concentration.Summarise: a negative `top_n` is not modelled.
- IEEE rounding, fused operations and bit-for-bit equality of the engines: all arithmetic is exact.
- Square root, natural logarithm, case folding and the wording of pair-trading reasons: parameters, with the square root's defining property where a bound needs it.
- Text of warnings: kept as facts (kind, bar, quantities, price).
- Parameter coercion, strategy registry and descriptions: parameters are typed records with the documented bounds.
- Pair data injection: the optional second leg is an argument; the symbol check of the setter is not modelled.
- Price download, caching, timezones, frame plumbing, validation of OHLCV rows and array transfer to the extension: bars are given.
- Sharpe, Sortino, CAGR, volatility, win rate and other ratios: they rest on library roots and powers, or restate formulas.
- Scenario change descriptions and metric deltas: presentation of values proved elsewhere.
- HTTP and RPC services, storage, configuration, logging and the web interface: input and output only.
