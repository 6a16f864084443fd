# Backtest ledger and dispatch loop, in Dafny

A model of the bookkeeping core of an event-driven trading backtester. Two lanes run side
by side: the strategy under test (`ALGO`) and a benchmark (`BENCH`). One shared FIFO event
queue feeds both. Each lane owns a `NaivePortfolio` ledger with four parts:

- current positions: symbol to share count;
- current holdings: symbol to market value, plus the scalars `heldcash`, `commission` and
  `totalholdings`;
- a positions history and a holdings history, keyed by bar timestamp. A holdings record also
  carries `returns` and `equitycurve`.

The `TradingInterface` driver sets a run flag and loads the first bar of each lane. Then it
loops while the flag is 1. When the queue is non-empty, it hands the head event to its
handler by type and target, then erases it:

- a market event goes to the strategy and the benchmark;
- a signal goes to the targeted ledger's order sizing;
- an order goes to the executor;
- a fill goes to the targeted ledger's bookkeeping.

When the queue is empty, the driver runs an idle tick. The benchmark ledger is marked to
market and its bars advance, then the same happens for the algorithm's lane. A lane with no
bar left clears the run flag.

Files:

- `events.dfy` (module `Events`): the event variants and the shared queue, a class over a
  `seq`.
- `portfolio.dfy` (module `Portfolio`): the ledger as a class with map fields, plus the
  specification functions its methods are proved against. The loops of the source
  (construction, marking to market) are `for` loops with invariants.
- `portfolio_proofs.dfy` (module `PortfolioProofs`): properties of those specification
  functions. They cover construction, fill accounting, the balance
  `totalholdings == heldcash + sum of holdings`, equity-curve compounding and order sizing.
- `interface.dfy` (module `Interface`): the driver as a class holding the two ledgers, the
  two bar pipelines and the run flag, with a single-step method and a fuel-bounded loop.

Prices, cash and commissions are `real` (exact arithmetic). Positions and quantities are
`int`. The source's `floor` is `.Floor`.

A missing key reads as zero, as `map::operator[]` does (`Get`). Writes go through
`operator[]`, so they insert the key, and the model writes it too. `rbegin()` of the
timestamp-ordered holdings history is the largest key (`MaxKey`).

## Model

| member | source | states |
|---|---|---|
| Portfolio.ZeroPositionsAt | Infrastructure/portfolio.cpp:46-51 | the map built from the first `n` symbols has exactly those symbols as keys, each at 0 |
| Portfolio.ZeroHoldingsAt | Infrastructure/portfolio.cpp:71-74 | the same for the zero holdings map |
| Portfolio.ConstructCurrentPositions | Infrastructure/portfolio.cpp:46-52 | the loop over the symbol list yields the all-zero positions map |
| Portfolio.ConstructAllPositions | Infrastructure/portfolio.cpp:37-45 | the positions history has the single start-date entry holding the all-zero map |
| Portfolio.ConstructCurrentHoldings | Infrastructure/portfolio.cpp:70-79 | zero holdings for every symbol, `heldcash` and `totalholdings` at the capital, `commission` 0 |
| Portfolio.ConstructAllHoldings | Infrastructure/portfolio.cpp:53-69 | the holdings history has the single start-date entry, which also has `returns` and `equitycurve` at 0 |
| Portfolio.NaivePortfolio.constructor | Infrastructure/portfolio.cpp:19-34 | the ledger starts with those four maps, and `Valid()` holds (the scalar keys are present and the history is non-empty); `InitialBalanced` proves the balance of that state |
| PortfolioProofs.ZeroPositionsFacts | Infrastructure/portfolio.cpp:37-52 | after construction every listed symbol has position 0 and nothing else is tracked |
| PortfolioProofs.InitialHoldingsFacts | Infrastructure/portfolio.cpp:53-79 | exact key sets of the initial snapshot and record; each symbol at 0; `heldcash == totalholdings == capital`; `commission`, `returns` and `equitycurve` all 0 |
| PortfolioProofs.InitialBalanced | Infrastructure/portfolio.cpp:70-79 | the initial snapshot satisfies `totalholdings == heldcash + sum of symbol holdings` |
| Portfolio.NaivePortfolio.UpdatePositionsFromFill | Infrastructure/portfolio.cpp:119-129 | only the fill's symbol moves: by `+quantity` on BUY, `-quantity` on SELL, by nothing for any other direction |
| PortfolioProofs.PositionsFillMovesOneSymbol | Infrastructure/portfolio.cpp:119-129 | the same for the positions function, including its key set, which gains only the fill's symbol |
| Portfolio.NaivePortfolio.UpdateHoldingsFromFill | Infrastructure/portfolio.cpp:133-148 | the new holdings are the fill accounting applied at the latest close, and `Valid()` is kept (the scalar keys stay present); `FillPreservesBalance` proves the balance is kept |
| PortfolioProofs.HoldingsFillAccounting | Infrastructure/portfolio.cpp:133-148 | the symbol's holding gains `cost`; `commission` gains the fill's commission; `heldcash` loses `cost + commission`; `totalholdings` loses the commission only; every other key is unchanged |
| PortfolioProofs.FillCostBySide | Infrastructure/portfolio.cpp:134-143 | `cost` is `close*quantity` on BUY, its negation on SELL, and 0 for any other direction |
| PortfolioProofs.FillShiftsHoldings | Infrastructure/portfolio.cpp:143-144 | among symbol keys, only the fill's symbol changes, by exactly `cost` |
| PortfolioProofs.FillPreservesBalance | Infrastructure/portfolio.cpp:143-147 | a fill for a symbol listed once keeps `totalholdings == heldcash + sum of holdings` |
| Portfolio.NaivePortfolio.UpdateFill | Infrastructure/portfolio.cpp:151-154 | positions, then holdings, change as the two fill functions say; both histories are unchanged |
| PortfolioProofs.BuyThenSellRestores | Infrastructure/portfolio.cpp:119-154 | a BUY of q and then a SELL of q at an unchanged close restore the position and holding; `heldcash` and `totalholdings` drop, and `commission` rises, by the two commissions |
| Portfolio.CalculateQuantity | Infrastructure/portfolio.cpp:181-199 | strength 0 gives exactly `-position`. Otherwise, at or below the 500-share threshold, the result is the most whole shares the required cash buys at `close + 0.013`, and at most 500. Above it, the same at `close + 0.008`, and at least 500 |
| Portfolio.SmallTier | Infrastructure/portfolio.cpp:194-195 | the floored quotient of the small tier is the largest affordable share count and is at most 500 |
| Portfolio.LargeTier | Infrastructure/portfolio.cpp:196-197 | the floored quotient of the large tier is the largest affordable share count and is at least 500 |
| Portfolio.NaiveOrders | Infrastructure/portfolio.cpp:168-177 | zero quantity gives no order, else exactly one MKT order on the signal's target with a positive quantity whose signed fill moves the position by exactly the computed quantity |
| Portfolio.NaivePortfolio.GenerateNaiveOrder | Infrastructure/portfolio.cpp:161-178 | the queue gains exactly the sized orders at its tail; earlier events are unchanged and keep their order |
| Portfolio.NaivePortfolio.UpdateSignal | Infrastructure/portfolio.cpp:155-157 | the same as `GenerateNaiveOrder` |
| PortfolioProofs.SizingExample | Infrastructure/portfolio.cpp:181-198 | capital 100000, close 50, strength 1 sizes `floor(100000/50.008) = 1999` shares and one BUY order |
| PortfolioProofs.SmallOrderExample | Infrastructure/portfolio.cpp:194-195 | capital 10000, close 100, strength 0.5 falls in the small tier and sizes 49 shares |
| PortfolioProofs.SellDownExample | Infrastructure/portfolio.cpp:189-195 | holding 100 at 10 with total 1000 and strength 0.5 sizes -50, a SELL order of 50 |
| Portfolio.MarkedAt | Infrastructure/portfolio.cpp:99-101 | the marking of the first `n` symbols writes `position*close` at each of them and leaves every other key as it was |
| Portfolio.RecordedAt | Infrastructure/portfolio.cpp:95 | the positions record holds each of the first `n` symbols' current position and keeps every other key |
| Portfolio.MarkSymbols | Infrastructure/portfolio.cpp:89-103 | the loop's sum, marked snapshot, positions record and marked holdings record are the marking functions over the whole symbol list |
| Portfolio.RecordBar | Infrastructure/portfolio.cpp:84-115 | the body of `update_timeindex` yields the ticked snapshot and both ticked histories, and keeps every record's scalars |
| Portfolio.NaivePortfolio.UpdateTimeindex | Infrastructure/portfolio.cpp:82-116 | the snapshot and both histories become their ticked values, positions are unchanged, and `Valid()` is kept (the scalar keys stay present); `TickBalancesCurrent` and `TickBalancesRecord` prove the balance after the tick |
| Portfolio.TickedHistoryValid | Infrastructure/portfolio.cpp:100-115 | after a tick every holdings record still carries all five scalar keys |
| Portfolio.MaxKey | Infrastructure/portfolio.cpp:86-87 | the entry the previous total and curve are read from has the largest timestamp of the history |
| PortfolioProofs.MarkedValues | Infrastructure/portfolio.cpp:99-101 | after marking, every listed symbol's holding is `position*close` |
| PortfolioProofs.HoldingsSumOfMarked | Infrastructure/portfolio.cpp:102 | once every symbol is marked, the accumulated `sumvalues` is the sum of the symbol holdings |
| PortfolioProofs.TickBalancesCurrent | Infrastructure/portfolio.cpp:99-105 | after a tick the snapshot holds `position*close` for each symbol; cash and commission are kept; `totalholdings == heldcash + sumvalues`; the snapshot is balanced |
| PortfolioProofs.TickedRecordIsMarked | Infrastructure/portfolio.cpp:100-108 | apart from `returns` and `equitycurve`, the new record is the marked entry with the current cash, commission and total copied in |
| PortfolioProofs.MarkedRecordBalances | Infrastructure/portfolio.cpp:100-108 | that marked record holds `position*close` per symbol and the current cash and commission, and its total is cash plus `sumvalues` |
| PortfolioProofs.TickBalancesRecord | Infrastructure/portfolio.cpp:95-108 | the history record at the bar date is balanced and marked, and the positions record at that date holds the current positions |
| PortfolioProofs.CurveStep | Infrastructure/portfolio.cpp:86-115 | with more than one history entry, `returns = total/previousTotal - 1` and `equitycurve = (previousCurve+1)*(returns+1) - 1`, both read from the latest entry before the tick |
| PortfolioProofs.NoCurveStepAtSingleDate | Infrastructure/portfolio.cpp:111 | with a single history entry, `returns` and `equitycurve` keep their previous values |
| PortfolioProofs.CompoundedIsGrowth | Infrastructure/portfolio.cpp:114 | from a flat curve, compounding period returns gives the product of `(1 + r)`, less 1 |
| PortfolioProofs.CurveTracksTotal | Infrastructure/portfolio.cpp:112-114 | if the previous curve is `previousTotal/base - 1`, the next curve is `total/base - 1` |
| PortfolioProofs.TickTracksTotal | Infrastructure/portfolio.cpp:86-115 | a tick keeps `equitycurve + 1 == totalholdings / base` from the latest record to the new one |
| Events.EventQueue.Push | Infrastructure/portfolio.cpp:172-174 | `push_back` appends the event at the tail and leaves every queued event in place and in order |
| Events.EventQueue.PushAll | Infrastructure/interface.cpp:57-58 | the events a handler pushes are appended at the tail, in order, behind every queued event |
| Events.EventQueue.PopFront | Infrastructure/interface.cpp:91 | erasing the head leaves exactly the rest of the queue, in order |
| Interface.TradingInterface.constructor | Infrastructure/interface.cpp:14-33 | the run flag is 0, the queue is empty, and each lane has a fresh ledger over its own symbols in its construction state (both current maps and both histories), sharing the queue |
| Interface.AdvanceStep | Infrastructure/interface.cpp:94-96 | one `update_bars` keeps the delivered count within the bars, lowers the remaining count by exactly one and makes the next bar the latest, announcing it with one market event; with no bar left it changes nothing and announces nothing |
| Interface.AdvancingDelivers | Infrastructure/interface.cpp:92-98 | `k` calls of `update_bars` deliver `min(k, remaining)` bars, push exactly that many market events of the lane, and leave the pipeline exhausted exactly when `k` reaches the bars that were left |
| Interface.TradingInterface.UpdateBars | Infrastructure/interface.cpp:39 | the algorithm's pipeline advances, its market event is appended, and the flag is cleared exactly when no bar was left |
| Interface.TradingInterface.UpdateBenchmarkBars | Infrastructure/interface.cpp:41 | the same for the benchmark's pipeline |
| Interface.TradingInterface.DispatchSignal | Infrastructure/interface.cpp:60-69 | a signal reaches the order sizing of only the ledger its target names, and of neither for any other target |
| Interface.TradingInterface.DispatchFill | Infrastructure/interface.cpp:78-89 | a fill updates only the ledger its target names, priced at that lane's latest close; an unknown target leaves both ledgers as they were |
| Interface.TradingInterface.Dispatch | Infrastructure/interface.cpp:52-91 | the head is removed and its handler's events land behind every waiting event. A market event brings the strategy's and then the benchmark's signals. An order brings the executor's answer. An unknown type brings nothing. Only a fill changes a ledger |
| Interface.TradingInterface.TickBenchmark | Infrastructure/interface.cpp:93-94 | the benchmark ledger ticks at its latest bar, then its pipeline advances |
| Interface.TradingInterface.TickAlgo | Infrastructure/interface.cpp:95-96 | the algorithm's ledger ticks at its latest bar, then its pipeline advances |
| Interface.TradingInterface.IdleTick | Infrastructure/interface.cpp:92-98 | both ledgers tick at the bars current before the tick; the queue receives the benchmark's announcement before the algorithm's; the flag stays 1 only if both lanes had a bar left |
| Interface.TradingInterface.Step | Infrastructure/interface.cpp:52-98 | with a queued event, the dispatch above happens, the bar pipelines stay, and neither ledger's history changes. Only on an empty queue does the idle tick run, and histories grow only then |
| Interface.TradingInterface.RunBacktest | Infrastructure/interface.cpp:36-101 | the flag is set and both lanes loaded, the algorithm's first. An exhausted lane ends the run before any event is handled. The loop runs only while the flag is 1, and the outcome says whether the flag was cleared |

## Left out

- Loading bars from CSV files (`format_csv_data`, `update_bars`, `get_latest_bars`): the data handler is not part of this model. A lane's bars are a `Pipeline`, a finite sequence of `Frame`s with a delivered count. `update_bars` delivers the next frame and pushes a `MARKET` event carrying the lane's tag, or clears the run flag when no frame is left.
- Per-symbol timestamps: the source reads the date from each symbol's latest bar, and the last symbol's date keys the totals. The model gives each lane's latest bar one timestamp shared by all of its symbols.
- The strategy, the benchmark and the executor: their sources are not part of this model. They are functions passed to `RunBacktest` (`Collaborators`): market event and latest bar to signals, and order to the event pushed for it.
- The plotter (`updatePlot`, `quitPlot`), all `cout` output and `print_order`: output only.
- `get_epoch_time` date parsing: the start date is an `int` timestamp. The end date is never read by the core and is not modelled.
- The unused `spy` local in the driver's constructor.
- IEEE-754 rounding: amounts are exact `real`s. `NaivePortfolio.UpdateSignal` and `CalculateQuantity` require a non-negative close when the strength is non-zero. This is because the source divides by `close + 0.013` or `close + 0.008` unguarded.
- `NaivePortfolio.UpdateTimeindex` requires a non-zero previous total whenever the equity curve is stepped (`TickDefined`), because the source divides by it unguarded. It also requires a non-empty symbol list, because otherwise the source reads an uninitialised date. `RunBacktest` checks both before each idle tick and stops with `TickUndefined` instead of modelling the undefined behaviour.
- `RunBacktest`: termination depends on the data supply, so the loop takes at most `fuel` steps and reports `OutOfFuel` when the bound is reached with the flag still set.
- Positions are `double` in the source; they are `int` here. Every change to them is an integer quantity, so they stay integral. The `int` conversions of the sized quantity are not modelled for overflow.
- `CalculateQuantity` reads `current_positions[symbol]` through `operator[]`, which inserts a zero entry for an untracked symbol. The model reads without inserting. The zero entry is never read back differently, and the marking loop walks the symbol list, not the map.
- The ledger requires that no symbol is named after a scalar key (`heldcash`, `commission`, `totalholdings`, `returns`, `equitycurve`). In the source such a symbol would share its map entry with the scalar.
- Ownership through `boost::ptr_vector` and `dynamic_cast`: events are values of a datatype. An event type other than the four known ones is `Other`.
- `CalculateQuantity` picks the commission tier with the code's signed test `requiredcash <= 500*(close+0.013)`, not on the absolute amount. So every sale, whose required cash is negative, is sized in the 0.013 tier, however large. The model follows the code.
- A bar timestamp already present in the history is overwritten in place rather than appended. This follows the code's `operator[]` writes, and the model does the same.
