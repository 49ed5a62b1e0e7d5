# Coinext: verified core

A Dafny model of the deterministic core of Coinext and of the accounting that has to agree with it,
with machine-checked proofs about every input, every run and every reachable state.

- **The simulated exchange** (`Domain`, `Brokerage`, `Venue`, `SimulatedExchange`): a resting-order
  book and a queue of delayed reports; market, limit, stop, stop-limit and trailing orders, deferral
  to the next open, volume participation, queue position, latency. `Venue` is the state machine as a
  function of its operations; `SimulatedExchange` is the mutable client, with its two-phase
  `on_market`, proved to compute it. `OrderLife` proves that the venue is the parallel composition of
  one small automaton per order, which reduces every claim about one order in a busy book to a claim
  about that automaton; `LifeLaws`, `ExecutionLaws`, `FillLaws`, `TickLaws`, `TickRuns` and `Delivery`
  prove the claims.
- **The kernel** (`Clock`, `Kernel`, `BacktestKernel`): the four-way merge of market events, delayed
  reports, timers and expiries, driving an arbitrary strategy. A strategy is any function from the
  history of everything it was shown to the commands and timers it issues. `KernelSteps` breaks an
  iteration into small steps and gives the induction principle; `KernelLaws`, `IterationLaws`,
  `ClosingLaws`, `Causality`, `Termination`, `Agreement` and `LostFill` prove ordering, what settlement
  and liquidation close, no look-ahead, when runs end, and how the order management system tracks the
  venue and when it cannot.
- **The order management system** (`Oms`, `ExecutionEngine`): the order FSM, the folding of reports
  into orders, positions and the T+1 ledger. `OrderFsm` holds the FSM against its documented table,
  `Submissions` says exactly which orders are routed, `OmsRuns` proves what the books hold after any
  run of submits, cancels, reports and forced closes, and `KernelBooks` that every kernel run is one;
  `PrevClose` relates the previous-close search to the Python one.
- **Accounting** (`Money`, `Fifo`, `TradeLaws`, `Ledger`, `Accounts`): FIFO trade reconstruction and
  the merging of partial fills, the vectorised equity curve and the cash ledger, and the average-cost position. For
  any fill history, and for what a kernel run books and logs, FIFO, ledger and position are proved to
  be one account, or exactly when they are.
- **The screen** (`Screen`): the cumulative-sum SMA with forward fill against the streaming strategy.
- **The paper broker** (`PaperBroker`, `PaperLaws`, `PaperPrices`, `PaperT1`, `PaperEquityBroker`) and
  the **FX book** (`Fx`).

The laws of the venue are stated for operation logs in which the clock does not move back and no
client order id arrives twice; `KernelLaws.Reachable` proves that every kernel run, whatever the
strategy, produces such a log, and `KernelLaws.RunReports` carries the laws over.

`dafny verify dfyconfig.toml` checks everything.

## What the proofs found

- The report protocol (Accepted, Fills, at most one Canceled, nothing after it) holds in all runs if
  and only if the cancel latency is at least the submit latency. The default model uses one constant
  for both, so it holds there; the trait allows others.
- The FSM refuses fills while a cancel is pending. A fill that is in flight when the strategy cancels
  is therefore executed by the venue and dropped by the OMS, and if it was the whole order no
  cancellation ever comes. With a cancel no faster than a submit, `FillDroppedIffCancelPending` says
  this is the only way to lose a fill.
- Merging consecutive partial fills preserves the meaning of a stream if and only if no run of one side
  and price mixes signs: the matcher ignores a negative quantity, the merger adds it.
- A kernel run ends if and only if the strategy issues finitely many commands and timers in it; a
  strategy that only answers market events always ends.
- The order module documents that a `Filled` event leads to Filled and a `PartiallyFilled` one to
  PartiallyFilled; the code goes by what is left, so the table holds exactly for events that are
  truthful about it. The engine's are.
- The vectorised curve and the ledger agree for all prices, balances and fee rates exactly when no bar
  that trades shares its timestamp with another bar; the ledger applies a fill once per bar that
  carries its timestamp. Timestamps need not be sorted.
- An average-cost position forgets the profit of units whose average entry price is zero, and only
  then; with positive prices it agrees with FIFO and the ledger at every mark.
- The OMS takes a stale print on a closed day as the previous close; the broker skips it. On clean
  tables the two agree up to 40 days back.
- The paper broker's T+1 rule depends on the days its calls are judged on never going back. The
  session day is one field for all listings, so a bar of a venue that is a day behind is enough: shares
  bought today can then be sold today.
- An inverse position that is averaged into at another price changes its worth: prices are averaged
  arithmetically, while coins go by their reciprocals.
- `sma_cross_positions` fails on an empty series, unlike `vector_backtest`, which answers it before it
  compares lengths.
- The comment above `on_submit` says that a marketable order's fill is scheduled at submission; the
  code defers it to the next event's open, and so does the model.

## Model

| member | source | states |
|---|---|---|
| `Brokerage.RoundMonotone` | backtesting-simulation/crates/coinext-sim/src/brokerage.rs:101-137 | quantising a price, half to even, keeps order |
| `Brokerage.RoundFixesGrid` | backtesting-simulation/crates/coinext-sim/src/brokerage.rs:128-136 | a price already on the grid is not moved |
| `Brokerage.FillPriceBounds` | backtesting-simulation/crates/coinext-sim/src/brokerage.rs:101-137 | every fill price is adverse to its reference, and no worse than the worse of the base-slipped reference and the bar's extreme, after quantisation and its fallback |
| `Brokerage.FillableQty` | backtesting-simulation/crates/coinext-sim/src/brokerage.rs:139-160 | a bar never offers more than is left, and with a positive lot always at least something of an unfinished order |
| `Brokerage.LargestThatFits` | backtesting-simulation/crates/coinext-sim/src/brokerage.rs:139-171 | a bar offers the largest quantity within max(share, one lot), or all that is left; the queue seed is the largest quantity within its share |
| `Brokerage.FeeAdds` | backtesting-simulation/crates/coinext-sim/src/brokerage.rs:173-203 | a quantity filled in parts at one price pays the fee of the whole, linear or inverse |
| `Brokerage.UncappedAndUnqueued` | backtesting-simulation/crates/coinext-sim/src/brokerage.rs:139-171 | with participation off, or on a bar without volume, nothing is capped; without a queue factor nothing is ahead |
| `Brokerage.FeeIsRateOnNotional` | backtesting-simulation/crates/coinext-sim/src/brokerage.rs:173-203 | a maker fill pays the maker rate and a taker fill the taker rate on its notional, quote currency or coins |
| `Brokerage.SlippageExact` | backtesting-simulation/crates/coinext-sim/src/brokerage.rs:101-127 | the exact distance of the price from its reference before quantisation: base slippage plus range impact, as far as the bar leaves room, and base slippage where it leaves none |
| `Brokerage.FillPriceExact` | backtesting-simulation/crates/coinext-sim/src/brokerage.rs:101-137 | the fill price is that, rounded half to even where it is a price, and otherwise the reference |
| `Brokerage.NoSlippage` | backtesting-simulation/crates/coinext-sim/src/brokerage.rs:101-137 | without slippage settings a fill is at its reference |
| `Delivery.EnqueueSorted` | backtesting-simulation/crates/coinext-sim/src/lib.rs:44-70 | a newly scheduled report takes its place in (due, sequence) order, behind everything due at the same instant |
| `SimulatedExchange.SimulatedExchange.OnSubmit` | backtesting-simulation/crates/coinext-sim/src/lib.rs:214-307 | the venue after a submit: acknowledgement scheduled, order resting, deferred to the open when marketable, trail seeded; unknown instruments ignored |
| `SimulatedExchange.SimulatedExchange.OnCancel` | backtesting-simulation/crates/coinext-sim/src/lib.rs:309-324 | the venue after a cancel: first match removed and a cancellation scheduled, or nothing |
| `SimulatedExchange.SimulatedExchange.DrainDue` | backtesting-simulation/crates/coinext-sim/src/lib.rs:74-83 | returns and removes exactly the reports due, in order |
| `SimulatedExchange.SimulatedExchange.DecideAll` | backtesting-simulation/crates/coinext-sim/src/lib.rs:376-594 | the first phase: the decision list, deferred orders to clear, stop-limits to activate, trails to ratchet, over the whole book; what the decisions are is `ExecutionLaws.ExecutesIff` |
| `SimulatedExchange.SimulatedExchange.WriteBack` | backtesting-simulation/crates/coinext-sim/src/lib.rs:596-611 | the index-wise write-backs adjust exactly the listed entries |
| `SimulatedExchange.SimulatedExchange.ScheduleFills` | backtesting-simulation/crates/coinext-sim/src/lib.rs:613-637 | fills are scheduled and remaining and queue written back, decision by decision |
| `SimulatedExchange.SimulatedExchange.RemoveExhausted` | backtesting-simulation/crates/coinext-sim/src/lib.rs:638-642 | removal from the highest index down removes exactly the finished orders |
| `SimulatedExchange.SimulatedExchange.OnMarket` | backtesting-simulation/crates/coinext-sim/src/lib.rs:326-643 | the decide, write back, schedule, remove phases together are one pass over the book, whose executions are those of `ExecutionLaws.ExecutesIff` |
| `SimulatedExchange.TwoPhaseRefines` | backtesting-simulation/crates/coinext-sim/src/lib.rs:386-643 | after the decisions on any prefix of the book, the phased form and the single pass agree on counters, queue and entries |
| `SimulatedExchange.WholeBookRefines` | backtesting-simulation/crates/coinext-sim/src/lib.rs:386-643 | deciding against the old book and removing by index afterwards equals matching order by order |
| `OrderLife.ApplyProjects` | backtesting-simulation/crates/coinext-sim/src/lib.rs:216-653 | one operation of the venue moves every order by exactly its own step and keeps ids unique |
| `OrderLife.VenueIsComposition` | backtesting-simulation/crates/coinext-sim/src/lib.rs:216-653 | for every run: entry and scheduled reports of each order are those of an automaton that never sees the other orders |
| `LifeLaws.LifeLawful` | backtesting-simulation/crates/coinext-sim/src/lib.rs:216-643 | for every run and latency: what is scheduled for an order is one Accepted, then Fills, then at most one Canceled, with quantities that add up |
| `LifeLaws.QuantityConserved` | backtesting-simulation/crates/coinext-sim/src/lib.rs:369-643 | in every reachable state, executed plus remaining is the order's quantity; an order removed by filling executed exactly it, a cancelled one strictly less |
| `LifeLaws.LimitNeverWorse` | backtesting-simulation/crates/coinext-sim/src/lib.rs:398-611 | over its whole life, through deferral, activation and partial fills, a priced order never fills worse than its limit |
| `LifeLaws.StopMarketNeverBetter` | backtesting-simulation/crates/coinext-sim/src/lib.rs:449-513 | over its whole life a stop-market order never fills better than its own trigger |
| `LifeLaws.ExecutionIsDecision` | backtesting-simulation/crates/coinext-sim/src/lib.rs:613-637 | in every run an execution is the decision of one matching operation on the entry that rested before it |
| `LifeLaws.MarketExecutionBounds` | backtesting-simulation/crates/coinext-sim/src/lib.rs:398-442 | in every run every execution of a market order is adverse to the open it waited for, or the close afterwards, and no worse than the worse of base slippage and the bar's extreme |
| `LifeLaws.StopExecutionNoBetter` | backtesting-simulation/crates/coinext-sim/src/lib.rs:449-513 | in every run every execution of a stop-market or trailing order is no better than the trigger in force at the event that scheduled it |
| `ExecutionLaws.ExecutesIff` | backtesting-simulation/crates/coinext-sim/src/lib.rs:390-637 | in every run an operation schedules an execution for an order, at a price, size, liquidity and time, if and only if the resting entry and the tick meet `Fills`: the rule of each kind of order, stated from its instructions, the tick and the brokerage alone |
| `ExecutionLaws.StopExecutesIff` | backtesting-simulation/crates/coinext-sim/src/lib.rs:449-513 | in every run an armed market stop executes at a tick if and only if the tick reaches its trigger and offers anything; then all that is offered, from the trigger when the range holds it, from the low for a buy or the high for a sell when the price gapped past it |
| `ExecutionLaws.StopFillsAtTrigger` | backtesting-simulation/crates/coinext-sim/src/lib.rs:475-478 | without slippage a stop executes at its trigger whenever the tick's range holds it |
| `ExecutionLaws.SubmissionRests` | backtesting-simulation/crates/coinext-sim/src/lib.rs:216-307 | in every run an accepted order rests whole, deferred exactly when it is a market order or crosses its side's quote or the mark, and trailing exactly when its trigger starts a positive distance behind the mark |
| `ExecutionLaws.TickActivates` | backtesting-simulation/crates/coinext-sim/src/lib.rs:480-611 | in every run a tick ends a deferral, and turns a stop-limit into a limit order exactly when it reaches the trigger; no other kind changes |
| `FillLaws.FillsCarryTheirOrder` | backtesting-simulation/crates/coinext-sim/src/lib.rs:187-212 | in every run a fill report carries the instrument and side its order was submitted with, the number it was acknowledged under, its due time and the fee of its price and quantity |
| `FillLaws.TradesAreDistinct` | backtesting-simulation/crates/coinext-sim/src/lib.rs:181-184 | in every run trade numbers count up along the reports |
| `TickLaws.EntryFollowsTicks` | backtesting-simulation/crates/coinext-sim/src/lib.rs:331-643 | in every run, an uncancelled order is its submission followed over the ticks of its instrument since |
| `TickLaws.QueueClosedForm` | backtesting-simulation/crates/coinext-sim/src/lib.rs:538-593 | over any run of touching bars the queue is max(0, Q0 - shares) and the filled quantity max(0, shares - Q0) |
| `TickLaws.ParticipationHolds` | backtesting-simulation/crates/coinext-sim/src/brokerage.rs:139-160 | over any run of bars an order of any kind takes at most the sum of the bars' caps |
| `TickLaws.CrossingBarProgresses` | backtesting-simulation/crates/coinext-sim/src/lib.rs:538-593 | each crossing bar strictly decreases queue plus remaining |
| `TickLaws.CrossedOrderFinishes` | backtesting-simulation/crates/coinext-sim/src/lib.rs:538-593 | an order that keeps being crossed is finished after at most queue plus remaining bars |
| `TickLaws.TrailIsRunningExtreme` | backtesting-simulation/crates/coinext-sim/src/lib.rs:449-513 | until first hit, the incremental extreme is the running maximum of highs or minimum of lows joined with the mark, and the trigger stands one offset off it |
| `TickLaws.TriggerOnlyTightens` | backtesting-simulation/crates/coinext-sim/src/lib.rs:605-611 | over the order's whole life, hit or not, the trigger only tightens |
| `TickRuns.RunFollows` | backtesting-simulation/crates/coinext-sim/src/lib.rs:331-643 | in every run, the book entry of an uncancelled order is its first entry followed over the ticks, and what was executed is what it filled over them |
| `TickRuns.ExecutedWithinBudget` | backtesting-simulation/crates/coinext-sim/src/lib.rs:369-643 | in every run, never more of an order was executed than its bars' caps allow |
| `TickRuns.QueueInTheVenue` | backtesting-simulation/crates/coinext-sim/src/lib.rs:538-593 | in every run, while bars only touch a resting limit, max(0, shares - q0) was executed and max(0, q0 - shares) is still ahead |
| `TickRuns.CrossedLimitIsExecuted` | backtesting-simulation/crates/coinext-sim/src/lib.rs:538-593 | in every run, a resting limit crossed often enough is executed in full and off the book |
| `TickRuns.TrailInTheVenue` | backtesting-simulation/crates/coinext-sim/src/lib.rs:271-513 | in every run, until hit, the book holds the running extreme since the submit mark and the trigger one offset off it |
| `TickRuns.TriggerTightensInTheVenue` | backtesting-simulation/crates/coinext-sim/src/lib.rs:449-611 | in every run and whatever the ticks, a trailing stop's trigger only tightens |
| `Delivery.RunPunctual` | backtesting-simulation/crates/coinext-sim/src/lib.rs:44-84 | in every reachable state the delivered and queued reports together are in order and, with a cancel no faster than a submit, each order's are in scheduling order |
| `Delivery.DeliveryOrder` | backtesting-simulation/crates/coinext-sim/src/lib.rs:63-83 | across any run reports are delivered sorted by (due, sequence); none is lost, invented or early |
| `Delivery.DrainIsExact` | backtesting-simulation/crates/coinext-sim/src/lib.rs:74-83 | in every run a drain hands out exactly the queued reports that are due and leaves the rest in order |
| `Delivery.DeliveredIsPrefix` | backtesting-simulation/crates/coinext-sim/src/lib.rs:44-84 | what was delivered for an order is a prefix of what was scheduled for it |
| `Delivery.DeliveredProtocol` | backtesting-simulation/crates/coinext-sim/src/lib.rs:613-653 | no fill is delivered after a cancellation, even when both fall on the same instant |
| `Delivery.OvertakingCancel` | backtesting-simulation/crates/coinext-sim/src/lib.rs:309-324 | for every model with a faster cancel: a run whose cancellation overtakes the acknowledgement |
| `Delivery.ProtocolIffCancelNotFaster` | backtesting-simulation/crates/coinext-sim/src/brokerage.rs:19-19 | the protocol holds in every run exactly when the cancel latency is at least the submit latency |
| `Clock.DisarmedOrFiredIsSilent` | foundation/crates/coinext-core/src/clock.rs:70-110 | in any run of clock operations a timer never fires after it was disarmed, even if disarmed before it was armed, and never fires twice |
| `Clock.HistoricalClock.Pop` | foundation/crates/coinext-core/src/clock.rs:70-92 | the popping loop returns the due live timers and forgets the cancelled ones it meets |
| `Clock.HistoricalClock.Peek` | foundation/crates/coinext-core/src/clock.rs:112-121 | the minimum over live timers is the first live one in pop order |
| `Clock.SetTimerValid` | foundation/crates/coinext-core/src/clock.rs:100-106 | timers stay ordered by (time, id) with distinct ids |
| `Clock.PopDueExact` | foundation/crates/coinext-core/src/clock.rs:70-92 | exactly the due, uncancelled timers fire, in (time, id) order, and exactly those not due remain |
| `Clock.PeekIsEarliest` | foundation/crates/coinext-core/src/clock.rs:112-121 | the peeked time is the earliest of the uncancelled timers, and absent exactly when there are none |
| `Clock.PopShrinks` | foundation/crates/coinext-core/src/clock.rs:70-92 | popping at or after the head's time shrinks the heap |
| `Oms.ReportKeeps` | execution-live/crates/coinext-exec-engine/src/lib.rs:297-434 | folding a report forgets no order, records its trade, and touches positions and ledger only for fills |
| `Oms.ReplayIsHarmless` | execution-live/crates/coinext-exec-engine/src/lib.rs:299-372 | a later copy of a fill, even with other contents, anywhere in any stream leaves the whole state unchanged |
| `Oms.FoldsFirstCopies` | execution-live/crates/coinext-exec-engine/src/lib.rs:299-372 | folding a stream is folding its first copies |
| `Oms.BooksAreSums` | execution-live/crates/coinext-exec-engine/src/lib.rs:330-372 | the net position is the signed sum of the fills the FSM took, and each ledger cell the sum of that session day's A-share buys among them |
| `Oms.BookedOnce` | execution-live/crates/coinext-exec-engine/src/lib.rs:299-372 | no trade is booked twice |
| `OmsRuns.BooksHoldWhatWasBooked` | execution-live/crates/coinext-exec-engine/src/lib.rs:204-372 | after any run of submits, cancels, reports and forced closes, a position is the average-cost account of its booked fills and each ledger cell that session day's A-share buys among them |
| `OmsRuns.LateCopyIsHarmless` | execution-live/crates/coinext-exec-engine/src/lib.rs:299-372 | in any such run a later copy of a fill, wherever it arrives, changes neither the state nor what was booked |
| `OmsRuns.RoutedSellIsSettled` | execution-live/crates/coinext-exec-engine/src/lib.rs:181-251 | after any such run, a routed A-share sell is covered by the net of the booked fills less the same session day's purchases |
| `Submissions.JudgedIff` | execution-live/crates/coinext-exec-engine/src/lib.rs:204-278 | a tracked id or unknown instrument is ignored; any other order is routed if and only if the contract has not expired, an A-share sell is of settled shares and the gate agrees on the closes just noted, and is tracked as submitted or denied with nothing else changed |
| `Submissions.ClosesAreLastMarks` | execution-live/crates/coinext-exec-engine/src/lib.rs:101-115 | after any run of calls the close of an A-share on a session day is the last mark noted for it by a submission of that day |
| `Submissions.DayHolds` | execution-live/crates/coinext-exec-engine/src/lib.rs:61-78 | a session day holds its times: Shanghai time, eight hours ahead, for A-shares, and UTC otherwise |
| `Submissions.VenueOrdersAreLive` | execution-live/crates/coinext-exec-engine/src/lib.rs:221-235 | in every kernel run every order that reached the venue was on a known instrument that had not expired |
| `Submissions.TicksOf` | backtesting-simulation/crates/coinext-sim/src/lib.rs:338-362 | what a quote, trade, bar or delta says to a resting order: range, open, close and volume |
| `Submissions.ObservedView` | market-data/crates/coinext-data-engine/src/lib.rs:24-48 | an event moves the mark of its own instrument to where its tick closes and no other; the reference is the last quote of the side, and without a quote the mark |
| `OrderFsm.RefusedIffUndocumented` | foundation/crates/coinext-model/src/order.rs:6-17 | the FSM refuses an event exactly where the documented table has no row |
| `OrderFsm.DocumentedIffTruthful` | foundation/crates/coinext-model/src/order.rs:181-260 | a transition leads where the table says if and only if a fill event is truthful about being the last, since the code goes by what is left |
| `OrderFsm.FoldKeeps` | foundation/crates/coinext-model/src/order.rs:181-260 | folding any events: life only moves on, terminal orders never change, the filled quantity is the sum of the fills taken, and the instructions stay but for quantity and price |
| `OrderFsm.FilledIffReached` | foundation/crates/coinext-model/src/order.rs:230-238 | an order that is never modified is marked filled exactly when its fills reach its quantity |
| `OmsRuns.RoundTripBooks` | execution-live/crates/coinext-exec-engine/src/lib.rs:204-372 | a run that books a purchase, refuses its sale the same day, routes it the next, books it and realises the profit |
| `ExecutionEngine.ExecutionEngine.Submit` | execution-live/crates/coinext-exec-engine/src/lib.rs:202-277 | duplicate, unknown, expired, unsellable and refused orders; only a routed one reaches the venue |
| `ExecutionEngine.ExecutionEngine.Cancel` | execution-live/crates/coinext-exec-engine/src/lib.rs:279-295 | the pending-cancel event is offered to the FSM and the venue is told either way |
| `ExecutionEngine.ExecutionEngine.FoldFill` | execution-live/crates/coinext-exec-engine/src/lib.rs:317-372 | the dedupe, FSM, ledger and position updates of one fill |
| `ExecutionEngine.ExecutionEngine.FoldReport` | execution-live/crates/coinext-exec-engine/src/lib.rs:297-434 | every report kind takes the engine to the folded state and returns the events applied |
| `BacktestKernel.BacktestKernel.Check` | backtesting-simulation/crates/coinext-kernel/src/backtest.rs:290-322 | one submitted order is ignored, refused or handed to the venue, with its counters |
| `BacktestKernel.BacktestKernel.DrainOutbox` | backtesting-simulation/crates/coinext-kernel/src/backtest.rs:290-322 | the commands present when it is called are processed in order; those issued meanwhile wait for the next call |
| `BacktestKernel.BacktestKernel.DeliverReports` | backtesting-simulation/crates/coinext-kernel/src/backtest.rs:194-213 | due reports are folded, logged and shown one by one, then the outbox is drained |
| `BacktestKernel.BacktestKernel.FireDue` | backtesting-simulation/crates/coinext-kernel/src/backtest.rs:215-224 | due timers are popped once and fired in order, each followed by the outbox |
| `BacktestKernel.BacktestKernel.TakeEvent` | backtesting-simulation/crates/coinext-kernel/src/backtest.rs:226-243 | data, venue, strategy, outbox and equity sample of one market event, in that order |
| `BacktestKernel.BacktestKernel.SettleDue` | backtesting-simulation/crates/coinext-kernel/src/backtest.rs:324-392 | the loop over expiries does what `ClosingLaws.DueContractsClose` says of settlement at a frontier |
| `BacktestKernel.BacktestKernel.CloseAt` | backtesting-simulation/crates/coinext-kernel/src/backtest.rs:396-449 | a forced close books a fill against the position and tells the strategy |
| `BacktestKernel.BacktestKernel.LiquidateIfDue` | backtesting-simulation/crates/coinext-kernel/src/backtest.rs:452-476 | the loop does what `ClosingLaws.LiquidationCloses` says of a liquidation |
| `ClosingLaws.CloseIsWhole` | backtesting-simulation/crates/coinext-kernel/src/backtest.rs:396-449 | an open position is closed by one fill for the whole of it at the price and time: one row, one call; the strategy is next shown the close with the contract flat; the profit is that of the whole position and no other position changes; what is not open is left alone |
| `ClosingLaws.SettlementCloses` | backtesting-simulation/crates/coinext-kernel/src/backtest.rs:337-394 | a settled contract's position is closed so at the settlement price, and then, after the strategy's answer, each of its orders that is not terminal is cancelled once, at the engine and at the venue, and no order of another contract |
| `ClosingLaws.DueContractsClose` | backtesting-simulation/crates/coinext-kernel/src/backtest.rs:324-332 | settlement handles exactly the expiries up to the first not due; each known contract among them with a price and an open position gets exactly one closing row at that price, the strategy told once, and every other contract keeps rows and position |
| `ClosingLaws.LiquidationCloses` | backtesting-simulation/crates/coinext-kernel/src/backtest.rs:452-476 | when liquidation is due every open position with a mark gets exactly one closing row for the whole of it at its mark, and nothing else is touched; otherwise nothing happens |
| `ClosingLaws.RunsListed` | backtesting-simulation/crates/coinext-kernel/src/backtest.rs:377-384 | in every run the orders and positions enumerated are all there are, each order once |
| `ClosingLaws.IterationsClose` | backtesting-simulation/crates/coinext-kernel/src/backtest.rs:246-253 | in every run every iteration ends with the due expiries settled and their contracts flat, and, if the account is then in liquidation, with no marked position open |
| `IterationLaws.PhasesInOrder` | backtesting-simulation/crates/coinext-kernel/src/backtest.rs:174-254 | within an iteration the strategy hears of reported fills, then timers, then the market event, then settlements, then liquidations, all at one clock reading |
| `IterationLaws.RunsStartOnce` | backtesting-simulation/crates/coinext-kernel/src/backtest.rs:174-176 | every run starts the strategy first, on empty books at the start time, and never again while the loop runs |
| `IterationLaws.ReportIsShown` | backtesting-simulation/crates/coinext-kernel/src/backtest.rs:193-209 | a delivered report is folded and logged before it is shown: nothing if the FSM refused it, otherwise its one event, a fill first as a fill, on the folded books |
| `IterationLaws.DueTimersAreHeard` | backtesting-simulation/crates/coinext-kernel/src/backtest.rs:211-220 | the strategy is told of exactly the due live timers, each once, in order |
| `IterationLaws.OutboxInOrder` | backtesting-simulation/crates/coinext-kernel/src/backtest.rs:290-321 | draining the outbox handles the commands present, each once and in order, with the calls, venue operations and counters of each |
| `IterationLaws.EquityFollowsTheEvent` | backtesting-simulation/crates/coinext-kernel/src/backtest.rs:222-243 | a market event is shown once on the updated view, every submission of the answer is handled, and a bar, no other event, then adds one point to the curve: the equity of the state the event leaves |
| `BacktestKernel.BacktestKernel.NextFrontier` | backtesting-simulation/crates/coinext-kernel/src/backtest.rs:179-189 | the minimum of the four sources |
| `BacktestKernel.BacktestKernel.Turn` | backtesting-simulation/crates/coinext-kernel/src/backtest.rs:190-249 | one iteration of the loop |
| `BacktestKernel.BacktestKernel.Run` | backtesting-simulation/crates/coinext-kernel/src/backtest.rs:174-256 | the loop ends, with no source left, in the state the state machine reaches, whenever the strategy issues finitely many commands and timers in the run |
| `KernelSteps.RunKeeps` | backtesting-simulation/crates/coinext-kernel/src/backtest.rs:174-256 | induction over whole runs: what every small step keeps holds after any number of iterations |
| `KernelLaws.Reachable` | backtesting-simulation/crates/coinext-kernel/src/backtest.rs:174-256 | in every reachable state the venue is the replay of a well-timed log with no order id twice, every order there is tracked, matched events are exactly the consumed prefix and exactly those shown to the strategy |
| `KernelLaws.ClockIsMonotone` | backtesting-simulation/crates/coinext-kernel/src/backtest.rs:184-190 | the clock never moves back, even if timers are armed in the past |
| `KernelLaws.FrontierIsEarliest` | backtesting-simulation/crates/coinext-kernel/src/backtest.rs:178-190 | the frontier is the earliest of the next market event, report, timer and expiry, and absent exactly when there is none |
| `KernelLaws.CurveIsSorted` | backtesting-simulation/crates/coinext-kernel/src/backtest.rs:233-240 | for a time-ordered event stream, equity-curve timestamps are non-decreasing, for any strategy |
| `KernelLaws.RunReports` | backtesting-simulation/crates/coinext-kernel/src/backtest.rs:178-209 | in every kernel run, for any strategy: delivery order, the report protocol and quantity conservation |
| `KernelBooks.BooksAreReplay` | backtesting-simulation/crates/coinext-kernel/src/backtest.rs:194-449 | in every kernel run the order management system is the replay of the calls made to it, and the fills log has one row for each fill they booked |
| `KernelBooks.VenueSellsAreSettled` | backtesting-simulation/crates/coinext-kernel/src/backtest.rs:290-322 | in every kernel run, every A-share sell that reached the venue was covered, when submitted, by what had been booked less the same session day's purchases |
| `KernelLaws.RunEndsIff` | backtesting-simulation/crates/coinext-kernel/src/backtest.rs:178-249 | for every strategy, stream and instruments: the run ends if and only if the strategy issues finitely many commands and timers in it |
| `KernelLaws.MarketDrivenEnds` | backtesting-simulation/crates/coinext-kernel/src/backtest.rs:178-249 | strategies that act on market events only, however often per event, end on every stream |
| `Termination.IterateProgresses` | backtesting-simulation/crates/coinext-kernel/src/backtest.rs:178-332 | whatever the strategy, every iteration carries out something it asked for, or consumes an event or expiry, or shortens the queues |
| `Causality.PrefixDetermines` | backtesting-simulation/crates/coinext-kernel/src/backtest.rs:178-240 | streams that agree on their first p events drive the kernel through identical states until event p |
| `Causality.FillsComeFromLaterEvents` | backtesting-simulation/crates/coinext-sim/src/lib.rs:254-442 | every execution is priced by an event strictly after all those shown to the strategy when the order reached the venue |
| `Agreement.OmsTracksVenue` | execution-live/crates/coinext-exec-engine/src/lib.rs:297-434 | in every kernel run the tracked status and filled quantity are those of the delivered reports, unless a cancel was requested |
| `Agreement.DeliveryIsFoldings` | backtesting-simulation/crates/coinext-kernel/src/backtest.rs:194-213 | the delivery of an iteration is a row of states, each folding the next due report, with the outbox after the last |
| `Agreement.FillDroppedIffCancelPending` | foundation/crates/coinext-model/src/order.rs:182-284 | in every iteration of every kernel run, a due fill is dropped, in the state that folds it, exactly when a cancel of its order is pending |
| `LostFill.InFlightFillIsLost` | backtesting-simulation/crates/coinext-kernel/src/backtest.rs:174-322 | for every latency, quantity and price: a kernel run that ends with the whole quantity delivered, nothing booked, and the order waiting for a cancellation that never comes |
| `LostFill.WithoutCancelItIsBooked` | backtesting-simulation/crates/coinext-kernel/src/backtest.rs:174-322 | the same run without the cancel ends with the order filled, the position its quantity and the fill in the log |
| `Fifo.CoalescePartialFills` | analytics-optimization/python/coinext_analytics/trades.py:46-62 | the in-place loop merges exactly the consecutive fills of one side and price |
| `Fifo.ReconstructTrades` | analytics-optimization/python/coinext_analytics/trades.py:65-113 | merging then matching, loop by loop, is the replay of the merged fills, whose trades are those of `TradeLaws.TradesAreAccounted` |
| `TradeLaws.TradesAreAccounted` | analytics-optimization/python/coinext_analytics/trades.py:77-113 | for every stream: each trade pairs an entry fill of the merged stream with a later exit fill of the other side and carries their times and prices, the entry's direction, and the profit and return of its quantity net of fees; entries and exits never go back; every fill's quantity is exactly used up by its trades and its open lot |
| `TradeLaws.MergedFillsAreRuns` | analytics-optimization/python/coinext_analytics/trades.py:46-62 | the merged fills are the maximal runs of consecutive fills of one side and price, with the run's whole quantity and first time |
| `Fifo.OpenExposure` | analytics-optimization/python/coinext_analytics/trades.py:116-127 | sign and size of the net of all fills |
| `Fifo.CloseMeans` | analytics-optimization/python/coinext_analytics/trades.py:85-107 | closing a quantity: matched size, PnL with fees, and the cost curve of what is left, for any lots |
| `Fifo.TakeSplits` | analytics-optimization/python/coinext_analytics/trades.py:82-113 | taking a fill in two parts leaves an equivalent book: same size, direction, cost curve, PnL and matched quantity |
| `Fifo.MergeIffSameSign` | analytics-optimization/python/coinext_analytics/trades.py:46-62 | two fills may be merged on every book exactly when their quantities do not have opposite signs |
| `Fifo.CoalescingPreservesMeaning` | analytics-optimization/python/coinext_analytics/trades.py:46-113 | for every stream and fee rate: total PnL, matched quantity, open position and its cost are the same with and without merging if and only if no run of one side and price mixes signs |
| `Fifo.NonNegativeUnmixed` | analytics-optimization/python/coinext_analytics/trades.py:46-62 | streams of non-negative quantities are of that kind |
| `Fifo.NegativeQuantityBreaks` | analytics-optimization/python/coinext_analytics/trades.py:46-113 | a stream with a negative quantity whose matched quantity changes |
| `Fifo.FifoConserves` | analytics-optimization/python/coinext_analytics/trades.py:77-127 | for every stream, of what the source reconstructs: lots share one direction and total the net of the merged positive fills, PnL is their cash flow plus cost basis less the fee on what is no longer open, and the lots agree with `open_exposure` exactly when the merged ignored quantities net to zero |
| `Fifo.PlainFifoConserves` | analytics-optimization/python/coinext_analytics/trades.py:77-127 | for non-negative quantities: lots total the net of all fills, and PnL is net cash flow plus cost basis less fees |
| `Screen.SmaIsAverage` | analytics-optimization/python/coinext_screen/__init__.py:38-47 | the cumulative-sum difference is the streaming average |
| `Screen.StreamingSma.Update` | strategy-research/python/coinext_strategy/__init__.py:136-141 | the window is the last values and the running sum is their sum |
| `Screen.StreamingSma.Value` | strategy-research/python/coinext_strategy/__init__.py:143-146 | the mean once the window is full |
| `Screen.SmaCross.Bar` | strategy-research/python/coinext_strategy/__init__.py:160-175 | the object follows the strategy's state over any series and signals as it does |
| `Screen.FillsForward` | analytics-optimization/python/coinext_screen/__init__.py:73-79 | the running maximum of cross indices holds the last cross |
| `Screen.StepAgrees` | analytics-optimization/python/coinext_screen/__init__.py:60-75 | a vectorised cross at a bar is the strategy's change of position there |
| `Screen.VectorEqualsStreaming` | analytics-optimization/python/coinext_screen/__init__.py:50-80 | for every series and all periods from one, the target is qty exactly when the streaming strategy is in position; an error exactly on the empty series |
| `Screen.SignalsAreChanges` | strategy-research/python/coinext_strategy/__init__.py:160-175 | the strategy buys exactly on entering and sells exactly on leaving |
| `Ledger.SnapFillsToGrid` | analytics-optimization/python/coinext_screen/__init__.py:201-217 | every fill moves to the nearest grid point, the earlier of two equally near, and nothing else of it changes; unchanged without a grid |
| `Ledger.SnapDetermined` | analytics-optimization/python/coinext_screen/__init__.py:201-217 | that outcome is unique and the identity on fills that lie on the grid |
| `Ledger.FromFillsAndBars` | backtesting-simulation/python/coinext_parity/session.py:40-89 | the cash and position loop yields, at each bar, start plus cash flow less fees plus the net position at the close, over the fills of all bars so far |
| `Ledger.SummationByParts` | analytics-optimization/python/coinext_screen/__init__.py:117-125 | cumulative PnL of held positions less fees is the worth of the fills that opened and closed them |
| `Ledger.SnapKeepsVectorFills` | analytics-optimization/python/coinext_screen/__init__.py:126-130 | snapping leaves the synthesised fills alone |
| `Ledger.VectorEqualsLedger` | analytics-optimization/python/coinext_screen/__init__.py:83-133 | the vectorised curve equals the ledger's at every bar, for any lag |
| `Ledger.IncreasingTradesAlone` | analytics-optimization/python/coinext_screen/__init__.py:83-133 | strictly increasing timestamps satisfy the condition |
| `Ledger.AgreesIffTradesAlone` | backtesting-simulation/python/coinext_parity/session.py:67-85 | the two curves agree for all closes, balances and rates exactly when no trading bar shares its timestamp |
| `Ledger.SharedStampDisagrees` | backtesting-simulation/python/coinext_parity/session.py:67-85 | otherwise constant prices already separate them |
| `Ledger.ScreenTradesOnSignals` | analytics-optimization/python/coinext_screen/__init__.py:101-124 | with the default lag the screen trades exactly one bar after the streaming strategy signals, in its direction and size |
| `Accounts.FillConserves` | foundation/crates/coinext-model/src/position.rs:57-142 | on a linear position, realised PnL less invested cost moves by the fill's notional and fee exactly when the fill does not close units entered at zero |
| `Accounts.InverseFillConserves` | foundation/crates/coinext-model/src/position.rs:57-142 | on an inverse position, realised plus entered coins move by the fill's coins and fee exactly when the fill does not average into the position at another price |
| `Accounts.PositionConserves` | foundation/crates/coinext-model/src/position.rs:72-142 | over any fill history without such a closing, the position is its signed sum and accounts for its cash and fees |
| `Accounts.AccountsAgree` | foundation/crates/coinext-model/src/position.rs:176-195 | for any such history FIFO and ledger worth agree at every mark, and realised plus unrealised PnL before fees is that worth exactly when no open position was entered at zero |
| `Accounts.PricedAccountsAgree` | foundation/crates/coinext-model/src/position.rs:176-195 | for positive fill prices the three accounts agree at every mark |
| `Accounts.InverseConserves` | foundation/crates/coinext-model/src/position.rs:72-142 | over any inverse history that never averages in at another price, realised plus entered coins are the coins of the fills less fees |
| `Accounts.KernelAccountsAgree` | backtesting-simulation/crates/coinext-kernel/src/backtest.rs:149-249 | in every kernel run, forced closes included, a linear position is the net of its rows in the fills log and, valued at any mark and before fees, is worth what FIFO matching of those rows and the cash ledger say |
| `PrevClose.PreviousSessionDate` | market-data/python/coinext_data/calendar.py:694-702 | the nearest trading day before, unless 30 days are closed |
| `PrevClose.ResolvePrevClose` | market-data/python/coinext_data/ashare_rules.py:86-106 | finds the latest trading-day close within the lookback exactly when no closed run interrupts the walk |
| `PrevClose.PrevCloseFor` | execution-live/crates/coinext-exec-engine/src/lib.rs:117-132 | finds the latest positive close of the 40 day keys before, or none |
| `PrevClose.FortyHoldThirty` | market-data/python/coinext_data/calendar.py:501-508 | forty consecutive days hold at most thirty trading days, whatever the holidays |
| `PrevClose.SearchesAgreeIff` | market-data/python/coinext_data/ashare_rules.py:86-106 | when the OMS finds a close, the broker finds the same one exactly when it is a trading day's, the walk is not interrupted and no non-positive close lies between |
| `PrevClose.SearchesAgree` | market-data/python/coinext_data/ashare_rules.py:86-106 | on clean tables and calendars both find the same day, or the broker a day more than 40 back |
| `PrevClose.StaleSaturdayPrint` | execution-live/crates/coinext-exec-engine/src/lib.rs:117-132 | a Saturday print that only the OMS takes |
| `PaperEquityBroker.PaperEquityBroker.MatchLimits` | market-data/python/coinext_broker/base.py:344-355 | the loop over the order dictionary is a fold over the orders |
| `PaperEquityBroker.PaperEquityBroker.SetConnected` | market-data/python/coinext_broker/base.py:128-132 | connecting and disconnecting leave orders, fills and books alone |
| `PaperEquityBroker.PaperEquityBroker.SetSessionDay` | market-data/python/coinext_broker/base.py:134-138 | sets the session day and leaves everything else alone |
| `PaperEquityBroker.PaperEquityBroker.SetPrevClose` | market-data/python/coinext_broker/base.py:140-143 | sets the previous close of the listing and leaves everything else alone |
| `PaperEquityBroker.PaperEquityBroker.Mark` | market-data/python/coinext_broker/base.py:145-149 | the mark is set; the orders it reaches end filled or rejected, no other changes, and the object stays balanced, solvent and at most once filled |
| `PaperEquityBroker.PaperEquityBroker.Bar` | market-data/python/coinext_broker/base.py:151-191 | the same for a bar's range, under its session day and previous close; its close becomes the mark and the close of its session day; returns exactly the new fills |
| `PaperEquityBroker.PaperEquityBroker.Market` | market-data/python/coinext_broker/base.py:203-221 | an error changes nothing; otherwise one order as asked for is added, rejected without a mark, when the band refuses it, or when cash or sellable shares do not cover it, and otherwise filled whole at the mark or, clamped, at the near edge of the band, with exactly that fill, cash and share movement; no other order changes |
| `PaperEquityBroker.PaperEquityBroker.Limit` | market-data/python/coinext_broker/base.py:223-242 | an error changes nothing; a buy above the upper or a sell below the lower limit is added as rejected and nothing else happens; any other order is added at the price asked for, and a known mark decides exactly the orders it reaches; terminal orders stay and the books stay balanced and solvent |
| `PaperPrices.PriceIsChecked` | market-data/python/coinext_broker/base.py:317-342 | with limits enforced and a band known, a buy above the upper or a sell below the lower limit is refused, or, for a market order with clamping, moved to the near edge; every other price stands |
| `PaperPrices.FillDealsWith` | market-data/python/coinext_broker/base.py:357-417 | an open order dealt with at a price is filled whole, with its fee, cash, shares and day ledger moved exactly, if cash or sellable shares cover it, and otherwise rejected with nothing moved |
| `PaperPrices.MarketIsDecided` | market-data/python/coinext_broker/base.py:203-221 | a market order is resolved at the price the band leaves of the mark |
| `PaperPrices.LimitIsDecided` | market-data/python/coinext_broker/base.py:223-242 | a limit order is refused outside the band and otherwise placed at its price and matched against the mark |
| `PaperEquityBroker.PaperEquityBroker.CancelOrder` | market-data/python/coinext_broker/base.py:244-253 | an error changes nothing; otherwise the order is terminal and no fill, balance or other order changes |
| `PaperEquityBroker.PaperEquityBroker.SalesAreSettled` | market-data/python/coinext_broker/base.py:193-201 | the object keeps T+1 for a listing whose calls are judged on days that never go back |
| `PaperLaws.FillKeeps` | market-data/python/coinext_broker/base.py:357-417 | `_fill` keeps all the books and leaves the order terminal |
| `PaperLaws.MarketKeeps` | market-data/python/coinext_broker/base.py:203-221 | a market order is terminal as soon as it is submitted |
| `PaperLaws.MatchDecides` | market-data/python/coinext_broker/base.py:344-355 | a round of matching fills or rejects exactly the orders the price range reaches and changes no other |
| `PaperLaws.RunConserves` | market-data/python/coinext_broker/base.py:130-417 | over any calls: cash, positions and day ledger are the start plus signed fills less fees, and stay non-negative when the start is and fee rates are at most one; each order fills at most once, in full, at its limit; every sale was of settled shares |
| `PaperLaws.RunOnward` | market-data/python/coinext_broker/base.py:130-417 | terminal orders never change again, order identities never change, the fill log only grows |
| `PaperT1.FillsAreDated` | market-data/python/coinext_broker/base.py:170-191 | every fill is judged on the day of its call, which is the last day set by the caller or by a bar of any listing, and the first call for a listing fills nothing |
| `PaperT1.NoSameDaySale` | market-data/python/coinext_broker/base.py:193-201 | when the days a listing's calls are judged on never go back from the second on, a day's sales never exceed the position carried into it |
| `PaperT1.T1IffDaysNeverBack` | market-data/python/coinext_broker/base.py:357-417 | for a given schedule of days: every run of every broker whose calls are judged on them keeps T+1 if and only if the days never go back from the second call on |
| `PaperT1.OtherVenuesBarBreaksT1` | market-data/python/coinext_broker/base.py:171-173 | a bar of a venue that is a day behind lets shares bought today be sold, though the listing's own session date never moved |
| `Fx.FxCurve.Add` | market-data/python/coinext_data/fx.py:62-66 | points stay sorted; a positive rate changes exactly the answers it is better for, and any other rate none |
| `Fx.CurveAnswers` | market-data/python/coinext_data/fx.py:68-75 | the bisection on the sorted points answers what the history of additions says: the latest at or before, the later addition on a tie, the earliest of all before the first |
| `Fx.AddingBuilds` | market-data/python/coinext_data/fx.py:62-66 | adding point by point builds the sorted history |
| `Fx.FxBook.SetRate` | market-data/python/coinext_data/fx.py:94-104 | the object stays coherent, every pair the inverse of the reversed one, whatever the rate; a positive rate is the answer of its pair at every time it is better for than the old one, the reversed pair answers the reciprocal, and no other curve changes; a zero rate fails with both curves in place |
| `Fx.FxBook.ThereAndBack` | market-data/python/coinext_data/fx.py:106-127 | on the object, there and back is defined both ways or neither and multiplies to one |
| `Fx.SetRateCoherent` | market-data/python/coinext_data/fx.py:94-104 | setting any rate keeps every pair's curve the point-by-point inverse of the reversed pair's |
| `Fx.RateIsSet` | market-data/python/coinext_data/fx.py:94-104 | after a positive rate is set its pair answers, at every time, the better of the old answer and the new point, and the reversed pair the reciprocal |
| `Fx.BuiltKeepsHistory` | market-data/python/coinext_data/fx.py:85-104 | a built book holds for every pair the sorted history of what was set for it, reversed settings as reciprocals, after its default |
| `Fx.BuiltAnswersHistory` | market-data/python/coinext_data/fx.py:106-127 | the rate of a pair ever set is the answer its history gives; any other goes through the dollar and then to the fallback table |
| `Fx.FallbackTriangulates` | market-data/python/coinext_data/fx.py:34-50 | the fallback table's cross rates are the products of their dollar legs |
| `Fx.BuiltCoherent` | market-data/python/coinext_data/fx.py:85-104 | so is every book built from nothing or from the defaults |
| `Fx.RateRoundTrips` | market-data/python/coinext_data/fx.py:106-127 | rate(a, b, t) is defined exactly when rate(b, a, t) is, and their product is one, through curves, the dollar and the fallback table |
| `Fx.BuiltRoundTrips` | market-data/python/coinext_data/fx.py:85-127 | the same for every book a caller can build |

## Left out

Modelling choices:

- Prices and quantities are integers at one fixed precision; money, averages and everything Python holds in floats is a real. The 1e-12 and 1e-9 tolerances are zero. Rounding of fees, averages and money, the 96-bit decimal range and 64-bit limits are not modelled, except the saturating latency addition and the checked subtraction and addition of the trailing stop.
- The binary heaps are sequences in pop order and hash-map iteration is in insertion order; a heap's internal layout is not modelled.
- The strategy, the risk gate together with the A-share price band, the settlement price, the liquidation test and the equity figure are arbitrary functions, so the theorems hold for all of them but say nothing about their arithmetic.
- Fees are in the settlement currency, as the venue issues them; a fill with a fee in another currency, which the position would not deduct, does not arise.
- An inverse contract closed at a price of zero divides by zero in the source; here it yields no profit.
- An order's own average price, reject reasons, order timestamps, the message bus and the content of order-book deltas are not modelled; `last_bar` is written by the venue and never read.
- Venue and symbol codes, and currency codes, are taken already normalised; wall-clock reads are arguments; `load_yahoo` is not modelled.
- `Modify` reaches the kernel's outbox as a no-op and is one here.
- BacktestKernel.BacktestKernel.Run: is stated for runs in which the strategy issues finitely many commands and timers; by `KernelLaws.RunEndsIff` the loop does not end in any other.
- LifeLaws.MarketExecutionBounds: requires non-negative prices and slippage parameters, because a negative one turns slippage in the order's favour; so do `LifeLaws.StopExecutionNoBetter` and `LifeLaws.StopMarketNeverBetter`.
- Accounts.AccountsAgree: covers linear instruments; the FIFO and ledger tools value contracts linearly, so an inverse position has nothing to agree with.

Claims the code does not keep, and which are therefore not made:

- Kernel T+1 with several sells outstanding: the submit check reserves nothing.
- No position on an expired contract while a fill is still delayed at settlement.
- Paper limit orders staying inside a later day's price band.
- A triggered stop capped by volume staying active on later bars.

Not modelled:

- `LiveKernel`, the port adapters, the execution service, the Redis bus, API, UI, CLI and deployment: plumbing around the modelled logic.
- Downloaders, quote capture, the data lake, the SQLite logs and the broker gateway: files and network.
- Black-Scholes, Greeks, implied volatility, Sharpe ratios and trade statistics: floating-point formulas without a state to keep.
- The venue catalogue, symbol routing, holiday tables, config layering, the parameter sweep and the other example strategies: table lookups and loops over what is modelled.
- Funding payments and position notional: one formula each.
