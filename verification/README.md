# A formal model of CPAT

CPAT is an event-driven trading platform: a live engine with an order manager and a paper broker, a backtest
engine, a capital pipeline from signals to orders, and the accounting and analytics around them. This project
models its interacting ledgers and state machines in Dafny 4.11 and proves what they keep over whole runs.
`dafny verify dfyconfig.toml` checks everything.

Money is `real` and share quantities are whole numbers, so the tolerances 1e-9 and 0.01 of the code are exact
tests. Time is a number of seconds, a UUID is a fresh number, and one reading of the clock serves a whole tick.
Objects the code updates in place are classes whose methods are proved equal to functions on plain values; the
properties are lemmas about those functions.

| file | what it models |
|---|---|
| `Models.dfy`, `Totals.dfy` | orders, fills, bars, positions, costs; sums over dictionaries |
| `Portfolio.dfy`, `Accounting.dfy` | the average-cost ledger and its conservation laws |
| `TradeMatching.dfy`, `Drawdown.dfy` | first-in-first-out matching; the one-pass drawdown table |
| `StopLoss.dfy`, `StopExits.dfy` | stop levels, the trailing ratchet, exits |
| `Allocator.dfy`, `PositionSizing.dfy`, `RiskEngine.dfy` | capital allocation, sizing, the risk gate and the daily guard |
| `SignalBatch.dfy`, `BatchPlanner.dfy` | one signal batch, shared by both engines |
| `BatchBounds.dfy`, `BatchExits.dfy`, `BatchPlans.dfy`, `BatchBlocks.dfy` | its bounds, what it sells, how it buys, and when it may not buy |
| `Scenarios.dfy` | small batches worked out in full, and one that breaks the cash floor |
| `OrderManager.dfy`, `OrderLaws.dfy`, `OrderSteps.dfy` | the order book with its audit log, and the life of one order |
| `PaperBroker.dfy` | the in-memory broker |
| `LiveModel.dfy`, `LiveEngine.dfy` | the live engine as a transition system and as an object |
| `LiveRuns.dfy`, `LiveLaws.dfy`, `LiveExits.dfy`, `LivePrices.dfy` | paper runs: exactly-once fills, agreement, affordability, exits, prices |
| `LiveBlocks.dfy`, `BacktestBlocks.dfy` | what keeps the engines from buying: reconciliation, drawdown, a day's loss, warm-up |
| `VenueLaws.dfy`, `PollLaws.dfy`, `ExpiryLaws.dfy` | runs with any broker: submission, terminal orders, restarts; the broker-id index and polling; expiry |
| `LiveScenarios.dfy`, `PollScenarios.dfy` | short sessions that lose an exit, a purchase, and shares |
| `ExecutionEngine.dfy` | next-open execution |
| `BacktestModel.dfy`, `BacktestEngine.dfy` | the managed backtest as a transition system and as an object |
| `BacktestRuns.dfy`, `BacktestFills.dfy`, `BacktestExits.dfy`, `BacktestGaps.dfy` | its run invariants, its fills, its exits, and what missing bars change |
| `BacktestScenarios.dfy`, `GapScenarios.dfy` | short backtests in which a guarantee fails |
| `ConfigPaths.dfy` | dotted configuration paths |

What lies outside becomes a parameter: bars, indicator values, the strategy's signals, and for a broker other than
the paper broker its placements, reports, cancellations and account. A tick may also be cut short, by an
exception in the strategy or after any number of orders of the batch.

The code disagrees with its documentation in places; the model follows the code.

- The volatility-adjusted allocator weights by the reciprocal of the larger of sigma and the mean sigma, not by 1/sigma.
- The fixed-fractional sizer spends `risk_per_trade_pct` of equity as capital rather than risking it.
- `Position` is documented as first-in-first-out and keeps an average cost; FIFO is only in the analytics.
- The drawdown table is sorted by depth, worst first, not by start date; a flat top dates the peak from its first bar.
- A limit or stop order makes the audit log unreadable, since its prices are not logged.
- A broker report's cumulative average is taken as the price of the increment.
- The trade matching subtracts a sale's commission once for each lot it touches.

## Model

| member | source | states |
|---|---|---|
| `LiveRuns.EachFillExactlyOnce` | cpat/infrastructure/execution_engine_live.py:119-165 | Over every run of ticks with a fresh paper broker, the broker's fill log is the portfolio's fill list, each fill once and in order, followed by the fills not drained yet; cash and every position differ by exactly that rest, which is empty after every tick that completes. |
| `LiveRuns.CashNeverNegative` | cpat/brokers/paper.py:149-158 | Over the same runs neither ledger's cash is ever negative and no symbol is ever held short. |
| `LiveRuns.RunKeeps` | cpat/infrastructure/execution_engine_live.py:119-165 | The run invariant behind both: every logged fill belongs to one order, which is FILLED in full once the fill is drained and SUBMITTED and untouched before. |
| `LiveRuns.TickKeeps` | cpat/infrastructure/execution_engine_live.py:119-165 | One tick keeps the invariant; a tick that completes leaves nothing undrained, a tick cut short by an exception leaves at most its own fills. |
| `LiveRuns.PollDrainsAll` | cpat/infrastructure/execution_engine_live.py:539-552 | A poll drains every fill not drained yet and takes none twice, however often the log is scanned from its start. |
| `LiveRuns.ExpireAllKeeps` | cpat/infrastructure/execution_engine_live.py:590-612 | Expiry after a poll never touches an order with a fill, and the paper broker has nothing to cancel. |
| `LiveRuns.SubmitAllKeeps` | cpat/infrastructure/execution_engine_live.py:408-481 | Submitting a batch keeps the invariant: each order adds at most one fill, of its own, which waits undrained. |
| `LiveLaws.ReconcilesExactly` | cpat/infrastructure/execution_engine_live.py:614-661 | For agreeing ledgers, reconciliation reports ok if and only if there are no prices at all or the held symbols without a current price are worth no more than the equity tolerance. |
| `LiveLaws.EveryPricedTickReconciles` | cpat/infrastructure/execution_engine_live.py:147-155 | After any paper run, a tick whose bars cover the held symbols and whose strategy does not raise leaves reconciliation ok. |
| `LiveLaws.ReserveCoversCosts` | cpat/portfolio/allocator.py:230-233 | Every purchase within the deployable cash is affordable after slippage and commission if and only if (1 - min_cash_pct)(1 + slippage)(1 + commission) <= 1. |
| `LiveLaws.AffordableIsPlaced` | cpat/infrastructure/execution_engine_live.py:425-453 | A batch whose cost fits the broker's cash is placed in full and in order, each order by a fill of its own symbol, side and quantity. |
| `LiveLaws.ReserveFillsEveryOrder` | cpat/infrastructure/execution_engine_live.py:336-406 | Under that condition on the reserve, in every paper run every order that passes the gate in a completed tick is FILLED in full by its end: the broker never answers INSUFFICIENT_FUNDS. |
| `LivePrices.EveryFillIsAtQuote` | cpat/brokers/paper.py:343-355 | Over every paper session with fair terms the fill log only grows, and each fill a tick adds is at the quote of that tick: a purchase at quote (1 + slippage), never below the quote, a sale at quote (1 - slippage), never above it, and cash moves by quantity times quote with slippage and commission against the trader both times. |
| `LiveBlocks.VerdictIsExact` | cpat/infrastructure/execution_engine_live.py:614-661 | Reconciliation reports ok if and only if the broker answers, its cash is within 1 of the book's, it holds the same quantity of every symbol, and, when there are prices, equity differs by at most 10 or a thousandth. |
| `LiveBlocks.EngineVerdictIsExact` | cpat/infrastructure/execution_engine_live.py:614-661 | The account compared is the paper broker's, which has to be connected, or the outside broker's, which has to answer. |
| `LiveBlocks.VerdictStands` | cpat/infrastructure/execution_engine_live.py:147-157 | A tick that compares leaves the verdict on its own books after the first poll and the expiry; one without bars, or whose strategy raises, keeps the verdict it found. |
| `LiveBlocks.DifferenceBuysNothing` | cpat/infrastructure/execution_engine_live.py:345-352 | In a tick whose account is missing or differs from the book in any of these, every order that passes the gate gives up exactly what is held. |
| `LiveBlocks.FallBuysNothing` | cpat/risk/engine.py:228-256 | Over every run with any broker, once the equity of a tick has fallen by more than max_drawdown_pct below one that any earlier tick has put to the gate, before its batch or at its end, every order of the tick that passes the gate is an exit. |
| `LiveBlocks.LossBuysNothing` | cpat/risk/risk_manager.py:358-418 | Over every run with any broker, in a tick whose equity has fallen by more than max_daily_loss_pct below that of the first tick of its date, every order that passes the gate is an exit. |
| `LiveBlocks.CrashPassesFirst` | cpat/infrastructure/execution_engine_live.py:336-406 | A tick whose batch crashes after n orders puts exactly those of the first n past the gate that would have passed in the whole batch, in the same order. |
| `LiveScenarios.UncoveredIsRejected` | cpat/brokers/paper.py:149-158 | At any point of a paper run a tick whose one passing order is a purchase that the broker's cash does not cover leaves that order REJECTED for lack of funds. |
| `LiveScenarios.ThinReserveRejects` | cpat/portfolio/allocator.py:230-233 | Where the inequality fails: a session of two ticks, from a fresh engine, in which an order within the deployable cash passes the gate and is rejected by the broker. |
| `LiveExits.LevelAfterRun` | cpat/infrastructure/execution_engine_live.py:145-157 | After every paper run, a symbol held at the end of a tick has a stop level if and only if it was bought in that tick, or its level was there after the first poll and did not fire. |
| `LiveExits.SoldInTick` | cpat/infrastructure/execution_engine_live.py:282-406 | A position held after the first poll is flat at the end of the tick if and only if the tick completes, is no dry run and has positive equity, and the symbol has a closing signal. |
| `LiveExits.SoldAfterRun` | cpat/infrastructure/execution_engine_live.py:293-334 | After every paper run, a position held after the first poll of a tick is flat at its end if and only if the tick completes, is no dry run and has positive equity, and the symbol's stop has just fired with a signal or the signal that counts for it, the last stop exit or else the last signal, is FLAT or SHORT. |
| `LiveExits.NewestSignalCounts` | cpat/infrastructure/execution_engine_live.py:258-299 | For a symbol without stop exits the signal that counts is the last one the strategy emits in the tick; one that an earlier tick left on the queue counts only where the strategy is silent. |
| `LiveExits.LiveExitsAreExact` | cpat/infrastructure/execution_engine_live.py:119-165 | Over every paper run every level belongs to a long position, and each long position ends each tick with a level or a stop exit still on the event queue if and only if on each tick whatever has no standing level is sold, in a tick that completes with positive equity, or keeps its exit on the queue because the strategy raises. |
| `LiveScenarios.CrashLosesExit` | cpat/infrastructure/execution_engine_live.py:145-157 | From a fresh engine, a stop fires and the batch crashes before its first order: the position is left without a level, without a queued exit and without a sale, and stays so through a tick in which the strategy is silent, whatever the bars. |
| `VenueLaws.SubmissionEnds` | cpat/infrastructure/execution_engine_live.py:425-481 | With any broker a submission ends after at most max_order_retries + 1 placements, SUBMITTED at that time under the broker's id exactly when the first answer that is not a connection failure accepts the order, otherwise REJECTED at that time; the retry count is the number of connection failures and no other order changes. A known id is not sent again. |
| `VenueLaws.TerminalOrdersStay` | cpat/infrastructure/execution_engine_live.py:119-165 | Over every run with any broker no order disappears, no fill is taken back, and a terminal order keeps its status, filled quantity and average price for good. |
| `VenueLaws.EveryRunRestarts` | cpat/infrastructure/order_manager.py:529-577 | After every run with any broker the audit log alone rebuilds the order book, in creation order and with every retry count, since each submission ends in a logged line; the rebuilt book can start the next session. |
| `PollLaws.PolledReportIsFound` | cpat/infrastructure/order_manager.py:400-408 | A report about the order it was asked for is applied to that order or ignored; if it carries that order's internal id or broker id it is applied. |
| `PollLaws.RunStaysIndexed` | cpat/infrastructure/order_manager.py:214-239 | Over every run with any broker the broker-id index leads from each order's broker id to that order. |
| `PollLaws.RestartStaysIndexed` | cpat/infrastructure/order_manager.py:529-577 | So it does after a reload, when only the ids written to the log are known. |
| `PollLaws.PollMovesPosition` | cpat/infrastructure/execution_engine_live.py:502-524 | A poll leaves the book alone unless its report leads to an order and exceeds what the polled order was filled; then the position of that order's symbol moves by the difference, up for a purchase and down for a sale, and cash the other way by the difference times the reported price. |
| `PollLaws.PolledFillsAddUp` | cpat/infrastructure/execution_engine_live.py:502-524 | With an outside broker that gives no broker id to two orders and whose reports are about the order asked for, named or found through the broker id, over every run the fill quantities sent to the portfolio add up to exactly the filled quantity of each order. |
| `PollLaws.PolledPositionsAddUp` | cpat/infrastructure/execution_engine_live.py:502-524 | Over the same runs every position moves by the sum of what the orders for its symbol are filled, purchases less sales; from an empty book and unfilled orders it is that sum. |
| `ExpiryLaws.PollCatchesUp` | cpat/infrastructure/execution_engine_live.py:483-524 | A poll that is due reaches every submitted or partly filled order: it ends with the larger of its filled quantity and the reported one, FILLED if that completes it, otherwise with the reported final status or PARTIALLY_FILLED, and SUBMITTED for any other; a poll that is not due changes nothing. |
| `ExpiryLaws.OverdueOrdersEnd` | cpat/infrastructure/execution_engine_live.py:590-612 | Over every run with an outside broker and every paper session, an order still open max age after its submission, or its creation if never submitted, is cancelled when an outside broker that knows it agrees, left open when that broker does not answer, and expired otherwise, with its filled quantity untouched, before the tick trades; no other order changes. |
| `PollLaws.MisaddressedReport` | cpat/infrastructure/execution_engine_live.py:506-524 | The books still add up after a report that leads to another order if and only if both orders have been filled alike or the report exceeds neither; when the other order is final, if and only if the report does not exceed the polled one. |
| `PollLaws.MisaddressedReportCountsTwice` | cpat/infrastructure/execution_engine_live.py:506-524 | The case that fails: a known fill of one order, reported to the poll of an unfilled one, is booked a second time. |
| `PollScenarios.MisaddressedSession` | cpat/infrastructure/execution_engine_live.py:502-537 | Reached from a fresh engine with an outside broker: two orders are accepted, 40 shares of the first are reported to the poll of each, and at the end of the second tick the portfolio has been given 80. |
| `VenueLaws.ExpiredFillRepeats` | cpat/infrastructure/execution_engine_live.py:145-146 | Were an order expired before its fill is drained, every later scan would give that fill to the portfolio again: the order of the two steps carries the exactly-once property. |
| `LiveEngine.LiveExecutionEngine.constructor` | cpat/infrastructure/execution_engine_live.py:45-117 | Wires the components and, when asked to, reconciles once without prices; nothing else of their state changes. |
| `LiveEngine.LiveExecutionEngine.RunTick` | cpat/infrastructure/execution_engine_live.py:119-165 | One tick, cut short or not, takes the state to that of the transition system, with the stops that fire on these bars; when the strategy raises, the signals on the queue stay there for the next tick. |
| `LiveEngine.LiveExecutionEngine.EnsureConnected` | cpat/infrastructure/execution_engine_live.py:188-191 | Connects the paper broker if needed. |
| `LiveEngine.LiveExecutionEngine.SyncPrices` | cpat/infrastructure/execution_engine_live.py:254-256 | Remembers the prices and passes them to the paper broker as quotes. |
| `LiveEngine.LiveExecutionEngine.DrainPaperFills` | cpat/infrastructure/execution_engine_live.py:539-552 | The scan of the whole fill log, fill by fill. |
| `LiveEngine.LiveExecutionEngine.TakeFill` | cpat/infrastructure/execution_engine_live.py:554-569 | The fill reaches the portfolio and the stop levels. |
| `LiveEngine.LiveExecutionEngine.SyncStopState` | cpat/infrastructure/execution_engine_live.py:571-588 | Levels after a fill: dropped on closing or flat, registered at the fill price on a purchase with a stop. |
| `LiveEngine.LiveExecutionEngine.PollOrder` | cpat/infrastructure/execution_engine_live.py:502-524 | One report is applied and its increment booked. |
| `LiveEngine.LiveExecutionEngine.PollOrderUpdates` | cpat/infrastructure/execution_engine_live.py:483-537 | Draining for the paper broker; otherwise polling of all working orders, at most once per interval unless forced. |
| `LiveEngine.LiveExecutionEngine.ExpireStaleOrders` | cpat/infrastructure/execution_engine_live.py:590-612 | Each stale open order is cancelled or expired, or left alone when the broker does not answer. |
| `LiveEngine.LiveExecutionEngine.SubmitOrder` | cpat/infrastructure/execution_engine_live.py:425-481 | Registration and the retry loop. |
| `LiveEngine.LiveExecutionEngine.RouteOrder` | cpat/infrastructure/execution_engine_live.py:408-423 | The gate's decision: submit in full, reduced, or not at all. |
| `LiveEngine.LiveExecutionEngine.ProcessSignalBatch` | cpat/infrastructure/execution_engine_live.py:282-406 | The batch, routed order by order, ends where planning all orders, checking them all and submitting those that pass does. |
| `LiveEngine.LiveExecutionEngine.ReconcileBrokerState` | cpat/infrastructure/execution_engine_live.py:614-661 | Sets the flag to the comparison of cash, positions and equity. |
| `OrderManager.OrderManager.constructor` | cpat/infrastructure/order_manager.py:176-186 | An empty book. |
| `OrderManager.OrderManager.Create` | cpat/infrastructure/order_manager.py:190-210 | Registers a PENDING order, or fails exactly when the id is known. |
| `OrderManager.OrderManager.MarkSubmitted` | cpat/infrastructure/order_manager.py:214-239 | SUBMITTED under the broker's id unless already so; indexed and logged. |
| `OrderManager.OrderManager.ApplyFill` | cpat/infrastructure/order_manager.py:241-295 | Adds the fill with the weighted average price, ignoring terminal, empty and overfull cases. |
| `OrderManager.OrderManager.MarkFilled` | cpat/infrastructure/order_manager.py:297-315 | Forces FILLED. |
| `OrderManager.OrderManager.MarkFinished` | cpat/infrastructure/order_manager.py:317-378 | CANCELLED and EXPIRED, which respect terminal states. |
| `OrderManager.OrderManager.MarkRejected` | cpat/infrastructure/order_manager.py:337-358 | REJECTED with its reason, also from a terminal state. |
| `OrderManager.OrderManager.IncrementRetry` | cpat/infrastructure/order_manager.py:380-393 | Counts a retry; writes no line of its own. |
| `OrderManager.OrderManager.ApplyBrokerStatus` | cpat/infrastructure/order_manager.py:395-453 | Applies a report to the order found by internal id or broker id, with its log lines. |
| `OrderManager.OrderManager.PendingOrders` | cpat/infrastructure/order_manager.py:477-483 | The submitted and partially filled orders in creation order. |
| `OrderManager.OrderManager.StaleOpenOrders` | cpat/infrastructure/order_manager.py:510-527 | The open orders older than the time to live. |
| `OrderManager.OrderManager.LoadAuditLog` | cpat/infrastructure/order_manager.py:529-577 | Rebuilds the book from the last line of each order, or fails at the first order that cannot be built. |
| `OrderLaws.StepKeeps` | cpat/infrastructure/order_manager.py:587-595 | Every operation keeps the last log line of each order equal to its projection. |
| `OrderLaws.ReplayRestores` | cpat/infrastructure/order_manager.py:529-577 | Reading the log back succeeds if and only if every order is a market order, and then restores order, status, quantities, reasons and times exactly and the average price within its four-decimal rounding. |
| `OrderLaws.EveryHistoryReplays` | cpat/infrastructure/order_manager.py:529-577 | So after every history of operations with restarts at any points. |
| `OrderLaws.RoundingIsClose` | cpat/infrastructure/order_manager.py:135-162 | The logged average price is the nearest multiple of a ten-thousandth, the even one of two that are equally near, and rounding it again changes nothing. |
| `OrderLaws.RetriesAreRestored` | cpat/infrastructure/order_manager.py:135-162 | Replay gives an order its retry count back if and only if no retry follows its last log line, and otherwise misses exactly those that do. |
| `OrderLaws.LastRetryIsLost` | cpat/infrastructure/order_manager.py:380-393 | The case that fails: an order created and retried, then reloaded. |
| `OrderLaws.FilledIsMaximum` | cpat/infrastructure/order_manager.py:409-453 | For any list of non-terminal reports, repeated and in any order, the filled quantity ends at the largest one reported. |
| `OrderLaws.ReportsOnlyAdd` | cpat/infrastructure/order_manager.py:409-453 | No report takes a fill back or changes a terminal order beyond broker id, payload and update time. |
| `OrderLaws.ReportedStatus` | cpat/infrastructure/order_manager.py:418-453 | An open order after a report is FILLED if the reported quantity completes it, otherwise takes the reported status if that is final or PARTIALLY_FILLED and is SUBMITTED for any other; it gets its closing time exactly when it is final, and a rejection text only from a rejection. |
| `OrderSteps.NewOrderIsPending` | cpat/infrastructure/order_manager.py:190-210 | A new order is registered last, PENDING, created now and otherwise blank, with one line in the log; a known id changes nothing. |
| `OrderSteps.OpenOrderMoves` | cpat/infrastructure/order_manager.py:214-453 | The status table of an open order: an operation about another order leaves it alone, and one about it leads to the listed status and filled quantity, with a closing time exactly when the order is final, a submission time only from being marked submitted and one more retry only from a retry. |
| `OrderSteps.ReportedPrice` | cpat/infrastructure/order_manager.py:418-453 | The average price of an open order after a report: a FILLED report that leaves shares open overrules it with its own unless that is zero; otherwise the quantity the report adds is averaged in at the reported price. |
| `OrderSteps.FillIsKept` | cpat/infrastructure/order_manager.py:262-295 | An open order that takes a fill has the quantity-weighted average price afterwards and the fill on its list, once. |
| `OrderSteps.FinalOrdersAreExplained` | cpat/infrastructure/order_manager.py:262-453 | After every history of operations and restarts each final order has a closing time and a reason. |
| `OrderLaws.ReportIsIdempotent` | cpat/infrastructure/order_manager.py:409-453 | Applying a report again changes nothing but the update time. |
| `OrderLaws.AverageIsWeighted` | cpat/infrastructure/order_manager.py:262-295 | The average price is always the quantity-weighted average of the fills taken. |
| `OrderLaws.ReportedAverage` | cpat/infrastructure/order_manager.py:418-424 | After a report the order has the broker's cumulative average if and only if it had no fills before or the average has not moved. |
| `OrderLaws.TerminalAbsorbs` | cpat/infrastructure/order_manager.py:214-378 | A terminal status survives an operation if and only if the operation is not one of the three unguarded ones; quantity and price always survive. |
| `PaperBroker.PaperBroker.PlaceOrder` | cpat/brokers/paper.py:125-194 | Refuses when disconnected, unquoted or short of cash, otherwise settles and logs one fill of the whole order. |
| `PaperBroker.PaperBroker.ApplyFillToAccount` | cpat/brokers/paper.py:362-393 | Cash, quantity and average cost after a fill; a position sold down to nothing leaves the books. |
| `PaperBroker.PaperBroker.AccountInfo` | cpat/brokers/paper.py:262-295 | Cash, mark-to-market value and open positions. |
| `PaperBroker.PaperBroker.CancelOrder` | cpat/brokers/paper.py:196-214 | Cancels only an order that is not final. |
| `PaperBroker.PaperBroker.UpdatePrices` | cpat/brokers/paper.py:322-329 | Updates the last prices. |
| `PaperBroker.PlaceKeepsBooks` | cpat/brokers/paper.py:125-194 | At every placement cash and positions stay the fold of the fill log, and every known order is FILLED. |
| `PaperBroker.PlaceSettles` | cpat/brokers/paper.py:149-194 | A placement with a quote either changes nothing, exactly when the purchase costs more than the cash, or moves cash and one position by its one fill. |
| `PaperBroker.PlacementIsExact` | cpat/brokers/paper.py:125-194 | A placement with a quote is refused if and only if it is a purchase whose value and commission exceed cash. Otherwise it is filled in full at the limit or stop price, or at last (1 + slippage) for a market purchase and last (1 - slippage) for a market sale; cash pays value and commission, or gets value less commission, the holding moves by the quantity, and the fill ends the log. |
| `PaperBroker.PositionAddsValue` | cpat/brokers/paper.py:262-295 | Each position adds its quantity at the last quote, or at its average cost if never quoted, to the account's value, and is reported with its quantity as long as that is not zero. |
| `PaperBroker.EmptyAccountIsCash` | cpat/brokers/paper.py:262-295 | Without positions the account is worth its cash. |
| `PaperBroker.SettlesLikePortfolio` | cpat/brokers/paper.py:374-393 | Quantity and average cost move as those of the portfolio's position as long as no sale exceeds the holding. |
| `PaperBroker.SaleAddsCash` | cpat/brokers/paper.py:343-355 | A market sale never lowers cash when slippage and commission are at most 100 percent. |
| `SignalBatch.ChosenSignal` | cpat/infrastructure/execution_engine_live.py:293-299 | Each symbol keeps its last stop exit if it has one, otherwise its last signal, and appears once. |
| `BatchPlanner.ChooseSignals` | cpat/backtest/engine.py:457-467 | The dictionary of latest signals with stop exits on top. |
| `BatchPlanner.SortSignals` | cpat/backtest/engine.py:469-517 | Which signals close and which open, against the current positions. |
| `BatchPlanner.BuildCloses` | cpat/portfolio/translator.py:160-181 | Closing orders for exactly what is held. |
| `BatchPlanner.BuildOpens` | cpat/backtest/engine.py:549-580 | Sized opening orders for the slices that pay for a trade. |
| `BatchPlanner.Plan` | cpat/backtest/engine.py:457-580 | The orders a batch puts to the gate, closes first, and the daily guard afterwards. |
| `BatchBounds.CandidatesAreGood` | cpat/backtest/engine.py:519-580 | For a long-only book a batch has one order for each symbol, closes exactly what is held, opens only where nothing is, with a stop, within the free slots and within the deployable cash. |
| `BatchBounds.RoutedIsFilter` | cpat/risk/engine.py:142-200 | The gate only drops orders of such a batch; what passes keeps its place and its quantity. |
| `BatchBounds.NeverReduced` | cpat/risk/engine.py:284-324 | The position-limit reduction never fires for an order of the managed pipeline. |
| `BatchBounds.PassedMeetLimits` | cpat/risk/engine.py:258-382 | Every opening order that passes meets the cash floor and the single-name, sector and gross caps at decision prices. |
| `BatchBounds.ClosesPass` | cpat/risk/engine.py:228-256 | With positive equity every closing order passes, whatever halts are active. |
| `BatchExits.ExitIsChosen` | cpat/backtest/engine.py:457-489 | A stop exit of something held is among the closing signals whatever else was signalled, if the stop has just fired or stop exits only ever ask to close. |
| `BatchExits.SalePasses` | cpat/backtest/engine.py:469-523 | A batch of either engine sells all that is held of a symbol if and only if equity is positive and the symbol has a closing signal. |
| `BatchExits.ClosingIsExact` | cpat/infrastructure/execution_engine_live.py:305-334 | A symbol is closed in a batch if and only if the signal that counts for it asks for that: for a long position FLAT or SHORT, or any signal if its stop has just fired; for a short one FLAT, a stop, or a LONG signal where the engine covers shorts. |
| `BatchExits.OpeningIsExact` | cpat/infrastructure/execution_engine_live.py:305-334 | With no shorts held, a symbol is opened if and only if nothing of it is held, its stop has not just fired, and the signal that counts for it is LONG. |
| `BatchExits.SaleIsExact` | cpat/backtest/engine.py:469-523 | So a batch of a long-only book sells all that is held of a symbol if and only if equity is positive and the symbol's stop has just fired with a signal or the signal that counts for it is FLAT or SHORT. |
| `BatchExits.PurchaseIsSignalled` | cpat/backtest/engine.py:469-523 | A batch buys only what it holds nothing of, whose stop has not just fired, and whose signal that counts is LONG. |
| `BatchPlans.OpeningsInOrder` | cpat/backtest/engine.py:457-517 | The opening signals come in the order in which their symbols were first signalled. |
| `BatchPlans.PurchaseIsPlanned` | cpat/backtest/engine.py:530-580 | Every purchase of a batch answers the LONG signal that counts for its symbol, which is among the first openings, as many as there are free slots; it is for the quantity the sizer gives the symbol's slice at the current close, in the name of the signal's strategy, and carries the sizer's stop and target. |
| `BatchPlans.SaleAnswersSignal` | cpat/portfolio/translator.py:160-181 | Every sale of a batch answers the signal that counts for its symbol, in the name of its strategy, for all that is held, and is marked as closing. |
| `BatchPlans.SalesComeFirst` | cpat/backtest/engine.py:519-523 | In every batch of a long-only book all sales come before all purchases. |
| `BatchBlocks.GuardIsAsked` | cpat/backtest/engine.py:522-548 | A batch that has openings and may place them asks the daily guard, and places them if and only if a slot is free, the day is not halted and no more than the limit is lost; the guard halts the day exactly when that last is the reason. |
| `BatchPlans.GateIsObeyed` | cpat/backtest/engine.py:582-610 | An order that the gate approves passes unchanged, one that it reduces passes with the reduced quantity, and one that it refuses does not pass. |
| `BatchBounds.BatchKeepsReserve` | cpat/backtest/engine.py:525-580 | After a whole batch gross exposure at decision prices is at most equity less the cash reserve, although every check ignores sibling orders. |
| `BatchBounds.ReserveKeepsFloor` | cpat/portfolio/allocator.py:230-233 | Every spend within the deployable cash leaves the gate's floor, min_cash_pct of equity, if and only if that share is zero or cash is at least equity. |
| `BatchBounds.BatchKeepsFloor` | cpat/risk/engine.py:258-282 | Under that condition every batch keeps the floor at decision prices. |
| `BatchBounds.LoneOpeningKeepsFloor` | cpat/risk/engine.py:258-282 | A batch of which a single opening order passes keeps it always. |
| `Scenarios.SiblingsMayBreakCashFloor` | cpat/risk/engine.py:258-282 | The case that fails: two long signals become orders of 47 shares each that both pass and together leave 6 of cash where the floor is 50, because every check ignores its siblings. |
| `Allocator.ApplyCaps` | cpat/portfolio/allocator.py:152-186 | The redistribution loop, in whatever order the symbols are taken, computes the rounds of water-filling and terminates. |
| `Allocator.CapsAreWaterFilling` | cpat/portfolio/allocator.py:152-186 | There is one level such that every symbol holds min(cap, level times weight), within 1e-9; the total never exceeds the capital and reaches it unless every symbol is full. |
| `Allocator.CapsPlaceAll` | cpat/portfolio/allocator.py:152-186 | The total placed is min(deployable, n cap) up to one tolerance for each symbol. |
| `Allocator.Allocate` | cpat/portfolio/allocator.py:209-343 | Both allocators: one slice for each signal, in order; none without equity or signals. |
| `Allocator.SliceIsShare` | cpat/portfolio/allocator.py:232-343 | A slice's weight times the deployable capital is its target, zero without such capital, and its sigma is the one it was weighted with, zero for equal weight. |
| `Allocator.WeightsArePositive` | cpat/portfolio/allocator.py:300-320 | Every signal gets a positive weight, whatever the volatility data. |
| `Allocator.WeightsAddUp` | cpat/portfolio/allocator.py:230-320 | The weights of distinct signals add up to one, for either allocator. |
| `Allocator.WeightsAreInverseSigmas` | cpat/portfolio/allocator.py:300-320 | For positive sigmas two symbols are weighted in the documented proportion 1/sigma if and only if their sigmas are equal or neither is below the mean. |
| `Allocator.QuietSymbolWeighsLess` | cpat/portfolio/allocator.py:300-320 | The case that fails: sigmas 1 and 3. |
| `Allocator.EqualWeightSplitsEvenly` | cpat/portfolio/allocator.py:230-248 | Equal weighting gives each symbol the smaller of its even share and the cap, within the tolerance. |
| `Allocator.TargetsAreBounded` | cpat/portfolio/allocator.py:230-248 | Targets lie between zero and the single-name cap and sum to at most (1 - min_cash_pct) cash. |
| `Allocator.TargetsAreWaterFilled` | cpat/portfolio/allocator.py:209-343 | Both allocators fill what min_cash_pct of the cash leaves over the signals in the ratio of their weights, each up to max_position_pct of equity, none below zero. |
| `PositionSizing.SizeIsLargestAllowed` | cpat/risk/position_sizing.py:271-543 | A sized trade is the largest that the slice, the single-name cap and the sizer's own budget allow, and is worth at least the minimum. |
| `PositionSizing.SizedExactly` | cpat/risk/position_sizing.py:271-543 | A trade gets a size if and only if price and equity are positive, it can be planned (its stop is above zero and an ATR stop has an ATR, or the Kelly odds are favourable), and some whole number of shares is allowed and worth the minimum. |
| `PositionSizing.StopLosesPlannedRisk` | cpat/risk/position_sizing.py:205-226 | A long trade that leaves at its stop loses exactly the planned risk, and at its target gains the configured multiple of it. |
| `PositionSizing.StopAndTarget` | cpat/risk/position_sizing.py:205-226 | In either direction the stop of a sized trade lies the planned width (a multiple of the ATR or a share of the price) beyond the entry, no lower than 0.01 for the Kelly sizer, and the target the configured multiple of it on the other side. |
| `PositionSizing.FixedFractionalRisksLess` | cpat/risk/position_sizing.py:294-327 | Contrary to the documentation, the fixed-fractional sizer always risks less than the configured fraction. |
| `RiskEngine.RiskGate.constructor` | cpat/risk/engine.py:113-138 | The peak starts at the initial capital, without a halt. |
| `RiskEngine.RiskGate.Check` | cpat/risk/engine.py:142-200 | The decision and the new peak and halt flag, from exposures read off the portfolio. |
| `RiskEngine.RiskGate.UpdateEquity` | cpat/risk/engine.py:202-210 | The peak is the running maximum. |
| `RiskEngine.ApprovalIsExact` | cpat/risk/engine.py:142-200 | A priced opening order passes in full if and only if equity is positive, no drawdown halt applies and all four limits hold after it. |
| `RiskEngine.FirstLimitDecides` | cpat/risk/engine.py:174-382 | An opening order that equity and drawdown let through is refused for the first limit it breaks, of cash, position, sector and gross exposure in that order; where the position limit is the first in the way it is reduced instead, unless not a single share fits; without a price it passes unchecked. |
| `RiskEngine.ChecksAreOnTheBook` | cpat/risk/engine.py:142-382 | The gate decides on equity, cash, the size of the position in the order's symbol, and the exposures of its sector and of the whole book, all before the order. |
| `RiskEngine.DrawdownHaltIsExact` | cpat/risk/engine.py:228-256 | With positive equity the halt is on after a check if and only if equity is below the peak, this equity included, by more than max_drawdown_pct of it; then, and only then, an order that does not reduce a position is refused with max_drawdown. |
| `RiskEngine.ClosingPasses` | cpat/risk/engine.py:228-256 | A reducing order passes if and only if equity is positive. |
| `RiskEngine.SizedOrdersKeepQuantity` | cpat/risk/engine.py:284-324 | An order within the single-name cap on a flat symbol is never reduced. |
| `RiskEngine.ReductionFits` | cpat/risk/engine.py:284-324 | A reduction is the largest quantity within the single-name cap. |
| `RiskEngine.PassedMeetsLimits` | cpat/risk/engine.py:174-200 | The quantity of an opening order that passes meets all four limits if and only if the order was within the single-name cap as it came, or the sector and gross limits hold for the room left under that cap. |
| `RiskEngine.ReductionMayBreakSectorLimit` | cpat/risk/engine.py:174-200 | The case that fails: an order for 10 shares is reduced to 5 and breaks the sector limit, which a reduction never reaches. |
| `RiskEngine.PortfolioRiskManager.UpdateDailyEquity` | cpat/risk/risk_manager.py:358-375 | A new date sets the starting equity and lifts the halt. |
| `RiskEngine.PortfolioRiskManager.CanOpenNewPosition` | cpat/risk/risk_manager.py:379-418 | Slots, halt and daily loss decide; a breach halts. |
| `RiskEngine.DailyLossIsExact` | cpat/risk/risk_manager.py:379-418 | A position may be opened if and only if a slot is free, the day is not halted and equity is not below the start of the day by more than max_daily_loss_pct of it; only that last reason halts the day. |
| `RiskEngine.HaltLastsTheDay` | cpat/risk/risk_manager.py:358-418 | After any updates and checks of one date trading is halted if and only if it was before or some check of that date, made with a slot free, met the loss limit, and while it is halted no position may be opened. |
| `RiskEngine.NextDateStartsAfresh` | cpat/risk/risk_manager.py:358-375 | The first update of another date forgets all of it. |
| `StopLoss.StopLevel.UpdateTrailing` | cpat/risk/risk_manager.py:93-112 | The ratchet. |
| `StopLoss.StopLevel.Watch` | cpat/risk/risk_manager.py:221-261 | Ratchet first, then stop and target; reports the bar on which it fires. |
| `StopLoss.StopLossTracker.Register` | cpat/risk/risk_manager.py:155-192 | A new level replaces any old one. |
| `StopLoss.StopLossTracker.Deregister` | cpat/risk/risk_manager.py:194-200 | Drops a level. |
| `StopLoss.StopLossTracker.CheckStops` | cpat/risk/risk_manager.py:202-267 | Each level that fires is listed once and dropped; the others have seen the bar. |
| `StopLoss.RatchetClosedForm` | cpat/risk/risk_manager.py:90-112 | After any bars a live trailing stop is max(initial stop, max(entry, highs) - max(entry - initial stop, 0.01)), and the level has fired if and only if some bar reached the stop in force or the target. |
| `StopLoss.StopNeverFalls` | cpat/risk/risk_manager.py:93-112 | More bars never lower the stop, and a fired level stays fired. |
| `StopLoss.RegistrationLives` | cpat/risk/risk_manager.py:155-267 | Among any events of the tracker that leave the symbol alone, a registered level is there if and only if no bar of its symbol has exited, and has then seen them all. |
| `StopLoss.ListedAtFirstExit` | cpat/risk/risk_manager.py:202-267 | Over the same events a registration is listed exactly at the first bar that exits, and at most once. |
| `StopExits.SyncLevels` | cpat/backtest/engine.py:612-632 | Levels after a fill, for both engines. |
| `StopExits.LevelAfterFill` | cpat/backtest/engine.py:612-632 | A fill ends the level of its symbol when its order closes or nothing long is left, sets one when it is a purchase with a planned stop, and otherwise leaves all levels as they are. |
| `StopExits.PurchaseIsProtected` | cpat/risk/risk_manager.py:155-267 | From the fill of a purchase with a planned stop on, its level is there if and only if every bar of the symbol since has stayed above the stop in force and below the target; that stop is the planned one or, when trailing, the larger of it and the highest price less the planned distance, at least a cent. |
| `StopExits.RaiseStops` | cpat/risk/risk_manager.py:202-321 | The stop check with one exit signal for each level that fires. |
| `StopExits.OneExitEach` | cpat/risk/risk_manager.py:304-321 | Each symbol that fires gets one signal, in the order given: FLAT, marked as a stop exit, in the name of the strategy its level was registered for. |
| `ExecutionEngine.ExecutionEngine.Submit` | cpat/execution/engine.py:266-276 | Queues an order last. |
| `ExecutionEngine.ExecutionEngine.ExecuteOrder` | cpat/execution/engine.py:320-378 | A fill at the open less slippage, or none when the price is not positive. |
| `ExecutionEngine.ExecutionEngine.ProcessPending` | cpat/execution/engine.py:278-316 | One pass over the waiting orders: filled, rejected, or deferred without a bar. |
| `ExecutionEngine.EveryOrderInOnePlace` | cpat/execution/engine.py:266-316 | Over any interleaving of submissions and bars every order is in exactly one of pending, filled and rejected, is executed at most once, and the pending ones keep the order of submission. |
| `ExecutionEngine.FillsComeLater` | cpat/execution/engine.py:278-378 | In every timed history of the engine each fill is of a submitted order, in full, strictly later than the order, at the open of the bar that fills it plus or minus the impact of the slippage model, never in the trader's favour for non-negative parameters, and charged the commission of its model. |
| `ExecutionEngine.FixedSlippageRefuses` | cpat/execution/engine.py:66-90 | Under fixed slippage an order with a bar is refused if and only if the slippage takes the whole price. |
| `ExecutionEngine.SlippageIsNonNegative` | cpat/execution/engine.py:66-124 | None of the three slippage models turns into a gain for non-negative parameters. |
| `ExecutionEngine.NothingDeferred` | cpat/execution/engine.py:298-305 | With a bar for every waiting symbol nothing is deferred. |
| `BacktestEngine.BacktestEngine.constructor` | cpat/backtest/engine.py:98-185 | A fresh managed backtest. |
| `BacktestEngine.BacktestEngine.Run` | cpat/backtest/engine.py:250-295 | The bar loop takes the state to that of the transition system, with the stops that fire. |
| `BacktestEngine.BacktestEngine.OpenBar` | cpat/backtest/engine.py:252-254 | Pending orders are filled at the open and their fills booked. |
| `BacktestEngine.BacktestEngine.ApplyFill` | cpat/backtest/engine.py:371-384 | A fill reaches the portfolio and, through its order, the stop levels. |
| `BacktestEngine.BacktestEngine.SyncStopState` | cpat/backtest/engine.py:612-632 | Levels after a fill. |
| `BacktestEngine.BacktestEngine.RouteOrder` | cpat/backtest/engine.py:582-610 | The gate's decision: queue in full, reduced, or not at all. |
| `BacktestEngine.BacktestEngine.ProcessSignalBatch` | cpat/backtest/engine.py:440-580 | No batch in the warm-up; otherwise routing order by order ends where checking all and queueing those that pass does. |
| `BacktestRuns.PositionsStayInBounds` | cpat/backtest/engine.py:230-295 | Over every managed backtest with a bar for each waiting order, positions are flat or long, never added to, closed by exactly their own quantity, and at no point of the fill history more than max_open_positions, although orders fill a bar after the slots are counted. |
| `BacktestGaps.KeptBarsServe` | cpat/execution/engine.py:298-305 | A condition on the input alone: when every symbol the strategy has gone long on, while it had a bar, keeps having bars, no order ever waits for one. |
| `BacktestGaps.TradesFitExactly` | cpat/execution/engine.py:278-316 | Over every managed backtest, with bars missing or not, each fill opens a position where none is or closes exactly what is held if and only if no open executes two orders for one symbol. |
| `BacktestGaps.RepeatsAreSales` | cpat/backtest/engine.py:549-580 | Up to there only a sale is ever repeated, never a purchase: no long position is added to, with bars missing or not. |
| `BacktestGaps.GapsKeepBounds` | cpat/execution/engine.py:298-305 | If no open executes two orders for one symbol and no purchase waits without a bar, the bounds hold with bars missing too, at every fill. |
| `GapScenarios.RepeatedSaleGoesShort` | cpat/execution/engine.py:298-305 | A backtest, from its start, in which a symbol misses two bars while the strategy keeps asking out: three sales of the same 100 shares fill together, the second opens a short position and the third adds to it. |
| `GapScenarios.WaitingPurchaseOverfills` | cpat/backtest/engine.py:530-540 | A backtest, from its start, with one position allowed, in which a purchase waits for a bar, its slot is given away, and both purchases fill. |
| `BacktestRuns.BarKeeps` | cpat/backtest/engine.py:250-295 | The bar invariant: waiting orders fit the book, one for each symbol, and leave room for every opening. |
| `BacktestRuns.FillTrades` | cpat/backtest/engine.py:371-384 | One fill opens or closes its symbol and registers or drops its level. |
| `BacktestFills.RunFollows` | cpat/backtest/engine.py:250-295 | Every managed backtest, with bars missing or not, is a history of its execution engine: each bar fills at its open and then queues the orders decided on it, under new ids. |
| `BacktestFills.EachOrderFillsOnce` | cpat/backtest/engine.py:251-254 | So over every backtest an order is executed at most once, an executed one no longer waits, and the portfolio gets exactly the engine's fills, each once and in order. |
| `BacktestFills.EveryFillComesLater` | cpat/backtest/engine.py:251-254 | Over every backtest with bars in time order each fill is for an order of the run, in full, strictly later than the bar it was decided on, at the open of the bar that fills it made worse by the slippage, and charged the commission of its model. |
| `BacktestExits.ExitAtEndOfBar` | cpat/backtest/engine.py:250-295 | A position held after the open has a level or a full-quantity sale pending at the end of the bar if and only if its level is there and does not fire, or equity is positive and the symbol is among the closing signals. |
| `BacktestExits.ExitsAreExact` | cpat/backtest/engine.py:250-295 | Over every managed backtest with a bar for each waiting order, long positions have exits at the end of all bars if and only if that holds at each of them; every level always belongs to a long position. |
| `BacktestExits.EveryLongHasAnExit` | cpat/backtest/engine.py:250-295 | So they do if no sale is refused and equity is positive whenever a stop fires. |
| `BacktestExits.FixedSlippageKeepsExits` | cpat/execution/engine.py:66-90 | Fixed slippage below 10,000 basis points refuses no sale, which leaves only the condition on equity. |
| `BacktestExits.SaleIsQueued` | cpat/backtest/engine.py:476-489 | A bar queues a sale of all that is held of a symbol if and only if something is held, equity is positive, and the symbol's stop has just fired with a signal or the signal that counts for it is FLAT or SHORT. |
| `BacktestBlocks.WarmupIsExact` | cpat/backtest/engine.py:440-455 | The first warm-up bars of a backtest order nothing, so nothing is filled up to the first bar after them; every later bar orders exactly what its batch puts past the gate. |
| `BacktestBlocks.FallBuysNothing` | cpat/risk/engine.py:228-256 | Over every managed backtest, once the equity of a bar has fallen by more than max_drawdown_pct below that of any earlier bar, every order of the bar is an exit. |
| `BacktestBlocks.LossBuysNothing` | cpat/risk/risk_manager.py:358-418 | Over every managed backtest, in a bar whose equity has fallen by more than max_daily_loss_pct below that of the first bar of its date, every order is an exit. |
| `BacktestScenarios.BrokeExitIsLost` | cpat/risk/engine.py:142-160 | A backtest of two bars, from its start, in which a stop fires without equity and the position is left with no exit. |
| `BacktestScenarios.RefusedExitIsLost` | cpat/execution/engine.py:307-313 | A backtest of three bars, from its start, in which the sale of a fired stop is refused at the open and dropped. |
| `Models.Position.ApplyFill` | cpat/core/models.py:282-312 | Open, add at the weighted average cost, reduce, close or flip. |
| `Portfolio.PortfolioManager.constructor` | cpat/portfolio/manager.py:82-99 | Initial capital as cash, nothing held. |
| `Portfolio.PortfolioManager.ApplyFill` | cpat/portfolio/manager.py:103-131 | Cash, the position and the fill trail after a fill. |
| `Portfolio.PortfolioManager.TotalEquity` | cpat/portfolio/manager.py:135-152 | Cash plus the market values of priced open positions. |
| `Portfolio.PortfolioManager.Exposure` | cpat/portfolio/manager.py:172-229 | Gross and sector exposure. |
| `Portfolio.PortfolioManager.UnrealisedPnl` | cpat/portfolio/manager.py:393-409 | The paper gains of priced open positions. |
| `Portfolio.PortfolioManager.RealisedPnl` | cpat/portfolio/manager.py:411-413 | The realised gains of all positions. |
| `Portfolio.PortfolioManager.OpenPositions` | cpat/portfolio/manager.py:371-373 | The symbols that are not flat. |
| `Portfolio.PortfolioManager.GetPosition` | cpat/portfolio/manager.py:380-391 | The position, flat for a symbol never traded. |
| `Accounting.FillConserves` | cpat/core/models.py:282-312 | Every fill, flips included, moves value between cash, cost and realised P&L; only an opening commission leaves the three. |
| `Accounting.HeldSince` | cpat/core/models.py:282-312 | After every sequence of real fills an open position is dated from the fill that last took it from flat, also when it has flipped since, and a flat one has no date and no cost. |
| `Accounting.PositionAddsExposure` | cpat/portfolio/manager.py:135-229 | Each open position with a positive price adds its value to equity and the size of its value to gross exposure and to the exposure of its own sector, Unknown without one; any other position adds nothing. |
| `Accounting.CashIsNoExposure` | cpat/portfolio/manager.py:135-229 | Without positions equity is cash and there is no exposure. |
| `Accounting.CashIsConserved` | cpat/portfolio/manager.py:103-131 | Cash = initial capital + realised P&L - cost basis - opening commissions, after every fill sequence. |
| `Accounting.EquityIdentity` | cpat/portfolio/manager.py:135-152 | Equity = initial capital + realised + unrealised - opening commissions - cost of unpriced positions, with no assumption on prices. |
| `Accounting.EquityIdentityWhenPriced` | cpat/portfolio/manager.py:393-413 | The identity without the last term holds if and only if that cost is nothing, as it is whenever every open position has a positive price. |
| `TradeMatching.ComputeTradePnl` | cpat/analytics/performance.py:385-424 | The grouping of fills by symbol and the matching loops; the result is the entries of each symbol in the order of first appearance. |
| `TradeMatching.SymbolsAreInOrder` | cpat/analytics/performance.py:385-404 | The symbols matched are those that were traded, in the order of their first fills. |
| `TradeMatching.EntriesAreInOrder` | cpat/analytics/performance.py:385-424 | In the result the entries of a symbol follow right after those of the symbols before it, and nothing else is there. |
| `TradeMatching.FifoAgainstAverageCost` | cpat/analytics/performance.py:385-424 | With holdings never negative the queue holds exactly the position, and FIFO gross less average-cost gross P&L is the difference in cost they assign to it. |
| `TradeMatching.FlatFiguresAgree` | cpat/analytics/performance.py:385-424 | Whenever the position is flat the two gross figures agree. |
| `TradeMatching.PositionIsLedger` | cpat/portfolio/manager.py:103-131 | The portfolio's position in a symbol is the ledger of the fills in that symbol, so the comparison holds symbol by symbol. |
| `TradeMatching.FlatPortfolioAgrees` | cpat/analytics/performance.py:385-424 | For a symbol the portfolio no longer holds, its realised P&L and the matched entries differ by the repeated commissions alone. |
| `TradeMatching.OneEntryOnly` | cpat/analytics/performance.py:409-422 | A sale is matched in a single entry if and only if the oldest lot covers it. |
| `TradeMatching.QueueIsRest` | cpat/analytics/performance.py:385-424 | With holdings never negative the queue is always what the purchases, oldest first, leave when as many shares as were sold are taken from their front. |
| `TradeMatching.PerLotFeesOvercharge` | cpat/analytics/performance.py:405-424 | FIFO charges a sale's commission once for each lot: never less than was paid, and the same if and only if no charged sale is larger than the oldest lot at that point. |
| `TradeMatching.TwoLotSaleIsChargedTwice` | cpat/analytics/performance.py:405-424 | The case that fails: a charged sale larger than the first of two purchases. |
| `Drawdown.ComputeDrawdownTable` | cpat/analytics/drawdown.py:99-183 | The one-pass scan. |
| `Drawdown.ScanIsSound` | cpat/analytics/drawdown.py:118-170 | The scan's peak is always the running maximum, its closed episodes are episodes of the curve, in order, and every dip so far is covered. |
| `Drawdown.EveryDipInExactlyOneEpisode` | cpat/analytics/drawdown.py:99-183 | A bar is below the running peak if and only if it lies in a listed episode below that episode's high, and no two episodes share a bar. |
| `Drawdown.TimelineIsOrdered` | cpat/analytics/drawdown.py:99-183 | The episodes are disjoint, in time order, and each trough is its episode's minimum. |
| `Drawdown.TableIsTimeline` | cpat/analytics/drawdown.py:180-183 | The table lists the episodes, sorted by depth. |
| `Drawdown.TableKeepsTies` | cpat/analytics/drawdown.py:180-183 | Episodes of equal depth are listed in time order. |
| `Drawdown.WorstFirst` | cpat/analytics/drawdown.py:81-96 | For a positive curve the first depth is the minimum of the drawdown series, and the table is empty if and only if the series never dips. |
| `ConfigPaths.FlattenConfig` | ui/services/config_service.py:131-144 | Dotted paths of a nested configuration. |
| `ConfigPaths.UnflattenConfig` | ui/services/config_service.py:146-155 | Expansion of dotted paths. |
| `ConfigPaths.ApplyOverrides` | ui/services/config_service.py:157-170 | Overrides by path; a leaf on the way is an error. |
| `ConfigPaths.SetPathIsExact` | ui/services/config_service.py:157-170 | An override fails if and only if a shorter path already leads to a value; otherwise its own path leads to the new value afterwards. |
| `ConfigPaths.OverridesFail` | ui/services/config_service.py:157-170 | A list of overrides fails if and only if one of them meets, in the configuration the ones before it have left, a value on its way. |
| `ConfigPaths.RoundTrip` | ui/services/config_service.py:131-155 | Expanding the flattened form gives the configuration back, order included, if and only if its keys have no dots, no sub-dictionary is empty and no dictionary sits under the empty key at the top. |
| `ConfigPaths.OverridesUpdate` | ui/services/config_service.py:157-170 | Overriding existing leaf paths commutes with flattening, also where sub-dictionaries are empty: the flattened result is the flattened base, updated. |

## Left out

- The Dhan adapter, HTTP retries, credentials, the Streamlit UI, schedulers, file handling and loggers: input and output.
- Threads and locks: a tick and a bar are atomic.
- Failing writes of the audit log, and JSON encoding: the log is a list of records.
- The fetch and freshness filter of bars, and indicator values (ATR, sigma): inputs.
- Strategies, except as arbitrary signals; the 10,000 and 50,000 iteration limits of the event loops; events that handlers put on the queue themselves.
- Baseline (unmanaged) backtests, partial fills with `fill_ratio` below 1, tiered commissions, and snapshots, counters and trade-risk records.
- Performance statistics other than trade matching, and the optimisation tools.
- Floating-point rounding, except the four-decimal rounding in the audit record.
- Short selling by the translator (`allow_short`): the managed path only opens long positions.
- GetPosition: does not insert the flat entry that looking up an unknown position leaves behind; the model's lookup changes nothing.
- RunTick: an exception outside the strategy and the batch (while connecting, fetching, polling or reconciling) is not modelled.
- The order in which the stop tracker lists the symbols that fire: any order is allowed.
- The cursor that walks a nested configuration in place: `ConfigPaths` sets a path by recursion on values, so aliasing of sub-dictionaries is not captured.
- In both engines all orders of a batch are planned before the first is routed; the planned orders are the same, because planning reads only what routing does not change, but the interleaving itself is not modelled.
- LiveExitsAreExact: assumes that what a strategy marks as a stop exit asks to close; a sale placed in a tick that crashes counts from the next tick on, when its fill reaches the portfolio.
- GapsKeepBounds: one way only; `RepeatedSaleGoesShort` and `WaitingPurchaseOverfills` show that neither condition can be dropped.
- PolledFillsAddUp: assumes broker ids given to one order each and reports about the order asked for; `MisaddressedReport` says exactly which other reports are booked right.
- PolledPositionsAddUp: on the same assumptions, and PollCatchesUp for the reports of its poll.
- EveryRunRestarts: does not give back the broker id, the update time and the last payload of an order that was final when they changed, because such changes are not logged.
- FifoAgainstAverageCost: only for holdings never negative, because the matching drops a sale beyond the queue.
