# The trading engine's accounting and dispatch core, in Dafny

This project models the deterministic core of an event-driven trading engine and proves what it keeps over every
run. Objects the engine updates in place are classes here, with methods that follow the code branch by branch;
each method is tied to a function of the state before it, and the laws are proved about those functions over all
sequences of events.

* **Ledger and positions** (`Ledger`, `RealizedOrder`, `Portfolio`, `PortfolioLaws`, `Valuation`): the average-cost
  position record, the position table, equity and exposure, and the events a fill or a tick publishes. The books are
  shown to be a cash ledger in disguise, whatever the order and the splitting of fills; what they are worth at the
  market, and what they announce, is read off the fills and the marks alone.
* **Broker** (`Broker`, `BrokerLaws`): held market orders, resting limit orders and completed orders of the
  simulated broker.
* **Risk, execution and the wired engine** (`Risk`, `Execution`, `Pipeline`, `PipelineLaws`, `Commitments`,
  `Throttling`, `OrderLaws`, `Backtest`): the six risk checks, sizing and throttling, and the chain signal - approval -
  order - fill - position as one synchronous step. Strategies are arbitrary: a run is any sequence of bars, ticks and
  switch operations with any signals. `Commitments` proves exactly when the position limit holds, `Throttling` how far
  apart requests are, `OrderLaws` which signals become orders and for how many shares. `Backtest` wires the component
  objects, and the VWAP or mean-reversion strategy to them, and ends in the pipeline's state.
* **Event bus** (`EventBus`, `Scheduling`, `Queueing`, `Drain`): subscriptions and the handler cache with handlers that
  change subscriptions while they run, synchronous against queued dispatch, the two-lane queue, and draining.
* **Streaming computations** (`Statistics`, `MeanReversion`, `Bollinger`, `Vwap`, `Bars`, `Metrics`, `StableSort`,
  `Interleavings`, `Replay`): window statistics and the strategies built on them, bar building, drawdown, and the replay
  cursor with all the coroutines that may drive it.

`Basics`, `Reals`, `Sums` and `Sequences` hold shared values and arithmetic.

Conventions. Prices, money and times are real numbers, share counts unbounded integers. Symbols and sides are values
(`Side` keeps other texts apart, which the engine carries along and the ledger ignores). An insertion-ordered
dictionary is its key order with a map, or the list of its entries when its keys are unique. Clock readings, square
roots (a non-negative number with the right square) and what others do while a replay awaits are inputs.
Publishing appends to the publisher's `published` log; where a subscriber's reaction matters it is delivered by the
module that wires the components.

Some promises turn out to hold on a condition only, and the condition is proved exactly:

* Draining the bus means that everything was dispatched if and only if handlers mix the two priority lanes safely
  (`Drain.DrainIsSoundIff`).
* The position limit holds at every moment of a run, under all prices to come, if and only if no signal asks for a new
  symbol when open and waiting positions fill the limit (`Commitments.PositionLimitIff`). Risk counts open positions
  only, so that signals on symbols without a price break it (`PipelineLaws.UnpricedSignalsBreakTheLimit`); signals on
  priced symbols never do (`Commitments.PositionLimitHolds`), and those of the VWAP strategy always are on priced
  symbols (`Backtest.Wiring.RunVwap`).
* The VWAP strategy's signals add up to the position it believes to hold, on every history, if and only if its
  thresholds rule out reversals (`Vwap.SignalsAlwaysMatchIff`); on one history, if and only if its deviations flip
  equally often both ways (`Vwap.SignalsMatchBeliefIff`). `Vwap.ReversalLeavesNothing` is a history of three trades on
  which they do not.
* Slippage, rounded to cents, costs an order if and only if the moved price comes within half a cent of the first whole
  cent beyond the market (`BrokerLaws.SlippageCostsIff`); `BrokerLaws.SlippageCanFavour` shows a buy and a sale that
  gain.
* A bar's low is the lowest price if and only if some price is negative, none is zero or the last one is
  (`Bars.LowIsLowestIff`); `Bars.LowForgetsZero` is a bar whose low is not.
* Over any interleaving of runs, restarts, steps, stops, pauses and exceptions, a replay of distinct events publishes
  them in order, each once, if and only if no publication begins while another is in progress or after one has failed
  (`Interleavings.ExactlyOnceIff`, and `Replay.ReplayEngine.ExactlyOnce` for the object). `Interleavings.StepRepeats`,
  `RestartRepeats` and `FailureRepeats` are three ways to overlap; one driver at a time never does
  (`Interleavings.OneDriverSuffices`).
* Realized PnL, unlike total PnL, may depend on the order of fills (`Ledger.RealizedDependsOnOrder`). Every order realizes
  the same if and only if the fills end flat, or none goes against the side they end on, or all that go to that side
  have one price (`RealizedOrder.RealizedIsFixedIff`).

The repository's workflow summary says that the risk engine subscribes to fills and exposure updates; the code reads the
position manager instead, and so does the model.

## Model

| member | source | states |
|---|---|---|
| Portfolio.Position.Update | src/edrader/portfolio/position.py:218-259 | the four-way branch, in place, leaves the position the ledger function gives, for every side text and quantity |
| Ledger.StepBalancesIff | src/edrader/portfolio/position.py:221-259 | a fill moves quantity by its signed size, and changes realized PnL less open cost by exactly its cash unless a negative fill drops cost at or through flat: the exact condition, for all quantities |
| Ledger.CashConservation | src/edrader/portfolio/position.py:214-259 | over every fill sequence: quantity is the signed sum, realized PnL less average cost times quantity is the net cash, flat means zero cost |
| Ledger.SplitFill | src/edrader/portfolio/position.py:221-259 | one fill of a + b leaves the same record as a then b at the same price, through adds, covers, closes and flips |
| Ledger.SplitIntoParts | src/edrader/portfolio/position.py:221-259 | the same for any number of parts |
| Ledger.OrderOfFillsIsIrrelevant | src/edrader/portfolio/position.py:221-267 | any permutation of a fill list ends at the same quantity and, at a common mark, the same total PnL |
| Ledger.RealizedDependsOnOrder | src/edrader/portfolio/position.py:230-239 | realized PnL alone is not invariant: a permutation of three fills realizes -1 or +1 |
| RealizedOrder.RealizedIsFixedIff | src/edrader/portfolio/position.py:221-259 | every order of a fill list realizes the same exactly if the fills end flat, or none of them goes against the side they end on, or all that go to that side have one price |
| Ledger.CostStaysInHull | src/edrader/portfolio/position.py:221-259 | while open, the average cost lies between prices of fills that opened or increased the position since it was last flat or flipped |
| Portfolio.PositionManager.constructor | src/edrader/portfolio/position.py:40-55 | plumbing: a new manager has empty books and is not running |
| Portfolio.PositionManager.TotalRealizedPnl | src/edrader/portfolio/position.py:65-67 | the loop totals realized PnL over the table |
| Portfolio.PositionManager.UnrealizedPnl | src/edrader/portfolio/position.py:261-267 | unrealized PnL at the last mark, or at cost when there is none |
| Portfolio.PositionManager.ComputeUnrealizedPnl | src/edrader/portfolio/position.py:269-276 | the loop totals unrealized PnL over the table |
| Portfolio.PositionManager.EquityNow | src/edrader/portfolio/position.py:74-81 | capital plus realized plus unrealized PnL |
| Portfolio.PositionManager.ExposureNow | src/edrader/portfolio/position.py:83-104 | one pass computes gross, signed net, and the numbers of longs and shorts |
| Portfolio.PositionManager.LeverageNow | src/edrader/portfolio/position.py:106-111 | gross over equity, zero without equity |
| Portfolio.PositionManager.PublishExposure | src/edrader/portfolio/position.py:185-212 | publishes the exposure of the current books, then the limit warnings |
| Portfolio.PositionManager.PublishLimits | src/edrader/portfolio/position.py:201-212 | one warning per symbol over the limit, in table order |
| Portfolio.PositionManager.UpdatePosition | src/edrader/portfolio/position.py:214-219 | finds or creates the record, updates it in place, leaves all others alone |
| Portfolio.PositionManager.ProcessFill | src/edrader/portfolio/position.py:133-183 | new books and the exact events in order: opened or closed if so, PnL, exposure, limits; nothing when stopped |
| Portfolio.PositionManager.OnTick | src/edrader/portfolio/position.py:282-315 | marks the symbol at the last price or the quote's middle, ignores an empty tick, publishes only for a known position |
| PortfolioLaws.SymbolsAreIndependent | src/edrader/portfolio/position.py:214-219 | over every sequence of fills and marks each symbol holds the position its own fills make |
| PortfolioLaws.PnlIsBalanceAndHoldings | src/edrader/portfolio/position.py:65-77 | total realized and unrealized PnL equal the books' balances plus the holdings at their prices |
| Valuation.EquityIdentity | src/edrader/portfolio/position.py:65-111 | over every run, equity is capital plus all fills' cash plus each symbol's net quantity at its last mark (at its average cost while it has none); the net exposure is that last term, the gross one takes quantities without sign, leverage is gross over equity |
| Valuation.Announcements | src/edrader/portfolio/position.py:133-212 | over every run, exactly what each fill and each mark announces, in order and with its figures as they stand at the market afterwards, down to one warning per symbol whose value exceeds the limit |
| Valuation.TickMarks | src/edrader/portfolio/position.py:282-294 | a tick marks at its last price, without one at the point as far from the bid as from the ask, and not at all if one of these is missing |
| PortfolioLaws.OpenCloseProtocol | src/edrader/portfolio/position.py:137-160 | from flat, each symbol's opened and closed events strictly alternate, the last tells whether it is open, and opened less closed is longs plus shorts |
| Broker.SimulatedBroker.constructor | src/edrader/replay/simulated_broker.py:43-60 | plumbing: an empty book |
| Broker.SimulatedBroker.Stop | src/edrader/replay/simulated_broker.py:79-93 | plumbing: forgets prices and orders but not the id counter |
| Broker.SimulatedBroker.FillOrder | src/edrader/replay/simulated_broker.py:107-150 | publishes submitted, status and fill, then records the completed order with commission |
| Broker.SimulatedBroker.OnOrderRequest | src/edrader/replay/simulated_broker.py:162-200 | fills, holds or rests the order by type, price and limit; any request takes an id |
| Broker.SimulatedBroker.OnBarClose | src/edrader/replay/simulated_broker.py:207-212 | a close prices the symbol and fills what it releases and crosses |
| Broker.SimulatedBroker.OnTick | src/edrader/replay/simulated_broker.py:214-222 | the same for a tick, except that a zero price is ignored |
| Broker.SimulatedBroker.TryFillHeldOrders | src/edrader/replay/simulated_broker.py:224-243 | the fill-then-remove loops together equal filling and keeping by selection |
| Broker.SimulatedBroker.ReleaseHeld | src/edrader/replay/simulated_broker.py:225-231 | every held order of the symbol fills in order and exactly those leave the list |
| Broker.SimulatedBroker.FillCrossed | src/edrader/replay/simulated_broker.py:233-243 | every crossed resting order fills at its own limit and exactly those leave the table |
| BrokerLaws.ExactlyOnePlace | src/edrader/replay/simulated_broker.py:162-243 | at every moment since a start, each accepted order is held, resting or completed, once in all, with its symbol, side and full quantity, and nothing else is in the book |
| BrokerLaws.FillsAreAnnouncedOnce | src/edrader/replay/simulated_broker.py:131-150 | the fill events published are one for one, in order, the completed orders |
| BrokerLaws.FillsAreToldInFull | src/edrader/replay/simulated_broker.py:107-150 | the broker publishes exactly three events for each completed order, in order, about an accepted order: submitted, reported filled, filled |
| BrokerLaws.MarketOrdersInTurn | src/edrader/replay/simulated_broker.py:162-231 | over every run a symbol's market orders fill in the order in which they were asked for: those announced, then those still held, are exactly those accepted |
| BrokerLaws.NothingWaitsThatCouldFill | src/edrader/replay/simulated_broker.py:177-243 | no held order's symbol has a known price; no resting order is crossed at its symbol's last price |
| BrokerLaws.EachOrderMeetsItsFate | src/edrader/replay/simulated_broker.py:107-243 | what becomes of each accepted order, read off the prices before and after its request: it fills at the price known, at the first price to come, or for a limit that is not met yet at that limit once a price meets it, slipped and with its commission; otherwise it waits |
| BrokerLaws.LimitsAreHonoured | src/edrader/replay/simulated_broker.py:190-243 | without slippage no limit order completes at a price worse than its limit |
| BrokerLaws.SlippageCostsIff | src/edrader/replay/simulated_broker.py:99-105 | rounded to cents, slippage never betters the market price exactly if the moved price reaches within half a cent of the next whole cent beyond the market, ties to even |
| BrokerLaws.SlippageCosts | src/edrader/replay/simulated_broker.py:99-105 | it always costs on a price of whole cents and when it is half a cent or more, and never favours an order by more than half a cent |
| BrokerLaws.SlippageCanFavour | src/edrader/replay/simulated_broker.py:99-105 | at five basis points a buy at 1.004 pays 1.00 and a sale at 1.006 receives 1.01 |
| Risk.RiskEngine.OnSignal | src/edrader/risk/engine.py:91-122 | all checks evaluated, the first objection rejects and is reported, otherwise approval; nothing when stopped |
| Risk.RiskEngine.CheckDailyLoss | src/edrader/risk/engine.py:145-158 | exempts reducing signals and compares the magnitude of realized PnL |
| Risk.RiskEngine.CheckLeverage | src/edrader/risk/engine.py:160-166 | objects without equity or at the leverage limit |
| Risk.RiskEngine.CheckConcurrentPositions | src/edrader/risk/engine.py:171-179 | objects exactly for a flat symbol when the non-zero positions fill the limit |
| Risk.RiskEngine.OnTick | src/edrader/risk/engine.py:124-128 | plumbing: remembers the time of the symbol's last tick |
| Risk.RiskEngine.OnDisconnect | src/edrader/risk/engine.py:130-138 | plumbing: a disconnect switches trading off and says so |
| Risk.ApprovalIff | src/edrader/risk/engine.py:91-188 | a signal is approved exactly if trading is on and none of the five limits, each written out, is broken; otherwise the first broken one in the order of the checks is reported; a signal escapes the daily-loss check exactly if one share on its side would bring the position nearer to flat |
| Risk.ReducesIff | src/edrader/risk/engine.py:148-153 | what the daily-loss check exempts are the signals whose fill of one share brings the ledger nearer to flat |
| Execution.ExecutionEngine.OnApprovedSignal | src/edrader/execution/engine.py:107-155 | throttled, dropped, or one request of the computed size and the time remembered |
| Execution.ExecutionEngine.ThrottleRemaining | src/edrader/execution/engine.py:245-251 | what is left of the delay since the symbol's last order, not below zero; positive exactly while it is throttled |
| Execution.ExecutionEngine.OnTick | src/edrader/execution/engine.py:206-210 | plumbing: keeps the last price |
| Execution.ExecutionEngine.OnSubmitted | src/edrader/execution/engine.py:212-223 | plumbing: enters the order in the active table |
| Execution.ExecutionEngine.OnFilled | src/edrader/execution/engine.py:233-237 | plumbing: takes the order out |
| Execution.ExecutionEngine.OnExposureUpdate | src/edrader/execution/engine.py:227-231 | plumbing: keeps the last equity |
| Execution.ExecutionEngine.Stop | src/edrader/execution/engine.py:76-105 | plumbing: forgets its tables |
| Execution.PercentEquitySize | src/edrader/execution/sizing.py:40-52 | for any fraction: the most shares the equity fraction pays for, one at least; the suggestion without price or equity |
| Execution.VolatilitySize | src/edrader/execution/sizing.py:54-76 | for any fraction and suggestion: the most units of average range the budget pays for, one at least |
| Throttling.RequestsAreSpaced | src/edrader/execution/engine.py:112-155 | over every run the broker goes through a run of its own whose requests are, in order, the logged ones, each of its signal's symbol and side, of the configured type without a limit price, and with fixed sizing of its signal's size; two consecutive ones for a symbol are at least the throttle delay apart |
| Throttling.AllRequestsAreSpaced | src/edrader/execution/engine.py:245-251 | with a clock that never runs backwards any two requests for a symbol are |
| OrderLaws.SignalsBecomeOrders | src/edrader/execution/engine.py:107-155 | at every moment of every run, a signal becomes an order exactly if trading is on, it breaks no limit, its symbol is not throttled and its size is positive; the order is for the suggested size, or the most shares or units of range that the fraction of the equity of the moment pays for at the last tick's price |
| OrderLaws.MomentInforms | src/edrader/execution/engine.py:206-231 | at every moment execution knows the last tick's price and the equity of the moment, or its own starting figure before the first fill, and risk the last tick's time |
| PipelineLaws.Reconciliation | src/edrader/replay/simulated_broker.py:107-150 | at every event boundary each symbol's ledger is the one the broker's completed orders make: signed sum of quantities, cash of fill prices, commission apart |
| PipelineLaws.EquityReconciles | src/edrader/portfolio/position.py:74-111 | over every run of the wired engine, equity and exposure are read off the broker's completed orders and the inputs' last marks alone, and no order stays in execution's active table |
| PipelineLaws.WiredStaysSettled | src/edrader/replay/simulated_broker.py:177-200 | with signals on priced symbols only, no order ever waits |
| PipelineLaws.BacktestIsWired | scripts/backtest.py:79-87 | strategies that signal the symbol of their bar or non-zero tick signal priced symbols, since the broker sees the event first |
| Commitments.OpenAndWaiting | src/edrader/replay/simulated_broker.py:177-188 | commitments are the open positions and, apart from them, the symbols whose held orders do not cancel out |
| Commitments.StaysWithinIff | src/edrader/risk/engine.py:171-179 | from any moment the open positions stay within the limit under all prices to come exactly if the commitments are within it now |
| Commitments.SignalKeepsIff | src/edrader/risk/engine.py:171-179 | a signal keeps the commitments within the limit exactly if it does not order a symbol neither open nor waited for when they fill it |
| Commitments.PositionLimitIff | src/edrader/risk/engine.py:91-122 | over every run, the limit holds at every moment and under all prices to follow exactly if no signal does that |
| Commitments.PositionLimitHolds | src/edrader/risk/engine.py:91-122 | with signals on priced symbols the limit holds at every moment, through flips and several signals a bar |
| PipelineLaws.UnpricedSignalsBreakTheLimit | src/edrader/replay/simulated_broker.py:177-222 | signals on two zero-price ticks are approved, wait, and open two positions under a limit of one |
| PipelineLaws.KilledTakesNoOrders | src/edrader/risk/engine.py:96-98 | from a halt until it is lifted the broker receives no order, over every run |
| PipelineLaws.HaltsAndLifts | src/edrader/risk/engine.py:83-138 | a disconnect halts trading, the switch sets and lifts the halt, and nothing else touches it |
| Backtest.Wiring.DeliverOne | src/edrader/portfolio/position.py:278-280 | a broker event reaches execution, then the ledger, whose equity goes back to execution |
| Backtest.Wiring.OnSignal | src/edrader/execution/engine.py:107-155 | a signal runs through the risk, execution and broker objects as the pipeline says |
| Backtest.Wiring.OnTick | src/edrader/replay/simulated_broker.py:214-222 | a tick runs through the four objects in subscription order as the pipeline says |
| Backtest.Wiring.Run | scripts/backtest.py:71-111 | the wired objects end in the pipeline's state: position limit, equity and exposure at the market, no active order |
| Backtest.Wiring.RunVwap | scripts/backtest.py:57-111 | a backtest of the VWAP strategy on any ticks, with or without a price: the run is those ticks with the strategy's signals; position limit, equity and exposure at the market hold and no order waits |
| Backtest.Wiring.RunMeanReversion | scripts/backtest.py:61-111 | the same for the mean-reversion strategy on any bars |
| EventBus.EventBus.HandlersFor | src/edrader/events/bus.py:127-135 | the cached list is always the kind's subscribers followed by the wildcards |
| EventBus.EventBus.AddSubscriber | src/edrader/events/bus.py:137-146 | appends to the kind and keeps tables and cache true to the history |
| EventBus.EventBus.AddWildcard | src/edrader/events/bus.py:148-156 | appends a wildcard likewise |
| EventBus.EventBus.RemoveSubscriber | src/edrader/events/bus.py:158-164 | drops every entry of the handler from the kind likewise |
| EventBus.EventBus.Perform | src/edrader/events/bus.py:124-218 | over every interleaving of subscribing, unsubscribing and publishing, inside handlers too, each dispatch reaches exactly the handlers due when it began, in order, up to a filter that raises |
| EventBus.EventBus.PublishEvent | src/edrader/events/bus.py:174-181 | publishing counts and dispatches at once |
| EventBus.EventBus.Dispatch | src/edrader/events/bus.py:183-218 | filters, counts, survives failing handlers and counts them by type, ends at a raising filter, and reaches the list as it was at the start |
| EventBus.PresentIffSubscriptionStands | src/edrader/events/bus.py:137-164 | an entry is present exactly if a subscription made it and no later unsubscription named its handler |
| EventBus.CountersCount | src/edrader/events/bus.py:174-218 | the bus counters are the numbers of dispatches begun, in all and by kind, of handlers reached and of failures, in all and by kind |
| Scheduling.DepthFirstDoesTheWork | src/edrader/events/bus.py:174-196 | synchronous dispatch does exactly the work that follows from what is published, by any weight |
| Scheduling.ScheduleConservesWork | src/edrader/events/bus.py:220-227 | at every point of every queued schedule, work done plus work waiting is constant, by any weight |
| Scheduling.SchedulesEnd | src/edrader/events/bus.py:220-227 | no schedule is longer than the work, and one as long empties the queue |
| Scheduling.SyncAndAsyncDispatchTheSame | scripts/compare_sync_async.py:144-152 | synchronous dispatch and any finished queued schedule dispatch the same multiset of events |
| Scheduling.ModalBus.PublishEvent | src/edrader/events/bus.py:174-181 | depth-first work in one mode, a place in the queue in the other, with exact counters |
| Scheduling.ModalBus.Dispatch | src/edrader/events/bus.py:183-196 | every reached handler publishes in turn and is counted |
| Scheduling.ModalBus.RunSync | src/edrader/events/bus.py:174-181 | ends with all work done and the three counters those of the work |
| Scheduling.ModalBus.RunQueued | src/edrader/events/bus.py:220-227 | publishing interleaved in any way with taking events in any order terminates with the same work and counters |
| Scheduling.PublishWired | src/edrader/events/bus.py:174-196 | on the bus with subscriptions and cache, handlers that only publish are dispatched to in that same depth-first order, and as many publications are counted |
| Queueing.PriorityQueue.Put | src/edrader/events/bus.py:52-56 | the event joins the lane of its priority |
| Queueing.PriorityQueue.Get | src/edrader/events/bus.py:58-65 | with something waiting, the oldest high event, else the oldest normal one; order of takes is order of puts in each lane |
| Queueing.PriorityQueue.TaskDone | src/edrader/events/bus.py:74-77 | marks the lane the event in flight came from |
| Queueing.PriorityQueue.QSize | src/edrader/events/bus.py:79-80 | queued plus in flight is unfinished |
| Queueing.PriorityQueue.UnfinishedIsCounted | src/edrader/events/bus.py:82-83 | what a join of a lane waits for is that lane's queued and in-flight events |
| Drain.DrainIsSoundIff | src/edrader/events/bus.py:82-83 | a returned drain means all is dispatched, begun at any moment, in the middle of a dispatch too, exactly if high events' handlers publish nothing normal and normal events' handlers publish high ones only beside normal ones |
| Drain.ProcessNext | src/edrader/events/bus.py:220-227 | a round of the processing loop takes the queue object through the steps the draining laws speak of |
| Drain.OneLaneMixesSafely | src/edrader/events/bus.py:257-258 | traffic that keeps to one lane is safe |
| Drain.DrainReturns | src/edrader/events/bus.py:257-258 | every drain returns |
| Statistics.Samuelson | src/edrader/strategies/examples/mean_reversion.py:105-113 | the newest of n prices is within the bound (n - 1) / n times the spread, squared, of the mean |
| MeanReversion.MeanReversionStrategy.OnBarClose | src/edrader/strategies/examples/mean_reversion.py:51-103 | slides the window, keeps silent until it is full or while it is flat, then decides by z-score; other symbols untouched |
| MeanReversion.MeanReversionStrategy.ComputeStats | src/edrader/strategies/examples/mean_reversion.py:105-113 | the loops compute the mean and a root of the population variance |
| MeanReversion.MeanReversionStrategy.Follow | src/edrader/strategies/examples/mean_reversion.py:46-103 | over any interleaving of symbols the object holds and has signalled what the run of its bars says |
| MeanReversion.NeverPyramids | src/edrader/strategies/examples/mean_reversion.py:66-103 | in every run, signals of a symbol add up to one position in the direction held, or to none |
| MeanReversion.SignalsByDistance | src/edrader/strategies/examples/mean_reversion.py:51-103 | in every run, with the newest closes and their mean: from flat a sale exactly if the close is entry_z deviations or more above, a buy exactly if as far below; from long a sale, from short a buy, exactly if it is back within exit_z; otherwise, or with a window not full or flat, nothing |
| MeanReversion.HighThresholdIsSilent | src/edrader/strategies/examples/mean_reversion.py:59-85 | with entry_z squared above window - 1 no price history leads to a signal |
| MeanReversion.SilentIff | src/edrader/strategies/examples/mean_reversion.py:59-85 | for every entry_z the strategy is silent on all histories exactly if entry_z exceeds the root of window - 1 |
| Bollinger.BollingerBandsStrategy.OnBarClose | src/edrader/strategies/examples/bollinger_bands.py:51-81 | slides the window and signals at a touched band; a window of one raises |
| Bollinger.BollingerBandsStrategy.ComputeSma | src/edrader/strategies/examples/bollinger_bands.py:83-87 | the mean |
| Bollinger.BollingerBandsStrategy.ComputeStd | src/edrader/strategies/examples/bollinger_bands.py:89-99 | a root of the sample variance |
| Bollinger.SignalsAtBands | src/edrader/strategies/examples/bollinger_bands.py:51-81 | in every run, a buy exactly if the close is at or below the lower band of the newest closes, else a sale exactly if at or above the upper one, and nothing while the window fills or is flat |
| Bollinger.WideRunsAreSilent | src/edrader/strategies/examples/bollinger_bands.py:61-81 | with num_std squared times n above (n - 1) squared no price history leads to a signal |
| Bollinger.SilentIff | src/edrader/strategies/examples/bollinger_bands.py:61-81 | for every num_std the strategy is silent on all histories exactly if num_std times the root of n exceeds n - 1 |
| Vwap.VwapReversionStrategy.OnTick | src/edrader/strategies/examples/vwap_reversion.py:43-88 | acts on the deviation from the average of exactly the last trades of the window; volume is always positive, so the guard never returns |
| Vwap.VwapReversionStrategy.Slide | src/edrader/strategies/examples/vwap_reversion.py:54-65 | the running sums advance in place |
| Vwap.VwapReversionStrategy.Act | src/edrader/strategies/examples/vwap_reversion.py:72-88 | entry and exit signals and the side remembered |
| Vwap.AdvanceRefines | src/edrader/strategies/examples/vwap_reversion.py:54-65 | the incremental sums are those recomputed over the last min(n, window) trades |
| Vwap.VwapBetween | src/edrader/strategies/examples/vwap_reversion.py:70 | the average lies between the window's lowest and highest price |
| Vwap.VwapReversionStrategy.Follow | src/edrader/strategies/examples/vwap_reversion.py:38-88 | over any interleaving of symbols, what is remembered and signalled for each is what the deviations of its own accepted trades lead to |
| Vwap.SignalsByDeviation | src/edrader/strategies/examples/vwap_reversion.py:70-88 | which sides an accepted trade signals, and what is remembered, from the deviation and the side remembered before |
| Vwap.DeviationIs | src/edrader/strategies/examples/vwap_reversion.py:70 | the deviation times the window's average is the price's distance from it |
| Vwap.ReversalsAreTheDrift | src/edrader/strategies/examples/vwap_reversion.py:72-88 | for all thresholds, signals add up to the believed position less its reversals, those that also leave counted the other way |
| Vwap.EngagedByCrossing | src/edrader/strategies/examples/vwap_reversion.py:72-88 | with an exit threshold no larger than the entry threshold, a position is believed in exactly if the last deviation that was not quiet is a crossing |
| Vwap.SignalsMatchBeliefIff | src/edrader/strategies/examples/vwap_reversion.py:72-88 | they match exactly if the deviations flip as often up as down: a flip crosses to one side straight after a crossing to the other, with only quiet deviations in between |
| Vwap.SignalsAlwaysMatchIff | src/edrader/strategies/examples/vwap_reversion.py:70-88 | for all thresholds and windows, they match on every history of trades exactly if entry_pct is at least 1, or not negative with a window of one |
| Vwap.ReversalLeavesNothing | src/edrader/strategies/examples/vwap_reversion.py:72-88 | trades at 100, 110 and 90 in a window of two: sold and bought, believed long |
| Bars.BarAggregator.AddTick | src/edrader/broker/market_data.py:31-66 | a bar comes out exactly when a tick closes the open segment, and it summarizes that segment |
| Bars.BarAggregator.Reset | src/edrader/broker/market_data.py:68-74 | plumbing: forgets the open segment |
| Bars.CutPartitions | src/edrader/broker/market_data.py:31-66 | emitted segments and the open one, in order, are the stream |
| Bars.SegmentsAreSpaced | src/edrader/broker/market_data.py:42-43 | with times in order each segment spans less than the bar size and starts are at least that far apart |
| Bars.BarsTellTheStream | src/edrader/broker/market_data.py:31-66 | over every stream, by positions in it: each bar starts, opens and closes with the first and last tick of its stretch, and holds the stretch's volume, with the open segment the whole stream's; its high, and with positive prices its low, bound open, close and all between and are attained |
| Bars.VolumesAdd | src/edrader/broker/market_data.py:65 | the volume a stretch of ticks is said to hold is one tick's own, and two stretches' together |
| Bars.HighIsHighest | src/edrader/broker/market_data.py:62 | the high is the highest price of the segment |
| Bars.LowIsLowestIff | src/edrader/broker/market_data.py:63 | the low is the lowest price exactly if some price is negative, or none is zero, or the last one is |
| Bars.LowForgetsZero | src/edrader/broker/market_data.py:63 | a tick at zero and one at five make a bar with a low of five |
| Metrics.MetricsEngine.ComputeMaxDrawdown | src/edrader/replay/metrics.py:132-144 | one pass gives the largest drawdown from the peak so far, over positive peaks, or zero |
| Metrics.MaxDrawdownOverPairs | src/edrader/replay/metrics.py:132-144 | on positive curves it is the largest loss between any two moments in order, and lies in [0, 1) |
| Metrics.MaxDrawdownIsUnique | src/edrader/replay/metrics.py:132-144 | no other number meets the definition |
| Metrics.PeakIsHighest | src/edrader/replay/metrics.py:92-94 | the running peak is the highest value and one of them |
| Metrics.MetricsEngine.PeakEquity | src/edrader/replay/metrics.py:92-94 | the peak of the whole curve |
| Metrics.MetricsEngine.Compute | src/edrader/replay/metrics.py:80-122 | trades, win rate, and start, end, peak, return, drawdown and turnover of the curve; zeros without one |
| Metrics.MetricsEngine.OnExposure | src/edrader/replay/metrics.py:175-179 | plumbing: grows the curve |
| Metrics.MetricsEngine.OnFill | src/edrader/replay/metrics.py:181-185 | plumbing: adds the traded value |
| Metrics.MetricsEngine.OnClose | src/edrader/replay/metrics.py:187-194 | plumbing: counts wins and losses, and zero as neither |
| Metrics.CountsAre | src/edrader/replay/metrics.py:187-194 | the counts are those of the closes above and below zero, with the rest neither |
| StableSort.SortsStably | src/edrader/replay/engine.py:48-50 | sorting by time orders the events and keeps each moment's events in their given order |
| StableSort.StableSortIsUnique | src/edrader/replay/engine.py:48-50 | no other list is a stable sort of the given one |
| Interleavings.ExactlyOnceIff | src/edrader/replay/engine.py:56-83 | over every interleaving of runs, restarts, steps, stops, pauses and exceptions, distinct events are published in order, each once, exactly if no publication begins while another is in progress or after one has failed |
| Interleavings.OneDriverSuffices | src/edrader/replay/engine.py:56-83 | runs and steps started one after the other, under any stops, pauses and resumes, skip and repeat nothing |
| Interleavings.StoppedIsQuiet | src/edrader/replay/engine.py:63-97 | from a stop until something is started again, nothing is published, whatever else moves |
| Interleavings.PausedIsQuiet | src/edrader/replay/engine.py:63-93 | nor from a pause until a resume or a start |
| Interleavings.PausedIff | src/edrader/replay/engine.py:56-93 | a replay is paused exactly if somebody has paused it and no resume, and no start of a run when none was running, has come since |
| Interleavings.SynchronousWhileRunning | src/edrader/replay/engine.py:56-75 | over every interleaving the bus is synchronous while the replay runs, and in its queued mode once no run is under way |
| Interleavings.OneRunWithoutStops | src/edrader/replay/engine.py:56-75 | over every interleaving without stops, exactly one run is under way while the replay runs, and none otherwise |
| Interleavings.StepRepeats | src/edrader/replay/engine.py:77-83 | a step taken while an event is being published repeats it |
| Interleavings.RestartRepeats | src/edrader/replay/engine.py:111-114 | a run stopped in its sleep and started again publishes an event twice, once from each run |
| Interleavings.FailureRepeats | src/edrader/replay/engine.py:67-75 | a run after a publication that raised publishes that event again |
| Replay.ReplayEngine.LoadEvents | src/edrader/replay/engine.py:48-54 | the stable sort, the cursor at its start, the clock at the first event, whoever is running |
| Replay.ReplayEngine.ExactlyOnce | src/edrader/replay/engine.py:56-83 | what the object has published is the sorted events in order, each once, exactly if no publication overlapped |
| Replay.ReplayEngine.BeginPublication | src/edrader/replay/engine.py:99-102 | the event at the cursor goes out with the clock at its time |
| Replay.ReplayEngine.Suspend | src/edrader/replay/engine.py:113 | during an await others make any batch of moves, which the coroutine's own place survives |
| Replay.ReplayEngine.Run | src/edrader/replay/engine.py:56-75 | a run is the machine's run under any moves of others; left to itself it publishes exactly the events that are left and ends |
| Replay.ReplayEngine.Step | src/edrader/replay/engine.py:77-83 | one event, or false at the end |
| Replay.ReplayEngine.WaitForNext | src/edrader/replay/engine.py:104-114 | unless stopped or interrupted sleeps exactly the gap to the next event, in chunks of a tenth of a second at most and no more than needed |
| Replay.GapIs | src/edrader/replay/engine.py:105-110 | that gap times the speed, a thousandth at least, is the distance in time; below a thousandth of a second there is none |
| Replay.ReplayClock.Resume | src/edrader/replay/clock.py:53-57 | plumbing: continues from the time it had counted to |

## Left out

- Broker gateway, live order adapter, market data subscriptions: network I/O and foreign objects.
- Persistence, event journal, file readers, configuration, logging, alerts: I/O, or members with nothing hard in them.
- Floating-point rounding: prices are real numbers; rounding to cents is exact on them.
- Bounded queues, task cancellation and the waiting path of a get on an empty queue: a normal event can overtake a later high one there.
- Annualized return and Sharpe ratio: powers and roots with little structure.
- Components calling back into the broker from inside a fill: no component of a backtest does, and the broker's loops assume it.
- Confidence of signals and the wording of rejection reasons: carried along or formatted, never decided on.
- Stopping and restarting strategies: a strategy that is not running emits nothing but keeps its windows, as `EmitSignal` shows.
- Execution.ExecutionEngine.OnApprovedSignal: schedules no retry; a backtest configures none, while the default is three.
- EventBus.EventBus.Perform: a handler cut off by its time limit is one that fails where it stands; a limit that expires while the handler publishes, and so cuts off the dispatches inside it, is not modelled.
- EventBus.EventBus.Dispatch: the error handler callback is not modelled.
- Backtest.Wiring.DeliverOne: events reach their subscribers when the publishing handler is done rather than while it runs; no subscriber reads or changes the publisher.
- Vwap.VwapReversionStrategy.OnTick: the strategy's four tables, which always hold the same symbols, are one table of four entries.
- Vwap.SignalsMatchBeliefIff: assumes a non-negative entry threshold, since with a negative one a single deviation crosses to both sides; Vwap.ReversalsAreTheDrift and Vwap.SignalsAlwaysMatchIff speak of that case too.
- Drain.DrainIsSoundIff: assumes a single consumer, no publishing from outside while the drain waits, and for its only-if half handlers that suspend, so that the waiting task gets to run when both lanes have been joined.
- Metrics.MetricsEngine.Compute: leaves out the annualized figures.
