# Proofs about three trading systems

This project models the order, ledger and halt logic of the three trading systems in this repository
and proves what their documentation and tests promise of it, over every input, every run or every
interleaving. Where a promise is false of the code, the code is kept as it is, a concrete input shows
the failure, and the exact condition under which the promise holds is proved.

**FTMO bot.** `Common`, `FtmoRules` and `Sizing` hold the shared rules. `TickSpec`, `TickAdvance`,
`DaySpec` and `Schedule` specify the tick backtest one tick at a time; `BacktestEngine` is the batched
engine, proved equal to it, and `TickRules` says in prices and inequalities what those ticks, entries and days
do. `MonteCarlo`, with `PhaseRules`, and `WindowReplay` are the two challenge replays. `LiveState` holds
the files the live guard and runner share and each process run alone; `GuardProtocol` interleaves them one file
access at a time, with crashes, restarts and a human at the keyboard.

**Mini-Prop OS.** `Ledger` is the average-cost position, `OmsSpec` the order state machine on values
and `Oms` the same machine on mutable order and position objects. `Guardrails` is the pre-trade gate,
`SimSpec` the replay on values, `SimAccounting`, `SimSafety` and `SimRoundTrips` its whole-run results,
`SimFills` and `SimTally` its executions and records in plain figures, `SimExamples` two of its runs bar by
bar, `HistoricalSession` the replay as it runs, `Strategies` and `StrategyRules` the two strategies and
`EventCalendar` the blackout index.

**Rebalancing engine.** `Costs`, `Portfolio` and `PortfolioRules` are cost model, buy sizing, weight clamp,
diff and convergence. `RebalanceSpec` is one rebalance on values, `RebalanceRules` and `RebalanceSafety` what
it does and keeps, `Rebalancer` the paper broker and execution loop as they run. `DurableState` is the state
file, the pre-trade gate and the daily cycle, `CrashSafety` the cycle cut into its durable steps.
`EngineBacktest` is the backtest that reuses the live execution path, `EngineGate` what a bar decides,
`EngineEquity` what its equity consists of and `EngineKill` how a kill ends.

Code that changes state in the source is a class here whose methods state their whole effect as a
function of the old state (`View() == F(old(View()), ...)`); the theorems are lemmas about those
functions, and those named `...Exactly` say what each of them decides in figures of its inputs alone. Money and prices are exact reals and every tolerance written in the code (1e-9, 1e-6, 1e-9 of
a lot step) is kept as a constant. Times are integers (minutes as reals in the calendar). `dafny verify
dfyconfig.toml` checks everything.

Findings where code and documentation or design part ways, each with a concrete input and the exact
condition:

- A deposit does create drawdown headroom, although the gate's documentation says it cannot
  (`DurableState.DepositMasksKill`, `DepositWidensDrawdown`).
- A round trip's recorded result leaves out its last exit commission, although it is documented as net of
  the commissions of the cycle (`SimExamples.RoundTripLosesExitCommission`, `SimRoundTrips.RoundTripsExplainEquity`).
- A kill on a bar whose close is not positive never flattens (`SimExamples.KillNeverFlattens`, `SimSafety.FlatAfterTrip`).
- Two orders on one bar, each within the cap, can exceed it together (`Guardrails.SameBarOrdersOvershoot`,
  `SameBarOrdersExactly`).
- The blackout query can miss a running blackout when impacts are mixed (`EventCalendar.MixedImpactsMissABlackout`,
  `EveryBlackoutFoundExactly`).
- An order can leave after HALT was written (`GuardProtocol.OneOrderCanSlip`, `OrderSlipsExactly`), and a
  human's manual halt written between the guard's reading and its unlink is deleted (`ManualHaltCanBeLost`,
  `StrongHaltLostExactly`).
- Seeding a flat symbol discards its realised P&L (`OmsSpec.SeedForgetsProfit`, `SeedDropsRealized`).
- The step tolerance can size a trade above its projection, and an admitted trade can then halt the account
  (`Sizing.RoundedUpTradeCanHalt`, `ProjectionHoldsExactly`).
- Buy resizing is affordable but not always maximal (`Costs.ResizeCanUndershoot`, `BestSentExactly`).
- The adaptive strategy's threshold bounds do not bind its defaults (`Strategies.DefaultsCanLieOutside`,
  `ThresholdInsideExactly`).
- With overlapping correlation groups both sides of a group can be open (`FtmoRules.OverlappingGroupsBreakOneSide`,
  `OneSideKeptExactly`).
- A crash between a rebalance and its save forgets the retry (`CrashSafety.LostRetriesAreForgotten`,
  `RetryLimitExactly`).
- The backtest liquidates a kill through the capped path, while the live cycle lifts the cap so that a kill
  leaves nothing behind (`EngineKill.KillCanLeaveHoldings`, `KillFlattensExactly`).

## Model

| member | source | states |
|---|---|---|
| BacktestEngine.Backtest.AdvanceTo | ftmo-bot/src/ftmo_bot/backtest/engine.py:417-483 | The batched merge (per-position segments, one stable sort by time, skipping positions that closed, stopping on halt or an empty book) leaves exactly the engine that serving one tick at a time, always the earliest in (time, opening order), leaves. |
| BacktestEngine.Backtest.BatchOrder | ftmo-bot/src/ftmo_bot/backtest/engine.py:421-432 | The merged schedule is the stable sort by time of the due ticks of each open position, segments in opening order. |
| Schedule.ScheduleMembers | ftmo-bot/src/ftmo_bot/backtest/engine.py:421-432 | The sorted schedule holds every due tick of every open position, nothing else, in serving order. |
| Schedule.HeadIsNext | ftmo-bot/src/ftmo_bot/backtest/engine.py:435-440 | The schedule's head, if its position is still open, is that position's next tick and the earliest tick of the whole book. |
| BacktestEngine.ServeStep | ftmo-bot/src/ftmo_bot/backtest/engine.py:435-483 | Serving the schedule's head is serving the book's next tick, and the rest of the schedule still walks the rest of the book, whatever closed. |
| TickAdvance.AdvanceSplits | ftmo-bot/src/ftmo_bot/backtest/engine.py:417-483 | Advancing to a and then to b is advancing to b when nothing opens in between: batch boundaries never change trades, cash, stops, extremes or the halt. |
| TickAdvance.AdvanceExhausts | ftmo-bot/src/ftmo_bot/backtest/engine.py:417-483 | After an advance no open position has an unprocessed tick before the limit (a halted book is empty). |
| TickAdvance.ApplyTickShape | ftmo-bot/src/ftmo_bot/backtest/engine.py:439-470 | One tick either removes its own position or moves exactly that position on by one tick; no other position changes. |
| BacktestEngine.Backtest.ClosePosition | ftmo-bot/src/ftmo_bot/backtest/engine.py:378-410 | Closing the j-th position moves the engine exactly as the specification of a close says: cash, book, loss streak, trade record, extremes. |
| BacktestEngine.Backtest.Hold | ftmo-bot/src/ftmo_bot/backtest/engine.py:452-470 | Keeping a position open moves its stop to entry at most once and then marks it. |
| BacktestEngine.Backtest.OnTick | ftmo-bot/src/ftmo_bot/backtest/engine.py:439-470 | Time exit, stop, target and breakeven of one tick, tied to the one-tick specification. |
| TickRules.TickExitsExactly | ftmo-bot/src/ftmo_bot/backtest/engine.py:443-466 | A tick takes its position out of the book exactly when it is at or past the time exit, or the touched side is at or beyond the stop or the target; time before stop before target, the first two at the touched side less one slippage, the target at its own price, with the whole trade record and the cash. |
| TickRules.TickHoldsExactly | ftmo-bot/src/ftmo_bot/backtest/engine.py:453-470 | A position that stays has its stop at the entry exactly when it was there already or the touched side has gained the breakeven multiple of the initial risk; otherwise the stop is unchanged, and nothing else of the account moves. |
| TickRules.OpenMeansUntouched | ftmo-bot/src/ftmo_bot/backtest/engine.py:417-470 | Over any day's bars no exit is missed: a position still open has been served every tick before the limit, none of them since its entry reached the time exit, the target or the stop it had then, and its stop moved at the first tick that gained the multiple. |
| BacktestEngine.Backtest.CheckGuard | ftmo-bot/src/ftmo_bot/backtest/engine.py:471-483 | A breach flattens the whole book in opening order and ends the tick loop, as does an empty book. |
| TickRules.GuardHaltsExactly | ftmo-bot/src/ftmo_bot/backtest/engine.py:471-481 | A loss from the day's start at either limit halts the account, the overall limit first, and closes every position in opening order at its last tick and one slippage worse; any smaller loss changes nothing. |
| DaySpec.ResolveSound | ftmo-bot/src/ftmo_bot/backtest/engine.py:443-468 | A tick's exit fits its reason (stop, breakeven, target or time, at the right price and side) or leaves a sound position. |
| BacktestEngine.Backtest.TryOpenSignal | ftmo-bot/src/ftmo_bot/backtest/engine.py:296-363 | The whole entry path: first tick at or after the close and before the time exit, gate, size, fill check, commission, mark and record, each refusal leaving the engine unchanged. |
| BacktestEngine.Backtest.Admit | ftmo-bot/src/ftmo_bot/backtest/engine.py:314-339 | Lots are returned exactly when the gate allows the trade, the size is positive and the fill is inside stop and target. |
| TickRules.EntryExactly | ftmo-bot/src/ftmo_bot/backtest/engine.py:296-363 | A signal opens a position exactly when the day is not excluded, nothing has halted, the first tick at or after the close is before the time exit, the gate admits the projected loss on the account as it stands, the size is positive and the fill is strictly inside its levels; then with these terms, this fill, mark and commission. |
| DaySpec.BookRulesHoldAllDay | ftmo-bot/src/ftmo_bot/backtest/engine.py:296-363 | At every bar of every day at most one position per symbol is open, one side per correlation group, and slots are within the maximum, under the exact condition on the groups of OneSideKeptExactly. |
| BacktestEngine.Backtest.RunDayOf | ftmo-bot/src/ftmo_bot/backtest/engine.py:217-245 | One day of bars, remaining ticks and data-end closes yields the specified row and engine. |
| DaySpec.RunDayKeeps | ftmo-bot/src/ftmo_bot/backtest/engine.py:217-245 | A day starts at the inherited cash, ends flat, moves cash by exactly its trades' P&L, and its low and high bracket both ends. |
| TickRules.CloseRemainingIs | ftmo-bot/src/ftmo_bot/backtest/engine.py:232-233 | What the ticks left open is closed in order at its last mark. |
| TickRules.DayRecordExactly | ftmo-bot/src/ftmo_bot/backtest/engine.py:217-245 | A day's low and high are the extremes of its opening equity and every equity it recorded, its loss streak is the number of its last losing trades, and it has halted only after recording a loss of the halt's limit. |
| BacktestEngine.Backtest.Run | ftmo-bot/src/ftmo_bot/backtest/engine.py:197-264 | The loop over all days returns one specified row per day. |
| DaySpec.RunConserves | ftmo-bot/src/ftmo_bot/backtest/engine.py:217-264 | Over any run each day starts at the previous end, trade counts add up to the trades, the last end is the initial balance plus the P&L of all trades, and every trade is sound. |
| DaySpec.HaltFreezesDay | ftmo-bot/src/ftmo_bot/backtest/engine.py:296-303 | Once the guard has halted a day no later bar of it opens, closes or marks anything. |
| DaySpec.SilentBarsAreRedundant | ftmo-bot/src/ftmo_bot/backtest/engine.py:226-230 | A bar without a signal only cuts the tick stream: leaving it out changes nothing. |
| FtmoRules.AdmissionSound | ftmo-bot/src/ftmo_bot/risk/ftmo_rules.py:202-306 | After the gate accepts, any combination of losses up to each position's stop risk plus the projected loss leaves the account unhalted. |
| FtmoRules.AllowedExactly | ftmo-bot/src/ftmo_bot/risk/ftmo_rules.py:255-306 | The gate admits a trade exactly when its projected loss is not negative, it is before the cutoff and the soft stop, its symbol is not open, its first group has no position on the other side, its slot fits, and losing every stop risk with it stays short of both limits. |
| FtmoRules.RefusedByFirst | ftmo-bot/src/ftmo_bot/risk/ftmo_rules.py:255-306 | A refusal names the first of the ten checks that fails. |
| FtmoRules.RefusalIsNeeded | ftmo-bot/src/ftmo_bot/risk/ftmo_rules.py:294-305 | A refusal for projected loss means that stopping everything out would halt. |
| FtmoRules.AdmitKeepsBook | ftmo-bot/src/ftmo_bot/risk/ftmo_rules.py:278-292 | When there is one slot, or every group lies inside the first group of each of its members, an admitted trade keeps one position per symbol, one side per group and slots within the maximum. |
| FtmoRules.CloseKeepsBook | ftmo-bot/src/ftmo_bot/risk/ftmo_rules.py:241-247 | Closing any position keeps those three rules. |
| FtmoRules.OneSideKeptExactly | ftmo-bot/src/ftmo_bot/risk/ftmo_rules.py:234-292 | The condition of AdmitKeepsBook is exact: the gate keeps one side per group from every good book if and only if the limits meet it. |
| FtmoRules.DisjointGroupsCover | ftmo-bot/src/ftmo_bot/risk/ftmo_rules.py:234-238 | Disjoint groups meet that condition. |
| FtmoRules.UncoveredGroupBreaks | ftmo-bot/src/ftmo_bot/risk/ftmo_rules.py:234-292 | For any limits that do not meet it, the book and the trade: a member held long outside the first group of a symbol that then goes short. |
| FtmoRules.OverlappingGroupsBreakOneSide | ftmo-bot/src/ftmo_bot/risk/ftmo_rules.py:234-238 | Two concrete limits: chained groups lose the rule, nested ones keep it although they overlap. |
| Sizing.SizeBracketsRaw | ftmo-bot/src/ftmo_bot/risk/sizing.py:56-69 | The size exceeds the unrounded one by at most the step tolerance and, uncapped, falls short of it by less than one step. |
| Sizing.SizeExactly | ftmo-bot/src/ftmo_bot/risk/sizing.py:56-69 | The size is the number of whole steps that fits it, tolerance included, nothing below the minimum lot and never more than the maximum lot. |
| Sizing.StopOutWithinProjection | ftmo-bot/src/ftmo_bot/risk/sizing.py:72-89 | A stop-out at prices no worse than assumed loses at most the projected loss plus the tolerance's share of a step. |
| Sizing.SizeWithinRawExactly | ftmo-bot/src/ftmo_bot/risk/sizing.py:56-69 | The size does not exceed the unrounded one exactly when the tolerance does not change the number of whole steps, or the minimum or maximum lot takes over. |
| Sizing.ProjectionHoldsExactly | ftmo-bot/src/ftmo_bot/risk/sizing.py:56-89 | The projected loss bounds every stop-out within the assumed prices if and only if the size was not rounded up in that sense. |
| Sizing.RoundedUpExceedsProjection | ftmo-bot/src/ftmo_bot/risk/sizing.py:56-89 | A size that was rounded up loses more than the projection at the worst of those prices. |
| Sizing.StopExitWithinRisk | ftmo-bot/src/ftmo_bot/risk/sizing.py:92-98 | The stop risk of an open position bounds what it still loses when it exits at its stop one slippage worse. |
| Sizing.RiskToStopExactly | ftmo-bot/src/ftmo_bot/risk/sizing.py:92-98 | It is the loss of an exit one slippage beyond the stop, or beyond the mark where the mark is beyond the stop already. |
| Sizing.AdmittedTradeSurvivesStopOut | ftmo-bot/src/ftmo_bot/risk/sizing.py:56-98 | Gate and size together, for every admitted trade: stopping out the new trade and every open one does not halt the account when the size was not rounded up, and otherwise does not but for the tolerance's own loss. |
| Sizing.RoundedUpTradeCanHalt | ftmo-bot/src/ftmo_bot/risk/sizing.py:64-69 | The tolerance is real: a concrete admitted trade whose size is rounded up and whose stop-out halts the account. |
| MonteCarlo.RunPhase | ftmo-bot/src/ftmo_bot/backtest/montecarlo.py:84-132 | The day and trade loops return the specified phase outcome for every sequence of draws. |
| PhaseRules.PassesExactly | ftmo-bot/src/ftmo_bot/backtest/montecarlo.py:95-132 | A phase passes exactly when some session is the first that kept a trade, stands at the target and is at least the required trading day, with no outer or engine overall breach up to and including it; that session is its length, an earlier breach names the failure, and with neither it times out. |
| PhaseRules.DayEndsExactly | ftmo-bot/src/ftmo_bot/backtest/montecarlo.py:107-121 | A day flattens at the first trade whose worst point reaches an engine limit, at the daily limit or below, and otherwise takes every trade whole; its low is the least of the points it went through. |
| PhaseRules.HitsAreKept | ftmo-bot/src/ftmo_bot/backtest/montecarlo.py:102-106 | The day's results are the kept trades in order, each less the widened spread and two slips, its worst point less one. |
| MonteCarlo.DayContained | ftmo-bot/src/ftmo_bot/backtest/montecarlo.py:107-119 | Inside a day nothing passes the engine's limits, and a halted day stands exactly at minus the engine's daily limit. |
| MonteCarlo.PhaseContained | ftmo-bot/src/ftmo_bot/backtest/montecarlo.py:95-132 | With engine daily below outer daily and engine daily plus overall within outer overall, no draws, drops or stresses end in an outer breach, and equity between days stays above the engine's overall floor. |
| MonteCarlo.ContainmentExactly | ftmo-bot/src/ftmo_bot/backtest/montecarlo.py:84-132 | That condition on the two limit sets is necessary as well: the guard contains every path if and only if it holds. |
| MonteCarlo.BreachingDraws | ftmo-bot/src/ftmo_bot/backtest/montecarlo.py:100-126 | Whenever the condition fails, a concrete sequence of sessions that ends in an outer breach. |
| WindowReplay.SimulateWindow | ftmo-bot/src/ftmo_bot/backtest/ftmo_sim.py:74-128 | The replay loop returns the result read off the first deciding day. |
| WindowReplay.OutcomeOfFirstDecidingDay | ftmo-bot/src/ftmo_bot/backtest/ftmo_sim.py:87-128 | Outcome and elapsed days are those of the first day that decides; the window is unresolved when none does. |
| WindowReplay.Precedence | ftmo-bot/src/ftmo_bot/backtest/ftmo_sim.py:98-119 | On that day an outer breach wins over the engine's overall limit, which wins over the target with enough trading days: each verdict with its exact condition. |
| WindowReplay.FiguresExactly | ftmo-bot/src/ftmo_bot/backtest/ftmo_sim.py:82-128 | A window's traded days, its largest daily drawdown and its engine-daily days are those of the days up to the deciding one, a failing day itself not counting among the last. |
| WindowReplay.WindowIgnoresLevel | ftmo-bot/src/ftmo_bot/backtest/ftmo_sim.py:82-94 | Adding a constant to every equity changes no field of the result. |
| WindowReplay.SurvivorStaysInside | ftmo-bot/src/ftmo_bot/backtest/ftmo_sim.py:94-108 | A window that did not fail the outer rules has every daily drawdown strictly below the outer fraction; one that failed on the day has not. |
| WindowReplay.Rolling | ftmo-bot/src/ftmo_bot/backtest/ftmo_sim.py:131-138 | One window per start day, in order. |
| LiveState.StateStore.ClearDailyHalt | ftmo-bot/src/ftmo_bot/execution/state.py:148-154 | Removes exactly a daily halt of an earlier day; overall and manual records stay. |
| LiveState.StateStore.AddKey | ftmo-bot/src/ftmo_bot/execution/state.py:171-175 | The key is in the stored list afterwards, which keeps the newest 5000. |
| LiveState.Guard.Tick | ftmo-bot/src/ftmo_bot/risk/guard.py:117-187 | One poll's files, cancellations and closes: baseline, expired halt, new halt, heartbeat; all positions are targeted when a halt stands or the Friday cutoff has passed, orders are cancelled under a halt, and a terminal that fails on the way ends the flattening there without touching the files. |
| LiveState.HaltAfterPoll | ftmo-bot/src/ftmo_bot/risk/guard.py:141-152 | After a poll HALT is present if and only if a live halt was there or a limit is breached against today's baseline; strong halts are kept and an overall breach always leaves one. |
| LiveState.BaselineHeldAllDay | ftmo-bot/src/ftmo_bot/risk/ftmo_rules.py:172-184 | Every poll of one trading day keeps the baseline of the first, across restarts. |
| LiveState.TargetsExactly | ftmo-bot/src/ftmo_bot/risk/guard.py:155-164 | A position is targeted exactly when a halt stands, the cutoff has passed or it is outside its window. |
| LiveState.OrderRouter.Place | ftmo-bot/src/ftmo_bot/execution/order_router.py:78-130 | The checks in order with their outcomes; the key is stored and an order sent exactly in the last. |
| LiveState.OutcomesExactly | ftmo-bot/src/ftmo_bot/execution/order_router.py:78-112 | Every outcome exactly: sent if and only if there is no halt, the guard's heartbeat is within the maximum age of the clock either way, the key is unused, today's baseline is there and gate and size admit; stale exactly without a halt and with that age exceeded. |
| LiveState.SentOrderIsCovered | ftmo-bot/src/ftmo_bot/execution/order_router.py:95-112 | A sent order saw no halt and an unused key, and cannot breach by its stops together with all open ones. |
| GuardProtocol.AtMostOneOrderPerHalt | ftmo-bot/src/ftmo_bot/execution/order_router.py:78-122 | Under every interleaving of polls, placements, crashes, restarts and human acts, while HALT stays present at most one order leaves, and none unless a placement was past its check. |
| GuardProtocol.OneOrderCanSlip | ftmo-bot/src/ftmo_bot/execution/order_router.py:80-122 | That one order is real: a run from the start in which the guard's poll writes HALT between a placement's stored key and its order, and the order leaves. |
| GuardProtocol.OrderSlipsExactly | ftmo-bot/src/ftmo_bot/execution/order_router.py:95-122 | Which placements slip: with HALT present and the runner left alone, an order leaves exactly when the rest of the placement's checks pass, as they always do once its gate is behind it. |
| GuardProtocol.OneOrderPerKey | ftmo-bot/src/ftmo_bot/execution/state.py:162-175 | In every run two orders with one key are more than 5000 stored keys apart, and those in between are pairwise different. |
| GuardProtocol.OrdersSawTheGuard | ftmo-bot/src/ftmo_bot/execution/order_router.py:83-84 | In every run, a placement past its heartbeat check has read a heartbeat within the maximum age of its own clock, and so has the placement behind every order that left. |
| GuardProtocol.HeartbeatIsAPoll | ftmo-bot/src/ftmo_bot/risk/guard.py:117-181 | In every run a heartbeat in the file is the time of a poll the guard ran to its end. |
| GuardProtocol.StrongHaltLostExactly | ftmo-bot/src/ftmo_bot/risk/guard.py:141-152 | Apart from a human, an overall or manual halt is lost or made daily exactly when the guard acts on an older reading of the file. |
| GuardProtocol.StrongHaltSurvives | ftmo-bot/src/ftmo_bot/risk/guard.py:141-152 | In every run in which no human touches HALT between the guard's reading and its acting on it, the guard never removes or downgrades an overall or manual halt. |
| GuardProtocol.ManualHaltCanBeLost | ftmo-bot/src/ftmo_bot/execution/state.py:148-154 | Without that condition it fails: a run from the start in which a manual halt written in the window is deleted and the rest of the poll writes none. |
| GuardProtocol.GuardAlone | ftmo-bot/src/ftmo_bot/risk/guard.py:117-187 | Undisturbed, the guard's single file accesses add up to its poll. |
| GuardProtocol.RunnerAlone | ftmo-bot/src/ftmo_bot/execution/order_router.py:78-130 | Undisturbed, the runner's single file accesses add up to one placement. |
| Ledger.Position.ApplyFill | mini_prop_os/core/types.py:105-132 | Average-cost update in place, splitting a fill that crosses flat. |
| Ledger.FillMovesValue | mini_prop_os/core/types.py:105-136 | Whatever a fill does, realised plus unrealised P&L at any mark moves by exactly the fill's own gain at that mark. |
| Ledger.AverageCostExactly | mini_prop_os/core/types.py:105-132 | A fill on the held side realises nothing and weighs the prices by size; one on the other side books the closed units at the old average, leaves that average to what stays and gives a reversed remainder its own price. |
| Ledger.FlatRealisesCash | mini_prop_os/core/types.py:105-132 | From flat back to flat over any partial fills and reversals the realised P&L is the net cash of the fills. |
| OrderManagement.OrderManagementSystem.Submit | mini_prop_os/execution/oms.py:191-208 | Recording a placed or failed order moves the system as specified. |
| OrderManagement.OrderManagementSystem.Cancel | mini_prop_os/execution/oms.py:210-224 | Cancelling unknown or finished orders changes nothing; the broker is told exactly for live ones. |
| OrderManagement.OrderManagementSystem.OnOrderStatus | mini_prop_os/execution/oms.py:235-255 | Echoes and fill-derived states are ignored; other states go through the table. |
| OrderManagement.OrderManagementSystem.OnFill | mini_prop_os/execution/oms.py:257-318 | One execution updates order, ledger, seen ids and log as specified, and is applied exactly when it passes every check. |
| OrderManagement.OrderManagementSystem.SeedPosition | mini_prop_os/execution/oms.py:164-187 | Seeding is refused exactly over a live position. |
| OmsSpec.RunKeepsOrders | mini_prop_os/execution/oms.py:55-72 | After any events whatever: 0 <= filled <= quantity, FILLED exactly when filled equals quantity, every history a path in the table. |
| OmsSpec.StatusExactly | mini_prop_os/execution/oms.py:235-255 | A report moves an order exactly when the order is live and the report is a cancellation, a first cancel request, or a rejection before any fill or request. |
| OmsSpec.FillAppliedExactly | mini_prop_os/execution/oms.py:257-311 | An execution is applied exactly when it is new, its order is live and its size is positive and fits what is left. |
| OmsSpec.TerminalIsFinal | mini_prop_os/execution/oms.py:210-350 | No event changes a finished order. |
| OmsSpec.RunAccounted | mini_prop_os/execution/oms.py:257-311 | After any events with fresh broker ids: filled units and cost of each order are the sums of its accepted executions, each non-empty execution id was applied at most once, and each symbol's position is its seeds plus its signed executions. |
| OmsSpec.RunExplainsLedger | mini_prop_os/execution/oms.py:164-293 | After any events with fresh broker ids, at every mark: the average-cost ledger's total P&L is that of the per-order average prices, plus the open P&L each seed brought in, less the realised P&L it dropped. |
| OmsSpec.RunKeepsEquality | mini_prop_os/execution/oms.py:283-293 | So without seeds the two totals are equal. |
| OmsSpec.SeedDropsRealized | mini_prop_os/execution/oms.py:164-187 | Seeding keeps the books' total exactly when nothing had been realised on that symbol; otherwise that realised P&L is lost. |
| OmsSpec.SeedForgetsProfit | mini_prop_os/execution/oms.py:164-187 | A concrete round trip at a profit, then a seed of its symbol: the ledger has forgotten the profit. |
| Guardrails.RiskGuardrails.Validate | mini_prop_os/risk/guardrails.py:199-281 | The gate's decision, with the first failing check as its reason. |
| Guardrails.ApprovedExactly | mini_prop_os/risk/guardrails.py:205-281 | A strategy's market order passes if and only if the switch is off, its parameters are usable, the held book is priced, and the book after the order is within every cap, gross exposure included. |
| Guardrails.LimitApprovedExactly | mini_prop_os/risk/guardrails.py:205-281 | The same for a limit order, judged at its own limit price. |
| Guardrails.FlattenPassesExactly | mini_prop_os/risk/guardrails.py:205-241 | A flattening order passes the switch and every cap, and needs only a symbol, a quantity and a price. |
| Guardrails.RefusedByFirst | mini_prop_os/risk/guardrails.py:199-281 | A refusal names the first of the eleven checks that fails, all of them written out. |
| Guardrails.GrossIsSum | mini_prop_os/risk/guardrails.py:81-91 | The gross exposure is the sum of units times price times multiplier over the holdings. |
| Guardrails.GrossAfterOrder | mini_prop_os/risk/guardrails.py:269-279 | The sixth check's figure is the gross exposure of the book after the order. |
| Guardrails.SameBarOrdersExactly | mini_prop_os/risk/guardrails.py:229-261 | Several orders gated against one book keep the position between zero and the cap, whichever of them fill, exactly when all buys together and all sells together do. |
| Guardrails.SameBarOrdersOvershoot | mini_prop_os/risk/guardrails.py:229-261 | Two concrete orders, each approved, that together exceed the cap. |
| Guardrails.RiskGuardrails.Reset | mini_prop_os/risk/guardrails.py:138-146 | Only a named operator clears the kill switch, and nothing else changes. |
| Guardrails.RiskGuardrails.MarkStartOfDay | mini_prop_os/risk/guardrails.py:150-156 | Raises, changing nothing, exactly for a non-positive equity. |
| Guardrails.RiskGuardrails.UpdateEquity | mini_prop_os/risk/guardrails.py:158-175 | Trips exactly when an armed breaker sees its limit reached. |
| Guardrails.RuinTrips | mini_prop_os/risk/guardrails.py:165-175 | With the loss fraction at most one, any non-positive mark trips an armed breaker. |
| Guardrails.BreakerTripsExactly | mini_prop_os/risk/guardrails.py:158-175 | The breaker trips exactly when it is armed and the loss from the day's start reaches the cash limit or its share of the start. |
| Guardrails.RiskGuardrails.FlattenIntents | mini_prop_os/risk/guardrails.py:177-195 | The loop emits the specified closing orders in symbol order. |
| Guardrails.FlattenZeroes | mini_prop_os/risk/guardrails.py:177-195 | Those orders trade every position to exactly zero and nothing else. |
| Guardrails.FlattenOrdered | mini_prop_os/risk/guardrails.py:177-195 | They come in symbol order and are numbered one by one. |
| HistoricalReplay.HistoricalSession.Run | mini_prop_os/sim.py:277-308 | The replay loop leaves the specified session, order objects and ledger included. |
| HistoricalReplay.HistoricalSession.ProcessBarOpen | mini_prop_os/sim.py:103-125 | Pending orders fill at the open in one or two parts, each fed back before it is charged. |
| SimFills.OpenFillsSlipped | mini_prop_os/sim.py:97-125 | At a bar's open every working order is filled whole, in two parts at one price when it is split; a buy at the open plus the slippage, a sale at the open less it, exactly when the open is on the tick grid and otherwise at the nearest grid point; each unit is charged once, and the audit log gains only such executions. |
| SimFills.RunExecutesSlipped | mini_prop_os/sim.py:97-125 | Over any replay every execution in the audit log is at some bar's open moved in this way against the side its sign says. |
| HistoricalReplay.HistoricalSession.MarkBar | mini_prop_os/sim.py:284-297 | Equity mark, start-of-day mark and breaker of one bar, as specified, the exception included. |
| SimTally.BarExactly | mini_prop_os/sim.py:277-308 | A bar raises exactly when the previous close was worthless; otherwise it records the account's equity at the close, fires the breaker exactly when the loss from the previous close reaches a limit, and updates extremes and the position after a kill as stated. |
| SimTally.RunTallies | mini_prop_os/sim.py:277-308 | Over every replay that does not raise, the curve has the equity of each close and the exposure extremes are those of the net position at the ends of the bars. |
| HistoricalReplay.HistoricalSession.KillSwitchFired | mini_prop_os/sim.py:268-275 | Cancel all, then route the flattening orders, once. |
| HistoricalReplay.HistoricalSession.Route | mini_prop_os/sim.py:255-266 | An order reaches the broker exactly when the gate approves it. |
| SimTally.RouteExactly | mini_prop_os/sim.py:255-266 | The broker gets an order exactly when the gate allows it; each counter moves by what happened. |
| HistoricalReplay.HistoricalSession.ReplayEquityFromFills | mini_prop_os/sim.py:322-337 | The independent recomputation from order history. |
| HistoricalReplay.HistoricalSession.Finish | mini_prop_os/sim.py:309-320 | Final figures after cancelling what still works. |
| SimTally.OutcomeExactly | mini_prop_os/sim.py:309-320 | What a run reports: the last bar's position, its equity at the last close, and after a trip always a position. |
| HistoricalReplay.SimulatedBroker.CancelOrder | mini_prop_os/sim.py:87-93 | Flags the first working order with the id and confirms exactly then. |
| SimAccounting.AccountingErrorIsZero | mini_prop_os/sim.py:309-337 | For every strategy, bar sequence and configuration the accounting error is exactly zero and no order is left open. |
| SimAccounting.EquitiesAgree | mini_prop_os/sim.py:209-215 | At every mark the ledger's equity is the equity recomputed from the orders. |
| SimAccounting.RunSane | mini_prop_os/sim.py:255-308 | After every bar of every run the order book is sound, every open order is one the broker works on, and no strategy order has been placed with the switch on. |
| SimAccounting.CancelAllCloses | mini_prop_os/execution/oms.py:226-231 | Cancelling everything leaves nothing open in the order system or at the broker and moves no position. |
| SimAccounting.ExecIdInjective | mini_prop_os/sim.py:116-122 | Execution ids never repeat, so no execution of the replay is dropped as a duplicate. |
| SimSafety.PositionsStayWithinCap | mini_prop_os/sim.py:255-308 | With shorts off, valid configuration and at most one order a bar: the start-of-day mark never raises and every symbol's position is between zero and the cap. |
| SimSafety.StepSafe | mini_prop_os/sim.py:280-308 | Every bar keeps the whole safety invariant: one symbol held, pending orders that fit, positive marks while armed. |
| SimSafety.FlatAfterTrip | mini_prop_os/sim.py:284-308 | After the breaker fires the book is flat from the next open on exactly when it was flat already or the tripping close is positive; otherwise it stays as it was for good. Either way nothing more is sent. |
| SimExamples.KillNeverFlattens | mini_prop_os/sim.py:284-308 | A run from a fresh session: one unit bought, a worthless close, the breaker fires, and whatever bars follow the unit is held to the end. |
| SimSafety.KilledBar | mini_prop_os/sim.py:280-308 | A bar after the trip only fills the closing order. |
| SimRoundTrips.RoundTripsExplainEquity | mini_prop_os/sim.py:227-251 | When the book is flat, equity is initial cash plus the recorded round trips less the commission of each one's last exit execution; the recorded results alone add up exactly when executions are free or no trip is complete. |
| SimExamples.RoundTripLosesExitCommission | mini_prop_os/sim.py:111-125 | A run from a fresh session with one completed trip: recorded as nil, while the account has lost one commission. |
| Strategies.EmaCrossover.OnBar | mini_prop_os/strategy/ema_crossover.py:81-125 | The bar's averages, sign and orders as specified. |
| Strategies.CrossoverEmitsOne | mini_prop_os/strategy/ema_crossover.py:81-125 | At most one order: a buy from flat or the sale of the whole position. |
| StrategyRules.CrossoverExactly | mini_prop_os/strategy/ema_crossover.py:81-125 | Both averages move by their weights, and a bar buys exactly when the fast average has crossed above the slow one from flat, sells everything exactly when it has crossed below, and otherwise sends nothing. |
| Strategies.AdaptiveEma.OnBar | mini_prop_os/strategy/adaptive_ema.py:278-344 | Indicators, regime, risk-off, arming window and confirmation as specified. |
| Strategies.AdaptiveEmitsOne | mini_prop_os/strategy/adaptive_ema.py:278-350 | At most one order, never above the base quantity, no entry in extreme volatility. |
| StrategyRules.IndicatorsExactly | mini_prop_os/strategy/adaptive_ema.py:255-276 | Averages, volatilities and range move by their weights, the last three only after a positive previous close. |
| StrategyRules.AdaptiveExactly | mini_prop_os/strategy/adaptive_ema.py:188-344 | A warm bar buys exactly from flat with the window open, nothing risk-off and a positive spread that reaches the regime's band, in the regime's size or the budget's; it sells everything exactly on risk-off; the window closes on either and otherwise loses the bar. |
| Strategies.AdaptiveEma.OnOwnFill | mini_prop_os/strategy/adaptive_ema.py:359-377 | The strategy's own books after a fill, and learning when its round trip is over. |
| Strategies.LearningIsBounded | mini_prop_os/strategy/adaptive_ema.py:379-401 | A learned threshold is inside the bounds and moves by at most one step; other regimes keep theirs. |
| Strategies.LearnsExactly | mini_prop_os/strategy/adaptive_ema.py:379-401 | A winning trip makes its regime's threshold one step easier, any other one step harder, stopping at the bounds; the other thresholds stay. |
| Strategies.ThresholdInsideExactly | mini_prop_os/strategy/adaptive_ema.py:169-170 | After any bars and fills a regime's threshold is inside the bounds exactly when its default is or it has learned from at least one round trip. |
| Strategies.DefaultsCanLieOutside | mini_prop_os/strategy/adaptive_ema.py:129-170 | A valid configuration that shuts out every default, and a run in which one trip brings only its own regime inside. |
| Strategies.RoundTripLearnsLedgerProfit | mini_prop_os/strategy/adaptive_ema.py:359-401 | From flat, any entry fills and then any exit fills back to flat leave the strategy as if it had learned once, from exactly the profit the ledger realised over them. |
| Strategies.ExitBooksLedgerProfit | mini_prop_os/strategy/adaptive_ema.py:373-377 | One exit fill keeps the strategy's average price and profit in step with the ledger's. |
| Strategies.StrategyBarsAreSafe | mini_prop_os/sim.py:299-301 | Such bars meet the one-order condition of the replay's safety results. |
| Costs.CostMonotone | engine/costs.py:34-44 | More shares never cost less. |
| RebalanceRules.RoundTripCost | engine/costs.py:34-44 | Buying and selling the same shares at one price costs the whole spread, the slippage twice and two fees, a fee being the larger of minimum and per-share fee or a rate. |
| Costs.ResizeBuy | engine/execution.py:157-169 | The shrinking loop returns the specified size. |
| Costs.OneShrinkIsEnough | engine/execution.py:164-169 | The loop ends after at most one shrink, on an affordable size. |
| Costs.ResizeNearlyBest | engine/execution.py:157-169 | The size sent is affordable, within the plan, and short of the best affordable whole number of shares by less than one share plus the seed's extra cost in shares. |
| Costs.BestSentExactly | engine/execution.py:157-169 | The best affordable size is sent exactly when there is none, the seed itself is affordable, or the best size is affordable even at the seed's cost. |
| Costs.FlatCostIsBest | engine/execution.py:157-169 | So it is sent whenever the seed costs no more than the best size. |
| Costs.ResizeCanUndershoot | engine/execution.py:157-169 | It is not always the best: a concrete fee under which one share of five is bought. |
| Rebalancer.PaperBroker.ExecuteOne | engine/broker.py:102-141 | Cash, holdings and answer of one execution as specified, failure knobs included. |
| RebalanceRules.ExecutesExactly | engine/broker.py:102-141 | An order fills exactly when nothing else is scripted, it is priced and the cash or the holding covers it, at the venue's price up to the configured fraction, with these moves of cash and holding; otherwise nothing moves. |
| Rebalancer.PaperBroker.Submit | engine/broker.py:90-100 | The outage leaves no submission behind; otherwise the order is recorded and executed. |
| Rebalancer.Execution.SubmitSingle | engine/execution.py:34-69 | Budget, risk filter, submission and terminal-status check of one order as specified. |
| RebalanceRules.FilterExactly | engine/risk.py:142-178 | The filter passes a priced order exactly when it is worth the minimum and its cost is at most the allowed share of that, and a full exit exactly when selling costs less than it brings. |
| RebalanceRules.SubmitsExactly | engine/execution.py:34-69 | An order reaches the venue exactly when the budget allows it and the filter passes it, and costs the budget one; otherwise it is dropped and nothing else moves. |
| Rebalancer.Execution.SubmitWithEscalation | engine/execution.py:72-99 | One hop to market exactly for a limit order that got nothing. |
| RebalanceRules.EscalatesExactly | engine/execution.py:72-99 | It is sent a second time, at market and whole, exactly when it is a limit order whose answer filled nothing, a hop is allowed, and budget and filter let it through. |
| Rebalancer.Execution.ExecuteRebalance | engine/execution.py:102-183 | The whole run, sells then buys off re-read cash, as specified. |
| RebalanceSafety.RebalanceIsSafe | engine/execution.py:102-183 | For every order list, fill fraction, scripted status and outage: cash and holdings never go negative (cash within 1e-9), all sells are submitted before any buy, a capped run submits at most the cap with escalations counted, and nothing is filled beyond the plan. |
| RebalanceSafety.EscalatingSteps | engine/execution.py:72-99 | One planned order makes at most two submissions, and its limit and market fills together never exceed its shares. |
| RebalanceSafety.BuyNotCashRejected | engine/execution.py:148-182 | At equal prices and costs no buy that is sent, resized or not, and no escalation of it, is rejected for cash. |
| RebalanceSafety.CapSparesSells | engine/orders.py:76-88 | The cap drops buys before sells and loses or invents no order. |
| RebalanceRules.RebalanceReportsCapped | engine/execution.py:115-145 | A run reports first, and whatever else happens, exactly the orders beyond the cap; a liquidation drops none for it. |
| Portfolio.ClampWeights | engine/risk.py:124-138 | The clamp loop returns the specified weights. |
| Portfolio.ClampBounds | engine/risk.py:124-138 | Clamped weights are within the position cap and their gross within the gross cap. |
| PortfolioRules.ClampExactly | engine/risk.py:124-138 | Every weight is cut to its own bounds, and when their sizes exceed the gross cap all are scaled by the one factor that brings the sum to the cap. |
| Portfolio.ClampIsStable | engine/risk.py:124-138 | Weights in bounds are left alone; clamping twice is clamping once. |
| Portfolio.ClampedTargetsFit | engine/portfolio.py:47-49 | Without leverage the share targets of clamped weights cost at most the equity. |
| Portfolio.ComputeOrders | engine/portfolio.py:20-68 | Refuses exactly when a concerned symbol has no usable price; otherwise the specified orders, sells first. |
| Portfolio.DiffIsFixpoint | engine/portfolio.py:41-68 | Applied in full at the same prices and equity, the orders leave a second diff, over whatever it then concerns, priced and empty, whatever the band. |
| PortfolioRules.MoveExactly | engine/portfolio.py:41-68 | A holding with no whole share as target is sold out whatever the band; otherwise the difference to the whole shares is traded exactly when it is worth at least the band's part of equity. |
| Portfolio.DeviationAfter | engine/portfolio.py:47-66 | Afterwards each symbol is within the band plus one share's weight of its target, and within one share's weight if it traded or there is no band. |
| Portfolio.IsConverged | engine/portfolio.py:71-113 | The loops judge exactly when equity is positive and every holding has a usable price, and then decide the specified predicate over the book and the targets. |
| PortfolioRules.ConvergedExactly | engine/portfolio.py:71-113 | A holding has converged exactly when its value is within the tolerance's part of equity, or one share, of its target's. |
| Portfolio.ExecutedDiffConverges | engine/portfolio.py:71-113 | With no band an executed diff can be judged and has converged, whatever the tolerance, exactly when no short position without a target is too large; so always on a long-only book. |
| DurableState.StateFile.Load | engine/state.py:67-108 | Refuses anything but a readable main file, or a permitted fresh start. |
| DurableState.StateFile.Save | engine/state.py:110-126 | A completed save is what the next load returns. |
| DurableState.SaveThenLoad | engine/state.py:67-126 | And the previous valid state becomes the backup, a corrupt one never does. |
| DurableState.InterruptedSave | engine/state.py:110-126 | Cut after any step, a load gives the old state, the new one, or refuses. |
| DurableState.DepositKeepsDailyReturn | engine/risk.py:93-95 | A declared deposit cannot mask a daily loss. |
| DurableState.VerdictExactly | engine/risk.py:74-121 | The gate kills exactly below an armed floor or when the loss from the flow-adjusted peak exceeds its share of it; otherwise it stands down exactly when, deposits aside, more than the daily share of another day's equity is lost; otherwise it opens. |
| DurableState.DepositWidensDrawdown | engine/risk.py:87-91 | It does create drawdown headroom, against the documentation: the verdicts with and without it agree exactly outside a stated gap. |
| DurableState.DepositMasksKill | engine/risk.py:74-91 | A concrete kill that a deposit masks. |
| DurableState.Runner.RunCycle | engine/runner.py:51-190 | One undisturbed cycle's disk, sent orders and success as specified, with its refusals before the gate, after it, and after the orders when the account cannot be judged. |
| DurableState.CycleSendsExactly | engine/runner.py:80-150 | A cycle sends a rebalance exactly when it reaches a decision on good data for an unconverged period with orders and retries left, a liquidation exactly when the gate kills an account with holdings, and otherwise nothing; a day stood down sends nothing. |
| DurableState.CycleStateExactly | engine/runner.py:92-182 | Every field a completed cycle leaves: halt, period, retries, peak, last equity, positions and cash. |
| DurableState.RebalancesBounded | engine/runner.py:131-173 | In any run of undisturbed cycles whose periods do not go back, one period sees at most the configured number of rebalances besides those whose cycle raised before its save. |
| CrashSafety.RetriesUnderCrashes | engine/runner.py:131-182 | Under any crashes and corruption it begins at most that many and one more for each rebalance lost between its orders and the end of its save. |
| CrashSafety.LostRetriesAreForgotten | engine/runner.py:131-182 | For every valid configuration, a run from the first installation that loses as many rebalances of one period as it likes and still begins every retry there is, all of them sending orders. |
| CrashSafety.RetryLimitExactly | engine/runner.py:131-182 | So the bound is exact: runs that lose at most so many rebalances of a period begin at most a given number if and only if that number is the retry limit plus those lost. |
| DurableState.HaltedForever | engine/runner.py:66-68 | A halted state never changes again by cycles. |
| CrashSafety.LoadIsLastCompletedSave | engine/state.py:67-126 | After any cycles, crashes between any two steps and corruption, a load returns the last completed save or refuses. |
| CrashSafety.LiquidationFollowsDurableHalt | engine/runner.py:96-113 | Every liquidation order leaves after a halted state has been completely saved. |
| CrashSafety.NoOrderAfterDurableHalt | engine/runner.py:66-116 | Once a halted state is durable and its cycle is over or dead, no later cycle sends anything. |
| CrashSafety.AfterHaltOnlyLiquidation | engine/runner.py:96-116 | Inside the killing cycle only liquidation orders can still leave. |
| CrashSafety.OrdersFollowTheGate | engine/runner.py:80-150 | Under any crashes and corruption a rebalance order leaves only in a cycle whose gate opened on the state of the last completed save, on a decision day with capital, for an unconverged period with retries left; a liquidation order only on a saved halt. |
| CrashSafety.RestoreCanUndoAHalt | engine/state.py:84-108 | Why there is no automatic fallback: a run from the first installation in which a cycle kills, dies after its first save, and restoring the backup revives the halted engine. |
| CrashSafety.WholeKillSurvivesRestore | engine/runner.py:96-182 | A killing cycle that comes to its end has a halted backup too, and a restore revives nothing. |
| CrashSafety.CycleAlone | engine/runner.py:51-190 | Undisturbed, the single steps add up to the cycle's disk. |
| EngineBacktest.RunBacktest | engine/backtest.py:71-211 | The bar loop leaves the specified book, fills through the live execution path; a decision is given the closes of the universe and the holdings only. |
| EngineGate.BarLeavesExactly | engine/backtest.py:158-203 | What a bar leaves pending: the full exits when its gate kills, the decision's orders when it is a decision bar that neither kills nor stands down, and nothing otherwise, so nothing when it stands down; no verdict moves cash or holdings on its own bar. |
| EngineGate.BarClosesExactly | engine/backtest.py:205-210 | The peak a bar closes with counts deposits one for one, and the first equity of a date is the one kept for it. |
| EngineGate.DecidedOnData | engine/backtest.py:176-203 | Orders are decided only when the strategy answered and every universe symbol and holding closed on the last visible bar, and each is for a symbol with a positive close there. |
| EngineGate.StrayTargetRefuses | engine/portfolio.py:39-47 | A target outside the frame, or outside the universe and not held, refuses the whole decision. |
| EngineBacktest.NoLookahead | engine/backtest.py:104-203 | Frames that agree on their first n bars give the same book after them, for every strategy and decision schedule. |
| EngineBacktest.CarriedPrefix | engine/backtest.py:104-108 | Carrying forward a whole frame and cutting it is cutting it and carrying forward. |
| EngineBacktest.MissingCloseKeepsMark | engine/backtest.py:104-108 | A missing close leaves the mark what it was. |
| EngineEquity.EquityExplained | engine/backtest.py:118-156 | For every run on an ascending index without scheduled withdrawals: equity at every bar is initial equity, the deposit of every calendar day so far and the mark gains of what was held, less the order costs of all fills, up to the worth of deleted dust. |
| EngineEquity.EquityIsConserved | engine/backtest.py:118-156 | At every bar equity is exactly initial equity plus the deposits credited plus the mark gains of the shares held into each bar less the costs paid. |
| EngineEquity.EveryDayIsCredited | engine/backtest.py:113-132 | The deposits credited are those of every calendar day from the first bar to this one, and a run aborts exactly when a withdrawal is scheduled on one of them. |
| EngineEquity.CostsPaidAreOrderCosts | engine/backtest.py:140-156 | Over the whole run the costs paid are the order costs of all fills, up to the worth of deleted dust. |
| EngineEquity.ExecutionLosesCost | engine/broker.py:102-141 | One execution loses its own order cost and at most the dust tolerance besides. |
| EngineKill.KillFlattensExactly | engine/backtest.py:138-172 | From the bar after a kill on, the book is empty exactly when the holdings were no more than the daily order cap and each could be sold for more than its cost at that bar's marks; otherwise the rest is held for ever. |
| EngineKill.KillCanLeaveHoldings | engine/backtest.py:138-172 | A run from the start with two holdings and one order a day: killed by a crash, and one holding is left on every later bar, however prices go on. |
| EventCalendar.FindLeft | mini_prop_os/risk/event_calendar.py:150 | The bisection loop returns the specified insertion point, ordered keys or not. |
| EventCalendar.BisectSplits | mini_prop_os/risk/event_calendar.py:150 | On ascending keys it splits them into smaller and not smaller. |
| EventCalendar.Calendar.constructor | mini_prop_os/risk/event_calendar.py:109-122 | The calendar starts sorted by time with the same events. |
| EventCalendar.Calendar.Add | mini_prop_os/risk/event_calendar.py:131-136 | Insertion keeps time order and adds exactly the event. |
| EventCalendar.Calendar.Prune | mini_prop_os/risk/event_calendar.py:226-234 | Keeps the specified events in order and returns how many went. |
| EventCalendar.KeepKeepsOrder | mini_prop_os/risk/event_calendar.py:226-234 | Exactly the events at or after the cut are kept, in order. |
| EventCalendar.Calendar.NextEvent | mini_prop_os/risk/event_calendar.py:169-174 | The earliest event at or after the time, none exactly when all are earlier. |
| EventCalendar.Calendar.ActiveEvent | mini_prop_os/risk/event_calendar.py:138-163 | The scan loop returns the specified answer. |
| EventCalendar.ActiveExactly | mini_prop_os/risk/event_calendar.py:150-163 | For any calendar: what is found covers the time, and something is found exactly when the scan reaches a covering event. |
| EventCalendar.ActiveAgreesWithScan | mini_prop_os/risk/event_calendar.py:138-163 | For one calendar, whatever the widths: with its starts in order and after-spans within a day of each other the query finds an event exactly when the plain scan does. |
| EventCalendar.EveryBlackoutFoundExactly | mini_prop_os/risk/event_calendar.py:78-163 | Every running blackout of every calendar is found, at every time, if and only if all impacts share one before-span and no after-span exceeds another by more than a day. |
| EventCalendar.WiderBeforeIsMissed | mini_prop_os/risk/event_calendar.py:78-163 | For any widths with two different before-spans, a calendar and a time at which the query misses a running blackout. |
| EventCalendar.LongerAfterIsMissed | mini_prop_os/risk/event_calendar.py:78-163 | The same for any after-spans more than a day apart. |
| EventCalendar.MixedImpactsMissABlackout | mini_prop_os/risk/event_calendar.py:149-163 | With the application's mixed widths a concrete calendar and time at which the query misses a running blackout. |

## Left out

- Broker, socket and terminal plumbing, notifications, downloads, logging, reports, command line and configuration files: input and output only; configuration checks appear as validity predicates.
- Prices at the market, account snapshots, clock readings, signals and the strategies of the replays and the backtest are parameters, so every result holds for all of them; the default month-end decision schedule is one of those parameters.
- Floating-point rounding: arithmetic is exact, so rounding to eight decimals in the lot size and microsecond rounding of time spans do not appear.
- Time zones and daylight saving: a trading day, a session window and the Friday cutoff arrive as integers or booleans.
- Serialisation: JSON and checksums are a codec that either yields what was written or is detected as unreadable; a file rename is durable at once, so power loss that undoes a rename is not modelled.
- The text of reasons and notes, notification throttling, daily summaries and the execution journal.
- FTMO backtest: the rejections list and the pip and R-multiple columns of a trade, which nothing else reads; tick files, bar frames and the spread floor are inputs.
- FTMO backtest: positions are values with a creation number for identity in a sequence the engine updates, not objects, so aliasing between a batch's list and the book is modelled by that number.
- BacktestEngine.Backtest.BatchOrder: numpy's concatenation, stable argsort and searchsorted are functions with their documented meaning.
- GuardProtocol.AtMostOneOrderPerHalt: one runner process; reading HALT (exists, then read) is one step, and a file that vanishes in between is an exception, covered by the abandoned placement.
- LiveState.Guard.Tick: positions and pending orders the terminal reports, whether a close succeeds and after how many calls the terminal fails are inputs.
- LiveState.OrderRouter.Place: an open position without a stop or contract, whose risk the source makes infinite, is a flag that refuses the trade.
- MonteCarlo.ContainmentExactly: the random generator is a sequence of draws, and necessity assumes that no equity at or below the initial balance counts as the target, which holds for every target above the 1e-6 tolerance.
- MonteCarlo: the outer loop over paths and its statistics.
- OmsSpec.RunAccounted: broker ids are assumed fresh; with a reused id the source overwrites the older order and its executions leave the books.
- Order management: the audit file, timestamps and the failing fill callback, which the source only logs.
- Guardrails: kill reasons as text; a symbol is blank when it holds only ASCII blanks; non-finite prices do not exist among reals.
- HistoricalReplay: the intent counter of flattening orders is an input of the bar; wall-clock times of round trips are bar times.
- SimSafety.PositionsStayWithinCap: needs at most one strategy order a bar; Guardrails.SameBarOrdersExactly says what several need.
- Strategies.AdaptiveEma.OnBar: logarithm, square root and the volatility-target size enter as numbers of the bar; the per-regime statistics are reduced to two counters.
- Black-Scholes values, Greeks, basket volatility and Sharpe statistics: transcendental numerics.
- Portfolio.ComputeOrders: the caller lists the concerned symbols in sorted order instead of sorting a set.
- EngineKill.KillFlattensExactly: a kill's liquidation orders are listed in column order rather than in the order the holdings were bought, which can change which holdings are left but not whether any is.
- Rebalancing engine: the run ledger, kill file, report and the self-test before a cycle.
- Portfolio.IsConverged: the caller lists the symbols of the book and the targets; the data error and the non-positive equity are one refusal.
- DurableState.RebalancesBounded: about cycles no crash interrupts; CrashSafety.RetryLimitExactly is about all others.
