# Verified models of the research simulators

This project models the order, ledger and risk state machines of the research
simulators and proves what they are meant to keep, for every input and every run.
Prices, cash and fees are exact reals, milliseconds and lots are integers.
`dafny verify dfyconfig.toml` checks all of it.

**Paper broker** (`Market`, `MakerQueue`, `Ledger`, `BrokerModel`, `PaperBroker` and the other
`Broker` modules). One account receives clocked books, prints, funding, gaps and context, with
latency on submits, cancels and exits, finite depth, a maker queue, partial fills at average
cost, late funding and latched circuit breakers. `BrokerModel` gives each operation as a
function of the state; `PaperBroker.Broker` is the object with the source's fields, every method
proved equal to its function; `BrokerRules`, `BrokerPrices`, `BrokerDepth` and `BrokerWatch`
state each function in the terms of prices, quantities and times; the other modules prove what
every run keeps. `Ledger` models the independent audit of the event log. Beside the source's
fields the model records the size taken and ever shown at each level; only theorems read those
records.

**Normalizer** (`OrderBook`, `Receipts`, `Replay`). The absolute-quantity book, bounded
de-duplication and receipt ordering that feed the broker, the link that what they emit is what
the broker requires, and the replay loop's reaction to a refusal.

**Spot executor** (`RotationModel`, `RotationTheorems`, `RotationBuffer`, `RotationClamp`,
`RotationCausality`, `RotationRules`, `RotationExecutor`). Integer lots, sales before purchases,
the 0.996 buffer, delayed targets and capacities, and the independent replay of its fills.

**Minute simulator** (`MinuteModel`, `MinuteTheorems`, `MinuteRules`, `MinuteGap`,
`MinuteEngine`, `StudyBarrier`). The stop price that leaves equity exactly at a daily-loss or
drawdown threshold after costs, the bound it gives over whole runs, and how the older study's
barrier misses it.

**Target combination** (`Allocation`, `Treasury`, `AllocationRules`). Scaling carry by bisection
under a gross cap, rebalancing under locked cash, and the day's cash movements.

**Tick engine** (`TickMarket`, `FlowModel`, `FlowTheorems`, `FlowRules`, `FlowSignal`,
`TickModel`, `TickTheorems`, `TickRules`, `TickBroker`, `ArmSignals`). The sliding-window signal
that must re-arm, the passive-order broker with a target sized to its position, and the minute
signals' arming.

Results where the code keeps less than it seems to promise, each with its exact condition:

- The paper broker's short sizing covers the loss at the stop for every short its gate admits if and
  only if taker_fee * (0.05 + 1.05 * slip) <= 0.95 * slip, which the defaults satisfy
  (`BrokerRisk.ShortSizingExact`, `BrokerRisk.UncoveredShort`); the tick broker's shorts have the
  analogous condition (`TickTheorems.SizingCoversStop`, `TickTheorems.UncoveredShort`).
- The older study's barrier keeps its threshold if and only if leaving is free
  (`StudyBarrier.KeepsThresholdOnlyFree`).
- The minute simulator ends every bar at or above that bar's threshold if and only if every bar is
  safe (`MinuteTheorems.SafeRunExact`); an opening beyond the barrier is not (`MinuteGap.UnsafeRun`).
- The executor's buffer keeps the cash clamp idle if and only if allocation * 0.996 is at most
  (1 - slip)(1 - fee) (`RotationClamp.BufferExact`).
- The executor sees of the same day's closes and lows exactly whether one is missing for a held
  asset when a trade would be filled or refused (`RotationCausality.CausalExact`), and that does show
  (`ClosePresenceShows`).
- The clamp on liquid cash creates money beyond the tolerance if and only if neither scale one nor
  any of its 45 halvings fits and locked cash exceeds what closing everything leaves
  (`Treasury.MoneyMadeExact`); a run of the frozen policy gets there (`Treasury.LossForgiven`).
- The replay loop fails in its own error handling if and only if a receipt timed before the broker's
  clock is anything but an in-order list of items already remembered (`Replay.CrashExact`); a lost
  connection followed by a receipt stamped earlier makes it fail (`Replay.BackwardCrashes`).

## Model

| member | source | states |
|---|---|---|
| `Basics.RoundDown` | research/btc_pressure/paper.py:40-41 | Rounding down gives a whole number of steps, at most the value and less than one step below it |
| `Basics.RoundUp` | research/btc_pressure/paper.py:40-41 | Rounding a positive price up gives a whole number of steps, at least the price and less than one step above it |
| `MakerQueue.FillStep` | research/btc_pressure/paper.py:283-284 | One print gives a resting order whole steps only: at most what it still wants, its share of the print, and what traded past the queue |
| `MakerQueue.MakerFillBound` | research/btc_pressure/paper.py:278-285 | Over any sequence of prints of total volume V behind a queue Q, the fills total at most min(order, participation * V, max(0, V - Q)) in whole steps; remainder and queue are exact at the end |
| `BrokerTheorems.EveryRunKeeps` | research/btc_pressure/paper.py:244-287 | From any inputs in any order (events, proposals, frames, requests, faults) the whole invariant holds: deadlines, exposure waves, books, risk, funding and depth |
| `BrokerTheorems.ExposureRisesThenFalls` | research/btc_pressure/paper.py:175-204 | In every run each position's exposure rises, then falls, then is zero for good; a new position starts only from zero, so no leftover order re-enters a flat account; the last mark is the current exposure |
| `BrokerTheorems.LiveExitMeetsNoEntry` | research/btc_pressure/paper.py:120-129 | Whenever an exit order is live, every pending entry has passed its cancel deadline and been removed |
| `BrokerSteps.ExitDueLeavesNoEntry` | research/btc_pressure/paper.py:206-219 | At the moment an exit executes against a book no entry order exists |
| `BrokerTheorems.CashReconciles` | research/btc_pressure/paper.py:374-378 | In every run cash is capital plus all closed nets plus the gross, fees and funding of the open position, so the report never raises; every net is gross less fees and funding, late funding included |
| `BrokerTheorems.AuditAcceptsEveryRun` | research/btc_pressure/health_study.py:167-187 | The independent audit re-segments the event log of every run into exactly the broker's trades and accepts them; it finds loose entry fills exactly when a position is open |
| `BrokerTheorems.GrossIsCashflow` | research/btc_pressure/paper.py:191-202 | Each closed trade's gross is the signed difference of its exit and entry notionals under any partial fills at average cost, with equal quantities in and out and all fees |
| `BrokerTheorems.FundingExact` | research/btc_pressure/paper.py:299-343 | Each position has paid exactly the sum of the settlements seen while it was exposed, whatever the order of arrival; unresolved settlements are the obligations not yet seen, and each cached obligation equals the exposure computed from history |
| `BrokerTheorems.ExposureFixed` | research/btc_pressure/paper.py:289-297 | Once the clock has reached a settlement time nothing that follows changes the exposure charged for it |
| `BrokerTheorems.FundingIgnoresArrival` | research/btc_pressure/paper.py:308-343 | Two runs with the same fills and the same settlement values charge each position the same, however late each settlement arrived |
| `BrokerTheorems.FundingChargedOnce` | research/btc_pressure/paper.py:312-335 | A settlement already seen moves no cash again, and the raise for an exposure without an owning trade is unreachable |
| `BrokerTheorems.LossWithinBudget` | research/btc_pressure/paper.py:154-172 | In every run, if everything filled left at the stop the order was sized for, or at the current one, with slippage and taker fee, the loss plus what the resting order may still add is within the risk budget (longs always, shorts under the condition below) |
| `BrokerRisk.UnitLossBound` | research/btc_pressure/paper.py:153-169 | A unit filled at the limit or better and stopped no looser than planned loses at most what the sizing charges per unit |
| `BrokerRisk.ShortSizingExact` | research/btc_pressure/paper.py:153-169 | The sizing covers every short the gate admits if and only if taker_fee * (0.05 + 1.05 * slip) <= 0.95 * slip |
| `BrokerRisk.UncoveredShort` | research/btc_pressure/paper.py:153-169 | When that condition fails, a concrete short that the gate admits loses more than its sizing assumed |
| `BrokerRisk.LongSizingCovers` | research/btc_pressure/paper.py:153-169 | The sizing covers every long, whatever the fees |
| `BrokerTheorems.ProtectionOnlyGrows` | research/btc_pressure/paper.py:140-142 | Over the life of a position, through promotion and trailing, the stop only tightens, the side, the risk budget and the planned stop never change, and an exit once requested keeps its activation time and reason |
| `BrokerTheorems.LiquidityTakenOnce` | research/btc_pressure/paper.py:271-277 | At every level, 0 <= available <= displayed, and what was taken plus what is available never exceeds the sum of displayed increases, however often snapshots repeat |
| `BrokerDepth.TakesWhatItLogs` | research/btc_pressure/paper.py:211-242 | What a book takes under each price, on the side it trades with, is exactly what it logs as filled at that price less the slippage, and is no longer available; nothing else is taken |
| `BrokerDepth.ShowsWhatItAdds` | research/btc_pressure/paper.py:266-277 | A book adds to the size ever shown at a price exactly what it shows there beyond the last book |
| `BrokerTheorems.ProtectedAfterEvent` | research/btc_pressure/paper.py:345-358 | After every processed event a position with an overdue settlement, stale book, breached stop, reached target, expired hold, exceeded exposure or a latched halt has an exit order, and a halt has cancelled the pending entry |
| `BrokerTheorems.HaltIsFinal` | research/btc_pressure/paper.py:109-118 | A drawdown halt never clears, and with no order out at that moment no entry order ever exists again |
| `BrokerOrders.HaltsAtThreshold` | research/btc_pressure/paper.py:109-118 | After every processed event with a known equity the peak covers it, a seven percent drawdown has latched the halt, and a one percent day loss has latched the day halt |
| `BrokerOrders.AcceptedOrder` | research/btc_pressure/paper.py:131-173 | An accepted proposal was made flat, unlatched, cooled down, with a fresh book and funding more than five seconds away; its order is priced on its own side or within its band, in whole steps above the venue minimum, within the exposure cap and the risk budget, and worth its costs |
| `BrokerMaker.ActivatedBehindDisplay` | research/btc_pressure/paper.py:223-229 | A passive order is activated only without crossing, behind the size displayed at its own price, and otherwise unchanged |
| `BrokerMaker.MakerOrderBounded` | research/btc_pressure/paper.py:278-285 | From any reachable state with an activated passive order behind Q, whatever inputs follow, what the account enters while the order lives is at most its remainder, participation * V and max(0, V - Q), V being the volume of the prints that reach it; whole steps while the contract stands |
| `BrokerFills.EntryFillBooked` | research/btc_pressure/paper.py:175-189 | An entry fill at average cost keeps the log and the position in agreement |
| `BrokerFills.ExitFillBooked` | research/btc_pressure/paper.py:191-204 | An exit fill keeps the log in agreement, and closing files a trade that matches its own segment of the log |
| `BrokerRuns.OnEventKeeps` | research/btc_pressure/paper.py:244-287 | Every event keeps the invariant, moves the clock to its receive time unless that is earlier, and only extends history |
| `BrokerRuns.ProposeKeeps` | research/btc_pressure/paper.py:131-173 | Every proposal, accepted or not, keeps the invariant |
| `BrokerSettlement.ApplyFundingKeeps` | research/btc_pressure/paper.py:308-343 | Every settlement keeps the books exact and finds its owning trade |
| `BrokerSettlement.SettlementMoves` | research/btc_pressure/paper.py:308-343 | The first settlement of an exposed time takes quantity * mark * rate from a long and gives it to a short, in cash and in the funding of exactly the owning trade; one refused, repeated or without exposure moves nothing |
| `BrokerWatch.ExposesExactly` | research/btc_pressure/paper.py:289-297 | A settlement is charged to the exposure after the last fill stamped strictly before it, if that left any |
| `BrokerWatch.CapturesExactly` | research/btc_pressure/paper.py:299-306 | A due settlement not yet seen or captured, with an exposure, is captured as that exposure and left unresolved; nothing else is |
| `BrokerWatch.SettlesExactly` | research/btc_pressure/paper.py:308-343 | A settlement of the future or without a positive mark is refused and a known one changes nothing; a differing one leaves the account incomplete and halted; a first one is recorded, is incomplete exactly if a fill has its millisecond or nobody owns its exposure, and is a revision exactly if it charges late |
| `BrokerWatch.GapExactly` | research/btc_pressure/paper.py:264-266 | A gap drops the book and asks for a cancel; with a position it also asks for an exit and leaves the account incomplete |
| `BrokerFunding.ExposureHasOwner` | research/btc_pressure/paper.py:289-297 | Any exposure computed from history belongs to a position that was opened |
| `BrokerOnward.ApplyFundingOnward` | research/btc_pressure/paper.py:308-343 | A settlement revises no fill, stop or exit |
| `BrokerRules.EquityExactly` | research/btc_pressure/paper.py:96-101 | Equity is cash when flat, and with a current book cash plus the signed gain at the position's own touch less the taker fee of leaving there; otherwise it is unknown |
| `BrokerRules.RiskExactly` | research/btc_pressure/paper.py:103-107 | The full risk fraction above 97 percent of the peak, half of it above 95, at most a thousandth below, and none with unknown equity |
| `BrokerRules.BudgetExactly` | research/btc_pressure/paper.py:166 | A flat account risks on one order its cash times the full fraction, half of it, or at most a thousandth, by its cash against the peak |
| `BrokerRules.DeeperRisksLess` | research/btc_pressure/paper.py:103-107 | The deeper the drawdown, the less is risked |
| `BrokerRules.PricesExactly` | research/btc_pressure/paper.py:153-160 | A passive order rests at its own touch rounded away from the market by less than a tick; an immediate one reaches beyond the far touch by the larger of five basis points and twice the slippage |
| `BrokerRules.LargestOrder` | research/btc_pressure/paper.py:168-170 | The size is the largest number of whole steps whose stopped loss with costs fits the budget and whose value fits the exposure cap |
| `BrokerRules.AcceptsExactly` | research/btc_pressure/paper.py:131-173 | A proposal is accepted if and only if it is of the present moment, nothing blocks an entry, its stop and target are worth the costs, and some size is placeable; then the largest such size is submitted, live after the latency |
| `BrokerRules.BlocksNamed` | research/btc_pressure/paper.py:131-173 | A flat account logs that the proposal was seen, then its order, or which of mode, calibration, missing context or the cost gate blocked it, and nothing more while it waits |
| `BrokerRules.LatchesExactly` | research/btc_pressure/paper.py:109-118 | The drawdown latch sets if and only if equity is at most 93 percent of the peak, the day's if and only if at most 99 percent of the day's start, which a new day resets together with its latch; the largest drawdown recorded is the largest seen |
| `BrokerPrices.BookFillsPriced` | research/btc_pressure/paper.py:206-242 | Every exit a book adds is at a bid less the slippage for a long and at an ask plus it for a short, every immediate entry the other way round and within its limit and stop, all with the taker fee |
| `BrokerPrices.ExitsNeverBeatTouch` | research/btc_pressure/paper.py:211-218 | On a book ordered best first no exit is better than the touch less the slippage |
| `BrokerPrices.ExitSweepsBook` | research/btc_pressure/paper.py:206-219 | A live exit not yet tried on a book ends flat, or with nothing left at any level it faces |
| `BrokerPrices.EntrySweepsReach` | research/btc_pressure/paper.py:230-241 | An immediate order is done in the end, or less than a step is left of it or of every level within its limit and stop |
| `BrokerPrices.ExecutesInOrder` | research/btc_pressure/paper.py:206-242 | Without a current book nothing executes; a live exit goes before any entry and once per book; a live immediate entry is swept and then gone, and a resting one already activated is left alone |
| `BrokerPrices.MakerFillPriced` | research/btc_pressure/paper.py:283-287 | A print that fills a resting order is booked at the order's own limit with the maker fee |
| `BrokerWatch.RequestsExactly` | research/btc_pressure/paper.py:125-129 | An exit is asked for once, live after the latency, with the pending entry's cancel; later requests change nothing |
| `BrokerWatch.ExpiresExactly` | research/btc_pressure/paper.py:248-254 | A pending order goes exactly at its cancel time, or the latency after its time to live if that is earlier |
| `BrokerWatch.ActivatesExactly` | research/btc_pressure/paper.py:223-229 | A due passive order becomes a resting one if and only if it does not cross and something is shown at its price |
| `BrokerWatch.CountsExactly` | research/btc_pressure/paper.py:280-282 | A print counts for an activated order if and only if it comes from the other side at its limit or through it, both are recent and past its activation, and the book is current |
| `BrokerWatch.BooksExactly` | research/btc_pressure/paper.py:266-277 | A late or early book leaves none; any other is shown, and what is available at each price moves by the change in the size shown |
| `BrokerWatch.ChecksExactly` | research/btc_pressure/paper.py:345-358 | After the checks that end an event a position has an exit out if and only if it had one, a latch is set, its rate is missing, its book is not current, its touch is at or beyond stop or target, its time is up, or it is over-exposed |
| `BrokerWatch.ManagesExactly` | research/btc_pressure/paper.py:360-372 | A frame asks for an exit if and only if adverse flow has lasted ten seconds, and once a minute moves a trend's stop to two ranges behind the price if that is closer |
| `BrokerWatch.StretchExactly` | research/btc_pressure/paper.py:363-368 | Over any frames the time remembered is the beginning of the unbroken adverse stretch they end with, and none if they do not end in one |
| `BrokerWatch.RedirectsExactly` | research/btc_pressure/paper.py:136-145 | At an open position an opposite proposal asks for an exit, and an allowed spot trend on its side takes it over with the closer stop; nothing is added |
| `BrokerWatch.OpensExactly` | research/btc_pressure/paper.py:175-189 | A first fill opens the next position on its order's terms, at its price and fee, and drops the order when less than half a step is left |
| `BrokerWatch.ClosesExactly` | research/btc_pressure/paper.py:191-204 | Selling the last of a position files its trade, signed gain, fee and all, and forgets it and its orders |
| `BrokerWatch.OthersUnheard` | research/btc_pressure/paper.py:255-256 | An event of another venue changes no feed, settlement, fill, trade or cash |
| `BrokerWatch.VenueHeard` | research/btc_pressure/paper.py:257-265 | An event of the broker's own venue takes over contract and funding time, records a valid new settlement, or drops the book |
| `PaperBroker.Broker.constructor` | research/btc_pressure/paper.py:76-92 | A new account holds the capital, is flat and unlatched with empty records, equals the model's initial state and satisfies the invariant |
| `PaperBroker.Broker.Propose` | research/btc_pressure/paper.py:131-173 | The whole new state and the reply are the model's, through redirecting, gating, sizing and submitting, and the invariant is kept |
| `PaperBroker.Broker.SweepExit` | research/btc_pressure/paper.py:211-218 | The loop over facing levels sells what each has left until flat |
| `PaperBroker.Broker.SweepEntry` | research/btc_pressure/paper.py:230-241 | The loop over levels buys within limit and stop until filled |
| `PaperBroker.Broker.ExecuteBook` | research/btc_pressure/paper.py:206-242 | One book executes the live exit once, else the due entry |
| `PaperBroker.Broker.RefreshDepth` | research/btc_pressure/paper.py:271-275 | The loop over levels adds only displayed increases to what is available |
| `PaperBroker.Broker.OnEvent` | research/btc_pressure/paper.py:244-287 | The whole new state and outcome are the model's, through expiry, funding, books, prints, fills, maintenance and circuit; only an earlier receive time is refused; a position that must leave has an exit order afterwards |
| `PaperBroker.Broker.ExposureAt` | research/btc_pressure/paper.py:289-297 | The backward scan finds the exposure strictly before a time |
| `PaperBroker.Broker.ManageFrame` | research/btc_pressure/paper.py:360-372 | Ten seconds of adverse flow request an exit; the trailing stop only tightens; the invariant is kept |
| `PaperBroker.Broker.Reconcile` | research/btc_pressure/paper.py:374-378 | The balance recomputed from the trades always equals cash |
| `Ledger.Recompute` | research/btc_pressure/health_study.py:177-182 | One trade is recomputed from its cash flows alone, and agrees exactly when all its reported fields do |
| `Ledger.AuditLedger` | research/btc_pressure/health_study.py:167-187 | The audit loop passes if and only if the log segments into the reported trades one for one, counts agree, and a complete account's nets make its cash change |
| `OrderBook.LastUpdateWins` | research/btc_pressure/adapters.py:43-48 | A folded side holds at every price what was last written there, and nothing where that is zero |
| `OrderBook.AppliesExactly` | research/btc_pressure/adapters.py:32-51 | An update is applied if and only if it is a snapshot or follows the valid book in its counters, holds no negative quantity, and leaves both sides there and uncrossed |
| `OrderBook.BookIsFold` | research/btc_pressure/adapters.py:32-51 | A valid book is exactly the fold of the updates since its last snapshot, which comes first; it is valid exactly when there is one |
| `OrderBook.RunSound` | research/btc_pressure/adapters.py:46-51 | In every run sizes are positive, and while the book is valid both sides are there and every bid is below every ask |
| `OrderBook.InvalidUntilSnapshot` | research/btc_pressure/adapters.py:29-35 | A book that any run left invalid comes through any further list of deltas unchanged, and none of them ever counts toward it |
| `OrderBook.CountersAdvance` | research/btc_pressure/adapters.py:36-51 | In every run the updates since the last snapshot are strictly in counter order, neither counter going back and never both repeating, and the book carries the last one's counters |
| `OrderBook.TopExact` | research/btc_pressure/adapters.py:53-55 | A side of the view is its best fifty levels with their sizes, strictly in order, and everything left out is worse than everything shown |
| `OrderBook.ViewExactly` | research/btc_pressure/adapters.py:53-55 | The view's bids run strictly down and its asks strictly up, each with its side's sizes, the best fifty of each |
| `OrderBook.ViewSound` | research/btc_pressure/adapters.py:53-55 | A valid book's view is two-sided, with positive sizes and best bid below best ask, as the broker needs |
| `OrderBook.Book.Write` | research/btc_pressure/adapters.py:43-48 | The loop over one side's changes folds them in, or stops at a negative quantity |
| `OrderBook.Book.ApplyUpdate` | research/btc_pressure/adapters.py:32-51 | Snapshot, delta, duplicate and each refusal leave exactly the model's state and verdict |
| `OrderBook.Book.Invalidate` | research/btc_pressure/adapters.py:29-30 | The book becomes invalid and empty, keeping its counters |
| `Receipts.RememberLast` | research/btc_pressure/adapters.py:63-67 | Remembering a key keeps exactly the last hundred thousand accepted, and equal keys are accepted only further apart than that |
| `Receipts.Normalizer.Unique` | research/btc_pressure/adapters.py:63-67 | A key is accepted if and only if it is not among the last hundred thousand accepted |
| `Receipts.ClocksNeverReverse` | research/btc_pressure/adapters.py:69-73 | Over any receipts, refused ones included, emitted receive clocks never decrease |
| `Receipts.FeedNeverReversesBroker` | research/btc_pressure/paper.py:244-246 | A broker fed what the normalizer emits, with proposals and frames interleaved anywhere, never finds its clock reversed |
| `Receipts.StepClock` | research/btc_pressure/paper.py:244-246 | Only an event moves the broker's clock, and only to its receive time |
| `Receipts.Normalizer.FeedOne` | research/btc_pressure/adapters.py:69-81 | One receipt is refused out of order, else updates counters, book or seen keys and emits exactly the model's events |
| `Replay.CrashExact` | research/btc_pressure/run.py:33-48 | The replay loop's own error handling fails at a receipt if and only if its time is before the broker's clock and it is not an in-order list of items whose keys are all remembered |
| `Replay.RefusalLatches` | research/btc_pressure/run.py:42-47 | A refusal the loop survives leaves the broker halted, incomplete and without a book, any position with an exit out and any pending order with a cancel |
| `Replay.BackwardCrashes` | research/btc_pressure/run.py:33-48 | It does fail: a lost connection at time 10, then a receipt stamped 5 |
| `Replay.OrderedCaptureNeverCrashes` | research/btc_pressure/run.py:33-48 | A capture numbered and timed in order never makes it fail or end early, whatever its messages hold and however many are refused |
| `RotationTheorems.EveryDaySound` | research/annual_rotation/model.py:83-112 | After every day of every run cash and all coin counts are nonnegative, entries less round trips is the number of assets held, and the fills replay to this very account with every cash_after right |
| `RotationTheorems.AffordableCovers` | research/annual_rotation/model.py:94-102 | A purchase within the affordable lots never costs more than the cash, fee included |
| `RotationTheorems.BookedReplays` | research/annual_rotation/model.py:101-110 | One fill replays to exactly the account it leaves |
| `RotationTheorems.ReplayAcceptsRun` | research/asymmetric_pulse/study.py:36-50 | The independent replay accepts every finished run: cash, coins and the reported marked equity |
| `RotationBuffer.BufferAlwaysPays` | research/annual_rotation/model.py:117-133 | If every sale fills and (1-slip)(1-fee) is at least allocation * 0.996 * total weight, all purchases together cost at most cash plus proceeds, and each ends at its desired lots unless its quote, the minimum or the capacity refuses it |
| `RotationBuffer.SmallCostsBuffered` | research/annual_rotation/model.py:117-128 | Costs of at most 0.004 in all with weights summing to at most one satisfy that condition |
| `RotationClamp.BufferExact` | research/annual_rotation/model.py:89-105 | The clamp never binds, whatever the account, quotes and nonnegative weights of at most one, once the sales fill, if and only if allocation * 0.996 <= (1-slip)(1-fee) |
| `RotationClamp.ClampBinds` | research/annual_rotation/model.py:94-95 | For any costs beyond that and enough lots, switching one holding into another is a proper rebalance whose purchase the clamp cuts short |
| `RotationBuffer.CashCovers` | research/annual_rotation/model.py:122-127 | The cash needed for all purchases is within cash plus what the sales raise, whatever the holdings and weights |
| `RotationBuffer.SellsRaise` | research/annual_rotation/model.py:130-131 | Sales that fill end at the desired lots and raise exactly the kept proceeds |
| `RotationBuffer.BuysFill` | research/annual_rotation/model.py:132-133 | With the cash for all purchases, each fills in full exactly when the other tests accept it |
| `RotationCausality.CausalExact` | research/annual_rotation/model.py:113-134 | Histories that agree on opens through day i, volumes through i-1 and targets through i-2-delay give the same cash, coins and fills at every open through day i if and only if each day has no asset whose desired lots make a trade be filled or refused, or misses a quote of a held asset in both or in neither |
| `RotationCausality.Causal` | research/annual_rotation/model.py:113-134 | So histories that also have the same same-day quotes present, as fully observed ones do, are never told apart |
| `RotationCausality.MorningsAgreeExactly` | research/annual_rotation/model.py:115-134 | From one account two such mornings agree if and only if nothing would trade or both agree on what is missing |
| `RotationCausality.ClosePresenceShows` | research/annual_rotation/model.py:115-121 | Two concrete histories that differ only in whether one same-day close is there leave that day's open with 0 and with 996 lots |
| `RotationTheorems.FirstRowSellsNothing` | research/annual_rotation/model.py:138-141 | On the first row, where the closing sale would take its capacities from the last row, nothing is held and nothing is sold |
| `RotationRules.TriedExactly` | research/annual_rotation/model.py:83-102 | A request of a usable price and enough value is refused if and only if it exceeds its capacity; otherwise the most lots asked for and payable, fee included, or held, are filled, unless those are worth less than the minimum |
| `RotationRules.BookedExactly` | research/annual_rotation/model.py:92-110 | A fill pays the slippage on its reference when buying and gives it up when selling, with the fee on its value, and moves cash and lots to match |
| `RotationRules.DesiredExactly` | research/annual_rotation/model.py:117-128 | The desired lots are the most whose cost with slippage and fee fits the weight of 0.996 of the allocated wealth |
| `RotationRules.RebalancesWhenDue` | research/annual_rotation/model.py:113-134 | The account is rebalanced on the targets of two days and the delay before if and only if the day is scheduled, not the last, and every held asset is quoted |
| `RotationRules.FillsWithinVolume` | research/annual_rotation/model.py:129-141 | In every run no fill exceeds the participation in the volume of the day before its own, and nothing is rebalanced on the first row |
| `RotationRules.EndsFlat` | research/annual_rotation/model.py:138-141 | The last day, and no other, sells exactly the holdings whose close, minimum and capacity allow it |
| `RotationExecutor.Executor.TradeLots` | research/annual_rotation/model.py:83-112 | The inner trade changes cash, coins, fills and counters exactly as the model says, and reports whether it filled |
| `RotationExecutor.Executor.Rebalance` | research/annual_rotation/model.py:129-134 | Both loops, sales first, leave the model's account |
| `RotationExecutor.Executor.Finish` | research/annual_rotation/model.py:138-141 | The closing loop offers everything held |
| `RotationExecutor.Executor.Simulate` | research/annual_rotation/model.py:113-146 | The day loop ends in the model's account, sound and replayable, with its marked equity |
| `RotationExecutor.InspectLedger` | research/asymmetric_pulse/study.py:36-50 | The replay loop passes if and only if every prefix of the fills is accepted and the marked remainder is the reported equity |
| `MinuteTheorems.BarrierExact` | research/btc_flow_continuous/engine.py:62-70 | For both sides, leaving at a raw price keeps equity at or above the threshold after slippage and fee if and only if the price is on the safe side of the barrier |
| `MinuteTheorems.BarKeepsThreshold` | research/btc_flow_continuous/engine.py:71-84 | A bar leaves at least max(0.99 * day start, 0.93 * peak) if and only if it does not open beyond the barrier when its range reaches the stop, nor otherwise reach a target beyond the barrier |
| `MinuteTheorems.SafeRunExact` | research/btc_flow_continuous/engine.py:62-102 | Every bar of a run is safe in that sense if and only if the run never ends a bar below that bar's threshold |
| `MinuteGap.UnsafeRun` | research/btc_flow_continuous/engine.py:62-102 | A run that is not: three bars at 100, 100 and 50 with one signal end at nothing, below the threshold of 990 |
| `MinuteTheorems.DrawdownBounded` | research/btc_flow_continuous/engine.py:98-102 | Over runs whose bars are all safe, equity never falls seven percent below the start or any equity reached before |
| `MinuteTheorems.DailyLossBounded` | research/btc_flow_continuous/engine.py:98-102 | Over such runs no day loses more than one percent of its opening equity |
| `MinuteTheorems.DayStartHeld` | research/btc_flow_continuous/engine.py:34-36 | The day start is the equity at the opening of the day's first bar for all of that day |
| `MinuteTheorems.RunBalanced` | research/btc_flow_continuous/engine.py:90-94 | After every bar cash is capital plus all closed nets less what the open position has been charged, and the run ends flat |
| `MinuteTheorems.LedgerCloses` | research/btc_flow_continuous/engine.py:115-118 | The study's ledger check never fails: capital and all closed trades make the final equity |
| `MinuteTheorems.TradesFit` | research/btc_flow_continuous/engine.py:26-27 | Each position spends its own nonzero signal, so the preallocated trade rows always suffice |
| `MinuteRules.SettlementPaid` | research/btc_flow_continuous/engine.py:36-44 | A settlement at a usable mark takes quantity * mark * rate from a long and gives it to a short, in cash and funding alike |
| `MinuteRules.ReserveCoversMinute` | research/btc_flow_continuous/engine.py:42-43 | The reserve for a settlement covers what any mark between the minute's extremes would have cost beyond the payment, and is the worst of them |
| `MinuteRules.MissingMarkHalts` | research/btc_flow_continuous/engine.py:37-44 | The run is halted and the gap counted if and only if the mark, or the extreme that could have cost more, is missing |
| `MinuteRules.UninvitedStays` | research/btc_flow_continuous/engine.py:45-52 | Without a fresh enough signal, a gated stop, a flat unlatched account and a bar between cooldown and end nothing is entered |
| `MinuteRules.EntersExactly` | research/btc_flow_continuous/engine.py:45-60 | An invited signal is taken if and only if some whole number of lots worth a hundred is affordable; then the most that risk budget, twice the cash and a thousandth of the last volume allow is entered at the worsened open, with its stop and target |
| `MinuteRules.LeavesExactly` | research/btc_flow_continuous/engine.py:62-82 | A position leaves a bar at the worse of open and the closer of stop and barrier when the range touches one, else at its target, else at the close when overstayed or over-levered, and otherwise stays |
| `MinuteRules.ClosedRow` | research/btc_flow_continuous/engine.py:73-94 | An exit is booked at the raw price worsened by the slippage, with signed gross, both fees, funding and cash to match |
| `MinuteRules.TrailTightens` | research/btc_flow_continuous/engine.py:95-98 | A position that survives its bar under trailing has a stop no looser than before and no looser than its fraction from the close, and equal to one of the two; without trailing its stop stays |
| `MinuteRules.StopOnlyTightens` | research/btc_flow_continuous/engine.py:95-98 | In any run, for as long as the same position is held, its stop only tightens and nothing else of it but funding changes |
| `MinuteRules.LatchesExactly` | research/btc_flow_continuous/engine.py:99-102 | The day latch sets if and only if marked equity is at most 99 percent of the day's start, the halt if and only if at most 93 percent of a peak that includes it, within 1e-8 |
| `MinuteRules.HaltedForGood` | research/btc_flow_continuous/engine.py:52-102 | Once halted a run stays halted and enters nothing more |
| `MinuteEngine.Simulate` | research/btc_flow_continuous/engine.py:24-103 | The loop over local state and arrays writes exactly the model's equities and trade rows, inside the buffer |
| `MinuteEngine.PayFunding` | research/btc_flow_continuous/engine.py:37-45 | Payment, bound and the missing flag of one settlement |
| `MinuteEngine.OpenBar` | research/btc_flow_continuous/engine.py:33-61 | Day roll, funding and entry of one bar |
| `MinuteEngine.WatchExits` | research/btc_flow_continuous/engine.py:62-97 | The exit decision, its row, and the trailing stop of one bar |
| `StudyBarrier.ShortByExitCost` | research/btc_flow/study.py:245-255 | Leaving exactly at the older study's barrier leaves the threshold less the slippage and fee of leaving |
| `StudyBarrier.KeepsThresholdOnlyFree` | research/btc_flow/study.py:245-255 | So that barrier keeps the threshold if and only if leaving is free |
| `Allocation.BaseWithinCap` | research/active_v26_v28/v28_exact8h_engine.py:83-86 | The base targets' gross is the smaller of the signals' gross and the cap, with no short or unavailable spot |
| `AllocationRules.TargetsFollowSignals` | research/active_v26_v28/v28_exact8h_engine.py:83-86 | One factor, in (0, 1] for a positive cap, one when the signals fit the cap and otherwise bringing their gross to it; each perpetual target is its own signal, sign and all, times the locked risk and the factor, each available spot that is not short likewise, and the rest zero |
| `Allocation.GrossConvex` | research/active_v26_v28/v28_exact8h_engine.py:90-93 | The combined gross is a convex function of the carry scale |
| `Allocation.CarryNeutral` | research/active_v26_v28/v28_exact8h_engine.py:90-93 | The carry adds no direction: what it buys in spot it sells in perpetuals |
| `AllocationRules.CarryFollowsSignals` | research/active_v26_v28/v28_exact8h_engine.py:88-93 | Each pair sells the scale times its positive carry signal in its perpetual and buys the same in its spot, shared spots adding up |
| `Allocation.WithinCapBelow` | research/active_v26_v28/v28_exact8h_engine.py:96-101 | Within the cap at zero and at some scale, the gross is within it at every scale between |
| `Allocation.Combo` | research/active_v26_v28/v28_exact8h_engine.py:90-93 | The loop over pairs builds exactly the legs of a scale |
| `Allocation.AddCarry` | research/active_v26_v28/v28_exact8h_engine.py:88-101 | The scale returned fits the cap exactly when it is positive or the base targets fit, is one when one fits, and every fitting scale in [0,1] is less than 2^-45 above it |
| `Allocation.CombinedTargets` | research/active_v26_v28/v28_exact8h_engine.py:142-144 | Base targets and carry together stay within the cap, with as much carry as the halvings can find |
| `Allocation.Feasible` | research/active_v26_v28/v28_exact8h_engine.py:103-113 | Cost and equity returned belong to the scale returned; it is zero exactly when neither one nor any of its 45 halvings fits, and fits if and only if it is positive or scale zero fits; below one, a scale that does not fit lies within 2^-45 above |
| `AllocationRules.CostExactly` | research/active_v26_v28/v28_exact8h_engine.py:104-105 | Reaching a scale costs the rate times equity times the distance from holdings to scaled targets, and what is left never falls below nothing |
| `AllocationRules.FitsExactly` | research/active_v26_v28/v28_exact8h_engine.py:105-106 | A scale fits if and only if locked cash with what spot, the margin of perpetuals and the reserve tie up of the equity left is within that equity and 1e-9 |
| `Treasury.NoMoneyMade` | research/active_v26_v28/v28_exact8h_engine.py:153 | When the scale fits, locked cash and spot exceed what is left by at most the 1e-9 tolerance |
| `Treasury.MoneyMadeExact` | research/active_v26_v28/v28_exact8h_engine.py:153 | Whatever the reserve and margin, the clamp on liquid makes more than the 1e-9 tolerance if and only if neither one nor any of its 45 halvings fits and locked cash exceeds what closing everything leaves; then not even scale zero fits |
| `Treasury.LockedBeyondEquity` | research/active_v26_v28/v28_exact8h_engine.py:103-113 | With more locked than there is equity no scale fits, whatever the targets |
| `Treasury.LossForgiven` | research/active_v26_v28/v28_exact8h_engine.py:145-153 | A run under the frozen policy reaches it: after an adverse move the treasury exceeds equity, and the next allocation leaves the account worth over 270 more than before it |
| `Treasury.Fund.MarkPerps` | research/active_v26_v28/v28_exact8h_engine.py:137 | Perpetuals move with the quotes, an absent quote counting as no move, and equity changes by exactly their profit; the same step follows within the day |
| `Treasury.Fund.PayFunding` | research/active_v26_v28/v28_exact8h_engine.py:158-162 | Liquid and equity change by exactly the funding of every pair, carry income cut or suppressed as the audit says |
| `AllocationRules.FundingIsNet` | research/active_v26_v28/v28_exact8h_engine.py:138-139 | Unaudited, funding costs exactly the net positions times their rates: longs pay a positive rate |
| `AllocationRules.PairExactly` | research/active_v26_v28/v28_exact8h_engine.py:158-162 | The audit cuts only a carry's income, by its haircut or to nothing |
| `AllocationRules.PerpGainsExactly` | research/active_v26_v28/v28_exact8h_engine.py:137 | A perpetual gains its signed value times the change of its quote, nothing when one is missing |
| `AllocationRules.OvernightExactly` | research/active_v26_v28/v28_exact8h_engine.py:130-136 | A spot holding gains its quote's change overnight, or loses a penalty of at least a hundredth, at most itself, when a quote is missing |
| `Treasury.AuditNeverFlatters` | research/active_v26_v28/v28_exact8h_engine.py:158-162 | With a haircut of at most one no audit setting pays more funding than the positions earn |
| `Treasury.CappedNeedsNoClamp` | research/active_v26_v28/v28_exact8h_engine.py:151-153 | Without a treasury capped targets never cost more than equity, so the clamp stays idle |
| `Treasury.Fund.Release` | research/active_v26_v28/v28_exact8h_engine.py:122-126 | Settled redemptions reach liquid, later ones stay in order, and equity does not move |
| `AllocationRules.LaterIsUnsettled` | research/active_v26_v28/v28_exact8h_engine.py:122-126 | What stays on its way is exactly what settles later, in order |
| `Treasury.Fund.Overnight` | research/active_v26_v28/v28_exact8h_engine.py:130-136 | Spot moves with the quotes; an unquoted holding is sold at its penalty; equity changes by exactly the sum of both |
| `Treasury.Fund.Redeem` | research/active_v26_v28/v28_exact8h_engine.py:149-150 | The treasury falls to the limit, the rest is on its way less its cost, and equity falls by exactly that cost |
| `Treasury.Fund.Rebalance` | research/active_v26_v28/v28_exact8h_engine.py:153 | Holdings become the scaled targets, and equity becomes the larger of what is left and what is locked or held |
| `Treasury.Fund.Sweep` | research/active_v26_v28/v28_exact8h_engine.py:169-171 | Exactly the idle liquid within the treasury's room moves in, if it reaches the minimum; liquid stays above the needs, the treasury within its share, and equity falls by exactly the cost |
| `AllocationRules.SweptExactly` | research/active_v26_v28/v28_exact8h_engine.py:169-171 | The sweep is the liquid beyond the needs, within the room, and only if it reaches its minimum share of equity |
| `AllocationRules.LimitExactly` | research/active_v26_v28/v28_exact8h_engine.py:148 | The treasury may keep what full targets leave less reserve, spot and the margin of perpetuals |
| `AllocationRules.OrderExactly` | research/active_v26_v28/v28_exact8h_engine.py:139-146 | The constraint sees the targets as they are, holdings as fractions of equity, and treasury with transit as locked |
| `Treasury.Fund.Allocate` | research/active_v26_v28/v28_exact8h_engine.py:145-153 | One allocation: no redemption when the full scale fits, else at most one down to the limit; holdings are the scaled targets; in every case equity falls by exactly trading and transfer costs but for what the two clamps add, and the one on liquid adds more than the tolerance exactly when neither one nor any of its 45 halvings fits and locked cash exceeds what is left |
| `ArmSignals.Arm` | research/btc_flow/study.py:169-184 | A bar emits a side if and only if it offers it and every earlier offer of that side was followed by a close back at the average |
| `ArmSignals.OnePerPullback` | research/btc_flow/study.py:168-184 | Between two emitted signals of a side there is always a close at or across the average |
| `ArmSignals.RearmsExactly` | research/btc_flow/study.py:172-176 | A close at or above the average re-arms longs and one at or below it shorts; nothing else re-arms |
| `FlowTheorems.WindowExact` | research/btc_flow/engine.py:165-179 | In every run the pruned deque is the whole print history since the last feed gap filtered to the last twenty seconds, and the start is the first print since that gap |
| `FlowTheorems.DropIsRecent` | research/btc_flow/engine.py:178-179 | Popping from the front of an ordered window is filtering it |
| `FlowTheorems.SignalsOncePerExcursion` | research/btc_flow/engine.py:186-217 | A print signals a side if and only if it passes every other test and each earlier signal of that side was followed by a print at or across the average |
| `FlowTheorems.SignalsSpaced` | research/btc_flow/engine.py:190-192 | Signals of either side are at least a tenth of a second apart |
| `FlowTheorems.NeverReversed` | research/btc_flow/engine.py:166-167 | No print of an ordered history is refused |
| `FlowRules.ObservesExactly` | research/btc_flow/engine.py:165-179 | A print more than two seconds after the last starts the window over; any other joins the prints of the twenty seconds before it |
| `FlowRules.ConfirmedExactly` | research/btc_flow/engine.py:194-205 | The flow has turned to a long if and only if buyers took over six tenths of the last ten seconds and under half of the ten before, and nothing in the last five seconds traded below all of the ten before; mirrored for a short |
| `FlowRules.ProposesExactly` | research/btc_flow/engine.py:206-217 | An order is proposed if and only if some order joins the touch by less than a tick with the stop at the larger of a thousandth and the range, and its gain to the average covers twice the stop and thrice the costs; then it is that one |
| `FlowRules.WorthyExactly` | research/btc_flow/engine.py:180-217 | A print is worthy of a side if and only if its quote and history suffice, it lies a full range beyond the average with the trend, the flow has turned, and such an order exists; an issued signal is that order |
| `FlowRules.ResetsExactly` | research/btc_flow/engine.py:186-189 | A judged print at or above the average re-arms longs, one at or below it shorts |
| `FlowSignal.Engine.OnTrade` | research/btc_flow/engine.py:165-217 | Refuses exactly a reversed time, unchanged; otherwise the new state and signal are the model's and the window is exact |
| `FlowSignal.Engine.Observe` | research/btc_flow/engine.py:168-179 | The loop that pops old prints leaves the model's window |
| `TickTheorems.OnTradeKeeps` | research/btc_flow/engine.py:359-420 | One print keeps the target, the sizes, the cash and the sides in agreement, and leaves no resting entry under a latch |
| `TickTheorems.TargetCoversPosition` | research/btc_flow/engine.py:359-399 | In every run the target's remaining size is the open quantity, pending, target and position sides agree, and filled plus remaining is what was submitted |
| `TickTheorems.CashAndGrossExact` | research/btc_flow/engine.py:329-357 | In every run cash is the capital, the closed nets and the open position's result, and each trade's gross is what its exits sold for less what it bought |
| `TickTheorems.HaltLasts` | research/btc_flow/engine.py:394-420 | Once set, the drawdown latch is set at every later point of the run |
| `TickTheorems.HaltIsFinal` | research/btc_flow/engine.py:276-279 | No operation clears the drawdown latch, and with it no order is accepted |
| `TickTheorems.FillExact` | research/btc_flow/engine.py:231-244 | A print takes whole lots, exactly from the order: within what is left, its share of the print and what traded past the queue, and nothing unless the print reaches the limit |
| `TickTheorems.PrintsBounded` | research/btc_flow/engine.py:231-244 | Over any prints, what a resting order gets is whole lots within the order, its share of the volume that reached its limit, and that volume less the queue |
| `TickTheorems.SizeWithinLimits` | research/btc_flow/engine.py:293-296 | An accepted order is within the exposure cap, and stop plus costs on its notional are within the risk budget |
| `TickTheorems.SizingCoversStop` | research/btc_flow/engine.py:290-296 | The sizing covers the loss at the slipped stop, both fees included: always for longs, and for shorts if and only if slippage absorbs the cross terms |
| `TickTheorems.UncoveredShort` | research/btc_flow/engine.py:290-296 | When it does not, an accepted short loses more at the stop than its sizing assumed |
| `TickTheorems.PlannedLossWithinBudget` | research/btc_flow/engine.py:290-296 | An accepted order, filled in full and stopped out with slippage, loses at most the risk budget |
| `TickTheorems.StopLossExact` | research/btc_flow/engine.py:400-412 | Leaving at the slipped stop loses exactly the unit loss on the notional |
| `TickTheorems.SignalsAreSubmittable` | research/btc_flow/engine.py:206-217 | A signal the flow engine issues has a valid stop, cannot cross its quote and meets the reward test, so only the settlement window can refuse it |
| `TickRules.SubmitsExactly` | research/btc_flow/engine.py:276-305 | A signal is accepted if and only if trading is allowed, it rests passively outside the settlement window, is worth twice its stop and thrice its costs, and some whole lots are affordable; then the most of them rest behind the size shown; an out-of-range stop raises |
| `TickRules.ActivatesExactly` | research/btc_flow/engine.py:307-327 | A due order goes past its cancel time or when the quote is stale or it would cross, and otherwise rests behind the larger of its two queue estimates |
| `TickRules.ReachedExactly` | research/btc_flow/engine.py:231-237 | A print reaches a live resting order if and only if it comes from the other side at its limit or through it |
| `TickRules.EntryFillsExactly` | research/btc_flow/engine.py:366-386 | A fill opens or enlarges the position at the limit with the maker fee, and replaces the target |
| `TickRules.FillsAfterActivation` | research/btc_flow/engine.py:359-370 | A print meets the order as its own quote leaves it: it fills if and only if that order is activated and the queue rules give it something |
| `TickRules.TargetBeyond` | research/btc_flow/engine.py:381-384 | The target is the nearest tick at or beyond the average, for the whole open quantity, on the other side |
| `TickRules.ProtectsExactly` | research/btc_flow/engine.py:393-414 | With a current quote an open position is closed in full at the forced price if and only if the print is at or through its stop fraction, the hold has run out, or a limit is broken; without one the account is incomplete and halted; otherwise only its target can be filled |
| `TickRules.ForcedNeverBetter` | research/btc_flow/engine.py:405-406 | A forced exit is never better than the print or the touch |
| `TickRules.TakesTargetExactly` | research/btc_flow/engine.py:409-414 | The target is taken only by a print strictly beyond it, at its own price with the maker fee |
| `TickRules.FundingMoves` | research/btc_flow/engine.py:350-357 | Funding takes quantity * mark * rate from a long and gives it to a short |
| `TickRules.MeasuresExactly` | research/btc_flow/engine.py:387-392 | The peak rises to the equity, and each latch sets if and only if the equity is at or below its fraction |
| `TickRules.LatchedAfterPrint` | research/btc_flow/engine.py:415-420 | After every print that could be dealt with an account at or beyond a limit has its latch, and no entry rests under one |
| `TickBroker.Broker.Submit` | research/btc_flow/engine.py:276-305 | Blocked, raised, declined or accepted, with exactly the model's order |
| `TickBroker.Broker.Activate` | research/btc_flow/engine.py:307-327 | A due order is cancelled, rejected or activated at the larger queue, nothing else changes, and the invariant is kept |
| `TickTheorems.QuoteKeeps` | research/btc_flow/engine.py:449-451 | A quote event keeps the books and the invariant, and creates no order |
| `TickBroker.Broker.OnFunding` | research/btc_flow/engine.py:350-357 | Funding moves cash and the position's charge alike |
| `TickBroker.Broker.OnTrade` | research/btc_flow/engine.py:359-420 | One print leaves exactly the model's state, through day roll, activation, entry fill, limits, protective and target exits; the target covers the position, and no entry rests under a latch |

## Left out

- Floating point: all arithmetic is exact; the 1e-10 and 1e-12 thresholds and floor nudges are zero, `isclose` is equality, and the replay's -1e-5, the capacity test's 1e-10, the minute latches' 1e-8 and the constraint's 1e-9 are kept.
- Malformed and non-finite numbers: parsed prices are positive and sizes nonnegative, absent quotes are options; a parse error in the middle of a book update is not modelled.
- Calibration gate and fingerprints: whether a proposal is allowed is an arbitrary boolean.
- Venue translation in the normalizer: a receipt carries its already translated items; liquidation and bar keys, REST polls and the sampled feeds are not modelled.
- Receipts.Normalizer.FeedOne: the books are values in a map rather than objects, so sharing a book object is not captured; `OrderBook.Book` models the object itself.
- Indicators of the tick engine (ATR, averages, trend) and the features behind every signal: arbitrary inputs.
- A bid below one tick in the flow signal: the source divides by zero; the model issues no signal.
- Zero equity in the target combination: the source divides by equity; the model asks for a positive total.
- Interest, business days, the locked-risk schedule and the evening redemption's inputs in the target combination's day loop: given amounts; the day's order of calls is not modelled.
- Adverse drawdown, exposure, eligibility and attempt counters of the minute simulator, and the executor's adverse drawdown, turnover and rebalance counters: reporting only.
- The older study's `simulate`: its accounting repeats the minute simulator's; only its barrier and its signal arming are modelled.
- TickBroker.Broker.OnTrade: the open position is one record field where the source has separate scalar fields, and the event list of the tick broker is not modelled.
- Feature frames, mechanisms and the manifest checks of the replay loop; the loop's model follows the broker's clock and its early end only.
- RotationClamp.BufferExact: it is over all accounts, and its witness, coins without cash or fills, is not one a run leaves.
- Reports, statistics, bootstrap, file formats, supervision and the frontend.
