# Verified model of the XAUT paper-trading bot

A Dafny 4.11 model of the bot's position-control loop and of the state machines that feed it, with proofs of what
they guarantee over every input and every run. `dafny verify dfyconfig.toml` checks the project.

## What is modelled

The bot holds one signed position: a positive target as spot metal, a negative one as a margin short. Each tick reads
an account snapshot (possibly a cached one), reconciles a software stop, forms a signal, books the fills, updates the
loss limits, sizes a target and plans at most one action: a batch of cancellations or one order.

| Module | Component |
|---|---|
| `Planner`, `PlannerLoops`, `PlannerFacts` | the execution planner: decision function, its loops, what every plan guarantees |
| `OrderGuard`, `GuardFacts` | the exchange adapter's independent check of an order, and exactly what it lets through |
| `Protocol`, `SnapshotLimits` | runs of account refreshes, decisions, partial fills, expiries and refusals, and what they need of their snapshots |
| `Convergence`, `Reduction` | tracker and planner in a closed loop with a fixed target above or below the holding |
| `Encumbrance` | when protective stops and working orders stand in each other's way |
| `Tracker`, `TrackerTerms`, `TrackerFacts` | the trailing software stop: one observation in terms of account and book, and whole histories |
| `Ledger`, `LedgerAudit`, `LedgerHistory`, `Funding`, `FundingLife`, `LedgerDelivery` | fill accounting, its conservation laws, trades as their fills, funding, exactly-once delivery |
| `RiskManager`, `RiskHistory`, `RiskTerms`, `RiskSizing`, `StopLoss` | loss limits as a function of history, what a decision is in terms of account and market, the sizing pipeline, and the true loss of what it sizes |
| `Strategy`, `SignalTerms`, `Reentry` | signed exposure and the re-entry block; what is answered in terms of books, features and costs; when a block lifts, and when it is passed |
| `Polling` | back-off schedules with a shared pause |
| `Series`, `Basis` | ring buffer and the one-sample-a-minute basis window |
| `App`, `TickTerms`, `TickFacts`, `BotRuns`, `TickRuns`, `ExitNotes` | the tick as a function of the bot's memory, and runs of whole ticks: against an exchange, as runs of ledger, risk state and strategy, and with the reason positions are left for |
| `Domain`, `Numbers`, `Sequences` | shared values, real arithmetic with rounding, filtering and sorting |

Components that update fields are classes whose methods are proved against functions; the laws are lemmas about those
functions and about folds of them over event sequences. Beside the laws over runs, the `Terms` and `Facts` modules state
what each component does in terms of its inputs and results. Prices and quantities are reals, and the code's tolerances
(1e-6, 1e-8, 1e-9, 1e-12) appear literally. Times are nanoseconds since Go's zero time, so that 0 is the zero time,
whole days are UTC days and whole weeks are ISO weeks.

## Assumptions

- Configuration: what `config.Validate` enforces (internal/config/config.go:227-309). `Planner.Config.Scaled` adds
  what the fixed slacks need and validation does not check: distinct working and stop groups, a tolerance of at least
  1e-9, a minimum quantity above the tolerance plus 1e-9, and steps of at least 1e-12; `TickFacts.AboveTracker` adds the
  1e-8 below which the tracker takes a venue for flat. `Convergence` takes stop fractions below one.
- Fair values (internal/fairvalue/engine.go:86-95): a valid one has a positive bid and an ask no smaller; a positive
  confidence stays below a limit set by the model buffer, and below a smaller one while the routes disagree by more than
  half of what is allowed (`Reentry.Sources`).
- Exchange: a cancelled order cannot fill any more; reducing orders stop at zero (a spot sell at the wallet balance, a
  close-only margin buy at flat). The exchange may move between any two of the bot's requests, and a submission whose
  response is lost may have been placed; what the safety of runs needs in return is stated in the theorems.
- Fills arrive per request as all fills from the requested time on, with identities increasing in time.

## Where the code differs from what one might expect

Each item has a lemma at an input and a lemma with the exact condition, for all inputs.

- An account refresh asks for the wallet, the positions and the orders one after the other
  (internal/exchange/bitfinex/adapter.go:192-203). A buy that fills in between is seen neither as a holding nor as an
  order, and is bought again: `SnapshotLimits.TornRefreshOvershoots`. A snapshot lets some decision break safety if and
  only if it lets a side be opened of which it misses part of the holding, however little, or an opposite holding:
  `SnapshotLimits.MissedHoldingBreaksIff`. Runs stay safe when no opening order fills during a refresh, or when the
  orders are read before the holdings (`Protocol.Calm`).
- A submission whose response is lost returns an error although the order may rest, and the bot keeps its snapshot
  (internal/exchange/bitfinex/adapter.go:301-308, internal/app/app.go:457-460): `SnapshotLimits.LostResponseDoublesUp`.
  A second working order is possible if and only if the snapshot shows none and lets a side be pursued, past its stops
  and its opposite holding: `SnapshotLimits.UnseenOrderDoublesIff`.
- A reduction whose remainder lies above 1e-9 and within the tolerance never comes to rest: the stop is placed and
  withdrawn in turn (internal/execution/planner.go:41, internal/execution/planner.go:107). Above the tolerance but
  below the minimum it rests with the whole holding unprotected. `Reduction.ProtectionFlickers`,
  `Reduction.ReductionLeavesUnprotected`; `Reduction.ReductionRestsIff`, `Reduction.AtRestProtectedIff`, on the remainder
  that caps, step, minimum and tolerance leave of the excess.
- An opening order is withdrawn on the tick after it was placed while the venue opposite to the target holds any
  quantity at all, even dust below the tolerance that nothing will close: the order is judged against an exactly empty
  venue (internal/execution/planner.go:273-287) but planned against the tolerance (internal/execution/planner.go:72-86).
  `PlannerFacts.DustWithdrawsThePlannedOrder`, `PlannerFacts.PlannedOrderStandsIff`.
- A stop is placed beside working closing orders once the target is raised back to the holding, so that together they
  exceed it (internal/execution/planner.go:49-53): `Encumbrance.RaisedTargetOvercommits`, `Encumbrance.OvercommitsIff`.
- The planner alone withdraws stops for a reduction of the net holding only (internal/execution/planner.go:38-47), so it
  would let dust in the other venue hide a reduction: `Encumbrance.DustHidesReduction`,
  `Encumbrance.ReducesBesideStopIff`. The bot never asks it to: simultaneous holdings take the exit branch, whose flat
  target withdraws the stops first, and no tick reduces beside a stop: `TickFacts.TickReductionIsUnencumbered`.
- A hard halt without flattening plans for the net holding (internal/app/app.go:400-408). If the account reports a
  margin long or a negative spot balance, that plan can buy or short more: `TickFacts.MarginLongOpensWhileHalted`,
  `TickFacts.HaltedTickOpensIff`. The same branch serves the non-latching halt for an unsupported margin long
  (internal/risk/manager.go:133-137).
- A stop-out block is looked at only once the score is over the entry threshold (internal/strategy/engine.go:112-145),
  so it lifts only if the thesis is reset and strong at once, in a regime whose classification allows both
  (internal/regime/classifier.go:44-55). Under the defaults that is the range regime alone: a trend block waits for a
  range. `Reentry.OnlyRangeLiftsBlocks`, `Reentry.LiftsIffReleasable`; over ticks `BotRuns.OnlyRangeReopens`.
- Negative exposure caps pass validation (internal/config/config.go:255) and turn an entry on one side into exposure on
  the other, past a block: `Reentry.NegativeLongCapReenters`. Some unreleased question does so if and only if an
  attainable confidence selects a negative cap of the opposite side: `Reentry.ReentersIffNegativeCap`.
- A long armed with a stop fraction of one or more opens with a stop at or below zero, which the code takes for unset
  and may lower (internal/position/tracker.go:147-163): `TrackerFacts.WideStopFalls`, `TrackerFacts.LongRatchetsIff`.
- A trade completes when less than 1e-9 remains (internal/performance/ledger.go:174-176). The remaining quantity, its
  value and, after an overshoot, the fee on it are dropped: `LedgerAudit.NearCloseForgets`,
  `LedgerAudit.FillIsFollowedIff`. `LedgerAudit.RunConserves` counts them.
- A target scaled down to its risk budget reports the budget, but its loss at the stop shrinks in proportion only
  without inventory (internal/risk/manager.go:209-236). Adding to an inventory bought at another price, it loses more or
  less than reported, and possibly more than the open-risk cap: `StopLoss.ScaledEntryReportsTooLittle`,
  `StopLoss.ReportedRiskIsTrueLossIff`, `StopLoss.LossPassesLimitsIff`.
- A long whose stop distance reaches the whole price reports no stop risk (internal/risk/manager.go:219-223), which a
  volatility multiplier of 100 does at a volatility of 0.012: `StopLoss.WideStopReportsNoRisk`,
  `StopLoss.ReportedRiskIsTrueLossIff`.

## Model

| member | source | states |
|---|---|---|
| PlannerLoops.FilterGroup | internal/execution/planner.go:252-260 | collects exactly the orders of one group, in order |
| PlannerLoops.StaleIds | internal/execution/planner.go:54-61 | collects exactly the identities of working orders that are undated, too old or no longer support the target |
| PlannerLoops.CapChild | internal/execution/planner.go:214-239 | the running minimum is the least of the wanted quantity and every enabled cap, and 0 when nothing is wanted or there is no price |
| PlannerLoops.PlanChild | internal/execution/planner.go:169-213 | caps, rounds and prices a child, and drops it below the minimum both before and after rounding |
| PlannerLoops.PlanProtection | internal/execution/planner.go:123-155 | places, keeps or refreshes the protective stop; one out-of-date stop withdraws the whole batch |
| PlannerLoops.PlanToward | internal/execution/planner.go:69-107 | closes the other venue first, flattens inside the tolerance band, then moves toward the target, else protects |
| PlannerLoops.PlanTick | internal/execution/planner.go:34-108 | the assembled loops compute the decision function that every theorem below is about |
| PlannerFacts.RoundDownBounds | internal/execution/planner.go:289-294 | a rounded quantity is a whole number of steps and lies less than one step below the value plus 1e-12 |
| PlannerFacts.RoundPriceBounds | internal/execution/planner.go:295-303 | a rounded price is within a step, on the favourable side up to 1e-12 |
| PlannerFacts.ChildBounds | internal/execution/planner.go:201-239 | every child is a whole number of steps, at least the minimum and at most the wanted quantity; its value respects the notional, depth and volume limits up to 1e-12 of quantity; and one more step would pass the wanted quantity or a cap |
| PlannerFacts.CappedIsLeast | internal/execution/planner.go:214-239 | a child is left as much of what is wanted as the notional, the depth share and the volume share allow, limits that are not positive not counting, and no less; nothing without a want or a book |
| PlannerFacts.WorkingOrderShape | internal/execution/planner.go:69-106 | a working order is planned only when no other one is open, opens a venue only when the other is flat, never passes the goal by more than 1e-12, and only margin buys are close-only |
| PlannerFacts.ProtectiveShape | internal/execution/planner.go:123-155 | a protective order is a reducing stop in the stop group, planned only when stops are on, the tracked stop is live and none rests, for no more than the tracked quantity |
| PlannerFacts.ReductionIsUnencumbered | internal/execution/planner.go:38-67 | with one venue held, a normal reducing or closing order is planned only when no stop and no working order is outstanding |
| PlannerFacts.FreshStopIsFixpoint | internal/execution/planner.go:127-154 | the stop just placed for a position is not refreshed when the same position is planned again |
| PlannerFacts.WorkingOrderPrice | internal/execution/planner.go:240-251 | passive prices stay on their own side of the book and urgent ones inside the slippage limit, within one price step |
| PlannerFacts.ProtectiveStopIsNoLooser | internal/execution/planner.go:153-154 | the resting stop triggers no later than the tracked stop: rounding only tightens it, by less than a step |
| PlannerFacts.CancelShape | internal/execution/planner.go:38-63 | a cancellation is a non-empty ascending batch: all stops, or exactly the stale working orders |
| PlannerFacts.OpeningOrdersAreWithdrawn | internal/execution/planner.go:52-63 | when the target asks for less than is held, a working order that would open more is withdrawn, the stops before it |
| PlannerFacts.WithdrawnIffOutlived | internal/execution/planner.go:52-67 | once the stops are settled, a working order is withdrawn if and only if it is undated, older than the maximum age, or not on the venue and side that holdings and target call for; with none of those the tick waits |
| PlannerFacts.MoveInTerms | internal/execution/planner.go:69-107 | where to move: out of the venue the target does not use, and for a target inside the tolerance out of both, before the target's own venue is moved to the target; what lies within the tolerance is left |
| PlannerFacts.StopsAreRefreshedIff | internal/execution/planner.go:109-155 | while a held position is wanted no smaller, its stops are withdrawn exactly if one is off by more than two steps in size or one and a half in its level, and without any one is placed exactly if the whole steps make an order |
| PlannerFacts.NothingWithoutABook | internal/domain/types.go:54-56 | without a dated, uncrossed book of two non-empty sides nothing is planned, and only then for that reason |
| PlannerFacts.PlannedOrderStandsIff | internal/execution/planner.go:53-67 | planning again around a working order just placed keeps it if and only if the venue opposite to the target is exactly empty, and withdraws exactly it otherwise |
| PlannerFacts.DustWithdrawsThePlannedOrder | internal/execution/planner.go:269-288 | a concrete account whose short dust makes the planner withdraw its own spot purchase |
| OrderGuard.ValidateIntent | internal/exchange/bitfinex/adapter.go:415-470 | the guard's switch and loop, branch by branch, compute its verdict |
| OrderGuard.PlannedOrdersPassTheGuard | internal/exchange/bitfinex/adapter.go:415-449 | an order planned from a snapshot, with the position reconciled from it, passes every venue, side, close-only and inventory check; a reducing one can only be refused for age |
| GuardFacts.AcceptedIff | internal/exchange/bitfinex/adapter.go:415-470 | an order is accepted if and only if the snapshot is dated and young, it fits the holdings and, if it opens, the gross exposure with every known resting opening order and itself filled is within the cap; which of the three fails decides the refusal |
| Protocol.FillKeepsInvariant | internal/execution/planner.go:34-108 | an arbitrary partial fill keeps venue exclusion, the overshoot bound, the single working order and what a trusted snapshot bounds |
| Protocol.CancelKeepsInvariant | internal/app/app.go:426-441 | a complete or interrupted cancellation batch keeps the invariant |
| Protocol.PlannedOrderIsAdmissible | internal/execution/planner.go:69-106 | an order planned from a snapshot that bounds the holdings may join the book without endangering exclusion or the overshoot bound |
| Protocol.ReadKeepsInvariant | internal/exchange/bitfinex/adapter.go:185-260 | a refresh of three requests with any changes in between keeps the world safe, and yields a snapshot that bounds it when no opening order fills meanwhile or the orders are read first |
| Protocol.ActKeepsInvariant | internal/app/app.go:385-466 | one decision on such a snapshot, with any target, position, book and exchange answer, keeps the invariant; the snapshot stays good unless the response to a working order is lost |
| Protocol.EveryRunIsSafe | internal/app/app.go:279-466 | over every run whose decisions are taken on trusted snapshots the two venues are never held or being opened together, at most one working order exists, and holdings plus pending entries stay within the initial holdings and the targets orders were opened for, plus 1e-12 |
| SnapshotLimits.CalmRunsAreCareful | internal/app/app.go:300-314 | runs with calm refreshes and without lost responses only decide on trusted snapshots |
| SnapshotLimits.TornRefreshOvershoots | internal/exchange/bitfinex/adapter.go:192-203 | a concrete run: a buy that fills between the wallet and the order request is bought again |
| SnapshotLimits.MissedHoldingBreaksIff | internal/execution/planner.go:87-106 | with nothing working, whatever stops rest or are shown, a snapshot lets some decision break safety if and only if it lets a side be opened of which it misses part of what is held, or a holding in the other venue |
| SnapshotLimits.LostResponseDoublesUp | internal/app/app.go:456-463 | a concrete run: an order whose response is lost is placed again |
| SnapshotLimits.UnseenOrderDoublesIff | internal/execution/planner.go:53-67 | some decision adds a second working order if and only if the snapshot shows none and a target can be pursued: no stop without a holding of its side and no opposite holding too small to close |
| Convergence.BuildPlan | internal/execution/planner.go:34-121 | while building, a tick clears orphaned stops, then corrects protection, then adds a child |
| Convergence.FlattenPlan | internal/execution/planner.go:34-86 | while flattening, a tick clears every stop, then sells down, and never protects again |
| Convergence.BuildTickProgress | internal/execution/planner.go:34-155 | every acting tick of a build decreases the measure of three ticks per missing child plus the protective work left |
| Convergence.BuildConverges | internal/execution/planner.go:34-155 | for a fixed target and book with immediate fills a build comes to rest within the measure, covered by stops within two quantity steps and one and a half price steps of the position and its stop; unless a cap is below a minimum child, it is short by at most the tolerance or less than a minimum and a step |
| Convergence.FlattenTickProgress | internal/execution/planner.go:34-86 | every acting tick of a flattening decreases its measure and never grows the holding |
| Convergence.FlattenConverges | internal/execution/planner.go:34-86 | a flattening comes to rest within its measure with no stop left; unless a cap is below a minimum child, at most the tolerance, or less than a minimum and a step, is still held |
| Reduction.TrimPlan | internal/execution/planner.go:34-107 | above a target outside the tolerance a tick withdraws every stop, then sells down, and within the tolerance protects again |
| Reduction.SellDownEnds | internal/execution/planner.go:87-106 | selling toward a smaller target ends within its measure and never below the target |
| Reduction.SellDownLeaves | internal/execution/planner.go:169-239 | selling leaves exactly the remainder: the excess less whole-step children until none is large enough |
| Reduction.ReductionRestsIff | internal/execution/planner.go:34-155 | for every fixed target below the holding and every book the loop comes to rest if and only if the remainder, computed from the excess, the caps, the step, the minimum and the tolerance, is at most 1e-9, or above the tolerance, or no stop fits it, or the target is inside the tolerance |
| Reduction.AtRestProtectedIff | internal/execution/planner.go:38-121 | at rest, a holding that a stop would fit is protected if and only if it is at most 1e-9 above its target |
| Reduction.ProtectionFlickers | internal/execution/planner.go:123-168 | a concrete account: half a tolerance above the target a stop is placed and withdrawn |
| Reduction.ReductionLeavesUnprotected | internal/execution/planner.go:38-43 | a concrete account: a correct stop is withdrawn and nothing follows |
| Encumbrance.OvercommitsIff | internal/execution/planner.go:45-67 | for longs and shorts, a stop placed beside working closing orders exceeds the holding if and only if the target is back at the holding and the orders exceed what rounding leaves |
| Encumbrance.RaisedTargetOvercommits | internal/execution/planner.go:49-53 | a concrete account: half sold and fully stopped |
| Encumbrance.ReducesBesideStopIff | internal/execution/planner.go:156-168 | the planner called alone lets a reduction out beside a resting stop if and only if the net holding asks for none |
| Encumbrance.DustHidesReduction | internal/execution/planner.go:156-168 | a concrete input of the planner alone: a tolerance of short dust hides the sale of twice as much spot |
| Tracker.PositionTracker.Arm | internal/position/tracker.go:47-56 | stores the pending stop fraction, raised to the minimum; non-positive fractions are ignored |
| Tracker.PositionTracker.Reconcile | internal/position/tracker.go:67-132 | the step-by-step update computes the specified new state and event for every account and book |
| Tracker.PositionTracker.UpdateBestAndTrail | internal/position/tracker.go:164-196 | updates the best price and trails the stop in place |
| TrackerTerms.OthersChangeNothing | internal/position/tracker.go:67-76 | an unusable book changes nothing, and holding both venues only demands an exit |
| TrackerTerms.FlatForgets | internal/position/tracker.go:78-100 | once nothing is held the position is forgotten and reported as closed; the armed fraction and the entry reading stay exactly while an order rests that could open |
| TrackerTerms.HoldingIsTracked | internal/position/tracker.go:102-132 | what is held is tracked with its side, date, entry reading and stop order; it counts as entered unless the side was held before |
| TrackerTerms.StopOrderIsFirst | internal/position/tracker.go:244-251 | that stop order is the first resting one of the stop group |
| TrackerTerms.OpensAtCost | internal/position/tracker.go:136-146 | a position opens at the exchange's cost of a short, else at the mid, with the armed fraction but no less than the minimum, and restarts its holding time |
| TrackerTerms.AddsAtCost | internal/position/tracker.go:103-117 | adding takes the exchange's cost of a short or blends in what is added, widens the fraction to the one in force and uses the armed one up; anything else keeps all three |
| TrackerTerms.AddingTightens | internal/position/tracker.go:147-196 | after adding the stop is the old one, the initial stop of the new cost and fraction or the one trailing the best price, and no looser than the first two |
| TrackerTerms.StopChangeIsReported | internal/position/tracker.go:115-126 | a stop is reported as changed exactly if it moved by more than 1e-9, when nothing is opened or added |
| TrackerTerms.OpeningChangeIsReported | internal/position/tracker.go:121-126 | on opening it is reported exactly if it is trailed away from the initial stop at once |
| TrackerTerms.ArmingSetsFraction | internal/position/tracker.go:47-56 | arming sets the fraction in force, at least the minimum, and only that |
| TrackerTerms.NothingToTrail | internal/position/tracker.go:164-167 | without a position nothing is trailed |
| TrackerFacts.StopRatchets | internal/position/tracker.go:67-212 | over any run on one side from a live stop, with arms, contexts, adds, reductions and unusable books, the stop never loosens and the initial fraction never falls |
| TrackerFacts.LongRatchetsIff | internal/position/tracker.go:147-163 | the stop of a held long can never fall, whatever follows on its side, if and only if it is live |
| TrackerFacts.OpenedStopIsLiveIff | internal/position/tracker.go:136-146 | a position opens with a live stop unless it is a long armed with a fraction of one or more |
| TrackerFacts.WideStopFalls | internal/position/tracker.go:147-163 | a concrete long whose stop at -100 falls to -150 |
| TrackerFacts.TriggeredStopStaysTriggered | internal/position/tracker.go:198-207 | once a book has touched the stop, every later valid single-venue observation on the side at an equal or worse price demands the stop exit again |
| TrackerFacts.GrowthKeepsCost | internal/position/tracker.go:103-110 | without an exchange base price, growing keeps the cost: the old quantity at its average plus the added one at the mid |
| TrackerFacts.TrailingRefinesHistory | internal/position/tracker.go:136-196 | over any run of arms, contexts, unusable and usable observations without growth, the best price is the extreme of the entry and all mids and the stop is the tighter of the initial stop and the activated trail from that extreme |
| Ledger.FillLedger.Process | internal/performance/ledger.go:75-125 | takes the unseen fills in time order, returns the trades they close, marks the open one and leaves a recoverable state on disk |
| Ledger.FillLedger.ApplyFill | internal/performance/ledger.go:126-179 | starts, adds, partly closes, completes or reverses a trade exactly as specified |
| Ledger.FillLedger.AccrueFunding | internal/performance/ledger.go:212-226 | charges an open short for the time since the last charge |
| Ledger.FillLedger.Save | internal/performance/ledger.go:286-305 | what is written recovers the ledger with the 2000 largest seen identities |
| Ledger.FillLedger.Since | internal/performance/ledger.go:66-73 | asks from one second before the last fill, or a day back when there is none |
| LedgerAudit.FillMovesMoney | internal/performance/ledger.go:126-179 | one fill moves exactly its cash between realised gross, open cost basis and dropped residue |
| LedgerAudit.FillMovesQuantity | internal/performance/ledger.go:165-178 | the open quantity follows the fills, short of at most 1e-9 when a trade completes |
| LedgerAudit.FillMovesFees | internal/performance/ledger.go:150-171 | one fill's fee, in dollars or in metal at the fill's price, is split without loss between the trade closed and the trade opened, except the share of what overshoots a completion inside 1e-9 |
| LedgerAudit.MetalFeeIsItsValue | internal/performance/ledger.go:228-240 | a fee in metal has exactly the effect of its value in dollars on the open and the closed trade, and a first fill's trade is charged exactly that |
| LedgerAudit.FillKeepsBalance | internal/performance/ledger.go:126-210 | one fill keeps the open trade's entries, exits and gross in balance and settles any trade it closes |
| LedgerAudit.EveryTradeSettles | internal/performance/ledger.go:126-210 | over every run each closed trade has exits equal to entries up to 1e-9, gross equal to exit against entry notional, net equal to gross less fees and funding, and the R multiple equal to net over the initial risk |
| LedgerAudit.RunConserves | internal/performance/ledger.go:75-210 | over every run money, quantity and fees, the dollar fees plus each metal fee at its fill's price, balance exactly once the residue of completed trades is counted, at most 1e-9 of quantity per closed trade |
| LedgerAudit.WholeLotsConserve | internal/performance/ledger.go:75-210 | with lots larger than 1e-9 nothing is dropped and the three balances are exact |
| LedgerAudit.WholeLotsSettleInFull | internal/performance/ledger.go:126-210 | with such lots every trade a run closes has exits equal to entries and gross exactly exit against entry notional |
| LedgerAudit.FillIsFollowedIff | internal/performance/ledger.go:165-178 | the open quantity follows a fill exactly if and only if it does not leave or overshoot a position by at most 1e-9 short of flat |
| LedgerAudit.NearCloseForgets | internal/performance/ledger.go:174-176 | a concrete run: half a billionth is forgotten |
| LedgerAudit.ProcessIsARun | internal/performance/ledger.go:75-125 | a call of Process is such a run: its sorted fills, then a mark |
| LedgerHistory.TradesAreTheirFills | internal/performance/ledger.go:126-210 | over every run the open trade and every closed one have the identity, side, entry time and stop of their first fill, the quantity and initial risk of exactly the fills that entered them, and the excursions of the marks they lived through |
| LedgerHistory.LastFillIsTheLatest | internal/performance/ledger.go:66-95 | the time from which fills are asked for again is that of the latest fill taken, in whatever order they came |
| Funding.FillsLeaveFundingAlone | internal/performance/ledger.go:126-187 | only accrual moves a trade's funding; a new trade starts at its own fill with none |
| Funding.AccrualTilesTime | internal/performance/ledger.go:212-226 | at a constant size the charged intervals lie end to end from the last charge on, the funding is the sum of their charges and never falls, and longs are never charged |
| Funding.UndatedIsOnlyDated | internal/performance/ledger.go:216-219 | the first accrual of an undated short only dates it |
| FundingLife.FundingCoversTheLife | internal/performance/ledger.go:75-226 | over every run of fills and marks, through adds, partial closes and reversals, the charges the run made to a trade, each at the size then held, cover exactly entry to last charge and sum to its funding, which is never negative; longs carry none; so for the open trade and, with the charges recorded until it closed, every closed one |
| Funding.ConstantRateTelescopes | internal/performance/ledger.go:212-226 | at a constant short size, price and positive rate the funding depends on the end points alone, however ticks and late fills divide the time |
| LedgerDelivery.ApplyIgnoresContext | internal/performance/ledger.go:126-210 | what a fill does to the accounting does not depend on the tick's context or on accrued funding |
| LedgerDelivery.SortedBatchIsTheSlice | internal/performance/ledger.go:78 | a batch with distinct times has one time order, whatever order it arrived in |
| LedgerDelivery.NewestCoversRequests | internal/performance/ledger.go:286-295 | keeping the 2000 newest identities remembers every fill that can be asked for again, when at most 2000 lie in the requested second |
| LedgerDelivery.SavedIsBounded | internal/performance/ledger.go:286-295 | what is saved remembers every identity up to 2000, and else exactly the 2000 largest |
| LedgerDelivery.DeliveredExactlyOnce | internal/performance/ledger.go:66-105 | any overlapping batches and restarts yield the same open and closed trades as one pass over the delivered stream |
| LedgerDelivery.DeliveredFromEmpty | internal/performance/ledger.go:66-105 | in particular from an empty ledger |
| LedgerDelivery.ProcessedExactlyOnce | internal/performance/ledger.go:66-125 | calls of Process on overlapping batches, each in any order, and restarts from disk leave an empty ledger with the accounting of one pass over the fills delivered |
| RiskManager.Manager.ObserveEquity | internal/risk/manager.go:48-96 | anchors the day and week, raises the high-water mark and latches the halt |
| RiskManager.Manager.RecordClosedTrade | internal/risk/manager.go:97-110 | counts the streak and latches the halt when it reaches its limit |
| RiskManager.Manager.PendingOpeningQuantity | internal/risk/manager.go:261-271 | sums exactly the pending opening quantities |
| RiskManager.Manager.LeastPositive | internal/risk/manager.go:273-284 | the least non-negative value, or 0 when there is none |
| RiskManager.Manager.SizeTarget | internal/risk/manager.go:181-236 | the reassigned notional, quantity and risk are those of the sizing function |
| RiskManager.Manager.Evaluate | internal/risk/manager.go:112-259 | every refusal, the hold branch and the sized branch give the specified decision |
| RiskHistory.StateIsHistory | internal/risk/manager.go:48-110 | the high-water mark is the greatest valid equity, the anchors the first valid equity of the current day and week, and the streak the losses since the last win |
| RiskHistory.HaltedIffBreached | internal/risk/manager.go:72-110 | the latch is set if and only if some valid equity so far was down on the day's or week's anchor or on the high-water mark by its limit, or some streak reached its own |
| RiskHistory.HaltNeverClears | internal/risk/manager.go:72-110 | no continuation of a run clears the latch |
| RiskHistory.UnhaltedIsInside | internal/risk/manager.go:72-110 | while the latch is open the last valid equity is strictly inside all three limits and the streak below its own |
| RiskTerms.RefusedUnlessConsidered | internal/risk/manager.go:112-140 | what forbids a decision and which of it halts and flattens; a refusal has an empty target |
| RiskTerms.ConsideredIsAllowedIff | internal/risk/manager.go:160-248 | a reading that nothing forbids is allowed if and only if entries are off or the holding is within the gross cap, with and without the orders that could still open |
| RiskTerms.HoldsWhatIsHeld | internal/risk/manager.go:160-170 | while entries are off the target is the net holding at its value and the tracked stop |
| RiskTerms.ThrottleFollowsDayLoss | internal/risk/manager.go:141-158 | the throttle is one below the first soft loss of the day, the first throttle from there to the second, and the second beyond; the equity in use is the account's, up to the capital base |
| RiskTerms.SizeFollowsCaps | internal/risk/manager.go:171-236 | an allowed target has the size of the least of the throttled exposure and, for more than is held, the throttled budget over the stop distance, the depth share and the gross cap, or none below the minimum notional, times the scale its risk leaves; with the budget, the stop distance and the stop price in force |
| RiskTerms.LeastPositiveInTerms | internal/risk/manager.go:273-284 | the least of the values that are not negative, or zero if all are |
| RiskSizing.TargetIsSound | internal/risk/manager.go:171-258 | quantity times fair price is the notional on the desired side, within the throttled exposure and the gross cap; an entry respects the liquidity cap, its notional times the stop distance the budget, and its reported risk the budget and the open-risk cap; current and pending exposure are within the cap plus 1e-6 |
| RiskSizing.TargetInMarketTerms | internal/risk/manager.go:171-254 | the reported exposure times the equity in use is the signed notional, and an entry takes at most its share of the quoted depth |
| StopLoss.ScaledEntryIsBlend | internal/risk/manager.go:210-218 | scaling into a position values it at cost; not growing keeps its average |
| RiskSizing.ReductionNeverGrows | internal/risk/manager.go:183-200 | a reduction asks for strictly less of the held side, or for nothing |
| StopLoss.ReportedRiskIsTrueLossIff | internal/risk/manager.go:201-236 | for every allowed target and whatever is held, the reported risk is the loss at the stop if and only if the stop of a wanted long does not vanish and the target is not both scaled down and added to an inventory bought at another price; it is too small exactly for a vanished stop or an inventory under water |
| StopLoss.TrueLossOfTarget | internal/risk/manager.go:201-224 | the loss of an allowed target is that of the inventory it keeps plus its notional times the stop distance; an entry passes its budget by at most what the inventory has lost already, and from flat never |
| StopLoss.LossPassesLimitsIff | internal/risk/manager.go:225-236 | the loss of an entry passes the open-risk cap, or its budget, exactly when the report is too small and the loss foreseen from the unscaled target, its scale and the inventory passes it |
| StopLoss.ScaledEntryReportsTooLittle | internal/risk/manager.go:231-236 | two concrete accounts: 60 is reported where more than 61, and more than the cap of 150, can be lost |
| StopLoss.WideStopReportsNoRisk | internal/risk/manager.go:219-223 | a concrete allowed long, under a volatility multiplier that validation accepts, that can lose 60 and reports nothing |
| Strategy.Engine.MarkStopped | internal/strategy/engine.go:38-46 | blocks the stopped direction from the given time |
| Strategy.Engine.ReentryBlocked | internal/strategy/engine.go:189-210 | answers whether a direction is blocked and clears the block only after cooldown and thesis reset |
| Strategy.Engine.Ask | internal/strategy/engine.go:48-173 | the branch-by-branch signal and the figures beside it are the specified ones |
| Strategy.BlockPersists | internal/strategy/engine.go:189-210 | a block survives everything but a releasing question |
| Strategy.NewExposureIsCapped | internal/strategy/engine.go:112-173 | a flat account is answered with nothing or with exposure between zero and the cap of the side entered |
| Strategy.StrongerScoreNeverShrinks | internal/strategy/engine.go:124-166 | a stronger score and a higher confidence never shrink an entry under the same cap, of either sign |
| Strategy.ExposureIsPaidFor | internal/strategy/engine.go:92-166 | a flat account is given exposure only if the reported edge is at least the minimum, and that edge is the reported move less the uncertainty and, for a short, the buffer and a known funding |
| SignalTerms.ExposureAnswered | internal/strategy/engine.go:48-173 | the exposure answered in every case: what is held, nothing, or the size of a side whose threshold the weighted score is over, that is not shut out and affordable |
| SignalTerms.EntriesOffIff | internal/strategy/engine.go:48-143 | entries are off exactly outside the tradable regimes, without enough confidence, and for a side called but shut out or of unknown funding |
| SignalTerms.TakenIffAffordable | internal/strategy/engine.go:92-187 | an entry that is called and not shut out is taken if and only if the fair bid exceeds the direct ask, or the direct bid the fair ask, by every cost, or the trend promises as much, and a short's funding is known and within its share; the move reported is that quotient |
| SignalTerms.ExposureIsInTheBooks | internal/strategy/engine.go:92-187 | so outside the trend regime a flat account is only given exposure the two books pay for |
| SignalTerms.FiguresReported | internal/strategy/engine.go:48-56 | the score reported is the weighted one and the confidence that of the fair value scaled by it |
| SignalTerms.StopBlocksItsSide | internal/strategy/engine.go:38-46 | a stop-out blocks the side it stopped from its time on, and no other |
| SignalTerms.QuestionLiftsIff | internal/strategy/engine.go:112-210 | a question lifts a block exactly if it calls its side and that is no longer shut out |
| Reentry.NoReentryBeforeRelease | internal/strategy/engine.go:112-210 | until one question satisfies cooldown and thesis reset, a flat or opposite position is never answered with exposure in the stopped direction, unless a negative cap of the opposite side can be in force |
| Reentry.ReentersIffNegativeCap | internal/strategy/engine.go:124-166 | some unreleased question is answered with exposure on the blocked side if and only if an attainable confidence selects a negative cap of the other side with a positive strength |
| Reentry.NegativeLongCapReenters | internal/strategy/engine.go:124-130 | under a negative long cap some question enters a blocked short |
| Reentry.LiftsIffReleasable | internal/strategy/engine.go:112-210 | a block can lift in a regime if and only if a reset thesis passes the classifier's conditions for it and its strongest score reaches the entry threshold with enough confidence |
| Reentry.OnlyRangeLiftsBlocks | internal/regime/classifier.go:44-55 | under the defaults a block lifts in the range regime and in no other |
| Reentry.NoReentryWithoutLiftable | internal/strategy/engine.go:112-210 | while only regimes that lift no block are asked about, a flat or opposite position is never answered with exposure in the stopped direction |
| Polling.PollSchedule.Fail | internal/app/polling.go:32-50 | grows the back-off from its floor, doubling up to five minutes |
| Polling.PublicFeeds.TradesForTick | internal/app/polling.go:52-69 | calls the trades endpoint only when due and not paused, reschedules from the answer, and serves the fresh trades or else the cached ones |
| Polling.PublicFeeds.FundingForTick | internal/app/polling.go:71-91 | the same for the funding ticker, whose first refusal is served as an invalid rate |
| Polling.BackoffDoubles | internal/app/polling.go:32-50 | k failures of one kind give min(5m, floor * 2^(k-1)), the floor being the interval, at least a second and a minute for a rate limit, and the next call waits that long |
| Polling.StartsAtOnce | internal/app/polling.go:11-50 | both streams start due and with their back-off at its floor |
| Polling.CallsAreSpaced | internal/app/polling.go:23-91 | two calls of one stream are at least min(interval, 5m) apart over every run |
| Polling.RateLimitPausesBoth | internal/app/polling.go:52-97 | after a rate-limited call neither stream calls before its retry time |
| Polling.RateLimitPausesAMinute | internal/app/polling.go:32-97 | that pause is at least a minute |
| Polling.OnlyRateLimitsPause | internal/app/polling.go:52-97 | nothing else pauses a stream |
| Polling.DueAfterData | internal/app/polling.go:23-69 | after an answer with data a stream calls again exactly from its interval on, unless paused, and its back-off starts anew |
| Polling.ServedIsLastFetched | internal/app/polling.go:71-91 | the funding rate served is the last one fetched, or before any an invalid one dated by the first refusal |
| Series.Window.Add | internal/series/window.go:19-26 | appends to the stored samples and drops the oldest once full |
| Series.Window.Values | internal/series/window.go:35-45 | copies the stored samples oldest first |
| Series.Window.Last | internal/series/window.go:47-56 | the newest stored sample, if any |
| Basis.Engine.Update | internal/features/engine.go:82-91 | adds a live sample only in a new minute and keeps ring, times and sources aligned |
| Basis.Engine.SeedBasis | internal/features/basis_state.go:35-70 | refills the window with the last supplied sample of each minute in range, in time order, newest window's worth |
| Basis.Engine.BasisSamples | internal/features/basis_state.go:72-87 | returns exactly the window's samples |
| Basis.RingHoldsTheLast | internal/series/window.go:19-45 | after any additions the ring holds the last min(n, capacity) of them in order |
| Basis.UpdatesKeepForm | internal/features/engine.go:82-91 | any run of updates stays minute-aligned, strictly increasing and within capacity |
| Basis.UpdatesSampleNewMinutes | internal/features/engine.go:82-91 | any run of updates leaves the newest of the live samples with which its ticks entered new minutes |
| Basis.SeedingOwnSamplesIsIdentity | internal/features/basis_state.go:35-87 | seeding a window from its own in-range samples changes nothing |
| Basis.SeededKeepsTheNewest | internal/features/basis_state.go:33-70 | a seeded window holds only the last supplied samples of minutes in range, and leaves out only older ones, and those only when full |
| Basis.MergeBasisSamples | internal/app/app.go:243-255 | the map-updating loop computes the specified merge |
| Basis.MergeKeepsLive | internal/app/app.go:243-255 | after merging a minute is live if and only if it was live before or a supplied sample of it is live |
| Basis.MergeKeepsTheLast | internal/app/app.go:243-255 | a merged minute holds the last live sample supplied, else a live one from before, else the last supplied, else what was there |
| App.Bot.RefreshAccount | internal/app/app.go:300-314 | refreshes a missing or due snapshot and its time; a failed refresh changes nothing and stops the tick |
| App.Bot.ConsumeFills | internal/app/app.go:351-368 | the whole new memory: ledger, risk state, re-entry marks and exit note after the fills in time order |
| App.Bot.Assess | internal/app/app.go:319-379 | reconcile, signal, fills and equity all precede the risk decision, which is taken on the resulting memory |
| App.Bot.PlanAction | internal/app/app.go:385-411 | takes the exit, halt-flatten, entries-blocked or target branch |
| App.Bot.Execute | internal/app/app.go:426-466 | at most one batch or order goes out, only past pacing and guard; the whole new memory is the specified one |
| App.Bot.Tick | internal/app/app.go:279-466 | a tick's whole new memory and report are the specified functions of the old memory and the answers from outside |
| TickFacts.HaltedTicksNeverOpen | internal/app/app.go:337-411 | a latched halt survives a tick and refuses its decision, also when the tick's own fills or equity latch it, and no opening order is planned or submitted on supported holdings |
| TickTerms.AccountIsYoung | internal/app/app.go:300-314 | a tick works on an account fetched now or younger than the refresh interval, or ends with its memory as it was |
| TickTerms.PlanFollowsBranch | internal/app/app.go:385-411 | an exit or flattening halt only plans urgent reductions; while entries are blocked every working order is withdrawn first |
| TickTerms.SentIff | internal/app/app.go:426-466 | an order goes out exactly if orders are on, the interval has passed and the guard accepts it; batches as far as the exchange lets them |
| TickTerms.DoneIsRemembered | internal/app/app.go:426-466 | what a tick remembers of its action: submission time, dropped account, armed stop and entry reading |
| TickFacts.HaltedTickNeverOpens | internal/app/app.go:387-411 | no branch of a halted tick plans an opening order unless the account holds what the bot never takes |
| TickFacts.HaltedTickOpensIff | internal/app/app.go:400-408 | a halted tick that does not flatten can open a position if and only if the account's margin long or negative spot rounds to an order |
| TickFacts.MarginLongOpensWhileHalted | internal/app/app.go:400-408 | a concrete account for which it does |
| TickFacts.FinalLossHalts | internal/risk/manager.go:97-110 | the losing trades that complete the streak leave the state halted |
| TickFacts.PlanOpensOnlyTheTarget | internal/app/app.go:385-411 | whatever branch is taken, a plan opens only toward an allowed target, on supported holdings |
| TickFacts.TickOrdersPassTheGuard | internal/exchange/bitfinex/adapter.go:415-449 | whatever branch is taken, an order planned with the position reconciled from the same single-venue snapshot can only be refused for age or gross exposure |
| TickFacts.TickReductionIsUnencumbered | internal/app/app.go:319-411 | on any two supported holdings a tick plans a normal reducing or closing order only when no stop and no working order rests |
| BotRuns.MomentIsProtocolRun | internal/app/app.go:300-466 | a whole tick against an exchange is a refresh and a decision of the protocol: it keeps the cached account equal to the protocol's snapshot and changes the orders exactly as the reported action says |
| BotRuns.BotRunsAreSafe | internal/app/app.go:279-466 | over every run of whole ticks from a fresh start whose decisions are taken on trusted snapshots the venues stay exclusive, at most one working order exists, and holdings plus pending entries stay within the initial holdings and the allowed targets, plus 1e-12 |
| BotRuns.CalmBotRunsAreSafe | internal/app/app.go:300-463 | in particular over runs of ticks in which no opening order fills during a due refresh and no response is lost |
| BotRuns.SubmissionsAreSpaced | internal/app/app.go:448-463 | over every run, any two acknowledged submissions are at least the minimum interval apart |
| BotRuns.HaltHoldsForever | internal/app/app.go:337-411 | once the halt is latched no later tick of any run plans an opening order, however its submission fares, on an account without margin long and negative spot |
| BotRuns.TickIsStrategyRun | internal/app/app.go:319-368 | a tick moves the re-entry blocks exactly as its stop exit, its question and its stopped-out trades do |
| TickRuns.TickIsLedgerRun | internal/app/app.go:351-361 | a tick moves the ledger exactly as its fills, at the tracked stop, the funding rate in force and the exit note, and a mark at the mid do, and closes the same trades |
| TickRuns.RunIsLedgerRun | internal/app/app.go:351-361 | so over every run of ticks the ledger is that of a run of fills and marks |
| TickRuns.RunIsRiskRun | internal/app/app.go:351-377 | over every run of ticks the risk state is that of the trades closed and the equity seen, and it is halted if and only if one of them breached a limit |
| ExitNotes.NoteIsTheLastCause | internal/app/app.go:326-398 | over every run of ticks the note of a stop exit holds if and only if the last of all tracker exits, closed trades, closes or reversals chosen by the signal and flattening halts was a stop exit |
| ExitNotes.StoppedOutIff | internal/performance/ledger.go:75-125 | a closed trade counts as stopped out exactly if the position was last left by a stop exit, or else only if a stop order's fill closed it |
| BotRuns.BlockedSideIsNotReopened | internal/strategy/engine.go:189-210 | over every run of ticks, until one question satisfies cooldown and thesis reset, no tick plans an order that opens the stopped side while the account holds nothing on it, unless a negative cap of the opposite side can be in force |
| BotRuns.BlockOutlastsTicks | internal/strategy/engine.go:112-210 | over every run of plausible ticks in regimes that lift no block, no tick plans an order that opens the stopped side, whatever time passes and however the thesis resets |
| BotRuns.OnlyRangeReopens | internal/regime/classifier.go:44-55 | in particular, under the default strategy a stopped side is not opened again before a tick in the range regime |

## Left out

- PlannerFacts.ReductionIsUnencumbered: for a single-venue holding; `TickFacts.TickReductionIsUnencumbered` has no such limit, and `Encumbrance.ReducesBesideStopIff` gives the planner's exact condition for any two holdings.
- Protocol.EveryRunIsSafe: for runs whose decisions are taken on trusted snapshots; `SnapshotLimits` shows that safety fails otherwise.
- Convergence.BuildConverges: takes the ticks' target as fixed, so exits demanded by the tracker during the build, submission pacing, partial fills and rejected orders are not part of it; the same holds of `Reduction`.
- TrackerFacts.StopRatchets: starts from a positive stop; `TrackerFacts.LongRatchetsIff` shows that a long needs one.
- LedgerDelivery.DeliveredExactlyOnce: compares everything but funding, excursions, initial risk and exit reason, which depend on when and in which context fills are booked.
- Reentry.NoReentryBeforeRelease: where a negative cap of the opposite side can be in force, `Reentry.ReentersIffNegativeCap` shows that some question re-enters.
- Reentry.LiftsIffReleasable: features are taken in the combinations their formulas and the classifier allow, not as the outcome of a particular price history.
- Basis.Engine.Update: called with a usable book and fair value after the first minute of the clock; the two slices are values reassigned by the method, so shifting within their backing arrays is not captured.
- App.Bot.Tick: books, trades, funding and the account are inputs; persistence errors, which end a tick early, and the published status do not occur.
- The exchange SDK, WebSocket and REST parsing, credentials and paper-account verification: foreign calls.
- File formats, temporary-file renames and the migration of older ledger states: persistence is the state it recovers.
- Journal, logging, HTTP monitor, diagnostics and reason strings: no control flow depends on them beyond whether an exit is a stop.
- Regime classification and fair-value blending beyond the conditions in `Reentry.Plausible`, trend, volatility and standard deviation: their outputs are arbitrary inputs here.
- Floating-point rounding, NaN and infinities: quantities are reals.
- Saturation of time differences beyond 292 years: differences are exact.
- Mutexes: the orchestration loop is single-threaded and its ticks are atomic but for the exchange's own changes.
