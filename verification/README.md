# PerpMirror: verified model

PerpMirror keeps each follower account's perpetual positions at targets derived from a leader account. This project
models the parts that decide and act, in Dafny, and proves what they keep over whole runs, over every exchange
behaviour, over every interleaving and over every crash:

- **The reconcile engine** (`Models`, `Exchange`, `Risk`, `Executor`, `Reconciler`): lot arithmetic, the exchange as a
  step semantics, the risk check, at most one order per call, and the retry loop. A run is a function of what it reads:
  the market, one answer per order (rejection, loss, or any partial fill, acknowledged or not), the other symbols'
  positions at each portfolio read, and the clock. The classes `FakeExchange`, `ExecutionEngine` and `Reconciler` change
  their fields as the program does and are proved equal to those functions; the theorems are about the functions.
- **Theorems about runs**: `Motion` and `RunSafety` (no overshoot, flips only through flat, conservation, bounded
  submissions), `RunResults` and `Receipts` (truthful reports, stable success, suppression, which runs list all their
  orders), `Cooldown` (retry rate), `RiskOff` and `RiskLimits` (the risk limits), `ChunkedClose` (orders above the
  exchange's cap), `Convergence` (partial fills on the target's side), `Exits` (when a close or a flip can succeed),
  `CappedOrders` (opening, adding, reducing and flipping above that cap), `Endings` (reports, cooldown entries and what
  they do to the next call), `Submissions` (how orders are addressed, what a dry run foretells), `Examples` (concrete
  runs), `Tracking` with `Calculator` (whole portfolios).
- **Concurrency** (`Portfolio`, `Permits`): the runs of one follower as tasks that interleave at every await.
- **Symbol ownership** (`Ownership`, `Cycles`): the persisted books, and a machine that stops at every effect of a
  start-up or a reconcile cycle and may crash or be interfered with there.
- **The program's cycle** (`Gather`, `Rounds`, `RoundTraces`, `App`): what a cycle must do with its followers, in any
  schedule of their runs; that every such cycle is a trace of the machine; and the program's own code, proved to do it.
- **What a cycle plans and writes down** (`Plans`, `CyclePlans`): symbol by symbol, from the books and positions the
  cycle begins with, and over histories of cycles.
- **The trigger coalescer** (`Coalescer`): an event-loop protocol as interleaved steps.

Decimals are exact reals. `hide` statements only keep definitions out of proofs that do not need them.

What the proofs bring to light:

- With k permits the limits on total notional and open symbols can be passed by k - 1 orders and k - 1 symbols, because
  the portfolio is read before other runs' orders are placed, and by no more (`ConcurrentRunsStayBounded`). The bound is
  reached for every k, and for those accounts the plain limits hold if and only if there is at most one permit
  (`BoundsAreReached`, `PlainLimitsNeedOnePermit`).
- "Wait until flat" holds in the form: flat in one cycle and held again in a later one, before any trade. A symbol that
  is already managed is also reconciled in cycles in which the leader is flat; that is how it is closed.
- The retry-rate bound needs a drift tolerance of at least zero: with a negative one no target is "the same" as the
  failed one, and nothing is ever suppressed (`OwnFailureSuppresses`). A negative retry count makes a run return without
  a single attempt.
- Partial fills converge toward a target on the same side, but never to flat: without a complete fill no close succeeds,
  whatever the retries (`PartialFillsNeverClose`), and a flip ends on its old side (`UnfinishedFlipFails`). The exact
  conditions are `CloseSucceedsExactly` and `FlipSucceedsExactly`. A position above the exchange's limit per order is
  closed in several orders, but never flipped in one run.
- A flat account opens whatever the drift tolerance is; hence the starting condition of `PartialFillsConverge`.
- Of the runs that return, exactly two kinds do not list all their orders: a risk block after earlier orders of the run,
  and a failure after an order of the last attempt, be it that order's own or, in a flip, the opening order's
  (`ReceiptsAreCompleteExactly`; `RiskBlockLosesReceipt` and `FailedFlipLosesReceipt` are such runs). A flip that is
  stopped because its old side is not flat, or its new side is blocked, does list its closing order. Conservation is
  therefore stated over what the exchange booked.
- A risk block, or a stopped flip, reports as previous notional the one its own attempt found. After earlier orders of
  the run that is not what the run began with (`ReportsIdentify`).
- The risk check sees the whole gap, not the order that the exchange's cap leaves of it: a target that takes several
  capped orders needs a limit per order that covers all of them (`DecisionIsFirstViolation`, `CappedOrdersAreExact`).
- A target with a side but nothing wanted on it closes the position and is reported as REDUCE or FLIP
  (`ReportedActionAgrees`).
- The loader does not compare the blocked leader symbols with the managed ones. That they are disjoint is a property of
  the history (`OperationsKeepPartition`, `TraceKeepsSound`); for a file of the older version it is exactly the condition
  under which the machine's guarantees begin (`MigratedBooksAreSound`).

## Model

| member | source | states |
|---|---|---|
| Models.Instrument.RoundDown | perpmirror/models.py:60-64 | the floored quantity brackets the magnitude from below within one step |
| Models.FloorIsGreatestMultiple | perpmirror/models.py:60-64 | the floored quantity is the largest whole number of lots not above the magnitude, in both directions |
| Models.FloorIdempotent | perpmirror/models.py:60-64 | flooring twice is flooring once |
| Models.FloorMonotone | perpmirror/models.py:60-64 | flooring preserves order |
| Models.NotionalRoundTrip | perpmirror/models.py:51-58 | an order can be sized if and only if price, step and contract size are positive; sizing a notional and pricing the quantity never gains and loses less than one lot |
| Exchange.PlaceFacts | perpmirror/fake/exchange.py:87-137 | one order moves the signed position by exactly its booked fill, within its side and quantity; reduce-only never grows or turns a position; a refusal changes nothing |
| Exchange.PlaceKeepsAlignment | perpmirror/fake/exchange.py:94-107 | whole lots stay whole lots, whatever part fills |
| Exchange.LostAnswersMoveTheSame | perpmirror/fake/exchange.py:87-137 | a lost answer changes nothing about the fill, and what is on record is the answer that was lost |
| Exchange.FakeExchange.PrepareOrder | perpmirror/execution/executor.py:83-85 | a margin mode or leverage that cannot be set is an error before any order |
| Exchange.FakeExchange.PlaceMarketOrder | perpmirror/fake/exchange.py:87-137 | the account's positions, orders and recorded results after one order, a timeout after the fill included |
| Risk.DecisionIsFirstViolation | perpmirror/risk/manager.py:22-52 | any violated rule blocks an increase and the reported rule is the first one violated, so it is allowed if and only if none is; reductions are only stopped by a kill switch that forbids them too |
| Risk.CurrentTotal | perpmirror/risk/manager.py:43 | adding up position by position gives the portfolio's total in any order |
| Risk.CheckPortfolio | perpmirror/risk/manager.py:14-52 | the check on a portfolio is the branch chain on its total and its number of open symbols |
| Risk.PortfolioTotal | perpmirror/risk/manager.py:43-45 | one symbol's share can be taken out of the total and replaced, which is what the projected total does |
| Executor.DeltaQuantityFacts | perpmirror/execution/executor.py:40-51 | an accepted quantity is positive, meets the minimum, respects the position and the cap, and is worth at most the order and, if it adds, at least the exchange's minimum |
| Executor.DeltaQuantityIsGreatest | perpmirror/execution/executor.py:40-51 | an order is sized if and only if some quantity is paid for, owned, within the cap and above the minimums, and then to the greatest such quantity: above the cap it is cut down, not refused |
| Executor.SubmitFacts | perpmirror/execution/executor.py:86-97 | exactly one submission whatever the answer; a returned receipt means an acknowledged, non-zero fill |
| Executor.ExecutionEngine.Send | perpmirror/execution/executor.py:86-97 | a timeout is resolved by one lookup and never by a second order |
| Executor.ExecutionEngine.Delta | perpmirror/execution/executor.py:30-97 | the successive clamps and minimums, and a failing setter, on the account agree with the specification; other symbols untouched |
| Executor.ExecutionEngine.CloseOut | perpmirror/execution/executor.py:99-131 | a close is one reduce-only order cut down to the exchange's cap; other symbols untouched |
| Reconciler.Reconciler.PerformAction | perpmirror/copy/reconciler.py:223-296 | one action on the account does what its specification says to position, orders and outcome |
| Reconciler.Reconciler.OpenNewSide | perpmirror/copy/reconciler.py:241-273 | a flip opens its new side only from a verified flat position and after a fresh risk check |
| Reconciler.Reconciler.StartFailureCooldown | perpmirror/copy/reconciler.py:188-205 | the entry a failure leaves, and none when the cooldown is not positive |
| Reconciler.Reconciler.ReconcileTarget | perpmirror/copy/reconciler.py:74-186 | the retry loop on the account refines the specified run: result, positions, orders and cooldown table; other symbols and other keys untouched |
| Motion.IncreaseMoves | perpmirror/execution/executor.py:40-97 | an increasing order moves away from flat on the target's side by at most the notional asked for |
| Motion.ReduceMoves | perpmirror/execution/executor.py:42-60 | a reducing order moves toward flat by at most the notional asked for and never past it |
| Motion.CloseMoves | perpmirror/execution/executor.py:99-131 | a closing order takes a positive part of the position, at most all of it, toward flat |
| RunSafety.RunIsSafe | perpmirror/copy/reconciler.py:74-296 | for every script, interference, clock and cooldown entry: every order approaches the target without passing it or flat, and a run is close*, reduce*, increase*, or one close and then increase* |
| RunSafety.RunNeverOvershoots | perpmirror/copy/reconciler.py:61-186 | the position ends between where it was and the target, changes side only through flat, and moves by exactly the sum of the fills, lost acknowledgements included |
| RunSafety.JourneyStopsAtGoal | perpmirror/copy/reconciler.py:61-72 | orders that each approach the target never overshoot it together |
| RunSafety.SidesChangeThroughFlat | perpmirror/copy/reconciler.py:231-273 | a run that ends on the other side stood flat after one of its orders |
| RunSafety.FillsAreConserved | perpmirror/fake/exchange.py:97-107 | final position equals initial position plus the fills on the exchange; whole lots stay whole lots |
| RunSafety.UnlandedOrderEndsRun | perpmirror/execution/executor.py:88-97 | a refused, unfilled or unresolved order is the run's last one, the run does not report success, and client order ids are never reused |
| RunSafety.SubmissionsAreBounded | perpmirror/copy/reconciler.py:80-173 | at most one order per attempt, and one more only in a run that closes once and then increases |
| RunResults.ReportIsTruthful | perpmirror/copy/reconciler.py:104-186 | the reported final notional is the position's, a live success classifies NOOP, and a cooldown entry is left only by an unsuccessful failure or risk block |
| RunResults.SuccessIsStable | perpmirror/copy/reconciler.py:82-114 | after a live success the same target submits nothing, reports NOOP and leaves no cooldown entry |
| RunResults.SuppressedExactly | perpmirror/copy/reconciler.py:83-103 | a call is suppressed if and only if it is an OPEN or ADD for the same target strictly before the deadline; suppression neither extends nor re-anchors the entry |
| RunResults.DryRunTradesNothing | perpmirror/copy/reconciler.py:160-171 | a dry run submits nothing and moves nothing |
| Receipts.SuccessfulRunListsItsOrders | perpmirror/copy/reconciler.py:158-186 | a live success lists every order it submitted, each with its id and exactly what it filled, also where the acknowledgement was lost |
| Receipts.ReceiptsAreCompleteExactly | perpmirror/copy/reconciler.py:115-186 | a run that returns lists all its orders if and only if it did not end in a risk block after earlier orders or in a failure after an order of its last attempt |
| Receipts.ReportedActionAgrees | perpmirror/copy/reconciler.py:323-333 | the action a live success with orders reports is the one it first classified if and only if the target is flat or wants something; otherwise a CLOSE is reported as REDUCE or FLIP |
| Examples.RiskBlockLosesReceipt | perpmirror/copy/reconciler.py:145-157 | a partly filled opening whose rest is below the minimum order ends in a risk block that lists no order |
| Examples.FailedFlipLosesReceipt | perpmirror/copy/reconciler.py:269-273 | a flip whose new side is below one lot ends in a failure that lists no order, with its old side closed |
| Examples.HalfFillsNeverClose | perpmirror/fake/exchange.py:93 | ten lots against half fills are not closed by any number of retries |
| Examples.CappedOpenTakesThreeOrders | perpmirror/execution/executor.py:44-46 | an opening for 25 lots at ten per order takes three orders, and fails with fewer attempts |
| Endings.ReportsIdentify | perpmirror/copy/reconciler.py:74-186 | every result is about its own target; it gives the notional the run began with, a risk block or a stopped flip the one its own attempt began with |
| Endings.SuccessIsAtTarget | perpmirror/copy/reconciler.py:61-72 | a live success leaves the position flat where that is asked for, otherwise on the side asked for and off by at most the greater of the two drifts; a position that is so already gets no order |
| Endings.BlockNamesItsRule | perpmirror/copy/reconciler.py:280-285 | an OPEN or ADD is stopped if and only if it breaks a rule on what it reads; then it sends no order and its message names the first rule broken |
| Endings.RaisesOnlyForeignErrors | perpmirror/copy/reconciler.py:117-144 | an error that is not the program's own is raised and never becomes a result, any other becomes a result; on a listed market with positive price, step and contract size nothing is raised |
| Endings.LeavesEntryExactly | perpmirror/copy/reconciler.py:117-157 | a tried run leaves an entry if and only if its last attempt was a refused OPEN or ADD and the cooldown is positive, with the deadline, side, notional, action and answer of that attempt |
| Endings.EntryIsIgnored | perpmirror/copy/reconciler.py:83-103 | an entry that does not suppress a call has no influence on it |
| Endings.SecondCallIsSuppressedExactly | perpmirror/copy/reconciler.py:207-221 | after a call that left an entry, any further call is answered from it if and only if it is the same OPEN or ADD on the same side, within the drift and before the deadline; otherwise it runs as if there were none |
| Submissions.OrdersAreAddressed | perpmirror/execution/executor.py:52-82 | every order of every run is for the target's symbol, and either reduces the very position it found or adds to the target's side |
| Submissions.DryRunForetells | perpmirror/execution/executor.py:74-85 | a dry run that reports success for an action means the live run asks the exchange for that action; any other dry run is the live run to the last field, which sends no order |
| Cooldown.OwnFailureSuppresses | perpmirror/copy/reconciler.py:188-221 | the entry a failure leaves suppresses the same call if and only if the cooldown is positive, the tolerance is not negative and the deadline has not come |
| Cooldown.FailureRateBound | perpmirror/copy/reconciler.py:126-133 | with a fixed target and a rejecting exchange the k-th submission comes at least k cooldowns after the first, however often reconcile is called |
| RiskOff.RunOnlyShrinks | perpmirror/risk/manager.py:22-40 | a target that breaks a rule on the target itself (kill switch, short, lists, leverage, symbol limit) only ever sees reduce-only orders; a frozen account sees none |
| RiskOff.RiskStaysOff | perpmirror/risk/manager.py:22-40 | so over any sequence of targets and runs the symbol's notional never grows |
| RiskLimits.RunKeepsLimits | perpmirror/risk/manager.py:39-42 | no order of a run adds more than the limit per order, and after none of them is a symbol above its limit that was not before |
| ChunkedClose.ChunkedCloseIsExact | perpmirror/execution/executor.py:103-113 | with full fills a close submits exactly as many orders as the cap requires or the retries allow, each within the cap, and succeeds if and only if the retries suffice |
| ChunkedClose.ChunksNeededIsCeiling | perpmirror/execution/executor.py:105-113 | that number is the quotient of lots and cap, rounded up |
| CappedOrders.CappedOrdersAreExact | perpmirror/execution/executor.py:40-51 | with full fills, opening, adding or reducing above the cap submits exactly as many orders as bring the gap within the drift or as the attempts allow, each the cap or what is left, and succeeds if and only if the attempts suffice |
| CappedOrders.OrdersNeededIsLeast | perpmirror/copy/reconciler.py:80-173 | that number is the least whose full orders leave no more than the drift takes in |
| CappedOrders.CappedFlipIsExact | perpmirror/copy/reconciler.py:231-273 | a flip that can close its old side with one order opens its new side with that many more; one that cannot ends after it without success |
| Exits.PartialFillsNeverClose | perpmirror/execution/executor.py:103-122 | without a complete fill an open position that is to be closed stays open and the run does not succeed |
| Exits.CloseSucceedsExactly | perpmirror/copy/reconciler.py:274-279 | with one fill ratio for all orders, a close succeeds if and only if there is nothing to close, or fills are complete, the position is whole lots, the retries suffice for the chunks and no kill switch forbids it |
| Exits.FlipClosesExactly | perpmirror/copy/reconciler.py:238-242 | the closing order of a flip ends flat if and only if it fills completely and carries the whole of a position in whole lots |
| Exits.UnfinishedFlipFails | perpmirror/copy/reconciler.py:238-253 | otherwise the run ends on the old side after at most that one order and does not succeed |
| Exits.FlipSucceedsExactly | perpmirror/copy/reconciler.py:231-273 | where an opening would converge, a flip succeeds if and only if fills are complete and the old side is whole lots that fit into one order |
| Exits.SettledLoop | perpmirror/copy/reconciler.py:104-114 | a run on a position that classifies NOOP succeeds as it stands |
| Convergence.PartialFillsConverge | perpmirror/copy/reconciler.py:80-186 | with fill ratio r the gap's excess over (1 + r) / r lots shrinks by 1 - r per order, no order fills zero, and the run succeeds whenever the bound reaches the tolerance within its attempts |
| Convergence.FakeIsCovered | perpmirror/fake/exchange.py:87-137 | the fake exchange in each of its settings meets what the theorems on rejection, partial and full fills assume |
| Convergence.BoundIsGeometric | perpmirror/fake/exchange.py:93-107 | the step-by-step bound has that closed form |
| Convergence.IncreaseConverges | perpmirror/execution/executor.py:40-51 | one increasing order for a gap above the tolerance passes every minimum, fills, and takes the gap under the next bound |
| Convergence.ReduceConverges | perpmirror/execution/executor.py:40-60 | one reducing order does the same from the other side |
| Tracking.LeverageIsCapped | perpmirror/copy/calculator.py:19-27 | exactly when there is no target; otherwise the leverage is positive, within the follower's limit and, if copied, the leader's |
| Tracking.FixedTargetIsMarginTimesLeverage | perpmirror/copy/calculator.py:56-83 | the FIXED target, and its bound by the follower's maximal leverage |
| Tracking.FixedTargetIgnoresSize | perpmirror/copy/calculator.py:66-67 | while the leader holds a side, its size and the equities leave a FIXED target alone |
| Tracking.RatioTargetIsScaled | perpmirror/copy/calculator.py:86-118 | the RATIO target is the leader's notional scaled by the equities and the copy ratio |
| Tracking.RatioTargetIgnoresLeverage | perpmirror/copy/calculator.py:86-118 | leverage has no say in the size of a RATIO target |
| Tracking.RunTracks | perpmirror/copy/reconciler.py:61-72 | a successful run is within the drift of the scaled leader position and on its side |
| Tracking.PortfolioTracks | perpmirror/copy/calculator.py:86-118 | when every symbol's run succeeds, the totals differ by at most the sum of the drifts |
| Portfolio.ConcurrentRunsStayBounded | perpmirror/copy/reconciler.py:76-296 | over every interleaving under k permits, exposure with what is cleared but not placed, and open symbols, exceed their limits by at most k - 1 orders; with one permit not at all |
| Portfolio.UninterruptedTaskRunsItsAction | perpmirror/copy/reconciler.py:223-296 | the tasks are the runs: uninterrupted, a task's steps do what one action does |
| Permits.BoundsAreReached | perpmirror/copy/reconciler.py:58-76 | for every number k of permits an interleaving reaches the total limit plus k - 1 orders of maximal size and k - 1 symbols beyond the limit |
| Permits.PlainLimitsNeedOnePermit | perpmirror/risk/manager.py:43-49 | for those accounts every interleaving keeps the plain limits if and only if there is at most one permit |
| Ownership.SaveLoadRoundTrip | perpmirror/monitoring/ownership.py:229-303 | what is saved loads unchanged if and only if every follower's sets are disjoint, and is refused otherwise |
| Ownership.LoadSaveRoundTrip | perpmirror/monitoring/ownership.py:229-303 | saving what a current-version file loads to writes that file again |
| Ownership.LoadsExactly | perpmirror/monitoring/ownership.py:229-278 | a file loads if and only if its version is known, its accounts are these, its fields are there and no symbol has two owners |
| Ownership.LoadedBooks | perpmirror/monitoring/ownership.py:244-271 | what loads is what is on file, disjoint; a version 1 file observes what it manages and suspends nothing |
| Ownership.StartUpExactly | perpmirror/monitoring/ownership.py:47-100 | the books after a first start and after a restart, set by set; nothing open is left without an owner |
| Ownership.MembershipExactly | perpmirror/monitoring/ownership.py:102-227 | every way in which a symbol gets into or out of each of a follower's sets, for every operation, and no other |
| Ownership.OpenSymbolsAreAccountedFor | perpmirror/monitoring/ownership.py:164-182 | protection adds exactly what is open and neither managed nor suspended, so everything open has an owner |
| Ownership.OperationKeepsPartition | perpmirror/monitoring/ownership.py:102-227 | every operation keeps one owner per symbol and blocked symbols apart; protected symbols only grow, blocked ones only shrink |
| Ownership.OperationsKeepPartition | perpmirror/monitoring/ownership.py:61-67 | so does every sequence of operations from the first start |
| Ownership.ClaimGuardsAreExact | perpmirror/monitoring/ownership.py:204-218 | a claim keeps the partition if and only if its three guards let it through |
| Ownership.CandidatesAreClaimable | perpmirror/monitoring/ownership.py:184-190 | a candidate passes all three guards |
| Ownership.PositionOwnership.ObserveLeader | perpmirror/monitoring/ownership.py:102-124 | released and resumed symbols, the new books, and the file in step with them |
| Ownership.PositionOwnership.ObserveFollowerPositions | perpmirror/monitoring/ownership.py:126-155 | vanished symbols are suspended, new ones observed, the file in step |
| Ownership.PositionOwnership.MarkPositionObserved | perpmirror/monitoring/ownership.py:157-162 | only managed symbols become observed, the file in step |
| Ownership.PositionOwnership.ProtectUnmanaged | perpmirror/monitoring/ownership.py:164-182 | protected becomes what it was together with what is open and neither managed nor suspended, the file in step |
| Ownership.PositionOwnership.ClaimSymbol | perpmirror/monitoring/ownership.py:204-218 | a claim succeeds if and only if its guards allow it, and changes nothing otherwise |
| Ownership.PositionOwnership.ReleaseSymbol | perpmirror/monitoring/ownership.py:220-227 | a release forgets a managed symbol and its observation, the file in step |
| Ownership.PositionOwnership.ResumeFollowers | perpmirror/monitoring/ownership.py:110-114 | every follower's suspensions shrink to what the leader holds, and the return value says whether any did |
| Ownership.PositionOwnership.ProtectEach | perpmirror/monitoring/ownership.py:99-100 | every follower's unowned symbols are protected, the file in step |
| Ownership.PositionOwnership.SaveState | perpmirror/monitoring/ownership.py:280-303 | the file holds the books, or stays as it was in a dry run |
| Ownership.PositionOwnership.LoadState | perpmirror/monitoring/ownership.py:229-278 | a refused file leaves memory as it was |
| Ownership.PositionOwnership.Start | perpmirror/monitoring/ownership.py:47-100 | start-up from nothing, from a file or from an older version ends with the file equal to memory; a dry run never writes |
| Cycles.TraceKeepsSound | perpmirror/monitoring/ownership.py:47-227 | in every world of every run, crashes between any two effects and restarts included: one owner per symbol, only candidates planned, only managed symbols traded |
| Cycles.ClaimsAreNeverRefused | perpmirror/app.py:212-220 | a claim made by a cycle is never refused |
| Cycles.FileCoversOpenSymbols | perpmirror/app.py:228-284 | if only the program trades, between any two effects the file covers every open follower symbol |
| Cycles.RestartProtectsNothingNew | perpmirror/monitoring/ownership.py:54-100 | so no step of a restart ever takes the program's own position for a foreign one |
| Cycles.TradesWaitUntilFlat | perpmirror/monitoring/ownership.py:102-190 | a barred symbol is traded again only after a cycle that saw the leader flat and a later one that saw it hold the symbol |
| Cycles.StartupPositionsWaitUntilFlat | perpmirror/monitoring/ownership.py:61-66 | that is the whole history of a symbol the leader held at the first start |
| Cycles.FirstStartBars | perpmirror/monitoring/ownership.py:61-67 | the first start covers what is open and bars what the leader holds, for every follower |
| Cycles.VanishedIsBarred | perpmirror/monitoring/ownership.py:138-145 | an observed symbol that vanished while the leader holds it is barred from that look on |
| Cycles.EveryStartUp | perpmirror/monitoring/ownership.py:47-100 | a start-up from no file, or from a file of either version, succeeds from every sound world and is a path of the machine |
| Cycles.MigratedBooksAreSound | perpmirror/monitoring/ownership.py:244-271 | an older file is a sound beginning if and only if no blocked leader symbol is managed |
| Cycles.MigratedSymbolIsBarred | perpmirror/monitoring/ownership.py:249-254 | a symbol managed by the older version that is missing at the first look while the leader holds it is barred by that look, whatever came between |
| Cycles.ProtectedStaysUntouched | perpmirror/monitoring/ownership.py:164-182 | a protected symbol is never managed or traded again |
| Cycles.FoundSymbolIsLeftAlone | perpmirror/monitoring/ownership.py:164-182 | a symbol open at a look that is neither managed nor suspended is protected from the next step on and in no later plan or run, through outside trades, crashes and restarts |
| Cycles.FlatLeaderLiftsBars | perpmirror/monitoring/ownership.py:102-124 | a cycle that sees the leader without a symbol unbars it for every follower, and one that sees it held changes no bar |
| Gather.RunReports | perpmirror/copy/reconciler.py:104-186 | a result that says flat where the target is flat means no position, live or dry, for any number of retries |
| Gather.AnyScheduleReflects | perpmirror/app.py:252-256 | in whatever schedule the runs went, the results describe the positions the account has in the end |
| Gather.InTurnIsGathered | perpmirror/app.py:252-256 | going one after the other is one of the schedules |
| Rounds.Snapshot.TargetFor | perpmirror/app.py:198-248 | a target is for its symbol, and flat where the leader is flat; which symbols have one is `TargetsExactly` |
| Rounds.CandidatesAreNotBarred | perpmirror/monitoring/ownership.py:184-190 | no candidate is protected, blocked or suspended while the leader holds it |
| RoundTraces.PartIsTrace | perpmirror/app.py:171-294 | a follower's complete part, in any schedule of its runs, is a trace of the machine from one follower to the next |
| RoundTraces.PartSparesBarred | perpmirror/app.py:171-294 | it leaves the positions of barred symbols alone and bars no less |
| RoundTraces.ExecuteIsTrace | perpmirror/app.py:249-273 | the runs of the targets and the booking of their results are a trace, for any outcome of the runs |
| RoundTraces.CycleIsTrace | perpmirror/app.py:164-295 | a whole cycle of complete parts, in any schedule, is an undisturbed trace of the machine, keeps coverage and spares every barred symbol on every account |
| RoundTraces.CycleKeepsCovered | perpmirror/app.py:164-295 | what the file covers before an undisturbed cycle it covers after it |
| Plans.TargetsExactly | perpmirror/app.py:198-248 | a follower has a run for a symbol if and only if it is managed and not gone, or held by the leader, not held by the follower and barred by nothing; and listed where the leader holds it; and computable; with the calculator's target for the leader's position |
| Plans.PartBooksExactly | perpmirror/app.py:198-273 | each set of the books after a follower's part, from the books and positions before it and what its runs reported |
| Plans.LeaderFlatIsFollowed | perpmirror/app.py:228-245 | a managed symbol the leader no longer holds gets a flat target if and only if the follower's leverage and equity are usable |
| Plans.FollowedOutIsReleased | perpmirror/app.py:252-273 | when that run is a live success nothing is held in the symbol and it is managed no more |
| CyclePlans.CycleTargetsExactly | perpmirror/app.py:164-248 | which runs a whole cycle has, from the ledger and leader it began with, for every follower whose snapshot was read |
| CyclePlans.CycleBooksExactly | perpmirror/app.py:164-273 | each set of each such follower's books after a whole cycle, from the ledger it began with |
| CyclePlans.WaitEndsWithFlat | perpmirror/monitoring/ownership.py:102-124 | after a cycle that saw the leader without a symbol, the next one that sees it held has a run for it, whatever barred it before |
| CyclePlans.ForeignPositionIsLeftAlone | perpmirror/app.py:194-214 | a symbol that a cycle finds open, neither managed nor suspended, is left alone by that and every later cycle, whatever others do in between |
| App.PerpMirrorApp.constructor | perpmirror/app.py:46-93 | the program's parts, with a state file that only a live program writes |
| App.PerpMirrorApp.InitializePositionOwnership | perpmirror/app.py:154-162 | start-up is the machine's, from no file or a file of either version |
| App.PerpMirrorApp.Survey | perpmirror/app.py:176-197 | observing, protecting and choosing candidates, in this order |
| App.PerpMirrorApp.PlanSymbol | perpmirror/app.py:201-248 | a symbol is claimed if and only if it is new, supported and held by the leader; the claim cannot be refused; the target is the calculator's or none |
| App.PerpMirrorApp.Plan | perpmirror/app.py:198-251 | exactly the supported or managed candidates with a computable target get it; exactly the new supported ones are claimed |
| App.PerpMirrorApp.RunTarget | perpmirror/app.py:302-337 | one run, whose failure to return is a result that confirms nothing |
| App.PerpMirrorApp.RunTargets | perpmirror/app.py:252-256 | the runs in turn, each on what the one before it left, and each result that of its run |
| App.PerpMirrorApp.SettleOne | perpmirror/app.py:261-273 | an open position is observed, a finished symbol released, and never both |
| App.PerpMirrorApp.Settle | perpmirror/app.py:257-273 | open positions are observed and finished symbols released, nothing else |
| App.PerpMirrorApp.ReconcileFollower | perpmirror/app.py:171-294 | a follower's part of a cycle is complete: the candidates' targets, a run each, and the books that follow from the results |
| App.PerpMirrorApp.ReconcileNext | perpmirror/app.py:171-193 | a follower is skipped if and only if its snapshot failed, and no other account is touched |
| App.PerpMirrorApp.ReconcileAll | perpmirror/app.py:170-295 | every follower in turn, each from the ledger the one before it left, all results collected in order |
| App.PerpMirrorApp.FullReconcile | perpmirror/app.py:164-295 | a whole cycle: the leader observed first, then every follower's complete part; so a trace of the machine that keeps coverage and spares every barred symbol |
| Coalescer.TriggerIsServed | perpmirror/monitoring/coalescer.py:24-40 | in every interleaving without a stop, within five worker steps a callback starts that comes after the trigger |
| Coalescer.CallbacksAreTriggered | perpmirror/monitoring/coalescer.py:27-40 | callbacks never overlap and are never more than the triggers |
| Coalescer.BurstRunsOnce | perpmirror/monitoring/coalescer.py:27-40 | a burst of any size during a callback causes exactly one further run, and no burst causes none |
| Coalescer.TriggersBeforeTheCallbackRunOnce | perpmirror/monitoring/coalescer.py:27-40 | any number of triggers while a waiting worker wakes up and debounces, in any interleaving, are served by exactly one callback |
| Coalescer.TriggersAddUp | perpmirror/monitoring/coalescer.py:24-25 | a burst is its triggers one by one |
| Coalescer.StopEnds | perpmirror/monitoring/coalescer.py:42-47 | after a stop at most the callback being debounced starts, and the worker, also one that is started later, exits within three steps without another trigger |
| Coalescer.StopStops | perpmirror/monitoring/coalescer.py:42-44 | a stop puts the coalescer on that path from any state |
| Coalescer.StartMakesLive | perpmirror/monitoring/coalescer.py:20-22 | a start makes a worker that serves triggers, and leaves one that exists alone |
| Coalescer.ReconcileCoalescer.Resume | perpmirror/monitoring/coalescer.py:27-40 | the worker from one await to the next |
| Coalescer.ReconcileCoalescer.StartWorker | perpmirror/monitoring/coalescer.py:20-22 | a worker is started only where there is none |
| Coalescer.ReconcileCoalescer.FinishStop | perpmirror/monitoring/coalescer.py:45-47 | the end of a stop clears the exited worker, so that a later start creates a new one |
| Coalescer.ReconcileCoalescer.TriggerRun | perpmirror/monitoring/coalescer.py:24-25 | a trigger is one trigger event of the protocol |
| Coalescer.ReconcileCoalescer.RequestStop | perpmirror/monitoring/coalescer.py:42-44 | a stop is one stop event of the protocol, which `StopEnds` follows to the worker's exit |

## Left out

- Exchange adapters (perpmirror/exchanges), HTTP, signing, WebSocket events and JSON: an exchange is only its answers to orders.
- Notifications, cards, logging, configuration loading, start-up permission checks, the heartbeat and the command line.
- Symbol mapper: `supported` is a set.
- PrepareOrder: margin mode and leverage themselves are not modelled, only that setting them may fail before an order.
- Rounding of Decimals at 28 digits.
- Mark prices are constant during a run; the fake's price of 100 for a flat symbol is a parameter. Fills take effect at submission.
- Reads of positions, prices, instruments and portfolios do not fail inside a run; a failing account snapshot is modelled (`ReconcileNext` skips that follower).
- Client order ids are random in the program; here they are fresh numbers, the number of orders the account has seen.
- A failed order's error text is its error; the rule of a blocked CLOSE or FLIP stands for its wording.
- Sleeps and debounce times; the clock is a parameter that need not move.
- Locks and the semaphore appear in `Portfolio`, where a task holds its key and a permit; waiting for them is not modelled.
- The state file is one stored record replaced at once; the temporary file and the text format are not modelled. `FollowerOwnership` is a value in a map of `PositionOwnership`, so aliasing of its sets is not captured.
- `preserve_existing_positions` switched off: the cycle without ownership is not modelled.
- ReconcileTarget: on the account no other run moves in between; runs with interference are the function `Reconcile` in any `Env`, which the theorems are about.
- RunTargets: takes the runs one after the other; the theorems on cycles hold for any schedule (`Gathered`), and module Portfolio interleaves the runs step by step.
- FullReconcile: takes up symbols in any order (the program sorts them). Requests to stop between cycles and a failing leader snapshot, which only end the cycle before it begins, are not modelled.
- FileCoversOpenSymbols: excludes trades by others, which the program protects only from the next look on (`FoundSymbolIsLeftAlone`).
- PartialFillsConverge: asks that no order exceeds the exchange's cap; orders above it are followed under complete fills (`CappedOrdersAreExact`).
- FailureRateBound: stated for OPEN and ADD, the only actions with a cooldown.
- Hedge mode: one signed position per symbol.
