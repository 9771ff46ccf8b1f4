# Vernier: sizing, routing and execution, verified

Vernier trades between pools on two chains. It decides how to split an integer
input over pools, turns the split into a route, and carries the trade out as a
saga that has to survive failures and crashes. This project models these parts
in Dafny and proves what they promise, for all inputs, all runs and all crash
points. `dafny verify dfyconfig.toml` checks everything.

## How the model is organised

**Sizing.** A pool is a `Curve`: an ID and a total function from input to
output units; an empty input quotes nothing. `Allocations`, `Concavity`,
`Text` and `Ranking` hold the arithmetic of integer splits, why pairwise
exchange is enough on concave curves, the order of Go strings with the textual
allocation key, and how candidates are ranked. `Optimum` is the most a family of
curves can give, as a curve of its own, and `Flows` what an allocation through
two stages is worth and what a search along one of its lines can find. `Climbs`
says what a whole search comes to, on values: where each climb ends, which starts
are climbed from, and the one answer; `SecondStage` folds a searched second stage
into a curve, so that the flow above it is searched the same way. `SplitSolver` is the search over input units: the `Evaluator` object owns the
two memo maps that `core/sizing/split.go` keeps in closures, the walk fills one
shared array in place, and the sweeps, the bisection and the multistart are
loops.
`TwoStageSplit` puts a second stage behind a fungible intermediate token and
adds the dust fallback. `GridSplit`, `GridFamily` and `GridTwoStage` are the
bounded dynamic program, its shortcuts and the two-stage grid with its
remainder; `GridMeaning` says what the result promises about the declared grid. `SplitFlags` and `GridFlags` say when the published flags are right
and when they are not. `ExactOutput` is the doubling and bisecting inverse
search.

**Routes.** `RouteGraph` is the executable graph and its validator, proved to
accept exactly the sound graphs; `RouteBuilder` builds one from an optimizer
result.

**Inventory and the live protocol.** `Ledger` gives every inventory call as a
function on values, `LedgerLaws` what runs of calls keep, and `Inventory` is the
mutable object whose methods are proved equal to those functions.
`LedgerMeaning` says when a call succeeds in wallet, cap, buffer, reserved and
in-flight amounts, and what it moves.
`LiveProtocol` interleaves any number of `Execute` and `Observe` calls over one
gate and one inventory, one atomic step at a time; `LiveExecutor` holds the
gate, the executor and the settlement coordinator as objects whose calls are
proved to be runs of these steps. `SettlementLaws` follows the balances: what the
verified legs spent and received, and nothing else, moves them.

**Dependent plans.** `SequentialPlan` has plans, their validation and their
constructors. `SagaJournal` has the journal and the answers of drivers.
`SequentialExecutor` and `SequentialRecovery` each give one turn of their loop
as a function of everything the environment answers in that turn, and an object
whose methods take these turns. `ParallelExecutor` is the executor of the plans
that trade both legs at once. `ExecutorLaws`, `RecoveryLaws`,
`PrefundedInputLaws`, `TransportedRecoveryLaws`, `DualInventoryLaws`,
`DualOperationLaws`, `DualBridgeLaws`, `DualInputLaws`, `DualEffectLaws`,
`PrefundedEffectLaws` and `TransportedEffectLaws` hold the safety theorems. Most
are about what is durable in the journal; `ExecutorLaws.OnlySalesAgain` and all of
`DualInventoryLaws` are about driver calls, `DualInputLaws` about both, and the
three effect modules about what took effect, durable or not. `ExecutorProgress`,
`RecoveryProgress` and `ParallelLaws` say when a run goes on and how it ends. `Effects` says what a turn makes take effect. `ParallelEconomics` is the
realized profit of a dual-inventory operation.

## Assumptions

- Curves and quote functions are total and deterministic. `nat` stands for
  `*big.Int` amounts; where the walk needs a machine integer, the 64-bit limit is
  kept.
- Drivers, selectors and journal writes answer anything, at any time, but for the
  two kinds of theorem below. A journal write may be lost, done, or done although
  an error comes back. A driver's settlement carries the request it was given.
- `TransportedRecoveryLaws.RoundTripAcrossCrashes` is conditional, on three
  things. No selector answers `SellAtOrigin` for a transported plan
  (`OriginDecisionLosesSale`, `OriginDecisionAt`: otherwise an operation can
  complete without a sale). The journal takes exit decisions only up to the
  second settlement, as the SQLite store does
  (`adapters/persistence/sqlite/sequential_live.go:577-582`;
  `LateDecisionLosesSale`). And it keeps no decision that it reported as failed
  (`ReportedDecisionSellsTwice`).
- In `DualEffectLaws` a trade took effect when its driver reported a settlement;
  in `PrefundedEffectLaws` and `TransportedEffectLaws` a stage may also have taken
  effect when its driver reported an uncertain failure. Drivers are then truthful about it: that stage
  does not fail definitely any more, and its transactions are not all rejected
  or reverted.

## Where the code and its documentation disagree

- `GloballyVerified` of the grid tests only quanta: that of the input and those
  of the second-stage solves that were made. It is right for an input no larger
  than the grid, nondecreasing second-stage curves, and second-stage solves over
  at most two curves or no more than the grid (`GridFlags.FlagIsGlobal`).
  `ThreePoolsOverstate`, `FallingOverstates`, `VerifiedFlagOverstates` and
  `ConcaveFlagOverstates` are families of requests with the flag set and a
  better split, one for each condition. For concave direct pools without a branch it is also right for one unit more
  than the grid (`OneUnitOverIsGlobal`), and for no remainder above that.
- `PairwiseOptimal` of the split is always set. It holds through concave pools,
  with or without a branch, and after an exhaustive search of any pools unless a
  dust branch was replaced; over two amounts it then holds exactly if a peak of their line is near enough to where
  bisection ends (`TwoStageSplit.OptimizeTwoStageSplit`).
  `SplitFlags.PairwiseFlagOverstates` has pools on which an exchange still
  improves the result, and `ReplacementLoses` a dust replacement that makes both
  flags wrong, with a direct pool that falls.
- With a remainder that pays nowhere, the grid reports a plan that does not
  place all of its input; `GridTwoStage.PlacedIffPays` says exactly when,
  `IncreasingPlacesAll` gives a condition on the pools under which it never
  happens, and `GridFlags.RemainderCanBeLost` is an instance.
- A transported plan has no origin exit, but a decision for one is valid
  (`domain/execution/sequential.go:320-341`), is stored, and is not looked at by
  the executor (`core/saga/sequential_executor.go:392-439`). A recovery then takes
  the first stage and an empty circuit breaker for the whole operation
  (`core/saga/sequential_recovery.go:870-876`) and completes it without a sale
  (`TransportedRecoveryLaws.OriginDecisionLosesSale`). The repository's own
  selector never answers so.
- A dual-inventory recovery refuses a duplicate sale once the sale is durable,
  but not on every path. From a journal with the sale durable,
  `DualInventoryLaws.SecondSaleIff` says exactly when another sale can be driven; an
  operation started afresh never has such a journal
  (`DualOperationLaws.OneSaleDurable`).
- A sale that took effect without becoming durable is not looked at when a
  trigger-first operation makes up for its exit choice: the origin sale can then
  take effect too (`DualEffectLaws.SellsTwiceAt`; `SaleAfterSaleIff` says exactly
  from where, and `OnlyBlindnessSellsTwice` that there is no other way). Nor is it
  looked at before an abort: `AbortsAfterSaleAt` and `AbortAfterSaleIff`.
- Nor is it looked at in a prefunded sequential operation. The executor writes its
  exit decision before it sells, but a recovery that made the buy durable goes on
  to the sale without one. If that sale's settlement is lost in a crash, the next
  resumption chooses an exit and can sell at the origin too
  (`PrefundedEffectLaws.SellsTwiceAt`, `SaleAfterSaleIff`). There is no other way
  (`OneStageAhead`), and an abort is always safe (`LandedFollows`).
- And in a transported operation that is resumed with two stages settled, the exits
  are compared before anything asks what became of the sale
  (`core/saga/sequential_recovery.go:240-287`). After an unrecorded destination sale
  the origin sale can follow exactly if the first one is not durable
  (`TransportedEffectLaws.SaleAfterSaleIff`, `SellsTwiceAt`); if no exit is given up
  once its own third stage took effect, it never does (`OneStageAhead`). The driver
  of the way back is handed the sale's transactions, which carry the same ordinal;
  nothing is assumed about what it makes of them.

## Model

| member | source | states |
|---|---|---|
| `Text.KeyOrder` | core/sizing/split.go:731-740 | comparing two allocation keys as Go strings is comparing the allocations by their first differing amount in decimal text |
| `Text.KeyLessAppend` | core/sizing/split.go:731-740 | adding the same amount at the end keeps the order of two keys, which lets the dynamic program keep one plan per cell |
| `Text.AllocationKeyInjective` | core/sizing/split.go:731-740 | equal keys mean equal allocations, so caches keyed by the text never confuse two |
| `Allocations.VisitsIsChoose` | core/sizing/split.go:478-541 | the exhaustive walk visits C(total + count - 1, count - 1) allocations |
| `Allocations.Absorption` | core/sizing/split.go:486-494 | k C(n,k) = n C(n-1,k-1): every division in the running product is exact |
| `SplitSolver.CompositionCountAtMost` | core/sizing/split.go:478-497 | true exactly when the walk's number of visits is at most the limit, early exit included |
| `Concavity.BisectionStep` | core/sizing/split.go:597-616 | on a concave line one comparison of neighbours tells on which side the peak lies |
| `Concavity.BisectedIsPeak` | core/sizing/split.go:594-616 | on a concave line the whole bisection ends on a peak |
| `Concavity.ShareLineConcave` | core/sizing/split.go:580-641 | the total output of two concave curves is concave in the share of the first |
| `Concavity.NoExchangeIsMaximum` | core/sizing/split.go:438-462 | on concave curves an allocation that no exchange between two curves improves is a maximum over all allocations |
| `Optimum.ConcaveRises` | core/sizing/split.go:234-250 | a pool whose marginal output never increases never falls, so for concave pools the fallback's condition is met |
| `Optimum.BestIsConcave` | core/sizing/split.go:170-191 | the best output of concave second-stage pools is concave in the intermediate amount |
| `Flows.FlowLineConcave` | core/sizing/split.go:193-233 | through concave pools every exchange line is concave, also where it leads through the second stage |
| `Flows.SweptIsOptimal` | core/sizing/split.go:438-475 | so an allocation that no searched share improves is improved by no exchange at all |
| `Flows.ScannedIsPeakIff` | core/sizing/split.go:617-641 | on any line the scan ends on a best share exactly if one lies in the neighbourhood |
| `Ranking.RankedInOrder` | core/sizing/split.go:417-423 | ranking the starts loses none and puts one first that no other beats |
| `Climbs.PairRises` | core/sizing/split.go:438-451 | a searched exchange either raises the worth or finds no better share near the end of bisection |
| `Climbs.ClimbEndsSwept` | core/sizing/split.go:424-465 | a climb that ends ends swept, and worth no less than its start |
| `Climbs.RankedStartsUnique` | core/sizing/split.go:409-423 | ranking by worth and key leaves one order of the distinct starts |
| `Climbs.ClimbedUnique` | core/sizing/split.go:417-470 | the best end of the climbs from the first ranked starts is one allocation |
| `Climbs.FoundUnique` | core/sizing/split.go:366-470 | a search has at most one answer: the least-key maximum if affordable, the searched share of two amounts, the best end of the climbs of more |
| `Climbs.SearchIff` | core/sizing/split.go:366-470 | it has one exactly if it is affordable, or over two amounts, or all climbs from the chosen starts end within the sweeps allowed |
| `SecondStage.AnswerIsMaximum` | core/sizing/split.go:296-328 | an exhaustive answer, or one over concave curves, is a maximum |
| `SecondStage.ConcaveIsSeen` | core/sizing/split.go:170-191 | through concave pools an allocation is seen with its true worth, and the flow that is searched is concave |
| `SecondStage.DeterminedIsSeen` | core/sizing/split.go:170-191 | so it is wherever every second stage that matters is solved to its maximum |
| `SplitSolver.Evaluator.Evaluate` | core/sizing/split.go:343-365 | a value is cached under its allocation, is the output the objective gives it, and never changes later |
| `SplitSolver.Evaluator.OptimizeSecond` | core/sizing/split.go:170-191 | each intermediate amount is solved once, and the flag for the second stage is true exactly while every solved plan was exhaustive |
| `SplitSolver.ExhaustiveCoordinates` | core/sizing/split.go:499-541 | the in-place walk meets every allocation, as many as counted, and returns the best, least key among equals |
| `SplitSolver.BisectPair` | core/sizing/split.go:594-616 | bisection ends where the comparisons of neighbours lead, on any curves, exactly at the defined middle of the line |
| `SplitSolver.MaximizePair` | core/sizing/split.go:580-641 | the share it returns is the one the search of that line is defined to end with: the least of the best shares near the end of bisection |
| `SplitSolver.Sweep` | core/sizing/split.go:438-462 | a sweep makes every improving exchange in turn, and says whether it made any |
| `SplitSolver.Ascend` | core/sizing/split.go:432-465 | the climb from a start ends where it is defined to, or fails exactly if it does not within the sweeps allowed |
| `SplitSolver.CoordinateStarts` | core/sizing/split.go:543-578 | the starts are exactly each curve alone, the equal split and the half splits of all pairs, each once |
| `SplitSolver.MultiStart` | core/sizing/split.go:404-476 | where every second stage can be solved there is a result exactly if each of the first maxStarts ranked starts ends its climb in time; the result is the end that no other of these ends beats |
| `SplitSolver.CoordinateOptimize` | core/sizing/split.go:330-476 | returns the answer of the search, where all second stages can be solved exactly if there is one; exhaustive exactly when affordable, and then worth the most; otherwise on two amounts the least best share near the end of bisection, on more the best of the climbs' ends |
| `SplitSolver.OptimizeIndependent` | core/sizing/split.go:296-328 | returns the answer of the search exactly if there is one, conserves the total and reports its real output; it is exhaustive exactly when affordable and then the least-key maximum; for concave curves it is a maximum in every branch; no exchange improves it if it is exhaustive or the curves are concave, and two other curves exactly if a peak of their line is near the end of bisection; one or two curves never fail |
| `SplitSolver.LeastBestUnique` | core/sizing/split.go:499-541 | the maximum with the least key is one allocation |
| `SplitSolver.MaximumIsPairOptimal` | core/sizing/split.go:472-475 | a maximum leaves nothing to gain between any two curves, which is what PairwiseOptimal claims |
| `SecondStage.LineIsOptimalIff` | core/sizing/split.go:389-402 | over two amounts the flag PairwiseOptimal is right exactly if a peak of the line is near the end of bisection |
| `SplitFlags.PairwiseFlagOverstates` | core/sizing/split.go:389-402 | for every neighbourhood and larger unaffordable input there are pools on which PairwiseOptimal is reported and an exchange still improves the allocation |
| `SplitFlags.ReplacementLoses` | core/sizing/split.go:234-250 | a falling direct pool and a worthless branch: the fallback sets both flags for less than an allocation the search had seen |
| `SplitFlags.ExchangesAreNotEnough` | core/sizing/split.go:472-475 | with a branch, an allocation of concave pools that no exchange between two amounts improves need not be a maximum |
| `TwoStageSplit.CheckUniqueIDs` | core/sizing/split.go:668-679 | true exactly when all curve IDs differ across the families |
| `TwoStageSplit.CoveredIsGlobalMaximum` | core/sizing/split.go:193-233 | exhausting the input splits over exhaustively solved second stages exhausts all pairs of allocations |
| `TwoStageSplit.FallbackKeepsOutput` | core/sizing/split.go:234-250 | with nondecreasing direct curves, replacing a dust branch by the best direct-only plan keeps the output |
| `TwoStageSplit.DustIsWorthless` | core/sizing/split.go:229-250 | through concave pools a branch that ends in dust gives nothing for any input, so the fallback loses nothing |
| `TwoStageSplit.VerifiedExactly` | core/sizing/split.go:186-189 | after the search the two halves of the flag hold exactly if every allocation and every intermediate amount an allocation yields was affordable |
| `TwoStageSplit.ShortSecondIsSearchable` | core/sizing/split.go:330-402 | with at most two second-stage curves an affordable or one-line input search cannot fail |
| `TwoStageSplit.OptimizeTwoStageSplit` | core/sizing/split.go:111-285 | the result is the answer of the search over the flow in which each intermediate amount is worth what its own search finds, or the direct-only answer where a dust branch was dropped; where every second stage can be solved there is one exactly if that search has an answer; the books balance and no branch ends in dust; GloballyVerified is set exactly if all input splits and every second stage they call for are affordable, and then the output is a maximum over every input split and every second-stage split, also after the dust fallback; through concave pools no exchange between two pools improves the result, with a branch and after the fallback too; over two amounts it is pairwise optimal exactly if a peak of their line is near the end of bisection |
| `GridSplit.BestOnGridUnique` | core/sizing/grid_split.go:470-479 | a grid has one best plan: greatest output, then least key |
| `GridSplit.UnitGridIsExhaustive` | core/sizing/grid_split.go:256-298 | at quantum 1 the best grid plan is the best of all allocations, tie-break included |
| `GridSplit.FillCell` | core/sizing/grid_split.go:279-294 | a cell filled from the row before holds the best plan for its unit count |
| `GridSplit.GridFamilyPlans` | core/sizing/grid_split.go:256-298 | for every unit count the table holds a split of exactly that many quanta with the greatest output, least key among ties |
| `GridSplit.GridFamilyPlansWithRemainder` | core/sizing/grid_split.go:396-449 | the same when one curve also receives the remainder |
| `GridFamily.FamilyBestUnique` | core/sizing/grid_split.go:318-394 | over all recipients and grid splits there is one best plan, however it is searched for |
| `GridFamily.GeneralBest` | core/sizing/grid_split.go:374-393 | the general program is optimal over every recipient and every grid split |
| `GridFamily.ScanTwo` | core/sizing/grid_split.go:344-372 | the two-curve scan beats or equals every grid split and keeps a better earlier plan |
| `GridFamily.GridFamilyBestWithRemainder` | core/sizing/grid_split.go:318-394 | conserves the total and is optimal over every recipient and grid split, shortcuts included |
| `GridFamily.ShortcutAgreesWithGeneral` | core/sizing/grid_split.go:325-394 | the shortcuts and the general program return one plan, tie-break included |
| `GridFamily.UnitGridAgreesWithExhaustive` | core/sizing/grid_split.go:256-298 | at quantum 1 the grid and the exhaustive search return one allocation |
| `GridTwoStage.GridFamilyBest` | core/sizing/grid_split.go:300-316 | solves any amount on its own grid, conserving it; says whether its quantum was 1 |
| `GridTwoStage.OnePoolMonotone` | core/sizing/grid_split.go:300-316 | one nondecreasing second-stage pool makes the second-stage optimum nondecreasing in the amount |
| `GridTwoStage.SearchGrid` | core/sizing/grid_split.go:146-168 | the flow found beats every other share of units between the branches |
| `GridTwoStage.SearchedIsMaximum` | core/sizing/grid_split.go:146-168 | with a nondecreasing second-stage optimum its output is at least that of any grid split followed by the second-stage solve |
| `GridTwoStage.PlaceRemainder` | core/sizing/grid_split.go:170-219 | the remainder goes where no other recipient does better, or nowhere |
| `GridTwoStage.PlacedIffPays` | core/sizing/grid_split.go:170-219 | the outer remainder is placed exactly when placing it somewhere beats the plan without it; otherwise the input is not conserved |
| `GridTwoStage.IncreasingPlacesAll` | core/sizing/grid_split.go:170-219 | with one strictly increasing direct pool the whole input is always placed |
| `GridTwoStage.VerifiedOutcomeIsMaximum` | core/sizing/grid_split.go:243-253 | a fully placed outcome is at least any grid split of the input followed by the second-stage solve |
| `GridTwoStage.OptimizeTwoStageSplitGrid` | core/sizing/grid_split.go:40-254 | exactly the well-posed requests have a result, which is the searched outcome: its grid has the lesser of total input and requested divisions, GridVerified is the absence of a remainder, and then the output is a maximum of the declared grid; GloballyVerified is set exactly if the quantum and those of all second-stage solves are 1 |
| `GridMeaning.SolveBeatsOwnGrid` | core/sizing/grid_split.go:300-316 | a second-stage solve is at least as good as any spending of its amount in quanta of amount over the lesser of amount and divisions, the remainder on one pool |
| `GridMeaning.ReportedBeatsGrid` | core/sizing/grid_split.go:146-253 | the reported output is at least that of every split of the input in quanta of total over the lesser of total and divisions, followed by any such spending in the second stage |
| `GridFlags.SmallInputIsGlobal` | core/sizing/grid_split.go:243-253 | where the divisions cover the input a direct-only grid result is a global maximum |
| `GridFlags.ExactIsMaximum` | core/sizing/grid_split.go:300-394 | a second-stage solve with quantum 1 over at most two curves, or over no more than the grid, is a maximum over all splits |
| `GridFlags.FlagIsGlobal` | core/sizing/grid_split.go:243-253 | for two-stage requests no larger than the grid, nondecreasing second-stage curves and such solves, GloballyVerified implies the global maximum |
| `GridFlags.ReportedFlagIsGlobal` | core/sizing/grid_split.go:243-253 | the same of what the optimizer reports |
| `GridFlags.ThreePoolsOverstate` | core/sizing/grid_split.go:374-393 | one unit of input, three concave capped second-stage pools and more to spend than the grid: the flag is set below the maximum, for every size of the pools |
| `GridFlags.FallingOverstates` | core/sizing/grid_split.go:256-298 | a falling second-stage pool: the flag is set below the maximum |
| `GridFlags.VerifiedFlagOverstates` | core/sizing/grid_split.go:243-253 | for every input between one and two times the divisions there are curves whose globally verified grid result is beaten |
| `GridFlags.ConcaveFlagOverstates` | core/sizing/grid_split.go:170-219 | the same with concave, nondecreasing pools for every remainder of two units or more |
| `GridFlags.OneUnitOverIsGlobal` | core/sizing/grid_split.go:170-253 | with concave direct pools and one unit more than the grid the outcome is a global maximum, as the flag says |
| `GridFlags.RemainderCanBeLost` | core/sizing/grid_split.go:170-219 | an input of 3 of which the result places 2 |
| `ExactOutput.Bracket` | core/sizing/exact_output.go:82-92 | doubling ends with a bracket whose upper end reaches the target, exactly if some doubling reaches it |
| `ExactOutput.Bisect` | core/sizing/exact_output.go:94-107 | bisection ends at an input that reaches the target while the one below does not |
| `ExactOutput.MinimumInputForOutput` | core/sizing/exact_output.go:75-108 | on success the input is positive, reaches the target and the one below does not; for a nondecreasing quote it is the least input |
| `ExactOutput.SearchesAgree` | core/sizing/exact_output.go:75-108 | two successful searches agree whatever their initial bounds |
| `ExactOutput.ReachableIsReached` | core/sizing/exact_output.go:82-92 | for a nondecreasing quote every reachable target is reached by doubling |
| `RouteGraph.Validate` | domain/execution/allocation.go:41-117 | accepts exactly the sound graphs: indexed, conserving at the root, from parent to child, and at the terminals |
| `RouteGraph.FlowBalance` | domain/execution/allocation.go:41-117 | over a sound graph what the groups plan minus what they expect is the leg's input minus its output |
| `RouteBuilder.ExecutionBranches` | core/sizing/execution_allocation.go:64-77 | the branches are exactly the allocations with positive input, in order |
| `RouteBuilder.BranchAt` | core/sizing/execution_allocation.go:64-77 | each funded allocation is the branch after those funded before it, with its own pool, input and output, and there are no others |
| `RouteBuilder.BranchesValid` | core/sizing/execution_allocation.go:64-77 | the branches are acceptable exactly if every allocation with input has output |
| `RouteBuilder.BuiltIsSound` | core/sizing/execution_allocation.go:19-62 | the built graph is sound exactly if all its branches are acceptable |
| `RouteBuilder.BuildRouteAllocation` | core/sizing/execution_allocation.go:19-77 | succeeds exactly if the end tokens differ, the two intermediate families come together over a token of their own, and the graph of the three families is sound; for a balanced result and distinct tokens that is exactly if every branch with input pays |
| `RouteBuilder.OptimizeAndBuild` | core/sizing/execution_allocation.go:19-77 | from request to route: a successful optimization builds exactly if every branch with input pays |
| `Fingerprint.FingerprintDecidesPermutation` | domain/inventory/inventory.go:410-422 | over IDs free of separators two lists of effects have one fingerprint exactly if they are permutations |
| `Fingerprint.SeparatorsCollide` | domain/inventory/inventory.go:410-422 | with separators in IDs different effects share one |
| `LedgerLaws.LateCheckPasses` | domain/inventory/inventory.go:135-179 | the late validity check of a reservation never fails |
| `LedgerLaws.ReserveKeeps` | domain/inventory/inventory.go:135-179 | reserving is all or nothing and keeps the ledger valid |
| `LedgerLaws.ReleaseKeeps` | domain/inventory/inventory.go:181-196 | releasing takes out that reservation only and keeps the ledger valid |
| `LedgerLaws.AdjustKeeps` | domain/inventory/inventory.go:303-344 | adjusting replaces the requirements or changes nothing, and keeps the ledger valid |
| `LedgerLaws.SettleKeeps` | domain/inventory/inventory.go:361-408 | settling is all or nothing and forgets no settlement |
| `LedgerLaws.RunKeeps` | domain/inventory/inventory.go:135-408 | after any run reserved amounts are the sums over live reservations and balances are nonnegative |
| `LedgerLaws.RunFunded` | domain/inventory/inventory.go:221-233 | while wallet, buffer and in-flight values stay, whatever is reserved fits with them into wallet and cap |
| `LedgerLaws.SettledStaysSettled` | domain/inventory/inventory.go:135-149 | a settled ID can never be reserved again |
| `LedgerLaws.ReplayIffPermutation` | domain/inventory/inventory.go:361-408 | after any further run a replayed settlement succeeds, without change, exactly if its effects are a permutation of the first ones |
| `LedgerLaws.AppliedAtMostOnce` | domain/inventory/inventory.go:361-408 | in any run the effects of one ID reach the balances at most once |
| `LedgerLaws.BalanceLedger` | domain/inventory/inventory.go:253-286 | a balance is where it started plus the effects applied to it |
| `LedgerMeaning.ReserveIff` | domain/inventory/inventory.go:135-179 | a new reservation is given exactly if it has an ID and an operation, was not settled before, and each key asked for can hold what is asked of it in all: reserved, asked, buffer and in-flight amounts together within wallet and cap |
| `LedgerMeaning.ReserveMoves` | domain/inventory/inventory.go:165-178 | it raises each reserved amount by just what is asked of the key, and changes nothing else but itself |
| `LedgerMeaning.AdjustIff` | domain/inventory/inventory.go:303-344 | a replacement is accepted exactly if on each key it asks no more than is held, or the increase fits within wallet and cap |
| `LedgerMeaning.SettleIff` | domain/inventory/inventory.go:361-408 | a live reservation is settled exactly if the effects name known balances and leave none negative |
| `LedgerMeaning.SettleMovesAll` | domain/inventory/inventory.go:395-407 | each balance then moves by its effects, and what was reserved is given back |
| `Inventory.Inventory.NewWithPolicies` | domain/inventory/inventory.go:104-133 | succeeds exactly if every policy agrees with its key, with its balances, caps, buffers and in-flight amounts and nothing reserved |
| `Inventory.Inventory.Reserve` | domain/inventory/inventory.go:135-179 | leaves the maps as the call on values does |
| `Inventory.Inventory.Release` | domain/inventory/inventory.go:181-196 | leaves the maps as the call on values does |
| `Inventory.Inventory.AdjustReservation` | domain/inventory/inventory.go:303-344 | leaves the maps as the call on values does |
| `Inventory.Inventory.Settle` | domain/inventory/inventory.go:361-408 | leaves the maps as the call on values does |
| `Inventory.Inventory.ApplyEffects` | domain/inventory/inventory.go:253-286 | leaves the maps as the call on values does |
| `LiveProtocol.StepKeeps` | core/saga/executor.go:98-275 | every atomic step of every call keeps the shared invariant |
| `LiveProtocol.OneActiveOperation` | core/saga/gate.go:18-46 | over all interleavings two running calls never both have an unsettled operation |
| `LiveProtocol.GateCoversReservation` | core/saga/executor.go:98-136 | whatever is reserved belongs to the active operation; a free gate means nothing is reserved |
| `LiveProtocol.FailureReleasesBoth` | core/saga/executor.go:98-192 | once no call runs it, a never committed operation has given back gate and reservation |
| `LiveProtocol.CommittedHoldsBoth` | core/saga/executor.go:190-275 | a committed operation keeps both until all its legs were rejected or its verified effects settled |
| `LiveProtocol.PendingEnds` | core/saga/settlement.go:57-113 | only a recorded full rejection, or an observation that completes a verified set and settles its effects, ends that |
| `LiveProtocol.GateOpensAfterOutcome` | core/saga/executor.go:252-263 | the gate reopens for a committed operation only after that, with nothing reserved |
| `LiveExecutor.OperationGate.TryBegin` | core/saga/gate.go:18-29 | takes the gate exactly if it is free and the operation is named |
| `LiveExecutor.OperationGate.Complete` | core/saga/gate.go:35-46 | opens the gate exactly for the operation that holds it |
| `LiveExecutor.ReserveThenRelease` | core/saga/executor.go:124-136 | the deferred release undoes the reservation completely |
| `LiveExecutor.Executor.Execute` | core/saga/executor.go:98-275 | ends with exactly the verdict of its answers, refused exactly if it does not reach its broadcasts; refused or without execution both are given back, otherwise both are held, and each reserved amount grew by what the legs put in there |
| `LiveExecutor.RequirementsAsk` | core/saga/executor.go:108-123 | what a call asks of a key is the sum of its legs' inputs there |
| `LiveExecutor.VerdictSays` | core/saga/executor.go:98-275 | a call reaches its broadcasts exactly if the gate is free, every leg has an artifact and no other is given, the inputs fit, and everything up to the commit went well; then recorded broadcasts that are all rejected, all accepted or neither decide how it ends |
| `LiveExecutor.CallRun` | core/saga/executor.go:98-275 | the call is a run of protocol steps that leaves gate and ledger the same |
| `LiveExecutor.SettlementCoordinator.Observe` | core/saga/settlement.go:57-113 | an observation is the two protocol steps, or nothing if the store refuses it; it settles exactly if it completes a set in which every leg is confirmed, verified and in its own tokens, the reservation is live and the balances cover it, and then every balance is the old one less what the legs spent and plus what they received; otherwise the ledger stays as it was |
| `SettlementLaws.EffectsMove` | core/saga/settlement.go:74-101 | what is settled moves each balance by what the legs received there less what they spent there |
| `SettlementLaws.PayableEffects` | core/saga/settlement.go:102-105 | it can be settled exactly if every key is named and known and no balance falls below zero |
| `SettlementLaws.StepPays` | core/saga/settlement.go:57-113 | no step of any call moves a balance but an observation that settles, and that by received less spent |
| `SettlementLaws.RunPays` | core/saga/settlement.go:57-113 | over any interleaving a balance is where it started plus what the settled operations received there less what they spent, and no operation is settled twice |
| `SequentialPlan.ValidateStage` | domain/execution/sequential.go:62-105 | accepts exactly the well-formed stages |
| `SequentialPlan.Validate` | domain/execution/sequential.go:136-204 | accepts exactly the well-formed plans |
| `SequentialPlan.TransportedPlans` | domain/execution/sequential.go:343-405 | there is a plan exactly for a plannable request; it is predecessor-linked, with one sale, ends in the token it started from, and buys on the buy chain and market, sells on the sell chain and market, and bridges between the two |
| `SequentialPlan.ReturnExitCloses` | domain/execution/sequential.go:268-304 | the return exit exists for each of them, bridges back the way it came, sells once in the chain and market where it bought, and ends in the same token |
| `SequentialPlan.PrefundedPlans` | domain/execution/sequential.go:407-467 | exactly the plannable requests have a plan, with the two routes 1,2,3,4 and 1,5: it buys, and sells at the breaker, on the buy chain and market, sells on the sell chain and market, and bridges between the two |
| `SequentialPlan.ParallelPlans` | domain/execution/sequential.go:469-490 | with valuation metadata supplied, every plan built this way passes validation; its legs wait for nothing, each bridge for its own leg, with chains and markets as in the prefunded plan |
| `SequentialPlan.SellInputScales` | domain/execution/sequential.go:242-266 | the fixed sale input is the discovery sale scaled to the execution size, rounded down, and positive |
| `SequentialExecutor.Executor.Execute` | core/saga/sequential_executor.go:173-469 | the loop over its mutable variables is the fold of the iterations |
| `ExecutorLaws.OnlySalesAgain` | core/saga/sequential_executor.go:253-330 | in an allowed trace only a sale is driven again, at once, once per ordinal, after a definite failure, and nothing after an uncertain one |
| `ExecutorLaws.TransportedRun` | core/saga/sequential_executor.go:173-469 | every transported run has an allowed trace of at most six calls, aborts only with nothing settled, and completes only with ordinals 1 to 4, each fed by the one before, one sale, and the starting token |
| `ExecutorLaws.PrefundedRun` | core/saga/sequential_executor.go:173-469 | every prefunded run has an allowed trace of at most five calls and durably settles the beginning of one of two routes |
| `ExecutorProgress.TurnEnds` | core/saga/sequential_executor.go:173-469 | every turn of a running execution is completed exactly with nothing ahead and accounted for; goes on exactly if its stage settles and a needed exit is decided, or a sale definitely failed for the first time and a needed exit is decided again; aborts exactly after a definite failure of the first stage; all else is manual |
| `ExecutorProgress.SettledLeadsTo` | core/saga/sequential_executor.go:392-439 | a settled stage leads to the next one, or to the exit decided after it |
| `ExecutorProgress.FailedLeadsTo` | core/saga/sequential_executor.go:253-330 | a sale tried again comes once more right away, at the exit decided |
| `ExecutorProgress.PrefundedCompletes` | core/saga/sequential_executor.go:173-469 | a prefunded run all of whose stages settle ends after the decided route, 1,2,3,4 or 1,5, completed exactly if it is accounted for |
| `ExecutorProgress.TransportedCompletes` | core/saga/sequential_executor.go:173-469 | a transported run all of whose stages settle ends after its fourth along the decided exit, completed exactly if it is accounted for |
| `SequentialRecovery.RecoveryCoordinator.constructor` | core/saga/sequential_recovery.go:172-202 | replays the journal into settled ordinals and outputs |
| `SequentialRecovery.RecoveryCoordinator.NextStage` | core/saga/sequential_recovery.go:888-898 | finds the first unsettled stage |
| `SequentialRecovery.RecoveryCoordinator.RestoredOnSellChain` | core/saga/sequential_recovery.go:663-680 | true exactly if the last buy was on the sale's chain and the sale is in |
| `SequentialRecovery.RecoveryCoordinator.Recover` | core/saga/sequential_recovery.go:172-633 | the loop over its mutable variables is the fold of the turns |
| `RecoveryProgress.TurnEnds` | core/saga/sequential_recovery.go:238-604 | a prefunded or dual-inventory recovery is completed exactly with nothing left, accounted for, kept and written down; aborted exactly on a lost buy without a sale; and loops on exactly after a settlement in order, a buy made again, or a failure that needs no operator |
| `RecoveryProgress.RecoveryCompletes` | core/saga/sequential_recovery.go:238-633 | if the stages left settle one after the other, they become durable in order and the operation is completed |
| `RecoveryLaws.TurnKeeps` | core/saga/sequential_recovery.go:238-604 | every turn of a prefunded recovery keeps to the decided route |
| `RecoveryLaws.OneRouteAcrossCrashes` | core/saga/sequential_recovery.go:172-604 | across any crashes and resumes the durably settled ordinals are a prefix of 1,2,3,4 or of 1,5, never both sales, whole if completed, none if aborted |
| `PrefundedInputLaws.InputsAcrossCrashes` | core/saga/sequential_executor.go:471-510 | across any crashes and resumes ordinals 2, 3 and 5 consumed what the buy yielded and ordinal 4 what the sale yielded, converted only to another token, and the buy the initial input |
| `DualInventoryLaws.NoSecondSale` | core/saga/sequential_recovery.go:196-362 | with the sale durable and the origin sale not open, no sale is ever driven again |
| `DualInventoryLaws.OnlyBridgesLeft` | core/saga/sequential_recovery.go:203-212 | with both legs durable only the two bridges can run |
| `DualInventoryLaws.NothingLeft` | core/saga/sequential_recovery.go:213-219 | and none where the buy was restored on the sale's chain |
| `DualInventoryLaws.SecondSaleIff` | core/saga/sequential_recovery.go:196-362 | from a journal with the sale durable, a sale can be driven again exactly if the buy is missing and the origin sale is decided and not durable |
| `DualInventoryLaws.ParallelPlansFit` | domain/execution/sequential.go:469-490 | the constructor's parallel plans meet what the theorems on dual-inventory operations ask of a plan |
| `ParallelExecutor.Executor.Execute` | core/saga/sequential_parallel.go:15-174 | the loops over its fields leave the operation and the journal as the run on values does |
| `ParallelLaws.RunEnds` | core/saga/sequential_parallel.go:15-174 | the run is completed exactly if both swaps and every bridge that is waited for were recorded, the accounting succeeded and the result was kept; aborted exactly if nothing traded and that is certain; left as it is exactly where it cannot start its legs or bridges or keep its result; otherwise manual |
| `ParallelLaws.CompletedLeaves` | core/saga/sequential_parallel.go:48-174 | a completed run leaves the two legs, the base bridge and, unless detached, the quote bridge durable, each with the input and output it had |
| `ParallelLaws.CompletedStands` | core/saga/sequential_parallel.go:176-197 | a completed run stands at its last bridge with what that yielded, in whichever order the legs came in |
| `DualOperationLaws.ExecutionKeeps` | core/saga/sequential_parallel.go:15-174 | whatever the workers answer, the executor leaves no exit decided; completed it has both legs durable, aborted neither |
| `DualOperationLaws.TurnKeepsDual` | core/saga/sequential_recovery.go:238-604 | every turn of a dual-inventory recovery decides and makes the origin sale only with the buy in and the sale not |
| `DualOperationLaws.OneSaleDurable` | core/saga/sequential_recovery.go:172-604 | from the executor's start across any crashes and resumes the two sales are never both durable; a completed operation has one buy and one sale durable, an aborted one neither |
| `DualBridgeLaws.CompletedIsRestored` | core/saga/sequential_recovery.go:172-633 | from the executor's start across any crashes and resumes a completed operation has sold at the origin, or bought again on the sale's chain, or both bridges durable; only the executor itself completes without the quote bridge, where it was detached |
| `DualInputLaws.RequestsAreDue` | core/saga/sequential_parallel.go:27-93 | the executor asks for the buy with the initial input, the sale with its fixed input, and each bridge with what its leg yielded |
| `DualInputLaws.DualInputsAcrossCrashes` | core/saga/sequential_recovery.go:793-840 | across any crashes and resumes the buy consumed the initial input unless it was made again with the sale durable, the sale the discovery sale scaled to the execution size whatever the buy yielded, the base bridge and the origin sale what the buy yielded, and the quote bridge what the sale yielded, converted only to another token |
| `DualInputLaws.DrivenAcrossCrashes` | core/saga/sequential_recovery.go:793-840 | the same of every driver call of the recovery, whether it settles or fails |
| `DualEffectLaws.OnlyBlindnessSellsTwice` | core/saga/sequential_recovery.go:220-235 | with truthful drivers two sales take effect only if a resumption of a trigger-first plan, with the buy durable, an effective sale not durable and nothing decided, makes the origin exit durable |
| `DualEffectLaws.BlindnessSellsTwice` | core/saga/sequential_recovery.go:653-661 | and such a resumption lets the second sale take effect in the very next turn |
| `DualEffectLaws.ParallelNeverSellsTwice` | core/saga/sequential_recovery.go:653-661 | with truthful drivers two sales never take effect under the parallel policy |
| `DualEffectLaws.SaleAfterSaleIff` | core/saga/sequential_recovery.go:220-235 | after the sale took effect the origin sale can still take effect exactly if the sale is not durable and the origin exit is decided or, under trigger-first, none is |
| `DualEffectLaws.SellsTwiceAt` | core/saga/sequential_recovery.go:220-235 | an input for every trigger-first plan on which both sales take effect |
| `DualEffectLaws.AbortAfterSaleIff` | core/saga/sequential_recovery.go:363-377 | after the sale took effect the operation can still be aborted exactly if the buy did not take effect and the sale is not durable |
| `DualEffectLaws.AbortsAfterSaleAt` | core/saga/sequential_recovery.go:363-377 | an input for every plan on which an operation is aborted although its sale took effect |
| `PrefundedEffectLaws.LandedFollows` | core/saga/sequential_recovery.go:172-604 | with truthful drivers what took effect is what is durable and at most the next stage and a sale left behind by the decision for the origin; an aborted operation did nothing |
| `PrefundedEffectLaws.OneStageAhead` | core/saga/sequential_recovery.go:220-235 | without a blind resumption it is at most one stage ahead of the journal, never both sales, and for a completed operation exactly one route |
| `PrefundedEffectLaws.SaleAfterSaleIff` | core/saga/sequential_recovery.go:220-235 | after the destination sale took effect the origin sale can still take effect exactly if the sale is not durable and the origin exit is decided or none is |
| `PrefundedEffectLaws.SellsTwiceAt` | core/saga/sequential_recovery.go:220-235 | an input for every plan on which both sales take effect |
| `PrefundedEffectLaws.PrefundedPlansFit` | domain/execution/sequential.go:407-467 | the constructor's prefunded plans meet what these theorems ask of a plan |
| `TransportedRecoveryLaws.RoundTripAcrossCrashes` | core/saga/sequential_recovery.go:172-604 | if no selector answers SellAtOrigin and the journal takes no late decision and keeps none it reported as failed: across any crashes and resumes every stage consumed what the one before produced, and a completed operation made the round trip with one sale |
| `TransportedRecoveryLaws.OriginDecisionLosesSale` | core/saga/sequential_recovery.go:865-876 | with two stages durable and SellAtOrigin decided, resuming and one accounted turn complete the operation without a sale |
| `TransportedRecoveryLaws.OriginDecisionAt` | core/saga/sequential_executor.go:392-439 | an input for every transported plan that leads there from the start |
| `TransportedRecoveryLaws.LateDecisionLosesSale` | core/saga/sequential_recovery.go:531-546 | a journal that takes a decision after the third settlement lets an operation complete without a sale |
| `TransportedRecoveryLaws.ReportedDecisionSellsTwice` | core/saga/sequential_recovery.go:531-546 | a journal that keeps an exit decision it reported as failed lets an operation sell twice and complete |
| `TransportedEffectLaws.LandedFollows` | core/saga/sequential_recovery.go:172-604 | what took effect is what is durable and at most the next stage, and while both exits were open the third stage of the other one; an aborted operation did nothing |
| `TransportedEffectLaws.OneStageAhead` | core/saga/sequential_recovery.go:240-287 | if no exit is given up after its third stage took effect, what took effect is at most one stage ahead of the journal, never both sales, and for a completed operation exactly its round trip |
| `TransportedEffectLaws.SaleAfterSaleIff` | core/saga/sequential_recovery.go:240-287 | after the destination sale took effect the origin sale can still take effect exactly if the destination sale is not durable |
| `TransportedEffectLaws.SellsTwiceAt` | core/saga/sequential_recovery.go:240-287 | an input for every plan from which both sales can take effect |
| `ParallelEconomics.GrossIsHalfSpread` | core/saga/sequential_parallel.go:243-252 | quote delta plus marked base imbalance is half the traded base times the price spread |
| `ParallelEconomics.CalculateParallelEconomics` | core/saga/sequential_parallel.go:199-270 | succeeds exactly if legs, decimals and cost assets are there; gross has the sign of the price difference and net subtracts the costs not in the output |

## Left out

- The curve cache inside a memo curve, cache statistics, contexts, clocks, delays and goroutines: curves are pure and the code joins its workers before it reads results, so the model is sequential; the order in which workers finish is not modelled.
- Quote errors inside the solvers: curves are total, so a failing provider is not modelled.
- Native exact-output quotes, and the request and token checks of the exact-output search: only the search over an exact-input quote is modelled.
- Inventory.Inventory.AdjustReservation: requires the new keys to be among the held ones, because the code adds a missing amount there and panics; the value-level call has no result in that case.
- ParallelEconomics.CalculateParallelEconomics: requires positive actual amounts, which settlement validation guarantees; with a sale of zero units the code would divide by zero.
- LiveExecutor.Executor.Execute: its contract is for a call that nothing interferes with; interleaved calls are the subject of LiveProtocol.
- The order in which the swap and bridge goroutines of a dual-inventory operation finish: the code joins them before it records anything. The settlement of a detached quote bridge after completion is not modelled.
- RecoveryProgress.TurnEnds: is about prefunded and dual-inventory plans; a transported recovery also compares its exits between stages, which TransportedRecoveryLaws follows.
- RecoveryLaws.OneRouteAcrossCrashes: speaks of durable settlements; what took effect without being recorded is followed in PrefundedEffectLaws.
- TransportedRecoveryLaws.RoundTripAcrossCrashes: speaks of durable settlements; what took effect without being recorded is followed in TransportedEffectLaws.
- TwoStageSplit.OptimizeTwoStageSplit: that it has a result is stated exactly only where every second stage an allocation can call for can be solved (without a branch always); otherwise it depends on which of them the search reaches. For more than two amounts on pools that are not concave, which results are pairwise optimal depends on shares the search never looks at.
- PrefundedEffectLaws.OneStageAhead: assumes drivers that are truthful about what took effect, as DualEffectLaws does.
- TransportedEffectLaws.OneStageAhead: assumes the same, and of selectors and journal what RoundTripAcrossCrashes does.
- DualEffectLaws.OnlyBlindnessSellsTwice: assumes drivers that are truthful about a trade that took effect, because a driver that reports its definite failure afterwards makes the recovery choose another exit.
- Realized economics of sequential plans and the valuation of recovery costs: a boolean answer says whether the accounting succeeds.
- Preflight and the check that no other operation is active: a run starts with its operation created.
- Emergency refuelling, retry delays and the durable log of recovery attempts: they change no stage, settlement or decision.
- SQLite stores, chain adapters, quote providers, strategies, registries, costing, commands: oracles or not modelled; the finite tables among them would only add easy members.
- SHA-256, random IDs and fingerprints other than that of balance effects.
