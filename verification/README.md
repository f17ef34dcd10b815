# arp grid sizing: the configuration search and the year evaluator in Dafny

The arp system sizes a hydrogen-production grid (PV and wind sources feeding
electrolyzers, with accumulators and hydrogen storages) against an hourly
consumption profile. This project models its three sequential pieces and
proves properties of them:

- **The configuration search** (`BroadFirstSearchAlgorithm`, module `Search`
  in `search.dfy`). It is a priority-queue search with a set of visited keys.
  - The root is the initial configuration, together with its year verdict.
  - Each expansion runs every action type over every storage of a copy of the
    configuration:
    - a storage with no electrolyzer gets a new one;
    - otherwise the action adds one unit of wind, PV, electrolyzer power,
      accumulator size or storage capacity.
  - Every child is judged by the year evaluator.
  - A child is enqueued only if its key is new.
  - The first polled state that is good is returned.
- **The year evaluator** (`CalculateYearAlgorithm`, module `YearEvaluation` in
  `year.dfy`).
  - It starts from an all-zero hour-0 step and calls the next-step simulator
    for each later hour.
  - It keeps the minimum total storage level, the cumulative hydrogen and power
    overflows, the successful steps and the minimum-power errors.
  - At the end it emits the advisory warnings.
- **The horizon and table helpers** (`Utils`, module `Utils` in `utils.dfy`).
  - `getHoursOfSimulation` clamps the optional hour count to [1, 8760].
  - `createTableOfValue` builds a constant table of 8760 entries.

The value types (storages, electrolyzers, sources, accumulators, the data of a
run, steps, year results) are datatypes in module `Grid` (`grid.dfy`). Doubles
are `real`; `long` ids are `int`.

Collaborators whose code is not part of this model are parameters:

- the next-step simulator (`CalculateNextStepAlgorithm`), as
  `nextStep: (Data, Step) -> StepOutcome`, which returns a step or a thrown
  failure reason;
- `YearResult.isGood`, as `yearIsGood: YearResult -> bool`;
- `State.toString`, as the key function `keyOf: State -> string`;
- `State.compareTo`, as the queue order `precedes: (State, State) -> bool`.

The objects that change state in place are classes:

- `BroadFirstSearchAlgorithm` has the fields `priorityQueue: seq<State>` and
  `visitedStates: set<string>`.
- `CalculateYearAlgorithm` has the fields `warnings` and `errors`.

Their loops are methods with invariants, proved against specification
functions:

- `Iterate`/`Year` for the year loop;
- `SweepUpTo`, `VerdictsUpTo`, `Expand`, `ChildrenUpTo` and `KeepNew` for the
  search;
- `ApplyAction` for one action on one storage.

The properties of the loops are then proved as lemmas about those functions.

## Behaviour of the code that the model keeps

- **The evaluator's hours.** The loop `for (hour = 1; hour < N; ++hour)` calls
  the simulator for hours 1..N-1, so a horizon of N hours yields at most N
  steps, hour 0 included (`IterateCounts`, `CalculateYearAlgorithm.Calculate`).
- **A failed hour.** A failed hour keeps the whole previous step. Only
  `LUCK_OF_POWER_ON_ELECTROLIZER` is recorded as an error; every other
  `BusinessException` is swallowed without a record. Because the simulator is
  deterministic and gets the same step again, a failed hour repeats for every
  later hour (`FailureRepeats`).
- **The children of one action type share one storage list and one production
  table.** The storages are acted on one after the other in that list
  (`SweepUpTo`, `ExpandChild`, `GetNextState`).
  - Child i is judged after the actions on storages 0..i.
  - Every child holds the list and table as they are after the last storage.
  - Each child's cost counts only its own action, because the running total
    restarts from the parent's total for every storage.
  - Children of different action types do not share, because each call starts
    from a fresh copy.
- **Accumulator states are keyed by value.** `Accumulator` has value equality,
  so electrolyzers with equal-sized accumulators share one hour-0 entry
  (`EqualAccumulatorsShareOneState`).
- **`Step`'s shape.** It is the one the evaluator uses: hour, accumulator-state
  map, storage states and the two overflows. The storage-state map is a
  sequence in storage-list order (position i belongs to storage i). Summing
  its levels does not depend on the order.
- **Feasibility and queue order.** `isGood` comes from `YearResult` and the
  queue order from `State.compareTo`. Neither is part of this model, so both
  are parameters, and no claim of cost-optimality is made.
- **The search's bookkeeping.** `Calculate` returns, as ghost outputs:
  - the root;
  - the states polled, in order;
  - the queue as each was polled;
  - the children enqueued.

  Its contract ties them to the loop:
  - what was queued, the root and the enqueued children are exactly what was
    polled plus what is left in the queue;
  - each polled state was in the queue at that moment and, under a strict
    order, minimal there;
  - the enqueued children are the new children of the states polled before,
    in order. The ghost constant `newChildren` is that expansion: `Valid`
    includes `ExpandsStates`, which ties it to what `ProcessState` returns.

## Model

| member | source | states |
|---|---|---|
| Utils.CreateTableOfValue | src/main/java/arp/service/Utils.java:8-12 | the table has `HOURS_OF_YEAR` = 24 * 365 = 8760 entries, each equal to the given value |
| Utils.GetHoursOfSimulation | src/main/java/arp/service/Utils.java:18-30 | the horizon lies in [1, 8760]; it is 8760 when the setting is absent; settings below 1 give 1, above 8760 give 8760, and in-range settings are returned unchanged |
| Utils.HoursOfSimulationIdempotent | src/main/java/arp/service/Utils.java:20-26 | feeding the clamped horizon back as the setting yields the same horizon |
| YearEvaluation.CalculateYearAlgorithm.Calculate | src/main/java/arp/service/CalculateYearAlgorithm.java:31-56 | the result's minimum level, steps and overflow sums are those of the loop specification `Iterate` run for hours 1..N-1 (N the clamped horizon); the errors of this run and then the warnings of the final validation are appended to the evaluator's lists, and the result holds those lists |
| YearEvaluation.IterateCounts | src/main/java/arp/service/CalculateYearAlgorithm.java:36-53 | after k hours the steps are the hour-0 step plus one step per successful hour; successful plus failed hours is k; the running step is the last recorded one; there is exactly one error per minimum-power failure, and no error of any other kind |
| YearEvaluation.OverflowSums | src/main/java/arp/service/CalculateYearAlgorithm.java:34-44 | the cumulative hydrogen and power overflows are the sums over the successful steps (every recorded step but hour 0) |
| YearEvaluation.MinLevelIsMinimum | src/main/java/arp/service/CalculateYearAlgorithm.java:33-42 | the running minimum is at most the total storage level of every recorded step, hour 0 included, and equals the total of one of them |
| YearEvaluation.MinLevelAtMostZero | src/main/java/arp/service/CalculateYearAlgorithm.java:32-42 | the running minimum never exceeds 0, the total of the all-zero hour-0 step |
| YearEvaluation.FailureRepeats | src/main/java/arp/service/CalculateYearAlgorithm.java:39-52 | once an hour throws, every later hour throws the same reason, and the running step stays the one before the failure |
| YearEvaluation.CalculateYearAlgorithm.FinalValidation | src/main/java/arp/service/CalculateYearAlgorithm.java:59-72 | appends exactly the warnings of `Warnings` for the three numbers to the evaluator's warnings, and changes nothing else |
| YearEvaluation.WarningsFollowConditions | src/main/java/arp/service/CalculateYearAlgorithm.java:59-72 | one warning per true condition and none otherwise (min < 0, min > 10, hydrogen overflow > 0, power overflow > 0), each carrying its number, in that order |
| YearEvaluation.CalculateYearAlgorithm.InitializeFirstStep | src/main/java/arp/service/CalculateYearAlgorithm.java:74-87 | the loops build exactly the hour-0 step `FirstStep` |
| YearEvaluation.FirstStepIsZero | src/main/java/arp/service/CalculateYearAlgorithm.java:74-86 | the hour-0 step has hour 0, a zero state for the accumulator of every electrolyzer of every storage and no other accumulator state, one zero state per storage, zero overflows and a total level of 0 |
| YearEvaluation.CalculateYearAlgorithm.constructor | src/main/java/arp/service/CalculateYearAlgorithm.java:24-29 | a fresh evaluator holds the data and the simulator, with empty warnings and errors |
| YearEvaluation.EqualAccumulatorsShareOneState | src/main/java/arp/service/CalculateYearAlgorithm.java:78-82 | for any data, two electrolyzers whose accumulators have equal size have the same accumulator, and it is a key of the hour-0 step, whose keys are exactly the accumulators of all electrolyzers |
| YearEvaluation.SharedAccumulatorExample | src/main/java/arp/service/CalculateYearAlgorithm.java:78-82 | an instance: two electrolyzers with empty accumulators in one storage give one accumulator state |
| Search.FindEnergySource | src/main/java/arp/search/BroadFirstSearchAlgorithm.java:167-172 | the index found is that of the first source of the type; with no index, no source has the type |
| Search.GetOrCreate | src/main/java/arp/search/BroadFirstSearchAlgorithm.java:155-165 | the index is that of the first source of the type; the sources are kept, with at most one source appended, and an appended source has the type, power 0 and distance 0 |
| Search.WithUnitOfSourceEffect | src/main/java/arp/search/BroadFirstSearchAlgorithm.java:130-165 | a PV/wind unit changes only the electrolyzer's sources: the first source of the type gains exactly 1.0 power, or, if there is none, one source of the type with power 1.0 and distance 0 is appended |
| Search.BroadFirstSearchAlgorithm.AddPv | src/main/java/arp/search/BroadFirstSearchAlgorithm.java:130-140 | costs the search's PV cost; adds one PV unit to the electrolyzer; adds the PV curve to its row for each of the 8760 hours; every other row and the key set are unchanged |
| Search.BroadFirstSearchAlgorithm.AddWind | src/main/java/arp/search/BroadFirstSearchAlgorithm.java:142-153 | as `AddPv`, with the wind cost, a wind unit and the wind curve |
| Search.AddCurve | src/main/java/arp/search/BroadFirstSearchAlgorithm.java:136-138 | the in-place loop over a copy of the row yields the row plus the curve for each hour of the year, later entries unchanged |
| Search.BroadFirstSearchAlgorithm.CreateNewElectrolyzer | src/main/java/arp/search/BroadFirstSearchAlgorithm.java:116-128 | the id is 1 for an empty table, otherwise the largest key plus 1, so it is fresh; efficiency from the constants, power 1.0, an empty accumulator, no sources; the table gains an all-zero row of 8760 entries under the id |
| Search.ActionOnEmptyStorage | src/main/java/arp/search/BroadFirstSearchAlgorithm.java:78-80 | a storage without electrolyzers gets exactly one new electrolyzer, with a fresh id and an all-zero row, at the electrolyzer cost, whatever the action type; the capacity and every existing row are unchanged |
| Search.ActionOnStorage | src/main/java/arp/search/BroadFirstSearchAlgorithm.java:81-102 | otherwise exactly one quantity changes, by exactly 1.0: the first electrolyzer's power (ELECTROLYZER), its accumulator size (ACCUMULATOR), the storage capacity (STORAGE), or its PV/wind source, whose curve is then added to its row hour by hour; the other electrolyzers and rows are kept, only PV and wind change the table, and the cost is the matching one |
| Search.BroadFirstSearchAlgorithm.ActOnStorage | src/main/java/arp/search/BroadFirstSearchAlgorithm.java:77-103 | the body of one storage's turn computes exactly the action specification `ApplyAction` |
| Search.SweepLeavesRest | src/main/java/arp/search/BroadFirstSearchAlgorithm.java:75-103 | while storage k's turn has not come, the shared list still holds the parent's storages k and later |
| Search.VerdictsUpToAt | src/main/java/arp/search/BroadFirstSearchAlgorithm.java:104-110 | the verdict recorded for child i is the evaluation of the configuration after the actions on storages 0..i |
| Search.ExpandChild | src/main/java/arp/search/BroadFirstSearchAlgorithm.java:75-111 | child i has the parent and action type; its action cost is that of the action on the parent's own storage i, and its total is the parent's total plus that cost only; it is judged on the list after the actions on storages 0..i (later storages as in the parent); it holds the list and table as they are after the last storage |
| Search.BroadFirstSearchAlgorithm.GetNextState | src/main/java/arp/search/BroadFirstSearchAlgorithm.java:66-114 | the loop over the shared list and table yields exactly the children `Expand` specifies, one per storage, in storage order |
| Search.BroadFirstSearchAlgorithm.ActAndEvaluate | src/main/java/arp/search/BroadFirstSearchAlgorithm.java:75-110 | one turn of the loop advances the shared list, table and verdicts from the state after storage i-1 to the state after storage i |
| Search.ChildrenKeepPathCost | src/main/java/arp/search/BroadFirstSearchAlgorithm.java:76-108 | every child's total cost is its parent's total plus its own action cost; so, from a root of total 0, each state's total is the sum of the action costs on its path |
| Search.KeepNewProperties | src/main/java/arp/search/BroadFirstSearchAlgorithm.java:50-55 | the children kept are among those generated, have pairwise distinct keys, none of them previously visited, and together with the visited keys they cover every generated key |
| Search.BroadFirstSearchAlgorithm.RecordNew | src/main/java/arp/search/BroadFirstSearchAlgorithm.java:50-55 | the inner loop keeps, in order, each state whose key is not yet visited, and records every key as visited |
| Search.BroadFirstSearchAlgorithm.ProcessState | src/main/java/arp/search/BroadFirstSearchAlgorithm.java:45-58 | the result is the new-keyed children of all action types in declaration order; the visited set gains exactly their keys |
| Search.NewChildrenKeepSearched | src/main/java/arp/search/BroadFirstSearchAlgorithm.java:36-41 | enqueueing the new children of an expansion keeps the bookkeeping: the visited keys are the earlier ones, the root's and those of every enqueued state, and no key is enqueued twice |
| Search.MinimalIndex | src/main/java/arp/search/BroadFirstSearchAlgorithm.java:37 | the index is in range, and under a strict order no queued state precedes the one found |
| Search.BroadFirstSearchAlgorithm.Poll | src/main/java/arp/search/BroadFirstSearchAlgorithm.java:37 | removes exactly one occurrence of the returned state from the queue, and under a strict order no queued state precedes it |
| Search.BroadFirstSearchAlgorithm.EvaluateYear | src/main/java/arp/search/BroadFirstSearchAlgorithm.java:61-62 | a fresh evaluator's result is the year specification `Year` of the data |
| Search.BroadFirstSearchAlgorithm.InitialState | src/main/java/arp/search/BroadFirstSearchAlgorithm.java:60-64 | the root holds the search's data and storages, its verdict and minimum level come from the year evaluation, and it has no parent, no action and zero costs |
| Search.BroadFirstSearchAlgorithm.constructor | src/main/java/arp/search/BroadFirstSearchAlgorithm.java:26-30 | the search starts with an empty queue and an empty visited set |
| Search.BroadFirstSearchAlgorithm.PollNext | src/main/java/arp/search/BroadFirstSearchAlgorithm.java:37 | one poll of the loop: the state polled is appended to the polled states and the queue it came from to the history, keeping the loop's bookkeeping |
| Search.PollHistoryExtends | src/main/java/arp/search/BroadFirstSearchAlgorithm.java:36-37 | a state polled from the queue as it stands, and minimal in it, extends the history of polls |
| Search.BroadFirstSearchAlgorithm.ExpandPolled | src/main/java/arp/search/BroadFirstSearchAlgorithm.java:40 | one expansion of the loop: the new children of the polled state (not good) are added to the queue and to the enqueued states, keeping the loop's bookkeeping |
| Search.BroadFirstSearchAlgorithm.Calculate | src/main/java/arp/search/BroadFirstSearchAlgorithm.java:32-43 | the root is the initial configuration with its year verdict; each polled state was in the queue at the time and, under a strict order, minimal there; the initial queue, the root and the enqueued children are exactly the polled states and those left in the queue; the enqueued children are the new children of the states polled before, in order; a found state is good, is the last polled, and no earlier polled state was good; nothing found means the queue is empty; out of fuel means `fuel` states were polled and expanded; the root's key and every enqueued key are in the visited set, which only grows; no key is enqueued twice, and none was visited before; every queued state's total is its path cost |

## Left out

- The next-step simulator (`CalculateNextStepAlgorithm`): CalculateNextStepAlgorithm is not part of this model. It is the parameter `nextStep`, assumed deterministic, so the loss, overflow and shortfall rules of one hour are not modelled.
- `State` (its `toString`, `compareTo` and fields beyond those set here) and `YearResult.isGood` are not part of this model. They are the parameters `keyOf`, `precedes` and `yearIsGood`.
- `Storage.clone` and the `Storage`/`Electrolyzer` classes are not part of this model. Configurations are values, so cloning is a deep copy. A shallow clone would let the ELECTROLYZER, ACCUMULATOR, PV and WIND actions reach the parent's objects, and that is not captured.
- `Search.BroadFirstSearchAlgorithm.Calculate`: the unbounded `while` loop runs for at most `fuel` expansions and returns `OutOfFuel` when the fuel is spent. The `SOLUTION_NOT_FOUND` exception is the outcome `NotFound`.
- Optimality of the returned state is not claimed, because the queue order is a parameter.
- Floating point: doubles are reals, so rounding in the sums, the minimum and the curve additions is not modelled.
- `Utils.roundDouble`: it rounds to a string and is used only for display.
- Console output (`System.out.println`) is left out.
- Lombok and Swagger annotations are left out.
- The text of warnings and errors is left out. Warnings are tags carrying the reported number.
- `Search.BroadFirstSearchAlgorithm.CreateNewElectrolyzer`: the `long` id (largest key + 1) is unbounded, so overflow at the largest `long` is not modelled.
- `Collectors.toMap` over the storage list throws on two equal storages. The storage states are a sequence with one entry per position, so that failure is not modelled. Storage equality is not part of this model.
- `Search.BroadFirstSearchAlgorithm.GetNextState` and `Search.BroadFirstSearchAlgorithm.AddPv`/`AddWind` require:
  - PV and wind curves of at least 8760 hours;
  - a full-year row for each storage's first electrolyzer.
  
  Without them the code would fail with an array or null-pointer exception. The failures themselves are not modelled.
- The priority queue is a sequence, and polling takes the state a linear scan finds minimal. The heap's choice among incomparable states is not modelled.
- `ActOnStorage`, `ActAndEvaluate`, `RecordNew`, `EvaluateYear`, `PollNext` and `ExpandPolled` are pieces of `getNextState`, `processState`, `initialState` and `calculate` split out as methods of their own. The Java code has them inline.
- Electrolyzer fields that the search neither sets nor reads (minimum power, per-electrolyzer production) are not modelled.
- The expected-cost scenario of the search's test is not modelled. It depends on the simulator and on the queue order.
