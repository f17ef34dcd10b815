/**
  The configuration search: a priority-queue search over grid configurations
  with a set of visited keys. Expanding a state applies, for every action type
  and every storage, one unit-sized action (create an electrolyzer, or add one
  unit of wind, PV, electrolyzer power, accumulator size or storage capacity);
  each child is evaluated by the year evaluator and enqueued only if its key is
  new. The first dequeued state that is good is returned.

  The hidden collaborators are parameters of the search object: the next-step
  simulator `nextStep`, the verdict `yearIsGood` of a year result, the key
  `keyOf` of a state (its string rendering) and the queue order `precedes`
  (`a` is polled before `b`).
 */
module Search {
  import opened Grid
  import opened Utils
  import opened YearEvaluation

  datatype ActionType = WIND | PV | ELECTROLYZER | ACCUMULATOR | STORAGE

  /** The action types in declaration order, as `ActionType.values()` yields them. */
  const ActionTypes: seq<ActionType> := [ActionType.WIND, ActionType.PV, ELECTROLYZER, ACCUMULATOR, STORAGE]

  /** A search node: a configuration with its verdict, the parent it was expanded
      from and the action that produced it. */
  datatype State = State(
    storages: seq<Storage>,
    isGood: bool,
    minHourHydrogenLevel: real,
    parent: Option<State>,
    actionType: Option<ActionType>,
    actionCost: real,
    totalCost: real,
    data: Data)

  datatype SearchOutcome = Found(state: State) | NotFound | OutOfFuel

  // ---------------------------------------------------------------------------
  // Well-formedness: what the actions need in order not to fail

  /** The search's PV and wind curves cover the whole year. */
  predicate CurvesCover(data: Data)
  {
    |data.gridConstants.pvDailyProduction| >= HOURS_OF_YEAR && |data.gridConstants.windDailyProduction| >= HOURS_OF_YEAR
  }

  /** The first electrolyzer of the storage, if any, has a full-year production row. */
  predicate HasRow(storage: Storage, production: ProductionMap)
  {
    |storage.electrolyzers| > 0 ==>
      storage.electrolyzers[0].id in production && |production[storage.electrolyzers[0].id]| >= HOURS_OF_YEAR
  }

  predicate RowsFor(storages: seq<Storage>, production: ProductionMap)
  {
    forall i :: 0 <= i < |storages| ==> HasRow(storages[i], production)
  }

  /** `after` keeps every row of `before`, with its length. */
  predicate Extends(before: ProductionMap, after: ProductionMap)
  {
    forall id :: id in before ==> id in after && |after[id]| == |before[id]|
  }

  predicate Consistent(state: State)
  {
    RowsFor(state.storages, state.data.summaryEnergyProduction)
  }

  // ---------------------------------------------------------------------------
  // The actions, as functions of the configuration they change

  /** The index of the first source of the given type. */
  function FindEnergySource(sources: seq<EnergySource>, sourceType: EnergySourceType): (r: Option<nat>)
    ensures r.Some? ==> r.value < |sources| && sources[r.value].sourceType == sourceType
    ensures r.Some? ==> forall j :: 0 <= j < r.value ==> sources[j].sourceType != sourceType
    ensures r.None? ==> forall j :: 0 <= j < |sources| ==> sources[j].sourceType != sourceType
  {
    if sources == [] then None
    else if sources[0].sourceType == sourceType then Some(0)
    else match FindEnergySource(sources[1..], sourceType)
      case None => None
      case Some(i) => Some(i + 1)
  }

  /** The sources with one of the given type present, and the index of the first
      such source: the existing one, or a new one appended with zero power and
      zero distance. */
  function GetOrCreate(sources: seq<EnergySource>, sourceType: EnergySourceType): (r: (seq<EnergySource>, nat))
    ensures r.1 < |r.0| && r.0[r.1].sourceType == sourceType
    ensures forall j :: 0 <= j < r.1 ==> r.0[j].sourceType != sourceType
    ensures |sources| <= |r.0| <= |sources| + 1 && r.0[..|sources|] == sources
    ensures |r.0| == |sources| + 1 ==> r.0[|sources|] == EnergySource(sourceType, 0.0, 0.0)
  {
    match FindEnergySource(sources, sourceType)
    case Some(i) => (sources, i)
    case None => (sources + [EnergySource(sourceType, 0.0, 0.0)], |sources|)
  }

  /** The electrolyzer with one more unit of power on its source of the given type. */
  function WithUnitOfSource(electrolyzer: Electrolyzer, sourceType: EnergySourceType): Electrolyzer
  {
    var (sources, i) := GetOrCreate(electrolyzer.sources, sourceType);
    electrolyzer.(sources := sources[i := sources[i].(maxPower := sources[i].maxPower + 1.0)])
  }

  /** The row with the curve added for each hour of the year. */
  function AddCurveRow(row: seq<real>, curve: seq<real>): (r: seq<real>)
    requires |row| >= HOURS_OF_YEAR && |curve| >= HOURS_OF_YEAR
  {
    seq(|row|, h requires 0 <= h < |row| => if h < HOURS_OF_YEAR then row[h] + curve[h] else row[h])
  }

  function Zeros(): seq<real>
  {
    seq(HOURS_OF_YEAR, _ => 0.0)
  }

  /** A non-empty set has a member. */
  lemma NonEmptyHasMember(keys: set<int>)
    requires keys != {}
    ensures exists k :: k in keys
  {
    if forall k :: k !in keys {
      assert false;
    }
  }

  ghost function MaxKey(keys: set<int>): (m: int)
    requires keys != {}
    ensures m in keys && forall k :: k in keys ==> k <= m
  {
    NonEmptyHasMember(keys);
    var x :| x in keys;
    if keys == {x} then x
    else
      var rest := MaxKey(keys - {x});
      assert forall k :: k in keys ==> k == x || k in keys - {x};
      if x > rest then x else rest
  }

  /** One more than the largest id in the table, or 1 for an empty table. */
  ghost function NewElectrolyzerId(production: ProductionMap): int
  {
    if production == map[] then 1 else MaxKey(production.Keys) + 1
  }

  ghost function NewElectrolyzer(data: Data, production: ProductionMap): Electrolyzer
  {
    Electrolyzer(NewElectrolyzerId(production), data.gridConstants.electrolyzerEfficiency, 1.0, Accumulator(0.0), [])
  }

  datatype ActionEffect = ActionEffect(storage: Storage, production: ProductionMap, actionCost: real)

  /** One action on one storage. `data` is the search's own data (source of the
      PV and wind curves and costs and of the electrolyzer efficiency); `costs`
      are the costs of the state being expanded. */
  ghost function ApplyAction(data: Data, costs: GridCosts, storage: Storage, production: ProductionMap,
                             action: ActionType): (effect: ActionEffect)
    requires CurvesCover(data) && HasRow(storage, production)
    ensures HasRow(effect.storage, effect.production) && Extends(production, effect.production)
  {
    if |storage.electrolyzers| == 0 then
      var electrolyzer := NewElectrolyzer(data, production);
      ActionEffect(storage.(electrolyzers := storage.electrolyzers + [electrolyzer]),
                   production[electrolyzer.id := Zeros()], costs.electrolyzerCost)
    else
      var electrolyzer := storage.electrolyzers[0];
      match action
      case WIND =>
        ActionEffect(storage.(electrolyzers := storage.electrolyzers[0 := WithUnitOfSource(electrolyzer, EnergySourceType.WIND)]),
                     production[electrolyzer.id := AddCurveRow(production[electrolyzer.id], data.gridConstants.windDailyProduction)],
                     data.gridCosts.windCost)
      case PV =>
        ActionEffect(storage.(electrolyzers := storage.electrolyzers[0 := WithUnitOfSource(electrolyzer, EnergySourceType.PV)]),
                     production[electrolyzer.id := AddCurveRow(production[electrolyzer.id], data.gridConstants.pvDailyProduction)],
                     data.gridCosts.pvCost)
      case ELECTROLYZER =>
        ActionEffect(storage.(electrolyzers := storage.electrolyzers[0 := electrolyzer.(maxPower := electrolyzer.maxPower + 1.0)]),
                     production, costs.electrolyzerCost)
      case ACCUMULATOR =>
        var accumulator := Accumulator(electrolyzer.accumulator.accumulatorMaxSize + 1.0);
        ActionEffect(storage.(electrolyzers := storage.electrolyzers[0 := electrolyzer.(accumulator := accumulator)]),
                     production, costs.storagePowerCost)
      case STORAGE =>
        ActionEffect(storage.(maxCapacity := storage.maxCapacity + 1.0), production, costs.storageHydrogenCost)
  }

  /** A storage without an electrolyzer gets exactly one, whatever the action:
      a fresh id, registered with an all-zero row, at the electrolyzer cost;
      nothing else changes. */
  lemma ActionOnEmptyStorage(data: Data, costs: GridCosts, storage: Storage, production: ProductionMap,
                             action: ActionType)
    requires CurvesCover(data) && |storage.electrolyzers| == 0
    ensures var effect := ApplyAction(data, costs, storage, production, action);
      && |effect.storage.electrolyzers| == 1
      && effect.storage.maxCapacity == storage.maxCapacity
      && effect.actionCost == costs.electrolyzerCost
      && var e := effect.storage.electrolyzers[0];
      && e.id !in production
      && e == Electrolyzer(e.id, data.gridConstants.electrolyzerEfficiency, 1.0, Accumulator(0.0), [])
      && effect.production.Keys == production.Keys + {e.id}
      && (forall id :: id in production ==> effect.production[id] == production[id])
      && |effect.production[e.id]| == HOURS_OF_YEAR
      && (forall h :: 0 <= h < HOURS_OF_YEAR ==> effect.production[e.id][h] == 0.0)
      && forall other: ActionType :: ApplyAction(data, costs, storage, production, other) == effect
  {
  }

  /** On a storage with electrolyzers, an action changes one quantity by exactly
      one unit: the first electrolyzer's power, accumulator size or source of
      the type (whose curve is then added to its row, hour by hour), or the
      storage capacity. Every other electrolyzer and every other row is kept,
      and only PV and wind change the table. */
  lemma ActionOnStorage(data: Data, costs: GridCosts, storage: Storage, production: ProductionMap,
                        action: ActionType)
    requires CurvesCover(data) && HasRow(storage, production) && |storage.electrolyzers| > 0
    ensures var effect := ApplyAction(data, costs, storage, production, action);
      var e := storage.electrolyzers[0];
      var e' := effect.storage.electrolyzers[0];
      && |effect.storage.electrolyzers| == |storage.electrolyzers|
      && effect.storage.electrolyzers[1..] == storage.electrolyzers[1..]
      && effect.storage.maxCapacity == storage.maxCapacity + (if action == STORAGE then 1.0 else 0.0)
      && e'.id == e.id && e'.efficiency == e.efficiency
      && e'.maxPower == e.maxPower + (if action == ELECTROLYZER then 1.0 else 0.0)
      && e'.accumulator.accumulatorMaxSize == e.accumulator.accumulatorMaxSize + (if action == ACCUMULATOR then 1.0 else 0.0)
      && (action in {ELECTROLYZER, ACCUMULATOR, STORAGE} ==> e'.sources == e.sources && effect.production == production)
      && (action.WIND? ==> e' == WithUnitOfSource(e, EnergySourceType.WIND))
      && (action.PV? ==> e' == WithUnitOfSource(e, EnergySourceType.PV))
      && effect.production.Keys == production.Keys
      && (forall id :: id in production && id != e.id ==> effect.production[id] == production[id])
      && |effect.production[e.id]| == |production[e.id]|
      && (action.WIND? ==> forall h :: 0 <= h < HOURS_OF_YEAR ==>
            effect.production[e.id][h] == production[e.id][h] + data.gridConstants.windDailyProduction[h])
      && (action.PV? ==> forall h :: 0 <= h < HOURS_OF_YEAR ==>
            effect.production[e.id][h] == production[e.id][h] + data.gridConstants.pvDailyProduction[h])
      && effect.actionCost == match action
           case WIND => data.gridCosts.windCost
           case PV => data.gridCosts.pvCost
           case ELECTROLYZER => costs.electrolyzerCost
           case ACCUMULATOR => costs.storagePowerCost
           case STORAGE => costs.storageHydrogenCost
  {
  }

  // ---------------------------------------------------------------------------
  // Expanding a state

  /** What the evaluation of one child yielded. */
  datatype Verdict = Verdict(isGood: bool, minHourHydrogenLevel: real, actionCost: real)

  /** The shared storage list and production table after the actions on the
      first k storages, and the costs of those k actions. */
  datatype Sweep = Sweep(storages: seq<Storage>, production: ProductionMap, actionCosts: seq<real>)

  /** The data a child is evaluated on: the parent's constants, costs and
      consumption with the given storages and production table. */
  function ChildData(parent: State, storages: seq<Storage>, production: ProductionMap): Data
  {
    Data(parent.data.gridConstants, parent.data.gridCosts, storages, parent.data.vehiclesConsumption, production)
  }

  /** The actions on storages 0..k-1, one after the other, all on ONE list and
      ONE table. */
  ghost function SweepUpTo(data: Data, state: State, action: ActionType, k: nat): (sweep: Sweep)
    requires CurvesCover(data) && Consistent(state) && k <= |state.storages|
    ensures |sweep.storages| == |state.storages| && |sweep.actionCosts| == k
    ensures RowsFor(sweep.storages, sweep.production)
    ensures Extends(state.data.summaryEnergyProduction, sweep.production)
    decreases k
  {
    if k == 0 then Sweep(state.storages, state.data.summaryEnergyProduction, [])
    else
      var prev := SweepUpTo(data, state, action, k - 1);
      var effect := ApplyAction(data, state.data.gridCosts, prev.storages[k - 1], prev.production, action);
      Sweep(prev.storages[k - 1 := effect.storage], effect.production, prev.actionCosts + [effect.actionCost])
  }

  /** One more storage of the sweep, written out. */
  lemma SweepUpToNext(data: Data, state: State, action: ActionType, k: nat)
    requires CurvesCover(data) && Consistent(state) && k < |state.storages|
    ensures var prev := SweepUpTo(data, state, action, k);
      var effect := ApplyAction(data, state.data.gridCosts, prev.storages[k], prev.production, action);
      SweepUpTo(data, state, action, k + 1)
        == Sweep(prev.storages[k := effect.storage], effect.production, prev.actionCosts + [effect.actionCost])
  {
  }

  /** Child i is evaluated on the configuration that already carries the
      actions on storages 0..i, not on the parent's configuration plus its own
      action alone. */
  ghost function VerdictAt(data: Data, evaluate: Data -> YearResult, yearIsGood: YearResult -> bool,
                           state: State, action: ActionType, i: nat): Verdict
    requires CurvesCover(data) && Consistent(state) && i < |state.storages|
  {
    var after := SweepUpTo(data, state, action, i + 1);
    var year := evaluate(ChildData(state, after.storages, after.production));
    Verdict(yearIsGood(year), year.minHourHydrogenLevel, after.actionCosts[i])
  }

  /** The verdicts of children 0..k-1. */
  ghost function VerdictsUpTo(data: Data, evaluate: Data -> YearResult, yearIsGood: YearResult -> bool,
                              state: State, action: ActionType, k: nat): (verdicts: seq<Verdict>)
    requires CurvesCover(data) && Consistent(state) && k <= |state.storages|
    ensures |verdicts| == k
  {
    if k == 0 then []
    else VerdictsUpTo(data, evaluate, yearIsGood, state, action, k - 1) + [VerdictAt(data, evaluate, yearIsGood, state, action, k - 1)]
  }

  /** The sweep up to storage k has not yet touched storages k and later. */
  lemma {:induction false} SweepLeavesRest(data: Data, state: State, action: ActionType, k: nat)
    requires CurvesCover(data) && Consistent(state) && k <= |state.storages|
    ensures forall j :: k <= j < |state.storages| ==> SweepUpTo(data, state, action, k).storages[j] == state.storages[j]
  {
    if k > 0 {
      SweepLeavesRest(data, state, action, k - 1);
    }
  }

  /** Child i's verdict, as the list of verdicts holds it, is the evaluation of
      the configuration after the actions on storages 0..i. */
  lemma {:induction false} VerdictsUpToAt(data: Data, evaluate: Data -> YearResult, yearIsGood: YearResult -> bool,
                                          state: State, action: ActionType, k: nat, i: nat)
    requires CurvesCover(data) && Consistent(state) && i < k <= |state.storages|
    ensures VerdictsUpTo(data, evaluate, yearIsGood, state, action, k)[i] == VerdictAt(data, evaluate, yearIsGood, state, action, i)
  {
    if i < k - 1 {
      VerdictsUpToAt(data, evaluate, yearIsGood, state, action, k - 1, i);
    }
  }

  function Child(parent: State, action: ActionType, verdict: Verdict, storages: seq<Storage>, production: ProductionMap): State
  {
    State(storages, verdict.isGood, verdict.minHourHydrogenLevel, Some(parent), Some(action), verdict.actionCost,
          parent.totalCost + verdict.actionCost, ChildData(parent, storages, production))
  }

  /** The children of one action type, one per storage. All of them hold the
      shared list and table as they are once every storage has been acted on. */
  ghost function Expand(data: Data, evaluate: Data -> YearResult, yearIsGood: YearResult -> bool,
                        state: State, action: ActionType): (children: seq<State>)
    requires CurvesCover(data) && Consistent(state)
    ensures |children| == |state.storages|
  {
    var final := SweepUpTo(data, state, action, |state.storages|);
    var verdicts := VerdictsUpTo(data, evaluate, yearIsGood, state, action, |state.storages|);
    seq(|verdicts|, i requires 0 <= i < |verdicts| => Child(state, action, verdicts[i], final.storages, final.production))
  }

  /** Child i of an expansion: its action is the one on the parent's own
      storage i, applied to the table as the earlier actions left it, and its
      costs count that action only; its verdict is that of the configuration
      carrying the actions on storages 0..i (storages after i as in the
      parent); and it holds the list and table as they are after the last
      storage. */
  lemma ExpandChild(data: Data, evaluate: Data -> YearResult, yearIsGood: YearResult -> bool,
                    state: State, action: ActionType, i: nat)
    requires CurvesCover(data) && Consistent(state) && i < |state.storages|
    ensures var child := Expand(data, evaluate, yearIsGood, state, action)[i];
      var before := SweepUpTo(data, state, action, i);
      var after := SweepUpTo(data, state, action, i + 1);
      var final := SweepUpTo(data, state, action, |state.storages|);
      var effect := ApplyAction(data, state.data.gridCosts, state.storages[i], before.production, action);
      && child.parent == Some(state) && child.actionType == Some(action)
      && child.actionCost == effect.actionCost
      && child.totalCost == state.totalCost + effect.actionCost
      && after.storages[i] == effect.storage
      && (forall j :: i < j < |state.storages| ==> after.storages[j] == state.storages[j])
      && child.isGood == yearIsGood(evaluate(ChildData(state, after.storages, after.production)))
      && child.storages == final.storages
      && child.data.summaryEnergyProduction == final.production
  {
    SweepLeavesRest(data, state, action, i);
    SweepLeavesRest(data, state, action, i + 1);
    VerdictsUpToAt(data, evaluate, yearIsGood, state, action, |state.storages|, i);
  }

  /** The children of the first `count` action types, in order. */
  ghost function ChildrenUpTo(data: Data, evaluate: Data -> YearResult, yearIsGood: YearResult -> bool,
                              state: State, count: nat): seq<State>
    requires CurvesCover(data) && Consistent(state) && count <= |ActionTypes|
  {
    if count == 0 then []
    else ChildrenUpTo(data, evaluate, yearIsGood, state, count - 1)
         + Expand(data, evaluate, yearIsGood, state, ActionTypes[count - 1])
  }

  // ---------------------------------------------------------------------------
  // Keys and the visited set

  function KeysOf(keyOf: State -> string, states: seq<State>): set<string>
  {
    set s | s in states :: keyOf(s)
  }

  predicate KeysDistinct(keyOf: State -> string, states: seq<State>)
  {
    forall i, j :: 0 <= i < j < |states| ==> keyOf(states[i]) != keyOf(states[j])
  }

  /** The states, in order, whose key is neither visited nor the key of an
      earlier state. */
  function KeepNew(keyOf: State -> string, states: seq<State>, visited: set<string>): seq<State>
  {
    if states == [] then []
    else
      var earlier := states[..|states| - 1];
      var last := states[|states| - 1];
      if keyOf(last) in visited + KeysOf(keyOf, earlier) then KeepNew(keyOf, earlier, visited)
      else KeepNew(keyOf, earlier, visited) + [last]
  }

  /** The states kept are among the given ones, have distinct keys, none of them
      visited, and together with the visited keys they cover every given key. */
  lemma {:induction false} KeepNewProperties(keyOf: State -> string, states: seq<State>, visited: set<string>)
    ensures var kept := KeepNew(keyOf, states, visited);
      && (forall s :: s in kept ==> s in states)
      && KeysDistinct(keyOf, kept)
      && (forall s :: s in kept ==> keyOf(s) !in visited)
      && visited + KeysOf(keyOf, kept) == visited + KeysOf(keyOf, states)
  {
    if states != [] {
      var earlier := states[..|states| - 1];
      var last := states[|states| - 1];
      assert states == earlier + [last];
      KeepNewProperties(keyOf, earlier, visited);
      var prev := KeepNew(keyOf, earlier, visited);
      assert KeysOf(keyOf, states) == KeysOf(keyOf, earlier) + {keyOf(last)};
      if keyOf(last) !in visited + KeysOf(keyOf, earlier) {
        assert KeysOf(keyOf, prev + [last]) == KeysOf(keyOf, prev) + {keyOf(last)};
        assert keyOf(last) !in KeysOf(keyOf, prev);
      }
    }
  }

  lemma KeepNewAppend(keyOf: State -> string, states: seq<State>, next: State, visited: set<string>)
    ensures KeysOf(keyOf, states + [next]) == KeysOf(keyOf, states) + {keyOf(next)}
    ensures KeepNew(keyOf, states + [next], visited) ==
      if keyOf(next) in visited + KeysOf(keyOf, states) then KeepNew(keyOf, states, visited)
      else KeepNew(keyOf, states, visited) + [next]
  {
    assert (states + [next])[..|states|] == states;
  }

  lemma PrefixStep(processed: seq<State>, states: seq<State>, j: nat)
    requires j < |states|
    ensures processed + states[..j + 1] == (processed + states[..j]) + [states[j]]
  {
    assert states[..j + 1] == states[..j] + [states[j]];
  }

  lemma KeysAppend(keyOf: State -> string, earlier: seq<State>, later: seq<State>)
    ensures KeysOf(keyOf, earlier + later) == KeysOf(keyOf, earlier) + KeysOf(keyOf, later)
  {
    assert forall s :: s in earlier + later <==> s in earlier || s in later;
  }

  /** The search's bookkeeping: the visited keys are the earlier ones, the
      root's and those of the states enqueued, which are distinct and new. */
  ghost predicate Searched(keyOf: State -> string, visitedStates: set<string>, visited: set<string>, root: State,
                           enqueued: seq<State>)
  {
    && visitedStates == visited + {keyOf(root)} + KeysOf(keyOf, enqueued)
    && KeysDistinct(keyOf, enqueued)
    && (forall s :: s in enqueued ==> keyOf(s) !in visited && keyOf(s) != keyOf(root))
  }

  /** Enqueueing the new children of an expansion, and recording their keys,
      keeps the bookkeeping. */
  lemma NewChildrenKeepSearched(keyOf: State -> string, visitedStates: set<string>, visited: set<string>, root: State,
                                enqueued: seq<State>, children: seq<State>)
    requires Searched(keyOf, visitedStates, visited, root, enqueued)
    ensures Searched(keyOf, visitedStates + KeysOf(keyOf, children), visited, root,
                     enqueued + KeepNew(keyOf, children, visitedStates))
  {
    var kept := KeepNew(keyOf, children, visitedStates);
    KeepNewProperties(keyOf, children, visitedStates);
    KeysAppend(keyOf, enqueued, kept);
    forall i, j | 0 <= i < j < |enqueued + kept|
      ensures keyOf((enqueued + kept)[i]) != keyOf((enqueued + kept)[j])
    {
      if j >= |enqueued| && i < |enqueued| {
        assert enqueued[i] in enqueued;
        assert keyOf(enqueued[i]) in visitedStates;
        assert kept[j - |enqueued|] in kept;
      }
    }
  }

  /** The states enqueued by expanding the given states in order, starting
      from the visited keys `visited`; `newChildren(p, v)` are the children of
      `p` kept when the keys `v` are visited. */
  ghost function EnqueuedBy(newChildren: (State, set<string>) -> seq<State>, keyOf: State -> string,
                            expanded: seq<State>, visited: set<string>): seq<State>
  {
    if expanded == [] then []
    else
      var earlier := EnqueuedBy(newChildren, keyOf, expanded[..|expanded| - 1], visited);
      earlier + newChildren(expanded[|expanded| - 1], visited + KeysOf(keyOf, earlier))
  }

  // ---------------------------------------------------------------------------
  // Costs along the search tree

  /** The sum of the action costs from the root to this state. */
  function PathCost(state: State): real
    decreases state
  {
    state.actionCost + (match state.parent case None => 0.0 case Some(p) => PathCost(p))
  }

  /** A child's total cost is its parent's plus its own action cost only, so a
      parent whose total is its path cost has children whose totals are theirs. */
  lemma ChildrenKeepPathCost(data: Data, evaluate: Data -> YearResult, yearIsGood: YearResult -> bool,
                             state: State, count: nat)
    requires CurvesCover(data) && Consistent(state) && count <= |ActionTypes|
    requires state.totalCost == PathCost(state)
    ensures forall c :: c in ChildrenUpTo(data, evaluate, yearIsGood, state, count) ==>
      && c.parent == Some(state)
      && c.totalCost == state.totalCost + c.actionCost
      && c.totalCost == PathCost(c)
      && Consistent(c)
  {
    if count > 0 {
      ChildrenKeepPathCost(data, evaluate, yearIsGood, state, count - 1);
    }
  }

  /** Enqueueing children keeps the balance between the states ever queued
      and those polled or still queued. */
  lemma BalanceAppend(initial: seq<State>, root: State, enqueued: seq<State>, polled: seq<State>,
                      queue: seq<State>, children: seq<State>)
    requires multiset(initial) + multiset{root} + multiset(enqueued) == multiset(polled) + multiset(queue)
    ensures multiset(initial) + multiset{root} + multiset(enqueued + children) == multiset(polled) + multiset(queue + children)
  {
    assert multiset(enqueued + children) == multiset(enqueued) + multiset(children);
    assert multiset(queue + children) == multiset(queue) + multiset(children);
    calc {
      multiset(initial) + multiset{root} + multiset(enqueued + children);
      (multiset(initial) + multiset{root} + multiset(enqueued)) + multiset(children);
      (multiset(polled) + multiset(queue)) + multiset(children);
      multiset(polled) + multiset(queue + children);
    }
  }

  // ---------------------------------------------------------------------------
  // The priority queue's poll

  /** `precedes` is irreflexive and transitive. */
  ghost predicate StrictOrder(precedes: (State, State) -> bool)
  {
    && (forall a :: !precedes(a, a))
    && (forall a, b, c :: precedes(a, b) && precedes(b, c) ==> precedes(a, c))
  }

  /** The index of a state that no state of the queue precedes, found by a
      linear scan that moves to any later state preceding the current one. */
  method MinimalIndex(queue: seq<State>, precedes: (State, State) -> bool) returns (best: nat)
    requires queue != []
    ensures best < |queue|
    ensures StrictOrder(precedes) ==> forall j :: 0 <= j < |queue| ==> !precedes(queue[j], queue[best])
  {
    best := 0;
    for i := 1 to |queue|
      invariant best < i
      invariant StrictOrder(precedes) ==> forall j :: 0 <= j < i ==> !precedes(queue[j], queue[best])
    {
      if precedes(queue[i], queue[best]) {
        best := i;
      }
    }
  }

  // ---------------------------------------------------------------------------
  // The search object

  class BroadFirstSearchAlgorithm {
    const data: Data
    const nextStep: (Data, Step) -> StepOutcome
    const yearIsGood: YearResult -> bool
    const keyOf: State -> string
    const precedes: (State, State) -> bool
    var priorityQueue: seq<State>
    var visitedStates: set<string>
    /** The year evaluation of a fresh evaluator, as a function of the data. */
    ghost const evaluate: Data -> YearResult
    /** The children of a state that one expansion enqueues, as a function of
        the state and of the keys visited before it. */
    ghost const newChildren: (State, set<string>) -> seq<State>

    /** `evaluate` is the year evaluation with this object's next-step
        simulator. */
    ghost predicate EvaluatesYears()
    {
      forall d {:trigger Year(d, nextStep)} :: evaluate(d) == Year(d, nextStep)
    }

    /** `newChildren` is the expansion that `ProcessState` performs. */
    ghost predicate ExpandsStates()
    {
      forall p, v {:trigger KeepNew(keyOf, ChildrenUpTo(data, evaluate, yearIsGood, p, |ActionTypes|), v)} ::
        CurvesCover(data) && Consistent(p) ==>
          newChildren(p, v) == KeepNew(keyOf, ChildrenUpTo(data, evaluate, yearIsGood, p, |ActionTypes|), v)
    }

    /** The actions need full-year curves and rows; every queued state is
        consistent and its total cost is its path cost. */
    ghost predicate Valid()
      reads this
    {
      && EvaluatesYears() && ExpandsStates()
      && CurvesCover(data)
      && RowsFor(data.storages, data.summaryEnergyProduction)
      && forall s :: s in priorityQueue ==> Consistent(s) && s.totalCost == PathCost(s)
    }

    constructor (data: Data, nextStep: (Data, Step) -> StepOutcome, yearIsGood: YearResult -> bool,
                 keyOf: State -> string, precedes: (State, State) -> bool)
      requires CurvesCover(data) && RowsFor(data.storages, data.summaryEnergyProduction)
      ensures this.data == data && this.nextStep == nextStep && this.yearIsGood == yearIsGood
      ensures this.keyOf == keyOf && this.precedes == precedes
      ensures priorityQueue == [] && visitedStates == {}
      ensures Valid()
    {
      this.data := data;
      this.nextStep := nextStep;
      this.yearIsGood := yearIsGood;
      this.keyOf := keyOf;
      this.precedes := precedes;
      var ev := d => Year(d, nextStep);
      evaluate := ev;
      newChildren := (p, v) =>
        if CurvesCover(data) && Consistent(p) then KeepNew(keyOf, ChildrenUpTo(data, ev, yearIsGood, p, |ActionTypes|), v) else [];
      priorityQueue := [];
      visitedStates := {};
    }

    /** `queues[i]` is the queue as it was when `polled[i]` was polled: it held
        the states initially queued, the root and the children of the states
        polled before, less those states; `polled[i]` was in it and, under a
        strict order, no state of it preceded `polled[i]`. */
    ghost predicate PollHistory(initial: seq<State>, root: State, polled: seq<State>, queues: seq<seq<State>>,
                                visited: set<string>)
    {
      && |queues| == |polled|
      && forall i :: 0 <= i < |polled| ==>
           && multiset(queues[i]) + multiset(polled[..i]) ==
              multiset(initial) + multiset{root} + multiset(EnqueuedBy(newChildren, keyOf, polled[..i], visited))
           && polled[i] in queues[i]
           && (StrictOrder(precedes) ==> forall s :: s in queues[i] ==> !precedes(s, polled[i]))
    }

    /** Polling one more state from the queue, as it now stands, extends the
        history. */
    lemma PollHistoryExtends(initial: seq<State>, root: State, polled: seq<State>, queues: seq<seq<State>>,
                             visited: set<string>, queue: seq<State>, state: State)
      requires PollHistory(initial, root, polled, queues, visited)
      requires state in queue
      requires multiset(queue) + multiset(polled) ==
               multiset(initial) + multiset{root} + multiset(EnqueuedBy(newChildren, keyOf, polled, visited))
      requires StrictOrder(precedes) ==> forall s :: s in queue ==> !precedes(s, state)
      ensures PollHistory(initial, root, polled + [state], queues + [queue], visited)
    {
      var polled', queues' := polled + [state], queues + [queue];
      forall i | 0 <= i < |polled'|
        ensures polled'[..i] == if i < |polled| then polled[..i] else polled
      {
      }
    }

    /** The search's loop state: the object is valid; `start` are the keys
        visited before the search; `polled` lists the states polled, `queues`
        the queue as each was polled; `expanded` (all of `polled`, or all but
        the last) were expanded, none of them good, and `enqueued` are their
        new children; the states queued initially, the root and the enqueued
        ones are exactly those polled and those still queued. */
    ghost predicate Searching(initial: seq<State>, root: State, start: set<string>, polled: seq<State>,
                              queues: seq<seq<State>>, expanded: seq<State>, enqueued: seq<State>)
      reads this
    {
      && Valid()
      && Searched(keyOf, visitedStates, start, root, enqueued)
      && PollHistory(initial, root, polled, queues, start + {keyOf(root)})
      && (forall s :: s in expanded ==> !s.isGood)
      && enqueued == EnqueuedBy(newChildren, keyOf, expanded, start + {keyOf(root)})
      && multiset(initial) + multiset{root} + multiset(enqueued) == multiset(polled) + multiset(priorityQueue)
    }

    /** Runs the search for at most `fuel` expansions. The root is the initial
        configuration with its year verdict. `polled` lists the states polled,
        in order, `queues` the queue as each was polled, and `enqueued` the new
        children of every polled state but a found one. Nothing is lost or
        invented: what was queued, the root and the enqueued children are
        exactly the states polled and those left in the queue. A found state is
        the last polled, is good, and no earlier polled state was; the search
        reports nothing found only once the queue is empty, and runs out of fuel
        only after `fuel` expansions. The visited set only grows, and no key is
        enqueued twice. */
    method Calculate(fuel: nat) returns (outcome: SearchOutcome, ghost root: State,
                                         ghost polled: seq<State>, ghost queues: seq<seq<State>>,
                                         ghost enqueued: seq<State>)
      requires Valid()
      modifies this
      ensures Valid()
      ensures root == State(data.storages, yearIsGood(Year(data, nextStep)), Year(data, nextStep).minHourHydrogenLevel,
                            None, None, 0.0, 0.0, data)
      ensures PollHistory(old(priorityQueue), root, polled, queues, old(visitedStates) + {keyOf(root)})
      ensures multiset(old(priorityQueue)) + multiset{root} + multiset(enqueued) ==
              multiset(polled) + multiset(priorityQueue)
      ensures outcome.Found? ==>
        && outcome.state.isGood && outcome.state.totalCost == PathCost(outcome.state)
        && 1 <= |polled| <= fuel && polled[|polled| - 1] == outcome.state
        && (forall i :: 0 <= i < |polled| - 1 ==> !polled[i].isGood)
        && enqueued == EnqueuedBy(newChildren, keyOf, polled[..|polled| - 1], old(visitedStates) + {keyOf(root)})
      ensures !outcome.Found? ==>
        && (forall s :: s in polled ==> !s.isGood)
        && enqueued == EnqueuedBy(newChildren, keyOf, polled, old(visitedStates) + {keyOf(root)})
      ensures outcome.NotFound? ==> priorityQueue == [] && |polled| <= fuel
      ensures outcome.OutOfFuel? ==> priorityQueue != [] && |polled| == fuel
      ensures old(visitedStates) <= visitedStates
      ensures visitedStates == old(visitedStates) + {keyOf(root)} + KeysOf(keyOf, enqueued)
      ensures KeysDistinct(keyOf, enqueued)
      ensures forall s :: s in enqueued ==> keyOf(s) !in old(visitedStates) && keyOf(s) != keyOf(root)
    {
      ghost var initial := priorityQueue;
      ghost var start := visitedStates;
      var initialState := InitialState();
      root := initialState;
      priorityQueue := priorityQueue + [initialState];
      visitedStates := visitedStates + {keyOf(initialState)};
      polled, queues, enqueued := [], [], [];
      var fuelLeft := fuel;
      while priorityQueue != []
        invariant Searching(initial, root, start, polled, queues, polled, enqueued)
        invariant |polled| + fuelLeft == fuel
        decreases fuelLeft
      {
        if fuelLeft == 0 {
          return OutOfFuel, root, polled, queues, enqueued;
        }
        var state;
        ghost var expanded := polled;
        state, polled, queues := PollNext(initial, root, start, polled, queues, enqueued);
        if state.isGood {
          return Found(state), root, polled, queues, enqueued;
        }
        enqueued := ExpandPolled(initial, root, start, polled, queues, expanded, enqueued, state);
        fuelLeft := fuelLeft - 1;
      }
      outcome := NotFound;
    }

    /** One poll of the loop, recorded in the history. */
    method PollNext(ghost initial: seq<State>, ghost root: State, ghost start: set<string>, ghost polled: seq<State>,
                    ghost queues: seq<seq<State>>, ghost enqueued: seq<State>)
      returns (state: State, ghost polled': seq<State>, ghost queues': seq<seq<State>>)
      requires Searching(initial, root, start, polled, queues, polled, enqueued) && priorityQueue != []
      modifies this`priorityQueue
      ensures polled' == polled + [state] && polled'[..|polled|] == polled
      ensures Searching(initial, root, start, polled', queues', polled, enqueued)
      ensures Consistent(state) && state.totalCost == PathCost(state)
    {
      ghost var queue := priorityQueue;
      state := Poll();
      PollHistoryExtends(initial, root, polled, queues, start + {keyOf(root)}, queue, state);
      polled', queues' := polled + [state], queues + [queue];
      assert polled'[..|polled|] == polled;
      assert multiset(polled') == multiset(polled) + multiset{state};
    }

    /** One expansion of the loop: the new children of the polled state are
        enqueued and their keys recorded. */
    method ExpandPolled(ghost initial: seq<State>, ghost root: State, ghost start: set<string>, ghost polled: seq<State>,
                        ghost queues: seq<seq<State>>, ghost expanded: seq<State>, ghost enqueued: seq<State>,
                        state: State)
      returns (ghost enqueued': seq<State>)
      requires polled == expanded + [state] && !state.isGood && Consistent(state) && state.totalCost == PathCost(state)
      requires Searching(initial, root, start, polled, queues, expanded, enqueued)
      modifies this
      ensures Searching(initial, root, start, polled, queues, polled, enqueued')
    {
      assert state in polled;
      ghost var visitedBefore := visitedStates;
      var children := ProcessState(state);
      ghost var all := ChildrenUpTo(data, evaluate, yearIsGood, state, |ActionTypes|);
      NewChildrenKeepSearched(keyOf, visitedBefore, start, root, enqueued, all);
      ChildrenKeepPathCost(data, evaluate, yearIsGood, state, |ActionTypes|);
      KeepNewProperties(keyOf, all, visitedBefore);
      BalanceAppend(initial, root, enqueued, polled, priorityQueue, children);
      assert polled[..|polled| - 1] == expanded;
      assert EnqueuedBy(newChildren, keyOf, polled, start + {keyOf(root)}) == enqueued + children;
      priorityQueue := priorityQueue + children;
      enqueued' := enqueued + children;
    }

    /** Removes and returns a state of the queue that no other precedes. */
    method Poll() returns (state: State)
      requires priorityQueue != []
      modifies this`priorityQueue
      ensures state in old(priorityQueue)
      ensures forall s :: s in priorityQueue ==> s in old(priorityQueue)
      ensures multiset(old(priorityQueue)) == multiset(priorityQueue) + multiset{state}
      ensures StrictOrder(precedes) ==> forall s :: s in old(priorityQueue) ==> !precedes(s, state)
    {
      var i := MinimalIndex(priorityQueue, precedes);
      state := priorityQueue[i];
      assert priorityQueue == priorityQueue[..i] + [state] + priorityQueue[i + 1..];
      priorityQueue := priorityQueue[..i] + priorityQueue[i + 1..];
    }

    /** The children of every action type whose keys are new, recording each key. */
    method ProcessState(state: State) returns (result: seq<State>)
      requires EvaluatesYears() && CurvesCover(data) && Consistent(state)
      modifies this`visitedStates
      ensures result == KeepNew(keyOf, ChildrenUpTo(data, evaluate, yearIsGood, state, |ActionTypes|), old(visitedStates))
      ensures visitedStates == old(visitedStates) + KeysOf(keyOf, ChildrenUpTo(data, evaluate, yearIsGood, state, |ActionTypes|))
    {
      result := [];
      ghost var processed: seq<State> := [];
      for a := 0 to |ActionTypes|
        invariant processed == ChildrenUpTo(data, evaluate, yearIsGood, state, a)
        invariant Recorded(processed, result, old(visitedStates))
      {
        var nextStates := GetNextState(state, ActionTypes[a]);
        result := RecordNew(nextStates, processed, result, old(visitedStates));
        processed := processed + nextStates;
      }
    }

    /** The inner loop of the expansion: each state whose key is not yet
        visited is recorded as visited and kept, in order. */
    method RecordNew(nextStates: seq<State>, ghost processed: seq<State>, result: seq<State>, ghost visited: set<string>)
      returns (result': seq<State>)
      requires Recorded(processed, result, visited)
      modifies this`visitedStates
      ensures Recorded(processed + nextStates, result', visited)
    {
      result' := result;
      ghost var seen := processed;
      for j := 0 to |nextStates|
        invariant seen == processed + nextStates[..j]
        invariant Recorded(seen, result', visited)
      {
        var nextState := nextStates[j];
        KeepNewAppend(keyOf, seen, nextState, visited);
        if keyOf(nextState) !in visitedStates {
          visitedStates := visitedStates + {keyOf(nextState)};
          result' := result' + [nextState];
        }
        PrefixStep(processed, nextStates, j);
        seen := seen + [nextState];
      }
      assert nextStates[..|nextStates|] == nextStates;
    }

    /** The states kept so far are the new ones among those processed, and the
        visited set has gained the keys of all processed states. */
    ghost predicate Recorded(processed: seq<State>, result: seq<State>, visited: set<string>)
      reads this
    {
      && result == KeepNew(keyOf, processed, visited)
      && visitedStates == visited + KeysOf(keyOf, processed)
    }

    /** The root: the initial configuration with its verdict, no parent, no
        action and zero costs. */
    method InitialState() returns (state: State)
      requires EvaluatesYears()
      ensures state.storages == data.storages && state.data == data
      ensures state.parent.None? && state.actionType.None?
      ensures state.actionCost == 0.0 && state.totalCost == 0.0
      ensures state.isGood == yearIsGood(Year(data, nextStep))
      ensures state.minHourHydrogenLevel == Year(data, nextStep).minHourHydrogenLevel
    {
      var yearResult := EvaluateYear(data);
      state := State(data.storages, yearIsGood(yearResult), yearResult.minHourHydrogenLevel, None, None, 0.0, 0.0, data);
    }

    /** A fresh year evaluation of the given data. */
    method EvaluateYear(data: Data) returns (yearResult: YearResult)
      requires EvaluatesYears()
      ensures yearResult == Year(data, nextStep) && yearResult == evaluate(data)
    {
      var calculateYearAlgorithm := new CalculateYearAlgorithm(data, nextStep);
      yearResult := calculateYearAlgorithm.Calculate();
      assert yearResult == Year(data, nextStep);
    }

    /** The children of one action type: the storages are acted on one after the
        other in one shared list and table; child i is evaluated right after the
        action on storage i, and every child holds the list and table as they
        are at the end. */
    method GetNextState(state: State, action: ActionType) returns (results: seq<State>)
      requires EvaluatesYears() && CurvesCover(data) && Consistent(state)
      ensures results == Expand(data, evaluate, yearIsGood, state, action)
    {
      var nextStorages := state.storages;
      var production := state.data.summaryEnergyProduction;
      var verdicts: seq<Verdict> := [];
      for i := 0 to |state.storages|
        invariant SweptTo(state, action, i, nextStorages, production, verdicts)
      {
        nextStorages, production, verdicts := ActAndEvaluate(state, action, i, nextStorages, production, verdicts);
      }
      // Every child holds the one shared list and table, as they are now.
      results := seq(|verdicts|, i requires 0 <= i < |verdicts| => Child(state, action, verdicts[i], nextStorages, production));
    }

    /** The list, table and verdicts are those after the actions on storages
        0..i-1. */
    ghost predicate SweptTo(state: State, action: ActionType, i: nat, storages: seq<Storage>,
                            production: ProductionMap, verdicts: seq<Verdict>)
    {
      && CurvesCover(data) && Consistent(state) && i <= |state.storages|
      && SweepUpTo(data, state, action, i).storages == storages
      && SweepUpTo(data, state, action, i).production == production
      && verdicts == VerdictsUpTo(data, evaluate, yearIsGood, state, action, i)
    }

    /** The body of the sweep for storage i: act on it in the shared list and
        table, then evaluate the whole configuration as it now is. */
    method ActAndEvaluate(state: State, action: ActionType, i: nat, nextStorages: seq<Storage>,
                          production: ProductionMap, verdicts: seq<Verdict>)
      returns (nextStorages': seq<Storage>, production': ProductionMap, verdicts': seq<Verdict>)
      requires EvaluatesYears() && i < |state.storages|
      requires SweptTo(state, action, i, nextStorages, production, verdicts)
      ensures SweptTo(state, action, i + 1, nextStorages', production', verdicts')
    {
      SweepUpToNext(data, state, action, i);
      var effect := ActOnStorage(state, nextStorages[i], production, action);
      nextStorages' := nextStorages[i := effect.storage];
      production' := effect.production;
      var yearResult := EvaluateYear(ChildData(state, nextStorages', production'));
      verdicts' := verdicts + [Verdict(yearIsGood(yearResult), yearResult.minHourHydrogenLevel, effect.actionCost)];
    }

    /** The action on one storage of the shared list: a storage without an
        electrolyzer gets a new one whatever the action; otherwise the action
        changes the storage's first electrolyzer (or, for STORAGE, the storage
        itself) and returns its cost. */
    method ActOnStorage(state: State, storage: Storage, production: ProductionMap, action: ActionType)
      returns (effect: ActionEffect)
      requires CurvesCover(data) && HasRow(storage, production)
      ensures effect == ApplyAction(data, state.data.gridCosts, storage, production, action)
    {
      var storage := storage;
      var production := production;
      var actionCost: real;
      if |storage.electrolyzers| == 0 {
        var electrolyzer;
        electrolyzer, production := CreateNewElectrolyzer(production);
        storage := storage.(electrolyzers := storage.electrolyzers + [electrolyzer]);
        actionCost := state.data.gridCosts.electrolyzerCost;
      } else {
        var electrolyzer := storage.electrolyzers[0];
        match action {
          case WIND =>
            actionCost, electrolyzer, production := AddWind(electrolyzer, production);
          case PV =>
            actionCost, electrolyzer, production := AddPv(electrolyzer, production);
          case ELECTROLYZER =>
            actionCost := state.data.gridCosts.electrolyzerCost;
            electrolyzer := electrolyzer.(maxPower := electrolyzer.maxPower + 1.0);
          case ACCUMULATOR =>
            actionCost := state.data.gridCosts.storagePowerCost;
            electrolyzer := electrolyzer.(accumulator := Accumulator(electrolyzer.accumulator.accumulatorMaxSize + 1.0));
          case STORAGE =>
            actionCost := state.data.gridCosts.storageHydrogenCost;
            storage := storage.(maxCapacity := storage.maxCapacity + 1.0);
        }
        if !action.STORAGE? {
          storage := storage.(electrolyzers := storage.electrolyzers[0 := electrolyzer]);
        }
      }
      effect := ActionEffect(storage, production, actionCost);
    }

    /** A new electrolyzer with a fresh id (1 for an empty table, else one more
        than the largest id), registered with an all-zero row. */
    method CreateNewElectrolyzer(production: ProductionMap) returns (electrolyzer: Electrolyzer, production': ProductionMap)
      ensures electrolyzer == NewElectrolyzer(data, production)
      ensures electrolyzer.id !in production
      ensures production == map[] ==> electrolyzer.id == 1
      ensures production != map[] ==> electrolyzer.id - 1 in production && forall id :: id in production ==> id < electrolyzer.id
      ensures electrolyzer.efficiency == data.gridConstants.electrolyzerEfficiency
      ensures electrolyzer.maxPower == 1.0 && electrolyzer.accumulator == Accumulator(0.0) && electrolyzer.sources == []
      ensures production' == production[electrolyzer.id := Zeros()]
      ensures |production'[electrolyzer.id]| == HOURS_OF_YEAR && forall h :: 0 <= h < HOURS_OF_YEAR ==> production'[electrolyzer.id][h] == 0.0
    {
      var id: int;
      if production == map[] {
        id := 1;
      } else {
        var keys := production.Keys;
        NonEmptyHasMember(keys);
        var max :| max in keys;
        keys := keys - {max};
        while keys != {}
          invariant keys <= production.Keys && max in production
          invariant forall k :: k in production && k !in keys ==> k <= max
          decreases keys
        {
          NonEmptyHasMember(keys);
          var k :| k in keys;
          if k > max {
            max := k;
          }
          keys := keys - {k};
        }
        var m := MaxKey(production.Keys);
        assert m <= max && max <= m;
        id := max + 1;
      }
      var table := CreateTableOfValue(0.0);
      assert table[..] == Zeros();
      production' := production[id := table[..]];
      electrolyzer := Electrolyzer(id, data.gridConstants.electrolyzerEfficiency, 1.0, Accumulator(0.0), []);
    }

    /** One unit of PV on the electrolyzer, its PV curve added to its row only. */
    method AddPv(electrolyzer: Electrolyzer, production: ProductionMap)
      returns (actionCost: real, electrolyzer': Electrolyzer, production': ProductionMap)
      requires CurvesCover(data)
      requires electrolyzer.id in production && |production[electrolyzer.id]| >= HOURS_OF_YEAR
      ensures actionCost == data.gridCosts.pvCost
      ensures electrolyzer' == WithUnitOfSource(electrolyzer, EnergySourceType.PV)
      ensures production' == production[electrolyzer.id := AddCurveRow(production[electrolyzer.id], data.gridConstants.pvDailyProduction)]
      ensures production'.Keys == production.Keys
      ensures |production'[electrolyzer.id]| == |production[electrolyzer.id]|
      ensures forall h :: 0 <= h < HOURS_OF_YEAR ==>
        production'[electrolyzer.id][h] == production[electrolyzer.id][h] + data.gridConstants.pvDailyProduction[h]
    {
      actionCost := data.gridCosts.pvCost;
      electrolyzer' := WithUnitOfSource(electrolyzer, EnergySourceType.PV);
      var row := AddCurve(production[electrolyzer.id], data.gridConstants.pvDailyProduction);
      production' := production[electrolyzer.id := row];
    }

    /** One unit of wind on the electrolyzer, its wind curve added to its row only. */
    method AddWind(electrolyzer: Electrolyzer, production: ProductionMap)
      returns (actionCost: real, electrolyzer': Electrolyzer, production': ProductionMap)
      requires CurvesCover(data)
      requires electrolyzer.id in production && |production[electrolyzer.id]| >= HOURS_OF_YEAR
      ensures actionCost == data.gridCosts.windCost
      ensures electrolyzer' == WithUnitOfSource(electrolyzer, EnergySourceType.WIND)
      ensures production' == production[electrolyzer.id := AddCurveRow(production[electrolyzer.id], data.gridConstants.windDailyProduction)]
      ensures production'.Keys == production.Keys
      ensures |production'[electrolyzer.id]| == |production[electrolyzer.id]|
      ensures forall h :: 0 <= h < HOURS_OF_YEAR ==>
        production'[electrolyzer.id][h] == production[electrolyzer.id][h] + data.gridConstants.windDailyProduction[h]
    {
      actionCost := data.gridCosts.windCost;
      electrolyzer' := WithUnitOfSource(electrolyzer, EnergySourceType.WIND);
      var row := AddCurve(production[electrolyzer.id], data.gridConstants.windDailyProduction);
      production' := production[electrolyzer.id := row];
    }
  }

  /** Adds the curve to a copy of the row, hour by hour, in place. */
  method AddCurve(row: seq<real>, curve: seq<real>) returns (result: seq<real>)
    requires |row| >= HOURS_OF_YEAR && |curve| >= HOURS_OF_YEAR
    ensures result == AddCurveRow(row, curve)
  {
    var table := new real[|row|](h requires 0 <= h < |row| => row[h]);
    for hour := 0 to HOURS_OF_YEAR
      invariant forall h :: 0 <= h < hour ==> table[h] == row[h] + curve[h]
      invariant forall h :: hour <= h < table.Length ==> table[h] == row[h]
    {
      table[hour] := table[hour] + curve[hour];
    }
    result := table[..];
  }

  /** The PV/wind action changes only the sources: the first source of the type
      gains exactly one unit, or, if there is none, one source of that type is
      appended with one unit and zero distance. */
  lemma WithUnitOfSourceEffect(electrolyzer: Electrolyzer, sourceType: EnergySourceType)
    ensures var e := WithUnitOfSource(electrolyzer, sourceType);
      && e == electrolyzer.(sources := e.sources)
      && match FindEnergySource(electrolyzer.sources, sourceType)
         case Some(i) =>
           e.sources == electrolyzer.sources[i := electrolyzer.sources[i].(maxPower := electrolyzer.sources[i].maxPower + 1.0)]
         case None =>
           e.sources == electrolyzer.sources + [EnergySource(sourceType, 1.0, 0.0)]
  {
  }
}
