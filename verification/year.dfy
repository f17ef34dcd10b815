/**
  The year evaluator: starting from an all-zero hour-0 step, it asks the
  next-step simulator for hours 1..N-1 and keeps the minimum total storage level,
  the cumulative hydrogen and power overflow, the successful steps and the
  minimum-power errors; at the end it emits the advisory warnings.

  The next-step simulator is a parameter `nextStep`: a pure function of the data
  and the previous step that yields a new step or a thrown failure reason.
 */
module YearEvaluation {
  import opened Grid
  import opened Utils

  function Min(a: real, b: real): real
  {
    if a <= b then a else b
  }

  /** Sum of the storage levels of a step. */
  function SumLevels(states: seq<StorageState>): real
  {
    if states == [] then 0.0 else SumLevels(states[..|states| - 1]) + states[|states| - 1].currentLevel
  }

  function TotalLevel(step: Step): real
  {
    SumLevels(step.storageStates)
  }

  function AccumulatorsOfElectrolyzers(electrolyzers: seq<Electrolyzer>): set<Accumulator>
  {
    if electrolyzers == [] then {}
    else AccumulatorsOfElectrolyzers(electrolyzers[..|electrolyzers| - 1]) + {electrolyzers[|electrolyzers| - 1].accumulator}
  }

  /** The accumulators (as values) of every electrolyzer of every storage. */
  function AccumulatorsOf(storages: seq<Storage>): set<Accumulator>
  {
    if storages == [] then {}
    else AccumulatorsOf(storages[..|storages| - 1]) + AccumulatorsOfElectrolyzers(storages[|storages| - 1].electrolyzers)
  }

  function ZeroStates(accumulators: set<Accumulator>): map<Accumulator, AccumulatorState>
  {
    map a | a in accumulators :: AccumulatorState(0.0)
  }

  /** The hour-0 step: every level and both overflows zero. */
  function FirstStep(data: Data): Step
  {
    Step(0, ZeroStates(AccumulatorsOf(data.storages)), seq(|data.storages|, _ => StorageState(0.0)), 0.0, 0.0)
  }

  /** The accumulators of the loop's running values. */
  datatype Run = Run(
    step: Step,
    steps: seq<Step>,
    minHourHydrogenLevel: real,
    sumHydrogenOverflow: real,
    sumPowerOverflow: real,
    errors: seq<BusinessError>)

  function Start(first: Step): Run
  {
    Run(first, [first], TotalLevel(first), 0.0, 0.0, [])
  }

  /** One hour of the loop: a successful step is recorded and becomes the
      previous step; a failure keeps the previous step, and only the
      minimum-power failure is recorded as an error. */
  function Advance(data: Data, nextStep: (Data, Step) -> StepOutcome, run: Run): Run
  {
    match nextStep(data, run.step)
    case NextStep(s) =>
      Run(s, run.steps + [s], Min(run.minHourHydrogenLevel, TotalLevel(s)),
          run.sumHydrogenOverflow + s.overflowHydrogenProduction,
          run.sumPowerOverflow + s.overflowPowerProduction, run.errors)
    case Thrown(reason) =>
      if reason.LuckOfPowerOnElectrolizer? then run.(errors := run.errors + [BusinessError(reason)])
      else run
  }

  /** The running values after hours 1..k. */
  function Iterate(data: Data, nextStep: (Data, Step) -> StepOutcome, k: nat): Run
  {
    if k == 0 then Start(FirstStep(data)) else Advance(data, nextStep, Iterate(data, nextStep, k - 1))
  }

  /** The warnings of the final validation, in the order the checks are made. */
  function Warnings(minHourHydrogenLevel: real, sumHydrogenOverflow: real, sumPowerOverflow: real): seq<Warning>
  {
    (if minHourHydrogenLevel < 0.0 then [HydrogenShortage(-minHourHydrogenLevel)] else [])
    + (if minHourHydrogenLevel > 10.0 then [HighMinimumLevel(minHourHydrogenLevel)] else [])
    + (if sumHydrogenOverflow > 0.0 then [HydrogenOverflow(sumHydrogenOverflow)] else [])
    + (if sumPowerOverflow > 0.0 then [PowerOverflow(sumPowerOverflow)] else [])
  }

  /** The result of evaluating a configuration with a fresh evaluator. */
  function Year(data: Data, nextStep: (Data, Step) -> StepOutcome): YearResult
  {
    var run := Iterate(data, nextStep, GetHoursOfSimulation(data) - 1);
    YearResult(run.minHourHydrogenLevel, run.steps, run.sumHydrogenOverflow, run.sumPowerOverflow,
               Warnings(run.minHourHydrogenLevel, run.sumHydrogenOverflow, run.sumPowerOverflow), run.errors)
  }

  // ---------------------------------------------------------------------------
  // Properties of the evaluation loop

  /** The outcome of the simulator call for hour `hour` (1-based). */
  function OutcomeAt(data: Data, nextStep: (Data, Step) -> StepOutcome, hour: nat): StepOutcome
    requires hour >= 1
  {
    nextStep(data, Iterate(data, nextStep, hour - 1).step)
  }

  /** The number of hours among 1..k whose simulator call succeeded. */
  function Successes(data: Data, nextStep: (Data, Step) -> StepOutcome, k: nat): nat
  {
    if k == 0 then 0 else Successes(data, nextStep, k - 1) + (if OutcomeAt(data, nextStep, k).NextStep? then 1 else 0)
  }

  /** The number of hours among 1..k whose simulator call threw. */
  function Failures(data: Data, nextStep: (Data, Step) -> StepOutcome, k: nat): nat
  {
    if k == 0 then 0 else Failures(data, nextStep, k - 1) + (if OutcomeAt(data, nextStep, k).Thrown? then 1 else 0)
  }

  /** The number of hours among 1..k that failed for lack of electrolyzer power. */
  function PowerFailures(data: Data, nextStep: (Data, Step) -> StepOutcome, k: nat): nat
  {
    if k == 0 then 0
    else
      var o := OutcomeAt(data, nextStep, k);
      PowerFailures(data, nextStep, k - 1) + (if o.Thrown? && o.reason.LuckOfPowerOnElectrolizer? then 1 else 0)
  }

  function SumHydrogenOverflow(steps: seq<Step>): real
  {
    if steps == [] then 0.0 else SumHydrogenOverflow(steps[..|steps| - 1]) + steps[|steps| - 1].overflowHydrogenProduction
  }

  function SumPowerOverflow(steps: seq<Step>): real
  {
    if steps == [] then 0.0 else SumPowerOverflow(steps[..|steps| - 1]) + steps[|steps| - 1].overflowPowerProduction
  }

  /** After k hours the simulator has been called k times: the recorded steps are
      the hour-0 step followed by one step per successful hour, the running step
      is the last recorded one, and there is one error per minimum-power failure
      and no other error. */
  lemma {:induction false} IterateCounts(data: Data, nextStep: (Data, Step) -> StepOutcome, k: nat)
    ensures var run := Iterate(data, nextStep, k);
      && |run.steps| == 1 + Successes(data, nextStep, k)
      && Successes(data, nextStep, k) + Failures(data, nextStep, k) == k
      && run.steps[0] == FirstStep(data)
      && run.step == run.steps[|run.steps| - 1]
      && |run.errors| == PowerFailures(data, nextStep, k)
      && forall e :: e in run.errors ==> e == BusinessError(LuckOfPowerOnElectrolizer)
  {
    if k > 0 {
      IterateCounts(data, nextStep, k - 1);
    }
  }

  /** The cumulative overflows are the sums over the successful steps, that is,
      over every recorded step but the hour-0 one. */
  lemma {:induction false} OverflowSums(data: Data, nextStep: (Data, Step) -> StepOutcome, k: nat)
    ensures var run := Iterate(data, nextStep, k);
      && |run.steps| >= 1
      && run.sumHydrogenOverflow == SumHydrogenOverflow(run.steps[1..])
      && run.sumPowerOverflow == SumPowerOverflow(run.steps[1..])
  {
    if k > 0 {
      OverflowSums(data, nextStep, k - 1);
      var prev := Iterate(data, nextStep, k - 1);
      match nextStep(data, prev.step)
      case NextStep(s) =>
        assert (prev.steps + [s])[1..] == prev.steps[1..] + [s];
        assert (prev.steps[1..] + [s])[..|prev.steps[1..]|] == prev.steps[1..];
      case Thrown(_) =>
    }
  }

  /** The running minimum is the least total storage level over the recorded
      steps, the hour-0 step included: it is below every one and attained by one. */
  lemma {:induction false} MinLevelIsMinimum(data: Data, nextStep: (Data, Step) -> StepOutcome, k: nat)
    ensures var run := Iterate(data, nextStep, k);
      && (forall i :: 0 <= i < |run.steps| ==> run.minHourHydrogenLevel <= TotalLevel(run.steps[i]))
      && (exists i :: 0 <= i < |run.steps| && run.minHourHydrogenLevel == TotalLevel(run.steps[i]))
  {
    if k == 0 {
      assert Iterate(data, nextStep, 0).steps[0] == FirstStep(data);
    } else {
      MinLevelIsMinimum(data, nextStep, k - 1);
      var prev := Iterate(data, nextStep, k - 1);
      match nextStep(data, prev.step)
      case NextStep(s) =>
        var run := Iterate(data, nextStep, k);
        assert run.steps == prev.steps + [s];
        var i :| 0 <= i < |prev.steps| && prev.minHourHydrogenLevel == TotalLevel(prev.steps[i]);
        if prev.minHourHydrogenLevel <= TotalLevel(s) {
          assert run.steps[i] == prev.steps[i];
        } else {
          assert run.steps[|prev.steps|] == s;
        }
      case Thrown(_) =>
    }
  }

  lemma {:induction false} SumOfZeroLevels(n: nat)
    ensures SumLevels(seq(n, _ => StorageState(0.0))) == 0.0
  {
    if n > 0 {
      SumOfZeroLevels(n - 1);
      assert seq(n, _ => StorageState(0.0))[..n - 1] == seq(n - 1, _ => StorageState(0.0));
    }
  }

  lemma {:induction false} AccumulatorOfElectrolyzersIn(electrolyzers: seq<Electrolyzer>, j: nat)
    requires j < |electrolyzers|
    ensures electrolyzers[j].accumulator in AccumulatorsOfElectrolyzers(electrolyzers)
  {
    if j < |electrolyzers| - 1 {
      AccumulatorOfElectrolyzersIn(electrolyzers[..|electrolyzers| - 1], j);
    }
  }

  lemma {:induction false} AccumulatorOfStorageIn(storages: seq<Storage>, i: nat, j: nat)
    requires i < |storages| && j < |storages[i].electrolyzers|
    ensures storages[i].electrolyzers[j].accumulator in AccumulatorsOf(storages)
  {
    if i < |storages| - 1 {
      AccumulatorOfStorageIn(storages[..|storages| - 1], i, j);
    } else {
      AccumulatorOfElectrolyzersIn(storages[i].electrolyzers, j);
    }
  }

  /** The hour-0 step holds a zero state for the accumulator of every
      electrolyzer of every storage, one zero state per storage, zero overflows,
      and so a total level of zero. */
  lemma FirstStepIsZero(data: Data)
    ensures var first := FirstStep(data);
      && first.hour == 0
      && TotalLevel(first) == 0.0
      && |first.storageStates| == |data.storages|
      && (forall i :: 0 <= i < |data.storages| ==> first.storageStates[i] == StorageState(0.0))
      && first.accumulatorStates.Keys == AccumulatorsOf(data.storages)
      && (forall i, j :: 0 <= i < |data.storages| && 0 <= j < |data.storages[i].electrolyzers| ==>
            && data.storages[i].electrolyzers[j].accumulator in first.accumulatorStates
            && first.accumulatorStates[data.storages[i].electrolyzers[j].accumulator] == AccumulatorState(0.0))
      && first.overflowHydrogenProduction == 0.0 && first.overflowPowerProduction == 0.0
  {
    SumOfZeroLevels(|data.storages|);
    forall i, j | 0 <= i < |data.storages| && 0 <= j < |data.storages[i].electrolyzers|
      ensures data.storages[i].electrolyzers[j].accumulator in FirstStep(data).accumulatorStates
    {
      AccumulatorOfStorageIn(data.storages, i, j);
    }
  }

  /** The minimum level never exceeds zero, the total of the hour-0 step. */
  lemma MinLevelAtMostZero(data: Data, nextStep: (Data, Step) -> StepOutcome, k: nat)
    ensures Iterate(data, nextStep, k).minHourHydrogenLevel <= 0.0
  {
    MinLevelIsMinimum(data, nextStep, k);
    IterateCounts(data, nextStep, k);
    FirstStepIsZero(data);
  }

  /** The accumulator states are keyed by accumulator value: the accumulators
      of any two electrolyzers whose sizes are equal are one and the same key
      of the hour-0 step, which holds one entry per distinct accumulator. */
  lemma EqualAccumulatorsShareOneState(data: Data, i: nat, j: nat, i2: nat, j2: nat)
    requires i < |data.storages| && j < |data.storages[i].electrolyzers|
    requires i2 < |data.storages| && j2 < |data.storages[i2].electrolyzers|
    requires data.storages[i].electrolyzers[j].accumulator.accumulatorMaxSize ==
             data.storages[i2].electrolyzers[j2].accumulator.accumulatorMaxSize
    ensures var a := data.storages[i].electrolyzers[j].accumulator;
      && a == data.storages[i2].electrolyzers[j2].accumulator
      && a in FirstStep(data).accumulatorStates
      && FirstStep(data).accumulatorStates.Keys == AccumulatorsOf(data.storages)
  {
    FirstStepIsZero(data);
  }

  /** An instance: two electrolyzers of one storage with empty accumulators
      give a single accumulator state. */
  lemma SharedAccumulatorExample(costs: GridCosts, constants: GridConstants)
    ensures var e1 := Electrolyzer(1, 1.0, 1.0, Accumulator(0.0), []);
      var e2 := Electrolyzer(2, 1.0, 3.0, Accumulator(0.0), []);
      var data := Data(constants, costs, [Storage(5.0, [e1, e2])], [], map[]);
      |FirstStep(data).accumulatorStates| == 1
  {
    var e1 := Electrolyzer(1, 1.0, 1.0, Accumulator(0.0), []);
    var e2 := Electrolyzer(2, 1.0, 3.0, Accumulator(0.0), []);
    var storages := [Storage(5.0, [e1, e2])];
    assert [e1, e2][..1] == [e1];
    assert [e1][..0] == [];
    assert storages[..0] == [];
    assert AccumulatorsOfElectrolyzers([e1]) == {Accumulator(0.0)};
    assert AccumulatorsOfElectrolyzers([e1, e2]) == {Accumulator(0.0)};
    assert AccumulatorsOf(storages) == {Accumulator(0.0)};
    assert ZeroStates({Accumulator(0.0)}).Keys == {Accumulator(0.0)};
  }

  /** A failed hour is repeated: the simulator is called again with the same
      previous step, so every later hour throws the same reason and the running
      step stays the one before the first failure. */
  lemma {:induction false} FailureRepeats(data: Data, nextStep: (Data, Step) -> StepOutcome, hour: nat, later: nat)
    requires 1 <= hour <= later
    requires OutcomeAt(data, nextStep, hour).Thrown?
    ensures OutcomeAt(data, nextStep, later) == OutcomeAt(data, nextStep, hour)
    ensures Iterate(data, nextStep, later).step == Iterate(data, nextStep, hour - 1).step
  {
    if later > hour {
      FailureRepeats(data, nextStep, hour, later - 1);
    }
  }

  function WarningRank(w: Warning): nat
  {
    match w
    case HydrogenShortage(_) => 0
    case HighMinimumLevel(_) => 1
    case HydrogenOverflow(_) => 2
    case PowerOverflow(_) => 3
  }

  /** One warning per condition that holds and none otherwise, each reporting its
      number, in the fixed order shortage, high minimum, hydrogen overflow,
      power overflow. */
  lemma WarningsFollowConditions(minLevel: real, sumHydrogen: real, sumPower: real)
    ensures var ws := Warnings(minLevel, sumHydrogen, sumPower);
      && |ws| == (if minLevel < 0.0 then 1 else 0) + (if minLevel > 10.0 then 1 else 0)
                 + (if sumHydrogen > 0.0 then 1 else 0) + (if sumPower > 0.0 then 1 else 0)
      && (HydrogenShortage(-minLevel) in ws <==> minLevel < 0.0)
      && (HighMinimumLevel(minLevel) in ws <==> minLevel > 10.0)
      && (HydrogenOverflow(sumHydrogen) in ws <==> sumHydrogen > 0.0)
      && (PowerOverflow(sumPower) in ws <==> sumPower > 0.0)
      && (forall w :: w in ws ==> w in [HydrogenShortage(-minLevel), HighMinimumLevel(minLevel),
                                         HydrogenOverflow(sumHydrogen), PowerOverflow(sumPower)])
      && (forall i, j :: 0 <= i < j < |ws| ==> WarningRank(ws[i]) < WarningRank(ws[j]))
  {
  }

  class CalculateYearAlgorithm {
    const data: Data
    const nextStep: (Data, Step) -> StepOutcome
    var warnings: seq<Warning>
    var errors: seq<BusinessError>

    constructor (data: Data, nextStep: (Data, Step) -> StepOutcome)
      ensures this.data == data && this.nextStep == nextStep
      ensures warnings == [] && errors == []
    {
      this.data := data;
      this.nextStep := nextStep;
      warnings := [];
      errors := [];
    }

    /** Simulates hours 1..N-1 of the horizon N. The errors and warnings of this
        run are appended to the evaluator's lists, which the result shares. */
    method Calculate() returns (result: YearResult)
      modifies this
      ensures var run := Iterate(data, nextStep, GetHoursOfSimulation(data) - 1);
        && errors == old(errors) + run.errors
        && warnings == old(warnings) + Warnings(run.minHourHydrogenLevel, run.sumHydrogenOverflow, run.sumPowerOverflow)
        && result == YearResult(run.minHourHydrogenLevel, run.steps, run.sumHydrogenOverflow,
                                run.sumPowerOverflow, warnings, errors)
    {
      var step := InitializeFirstStep();
      var minHourHydrogenLevel := TotalLevel(step);
      var sumHydrogenOverflow := 0.0;
      var sumPowerOverflow := 0.0;
      var steps := [step];
      for hour := 1 to GetHoursOfSimulation(data)
        invariant var run := Iterate(data, nextStep, hour - 1);
          && step == run.step && steps == run.steps
          && minHourHydrogenLevel == run.minHourHydrogenLevel
          && sumHydrogenOverflow == run.sumHydrogenOverflow
          && sumPowerOverflow == run.sumPowerOverflow
          && errors == old(errors) + run.errors
        invariant warnings == old(warnings)
      {
        match nextStep(data, step)
        case NextStep(newStep) =>
          steps := steps + [newStep];
          minHourHydrogenLevel := Min(minHourHydrogenLevel, TotalLevel(newStep));
          sumHydrogenOverflow := sumHydrogenOverflow + newStep.overflowHydrogenProduction;
          sumPowerOverflow := sumPowerOverflow + newStep.overflowPowerProduction;
          step := newStep;
        case Thrown(reason) =>
          if reason.LuckOfPowerOnElectrolizer? {
            errors := errors + [BusinessError(reason)];
          }
      }
      FinalValidation(minHourHydrogenLevel, sumHydrogenOverflow, sumPowerOverflow);
      result := YearResult(minHourHydrogenLevel, steps, sumHydrogenOverflow, sumPowerOverflow, warnings, errors);
    }

    /** Appends one warning per condition that holds; never fails. */
    method FinalValidation(minHourHydrogenLevel: real, sumHydrogenOverflow: real, sumPowerOverflow: real)
      modifies this`warnings
      ensures warnings == old(warnings) + Warnings(minHourHydrogenLevel, sumHydrogenOverflow, sumPowerOverflow)
    {
      ghost var before := warnings;
      if minHourHydrogenLevel < 0.0 {
        warnings := warnings + [HydrogenShortage(-minHourHydrogenLevel)];
      }
      if minHourHydrogenLevel > 10.0 {
        warnings := warnings + [HighMinimumLevel(minHourHydrogenLevel)];
      }
      if sumHydrogenOverflow > 0.0 {
        warnings := warnings + [HydrogenOverflow(sumHydrogenOverflow)];
      }
      if sumPowerOverflow > 0.0 {
        warnings := warnings + [PowerOverflow(sumPowerOverflow)];
      }
    }

    /** Builds the hour-0 step: a zero accumulator state for the accumulator of
        every electrolyzer of every storage and a zero state per storage. */
    method InitializeFirstStep() returns (first: Step)
      ensures first == FirstStep(data)
    {
      var accumulatorStates: map<Accumulator, AccumulatorState> := map[];
      for i := 0 to |data.storages|
        invariant accumulatorStates == ZeroStates(AccumulatorsOf(data.storages[..i]))
      {
        var electrolyzers := data.storages[i].electrolyzers;
        for j := 0 to |electrolyzers|
          invariant accumulatorStates ==
            ZeroStates(AccumulatorsOf(data.storages[..i]) + AccumulatorsOfElectrolyzers(electrolyzers[..j]))
        {
          assert electrolyzers[..j + 1][..j] == electrolyzers[..j];
          accumulatorStates := accumulatorStates[electrolyzers[j].accumulator := AccumulatorState(0.0)];
        }
        assert electrolyzers[..|electrolyzers|] == electrolyzers;
        assert data.storages[..i + 1][..i] == data.storages[..i];
      }
      assert data.storages[..|data.storages|] == data.storages;
      var storageStates := seq(|data.storages|, _ => StorageState(0.0));
      first := Step(0, accumulatorStates, storageStates, 0.0, 0.0);
    }
  }
}
