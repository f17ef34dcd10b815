/**
  The value types of the grid-sizing model: the physical configuration that the
  search grows (storages, electrolyzers, energy sources, accumulators), the
  constants and costs shared across a run, the hourly simulation snapshot (Step)
  and the outcome of simulating one year (YearResult).

  Doubles are modelled as `real`; Java `long` ids as `int`.
 */
module Grid {

  datatype Option<+T> = None | Some(value: T)

  /** A short-term power buffer. Lombok's @Data gives it value equality, so two
      accumulators of the same size are equal (and collide as map keys). */
  datatype Accumulator = Accumulator(accumulatorMaxSize: real)

  datatype EnergySourceType = PV | WIND

  datatype EnergySource = EnergySource(sourceType: EnergySourceType, maxPower: real, distance: real)

  /** Only the fields that the search sets or reads are modelled. */
  datatype Electrolyzer = Electrolyzer(
    id: int,
    efficiency: real,
    maxPower: real,
    accumulator: Accumulator,
    sources: seq<EnergySource>)

  datatype Storage = Storage(maxCapacity: real, electrolyzers: seq<Electrolyzer>)

  /** Per-electrolyzer summed production, one value per hour, keyed by electrolyzer id. */
  type ProductionMap = map<int, seq<real>>

  datatype GridConstants = GridConstants(
    electrolyzerEfficiency: real,
    pvDailyProduction: seq<real>,
    windDailyProduction: seq<real>,
    transmissionLoss: real,
    storageLoss: real,
    hydrogenTransportLoss: real,
    hoursOfSimulation: Option<int>)   // a nullable Integer

  datatype GridCosts = GridCosts(
    pvCost: real,
    windCost: real,
    electrolyzerCost: real,
    storagePowerCost: real,
    storageHydrogenCost: real)

  datatype Data = Data(
    gridConstants: GridConstants,
    gridCosts: GridCosts,
    storages: seq<Storage>,
    vehiclesConsumption: seq<real>,
    summaryEnergyProduction: ProductionMap)

  datatype AccumulatorState = AccumulatorState(currentLevel: real)

  datatype StorageState = StorageState(currentLevel: real)

  /** One simulated hour. The storage states are kept in the order of the storage
      list: position i is the state of storage i. */
  datatype Step = Step(
    hour: int,
    accumulatorStates: map<Accumulator, AccumulatorState>,
    storageStates: seq<StorageState>,
    overflowHydrogenProduction: real,
    overflowPowerProduction: real)

  /** The failure reasons a BusinessException carries; reasons other than the two
      the core names are kept by name. */
  datatype FailureReason = LuckOfPowerOnElectrolizer | SolutionNotFound | OtherReason(name: string)

  /** What the next-step simulator does for one hour: a new step, or a thrown
      BusinessException with its reason. */
  datatype StepOutcome = NextStep(step: Step) | Thrown(reason: FailureReason)

  datatype BusinessError = BusinessError(reason: FailureReason)

  /** The four advisory warnings, as tags carrying the reported number. */
  datatype Warning =
    | HydrogenShortage(amount: real)
    | HighMinimumLevel(level: real)
    | HydrogenOverflow(amount: real)
    | PowerOverflow(amount: real)

  datatype YearResult = YearResult(
    minHourHydrogenLevel: real,
    steps: seq<Step>,
    sumHydrogenOverflow: real,
    sumPowerOverflow: real,
    warnings: seq<Warning>,
    errors: seq<BusinessError>)
}
