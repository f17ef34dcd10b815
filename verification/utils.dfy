/** Simulation horizon and hour-indexed tables. */
module Utils {
  import opened Grid

  /** The number of hours in a (non-leap) year. */
  const HOURS_OF_YEAR: nat := 24 * 365

  /** A fresh table of one value per hour of the year, filled in place. */
  method CreateTableOfValue(value: real) returns (table: array<real>)
    ensures table.Length == HOURS_OF_YEAR == 8760
    ensures forall h :: 0 <= h < table.Length ==> table[h] == value
  {
    table := new real[HOURS_OF_YEAR];
    for h := 0 to HOURS_OF_YEAR
      invariant forall k :: 0 <= k < h ==> table[k] == value
    {
      table[h] := value;
    }
  }

  /** The number of simulated hours: the optional setting clamped to
      [1, HOURS_OF_YEAR], or the whole year when it is absent. */
  function GetHoursOfSimulation(data: Data): (hours: int)
    ensures 1 <= hours <= HOURS_OF_YEAR
    ensures data.gridConstants.hoursOfSimulation.None? ==> hours == HOURS_OF_YEAR
    ensures data.gridConstants.hoursOfSimulation.Some? ==>
      var setting := data.gridConstants.hoursOfSimulation.value;
      && (setting < 1 ==> hours == 1)
      && (setting > HOURS_OF_YEAR ==> hours == HOURS_OF_YEAR)
      && (1 <= setting <= HOURS_OF_YEAR ==> hours == setting)
  {
    match data.gridConstants.hoursOfSimulation
    case None => HOURS_OF_YEAR
    case Some(setting) =>
      if setting < 1 then 1
      else if setting > HOURS_OF_YEAR then HOURS_OF_YEAR
      else setting
  }

  /** Feeding the clamped value back as the setting changes nothing. */
  lemma HoursOfSimulationIdempotent(data: Data)
    ensures var hours := GetHoursOfSimulation(data);
      GetHoursOfSimulation(data.(gridConstants := data.gridConstants.(hoursOfSimulation := Some(hours)))) == hours
  {
  }
}
