/**
 * The older SEC-HPLC protocol of SEC_HPLC.py: it only counts the samples' own positions and
 * takes the dilution decision; its sample dilution is still empty. It runs on the older labware
 * tables with the sentinel counters.
 */
module SecHplcLegacy {
  import opened Wrappers
  import opened Catalog
  import opened Allocation
  import SecHplc

  /**
   * The dictionary of the older `is_sample_dilution_needed`. Its 2 < c < 4 row stores the string
   * "???" as final concentration, modelled as `None`.
   */
  datatype LegacyData = LegacyData(needed: bool, finalConcentration: Option<real>, injectionVolume: real)

  /**
   * The older decision table: it agrees with the later one except at exactly 10 mg/mL, where it
   * records no dilution with a final concentration and an injection volume of 0, and in the
   * placeholder row.
   */
  function IsSampleDilutionNeeded(c: int): (r: Result<LegacyData>)
    ensures r.Err? <==> c < 2 || c == 4
    ensures r.Err? ==> r.error == ValueError
    ensures r.Ok? ==> (r.value.needed <==> c != 2 && c != 10)
    ensures r.Ok? ==> (r.value.finalConcentration.None? <==> c == 3)
  {
    if c > 10 then Ok(LegacyData(true, Some(10.0), 20.0))
    else if c == 10 then Ok(LegacyData(false, Some(0.0), 0.0))
    else if 4 < c < 10 then Ok(LegacyData(true, Some(4.0), 50.0))
    else if 2 < c < 4 then Ok(LegacyData(true, None, 0.2 / c as real))
    else if c == 2 then Ok(LegacyData(false, Some(2.0), 100.0))
    else Err(ValueError)
  }

  /**
   * The two tables give the same decision, final concentration and injection volume for every
   * concentration but 3 and 10; at 10 the older one injects nothing where the later one injects
   * 20 µL of the undiluted sample.
   */
  lemma TablesAgree(c: int)
    ensures var (legacy, later) := (IsSampleDilutionNeeded(c), SecHplc.IsSampleDilutionNeeded(c));
      && (legacy.Err? <==> later.Err?)
      && (legacy.Ok? && c != 3 && c != 10 ==>
            && legacy.value.needed == later.value.needed
            && legacy.value.finalConcentration == Some(later.value.finalConcentration)
            && legacy.value.injectionVolume == later.value.injectionVolume)
      && (c == 10 ==> legacy.Ok? && legacy.value.injectionVolume == 0.0 && later.value.injectionVolume == 20.0)
      && (c == 3 ==> legacy.Ok? && legacy.value.injectionVolume == later.value.injectionVolume)
  {
  }

  /** `sec_HPLCMethod` of SEC_HPLC.py: its sentinel labware counters over the older tables. */
  class SecHplcMethod {
    const counters: SentinelCounters

    constructor ()
      ensures fresh(counters) && counters.tables == OldTables && counters.used == Zeros(OldNames.Keys)
    {
      counters := new SentinelCounters(OldTables);
    }

    /** The reset of `set_all_parameters`. */
    method SetAllParameters()
      modifies counters
      ensures counters.used == Zeros(old(counters.used).Keys)
    {
      counters.Reset();
    }

    /**
     * `sec_HPLC`: count the `n` positions of the samples' labware, then take the decision; a
     * concentration the table rejects raises after the counting.
     */
    method Run(origin: string, n: int, c: int) returns (r: Result<LegacyData>)
      modifies counters
      ensures counters.used == if origin in counters.tables.names
        then SentinelCounted(counters.tables, old(counters.used), counters.tables.names[origin], Times(n))
        else old(counters.used)
      ensures r == IsSampleDilutionNeeded(c)
    {
      counters.CountStartingLwPos(origin, n);
      r := IsSampleDilutionNeeded(c);
    }
  }
}
