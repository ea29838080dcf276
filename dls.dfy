/**
 * The DLS protocol of helper/DLS.py: its raising labware counters, the dilution decision against
 * the fixed final concentration of 5 mg/mL, and the triplicate layout of the system suitability
 * standard (SST), the blank and the samples on the 384-well plate.
 */
module Dls {
  import opened Wrappers
  import opened Catalog
  import opened Allocation
  import opened WellGeometry

  /** The final concentration (mg/mL) every DLS sample is brought to. */
  const FinalConcentration := 5

  /**
   * `is_sample_dilution_needed`: no dilution up to the final concentration. Above it, the
   * message logged before returning True reads an attribute the class never sets.
   */
  function IsSampleDilutionNeeded(c: int): (r: Result<bool>)
    ensures r == Ok(false) <==> c <= FinalConcentration
    ensures r.Err? <==> c > FinalConcentration
    ensures r.Err? ==> r.error == AttributeError
  {
    if c > FinalConcentration then Err(AttributeError) else Ok(false)
  }

  /** `get_deep_well_pos(p, plate_type=384, sample_direction="horizontal", sample_transfer="triplicate")`. */
  function DlsWells(p: int): Wells
  {
    DeepWellPos(p, 384, "horizontal", "triplicate").value
  }

  /** `pos_ctr_pos` (the SST), `neg_ctr_pos` (the blank) and `samples_pos`. */
  datatype DlsLayout = DlsLayout(posCtr: seq<Wells>, negCtr: seq<Wells>, samples: seq<Wells>)

  /**
   * The layout as `calculate_pump_labware_positions` builds it: `samples_pos` starts with an
   * empty list (a triplet of no wells) and sample `s` gets triplicate slot `2 + s`.
   */
  function LayoutAsWritten(n: int): DlsLayout
  {
    DlsLayout([DlsWells(1)], [DlsWells(2)], [Triplet([])] + seq(Times(n), s => DlsWells(2 + s)))
  }

  /** The layout with the samples after the SST and the blank: sample `s` in slot `3 + s`. */
  function IntendedLayout(n: int): DlsLayout
  {
    DlsLayout([DlsWells(1)], [DlsWells(2)], [Triplet([])] + seq(Times(n), s => DlsWells(3 + s)))
  }

  /** Slots on the plate give the horizontal triplet; slots off it give the returned error object. */
  lemma DlsWellsCases(p: int)
    ensures 1 <= p <= 384 ==> DlsWells(p) == Triplet(TripletWells(p, 384, false))
    ensures !(1 <= p <= 384) ==> DlsWells(p) == PositionRejected
  {
    if 1 <= p <= 384 {
      DeepWellPosTriplicate(p, 384, "horizontal");
    }
  }

  /** As written, the first sample is pipetted into the blank's three wells. */
  lemma FirstSampleTakesBlank(n: int)
    requires n >= 1
    ensures LayoutAsWritten(n).samples[1] == LayoutAsWritten(n).negCtr[0]
    ensures LayoutAsWritten(n).samples[1].Triplet? && |LayoutAsWritten(n).samples[1].wells| == 3
  {
    DlsWellsCases(2);
  }

  /** No well of `a` is a well of `b`. */
  predicate Disjoint(a: Wells, b: Wells)
    requires a.Triplet? && b.Triplet?
  {
    forall w :: w in a.wells ==> w !in b.wells
  }

  /** Two slots among the first 128 (one per triplet of the plate) never share a well. */
  lemma SlotsDisjoint(p: int, q: int)
    requires 1 <= p <= 128 && 1 <= q <= 128 && p != q
    ensures DlsWells(p).Triplet? && DlsWells(q).Triplet?
    ensures Disjoint(DlsWells(p), DlsWells(q))
  {
    DlsWellsCases(p);
    DlsWellsCases(q);
    TripletsDisjoint(p, q, 384, false);
  }

  /**
   * With the samples after the blank, and as long as the plate has room for them (126 samples
   * besides the SST and the blank), the SST, the blank and every sample get three wells of
   * their own.
   */
  lemma IntendedLayoutDisjoint(n: int, s: int, t: int)
    requires n <= 126 && 0 <= s < n && 0 <= t < n && s != t
    ensures var l := IntendedLayout(n);
      && l.samples[s + 1] == DlsWells(3 + s) && l.samples[t + 1] == DlsWells(3 + t)
      && l.samples[s + 1].Triplet? && l.posCtr[0].Triplet? && l.negCtr[0].Triplet?
      && Disjoint(l.samples[s + 1], l.samples[t + 1])
      && Disjoint(l.samples[s + 1], l.posCtr[0]) && Disjoint(l.samples[s + 1], l.negCtr[0])
      && Disjoint(l.posCtr[0], l.negCtr[0])
  {
    SlotsDisjoint(3 + s, 3 + t);
    SlotsDisjoint(3 + s, 1);
    SlotsDisjoint(3 + s, 2);
    SlotsDisjoint(1, 2);
  }

  /** As written, every sample but the first has wells of its own, apart from the SST and the blank. */
  lemma AsWrittenCollidesOnlyOnce(n: int, s: int)
    requires n <= 127 && 1 <= s < n
    ensures var l := LayoutAsWritten(n);
      && l.samples[s + 1].Triplet? && l.posCtr[0].Triplet? && l.negCtr[0].Triplet?
      && Disjoint(l.samples[s + 1], l.posCtr[0]) && Disjoint(l.samples[s + 1], l.negCtr[0])
  {
    SlotsDisjoint(2 + s, 1);
    SlotsDisjoint(2 + s, 2);
  }

  /** `DLSMethod`: its raising labware counters, the number of the next CSV file and the reagent layout. */
  class DlsMethod {
    const counters: RaisingCounters
    var csvNumber: int
    var reagentsPos: DlsLayout

    constructor ()
      ensures fresh(counters) && counters.tables == NewTables && counters.used == Zeros(NewNames.Keys)
      ensures csvNumber == 1 && reagentsPos == DlsLayout([], [], [])
    {
      counters := new RaisingCounters(NewTables);
      csvNumber := 1;
      reagentsPos := DlsLayout([], [], []);
    }

    /** The reset at the start of `DLS` and of `set_all_parameters`. */
    method Reset()
      modifies this, counters
      ensures counters.used == Zeros(old(counters.used).Keys) && csvNumber == 1
      ensures reagentsPos == old(reagentsPos)
    {
      counters.Reset();
      csvNumber := 1;
    }

    /** `calculate_pump_labware_positions` for `n` samples; the layout is also kept in `reagents_pos`. */
    method CalculatePumpLabwarePositions(n: int) returns (layout: DlsLayout)
      modifies this
      ensures layout == LayoutAsWritten(n) && reagentsPos == layout
      ensures csvNumber == old(csvNumber)
    {
      var sstPos := [DlsWells(1)];
      var blankPos := [DlsWells(2)];
      var samplePos := [Triplet([])];
      var sample := 0;
      while sample < n
        invariant 0 <= sample <= Times(n)
        invariant samplePos == [Triplet([])] + seq(sample, s => DlsWells(2 + s))
      {
        samplePos := samplePos + [DlsWells(2 + sample)];
        sample := sample + 1;
      }
      layout := DlsLayout(sstPos, blankPos, samplePos);
      reagentsPos := layout;
    }

    /**
     * `DLS`: the reset and the count of the samples' own positions, after which the
     * configuration file records `n_steps`, one less than the next CSV number: no CSV file.
     */
    method Run(origin: string, n: int) returns (r: Result<int>)
      modifies this, counters
      ensures var (err, after) := if origin in counters.tables.names
        then RaisingCounted(counters.tables, Zeros(old(counters.used).Keys), counters.tables.names[origin], Times(n))
        else (None, Zeros(old(counters.used).Keys));
        && counters.used == after
        && (r.Err? <==> err.Some?)
        && (r.Err? ==> r.error == err.value)
      ensures r.Ok? ==> r.value == csvNumber - 1 == 0
    {
      Reset();
      var err := counters.CountStartingLwPos(origin, n);
      if err.Some? {
        return Err(err.value);
      }
      r := Ok(csvNumber - 1);
    }
  }
}
