/**
 * The older Dot-blot protocol of Dotblot.py: one positive and one negative control chain
 * starting from the custom vial holder, one sample series, and a pump layout built with the
 * 96-only `get_deep_well_pos` of utils.py. It runs on the older labware tables.
 */
module DotblotLegacy {
  import opened Catalog
  import opened Addressing
  import opened WellGeometry
  import opened Allocation
  import opened Dilution
  import opened Dotblot
  import DotblotPump

  /** The buffer trough of a control: "100ml_2" holds DPBS, "100ml_1" the assay buffer. */
  function ControlBuffer(buffer: string): (trough: string)
    ensures trough == "100ml_2" <==> buffer == "DPBS"
    ensures trough == "100ml_1" <==> buffer != "DPBS"
  {
    if buffer == "DPBS" then "100ml_2" else "100ml_1"
  }

  /**
   * The chain shared by `positive_control_dilutions` and `negative_control_dilutions`: it starts
   * from the vial at (`vialX`, `vialY`) of the custom vial holder, takes buffer from the trough
   * `ControlBuffer(buffer)` and records the tube of its final step.
   */
  method ControlDilutions(c: TwoFieldCounter, buffer: string, vialX: string, vialY: int, steps: seq<DilutionStep>)
    returns (sampleRows: seq<Transfer>, bufferRows: seq<Transfer>, positions: seq<int>)
    modifies c
    ensures ChainRows(sampleRows, bufferRows, "Custom_vial_holder[001]", ControlVialPos(vialX, vialY), ControlBuffer(buffer), steps)
    ensures EndsInTube(sampleRows, Drawn(old(c.lastEppendorfPos), c.eppendorfCapacity))
    ensures forall i :: 0 <= i < |steps| - 1 ==>
      sampleRows[i].dest == OldNames["DeepWell"] &&
      sampleRows[i].destWell == Draws(old(c.lastDeepWellPos), c.deepWellCapacity, |steps| - 1)[i]
    ensures positions == if |steps| > 0 then [old(c.lastEppendorfPos)] else []
    ensures c.lastDeepWellPos == Advanced(old(c.lastDeepWellPos), c.deepWellCapacity, Times(|steps| - 1))
    ensures c.lastEppendorfPos == Advanced(old(c.lastEppendorfPos), c.eppendorfCapacity, if |steps| > 0 then 1 else 0)
  {
    WorktablesHold();
    CustomVialHolderName();
    sampleRows, bufferRows, positions :=
      ControlChain(c, OldTables, OldNames["CustomVialHolder"], ControlVialPos(vialX, vialY), ControlBuffer(buffer), steps);
  }

  /** `positive_control_dilutions`: the chain of the positive-control vial. */
  method PositiveControlDilutions(c: TwoFieldCounter, buffer: string, vialX: string, vialY: int, steps: seq<DilutionStep>)
    returns (positions: seq<int>)
    modifies c
    ensures positions == if |steps| > 0 then [old(c.lastEppendorfPos)] else []
    ensures c.lastDeepWellPos == Advanced(old(c.lastDeepWellPos), c.deepWellCapacity, Times(|steps| - 1))
    ensures c.lastEppendorfPos == Advanced(old(c.lastEppendorfPos), c.eppendorfCapacity, if |steps| > 0 then 1 else 0)
  {
    var _, _, p := ControlDilutions(c, buffer, vialX, vialY, steps);
    positions := p;
  }

  /** `negative_control_dilutions`: the same chain for the negative-control vial. */
  method NegativeControlDilutions(c: TwoFieldCounter, buffer: string, vialX: string, vialY: int, steps: seq<DilutionStep>)
    returns (positions: seq<int>)
    modifies c
    ensures positions == if |steps| > 0 then [old(c.lastEppendorfPos)] else []
    ensures c.lastDeepWellPos == Advanced(old(c.lastDeepWellPos), c.deepWellCapacity, Times(|steps| - 1))
    ensures c.lastEppendorfPos == Advanced(old(c.lastEppendorfPos), c.eppendorfCapacity, if |steps| > 0 then 1 else 0)
  {
    var _, _, p := ControlDilutions(c, buffer, vialX, vialY, steps);
    positions := p;
  }

  /** Sample `j` (0-based) is taken from container `j + 1` of its labware. */
  function ContainerSources(labwareType: string, n: nat): (ss: seq<string>)
    ensures |ss| == n
    ensures forall j :: 0 <= j < n ==> ss[j] == Pos2Str(labwareType, j + 1)
  {
    seq(n, j requires 0 <= j < n => Pos2Str(labwareType, j + 1))
  }

  /**
   * `sample_dilutions`: one series from containers 1..n of the sample labware, diluted with the
   * assay buffer of trough "100ml_1"; the recorded positions are the tubes of its final step.
   */
  method SampleDilutions(c: TwoFieldCounter, labwareType: string, n: nat, volume: real, steps: seq<DilutionStep>)
    returns (init: seq<Transfer>, sampleRows: seq<seq<Transfer>>, bufferRows: seq<seq<Transfer>>, positions: seq<int>)
    modifies c
    ensures SeriesRows(init, sampleRows, bufferRows, OldNames["DeepWell"], ContainerSources(labwareType, n), n, volume, steps,
                       "100ml_1", old(c.lastDeepWellPos), old(c.lastEppendorfPos), c.deepWellCapacity)
    ensures positions == if |steps| > 0 then CounterValues(old(c.lastEppendorfPos), c.eppendorfCapacity, n) else []
    ensures c.lastDeepWellPos == Advanced(old(c.lastDeepWellPos), c.deepWellCapacity, n + Times(|steps| - 1) * n)
    ensures c.lastEppendorfPos == Advanced(old(c.lastEppendorfPos), c.eppendorfCapacity, if |steps| > 0 then n else 0)
  {
    WorktablesHold();
    init, sampleRows, bufferRows, positions := SampleSeries(c, OldTables, ContainerSources(labwareType, n), n, volume, steps, "100ml_1");
  }

  /** `pos_ctr_pos`, `neg_ctr_pos` and `samples_pos` as the older mapper gives them: plain well lists. */
  datatype LegacyLayout = LegacyLayout(posCtr: seq<int>, negCtr: seq<int>, samples: seq<seq<int>>)

  /** The loop of `calculate_pump_labware_positions`: one triplet per recorded position, in order. */
  method SampleTriplets(positions: seq<int>) returns (samples: seq<seq<int>>)
    ensures |samples| == |positions|
    ensures forall i :: 0 <= i < |positions| ==> samples[i] == OldDeepWellPos(positions[i])
  {
    samples := [];
    for i := 0 to |positions|
      invariant |samples| == i
      invariant forall k :: 0 <= k < i ==> samples[k] == OldDeepWellPos(positions[k])
    {
      samples := samples + [OldDeepWellPos(positions[i])];
    }
  }

  /**
   * `calculate_pump_labware_positions`: the controls in slots 1 and 2, and one triplet per
   * recorded Eppendorf position, in order, in the slot of that number.
   */
  method CalculatePumpLabwarePositions(positions: seq<int>) returns (layout: LegacyLayout)
    ensures layout.posCtr == [1, 9, 17] && layout.negCtr == [2, 10, 18]
    ensures |layout.samples| == |positions|
    ensures forall i :: 0 <= i < |positions| ==> layout.samples[i] == OldDeepWellPos(positions[i])
  {
    PumpDocstringExample();
    var samples := SampleTriplets(positions);
    layout := LegacyLayout(OldDeepWellPos(1), OldDeepWellPos(2), samples);
  }

  /** The example of the docstring: Eppendorf positions 3..6 give the triplets of slots 3..6. */
  lemma PumpDocstringExample()
    ensures OldDeepWellPos(1) == [1, 9, 17] && OldDeepWellPos(2) == [2, 10, 18]
    ensures OldDeepWellPos(3) == [3, 11, 19] && OldDeepWellPos(4) == [4, 12, 20]
    ensures OldDeepWellPos(5) == [5, 13, 21] && OldDeepWellPos(6) == [6, 14, 22]
  {
  }

  /**
   * Recorded positions 3..32 that differ give triplets that share no well with each other or
   * with the control triplets, all on the plate.
   */
  lemma SampleTripletsDisjoint(p: int, q: int)
    requires 3 <= p <= 32 && 3 <= q <= 32 && p != q
    ensures forall w :: w in OldDeepWellPos(p) ==> w !in OldDeepWellPos(q) && 1 <= w <= 96
    ensures forall w :: w in OldDeepWellPos(p) ==> w !in OldDeepWellPos(1) && w !in OldDeepWellPos(2)
  {
    OldIsPump(p);
    OldIsPump(q);
    OldIsPump(1);
    OldIsPump(2);
    DotblotPump.SlotsDisjoint(p, q);
    DotblotPump.SlotsDisjoint(p, 1);
    DotblotPump.SlotsDisjoint(p, 2);
  }

  /** On 1..96 the older mapper gives the triplet of the newer one's defaults. */
  lemma OldIsPump(p: int)
    requires 1 <= p <= 96
    ensures OldDeepWellPos(p) == DotblotPump.PumpWells(p).wells
  {
    OldDeepWellPosAgrees(p);
  }
}
