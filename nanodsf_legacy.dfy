/**
 * The older nanoDSF protocol of nanoDSF.py: one sample dilution series whose samples may start
 * in Eppendorf tubes, and the mapping of the recorded tubes onto pump-plate triplets. It runs on
 * the older labware tables and the two-field counters.
 */
module NanoDSFLegacy {
  import opened Wrappers
  import opened Catalog
  import opened Addressing
  import opened Allocation
  import opened Dilution
  import opened WellGeometry
  import DotblotLegacy

  /**
   * Where sample `j` starts: with an Eppendorf origin, the tube the Eppendorf counter shows after
   * `j` draws (the counter itself, not the value the draw returns); otherwise container `j + 1`.
   */
  function NanoSources(labwareType: string, e0: int, capE: int, n: nat): (ss: seq<string>)
    ensures |ss| == n
  {
    seq(n, j requires 0 <= j < n =>
      if labwareType == "Eppendorf" then Pos2Str("Eppendorf", Advanced(e0, capE, j)) else Pos2Str(labwareType, j + 1))
  }

  /** The origin labels of the initial transfer, drawing one Eppendorf tube per sample for an Eppendorf origin. */
  method OriginSources(c: TwoFieldCounter, labwareType: string, n: nat) returns (sources: seq<string>)
    modifies c
    ensures sources == NanoSources(labwareType, old(c.lastEppendorfPos), c.eppendorfCapacity, n)
    ensures c.lastEppendorfPos == Advanced(old(c.lastEppendorfPos), c.eppendorfCapacity, if labwareType == "Eppendorf" then n else 0)
    ensures c.lastDeepWellPos == old(c.lastDeepWellPos)
  {
    ghost var e0 := c.lastEppendorfPos;
    ghost var expected := NanoSources(labwareType, e0, c.eppendorfCapacity, n);
    sources := [];
    if labwareType == "Eppendorf" {
      for j := 0 to n
        invariant |sources| == j
        invariant forall k :: 0 <= k < j ==> sources[k] == expected[k]
        invariant c.lastEppendorfPos == Advanced(e0, c.eppendorfCapacity, j)
        invariant c.lastDeepWellPos == old(c.lastDeepWellPos)
      {
        assert expected[j] == Pos2Str(labwareType, c.lastEppendorfPos);
        sources := sources + [Pos2Str(labwareType, c.lastEppendorfPos)];
        var _ := c.NextEppendorfPos();
        AdvancedSnoc(e0, c.eppendorfCapacity, j);
      }
    } else {
      for j := 0 to n
        invariant |sources| == j
        invariant forall k :: 0 <= k < j ==> sources[k] == expected[k]
      {
        assert expected[j] == Pos2Str(labwareType, j + 1);
        sources := sources + [Pos2Str(labwareType, j + 1)];
      }
    }
    assert sources == expected;
  }

  /**
   * `sample_dilutions` as written: the initial loop draws the origin tubes and `n` DeepWell wells
   * and builds the initial rows; the path of the first CSV then reads `sample_dilutions_csv_name`,
   * which this class never sets, so the call raises AttributeError before any dilution step.
   */
  method SampleDilutionsAsWritten(c: TwoFieldCounter, labwareType: string, n: nat, volume: real)
    returns (init: seq<Transfer>, r: Result<seq<int>>)
    modifies c
    ensures r == Err(AttributeError)
    ensures |init| == n
    ensures forall j :: 0 <= j < n ==>
      init[j] == Transfer(NanoSources(labwareType, old(c.lastEppendorfPos), c.eppendorfCapacity, n)[j], 1,
                          OldNames["DeepWell"], old(c.lastDeepWellPos) + j, volume)
    ensures c.lastEppendorfPos == Advanced(old(c.lastEppendorfPos), c.eppendorfCapacity, if labwareType == "Eppendorf" then n else 0)
    ensures c.lastDeepWellPos == Advanced(old(c.lastDeepWellPos), c.deepWellCapacity, n)
  {
    var sources := OriginSources(c, labwareType, n);
    WorktablesHold();
    var labels, wells;
    init, labels, wells := InitialTransfer(c, OldTables, sources, n, volume);
    r := Err(AttributeError);
  }

  /**
   * `sample_dilutions` as intended, with the CSV name set: the series from the origin containers
   * (or tubes), diluted with the assay buffer; the recorded positions are the tubes of its final
   * step, drawn after the origin tubes.
   */
  method SampleDilutions(c: TwoFieldCounter, labwareType: string, n: nat, volume: real, steps: seq<DilutionStep>)
    returns (init: seq<Transfer>, sampleRows: seq<seq<Transfer>>, bufferRows: seq<seq<Transfer>>, positions: seq<int>)
    modifies c
    ensures var e1 := Advanced(old(c.lastEppendorfPos), c.eppendorfCapacity, if labwareType == "Eppendorf" then n else 0);
      && SeriesRows(init, sampleRows, bufferRows, OldNames["DeepWell"],
                    NanoSources(labwareType, old(c.lastEppendorfPos), c.eppendorfCapacity, n), n, volume, steps,
                    "100ml_3", old(c.lastDeepWellPos), e1, c.deepWellCapacity)
      && positions == (if |steps| > 0 then CounterValues(e1, c.eppendorfCapacity, n) else [])
      && c.lastEppendorfPos == Advanced(e1, c.eppendorfCapacity, if |steps| > 0 then n else 0)
    ensures c.lastDeepWellPos == Advanced(old(c.lastDeepWellPos), c.deepWellCapacity, n + Times(|steps| - 1) * n)
  {
    var sources := OriginSources(c, labwareType, n);
    WorktablesHold();
    AssayBufferName();
    init, sampleRows, bufferRows, positions := SampleSeries(c, OldTables, sources, n, volume, steps, OldNames["AssayBuffer"]);
  }

  /**
   * With enough tubes, the final dilutions never land in an origin tube: origin tubes are
   * e0..e0+n-1 and the final step's tubes e0+n..e0+2n-1.
   */
  lemma FinalTubesAvoidOrigins(e0: int, capE: int, n: nat, j: nat, k: nat)
    requires e0 + 2 * n <= capE && j < n && k < n
    ensures CounterValues(Advanced(e0, capE, n), capE, n)[k] == e0 + n + k
    ensures Pos2Str("Eppendorf", CounterValues(Advanced(e0, capE, n), capE, n)[k]) != NanoSources("Eppendorf", e0, capE, n)[j]
  {
    assert CounterValues(Advanced(e0, capE, n), capE, n)[k] == e0 + n + k by {
      AdvancedClosed(e0, capE, n);
      AdvancedClosed(e0 + n, capE, k);
    }
    assert NanoSources("Eppendorf", e0, capE, n)[j] == Pos2Str("Eppendorf", e0 + j) by {
      AdvancedClosed(e0, capE, j);
    }
    Pos2StrInjective("Eppendorf", e0 + n + k, e0 + j);
  }

  /** The mapping loop of `calculate_pump_labware_positions`: each recorded tube `p` to its triplet. */
  method CalculatePumpLabwarePositions(positions: seq<int>) returns (samples: seq<seq<int>>)
    ensures |samples| == |positions|
    ensures forall i :: 0 <= i < |positions| ==> samples[i] == OldDeepWellPos(positions[i])
  {
    samples := DotblotLegacy.SampleTriplets(positions);
  }
}
