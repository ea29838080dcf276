/**
 * The Dot-blot protocol of helper/Dotblot.py: control dilution chains for one or two coating
 * proteins, the sample dilution series, the pump-plate layout, and the wells that the reagent
 * distribution leaves out. The two position counters are a `TwoFieldCounter`; rows are kept in
 * memory instead of being written to CSV files.
 */
module Dotblot {
  import opened Wrappers
  import opened Catalog
  import opened Addressing
  import opened WellGeometry
  import opened Allocation
  import opened Dilution

  // ---------------------------------------------------------------------------------------------
  // Control dilutions
  // ---------------------------------------------------------------------------------------------

  /** The number of chains among the first `k` of `groups` that have at least one dilution step. */
  function Nonempty(groups: seq<seq<DilutionStep>>, k: nat): nat
    requires k <= |groups|
  {
    if k == 0 then 0 else Nonempty(groups, k - 1) + (if groups[k - 1] != [] then 1 else 0)
  }

  /** DeepWell positions the first `k` chains of `groups` draw: every step but the last of each chain. */
  function DeepSteps(groups: seq<seq<DilutionStep>>, k: nat): nat
    requires k <= |groups|
  {
    if k == 0 then 0 else DeepSteps(groups, k - 1) + Times(|groups[k - 1]| - 1)
  }

  /** A chain with steps ends in the one well of Eppendorf tube `tube`. */
  predicate EndsInTube(sampleRows: seq<Transfer>, tube: int)
  {
    |sampleRows| > 0 ==>
      sampleRows[|sampleRows| - 1].dest == Pos2Str("Eppendorf", tube) && sampleRows[|sampleRows| - 1].destWell == 1
  }

  /** The rows of every control chain and the recorded Eppendorf positions, one per list. */
  datatype ControlRun = ControlRun(sampleRows: seq<seq<Transfer>>, bufferRows: seq<seq<Transfer>>, positions: seq<seq<int>>)

  /**
   * The first `|sampleRows|` chains of `groups`, run from Eppendorf counter `e0`: chain `k` is
   * built from `source` and ends in the tube drawn after the earlier chains.
   */
  predicate ChainsOf(sampleRows: seq<seq<Transfer>>, bufferRows: seq<seq<Transfer>>, source: string, sourceWell: int,
                     buffer: string, groups: seq<seq<DilutionStep>>, e0: int, capE: int)
  {
    && |sampleRows| == |bufferRows| <= |groups|
    && forall k {:trigger sampleRows[k]} :: 0 <= k < |sampleRows| ==>
         && ChainRows(sampleRows[k], bufferRows[k], source, sourceWell, buffer, groups[k])
         && EndsInTube(sampleRows[k], Drawn(Advanced(e0, capE, Nonempty(groups, k)), capE))
  }

  /** One more chain, ending in the tube the counter gives after the earlier chains. */
  lemma ChainsOfSnoc(sampleRows: seq<seq<Transfer>>, bufferRows: seq<seq<Transfer>>, s: seq<Transfer>, b: seq<Transfer>,
                     source: string, sourceWell: int, buffer: string, groups: seq<seq<DilutionStep>>, e0: int, capE: int)
    requires ChainsOf(sampleRows, bufferRows, source, sourceWell, buffer, groups, e0, capE) && |sampleRows| < |groups|
    requires ChainRows(s, b, source, sourceWell, buffer, groups[|sampleRows|])
    requires EndsInTube(s, Drawn(Advanced(e0, capE, Nonempty(groups, |sampleRows|)), capE))
    ensures ChainsOf(sampleRows + [s], bufferRows + [b], source, sourceWell, buffer, groups, e0, capE)
  {
    var ss, bs := sampleRows + [s], bufferRows + [b];
    forall k | 0 <= k < |ss|
      ensures ChainRows(ss[k], bs[k], source, sourceWell, buffer, groups[k])
      ensures EndsInTube(ss[k], Drawn(Advanced(e0, capE, Nonempty(groups, k)), capE))
    {
      if k < |sampleRows| {
        assert ss[k] == sampleRows[k] && bs[k] == bufferRows[k];
      } else {
        assert ss[k] == s && bs[k] == b;
      }
    }
  }

  /**
   * What the control dilutions give for the first `count` chains of `groups` from Eppendorf
   * counter `e0`: the chains as above, and the recorded positions are the successive counter
   * values, each in a list of its own.
   */
  predicate ControlRunOf(run: ControlRun, source: string, sourceWell: int, buffer: string,
                         groups: seq<seq<DilutionStep>>, count: nat, e0: int, capE: int)
  {
    && |run.sampleRows| == count <= |groups|
    && ChainsOf(run.sampleRows, run.bufferRows, source, sourceWell, buffer, groups, e0, capE)
    && run.positions == ChunksOf(CounterValues(e0, capE, Nonempty(groups, count)), 1)
  }

  /**
   * The loop shared by `positive_control_dilutions` and `negative_control_dilutions`: `count`
   * chains, chain `k` taking its steps from `groups[k]`. A `count` beyond the data raises
   * IndexError once the available chains are built.
   */
  method ControlGroups(c: TwoFieldCounter, tables: Tables, source: string, sourceWell: int, buffer: string,
                       groups: seq<seq<DilutionStep>>, count: nat)
    returns (r: Result<ControlRun>)
    requires Worktable(tables)
    modifies c
    ensures r.Err? <==> count > |groups|
    ensures r.Err? ==> r.error == IndexError
    ensures r.Ok? ==> ControlRunOf(r.value, source, sourceWell, buffer, groups, count, old(c.lastEppendorfPos), c.eppendorfCapacity)
    ensures c.lastEppendorfPos == Advanced(old(c.lastEppendorfPos), c.eppendorfCapacity, Nonempty(groups, Min(count, |groups|)))
    ensures c.lastDeepWellPos == Advanced(old(c.lastDeepWellPos), c.deepWellCapacity, DeepSteps(groups, Min(count, |groups|)))
  {
    ghost var d0, e0 := c.lastDeepWellPos, c.lastEppendorfPos;
    var sampleRows, bufferRows, recorded := [], [], [];
    for k := 0 to count
      invariant k <= |groups| && |sampleRows| == k
      invariant ChainsOf(sampleRows, bufferRows, source, sourceWell, buffer, groups, e0, c.eppendorfCapacity)
      invariant recorded == CounterValues(e0, c.eppendorfCapacity, Nonempty(groups, k))
      invariant c.lastEppendorfPos == Advanced(e0, c.eppendorfCapacity, Nonempty(groups, k))
      invariant c.lastDeepWellPos == Advanced(d0, c.deepWellCapacity, DeepSteps(groups, k))
    {
      if k >= |groups| {
        assert Min(count, |groups|) == k;
        return Err(IndexError);
      }
      sampleRows, bufferRows, recorded := ControlStep(c, tables, source, sourceWell, buffer, groups, d0, e0, sampleRows, bufferRows, recorded);
    }
    assert Min(count, |groups|) == count;
    r := Ok(ControlRun(sampleRows, bufferRows, ChunksOf(recorded, 1)));
  }

  /** One pass of the control loop: chain `|sampleRows|` is built and its tube recorded. */
  method ControlStep(c: TwoFieldCounter, tables: Tables, source: string, sourceWell: int, buffer: string,
                     groups: seq<seq<DilutionStep>>, ghost d0: int, ghost e0: int,
                     sampleRows: seq<seq<Transfer>>, bufferRows: seq<seq<Transfer>>, recorded: seq<int>)
    returns (sampleRows': seq<seq<Transfer>>, bufferRows': seq<seq<Transfer>>, recorded': seq<int>)
    requires Worktable(tables) && |sampleRows| < |groups|
    requires ChainsOf(sampleRows, bufferRows, source, sourceWell, buffer, groups, e0, c.eppendorfCapacity)
    requires recorded == CounterValues(e0, c.eppendorfCapacity, Nonempty(groups, |sampleRows|))
    requires c.lastEppendorfPos == Advanced(e0, c.eppendorfCapacity, Nonempty(groups, |sampleRows|))
    requires c.lastDeepWellPos == Advanced(d0, c.deepWellCapacity, DeepSteps(groups, |sampleRows|))
    modifies c
    ensures |sampleRows'| == |sampleRows| + 1
    ensures ChainsOf(sampleRows', bufferRows', source, sourceWell, buffer, groups, e0, c.eppendorfCapacity)
    ensures recorded' == CounterValues(e0, c.eppendorfCapacity, Nonempty(groups, |sampleRows'|))
    ensures c.lastEppendorfPos == Advanced(e0, c.eppendorfCapacity, Nonempty(groups, |sampleRows'|))
    ensures c.lastDeepWellPos == Advanced(d0, c.deepWellCapacity, DeepSteps(groups, |sampleRows'|))
  {
    var k := |sampleRows|;
    ghost var ne, ds := Nonempty(groups, k), DeepSteps(groups, k);
    ghost var dn, dd := (if groups[k] != [] then 1 else 0), Times(|groups[k]| - 1);
    assert Nonempty(groups, k + 1) == ne + dn && DeepSteps(groups, k + 1) == ds + dd;
    var s, b, e := ControlChain(c, tables, source, sourceWell, buffer, groups[k]);
    assert EndsInTube(s, Drawn(Advanced(e0, c.eppendorfCapacity, ne), c.eppendorfCapacity));
    assert e == CounterValues(Advanced(e0, c.eppendorfCapacity, ne), c.eppendorfCapacity, dn);
    assert c.lastEppendorfPos == Advanced(e0, c.eppendorfCapacity, ne + dn) by {
      AdvancedAdd(e0, c.eppendorfCapacity, ne, dn);
    }
    assert c.lastDeepWellPos == Advanced(d0, c.deepWellCapacity, ds + dd) by {
      AdvancedAdd(d0, c.deepWellCapacity, ds, dd);
    }
    assert recorded + e == CounterValues(e0, c.eppendorfCapacity, ne + dn) by {
      CounterValuesAdd(e0, c.eppendorfCapacity, ne, dn);
    }
    ChainsOfSnoc(sampleRows, bufferRows, s, b, source, sourceWell, buffer, groups, e0, c.eppendorfCapacity);
    sampleRows', bufferRows', recorded' := sampleRows + [s], bufferRows + [b], recorded + e;
  }

  /**
   * `positive_control_dilutions`: every chain starts from the positive-control vial at its
   * holder position, takes buffer from `LabwareNames[bufferKey]` and runs once per coating group.
   */
  method PositiveControlDilutions(c: TwoFieldCounter, bufferKey: string, vialX: string, vialY: int,
                                  groups: seq<seq<DilutionStep>>)
    returns (r: Result<ControlRun>)
    modifies c
    ensures r.Err? <==> bufferKey !in NewNames
    ensures r.Err? ==> r.error == KeyError && c.lastEppendorfPos == old(c.lastEppendorfPos) && c.lastDeepWellPos == old(c.lastDeepWellPos)
    ensures r.Ok? ==>
      && ControlRunOf(r.value, Pos2Str("Pos_Ctr_Vial", ControlVialPos(vialX, vialY)), 1, NewNames[bufferKey], groups, |groups|,
                      old(c.lastEppendorfPos), c.eppendorfCapacity)
      && c.lastEppendorfPos == Advanced(old(c.lastEppendorfPos), c.eppendorfCapacity, Nonempty(groups, |groups|))
      && c.lastDeepWellPos == Advanced(old(c.lastDeepWellPos), c.deepWellCapacity, DeepSteps(groups, |groups|))
  {
    if bufferKey !in NewNames {
      return Err(KeyError);
    }
    PosCtrVialName();
    var source := Pos2Str(NewNames["Pos_Ctr_Vial"], ControlVialPos(vialX, vialY));
    WorktablesHold();
    r := ControlGroups(c, NewTables, source, 1, NewNames[bufferKey], groups, |groups|);
  }

  /**
   * `negative_control_dilutions`: every chain starts from the first vial of the negative-control
   * holder. The loop runs once per POSITIVE-control group (`coatings`) but reads the negative
   * data, so fewer negative groups than that raise IndexError.
   */
  method NegativeControlDilutions(c: TwoFieldCounter, bufferKey: string, coatings: nat, groups: seq<seq<DilutionStep>>)
    returns (r: Result<ControlRun>)
    modifies c
    ensures r.Err? <==> bufferKey !in NewNames || coatings > |groups|
    ensures r.Err? ==> r.error == if bufferKey !in NewNames then KeyError else IndexError
    ensures bufferKey !in NewNames ==> c.lastEppendorfPos == old(c.lastEppendorfPos) && c.lastDeepWellPos == old(c.lastDeepWellPos)
    ensures r.Ok? ==>
      ControlRunOf(r.value, Pos2Str("8R_Vial_neg_ctr", 1), 1, NewNames[bufferKey], groups, coatings,
                   old(c.lastEppendorfPos), c.eppendorfCapacity)
    ensures bufferKey in NewNames ==>
      && c.lastEppendorfPos == Advanced(old(c.lastEppendorfPos), c.eppendorfCapacity, Nonempty(groups, Min(coatings, |groups|)))
      && c.lastDeepWellPos == Advanced(old(c.lastDeepWellPos), c.deepWellCapacity, DeepSteps(groups, Min(coatings, |groups|)))
  {
    if bufferKey !in NewNames {
      return Err(KeyError);
    }
    NegCtrVialName();
    var source := Pos2Str(NewNames["8R_Vial neg_ctr"], 1);
    WorktablesHold();
    r := ControlGroups(c, NewTables, source, 1, NewNames[bufferKey], groups, coatings);
  }

  /** Each chain with steps records exactly one tube, in a list of its own: the counter's successive values. */
  lemma ControlPositionsAreSingletons(run: ControlRun, source: string, sourceWell: int, buffer: string,
                                      groups: seq<seq<DilutionStep>>, count: nat, e0: int, capE: int)
    requires ControlRunOf(run, source, sourceWell, buffer, groups, count, e0, capE)
    ensures |run.positions| == Nonempty(groups, count)
    ensures forall k :: 0 <= k < |run.positions| ==> run.positions[k] == [Advanced(e0, capE, k)]
  {
    ChunksOfOne(CounterValues(e0, capE, Nonempty(groups, count)));
  }

  /** Under capacity, chain `k` ends in the tube after the earlier chains' tubes, and that tube is recorded. */
  lemma ControlTubeRecorded(run: ControlRun, source: string, sourceWell: int, buffer: string,
                            groups: seq<seq<DilutionStep>>, count: nat, e0: int, capE: int, k: nat)
    requires ControlRunOf(run, source, sourceWell, buffer, groups, count, e0, capE)
    requires k < count && groups[k] != [] && e0 + Nonempty(groups, count) <= capE
    ensures Nonempty(groups, k) < |run.positions| && run.positions[Nonempty(groups, k)] == [e0 + Nonempty(groups, k)]
    ensures run.sampleRows[k][|groups[k]| - 1].dest == Pos2Str("Eppendorf", e0 + Nonempty(groups, k))
  {
    var n := Nonempty(groups, k);
    NonemptyGrows(groups, k + 1, count);
    TubeUnderCapacity(e0, capE, Nonempty(groups, count), n);
    assert EndsInTube(run.sampleRows[k], Drawn(Advanced(e0, capE, n), capE));
  }

  /** Below capacity, draw `n` of `m` hands out tube `e0 + n`, and that is the `n`-th recorded list. */
  lemma TubeUnderCapacity(e0: int, capE: int, m: nat, n: nat)
    requires n < m && e0 + m <= capE
    ensures Drawn(Advanced(e0, capE, n), capE) == e0 + n
    ensures n < |ChunksOf(CounterValues(e0, capE, m), 1)| && ChunksOf(CounterValues(e0, capE, m), 1)[n] == [e0 + n]
  {
    SingletonChunkAt(e0, capE, m, n);
    AdvancedClosed(e0, capE, n);
  }

  /** Counting over a longer prefix never gives fewer chains. */
  lemma {:induction false} NonemptyGrows(groups: seq<seq<DilutionStep>>, i: nat, j: nat)
    requires i <= j <= |groups|
    ensures Nonempty(groups, i) <= Nonempty(groups, j)
    decreases j
  {
    if i < j {
      NonemptyGrows(groups, i, j - 1);
    }
  }

  // ---------------------------------------------------------------------------------------------
  // Sample dilutions
  // ---------------------------------------------------------------------------------------------

  /**
   * Where sample `j` starts: an Eppendorf origin uses the tubes drawn for the samples up front,
   * any other origin its container `j + 1` (a one-well container).
   */
  function SampleSources(labwareType: string, initial: seq<int>, n: nat): (ss: seq<string>)
    requires labwareType == "Eppendorf" ==> |initial| >= n
    ensures |ss| == n
  {
    seq(n, j requires 0 <= j < n => if labwareType == "Eppendorf" then Pos2Str(labwareType, initial[j]) else Pos2Str(labwareType, j + 1))
  }

  /** DeepWell positions the first `k` series use: `n` for the initial transfer and `n` per intermediate step. */
  function DeepUse(n: nat, groups: seq<seq<DilutionStep>>, k: nat): nat
    requires k <= |groups|
  {
    if k == 0 then 0 else DeepUse(n, groups, k - 1) + n + Times(|groups[k - 1]| - 1) * n
  }

  /** Eppendorf tubes the final steps of the first `k` series draw: `n` per group with steps. */
  function TubeUse(n: nat, groups: seq<seq<DilutionStep>>, k: nat): nat
    requires k <= |groups|
  {
    if k == 0 then 0 else TubeUse(n, groups, k - 1) + (if groups[k - 1] != [] then n else 0)
  }

  /** Every group with steps draws `n` tubes. */
  lemma {:induction false} TubeUseIsProduct(n: nat, groups: seq<seq<DilutionStep>>, k: nat)
    requires k <= |groups|
    ensures TubeUse(n, groups, k) == n * Nonempty(groups, k)
  {
    if k > 0 {
      TubeUseIsProduct(n, groups, k - 1);
    }
  }

  /** The rows of every sample series and the recorded Eppendorf positions, in lists of `n`. */
  datatype SampleRun = SampleRun(initRows: seq<seq<Transfer>>, sampleRows: seq<seq<seq<Transfer>>>,
                                 bufferRows: seq<seq<seq<Transfer>>>, positions: seq<seq<int>>)

  /**
   * Series `k` of `groups` starts with the DeepWell counter left by the earlier series and the
   * Eppendorf counter left by their final steps.
   */
  predicate SeriesOf(initRows: seq<seq<Transfer>>, sampleRows: seq<seq<seq<Transfer>>>, bufferRows: seq<seq<seq<Transfer>>>,
                     plate: string, sources: seq<string>, n: nat, volume: real, groups: seq<seq<DilutionStep>>,
                     buffer: string, d0: int, e1: int, capD: int, capE: int)
  {
    && |initRows| == |sampleRows| == |bufferRows| <= |groups|
    && forall k {:trigger initRows[k]} :: 0 <= k < |initRows| ==>
         SeriesRows(initRows[k], sampleRows[k], bufferRows[k], plate, sources, n, volume, groups[k], buffer,
                    Advanced(d0, capD, DeepUse(n, groups, k)), Advanced(e1, capE, TubeUse(n, groups, k)), capD)
  }

  /** The per-group loop of `sample_dilutions`: one series per coating group, all from `sources`. */
  method SampleGroups(c: TwoFieldCounter, tables: Tables, sources: seq<string>, n: nat, volume: real,
                      groups: seq<seq<DilutionStep>>, buffer: string)
    returns (initRows: seq<seq<Transfer>>, sampleRows: seq<seq<seq<Transfer>>>, bufferRows: seq<seq<seq<Transfer>>>, recorded: seq<int>)
    requires Worktable(tables) && |sources| >= n
    modifies c
    ensures |initRows| == |groups|
    ensures SeriesOf(initRows, sampleRows, bufferRows, tables.names["DeepWell"], sources, n, volume, groups, buffer,
                     old(c.lastDeepWellPos), old(c.lastEppendorfPos), c.deepWellCapacity, c.eppendorfCapacity)
    ensures recorded == CounterValues(old(c.lastEppendorfPos), c.eppendorfCapacity, TubeUse(n, groups, |groups|))
    ensures c.lastEppendorfPos == Advanced(old(c.lastEppendorfPos), c.eppendorfCapacity, TubeUse(n, groups, |groups|))
    ensures c.lastDeepWellPos == Advanced(old(c.lastDeepWellPos), c.deepWellCapacity, DeepUse(n, groups, |groups|))
  {
    ghost var d0, e1 := c.lastDeepWellPos, c.lastEppendorfPos;
    initRows, sampleRows, bufferRows, recorded := [], [], [], [];
    for k := 0 to |groups|
      invariant |initRows| == k
      invariant SeriesOf(initRows, sampleRows, bufferRows, tables.names["DeepWell"], sources, n, volume, groups, buffer,
                         d0, e1, c.deepWellCapacity, c.eppendorfCapacity)
      invariant recorded == CounterValues(e1, c.eppendorfCapacity, TubeUse(n, groups, k))
      invariant c.lastEppendorfPos == Advanced(e1, c.eppendorfCapacity, TubeUse(n, groups, k))
      invariant c.lastDeepWellPos == Advanced(d0, c.deepWellCapacity, DeepUse(n, groups, k))
    {
      initRows, sampleRows, bufferRows, recorded :=
        SampleStep(c, tables, sources, n, volume, groups, buffer, d0, e1, initRows, sampleRows, bufferRows, recorded);
    }
  }

  /** One pass of the sample loop: the series of group `|initRows|`. */
  method SampleStep(c: TwoFieldCounter, tables: Tables, sources: seq<string>, n: nat, volume: real,
                    groups: seq<seq<DilutionStep>>, buffer: string, ghost d0: int, ghost e1: int,
                    initRows: seq<seq<Transfer>>, sampleRows: seq<seq<seq<Transfer>>>, bufferRows: seq<seq<seq<Transfer>>>, recorded: seq<int>)
    returns (initRows': seq<seq<Transfer>>, sampleRows': seq<seq<seq<Transfer>>>, bufferRows': seq<seq<seq<Transfer>>>, recorded': seq<int>)
    requires Worktable(tables) && |sources| >= n && |initRows| < |groups|
    requires SeriesOf(initRows, sampleRows, bufferRows, tables.names["DeepWell"], sources, n, volume, groups, buffer,
                      d0, e1, c.deepWellCapacity, c.eppendorfCapacity)
    requires recorded == CounterValues(e1, c.eppendorfCapacity, TubeUse(n, groups, |initRows|))
    requires c.lastEppendorfPos == Advanced(e1, c.eppendorfCapacity, TubeUse(n, groups, |initRows|))
    requires c.lastDeepWellPos == Advanced(d0, c.deepWellCapacity, DeepUse(n, groups, |initRows|))
    modifies c
    ensures |initRows'| == |initRows| + 1
    ensures SeriesOf(initRows', sampleRows', bufferRows', tables.names["DeepWell"], sources, n, volume, groups, buffer,
                     d0, e1, c.deepWellCapacity, c.eppendorfCapacity)
    ensures recorded' == CounterValues(e1, c.eppendorfCapacity, TubeUse(n, groups, |initRows'|))
    ensures c.lastEppendorfPos == Advanced(e1, c.eppendorfCapacity, TubeUse(n, groups, |initRows'|))
    ensures c.lastDeepWellPos == Advanced(d0, c.deepWellCapacity, DeepUse(n, groups, |initRows'|))
  {
    var k := |initRows|;
    var init, s, b, rec := SampleSeries(c, tables, sources, n, volume, groups[k], buffer);
    AdvancedAdd(e1, c.eppendorfCapacity, TubeUse(n, groups, k), if groups[k] != [] then n else 0);
    AdvancedAdd(d0, c.deepWellCapacity, DeepUse(n, groups, k), n + Times(|groups[k]| - 1) * n);
    CounterValuesAdd(e1, c.eppendorfCapacity, TubeUse(n, groups, k), if groups[k] != [] then n else 0);
    SeriesOfSnoc(initRows, sampleRows, bufferRows, init, s, b, tables.names["DeepWell"], sources, n, volume, groups, buffer,
                 d0, e1, c.deepWellCapacity, c.eppendorfCapacity);
    initRows', sampleRows', bufferRows', recorded' := initRows + [init], sampleRows + [s], bufferRows + [b], recorded + rec;
  }

  /** `n` calls of `next_eppendorf_pos`, collecting the positions they give. */
  method DrawTubes(c: TwoFieldCounter, n: nat) returns (tubes: seq<int>)
    modifies c
    ensures tubes == Draws(old(c.lastEppendorfPos), c.eppendorfCapacity, n)
    ensures c.lastEppendorfPos == Advanced(old(c.lastEppendorfPos), c.eppendorfCapacity, n)
    ensures c.lastDeepWellPos == old(c.lastDeepWellPos)
  {
    ghost var e0 := c.lastEppendorfPos;
    tubes := [];
    for i := 0 to n
      invariant tubes == Draws(e0, c.eppendorfCapacity, i)
      invariant c.lastEppendorfPos == Advanced(e0, c.eppendorfCapacity, i) && c.lastDeepWellPos == old(c.lastDeepWellPos)
    {
      var p := c.NextEppendorfPos();
      DrawsSnoc(e0, c.eppendorfCapacity, i);
      AdvancedSnoc(e0, c.eppendorfCapacity, i);
      tubes := tubes + [p];
    }
  }

  /**
   * `sample_dilutions`: for an Eppendorf origin, one tube per sample is drawn first; then each
   * coating group runs a series from the same sources with the assay buffer, and the recorded
   * Eppendorf positions are returned in lists of `n`. With no samples the final chunking
   * (`range` with step 0) raises ValueError.
   */
  method SampleDilutions(c: TwoFieldCounter, labwareType: string, n: nat, volume: real, groups: seq<seq<DilutionStep>>)
    returns (r: Result<SampleRun>)
    modifies c
    ensures r.Err? <==> n == 0
    ensures r.Err? ==> r.error == ValueError
    ensures var e1 := Advanced(old(c.lastEppendorfPos), c.eppendorfCapacity, if labwareType == "Eppendorf" then n else 0);
      && c.lastEppendorfPos == Advanced(e1, c.eppendorfCapacity, TubeUse(n, groups, |groups|))
      && c.lastDeepWellPos == Advanced(old(c.lastDeepWellPos), c.deepWellCapacity, DeepUse(n, groups, |groups|))
      && (r.Ok? ==>
        && |r.value.initRows| == |groups|
        && SeriesOf(r.value.initRows, r.value.sampleRows, r.value.bufferRows, NewNames["DeepWell"],
                    SampleSources(labwareType, Draws(old(c.lastEppendorfPos), c.eppendorfCapacity, n), n), n, volume,
                    groups, NewNames["AssayBuffer"], old(c.lastDeepWellPos), e1, c.deepWellCapacity, c.eppendorfCapacity)
        && r.value.positions == ChunksOf(CounterValues(e1, c.eppendorfCapacity, TubeUse(n, groups, |groups|)), n))
  {
    ghost var draws := Draws(c.lastEppendorfPos, c.eppendorfCapacity, n);
    var initial := [];
    if labwareType == "Eppendorf" {
      initial := DrawTubes(c, n);
    }
    var sources := SampleSources(labwareType, initial, n);
    assert sources == SampleSources(labwareType, draws, n);
    WorktablesHold();
    AssayBufferName();
    var initRows, sampleRows, bufferRows, recorded := SampleGroups(c, NewTables, sources, n, volume, groups, NewNames["AssayBuffer"]);
    var chunks := Chunks(recorded, n);
    if chunks.Err? {
      return Err(chunks.error);
    }
    r := Ok(SampleRun(initRows, sampleRows, bufferRows, chunks.value));
  }

  /** One more series, started from the counters the earlier series left. */
  lemma SeriesOfSnoc(initRows: seq<seq<Transfer>>, sampleRows: seq<seq<seq<Transfer>>>, bufferRows: seq<seq<seq<Transfer>>>,
                     init: seq<Transfer>, s: seq<seq<Transfer>>, b: seq<seq<Transfer>>,
                     plate: string, sources: seq<string>, n: nat, volume: real, groups: seq<seq<DilutionStep>>,
                     buffer: string, d0: int, e1: int, capD: int, capE: int)
    requires SeriesOf(initRows, sampleRows, bufferRows, plate, sources, n, volume, groups, buffer, d0, e1, capD, capE)
    requires |initRows| < |groups|
    requires SeriesRows(init, s, b, plate, sources, n, volume, groups[|initRows|], buffer,
                        Advanced(d0, capD, DeepUse(n, groups, |initRows|)), Advanced(e1, capE, TubeUse(n, groups, |initRows|)), capD)
    ensures SeriesOf(initRows + [init], sampleRows + [s], bufferRows + [b], plate, sources, n, volume, groups, buffer, d0, e1, capD, capE)
  {
  }

  /**
   * The recorded positions come in lists of `n`, one per coating group with steps, and together
   * they are the Eppendorf counter's successive values; under capacity those are consecutive tubes.
   */
  lemma SamplePositionsChunked(run: SampleRun, e1: int, capE: int, n: nat, m: nat)
    requires n > 0 && run.positions == ChunksOf(CounterValues(e1, capE, n * m), n)
    ensures |run.positions| == m
    ensures forall k :: 0 <= k < m ==> |run.positions[k]| == n
    ensures Flat(run.positions) == CounterValues(e1, capE, n * m)
    ensures e1 + n * m <= capE ==> forall i :: 0 <= i < n * m ==> Flat(run.positions)[i] == e1 + i
  {
    ChunksOfFlat(CounterValues(e1, capE, n * m), n);
    ChunksOfCount(CounterValues(e1, capE, n * m), n, m);
    if e1 + n * m <= capE {
      forall i | 0 <= i < n * m
        ensures CounterValues(e1, capE, n * m)[i] == e1 + i
      {
        AdvancedClosed(e1, capE, i);
      }
    }
  }
}
