/**
 * The general dilution protocol of GeneralDilution.py. The samples are first moved from their
 * origin labware into fresh DeepWell wells; each dilution step then takes every sample from
 * where the previous step left it. Intermediate steps fill the next DeepWell wells, the final
 * step fills the next positions of the chosen destination labware, and the positions the final
 * step used are returned. The protocol runs on the older tables with the sentinel counters.
 */
module GeneralDilution {
  import opened Wrappers
  import opened Catalog
  import opened Addressing
  import opened Allocation
  import opened Dilution

  /** `samples_initial_volume_transfer`: the µL first moved to the DeepWell wells. */
  const InitialVolume: real := 300.0

  /** The tables `sample_dilutions` reads: DeepWell is a named plate and the assay buffer has a name. */
  predicate GdTables(t: Tables)
  {
    t.PlatesNamed() && "DeepWell" in t.plates && "AssayBuffer" in t.names
  }

  lemma OldTablesServe()
    ensures GdTables(OldTables)
  {
    PlatesAreNamed();
    AssayBufferName();
  }

  /** Every counter dictionary of the protocol has one entry per key of the names table. */
  predicate Keyed(t: Tables, used: map<string, int>)
  {
    used.Keys == t.names.Keys
  }

  /** The labware step `i` of `m` dilutes into: DeepWell, or the destination on the final step. */
  function StepLabware(dest: string, m: nat, i: nat): string
  {
    if i + 1 == m then dest else "DeepWell"
  }

  /**
   * The counters at the start of dilution step `i` of `m`, for `n` samples and counters `u` at
   * the start of `sample_dilutions`: the initial transfer consumes `n` DeepWell positions and
   * every step `n` positions of its labware.
   */
  function UsedBefore(t: Tables, u: map<string, int>, dest: string, n: nat, m: nat, i: nat): map<string, int>
    decreases i
  {
    if i == 0 then SentinelCounted(t, u, "DeepWell", n)
    else SentinelCounted(t, UsedBefore(t, u, dest, n, m, i - 1), StepLabware(dest, m, i - 1), n)
  }

  lemma {:induction false} UsedBeforeKeys(t: Tables, u: map<string, int>, dest: string, n: nat, m: nat, i: nat)
    ensures UsedBefore(t, u, dest, n, m, i).Keys == u.Keys
    decreases i
  {
    if i == 0 {
      SentinelCountedValue(t, u, "DeepWell", n);
    } else {
      UsedBeforeKeys(t, u, dest, n, m, i - 1);
      SentinelCountedValue(t, UsedBefore(t, u, dest, n, m, i - 1), StepLabware(dest, m, i - 1), n);
    }
  }

  /** The initial transfer: sample `j` moves from entry `j` of the origin's positions to DeepWell well `used + 1 + j`. */
  function InitialRows(t: Tables, origin: string, n: nat, u: map<string, int>): (rows: seq<Transfer>)
    requires GdTables(t) && "DeepWell" in u
    ensures |rows| == n
  {
    seq(n, j requires 0 <= j < n =>
      Transfer(DestOf(t, origin, 1, j).0, DestOf(t, origin, 1, j).1, t.names["DeepWell"], u["DeepWell"] + 1 + j, InitialVolume))
  }

  /** Rows joining entry `j` of the origin's lists to entry `j` of the DeepWell lists are the initial transfer. */
  lemma InitialRowsFromLists(t: Tables, origin: string, n: nat, u: map<string, int>, rows: seq<Transfer>)
    requires GdTables(t) && "DeepWell" in u && |rows| == n
    requires forall j :: 0 <= j < n ==>
      rows[j] == Transfer(DilutionLabels(t, origin, 1, n)[j], DilutionWells(t, origin, 1, n)[j],
                          DilutionLabels(t, "DeepWell", u["DeepWell"] + 1, n)[j], DilutionWells(t, "DeepWell", u["DeepWell"] + 1, n)[j],
                          InitialVolume)
    ensures rows == InitialRows(t, origin, n, u)
  {
    forall j | 0 <= j < n
      ensures rows[j] == InitialRows(t, origin, n, u)[j]
    {
      DestOfLists(t, origin, 1, n, j);
    }
  }

  /** The initial transfer leaves the samples at the DeepWell lists it was given. */
  lemma InitialRowsLeave(t: Tables, origin: string, n: nat, u: map<string, int>)
    requires GdTables(t) && "DeepWell" in u
    ensures Leaves(InitialRows(t, origin, n, u), DilutionLabels(t, "DeepWell", u["DeepWell"] + 1, n),
                   DilutionWells(t, "DeepWell", u["DeepWell"] + 1, n), n)
  {
  }

  /** Sample `j` of a step goes to entry `j` of `dilution_position_def(lw, used[lw] + 1, _)`. */
  predicate Into(t: Tables, rows: seq<Transfer>, lw: string, u: map<string, int>, n: nat)
    requires t.PlatesNamed()
  {
    lw in u && |rows| >= n &&
    forall j :: 0 <= j < n ==> (rows[j].dest, rows[j].destWell) == DestOf(t, lw, u[lw] + 1, j)
  }

  /** Entry `j` of the lists is where sample `j` of the rows ended up. */
  predicate Leaves(rows: seq<Transfer>, labels: seq<string>, wells: seq<int>, n: nat)
  {
    |rows| >= n && |labels| >= n && |wells| >= n &&
    forall j :: 0 <= j < n ==> labels[j] == rows[j].dest && wells[j] == rows[j].destWell
  }

  /** The CSV rows of `sample_dilutions` and the positions it returns. */
  datatype Dilutions = Dilutions(init: seq<Transfer>, sampleRows: seq<seq<Transfer>>, bufferRows: seq<seq<Transfer>>, positions: seq<int>)

  /** Each of the first `i` steps has one sample and one buffer row per sample, with the step's volumes. */
  predicate AllStepRows(sampleRows: seq<seq<Transfer>>, bufferRows: seq<seq<Transfer>>, n: nat, steps: seq<DilutionStep>,
                        buffer: string, i: nat)
    requires i <= |steps|
  {
    && |sampleRows| == |bufferRows| == i
    && forall k :: 0 <= k < i ==> StepRows(sampleRows[k], bufferRows[k], n, steps[k], buffer)
  }

  /** Each of the `i` steps takes the samples from where the previous step, or the initial transfer, left them. */
  predicate Chain(init: seq<Transfer>, sampleRows: seq<seq<Transfer>>, n: nat, i: nat)
    requires |sampleRows| == i
  {
    && (i > 0 ==> Follows(init, sampleRows[0], n))
    && (forall k :: 0 < k < i ==> Follows(sampleRows[k - 1], sampleRows[k], n))
  }

  /** Each of the `i` steps fills the next positions of its labware. */
  predicate AllInto(t: Tables, sampleRows: seq<seq<Transfer>>, dest: string, n: nat, steps: seq<DilutionStep>, u: map<string, int>, i: nat)
    requires t.PlatesNamed() && |sampleRows| == i <= |steps|
  {
    forall k :: 0 <= k < i ==> Into(t, sampleRows[k], StepLabware(dest, |steps|, k), UsedBefore(t, u, dest, n, |steps|, k), n)
  }

  /** The first `i` dilution steps after the initial transfer `init`. */
  predicate StepsDone(t: Tables, init: seq<Transfer>, sampleRows: seq<seq<Transfer>>, bufferRows: seq<seq<Transfer>>,
                      dest: string, n: nat, steps: seq<DilutionStep>, u: map<string, int>, i: nat)
    requires GdTables(t) && i <= |steps|
  {
    && AllStepRows(sampleRows, bufferRows, n, steps, t.names["AssayBuffer"], i)
    && Chain(init, sampleRows, n, i)
    && AllInto(t, sampleRows, dest, n, steps, u, i)
  }

  /** One more step that starts where the last one ended and fills the next positions extends the steps done. */
  lemma StepsDoneNext(t: Tables, init: seq<Transfer>, sampleRows: seq<seq<Transfer>>, bufferRows: seq<seq<Transfer>>,
                      dest: string, n: nat, steps: seq<DilutionStep>, u: map<string, int>, i: nat,
                      rowsS: seq<Transfer>, rowsB: seq<Transfer>, labels: seq<string>, wells: seq<int>)
    requires GdTables(t) && i < |steps| && StepsDone(t, init, sampleRows, bufferRows, dest, n, steps, u, i)
    requires Leaves(if i == 0 then init else sampleRows[i - 1], labels, wells, n)
    requires StepRows(rowsS, rowsB, n, steps[i], t.names["AssayBuffer"]) && StartsFrom(rowsS, labels, wells, n)
    requires Into(t, rowsS, StepLabware(dest, |steps|, i), UsedBefore(t, u, dest, n, |steps|, i), n)
    ensures StepsDone(t, init, sampleRows + [rowsS], bufferRows + [rowsB], dest, n, steps, u, i + 1)
  {
    AllStepRowsNext(sampleRows, bufferRows, n, steps, t.names["AssayBuffer"], i, rowsS, rowsB);
    FollowsNext(if i == 0 then init else sampleRows[i - 1], rowsS, labels, wells, n);
    ChainNext(init, sampleRows, n, i, rowsS);
    AllIntoNext(t, sampleRows, dest, n, steps, u, i, rowsS);
  }

  lemma AllStepRowsNext(sampleRows: seq<seq<Transfer>>, bufferRows: seq<seq<Transfer>>, n: nat, steps: seq<DilutionStep>,
                        buffer: string, i: nat, rowsS: seq<Transfer>, rowsB: seq<Transfer>)
    requires i < |steps| && AllStepRows(sampleRows, bufferRows, n, steps, buffer, i)
    requires StepRows(rowsS, rowsB, n, steps[i], buffer)
    ensures AllStepRows(sampleRows + [rowsS], bufferRows + [rowsB], n, steps, buffer, i + 1)
  {
    var sr, br := sampleRows + [rowsS], bufferRows + [rowsB];
    forall k | 0 <= k <= i
      ensures StepRows(sr[k], br[k], n, steps[k], buffer)
    {
      if k < i {
        assert sr[k] == sampleRows[k] && br[k] == bufferRows[k];
      }
    }
  }

  lemma ChainNext(init: seq<Transfer>, sampleRows: seq<seq<Transfer>>, n: nat, i: nat, rowsS: seq<Transfer>)
    requires |sampleRows| == i && Chain(init, sampleRows, n, i)
    requires Follows(if i == 0 then init else sampleRows[i - 1], rowsS, n)
    ensures Chain(init, sampleRows + [rowsS], n, i + 1)
  {
    var sr := sampleRows + [rowsS];
    forall k | 0 < k <= i
      ensures Follows(sr[k - 1], sr[k], n)
    {
      if k < i {
        assert sr[k - 1] == sampleRows[k - 1] && sr[k] == sampleRows[k];
      } else {
        assert sr[k - 1] == sampleRows[i - 1];
      }
    }
    if i > 0 {
      assert sr[0] == sampleRows[0];
    }
  }

  lemma AllIntoNext(t: Tables, sampleRows: seq<seq<Transfer>>, dest: string, n: nat, steps: seq<DilutionStep>, u: map<string, int>,
                    i: nat, rowsS: seq<Transfer>)
    requires t.PlatesNamed() && |sampleRows| == i < |steps| && AllInto(t, sampleRows, dest, n, steps, u, i)
    requires Into(t, rowsS, StepLabware(dest, |steps|, i), UsedBefore(t, u, dest, n, |steps|, i), n)
    ensures AllInto(t, sampleRows + [rowsS], dest, n, steps, u, i + 1)
  {
    var sr := sampleRows + [rowsS];
    forall k | 0 <= k <= i
      ensures Into(t, sr[k], StepLabware(dest, |steps|, k), UsedBefore(t, u, dest, n, |steps|, k), n)
    {
      if k < i {
        assert sr[k] == sampleRows[k];
      }
    }
  }

  lemma FollowsNext(prev: seq<Transfer>, next: seq<Transfer>, labels: seq<string>, wells: seq<int>, n: nat)
    requires Leaves(prev, labels, wells, n) && StartsFrom(next, labels, wells, n)
    ensures Follows(prev, next, n)
  {
  }

  /**
   * The rows of a completed `sample_dilutions` from counters `u`: the initial transfer, all
   * dilution steps, and the counter values the final step recorded.
   */
  predicate DilutionRows(t: Tables, d: Dilutions, origin: string, dest: string, n: nat, steps: seq<DilutionStep>, u: map<string, int>)
    requires GdTables(t) && Keyed(t, u)
  {
    var m := |steps|;
    && d.init == InitialRows(t, origin, n, u)
    && StepsDone(t, d.init, d.sampleRows, d.bufferRows, dest, n, steps, u, m)
    && d.positions == if m > 0 && dest in u then Recorded(t, UsedBefore(t, u, dest, n, m, m - 1), dest, n) else []
  }

  /**
   * The outcome of `sample_dilutions` from counters `u`: reading the destination's counter for
   * the final step raises KeyError when the destination is no labware key, after the initial
   * transfer and the intermediate steps have consumed their positions; otherwise the rows above.
   */
  predicate Outcome(t: Tables, u: map<string, int>, origin: string, dest: string, n: nat, steps: seq<DilutionStep>,
                    r: Result<Dilutions>, after: map<string, int>)
    requires GdTables(t) && Keyed(t, u)
  {
    var m := |steps|;
    && (r.Err? <==> m > 0 && dest !in u)
    && (r.Err? ==> r.error == KeyError && after == UsedBefore(t, u, dest, n, m, m - 1))
    && (r.Ok? ==> after == UsedBefore(t, u, dest, n, m, m) && DilutionRows(t, r.value, origin, dest, n, steps, u))
  }

  // ---------------------------------------------------------------------------------------------
  // Counter bookkeeping
  // ---------------------------------------------------------------------------------------------

  /** Before any step but the last, only DeepWell positions have been consumed: `n` per earlier step and `n` for the initial transfer. */
  lemma {:induction false} IntermediateCounters(t: Tables, u: map<string, int>, dest: string, n: nat, m: nat, i: nat)
    requires i < m
    ensures UsedBefore(t, u, dest, n, m, i) == SentinelCounted(t, u, "DeepWell", n * (i + 1))
    decreases i
  {
    if i > 0 {
      IntermediateCounters(t, u, dest, n, m, i - 1);
      SentinelCountedAdd(t, u, "DeepWell", n * i, n);
      assert n * i + n == n * (i + 1);
    }
  }

  /**
   * While the DeepWell plate has room, step `i` before the last fills DeepWell wells
   * `used + n * (i + 1) + 1` onwards: after the `n` initial wells and the `n` wells of each earlier step.
   */
  lemma IntermediateWells(t: Tables, d: Dilutions, origin: string, dest: string, n: nat, steps: seq<DilutionStep>, u: map<string, int>, i: nat)
    requires GdTables(t) && Keyed(t, u) && DilutionRows(t, d, origin, dest, n, steps, u)
    requires "DeepWell" in t.capacity && u["DeepWell"] + n * |steps| <= t.capacity["DeepWell"]
    requires i + 1 < |steps|
    ensures IntoWells(d.sampleRows[i], t.names["DeepWell"], u["DeepWell"] + n * (i + 1) + 1, n)
  {
    var m := |steps|;
    IntermediateCounterValue(t, u, dest, n, m, i);
    var ub := UsedBefore(t, u, dest, n, m, i);
    assert StepLabware(dest, m, i) == "DeepWell";
    assert Into(t, d.sampleRows[i], "DeepWell", ub, n);
  }

  /** The DeepWell counter at the start of step `i` before the last, while the plate has room. */
  lemma IntermediateCounterValue(t: Tables, u: map<string, int>, dest: string, n: nat, m: nat, i: nat)
    requires Countable(t, u, "DeepWell") && u["DeepWell"] + n * m <= t.capacity["DeepWell"]
    requires i < m
    ensures "DeepWell" in UsedBefore(t, u, dest, n, m, i)
    ensures UsedBefore(t, u, dest, n, m, i)["DeepWell"] == u["DeepWell"] + n * (i + 1)
  {
    IntermediateCounters(t, u, dest, n, m, i);
    MulMonotone(n, 0, i + 1);
    MulMonotone(n, i + 1, m);
    SentinelCountedValue(t, u, "DeepWell", n * (i + 1));
  }

  /**
   * The final step starts after the counter the intermediate steps left: for a destination other
   * than DeepWell that is its counter at the start of `sample_dilutions`.
   */
  lemma FinalStartsAfterCount(t: Tables, u: map<string, int>, dest: string, n: nat, m: nat)
    requires m > 0 && dest in u && dest != "DeepWell"
    ensures dest in UsedBefore(t, u, dest, n, m, m - 1) && UsedBefore(t, u, dest, n, m, m - 1)[dest] == u[dest]
  {
    IntermediateCounters(t, u, dest, n, m, m - 1);
    SentinelCountedValue(t, u, "DeepWell", n * m);
  }

  /**
   * While the destination has room, the returned positions are the `n` positions after its
   * counter at the final step, and position `j` is exactly where sample `j` ended up.
   */
  lemma FinalPositions(t: Tables, d: Dilutions, origin: string, dest: string, n: nat, steps: seq<DilutionStep>, u: map<string, int>)
    requires GdTables(t) && Keyed(t, u) && DilutionRows(t, d, origin, dest, n, steps, u)
    requires |steps| > 0 && dest in u
    requires Countable(t, UsedBefore(t, u, dest, n, |steps|, |steps| - 1), dest)
    requires UsedBefore(t, u, dest, n, |steps|, |steps| - 1)[dest] + n <= t.capacity[dest]
    ensures |d.positions| == n
    ensures forall j :: 0 <= j < n ==> d.positions[j] == UsedBefore(t, u, dest, n, |steps|, |steps| - 1)[dest] + 1 + j
    ensures forall j :: 0 <= j < n ==>
      (d.sampleRows[|steps| - 1][j].dest, d.sampleRows[|steps| - 1][j].destWell) == DestOf(t, dest, d.positions[j], 0)
  {
    var m := |steps|;
    var ub := UsedBefore(t, u, dest, n, m, m - 1);
    RecordedClimb(t, ub, dest, n);
    LastStepInto(t, d, origin, dest, n, steps, u);
    IntoPositions(t, d.sampleRows[m - 1], dest, ub, d.positions, n);
  }

  /** Rows filling the positions after a counter sit at the positions that counter then gives out. */
  lemma IntoPositions(t: Tables, rows: seq<Transfer>, lw: string, u: map<string, int>, positions: seq<int>, n: nat)
    requires t.PlatesNamed() && Into(t, rows, lw, u, n) && |positions| == n
    requires forall j :: 0 <= j < n ==> positions[j] == u[lw] + 1 + j
    ensures forall j :: 0 <= j < n ==> (rows[j].dest, rows[j].destWell) == DestOf(t, lw, positions[j], 0)
  {
  }

  // ---------------------------------------------------------------------------------------------
  // Counting the samples' own positions
  // ---------------------------------------------------------------------------------------------

  /**
   * Samples taken from a rack whose display name is its own key, such as the Eppendorf tubes,
   * are diluted into fresh positions: with that rack as origin and destination and room for
   * both sets, the final step fills positions none of the samples came from.
   */
  lemma RackOriginNotReused(t: Tables, u: map<string, int>, rack: string, d: Dilutions, n: nat, steps: seq<DilutionStep>)
    requires GdTables(t) && Keyed(t, u) && rack != "DeepWell" && rack !in t.plates
    requires rack in t.names && t.names[rack] == rack && Countable(t, u, rack)
    requires 0 <= u[rack] && u[rack] + n + n <= t.capacity[rack]
    requires |steps| > 0 && DilutionRows(t, d, rack, rack, n, steps, StartCountAsWritten(t, u, rack, n))
    ensures NoneFrom(d.sampleRows[|steps| - 1], d.init, n)
  {
    var m := |steps|;
    var uc := StartCountAsWritten(t, u, rack, n);
    SentinelCountedValue(t, u, rack, n);
    FinalStartsAfterCount(t, uc, rack, n, m);
    LastStepInto(t, d, rack, rack, n, steps, uc);
    RackIntoApart(t, rack, d.sampleRows[m - 1], d.init, UsedBefore(t, uc, rack, n, m, m - 1), uc, n);
  }

  /** Rows into a rack past its first `n` positions leave the initial transfer's sources alone. */
  lemma RackIntoApart(t: Tables, rack: string, rows: seq<Transfer>, init: seq<Transfer>, ub: map<string, int>, u: map<string, int>, n: nat)
    requires GdTables(t) && "DeepWell" in u && rack !in t.plates
    requires Into(t, rows, rack, ub, n) && ub[rack] >= n && init == InitialRows(t, rack, n, u)
    ensures NoneFrom(rows, init, n)
  {
    InitialSources(t, rack, n, u);
    RackPositionsApart(rack, rows, init, ub[rack] + 1, n);
  }

  /** The rows of the last step fill the destination's positions after those the earlier steps left it at. */
  lemma LastStepInto(t: Tables, d: Dilutions, origin: string, dest: string, n: nat, steps: seq<DilutionStep>, u: map<string, int>)
    requires GdTables(t) && Keyed(t, u) && |steps| > 0 && DilutionRows(t, d, origin, dest, n, steps, u)
    ensures Into(t, d.sampleRows[|steps| - 1], dest, UsedBefore(t, u, dest, n, |steps|, |steps| - 1), n)
  {
    var m := |steps|;
    assert StepLabware(dest, m, m - 1) == dest;
  }

  /** The initial transfer out of a rack takes sample `k` from rack position `k + 1`. */
  lemma InitialSources(t: Tables, rack: string, n: nat, u: map<string, int>)
    requires GdTables(t) && "DeepWell" in u && rack !in t.plates
    ensures forall k :: 0 <= k < n ==> InitialRows(t, rack, n, u)[k].source == Pos2Str(rack, 1 + k)
  {
  }

  /** Rows into positions from `base` on, past the `n` source positions, leave every source position alone. */
  lemma RackPositionsApart(rack: string, rows: seq<Transfer>, sources: seq<Transfer>, base: int, n: nat)
    requires |rows| >= n && |sources| >= n && base > n
    requires forall j :: 0 <= j < n ==> rows[j].dest == Pos2Str(rack, base + j)
    requires forall k :: 0 <= k < n ==> sources[k].source == Pos2Str(rack, 1 + k)
    ensures NoneFrom(rows, sources, n)
  {
    forall j, k | 0 <= j < n && 0 <= k < n
      ensures rows[j].dest != sources[k].source
    {
      var p, q := base + j, 1 + k;
      assert p != q;
      assert rows[j].dest == Pos2Str(rack, p) && sources[k].source == Pos2Str(rack, q);
      Pos2StrInjective(rack, p, q);
    }
  }

  /** No row of `rows` goes to a container any of the first `n` rows of `sources` was taken from. */
  predicate NoneFrom(rows: seq<Transfer>, sources: seq<Transfer>, n: nat)
    requires |rows| >= n && |sources| >= n
  {
    forall j, k :: 0 <= j < n && 0 <= k < n ==> rows[j].dest != sources[k].source
  }

  /** The Eppendorf tubes of the older tables are such a rack. */
  lemma EppendorfIsRack()
    ensures "Eppendorf" !in OldTables.plates && "Eppendorf" in OldNames && OldNames["Eppendorf"] == "Eppendorf"
    ensures "Eppendorf" in OldCapacity && OldCapacity["Eppendorf"] == 48
  {
  }

  /**
   * As written, samples taken from DeepWell wells are not counted, because the DeepWell display
   * name is no key: after a reset the initial transfer moves every sample onto its own well.
   */
  lemma DeepWellOriginCopiedOntoItself(n: nat)
    requires n >= 1
    ensures var u := StartCountAsWritten(OldTables, Zeros(OldNames.Keys), "DeepWell", n);
      "DeepWell" in u &&
      forall j :: 0 <= j < n ==>
        InitialRows(OldTables, "DeepWell", n, u)[j].dest == InitialRows(OldTables, "DeepWell", n, u)[j].source &&
        InitialRows(OldTables, "DeepWell", n, u)[j].destWell == InitialRows(OldTables, "DeepWell", n, u)[j].sourceWell
  {
    OldTablesServe();
    DisplayNames();
    DisplayNameNotCounted(OldTables, Zeros(OldNames.Keys), "DeepWell", n);
  }

  /**
   * The 2R and 8R vial holders the menus offer as origin and destination are not counted either:
   * with the same holder as both, the final step refills the vials the samples were taken from,
   * sample `j` into its own vial.
   */
  lemma VialOriginRefilled(lw: string, d: Dilutions, n: nat, steps: seq<DilutionStep>)
    requires lw == "2R Vial" || lw == "8R Vial"
    requires |steps| > 0 && Keyed(OldTables, Zeros(OldNames.Keys))
    requires GdTables(OldTables) && DilutionRows(OldTables, d, lw, lw, n, steps, StartCountAsWritten(OldTables, Zeros(OldNames.Keys), lw, n))
    ensures forall j :: 0 <= j < n ==>
      d.sampleRows[|steps| - 1][j].dest == d.init[j].source && d.sampleRows[|steps| - 1][j].destWell == d.init[j].sourceWell
  {
    var m := |steps|;
    var u0 := Zeros(OldNames.Keys);
    OldVialNamesNoKey();
    DisplayNameNotCounted(OldTables, u0, lw, n);
    var uc := StartCountAsWritten(OldTables, u0, lw, n);
    assert uc == u0;
    FinalStartsAfterCount(OldTables, uc, lw, n, m);
    LastStepInto(OldTables, d, lw, lw, n, steps, uc);
    IntoOwnSources(OldTables, d.init, d.sampleRows[m - 1], lw, UsedBefore(OldTables, uc, lw, n, m, m - 1), uc, n);
  }

  /** Rows into a labware whose counter is still 0 go back to the positions the initial transfer took from it. */
  lemma IntoOwnSources(t: Tables, init: seq<Transfer>, rows: seq<Transfer>, lw: string, ub: map<string, int>,
                       u: map<string, int>, n: nat)
    requires GdTables(t) && "DeepWell" in u && init == InitialRows(t, lw, n, u)
    requires Into(t, rows, lw, ub, n) && ub[lw] == 0
    ensures forall j :: 0 <= j < n ==> rows[j].dest == init[j].source && rows[j].destWell == init[j].sourceWell
  {
  }

  /**
   * Counting the origin labware itself, as intended, sends the initial transfer from DeepWell
   * wells to wells after the samples' own: no destination well is a source well.
   */
  lemma DeepWellOriginIntended(n: nat)
    requires n <= 96
    ensures var u := StartCountIntended(OldTables, Zeros(OldNames.Keys), "DeepWell", n);
      "DeepWell" in u &&
      forall j, k :: 0 <= j < n && 0 <= k < n ==>
        InitialRows(OldTables, "DeepWell", n, u)[j].destWell != InitialRows(OldTables, "DeepWell", n, u)[k].sourceWell
  {
    OldTablesServe();
    SentinelCountedValue(OldTables, Zeros(OldNames.Keys), "DeepWell", n);
  }

  /**
   * The rows of one dilution step, built entry by entry from the source lists and the lists of
   * `dilution_position_def`, pair each sample with its buffer row, start where the source lists
   * say and end where the destination lists say, at the `lw` positions after `u[lw]`.
   */
  lemma StepShape(t: Tables, labSource: seq<string>, sourceWell: seq<int>, lw: string, u: map<string, int>, n: nat, count: int,
                  step: DilutionStep, rowsS: seq<Transfer>, rowsB: seq<Transfer>, destLabels: seq<string>, destWells: seq<int>)
    requires GdTables(t) && lw in u && |labSource| >= n && |sourceWell| >= n && count >= n
    requires destLabels == DilutionLabels(t, lw, u[lw] + 1, count) && destWells == DilutionWells(t, lw, u[lw] + 1, count)
    requires |rowsS| == |rowsB| == n
    requires forall j :: 0 <= j < n ==>
      && rowsS[j] == Transfer(labSource[j], sourceWell[j], destLabels[j], destWells[j], step.sampleVolume)
      && rowsB[j] == Transfer(t.names["AssayBuffer"], 1, destLabels[j], destWells[j], step.bufferVolume)
    ensures StepRows(rowsS, rowsB, n, step, t.names["AssayBuffer"])
    ensures StartsFrom(rowsS, labSource, sourceWell, n)
    ensures Leaves(rowsS, destLabels, destWells, n)
    ensures Into(t, rowsS, lw, u, n)
  {
    forall j | 0 <= j < n
      ensures (rowsS[j].dest, rowsS[j].destWell) == DestOf(t, lw, u[lw] + 1, j)
    {
      DestOfLists(t, lw, u[lw] + 1, count, j);
    }
  }

  // ---------------------------------------------------------------------------------------------
  // The protocol object
  // ---------------------------------------------------------------------------------------------

  /** `GeneralDilution`: its sentinel counters over the older tables and the returned positions. */
  class GeneralDilutionMethod {
    const counters: SentinelCounters
    var sampleDestPositions: seq<int>

    constructor ()
      ensures fresh(counters) && counters.tables == OldTables && counters.used == Zeros(OldNames.Keys)
      ensures sampleDestPositions == []
    {
      counters := new SentinelCounters(OldTables);
      sampleDestPositions := [];
    }

    /** The reset of `set_all_parameters`. */
    method SetAllParameters()
      modifies counters
      ensures counters.used == Zeros(old(counters.used).Keys)
    {
      counters.Reset();
    }

    /** The initial transfer of `sample_dilutions`: one row per sample, one DeepWell position each. */
    method InitialTransfer(origin: string, n: nat) returns (rows: seq<Transfer>, labels: seq<string>, wells: seq<int>)
      requires GdTables(counters.tables) && "DeepWell" in counters.used
      modifies counters
      ensures rows == InitialRows(counters.tables, origin, n, old(counters.used))
      ensures labels == DilutionLabels(counters.tables, "DeepWell", old(counters.used)["DeepWell"] + 1, n)
      ensures wells == DilutionWells(counters.tables, "DeepWell", old(counters.used)["DeepWell"] + 1, n)
      ensures counters.used == SentinelCounted(counters.tables, old(counters.used), "DeepWell", n)
      ensures Leaves(rows, labels, wells, n)
    {
      var t := counters.tables;
      ghost var u0 := counters.used;
      var srcLabels, srcWells := DilutionPositionDef(t, origin, 1, n);
      labels, wells := DilutionPositionDef(t, "DeepWell", counters.used["DeepWell"] + 1, n);
      rows := CopyToWells(srcLabels, srcWells, labels, wells, n);
      InitialRowsFromLists(t, origin, n, u0, rows);
      InitialRowsLeave(t, origin, n, u0);
    }

    /** The loop of the initial transfer: one row per sample, and one DeepWell position consumed each. */
    method CopyToWells(srcLabels: seq<string>, srcWells: seq<int>, labels: seq<string>, wells: seq<int>, n: nat) returns (rows: seq<Transfer>)
      requires |srcLabels| >= n && |srcWells| >= n && |labels| >= n && |wells| >= n
      modifies counters
      ensures |rows| == n
      ensures forall k :: 0 <= k < n ==> rows[k] == Transfer(srcLabels[k], srcWells[k], labels[k], wells[k], InitialVolume)
      ensures counters.used == SentinelCounted(counters.tables, old(counters.used), "DeepWell", n)
    {
      var t := counters.tables;
      ghost var u0 := counters.used;
      rows := [];
      for j := 0 to n
        invariant |rows| == j
        invariant forall k :: 0 <= k < j ==> rows[k] == Transfer(srcLabels[k], srcWells[k], labels[k], wells[k], InitialVolume)
        invariant SentinelCounted(t, u0, "DeepWell", n) == SentinelCounted(t, counters.used, "DeepWell", n - j)
      {
        rows := rows + [Transfer(srcLabels[j], srcWells[j], labels[j], wells[j], InitialVolume)];
        var _ := counters.NextLabwarePos("DeepWell");
      }
    }

    /**
     * One dilution step (the inner loop of `sample_dilutions`): sample `j` goes from entry `j`
     * of the source lists to entry `j` of `dilution_position_def(lw, used[lw] + 1, count)` with
     * a buffer row beside it, and each sample consumes one position of `lw`; on the final step
     * the counter's value after each call is recorded.
     */
    method Step(labSource: seq<string>, sourceWell: seq<int>, lw: string, n: nat, count: int, step: DilutionStep, final: bool)
      returns (rowsS: seq<Transfer>, rowsB: seq<Transfer>, recorded: seq<int>, destLabels: seq<string>, destWells: seq<int>)
      requires GdTables(counters.tables) && lw in counters.used
      requires |labSource| >= n && |sourceWell| >= n && count >= n
      modifies counters
      ensures destLabels == DilutionLabels(counters.tables, lw, old(counters.used)[lw] + 1, count)
      ensures destWells == DilutionWells(counters.tables, lw, old(counters.used)[lw] + 1, count)
      ensures |rowsS| == |rowsB| == n
      ensures forall j :: 0 <= j < n ==>
        && rowsS[j] == Transfer(labSource[j], sourceWell[j], destLabels[j], destWells[j], step.sampleVolume)
        && rowsB[j] == Transfer(counters.tables.names["AssayBuffer"], 1, destLabels[j], destWells[j], step.bufferVolume)
      ensures recorded == if final then Recorded(counters.tables, old(counters.used), lw, n) else []
      ensures counters.used == SentinelCounted(counters.tables, old(counters.used), lw, n)
      ensures StepRows(rowsS, rowsB, n, step, counters.tables.names["AssayBuffer"])
      ensures StartsFrom(rowsS, labSource, sourceWell, n)
      ensures Leaves(rowsS, destLabels, destWells, n)
      ensures Into(counters.tables, rowsS, lw, old(counters.used), n)
    {
      var t := counters.tables;
      ghost var u0 := counters.used;
      destLabels, destWells := DilutionPositionDef(t, lw, counters.used[lw] + 1, count);
      var buffer := t.names["AssayBuffer"];
      rowsS, rowsB, recorded := [], [], [];
      for j := 0 to n
        invariant |rowsS| == |rowsB| == j
        invariant forall k :: 0 <= k < j ==>
          && rowsS[k] == Transfer(labSource[k], sourceWell[k], destLabels[k], destWells[k], step.sampleVolume)
          && rowsB[k] == Transfer(buffer, 1, destLabels[k], destWells[k], step.bufferVolume)
        invariant lw in counters.used
        invariant SentinelCounted(t, u0, lw, n) == SentinelCounted(t, counters.used, lw, n - j)
        invariant final ==> recorded + Recorded(t, counters.used, lw, n - j) == Recorded(t, u0, lw, n)
        invariant !final ==> recorded == []
      {
        rowsS := rowsS + [Transfer(labSource[j], sourceWell[j], destLabels[j], destWells[j], step.sampleVolume)];
        rowsB := rowsB + [Transfer(buffer, 1, destLabels[j], destWells[j], step.bufferVolume)];
        ghost var before := counters.used;
        var _ := counters.NextLabwarePos(lw);
        if final {
          assert Recorded(t, before, lw, n - j) == [counters.used[lw]] + Recorded(t, counters.used, lw, n - j - 1);
          recorded := recorded + [counters.used[lw]];
        }
      }
      StepShape(t, labSource, sourceWell, lw, u0, n, count, step, rowsS, rowsB, destLabels, destWells);
    }

    /**
     * Dilution step `i` of `sample_dilutions`, its destination's counter known to exist: the
     * step's rows extend the steps done, the counters move on to the next step's, and the
     * samples' new places become the next step's sources.
     */
    method DilutionStepAt(ghost u0: map<string, int>, init: seq<Transfer>, sampleRows: seq<seq<Transfer>>, bufferRows: seq<seq<Transfer>>,
                          labSource: seq<string>, sourceWell: seq<int>, dest: string, n: nat, steps: seq<DilutionStep>, i: nat)
      returns (sampleRows': seq<seq<Transfer>>, bufferRows': seq<seq<Transfer>>, recorded: seq<int>, labSource': seq<string>, sourceWell': seq<int>)
      requires GdTables(counters.tables) && Keyed(counters.tables, u0) && i < |steps|
      requires StepsDone(counters.tables, init, sampleRows, bufferRows, dest, n, steps, u0, i)
      requires counters.used == UsedBefore(counters.tables, u0, dest, n, |steps|, i)
      requires Leaves(if i == 0 then init else sampleRows[i - 1], labSource, sourceWell, n)
      requires i + 1 == |steps| ==> dest in u0
      modifies counters
      ensures StepsDone(counters.tables, init, sampleRows', bufferRows', dest, n, steps, u0, i + 1)
      ensures counters.used == UsedBefore(counters.tables, u0, dest, n, |steps|, i + 1)
      ensures Leaves(sampleRows'[i], labSource', sourceWell', n)
      ensures recorded == if i + 1 == |steps| then Recorded(counters.tables, UsedBefore(counters.tables, u0, dest, n, |steps|, i), dest, n) else []
    {
      var t := counters.tables;
      var m := |steps|;
      var final := i + 1 == m;
      UsedBeforeKeys(t, u0, dest, n, m, i);
      var lw := if final then dest else "DeepWell";
      MulMonotone(n, 1, i + 1);
      var rowsS, rowsB;
      rowsS, rowsB, recorded, labSource', sourceWell' := Step(labSource, sourceWell, lw, n, n * (i + 1) + 1, steps[i], final);
      StepsDoneNext(t, init, sampleRows, bufferRows, dest, n, steps, u0, i, rowsS, rowsB, labSource, sourceWell);
      sampleRows', bufferRows' := sampleRows + [rowsS], bufferRows + [rowsB];
      assert sampleRows'[i] == rowsS;
    }

    /**
     * `sample_dilutions` for `n` samples from `origin` through the dilution `steps` into `dest`.
     * The CSV files it writes hold the returned rows.
     */
    method SampleDilutions(origin: string, dest: string, n: nat, steps: seq<DilutionStep>) returns (r: Result<Dilutions>)
      requires GdTables(counters.tables) && Keyed(counters.tables, counters.used)
      modifies counters
      ensures Outcome(counters.tables, old(counters.used), origin, dest, n, steps, r, counters.used)
    {
      var t := counters.tables;
      ghost var u0 := counters.used;
      var m := |steps|;
      var init, labSource, sourceWell := InitialTransfer(origin, n);
      var sampleRows: seq<seq<Transfer>>, bufferRows: seq<seq<Transfer>>, positions: seq<int> := [], [], [];
      for i := 0 to m
        invariant StepsDone(t, init, sampleRows, bufferRows, dest, n, steps, u0, i)
        invariant counters.used == UsedBefore(t, u0, dest, n, m, i)
        invariant Leaves(if i == 0 then init else sampleRows[i - 1], labSource, sourceWell, n)
        invariant i < m || m == 0 ==> positions == []
        invariant i == m > 0 ==> dest in u0
        invariant i == m > 0 ==> positions == Recorded(t, UsedBefore(t, u0, dest, n, m, m - 1), dest, n)
      {
        UsedBeforeKeys(t, u0, dest, n, m, i);
        if i + 1 == m && dest !in counters.used {
          r := Err(KeyError);
          return;
        }
        var recorded;
        sampleRows, bufferRows, recorded, labSource, sourceWell := DilutionStepAt(u0, init, sampleRows, bufferRows, labSource, sourceWell, dest, n, steps, i);
        positions := positions + recorded;
      }
      r := Ok(Dilutions(init, sampleRows, bufferRows, positions));
    }

    /**
     * `general_dilution`: count the samples' own positions, then run the dilutions and keep the
     * returned positions. A negative sample count behaves as zero samples.
     */
    method Run(origin: string, dest: string, n: int, steps: seq<DilutionStep>) returns (r: Result<Dilutions>)
      requires GdTables(counters.tables) && Keyed(counters.tables, counters.used)
      modifies this, counters
      ensures var u := StartCountAsWritten(counters.tables, old(counters.used), origin, n);
        && Keyed(counters.tables, u)
        && Outcome(counters.tables, u, origin, dest, Times(n), steps, r, counters.used)
      ensures r.Ok? ==> sampleDestPositions == r.value.positions
      ensures r.Err? ==> sampleDestPositions == old(sampleDestPositions)
    {
      if origin in counters.tables.names {
        SentinelCountedValue(counters.tables, counters.used, counters.tables.names[origin], Times(n));
      }
      counters.CountStartingLwPos(origin, n);
      r := SampleDilutions(origin, dest, Times(n), steps);
      if r.Ok? {
        sampleDestPositions := r.value.positions;
      }
    }
  }
}
