/**
 * `ColorProjectDilutionsMethod` of helper/ColorProjectDilutions.py: a series of cuvettes, each
 * holding a falling volume of a coloured solution and a rising volume of diluent, every sample
 * repeated `n_replicates` times. Two GWL files receive one reagent distribution per sample; the
 * cuvettes fill "UV Cuvette holder" and then "UV Cuvette holder 2".
 *
 * The GWL lines themselves are `Gwl.ReagentDistributionCommand`; here a line is the `Dispense`
 * record of its arguments (the source positions are always 1..1). File writes are left out.
 */
module ColorProject {
  import opened Wrappers
  import opened Catalog
  import opened Allocation
  import Dilution

  const Holder1 := "UV Cuvette holder"
  const Holder2 := "UV Cuvette holder 2"
  /** The hard-coded number of cuvette places per holder in the switch test. */
  const HolderSlots := 40
  /** `lw_origin_tiny_vol`: volumes under 10 µL are drawn from here so the 10 µL tips reach the bottom. */
  const TinyOrigin := "DeepWell"
  /** `diluent_lw_origin`. */
  const DiluentOrigin := "100ml_1"

  /** The two cuvette holders `lw_dest` can name. */
  datatype Holder = First | Second
  {
    function Name(): string { if First? then Holder1 else Holder2 }
  }

  /** The GWL file open mode: "w" starts a clean file, "a" appends. */
  datatype OpenMode = Write | Append

  /** The tables the protocol needs: both holders with 40 places, and the DeepWell's display name. */
  predicate ColorTables(t: Tables)
  {
    && Holder1 in t.names && Holder2 in t.names && TinyOrigin in t.names
    && Holder1 in t.capacity && Holder2 in t.capacity
    && t.capacity[Holder1] == HolderSlots && t.capacity[Holder2] == HolderSlots
  }

  // ---------------------------------------------------------------------------------------------
  // generate_volume_sequences
  // ---------------------------------------------------------------------------------------------

  /** Python's `round(a / 2)` for an integer `a`: halves round to the even neighbour. */
  function RoundHalf(a: int): (h: int)
    ensures -1 <= 2 * h - a <= 1
    ensures 2 * h != a ==> h % 2 == 0
  {
    var q := a / 2;
    if a % 2 == 0 || q % 2 == 0 then q else q + 1
  }

  /** Diluent volume `i`: above 1000 µL the diluent is dispensed twice, so each half is listed. */
  function DiluentVolume(start: int, diff: int, i: int): int
  {
    if start > 1000 then RoundHalf(start) + i * RoundHalf(diff) else start + i * diff
  }

  function SampleVolumes(start: int, n: int, diff: int): (vs: seq<int>)
    ensures |vs| == Times(n)
  {
    seq(Times(n), i => start - i * diff)
  }

  function DiluentVolumes(start: int, n: int, diff: int): (vs: seq<int>)
    ensures |vs| == Times(n)
  {
    seq(Times(n), i => DiluentVolume(start, diff, i))
  }

  predicate AllNonNegative(vs: seq<int>)
  {
    forall i :: 0 <= i < |vs| ==> vs[i] >= 0
  }

  /** `generate_volume_sequences`: both lists, or the AssertionError of its final checks. */
  function VolumeSequences(sampleStart: int, diluentStart: int, n: int, diff: int): Result<(seq<int>, seq<int>)>
  {
    var s, d := SampleVolumes(sampleStart, n, diff), DiluentVolumes(diluentStart, n, diff);
    if AllNonNegative(s) && AllNonNegative(d) then Ok((s, d)) else Err(AssertionError)
  }

  /**
   * With a non-negative step the sample volumes fall and the diluent volumes rise, so the
   * assertions fail exactly when the last sample volume or the first diluent volume is negative.
   */
  lemma VolumeSequencesOk(sampleStart: int, diluentStart: int, n: int, diff: int)
    requires diff >= 0 && n >= 1
    ensures VolumeSequences(sampleStart, diluentStart, n, diff).Ok?
      <==> sampleStart - (n - 1) * diff >= 0 && diluentStart >= 0
  {
    SampleVolumesFloor(sampleStart, n, diff);
    DiluentVolumesFloor(diluentStart, n, diff);
  }

  /** With a non-negative step the sample volumes fall, so the last one decides. */
  lemma SampleVolumesFloor(start: int, n: int, diff: int)
    requires diff >= 0 && n >= 1
    ensures AllNonNegative(SampleVolumes(start, n, diff)) <==> start - (n - 1) * diff >= 0
  {
    var s := SampleVolumes(start, n, diff);
    assert s[n - 1] == start - (n - 1) * diff;
    if start - (n - 1) * diff >= 0 {
      forall i | 0 <= i < n
        ensures s[i] >= 0
      {
        Dilution.MulMonotone(diff, i, n - 1);
      }
    }
  }

  /** With a non-negative step the diluent volumes rise, so the first one decides. */
  lemma DiluentVolumesFloor(start: int, n: int, diff: int)
    requires diff >= 0 && n >= 1
    ensures AllNonNegative(DiluentVolumes(start, n, diff)) <==> start >= 0
  {
    var d := DiluentVolumes(start, n, diff);
    assert d[0] == DiluentVolume(start, diff, 0);
    if start >= 0 {
      forall i | 0 <= i < n
        ensures d[i] >= 0
      {
        if start > 1000 {
          assert RoundHalf(diff) >= 0;
          assert i * RoundHalf(diff) >= 0;
        } else {
          assert i * diff >= 0;
        }
      }
    }
  }


  /**
   * Every cuvette holds the same total: sample plus diluent up to 1000 µL of diluent, and sample
   * plus the twice-dispensed half above it, when the starting diluent volume and the step are even.
   */
  lemma VolumesKeepTotal(sampleStart: int, diluentStart: int, n: int, diff: int, i: int)
    requires 0 <= i < Times(n)
    requires diluentStart > 1000 ==> diluentStart % 2 == 0 && diff % 2 == 0
    ensures var s, d := SampleVolumes(sampleStart, n, diff), DiluentVolumes(diluentStart, n, diff);
      if diluentStart > 1000 then s[i] + 2 * d[i] == sampleStart + diluentStart
      else s[i] + d[i] == sampleStart + diluentStart
  {
    if diluentStart > 1000 {
      assert 2 * RoundHalf(diluentStart) == diluentStart;
      assert 2 * RoundHalf(diff) == diff;
      assert 2 * (i * RoundHalf(diff)) == i * diff;
    }
  }

  /** With the defaults (50 µL of sample, 1950 µL of diluent, step 2) at most 26 samples pass the checks. */
  lemma DefaultVolumesAllowSamples(n: int)
    requires n >= 1
    ensures VolumeSequences(50, 1950, n, 2).Ok? <==> n <= 26
  {
    VolumeSequencesOk(50, 1950, n, 2);
  }

  // ---------------------------------------------------------------------------------------------
  // generate_GWL_files
  // ---------------------------------------------------------------------------------------------

  datatype GwlFile = SampleFile | DiluentFile

  /** One `generate_reagent_distribution_gwl` call: file, open mode, labware, destination places, µL. */
  datatype Dispense = Dispense(file: GwlFile, openMode: OpenMode, source: string, dest: string,
                               destStart: int, destEnd: int, volume: int)

  /** The lines written so far, the counters, the destination holder and the exception raised, if any. */
  datatype Written = Written(rows: seq<Dispense>, used: map<string, int>, dest: Holder, error: Option<PyError>)

  /** Both holders have a counter. */
  predicate HolderState(w: Written)
  {
    Holder1 in w.used && Holder2 in w.used
  }

  /** `sum(x for x in sample_volumes if x < 10)`. */
  function TinySum(vs: seq<int>): int
  {
    if vs == [] then 0 else TinySum(vs[..|vs| - 1]) + (if vs[|vs| - 1] < 10 then vs[|vs| - 1] else 0)
  }

  /** Over non-negative volumes the pre-transfer happens exactly when some volume lies in 1..9 µL. */
  lemma {:induction false} TinySumPositive(vs: seq<int>)
    requires AllNonNegative(vs)
    ensures TinySum(vs) >= 0
    ensures TinySum(vs) > 0 <==> exists j :: 0 <= j < |vs| && 0 < vs[j] < 10
  {
    if vs != [] {
      var init := vs[..|vs| - 1];
      assert forall j :: 0 <= j < |init| ==> init[j] == vs[j];
      TinySumPositive(init);
      if exists j :: 0 <= j < |init| && 0 < init[j] < 10 {
        var j :| 0 <= j < |init| && 0 < init[j] < 10;
        assert 0 < vs[j] < 10;
      }
    }
  }

  /** The DeepWell pre-transfer of the tiny volumes, with 50 µL of dead volume, capped at 1800 µL. */
  function PreTransfer(t: Tables, sv: seq<int>, nrep: int, origin: string): seq<Dispense>
    requires ColorTables(t)
  {
    var tiny := TinySum(sv);
    if tiny > 0 then [Dispense(SampleFile, Write, origin, t.names[TinyOrigin], 1, 1, Min(tiny * nrep + 50, 1800))] else []
  }

  /** The first call for the destination, so that places start at 1, then the pre-transfer. */
  function Begin(t: Tables, used: map<string, int>, dest: Holder, sv: seq<int>, nrep: int, origin: string): (w: Written)
    requires ColorTables(t) && HolderState(Written([], used, dest, None))
    ensures HolderState(w)
  {
    var (r, u1) := RaisingStep(t, used, dest.Name());
    if r.Err? then Written([], u1, dest, Some(r.error)) else Written(PreTransfer(t, sv, nrep, origin), u1, dest, None)
  }

  /** `n` raising calls leave the counters' keys alone. */
  lemma {:induction false} RaisingCountedKeys(t: Tables, u: map<string, int>, name: string, n: nat)
    ensures RaisingCounted(t, u, name, n).1.Keys == u.Keys
    decreases n
  {
    if n > 0 {
      var (r, next) := RaisingStep(t, u, name);
      if r.Ok? {
        RaisingCountedKeys(t, next, name, n - 1);
      }
    }
  }

  /**
   * The solution and diluent lines of sample `i` (from 1), over the replicate block that starts
   * at the destination's counter; the first sample opens the files unless a pre-transfer did.
   */
  function SampleLines(t: Tables, w: Written, sv: seq<int>, dv: seq<int>, nrep: int, origin: string,
                       hasTiny: bool, i: int): seq<Dispense>
    requires ColorTables(t) && HolderState(w) && 1 <= i <= |sv| && i <= |dv|
  {
    var mode := if i == 1 && !hasTiny then Write else Append;
    var start := w.used[w.dest.Name()];
    var end := start + nrep - 1;
    var lw := t.names[w.dest.Name()];
    [Dispense(SampleFile, mode, if sv[i - 1] < 10 then t.names[TinyOrigin] else origin, lw, start, end, sv[i - 1]),
     Dispense(DiluentFile, mode, DiluentOrigin, lw, start, end, dv[i - 1])]
  }

  /**
   * The bookkeeping after a sample's lines: the `n_replicates` calls that account for its block
   * and the switch to the second holder once the next block would end past place 40.
   * As written (`countFirst`), the block is counted before the switch test; the corrected order
   * tests first and counts the block only when the holder carries on.
   */
  function Account(t: Tables, w: Written, nrep: int, countFirst: bool): (r: Written)
    requires ColorTables(t) && HolderState(w)
    ensures HolderState(r) && r.rows == w.rows
  {
    var end := w.used[w.dest.Name()] + nrep - 1;
    var full := end + nrep > HolderSlots;
    RaisingCountedKeys(t, w.used, w.dest.Name(), Times(nrep));
    var (err, u1) := if countFirst || !full then RaisingCounted(t, w.used, w.dest.Name(), Times(nrep)) else (None, w.used);
    if err.Some? then w.(used := u1, error := err)
    else if !full then w.(used := u1, error := None)
    else if w.dest == Second then w.(used := u1, error := Some(ValueError))
    else
      var (r2, u2) := RaisingStep(t, u1, Holder2);
      w.(used := u2, dest := Second, error := if r2.Err? then Some(r2.error) else None)
  }

  /** Sample `i` of `generate_GWL_files`: its lines, then the bookkeeping. */
  function Step(t: Tables, w: Written, sv: seq<int>, dv: seq<int>, nrep: int, origin: string,
                hasTiny: bool, i: int, countFirst: bool): (r: Written)
    requires ColorTables(t) && HolderState(w) && 1 <= i <= |sv| && i <= |dv|
    ensures HolderState(r)
  {
    Account(t, w.(rows := w.rows + SampleLines(t, w, sv, dv, nrep, origin, hasTiny, i)), nrep, countFirst)
  }

  /** `generate_GWL_files` up to and including sample `k`; the first exception ends the run. */
  function Run(t: Tables, used: map<string, int>, dest: Holder, sv: seq<int>, dv: seq<int>, nrep: int,
               origin: string, k: int, countFirst: bool): (w: Written)
    requires ColorTables(t) && HolderState(Written([], used, dest, None)) && k <= |sv| && k <= |dv|
    ensures HolderState(w)
    decreases k, 1
  {
    if k <= 0 then Begin(t, used, dest, sv, nrep, origin) else Next(t, used, dest, sv, dv, nrep, origin, k, countFirst)
  }

  /** Sample `k` of the run, after the samples before it; the first exception ends the run. */
  function Next(t: Tables, used: map<string, int>, dest: Holder, sv: seq<int>, dv: seq<int>, nrep: int,
                origin: string, k: int, countFirst: bool): (w: Written)
    requires ColorTables(t) && HolderState(Written([], used, dest, None)) && 1 <= k <= |sv| && k <= |dv|
    ensures HolderState(w)
    decreases k, 0
  {
    var p := Run(t, used, dest, sv, dv, nrep, origin, k - 1, countFirst);
    if p.error.Some? then p else Step(t, p, sv, dv, nrep, origin, TinySum(sv) > 0, k, countFirst)
  }

  /** A failed first call ends the run before any sample. */
  lemma {:induction false} RunStopsAtBegin(t: Tables, used: map<string, int>, dest: Holder, sv: seq<int>, dv: seq<int>,
                                           nrep: int, origin: string, k: int, countFirst: bool)
    requires ColorTables(t) && HolderState(Written([], used, dest, None))
    requires Begin(t, used, dest, sv, nrep, origin).error.Some? && k <= |sv| && k <= |dv|
    ensures Run(t, used, dest, sv, dv, nrep, origin, k, countFirst) == Begin(t, used, dest, sv, nrep, origin)
    decreases k
  {
    if k > 0 {
      RunStopsAtBegin(t, used, dest, sv, dv, nrep, origin, k - 1, countFirst);
    }
  }

  /** Once a sample has raised, the later samples change nothing. */
  lemma {:induction false} RunStops(t: Tables, used: map<string, int>, dest: Holder, sv: seq<int>, dv: seq<int>,
                                    nrep: int, origin: string, k: int, m: int, countFirst: bool)
    requires ColorTables(t) && HolderState(Written([], used, dest, None)) && 0 <= k <= m && m <= |sv| && m <= |dv|
    requires Run(t, used, dest, sv, dv, nrep, origin, k, countFirst).error.Some?
    ensures Run(t, used, dest, sv, dv, nrep, origin, m, countFirst) == Run(t, used, dest, sv, dv, nrep, origin, k, countFirst)
    decreases m
  {
    if m > k {
      RunStops(t, used, dest, sv, dv, nrep, origin, k, m - 1, countFirst);
      assert Run(t, used, dest, sv, dv, nrep, origin, m - 1, countFirst).error.Some?;
    }
  }

  /**
   * A sample adds its solution line and its diluent line, both to the replicate block that starts
   * at the destination's counter; the solution comes from the DeepWell exactly when it is under
   * 10 µL, and the first sample opens the files only when no pre-transfer did.
   */
  lemma StepLines(t: Tables, w: Written, sv: seq<int>, dv: seq<int>, nrep: int, origin: string,
                  hasTiny: bool, i: int, countFirst: bool)
    requires ColorTables(t) && HolderState(w) && 1 <= i <= |sv| && i <= |dv|
    ensures var r := Step(t, w, sv, dv, nrep, origin, hasTiny, i, countFirst);
      var start := w.used[w.dest.Name()];
      && |r.rows| == |w.rows| + 2 && r.rows[..|w.rows|] == w.rows
      && var (s, d) := (r.rows[|w.rows|], r.rows[|w.rows| + 1]);
      && s.file == SampleFile && d.file == DiluentFile
      && s.dest == d.dest == t.names[w.dest.Name()]
      && s.destStart == d.destStart == start && s.destEnd == d.destEnd == start + nrep - 1
      && s.volume == sv[i - 1] && d.volume == dv[i - 1] && d.source == DiluentOrigin
      && (s.source == t.names[TinyOrigin] <==> sv[i - 1] < 10 || origin == t.names[TinyOrigin])
      && (s.openMode == d.openMode == Write <==> i == 1 && !hasTiny)
  {
  }

  /**
   * While the next block fits, a sample's block is accounted for: the destination's counter
   * moves on by `n_replicates` to the place after the block, under either order.
   */
  lemma AccountAdvances(t: Tables, w: Written, nrep: int, countFirst: bool)
    requires ColorTables(t) && HolderState(w)
    requires nrep >= 1 && 0 <= w.used[w.dest.Name()] && w.used[w.dest.Name()] + 2 * nrep - 1 <= HolderSlots
    ensures var r := Account(t, w, nrep, countFirst);
      && r.error.None? && r.dest == w.dest
      && r.used == w.used[w.dest.Name() := w.used[w.dest.Name()] + nrep]
  {
    RaisingCountedValue(t, w.used, w.dest.Name(), nrep);
    var u1 := RaisingCounted(t, w.used, w.dest.Name(), nrep).1;
    assert u1 == w.used[w.dest.Name() := w.used[w.dest.Name()] + nrep];
  }

  /**
   * The room left on the holders: the next block fits on the current holder, and the second
   * holder is untouched while the first is in use.
   */
  predicate Room(t: Tables, w: Written, nrep: int)
    requires ColorTables(t) && HolderState(w)
  {
    && w.error.None? && 1 <= nrep
    && 1 <= w.used[w.dest.Name()] && w.used[w.dest.Name()] + nrep - 1 <= HolderSlots
    && (w.dest == First ==> w.used[Holder2] == 0)
  }

  /**
   * In the corrected order the room is kept from block to block, so every block lies within
   * places 1..40 of its holder; the run stops only when the second holder cannot take the next
   * block.
   */
  lemma IntendedAccountKeepsRoom(t: Tables, w: Written, nrep: int)
    requires ColorTables(t) && HolderState(w) && Room(t, w, nrep)
    ensures var r := Account(t, w, nrep, false);
      || Room(t, r, nrep)
      || (r.error == Some(ValueError) && w.dest == Second && w.used[Holder2] + 2 * nrep - 1 > HolderSlots)
  {
    var start := w.used[w.dest.Name()];
    if start + 2 * nrep - 1 <= HolderSlots {
      AccountAdvances(t, w, nrep, false);
    }
  }

  /**
   * As written, a block that ends exactly on place 40 of the first holder pushes its counter to
   * 41 and raises ValueError after the block's lines are written, where the corrected order moves
   * on to the second holder.
   */
  lemma FullHolderRaises(t: Tables, w: Written, nrep: int)
    requires ColorTables(t) && HolderState(w) && Room(t, w, nrep)
    requires w.dest == First && w.used[Holder1] + nrep - 1 == HolderSlots
    ensures var r := Account(t, w, nrep, true);
      r.error == Some(ValueError) && r.dest == First && r.used[Holder1] == HolderSlots
    ensures var r := Account(t, w, nrep, false);
      r.error.None? && r.dest == Second && r.used == w.used[Holder2 := 1]
  {
    assert Times(nrep) == nrep;
    RaisingCountedValue(t, w.used, Holder1, nrep);
    var c := RaisingCounted(t, w.used, Holder1, nrep);
    assert c.0 == Some(ValueError);
    var r := Account(t, w, nrep, true);
    assert r == w.(used := c.1, error := c.0);
  }

  /** The fresh counters of `__init__` after `k` samples of one replicate each, `k` < 40. */
  lemma {:induction false} OneReplicateRun(t: Tables, sv: seq<int>, dv: seq<int>, origin: string, k: int, countFirst: bool)
    requires ColorTables(t) && 0 <= k < HolderSlots && k <= |sv| && k <= |dv|
    ensures var w := Run(t, Zeros(t.names.Keys), First, sv, dv, 1, origin, k, countFirst);
      w.error.None? && w.dest == First && w.used == Zeros(t.names.Keys)[Holder1 := k + 1]
    decreases k
  {
    var z := Zeros(t.names.Keys);
    if k == 0 {
      assert Holder1 in z && z[Holder1] == 0;
      assert RaisingStep(t, z, First.Name()) == (Ok(1), z[Holder1 := 1]);
    } else {
      OneReplicateRun(t, sv, dv, origin, k - 1, countFirst);
      var p := Run(t, z, First, sv, dv, 1, origin, k - 1, countFirst);
      var q := p.(rows := p.rows + SampleLines(t, p, sv, dv, 1, origin, TinySum(sv) > 0, k));
      AccountAdvances(t, q, 1, countFirst);
      assert Run(t, z, First, sv, dv, 1, origin, k, countFirst) == Account(t, q, 1, countFirst);
      var r := Account(t, q, 1, countFirst);
      assert q.dest == First && q.used == z[Holder1 := k];
      assert r.dest == First;
      assert r.used == z[Holder1 := k][Holder1 := k + 1];
      UpdateTwice(z, Holder1, k, k + 1);
    }
  }

  /** A second update of the same key overrides the first. */
  lemma UpdateTwice<K, V>(m: map<K, V>, key: K, a: V, b: V)
    ensures m[key := a][key := b] == m[key := b]
  {
  }

  /**
   * Forty samples of one replicate fit the forty places of the first holder, yet as written the
   * run raises ValueError on the fortieth; in the corrected order it finishes on the second holder.
   */
  lemma FortiethCuvetteRaises(t: Tables, sv: seq<int>, dv: seq<int>, origin: string)
    requires ColorTables(t) && |sv| >= 40 && |dv| >= 40
    ensures Run(t, Zeros(t.names.Keys), First, sv, dv, 1, origin, 40, true).error == Some(ValueError)
    ensures var w := Run(t, Zeros(t.names.Keys), First, sv, dv, 1, origin, 40, false);
      w.error.None? && w.dest == Second
  {
    OneReplicateRun(t, sv, dv, origin, 39, true);
    OneReplicateRun(t, sv, dv, origin, 39, false);
    var p := Run(t, Zeros(t.names.Keys), First, sv, dv, 1, origin, 39, true);
    var q := Run(t, Zeros(t.names.Keys), First, sv, dv, 1, origin, 39, false);
    FullHolderRaises(t, p.(rows := p.rows + SampleLines(t, p, sv, dv, 1, origin, TinySum(sv) > 0, 40)), 1);
    FullHolderRaises(t, q.(rows := q.rows + SampleLines(t, q, sv, dv, 1, origin, TinySum(sv) > 0, 40)), 1);
  }

  /**
   * `color_project_dilutions` after the configuration file: the origin's positions are counted
   * (under its display name, when the origin is a `LabwareNames` key), the volume lists are
   * generated with a step of 2 µL, and the GWL lines are generated; the first exception ends it.
   */
  function Dilutions(t: Tables, used: map<string, int>, dest: Holder, n: int, sampleVol: int, diluentVol: int,
                     nrep: int, origin: string): (w: Written)
    requires ColorTables(t) && HolderState(Written([], used, dest, None))
  {
    var (e0, u0) := if origin in t.names then RaisingCounted(t, used, t.names[origin], Times(n)) else (None, used);
    assert HolderState(Written([], u0, dest, None)) by {
      if origin in t.names {
        RaisingCountedKeys(t, used, t.names[origin], Times(n));
      }
    }
    if e0.Some? then Written([], u0, dest, e0)
    else
      match VolumeSequences(sampleVol, diluentVol, n, 2)
      case Err(e) => Written([], u0, dest, Some(e))
      case Ok((sv, dv)) => Run(t, u0, dest, sv, dv, nrep, origin, n, true)
  }

  /**
   * With the default volumes (50 µL of sample, 1950 µL of diluent, down and up by 2 µL), an origin
   * that is not a `LabwareNames` key and fresh counters, the run gets past the volume assertion
   * exactly when there are at most 26 samples.
   */
  lemma DefaultDilutionsVolumeLimit(t: Tables, n: int, nrep: int, origin: string)
    requires ColorTables(t) && n >= 1 && origin !in t.names
    ensures Dilutions(t, Zeros(t.names.Keys), First, n, 50, 1950, nrep, origin).error == Some(AssertionError)
      <==> n > 26
  {
    var z := Zeros(t.names.Keys);
    DefaultVolumesAllowSamples(n);
    match VolumeSequences(50, 1950, n, 2)
    case Err(e) =>
      assert e == AssertionError;
    case Ok((sv, dv)) =>
      assert |sv| == n && |dv| == n;
      assert Run(t, z, First, sv, dv, nrep, origin, n, true).error != Some(AssertionError) by {
        RunRaisesNoAssertion(t, z, First, sv, dv, nrep, origin, n);
      }
  }

  /** The run itself never fails the volume assertion: its exceptions come from the counters. */
  lemma {:induction false} RunRaisesNoAssertion(t: Tables, used: map<string, int>, dest: Holder, sv: seq<int>, dv: seq<int>,
                                                nrep: int, origin: string, k: int)
    requires ColorTables(t) && HolderState(Written([], used, dest, None)) && k <= |sv| && k <= |dv|
    ensures Run(t, used, dest, sv, dv, nrep, origin, k, true).error != Some(AssertionError)
    decreases k
  {
    if k <= 0 {
      RaisingStepCases(t, used, dest.Name());
    } else {
      RunRaisesNoAssertion(t, used, dest, sv, dv, nrep, origin, k - 1);
      var p := Run(t, used, dest, sv, dv, nrep, origin, k - 1, true);
      if p.error.None? {
        var q := p.(rows := p.rows + SampleLines(t, p, sv, dv, nrep, origin, TinySum(sv) > 0, k));
        AccountRaisesNoAssertion(t, q, nrep);
      }
    }
  }

  /** The bookkeeping raises only the counters' KeyError and ValueError. */
  lemma AccountRaisesNoAssertion(t: Tables, w: Written, nrep: int)
    requires ColorTables(t) && HolderState(w)
    ensures Account(t, w, nrep, true).error != Some(AssertionError)
  {
    CountedRaisesNoAssertion(t, w.used, w.dest.Name(), Times(nrep));
    var u1 := RaisingCounted(t, w.used, w.dest.Name(), Times(nrep)).1;
    RaisingStepCases(t, u1, Holder2);
  }

  /** `n` calls of the raising counter fail only with KeyError or ValueError. */
  lemma {:induction false} CountedRaisesNoAssertion(t: Tables, u: map<string, int>, name: string, n: nat)
    ensures RaisingCounted(t, u, name, n).0 != Some(AssertionError)
    decreases n
  {
    if n > 0 {
      RaisingStepCases(t, u, name);
      var (r, next) := RaisingStep(t, u, name);
      if r.Ok? {
        CountedRaisesNoAssertion(t, next, name, n - 1);
      }
    }
  }

  // ---------------------------------------------------------------------------------------------
  // The protocol object
  // ---------------------------------------------------------------------------------------------

  /** `ColorProjectDilutionsMethod`: raising counters over the newer tables and the run's parameters. */
  class ColorProjectDilutionsMethod {
    const counters: RaisingCounters
    var nSamples: int
    var initialSampleVolume: int
    var initialDiluentVolume: int
    var nReplicates: int
    var sampleLwOrigin: string
    /** `lw_dest`: which holder receives the cuvettes; its name is `lwDest.Name()`. */
    var lwDest: Holder

    predicate Valid()
      reads this, counters
    {
      && ColorTables(counters.tables)
      && HolderState(Written([], counters.used, lwDest, None))
    }

    /** The run's numbers and origin, which only `set_all_parameters` changes. */
    function Settings(): (int, int, int, int, string)
      reads this
    {
      (nSamples, initialSampleVolume, initialDiluentVolume, nReplicates, sampleLwOrigin)
    }

    constructor ()
      ensures fresh(counters) && counters.tables == NewTables && counters.used == Zeros(NewNames.Keys)
      ensures nSamples == 1 && initialSampleVolume == 50 && initialDiluentVolume == 1950 && nReplicates == 1
      ensures sampleLwOrigin == "100ml_2" && lwDest == First
    {
      counters := new RaisingCounters(NewTables);
      nSamples := 1;
      initialSampleVolume := 50;
      initialDiluentVolume := 1950;
      nReplicates := 1;
      sampleLwOrigin := "100ml_2";
      lwDest := First;
    }

    /**
     * `set_all_parameters`: every counter back to 0 and the run's numbers from the form. The
     * destination holder is not reset: a run that ended on the second holder leaves it there.
     */
    method SetAllParameters(n: int, sampleVolume: int, diluentVolume: int, replicates: int)
      requires Valid()
      modifies this, counters
      ensures Valid()
      ensures counters.used == Zeros(old(counters.used).Keys)
      ensures nSamples == n && initialSampleVolume == sampleVolume && initialDiluentVolume == diluentVolume
      ensures nReplicates == replicates && lwDest == old(lwDest) && sampleLwOrigin == old(sampleLwOrigin)
    {
      counters.Reset();
      nSamples := n;
      initialSampleVolume := sampleVolume;
      initialDiluentVolume := diluentVolume;
      nReplicates := replicates;
    }

    /** `generate_volume_sequences`: the append loop and the two final assertions. */
    method GenerateVolumeSequences(sampleStart: int, diluentStart: int, n: int, diff: int)
      returns (r: Result<(seq<int>, seq<int>)>)
      ensures r == VolumeSequences(sampleStart, diluentStart, n, diff)
    {
      var samples: seq<int> := [];
      var diluents: seq<int> := [];
      for i := 0 to Times(n)
        invariant samples == SampleVolumes(sampleStart, i, diff)
        invariant diluents == DiluentVolumes(diluentStart, i, diff)
      {
        var sampleVol := sampleStart - i * diff;
        var diluentVol;
        if diluentStart > 1000 {
          diluentVol := RoundHalf(diluentStart) + i * RoundHalf(diff);
        } else {
          diluentVol := diluentStart + i * diff;
        }
        samples := samples + [sampleVol];
        diluents := diluents + [diluentVol];
      }
      assert samples == SampleVolumes(sampleStart, n, diff);
      assert diluents == DiluentVolumes(diluentStart, n, diff);
      if (forall i :: 0 <= i < |samples| ==> samples[i] >= 0) && (forall i :: 0 <= i < |diluents| ==> diluents[i] >= 0) {
        r := Ok((samples, diluents));
      } else {
        r := Err(AssertionError);
      }
    }

    /** The loop `for _ in range(self.n_replicates)` of calls for the destination holder. */
    method CountBlock() returns (err: Option<PyError>)
      requires Valid()
      modifies counters
      ensures Valid()
      ensures (err, counters.used) == RaisingCounted(counters.tables, old(counters.used), lwDest.Name(), Times(nReplicates))
    {
      err := None;
      var i := 0;
      while i < nReplicates
        invariant 0 <= i <= Times(nReplicates) && Valid()
        invariant RaisingCounted(counters.tables, old(counters.used), lwDest.Name(), Times(nReplicates))
          == RaisingCounted(counters.tables, counters.used, lwDest.Name(), Times(nReplicates) - i)
      {
        RaisingStepCases(counters.tables, counters.used, lwDest.Name());
        var r := counters.NextLabwarePos(lwDest.Name());
        if r.Err? {
          err := Some(r.error);
          return;
        }
        i := i + 1;
      }
    }

    /**
     * The bookkeeping after a sample's lines, as written: the block is counted, then the holder
     * is switched if the next block would end past place 40.
     */
    method AccountBlock(ghost rows: seq<Dispense>) returns (err: Option<PyError>)
      requires Valid()
      modifies this, counters
      ensures Valid()
      ensures Written(rows, counters.used, lwDest, err)
        == Account(counters.tables, Written(rows, old(counters.used), old(lwDest), None), nReplicates, true)
      ensures Settings() == old(Settings())
    {
      var t := counters.tables;
      var end := counters.used[lwDest.Name()] + nReplicates - 1;
      RaisingCountedKeys(t, counters.used, lwDest.Name(), Times(nReplicates));
      err := CountBlock();
      if err.None? && end + nReplicates > HolderSlots {
        if lwDest == Second {
          err := Some(ValueError);
        } else {
          lwDest := Second;
          RaisingStepCases(t, counters.used, Holder2);
          var r := counters.NextLabwarePos(lwDest.Name());
          if r.Err? {
            err := Some(r.error);
          }
        }
      }
    }

    /** One pass of the sample loop of `generate_GWL_files`, as written. */
    method DispenseSample(rows: seq<Dispense>, sv: seq<int>, dv: seq<int>, hasTiny: bool, i: int)
      returns (rows': seq<Dispense>, err: Option<PyError>)
      requires Valid() && 1 <= i <= |sv| && i <= |dv|
      modifies this, counters
      ensures Valid()
      ensures Written(rows', counters.used, lwDest, err)
        == Step(counters.tables, Written(rows, old(counters.used), old(lwDest), None), sv, dv, nReplicates, sampleLwOrigin, hasTiny, i, true)
      ensures Settings() == old(Settings())
    {
      var t := counters.tables;
      var mode := if i == 1 && !hasTiny then Write else Append;
      var start := counters.used[lwDest.Name()];
      var end := start + nReplicates - 1;
      var lw := t.names[lwDest.Name()];
      var source := if sv[i - 1] < 10 then t.names[TinyOrigin] else sampleLwOrigin;
      rows' := rows + [Dispense(SampleFile, mode, source, lw, start, end, sv[i - 1])];
      rows' := rows' + [Dispense(DiluentFile, mode, DiluentOrigin, lw, start, end, dv[i - 1])];
      assert rows' == rows + SampleLines(t, Written(rows, counters.used, lwDest, None), sv, dv, nReplicates, sampleLwOrigin, hasTiny, i);
      err := AccountBlock(rows');
    }

    /** Sample `i` of the run, from the state the samples before it left. */
    method DispenseNext(ghost u0: map<string, int>, ghost d0: Holder, sv: seq<int>, dv: seq<int>,
                        rows: seq<Dispense>, i: int)
      returns (rows': seq<Dispense>, err: Option<PyError>)
      requires Valid() && 1 <= i <= |sv| && i <= |dv|
      requires HolderState(Written([], u0, d0, None))
      requires Written(rows, counters.used, lwDest, None) == Run(counters.tables, u0, d0, sv, dv, nReplicates, sampleLwOrigin, i - 1, true)
      modifies this, counters
      ensures Settings() == old(Settings())
      ensures Valid()
      ensures Written(rows', counters.used, lwDest, err) == Run(counters.tables, u0, d0, sv, dv, nReplicates, sampleLwOrigin, i, true)
    {
      ghost var p := Written(rows, counters.used, lwDest, None);
      ghost var s := Step(counters.tables, p, sv, dv, nReplicates, sampleLwOrigin, TinySum(sv) > 0, i, true);
      assert Run(counters.tables, u0, d0, sv, dv, nReplicates, sampleLwOrigin, i, true) == s;
      rows', err := DispenseSample(rows, sv, dv, TinySum(sv) > 0, i);
    }

    /** The sample loop of `generate_GWL_files`, from the state the priming call leaves. */
    method DispenseSamples(ghost u0: map<string, int>, ghost d0: Holder, sv: seq<int>, dv: seq<int>, rows0: seq<Dispense>)
      returns (rows: seq<Dispense>, err: Option<PyError>)
      requires Valid() && nSamples <= |sv| && nSamples <= |dv|
      requires HolderState(Written([], u0, d0, None))
      requires Written(rows0, counters.used, lwDest, None) == Run(counters.tables, u0, d0, sv, dv, nReplicates, sampleLwOrigin, 0, true)
      modifies this, counters
      ensures Settings() == old(Settings())
      ensures Valid()
      ensures Written(rows, counters.used, lwDest, err) == Run(counters.tables, u0, d0, sv, dv, nReplicates, sampleLwOrigin, nSamples, true)
    {
      var n, nrep, origin := nSamples, nReplicates, sampleLwOrigin;
      rows, err := rows0, None;
      var i := 1;
      while i <= n && err.None?
        invariant 1 <= i && i - 1 <= Times(n) && Valid() && Settings() == old(Settings())
        invariant Written(rows, counters.used, lwDest, err) == Run(counters.tables, u0, d0, sv, dv, nrep, origin, i - 1, true)
        invariant err.Some? ==> Written(rows, counters.used, lwDest, err) == Run(counters.tables, u0, d0, sv, dv, nrep, origin, n, true)
      {
        rows, err := DispenseNext(u0, d0, sv, dv, rows, i);
        if err.Some? {
          RunStops(counters.tables, u0, d0, sv, dv, nrep, origin, i, n, true);
        }
        i := i + 1;
      }
      if err.None? && n <= 0 {
        assert Run(counters.tables, u0, d0, sv, dv, nrep, origin, n, true)
          == Run(counters.tables, u0, d0, sv, dv, nrep, origin, 0, true);
      }
    }

    /** `generate_GWL_files` for the volume lists, as written; the lines are returned in order. */
    method GenerateGwlFiles(sv: seq<int>, dv: seq<int>) returns (rows: seq<Dispense>, err: Option<PyError>)
      requires Valid() && nSamples <= |sv| && nSamples <= |dv|
      modifies this, counters
      ensures Settings() == old(Settings())
      ensures Valid()
      ensures Written(rows, counters.used, lwDest, err)
        == Run(counters.tables, old(counters.used), old(lwDest), sv, dv, nReplicates, sampleLwOrigin, nSamples, true)
    {
      var t := counters.tables;
      ghost var u0, d0 := counters.used, lwDest;
      RaisingStepCases(t, counters.used, lwDest.Name());
      var first := counters.NextLabwarePos(lwDest.Name());
      if first.Err? {
        rows, err := [], Some(first.error);
        RunStopsAtBegin(t, u0, d0, sv, dv, nReplicates, sampleLwOrigin, nSamples, true);
      } else {
        var pre := PreTransfer(t, sv, nReplicates, sampleLwOrigin);
        assert Written(pre, counters.used, lwDest, None) == Run(t, u0, d0, sv, dv, nReplicates, sampleLwOrigin, 0, true);
        rows, err := DispenseSamples(u0, d0, sv, dv, pre);
      }
    }

    /**
     * `count_starting_lw_pos`: when the origin is a `LabwareNames` key, `n_samples` calls for its
     * display name.
     */
    method CountStartingLwPos() returns (err: Option<PyError>)
      requires Valid()
      modifies counters
      ensures Valid()
      ensures (err, counters.used) == if sampleLwOrigin in counters.tables.names
        then RaisingCounted(counters.tables, old(counters.used), counters.tables.names[sampleLwOrigin], Times(nSamples))
        else (None, old(counters.used))
    {
      if sampleLwOrigin in counters.tables.names {
        RaisingCountedKeys(counters.tables, counters.used, counters.tables.names[sampleLwOrigin], Times(nSamples));
      }
      err := counters.CountStartingLwPos(sampleLwOrigin, nSamples);
    }

    /** `color_project_dilutions`: the GWL lines of the whole run, or the exception that ends it. */
    method ColorProjectDilutions() returns (rows: seq<Dispense>, err: Option<PyError>)
      requires Valid()
      modifies this, counters
      ensures Valid() && Settings() == old(Settings())
      ensures Written(rows, counters.used, lwDest, err)
        == Dilutions(counters.tables, old(counters.used), old(lwDest), nSamples, initialSampleVolume,
                     initialDiluentVolume, nReplicates, sampleLwOrigin)
    {
      rows := [];
      err := CountStartingLwPos();
      if err.Some? {
        return;
      }
      var volumes := GenerateVolumeSequences(initialSampleVolume, initialDiluentVolume, nSamples, 2);
      if volumes.Err? {
        err := Some(volumes.error);
        return;
      }
      var (sv, dv) := volumes.value;
      rows, err := GenerateGwlFiles(sv, dv);
    }
  }
}
