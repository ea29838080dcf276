/**
 * The drug product preparation protocol of helper/DrugProductPreparation.py. Its counters are
 * the raising `used_labware_pos` over the tables of helper/utils.py. As written,
 * `sample_dilutions` calls `self.dilution_position_def`, which the class does not have, so the
 * protocol raises AttributeError once the origin has been counted. The intended bookkeeping,
 * with `dilution_position_def` of helper/utils.py, the DeepWell plate for intermediate steps and
 * a given initial transfer volume, is modelled beside it: an optional initial transfer into
 * DeepWell wells, intermediate steps into further DeepWell wells, and a final step into the
 * destination whose new positions are recorded.
 */
module DrugProduct {
  import opened Wrappers
  import opened Catalog
  import opened Allocation
  import Dilution

  /** The arguments of one `dilution_position_def` call for a destination: labware, first position, count. */
  datatype Placement = Placement(lw: string, start: int, count: int)

  /**
   * How far `sample_dilutions` got: the exception that stopped it, the counters, the
   * destinations asked for (the initial transfer's first) and the positions the final step
   * recorded.
   */
  datatype Progress = Progress(error: Option<PyError>, used: map<string, int>, placements: seq<Placement>, positions: seq<int>)

  /** What the call gives back: the exception, or the recorded positions. */
  function Outcome(p: Progress): (r: Result<seq<int>>)
    ensures r.Err? <==> p.error.Some?
  {
    if p.error.Some? then Err(p.error.value) else Ok(p.positions)
  }

  /** The labware step `i` of `m` dilutes into: DeepWell, or the destination on the final step. */
  function StepLabware(dest: string, m: nat, i: nat): string
  {
    if i + 1 == m then dest else "DeepWell"
  }

  /** `n` consecutive positions from `start`. */
  function Climb(start: int, n: nat): (xs: seq<int>)
    ensures |xs| == n && forall j :: 0 <= j < n ==> xs[j] == start + j
  {
    seq(n, j requires 0 <= j < n => start + j)
  }

  /**
   * Dilution step `i` of `m`: reading the counter of the step's labware raises KeyError when
   * it is no key; otherwise the step asks for `n * (i + 1) + 1` positions after the counter,
   * then advances it once per sample, and the final step records each new value.
   */
  function StepAt(t: Tables, p: Progress, dest: string, n: nat, m: nat, i: nat): Progress
  {
    var lw := StepLabware(dest, m, i);
    if lw !in p.used then Progress(Some(KeyError), p.used, p.placements, p.positions)
    else
      var start := p.used[lw] + 1;
      var (e, after) := RaisingCounted(t, p.used, lw, n);
      Progress(e, after, p.placements + [Placement(lw, start, n * (i + 1) + 1)],
               if i + 1 == m && e.None? then p.positions + Climb(start, n) else p.positions)
  }

  /** The first `k` dilution steps after the initial transfer left the counters at `u`. */
  function Run(t: Tables, u: map<string, int>, init: Placement, dest: string, n: nat, m: nat, k: int): Progress
    decreases k, 1
  {
    if k <= 0 then Progress(None, u, [init], []) else Next(t, u, init, dest, n, m, k)
  }

  /** Step `k - 1`, unless an earlier step raised. */
  function Next(t: Tables, u: map<string, int>, init: Placement, dest: string, n: nat, m: nat, k: int): Progress
    requires k >= 1
    decreases k, 0
  {
    var p := Run(t, u, init, dest, n, m, k - 1);
    if p.error.Some? then p else StepAt(t, p, dest, n, m, k - 1)
  }

  /** The initial transfer: `n` DeepWell positions consumed, for a non-zero volume only. */
  function TransferOf(t: Tables, u: map<string, int>, n: nat, v: real): (Option<PyError>, map<string, int>)
  {
    if v != 0.0 then RaisingCounted(t, u, "DeepWell", n) else (None, u)
  }

  /** How many DeepWell wells the initial transfer fills. */
  function TransferWells(n: nat, v: real): nat
  {
    if v != 0.0 then n else 0
  }

  /**
   * The intended `sample_dilutions` from counters `u`: the DeepWell wells after the counter are
   * asked for; only a non-zero initial volume moves the samples there, consuming `n` DeepWell
   * positions; then the `m` dilution steps.
   */
  function Dilutions(t: Tables, u: map<string, int>, dest: string, n: nat, v: real, m: nat): Progress
  {
    if "DeepWell" !in u then Progress(Some(KeyError), u, [], [])
    else
      var init := Placement("DeepWell", u["DeepWell"] + 1, n);
      var (e, u1) := TransferOf(t, u, n, v);
      if e.Some? then Progress(e, u1, [init], []) else Run(t, u1, init, dest, n, m, m)
  }

  /** `general_dilution`'s reset and count: every counter to zero, then `n` positions of the origin's display name. */
  function CountedStart(t: Tables, u: map<string, int>, origin: string, n: int): (Option<PyError>, map<string, int>)
  {
    var zero := Zeros(u.Keys);
    if origin in t.names then RaisingCounted(t, zero, t.names[origin], Times(n)) else (None, zero)
  }

  /** `general_dilution` as written: the reset and the count, then AttributeError from `sample_dilutions`. */
  function AsWrittenRun(t: Tables, u: map<string, int>, origin: string, n: int): (PyError, map<string, int>)
  {
    var (e, after) := CountedStart(t, u, origin, n);
    (if e.Some? then e.value else AttributeError, after)
  }

  /** The intended `general_dilution`: the reset and the count, then the dilutions. */
  function IntendedRun(t: Tables, u: map<string, int>, origin: string, n: int, dest: string, v: real, m: nat): Progress
  {
    var (e, after) := CountedStart(t, u, origin, n);
    if e.Some? then Progress(e, after, [], []) else Dilutions(t, after, dest, Times(n), v, m)
  }

  // ---------------------------------------------------------------------------------------------
  // Properties
  // ---------------------------------------------------------------------------------------------

  /** Once a step raised, the later steps are skipped and nothing more changes. */
  lemma {:induction false} RunStops(t: Tables, u: map<string, int>, init: Placement, dest: string, n: nat, m: nat, k: int, k2: int)
    requires k <= k2 && Run(t, u, init, dest, n, m, k).error.Some?
    ensures Run(t, u, init, dest, n, m, k2) == Run(t, u, init, dest, n, m, k)
    decreases k2 - k
  {
    if k < k2 {
      RunStops(t, u, init, dest, n, m, k, k2 - 1);
    }
  }

  /**
   * Whatever the counters held before, `general_dilution` starts from zero: with room for the
   * origin, the count leaves every counter at zero except the origin's display name, at `n`.
   */
  lemma CountFromZero(t: Tables, u: map<string, int>, origin: string, n: int)
    requires origin in t.names && Countable(t, Zeros(u.Keys), t.names[origin])
    requires Times(n) <= t.capacity[t.names[origin]]
    ensures CountedStart(t, u, origin, n) == (None, Zeros(u.Keys)[t.names[origin] := Times(n)])
  {
    var name := t.names[origin];
    var zero := Zeros(u.Keys);
    RaisingCountedValue(t, zero, name, Times(n));
    var after := RaisingCounted(t, zero, name, Times(n)).1;
    assert after == zero[name := Times(n)];
  }

  /**
   * While the DeepWell plate has room, the first `k` steps before the last consume `n` DeepWell
   * positions each and ask for the wells right after the previous step's.
   */
  lemma {:induction false} IntermediateRun(t: Tables, u: map<string, int>, init: Placement, dest: string, n: nat, m: nat, k: nat)
    requires k < m && Countable(t, u, "DeepWell") && u["DeepWell"] + n * k <= t.capacity["DeepWell"]
    ensures var p := Run(t, u, init, dest, n, m, k);
      && p.error.None? && p.used == u["DeepWell" := u["DeepWell"] + n * k] && p.positions == []
      && |p.placements| == k + 1 && p.placements[0] == init
      && forall i :: 0 <= i < k ==> p.placements[i + 1] == Placement("DeepWell", u["DeepWell"] + n * i + 1, n * (i + 1) + 1)
    decreases k
  {
    if k > 0 {
      assert n * (k - 1) <= n * k by { Dilution.MulMonotone(n, k - 1, k); }
      IntermediateRun(t, u, init, dest, n, m, k - 1);
      var p := Run(t, u, init, dest, n, m, k - 1);
      assert StepLabware(dest, m, k - 1) == "DeepWell";
      RaisingCountedValue(t, p.used, "DeepWell", n);
      var after := RaisingCounted(t, p.used, "DeepWell", n).1;
      assert n * (k - 1) + n == n * k;
      assert after == u["DeepWell" := u["DeepWell"] + n * k];
    }
  }

  /** The initial transfer, when there is room for it, leaves the DeepWell counter `n` higher for a non-zero volume. */
  lemma AfterInitialTransfer(t: Tables, u: map<string, int>, dest: string, n: nat, v: real, m: nat)
    requires Countable(t, u, "DeepWell") && u["DeepWell"] + TransferWells(n, v) <= t.capacity["DeepWell"]
    ensures Dilutions(t, u, dest, n, v, m)
      == Run(t, u["DeepWell" := u["DeepWell"] + TransferWells(n, v)], Placement("DeepWell", u["DeepWell"] + 1, n), dest, n, m, m)
  {
    if v != 0.0 {
      RaisingCountedValue(t, u, "DeepWell", n);
      var (e, after) := RaisingCounted(t, u, "DeepWell", n);
      assert e.None? && after == u["DeepWell" := u["DeepWell"] + n];
    } else {
      assert u["DeepWell" := u["DeepWell"] + 0] == u;
    }
  }


  /** A final step with room on the destination: its counter rises by `n` and the new positions are recorded. */
  lemma FinalStepFills(t: Tables, p: Progress, dest: string, n: nat, m: nat)
    requires m >= 1 && Countable(t, p.used, dest) && p.used[dest] + n <= t.capacity[dest]
    ensures StepAt(t, p, dest, n, m, m - 1)
      == Progress(None, p.used[dest := p.used[dest] + n], p.placements + [Placement(dest, p.used[dest] + 1, n * m + 1)], p.positions + Climb(p.used[dest] + 1, n))
  {
    RaisingCountedValue(t, p.used, dest, n);
    var after := RaisingCounted(t, p.used, dest, n).1;
    assert after == p.used[dest := p.used[dest] + n];
    assert n * (m - 1 + 1) + 1 == n * m + 1;
  }

  /** With room on both plates, the steps after the initial transfer succeed and the last fills the destination. */
  lemma RunWithRoom(t: Tables, u: map<string, int>, init: Placement, dest: string, n: nat, m: nat)
    requires m >= 1 && dest != "DeepWell" && Countable(t, u, "DeepWell") && Countable(t, u, dest)
    requires u["DeepWell"] + n * (m - 1) <= t.capacity["DeepWell"] && u[dest] + n <= t.capacity[dest]
    ensures var p := Run(t, u, init, dest, n, m, m);
      && p.error.None?
      && p.used == u["DeepWell" := u["DeepWell"] + n * (m - 1)][dest := u[dest] + n]
      && p.positions == Climb(u[dest] + 1, n)
      && |p.placements| == m + 1 && p.placements[m] == Placement(dest, u[dest] + 1, n * m + 1)
  {
    IntermediateRun(t, u, init, dest, n, m, m - 1);
    var p := Run(t, u, init, dest, n, m, m - 1);
    FinalStepFills(t, p, dest, n, m);
    assert Run(t, u, init, dest, n, m, m) == StepAt(t, p, dest, n, m, m - 1);
  }

  /**
   * With room everywhere, the dilutions succeed: DeepWell gives `n` wells to the initial
   * transfer (only for a non-zero volume) and `n` to each intermediate step, the destination
   * `n` to the final step, and no other counter moves.
   */
  lemma DilutionsWithRoom(t: Tables, u: map<string, int>, dest: string, n: nat, v: real, m: nat)
    requires m >= 1 && dest != "DeepWell" && Countable(t, u, "DeepWell") && Countable(t, u, dest)
    requires u["DeepWell"] + TransferWells(n, v) + n * (m - 1) <= t.capacity["DeepWell"]
    requires u[dest] + n <= t.capacity[dest]
    ensures var p := Dilutions(t, u, dest, n, v, m);
      && p.error.None?
      && p.used == u["DeepWell" := u["DeepWell"] + TransferWells(n, v) + n * (m - 1)][dest := u[dest] + n]
  {
    var w := TransferWells(n, v);
    assert n * (m - 1) >= 0;
    var u1 := u["DeepWell" := u["DeepWell"] + w];
    var init := Placement("DeepWell", u["DeepWell"] + 1, n);
    assert Dilutions(t, u, dest, n, v, m) == Run(t, u1, init, dest, n, m, m) by {
      AfterInitialTransfer(t, u, dest, n, v, m);
    }
    var p := Run(t, u1, init, dest, n, m, m);
    assert p.error.None? && p.used == u1["DeepWell" := u1["DeepWell"] + n * (m - 1)][dest := u1[dest] + n] by {
      RunWithRoom(t, u1, init, dest, n, m);
    }
    assert u1["DeepWell" := u1["DeepWell"] + n * (m - 1)] == u["DeepWell" := u["DeepWell"] + w + n * (m - 1)];
  }

  /**
   * With room everywhere, the final step asks for the destination positions after its counter
   * and records the `n` of them as the positions returned; the initial transfer's wells come
   * first among the destinations asked for.
   */
  lemma DilutionsRecordDestination(t: Tables, u: map<string, int>, dest: string, n: nat, v: real, m: nat)
    requires m >= 1 && dest != "DeepWell" && Countable(t, u, "DeepWell") && Countable(t, u, dest)
    requires u["DeepWell"] + TransferWells(n, v) + n * (m - 1) <= t.capacity["DeepWell"]
    requires u[dest] + n <= t.capacity[dest]
    ensures var p := Dilutions(t, u, dest, n, v, m);
      && p.positions == Climb(u[dest] + 1, n)
      && |p.placements| == m + 1 && p.placements[0] == Placement("DeepWell", u["DeepWell"] + 1, n)
      && p.placements[m] == Placement(dest, u[dest] + 1, n * m + 1)
  {
    var w := TransferWells(n, v);
    assert n * (m - 1) >= 0;
    AfterInitialTransfer(t, u, dest, n, v, m);
    var u1 := u["DeepWell" := u["DeepWell"] + w];
    var init := Placement("DeepWell", u["DeepWell"] + 1, n);
    assert u1[dest] == u[dest];
    RunWithRoom(t, u1, init, dest, n, m);
    RunKeepsPlacements(t, u1, init, dest, n, m, m);
    var q := Run(t, u1, init, dest, n, m, m);
    assert Dilutions(t, u, dest, n, v, m) == q;
  }

  /** The destinations asked for only grow: the initial transfer's stays first. */
  lemma {:induction false} RunKeepsPlacements(t: Tables, u: map<string, int>, init: Placement, dest: string, n: nat, m: nat, k: int)
    ensures var p := Run(t, u, init, dest, n, m, k); |p.placements| >= 1 && p.placements[0] == init
    decreases k
  {
    if k > 0 {
      RunKeepsPlacements(t, u, init, dest, n, m, k - 1);
    }
  }

  /**
   * Without an initial transfer, the first of several steps asks for the very DeepWell wells its
   * samples are taken from: the wells the skipped transfer would have filled.
   */
  lemma NoInitialTransferDilutesInPlace(t: Tables, u: map<string, int>, dest: string, n: nat, m: nat)
    requires m >= 2 && Countable(t, u, "DeepWell") && u["DeepWell"] + n <= t.capacity["DeepWell"]
    ensures var p := Run(t, u, Placement("DeepWell", u["DeepWell"] + 1, n), dest, n, m, 1);
      && Dilutions(t, u, dest, n, 0.0, m) == Run(t, u, Placement("DeepWell", u["DeepWell"] + 1, n), dest, n, m, m)
      && p.placements[1].lw == p.placements[0].lw && p.placements[1].start == p.placements[0].start
  {
    IntermediateRun(t, u, Placement("DeepWell", u["DeepWell"] + 1, n), dest, n, m, 1);
  }

  /**
   * A destination that is no labware key raises KeyError at the final step, after the DeepWell
   * plate has given its wells to the earlier ones.
   */
  lemma UnknownDestination(t: Tables, u: map<string, int>, dest: string, n: nat, v: real, m: nat)
    requires m >= 1 && dest !in u && Countable(t, u, "DeepWell")
    requires u["DeepWell"] + TransferWells(n, v) + n * (m - 1) <= t.capacity["DeepWell"]
    ensures var p := Dilutions(t, u, dest, n, v, m);
      p.error == Some(KeyError) && p.used == u["DeepWell" := u["DeepWell"] + TransferWells(n, v) + n * (m - 1)]
  {
    var w := TransferWells(n, v);
    assert n * (m - 1) >= 0;
    AfterInitialTransfer(t, u, dest, n, v, m);
    var u1 := u["DeepWell" := u["DeepWell"] + w];
    var init := Placement("DeepWell", u["DeepWell"] + 1, n);
    IntermediateRun(t, u1, init, dest, n, m, m - 1);
    assert StepLabware(dest, m, m - 1) == dest;
    assert Run(t, u1, init, dest, n, m, m) == StepAt(t, Run(t, u1, init, dest, n, m, m - 1), dest, n, m, m - 1);
  }

  // ---------------------------------------------------------------------------------------------
  // The protocol object
  // ---------------------------------------------------------------------------------------------

  /** `DrugProductPreparationMethod`: its counters and the parameters `set_all_parameters` copies from the window. */
  class DrugProductPreparationMethod {
    const counters: RaisingCounters
    var sampleLwOrigin: string
    var nSamples: int
    var sampleLwDest: string
    var nSteps: nat
    /** `sample_dest_positions`, which exists only once `general_dilution` has returned. */
    var sampleDestPositions: Option<seq<int>>

    constructor ()
      ensures fresh(counters) && counters.tables == NewTables && counters.used == Zeros(NewNames.Keys)
      ensures sampleLwOrigin == "" && nSamples == 1 && sampleDestPositions == None
    {
      counters := new RaisingCounters(NewTables);
      sampleLwOrigin := "";
      nSamples := 1;
      sampleLwDest := "";
      nSteps := 0;
      sampleDestPositions := None;
    }

    /**
     * `set_all_parameters`: every counter back to zero, then the origin, the sample count, the
     * destination and the number of dilution steps (the rows of the dilution table) from the window.
     */
    method SetAllParameters(origin: string, n: int, dest: string, steps: nat)
      modifies this, counters
      ensures counters.used == Zeros(old(counters.used).Keys)
      ensures sampleLwOrigin == origin && nSamples == n && sampleLwDest == dest && nSteps == steps
      ensures sampleDestPositions == old(sampleDestPositions)
    {
      counters.Reset();
      sampleLwOrigin, nSamples, sampleLwDest, nSteps := origin, n, dest, steps;
    }

    /** `sample_dilutions` as written: its first line looks up a method the class lacks. */
    method SampleDilutions() returns (r: Result<seq<int>>)
      ensures r == Err(AttributeError)
    {
      r := Err(AttributeError);
    }

    /** `general_dilution` as written: reset, count the origin, then the AttributeError. */
    method GeneralDilution() returns (r: Result<seq<int>>)
      modifies this, counters
      ensures r.Err? && (r.error, counters.used) == AsWrittenRun(counters.tables, old(counters.used), sampleLwOrigin, nSamples)
      ensures sampleDestPositions == old(sampleDestPositions)
    {
      counters.Reset();
      var e := counters.CountStartingLwPos(sampleLwOrigin, nSamples);
      if e.Some? {
        return Err(e.value);
      }
      r := SampleDilutions();
    }

    /**
     * The inner loop of a step: one call of `next_labware_pos(lw)` per sample, the counter's new
     * value recorded after each on the final step. The first exception ends it.
     */
    method Advance(lw: string, n: nat, final: bool) returns (err: Option<PyError>, recorded: seq<int>)
      requires lw in counters.used
      modifies counters
      ensures (err, counters.used) == RaisingCounted(counters.tables, old(counters.used), lw, n)
      ensures final && err.None? ==> recorded == Climb(old(counters.used)[lw] + 1, n)
    {
      var t := counters.tables;
      ghost var u0 := counters.used;
      err, recorded := None, [];
      for j := 0 to n
        invariant lw in counters.used && counters.used[lw] == u0[lw] + j
        invariant RaisingCounted(t, u0, lw, n) == RaisingCounted(t, counters.used, lw, n - j)
        invariant final ==> recorded == Climb(u0[lw] + 1, j)
      {
        RaisingStepCases(t, counters.used, lw);
        var r := counters.NextLabwarePos(lw);
        if r.Err? {
          err := Some(r.error);
          return;
        }
        if final {
          recorded := recorded + [counters.used[lw]];
        }
      }
    }

    /** The initial transfer: the DeepWell wells after the counter, filled only for a non-zero volume. */
    method InitialTransfer(n: nat, v: real) returns (err: Option<PyError>, init: Placement)
      requires "DeepWell" in counters.used
      modifies counters
      ensures init == Placement("DeepWell", old(counters.used)["DeepWell"] + 1, n)
      ensures (err, counters.used) == TransferOf(counters.tables, old(counters.used), n, v)
    {
      init := Placement("DeepWell", counters.used["DeepWell"] + 1, n);
      err := None;
      if v != 0.0 {
        var skipped;
        err, skipped := Advance("DeepWell", n, false);
      }
    }

    /** Dilution step `i`, the earlier ones done: the counters, destinations and positions move on to those after step `i`. */
    method DilutionStep(ghost u1: map<string, int>, init: Placement, placements: seq<Placement>, positions: seq<int>, n: nat, i: nat)
      returns (err: Option<PyError>, placements': seq<Placement>, positions': seq<int>)
      requires i < nSteps && Run(counters.tables, u1, init, sampleLwDest, n, nSteps, i) == Progress(None, counters.used, placements, positions)
      modifies counters
      ensures Run(counters.tables, u1, init, sampleLwDest, n, nSteps, i + 1) == Progress(err, counters.used, placements', positions')
    {
      var lw := if i + 1 == nSteps then sampleLwDest else "DeepWell";
      if lw !in counters.used {
        return Some(KeyError), placements, positions;
      }
      placements' := placements + [Placement(lw, counters.used[lw] + 1, n * (i + 1) + 1)];
      var recorded;
      err, recorded := Advance(lw, n, i + 1 == nSteps);
      positions' := if i + 1 == nSteps && err.None? then positions + recorded else positions;
    }

    /**
     * The intended `sample_dilutions` with initial volume `v`: what it returns, the counters it
     * leaves and the destinations it asks for are those of `Dilutions`.
     */
    method SampleDilutionsIntended(v: real) returns (r: Result<seq<int>>, placements: seq<Placement>)
      modifies counters
      ensures var p := Dilutions(counters.tables, old(counters.used), sampleLwDest, Times(nSamples), v, nSteps);
        r == Outcome(p) && counters.used == p.used && placements == p.placements
    {
      var t := counters.tables;
      var n, m := Times(nSamples), nSteps;
      if "DeepWell" !in counters.used {
        return Err(KeyError), [];
      }
      var err, init := InitialTransfer(n, v);
      placements := [init];
      if err.Some? {
        return Err(err.value), placements;
      }
      ghost var u1 := counters.used;
      var positions: seq<int> := [];
      for i := 0 to m
        invariant Run(t, u1, init, sampleLwDest, n, m, i) == Progress(None, counters.used, placements, positions)
      {
        err, placements, positions := DilutionStep(u1, init, placements, positions, n, i);
        if err.Some? {
          RunStops(t, u1, init, sampleLwDest, n, m, i + 1, m);
          return Err(err.value), placements;
        }
      }
      r := Ok(positions);
    }

    /** The intended `general_dilution`: reset, count the origin, dilute and keep the positions. */
    method GeneralDilutionIntended(v: real) returns (r: Result<seq<int>>, placements: seq<Placement>)
      modifies this, counters
      ensures var p := IntendedRun(counters.tables, old(counters.used), sampleLwOrigin, nSamples, sampleLwDest, v, nSteps);
        r == Outcome(p) && counters.used == p.used && placements == p.placements
      ensures sampleDestPositions == if r.Ok? then Some(r.value) else old(sampleDestPositions)
    {
      counters.Reset();
      var e := counters.CountStartingLwPos(sampleLwOrigin, nSamples);
      if e.Some? {
        return Err(e.value), [];
      }
      r, placements := SampleDilutionsIntended(v);
      if r.Ok? {
        sampleDestPositions := Some(r.value);
      }
    }
  }
}
