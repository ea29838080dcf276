/**
 * The SEC-HPLC protocol of helper/SEC_HPLC.py: vials of the destination labware are reserved in a
 * fixed order (a manual vial, the blank, a second manual vial, the detectability standard when the
 * product has one, the reference material), then the samples are diluted into the next vials
 * when their concentration calls for it.
 */
module SecHplc {
  import opened Wrappers
  import opened Catalog
  import opened Allocation
  import opened Addressing
  import opened Dilution

  /**
   * The dictionary `is_sample_dilution_needed` returns: whether to dilute, the final concentration
   * (mg/mL) and the injection volume (µL).
   */
  datatype DilutionData = DilutionData(needed: bool, finalConcentration: real, injectionVolume: real)

  /**
   * `is_sample_dilution_needed` for an integer initial concentration `c` (mg/mL), as the table of
   * the method prescribes: concentrations below 2, and exactly 4, fall through to the ValueError.
   * The 2 < c < 4 row still holds placeholder values (a final concentration of 9.99 and a volume
   * of 0.2 / c).
   */
  function IsSampleDilutionNeeded(c: int): (r: Result<DilutionData>)
    ensures r.Err? <==> c < 2 || c == 4
    ensures r.Err? ==> r.error == ValueError
    ensures r.Ok? ==> (r.value.needed <==> c != 2 && c != 10)
    ensures r.Ok? && !r.value.needed ==> r.value.finalConcentration == c as real
    ensures r.Ok? && r.value.needed && c != 3 ==> r.value.finalConcentration < c as real
  {
    if c > 10 then Ok(DilutionData(true, 10.0, 20.0))
    else if c == 10 then Ok(DilutionData(false, 10.0, 20.0))
    else if 4 < c < 10 then Ok(DilutionData(true, 4.0, 50.0))
    else if 2 < c < 4 then Ok(DilutionData(true, 9.99, 0.2 / c as real))
    else if c == 2 then Ok(DilutionData(false, 2.0, 100.0))
    else Err(ValueError)
  }

  /** Every settled row of the table puts the same 200 µg on the column: concentration times volume. */
  lemma ColumnLoad(c: int)
    requires IsSampleDilutionNeeded(c).Ok? && c != 3
    ensures IsSampleDilutionNeeded(c).value.finalConcentration * IsSampleDilutionNeeded(c).value.injectionVolume == 200.0
  {
  }

  /**
   * The placeholder row asks to "dilute" a 3 mg/mL sample up to 9.99 mg/mL, and loads a
   * different amount on the column.
   */
  lemma PlaceholderRow()
    ensures var r := IsSampleDilutionNeeded(3);
      r.Ok? && r.value.needed && r.value.finalConcentration > 3.0
      && r.value.finalConcentration * r.value.injectionVolume != 200.0
  {
  }

  /** `pos_ctr_final_concentration`: the reference material is brought to 10 mg/mL. */
  const RefFinal: real := 10.0

  /** The detectability standard is diluted from the reference material down to 0.1 mg/mL. */
  const DetFinal: real := 0.1

  /** Every SEC-HPLC dilution makes 1000 µL. */
  const TotalVolume: real := 1000.0

  /**
   * `calculate_dilution_parameter(init_conc, final_conc, None, total_vol)` of helper/utils.py: the
   * sample volume `total * final / init` and the buffer volume that makes up the total. A zero
   * initial concentration divides by zero; a negative sample or buffer volume fails its assertion.
   * Volumes are real numbers.
   */
  function DilutionParameter(init: real, final: real, total: real): (r: Result<(real, real)>)
    ensures r == Err(ZeroDivisionError) <==> init == 0.0
    ensures r.Err? ==> r.error == ZeroDivisionError || r.error == AssertionError
    ensures r.Ok? ==> r.value.0 >= 0.0 && r.value.1 >= 0.0 && r.value.0 + r.value.1 == total
    ensures r.Ok? ==> r.value.0 * init == total * final
  {
    if init == 0.0 then Err(ZeroDivisionError)
    else
      var sample := total * final / init;
      if sample < 0.0 || total - sample < 0.0 then Err(AssertionError) else Ok((sample, total - sample))
  }

  /**
   * For a positive total and final concentration the volumes exist exactly when the dilution does
   * not have to concentrate: the initial concentration is at least the final one.
   */
  lemma DilutionParameterOk(init: real, final: real, total: real)
    requires total > 0.0 && final > 0.0
    ensures DilutionParameter(init, final, total).Ok? <==> init >= final
  {
    if init > 0.0 {
      var sample := total * final / init;
      assert sample * init == total * final > 0.0;
      assert (total - sample) * init == total * (init - final);
      if init >= final {
        assert total * (init - final) >= 0.0;
      } else {
        assert total * (init - final) < 0.0;
      }
    } else if init < 0.0 {
      var sample := total * final / init;
      assert sample * init == total * final > 0.0;
    }
  }

  /** `detectability_standard_dilution` dilutes 10 µL of the reference material with 990 µL of mobile phase. */
  const DetVolumes: (real, real) := (10.0, 990.0)

  lemma DetectabilityVolumes()
    ensures DilutionParameter(RefFinal, DetFinal, TotalVolume) == Ok(DetVolumes)
  {
  }

  /** The reference material's sample and buffer volumes, from `refInit` mg/mL down to 10 mg/mL. */
  function RefVolumes(refInit: int): (v: (real, real))
    requires refInit >= 10
    ensures DilutionParameter(refInit as real, RefFinal, TotalVolume) == Ok(v)
  {
    DilutionParameterOk(refInit as real, RefFinal, TotalVolume);
    DilutionParameter(refInit as real, RefFinal, TotalVolume).value
  }

  /**
   * The sample and buffer volumes of `sample_dilution` for concentration `c`: those of
   * `calculate_dilution_parameter` when dilution is needed, else 1000 µL of sample and no buffer.
   */
  function SampleVolumes(c: int, data: DilutionData): Result<(real, real)>
  {
    if data.needed then DilutionParameter(c as real, data.finalConcentration, TotalVolume) else Ok((TotalVolume, 0.0))
  }

  /**
   * Every row of the table but the placeholder yields volumes that bring 1000 µL to the final
   * concentration; the placeholder row would concentrate 3 mg/mL up to 9.99 mg/mL and fails the
   * assertion.
   */
  lemma SampleVolumesSettled(c: int)
    requires IsSampleDilutionNeeded(c).Ok?
    ensures var data := IsSampleDilutionNeeded(c).value;
      var v := SampleVolumes(c, data);
      && (v.Ok? <==> c != 3)
      && (v.Err? ==> v.error == AssertionError)
      && (v.Ok? ==> v.value.0 + v.value.1 == TotalVolume && v.value.0 * c as real == TotalVolume * data.finalConcentration)
  {
    var data := IsSampleDilutionNeeded(c).value;
    if data.needed {
      DilutionParameterOk(c as real, data.finalConcentration, TotalVolume);
    }
  }

  /** The rows `standards_transfer` writes, through `pos_ctr_dilution` and `detectability_standard_dilution`. */
  datatype Standards = Standards(blank: Transfer, refSample: Transfer, refBuffer: Transfer, detectability: seq<Transfer>)

  /** The trough of the mobile phase, the buffer of every SEC-HPLC row. */
  const MobilePhase := "100ml_1"

  function Stride(hasDet: bool): nat { if hasDet then 1 else 0 }

  /** The tables SEC-HPLC runs on: plates are named and the mobile phase sits in `MobilePhase`. */
  predicate SecTables(t: Tables)
  {
    t.PlatesNamed() && "Mobile Phase" in t.names && t.names["Mobile Phase"] == MobilePhase
  }

  lemma NewTablesServe()
    ensures SecTables(NewTables)
  {
    PlatesAreNamed();
    MobilePhaseName();
  }

  /**
   * The calls of `standards_transfer` all succeed: the destination labware has room for its
   * reservations and the reference material's labware for one more, counting both together when
   * they are the same labware.
   */
  predicate Reservable(t: Tables, used: map<string, int>, lwDest: string, origin: string, hasDet: bool)
  {
    && Countable(t, used, lwDest) && Countable(t, used, origin)
    && if origin == lwDest then used[lwDest] + 5 + Stride(hasDet) <= t.capacity[lwDest]
       else used[lwDest] + 4 + Stride(hasDet) <= t.capacity[lwDest] && used[origin] + 1 <= t.capacity[origin]
  }

  /** The vial of the blank: the second one after the counter `d`. */
  function BlankPos(d: int): int { d + 2 }

  /** The vial kept for the detectability standard: the fourth one. */
  function DetPos(d: int): int { d + 4 }

  /** The vial of the reference material: after the detectability standard, and after its own source when both share the labware. */
  function RefDestPos(used: map<string, int>, lwDest: string, origin: string, hasDet: bool): int
    requires lwDest in used
  {
    used[lwDest] + 4 + Stride(hasDet) + if origin == lwDest then 1 else 0
  }

  /** The position the reference material is taken from. */
  function RefSourcePos(used: map<string, int>, lwDest: string, origin: string, hasDet: bool): int
    requires lwDest in used && origin in used
  {
    if origin == lwDest then used[lwDest] + 4 + Stride(hasDet) else used[origin] + 1
  }

  /** The counters once `standards_transfer` succeeded. */
  function StandardsUsed(used: map<string, int>, lwDest: string, origin: string, hasDet: bool): map<string, int>
    requires lwDest in used && origin in used
  {
    if origin == lwDest then used[lwDest := RefDestPos(used, lwDest, origin, hasDet)]
    else used[lwDest := RefDestPos(used, lwDest, origin, hasDet)][origin := used[origin] + 1]
  }

  /** A row from `(source, well)` to `(dest, well)`. */
  function Row(from: (string, int), to: (string, int), volume: real): Transfer
  {
    Transfer(from.0, from.1, to.0, to.1, volume)
  }

  /** The rows written for the counters `used`, in terms of the reserved positions. */
  predicate StandardsAt(t: Tables, s: Standards, used: map<string, int>, lwDest: string, origin: string, hasDet: bool, refInit: int)
    requires SecTables(t) && Reservable(t, used, lwDest, origin, hasDet) && refInit >= 10
  {
    var refVolumes, detVolumes := RefVolumes(refInit), DetVolumes;
    var dest := t.names[lwDest];
    var d := used[lwDest];
    var refTo := DestOf(t, dest, RefDestPos(used, lwDest, origin, hasDet), 0);
    && s.blank == Row((MobilePhase, 1), DestOf(t, dest, BlankPos(d), 0), 2000.0)
    && s.refSample == Row(DestOf(t, t.names[origin], RefSourcePos(used, lwDest, origin, hasDet), 0), refTo, refVolumes.0)
    && s.refBuffer == Row((MobilePhase, 1), refTo, refVolumes.1)
    && s.detectability == if hasDet then
         [Row(refTo, DestOf(t, dest, DetPos(d), 0), detVolumes.0),
          Row((MobilePhase, 1), DestOf(t, dest, DetPos(d), 0), detVolumes.1)]
       else []
  }

  /**
   * The reservations `standards_transfer` makes before the reference material: a manual vial,
   * the blank, a second manual vial and, when there is one, the detectability standard. The
   * result holds the blank's vial and the standard's (0 without one). Each reservation can raise;
   * the counters keep the increments made before.
   */
  function VialsRun(t: Tables, used: map<string, int>, lwDest: string, hasDet: bool): (Result<(int, int)>, map<string, int>)
  {
    var (skip1, u1) := RaisingStep(t, used, lwDest);
    if skip1.Err? then (Err(skip1.error), u1) else
    var (blankPos, u2) := RaisingStep(t, u1, lwDest);
    if blankPos.Err? then (Err(blankPos.error), u2) else
    var (skip3, u3) := RaisingStep(t, u2, lwDest);
    if skip3.Err? then (Err(skip3.error), u3) else
    if !hasDet then (Ok((blankPos.value, 0)), u3) else
    var (detPos, u4) := RaisingStep(t, u3, lwDest);
    if detPos.Err? then (Err(detPos.error), u4) else (Ok((blankPos.value, detPos.value)), u4)
  }

  lemma VialsRunMeaning(t: Tables, used: map<string, int>, lwDest: string, hasDet: bool)
    ensures var (r, after) := VialsRun(t, used, lwDest, hasDet);
      && (r.Ok? <==> Countable(t, used, lwDest) && used[lwDest] + 3 + Stride(hasDet) <= t.capacity[lwDest])
      && (r.Err? ==> r.error == ValueError || r.error == KeyError)
      && (r.Ok? ==> r.value == (BlankPos(used[lwDest]), if hasDet then DetPos(used[lwDest]) else 0))
      && (r.Ok? ==> after == used[lwDest := used[lwDest] + 3 + Stride(hasDet)])
  {
    var (skip1, u1) := RaisingStep(t, used, lwDest);
    RaisingStepCases(t, used, lwDest);
    if skip1.Err? { return; }
    var (blankPos, u2) := RaisingStep(t, u1, lwDest);
    RaisingStepCases(t, u1, lwDest);
    if blankPos.Err? { return; }
    var (skip3, u3) := RaisingStep(t, u2, lwDest);
    RaisingStepCases(t, u2, lwDest);
    if skip3.Err? || !hasDet { return; }
    RaisingStepCases(t, u3, lwDest);
  }

  /**
   * `pos_ctr_dilution` for a reference material of `refInit` mg/mL: the volumes are calculated
   * first, then the display name of the reference material's labware is looked up before its
   * source position is reserved, then one more destination vial is reserved. The result holds
   * the source position, the destination vial and the volumes.
   */
  function PosCtrRun(t: Tables, used: map<string, int>, lwDest: string, origin: string, refInit: int)
    : (Result<(int, int, (real, real))>, map<string, int>)
  {
    var volumes := DilutionParameter(refInit as real, RefFinal, TotalVolume);
    if volumes.Err? then (Err(volumes.error), used) else
    if origin !in t.names then (Err(KeyError), used) else
    var (src, u1) := RaisingStep(t, used, origin);
    if src.Err? then (Err(src.error), u1) else
    var (dst, u2) := RaisingStep(t, u1, lwDest);
    if dst.Err? then (Err(dst.error), u2) else (Ok((src.value, dst.value, volumes.value)), u2)
  }

  /**
   * `pos_ctr_dilution` succeeds exactly when the reference material is at least 10 mg/mL and
   * both labware have room. Below 10 mg/mL it raises before reserving anything: AssertionError,
   * or ZeroDivisionError at 0 mg/mL.
   */
  lemma PosCtrRunMeaning(t: Tables, used: map<string, int>, lwDest: string, origin: string, refInit: int)
    ensures var (r, after) := PosCtrRun(t, used, lwDest, origin, refInit);
      && (r.Ok? <==>
            && refInit >= 10
            && Countable(t, used, lwDest) && Countable(t, used, origin)
            && if origin == lwDest then used[lwDest] + 2 <= t.capacity[lwDest]
               else used[lwDest] + 1 <= t.capacity[lwDest] && used[origin] + 1 <= t.capacity[origin])
      && (r.Err? ==> r.error == ValueError || r.error == KeyError || r.error == AssertionError || r.error == ZeroDivisionError)
      && (refInit < 10 ==> r == Err(if refInit == 0 then ZeroDivisionError else AssertionError) && after == used)
      && (r.Ok? ==> r.value == (used[origin] + 1, used[lwDest] + 1 + (if origin == lwDest then 1 else 0), RefVolumes(refInit)))
      && (r.Ok? ==> after == used[origin := used[origin] + 1][lwDest := r.value.1])
  {
    DilutionParameterOk(refInit as real, RefFinal, TotalVolume);
    if refInit < 10 || origin !in t.names { return; }
    var (src, u1) := RaisingStep(t, used, origin);
    RaisingStepCases(t, used, origin);
    if src.Err? { return; }
    RaisingStepCases(t, u1, lwDest);
  }

  /**
   * `standards_transfer` in full: the vials, then `pos_ctr_dilution`, then the rows of the blank,
   * the reference material and the detectability standard.
   */
  function StandardsRun(t: Tables, used: map<string, int>, lwDest: string, origin: string, hasDet: bool, refInit: int)
    : (Result<Standards>, map<string, int>)
    requires SecTables(t)
  {
    var (vials, u1) := VialsRun(t, used, lwDest, hasDet);
    if vials.Err? then (Err(vials.error), u1) else
    var (ref, u2) := PosCtrRun(t, u1, lwDest, origin, refInit);
    if ref.Err? then (Err(ref.error), u2) else
    if lwDest !in t.names || origin !in t.names then (Err(KeyError), u2) else
    (Ok(StandardsRows(t, t.names[lwDest], t.names[origin], vials.value, (ref.value.0, ref.value.1), hasDet, ref.value.2, DetVolumes)), u2)
  }

  /** The rows for the blank vial and detectability vial `vials` and the reference positions `ref`. */
  function StandardsRows(t: Tables, dest: string, source: string, vials: (int, int), ref: (int, int), hasDet: bool,
                         refVolumes: (real, real), detVolumes: (real, real)): Standards
    requires t.PlatesNamed()
  {
    var refTo := DestOf(t, dest, ref.1, 0);
    var det := if hasDet then
                 [Row(refTo, DestOf(t, dest, vials.1, 0), detVolumes.0),
                  Row((MobilePhase, 1), DestOf(t, dest, vials.1, 0), detVolumes.1)]
               else [];
    Standards(Row((MobilePhase, 1), DestOf(t, dest, vials.0, 0), 2000.0),
              Row(DestOf(t, source, ref.0, 0), refTo, refVolumes.0),
              Row((MobilePhase, 1), refTo, refVolumes.1),
              det)
  }

  /**
   * `standards_transfer` succeeds exactly when the reference material is at least 10 mg/mL and
   * the labware have room for its reservations. A failure is the ValueError or KeyError of a
   * reservation or of the display-name lookup, or the AssertionError (ZeroDivisionError at
   * 0 mg/mL) of the reference material's dilution, raised once the vials are reserved.
   */
  lemma StandardsRunSucceeds(t: Tables, used: map<string, int>, lwDest: string, origin: string, hasDet: bool, refInit: int)
    requires SecTables(t)
    ensures var (r, after) := StandardsRun(t, used, lwDest, origin, hasDet, refInit);
      && (r.Ok? <==> refInit >= 10 && Reservable(t, used, lwDest, origin, hasDet))
      && (r.Err? ==> r.error == ValueError || r.error == KeyError || r.error == AssertionError || r.error == ZeroDivisionError)
      && (refInit < 10 && Countable(t, used, lwDest) && used[lwDest] + 3 + Stride(hasDet) <= t.capacity[lwDest] ==>
            r == Err(if refInit == 0 then ZeroDivisionError else AssertionError)
            && after == used[lwDest := used[lwDest] + 3 + Stride(hasDet)])
  {
    var (vials, u1) := VialsRun(t, used, lwDest, hasDet);
    VialsRunMeaning(t, used, lwDest, hasDet);
    if vials.Err? { return; }
    PosCtrRunMeaning(t, u1, lwDest, origin, refInit);
  }

  /** The vials' reservations followed by `pos_ctr_dilution`'s two leave the counters at `StandardsUsed`. */
  lemma StandardsUsedSteps(used: map<string, int>, lwDest: string, origin: string, hasDet: bool)
    requires lwDest in used && origin in used
    ensures var u1 := used[lwDest := used[lwDest] + 3 + Stride(hasDet)];
      u1[origin := u1[origin] + 1][lwDest := u1[lwDest] + 1 + if origin == lwDest then 1 else 0]
        == StandardsUsed(used, lwDest, origin, hasDet)
  {
  }

  /** After a successful `standards_transfer` the counters stand at `StandardsUsed`. */
  lemma StandardsRunCounters(t: Tables, used: map<string, int>, lwDest: string, origin: string, hasDet: bool, refInit: int)
    requires SecTables(t) && Reservable(t, used, lwDest, origin, hasDet) && refInit >= 10
    ensures StandardsRun(t, used, lwDest, origin, hasDet, refInit).1 == StandardsUsed(used, lwDest, origin, hasDet)
  {
    var (vials, u1) := VialsRun(t, used, lwDest, hasDet);
    assert vials.Ok? && u1 == used[lwDest := used[lwDest] + 3 + Stride(hasDet)] by {
      VialsRunMeaning(t, used, lwDest, hasDet);
    }
    var (ref, u2) := PosCtrRun(t, u1, lwDest, origin, refInit);
    assert ref.Ok? && u2 == u1[origin := u1[origin] + 1][lwDest := u1[lwDest] + 1 + if origin == lwDest then 1 else 0] by {
      PosCtrRunMeaning(t, u1, lwDest, origin, refInit);
    }
    StandardsUsedSteps(used, lwDest, origin, hasDet);
  }

  /** A successful `standards_transfer` writes the rows of `StandardsAt`. */
  lemma StandardsRunRows(t: Tables, used: map<string, int>, lwDest: string, origin: string, hasDet: bool, refInit: int)
    requires SecTables(t) && Reservable(t, used, lwDest, origin, hasDet) && refInit >= 10
    ensures var r := StandardsRun(t, used, lwDest, origin, hasDet, refInit).0;
      r.Ok? && StandardsAt(t, r.value, used, lwDest, origin, hasDet, refInit)
  {
    var (vials, u1) := VialsRun(t, used, lwDest, hasDet);
    VialsRunMeaning(t, used, lwDest, hasDet);
    var (ref, u2) := PosCtrRun(t, u1, lwDest, origin, refInit);
    PosCtrRunMeaning(t, u1, lwDest, origin, refInit);
    assert ref.value == (RefSourcePos(used, lwDest, origin, hasDet), RefDestPos(used, lwDest, origin, hasDet), RefVolumes(refInit));
  }

  /** Different positions of one labware are different destinations, plate or rack. */
  lemma DestOfInjective(tables: Tables, lw: string, a: int, b: int)
    requires tables.PlatesNamed()
    ensures DestOf(tables, lw, a, 0) == DestOf(tables, lw, b, 0) <==> a == b
  {
    Pos2StrInjective(lw, a, b);
  }

  /**
   * The reservation order: the blank, the detectability standard and the reference material go
   * to three different vials, the first and third vials after the counter get no row (they are
   * filled by hand), and the reference material comes after all the others.
   */
  lemma ReservationOrder(t: Tables, used: map<string, int>, lwDest: string, origin: string, hasDet: bool, p: int)
    requires Reservable(t, used, lwDest, origin, hasDet)
    ensures var d := used[lwDest];
      && BlankPos(d) < DetPos(d) <= RefDestPos(used, lwDest, origin, hasDet)
      && (hasDet ==> DetPos(d) < RefDestPos(used, lwDest, origin, hasDet))
      && (p == d + 1 || p == d + 3 ==> p != BlankPos(d) && p != DetPos(d) && p != RefDestPos(used, lwDest, origin, hasDet))
      && RefDestPos(used, lwDest, origin, hasDet) <= t.capacity[lwDest]
  {
  }

  /** The samples' rows of `sample_dilution`. */
  datatype SampleRows = SampleRows(sampleRows: seq<Transfer>, bufferRows: seq<Transfer>, destWells: seq<int>)

  /**
   * The rows of `sample_dilution` for samples taken from positions 1..n of `origin` into the
   * vials from `start` on: a buffer row per sample only when dilution is needed, and 1000 µL of
   * undiluted sample otherwise.
   */
  predicate SampleRowsAt(t: Tables, s: SampleRows, lwDest: string, start: int, origin: string, n: nat, needed: bool, volumes: (real, real))
    requires t.PlatesNamed() && lwDest in t.names
  {
    var dest := t.names[lwDest];
    && |s.sampleRows| == n
    && (forall j :: 0 <= j < n ==>
          s.sampleRows[j] == Row(DestOf(t, origin, 1, j), DestOf(t, dest, start, j), if needed then volumes.0 else 1000.0))
    && |s.bufferRows| == (if needed then n else 0)
    && (forall j :: 0 <= j < |s.bufferRows| ==> s.bufferRows[j] == Row((MobilePhase, 1), DestOf(t, dest, start, j), volumes.1))
    && s.destWells == DilutionWells(t, dest, start, n)
  }

  /** Rows built from the label and well lists of `dilution_position_def` are the rows of `SampleRowsAt`. */
  lemma RowsFromLists(t: Tables, s: SampleRows, lwDest: string, start: int, origin: string, n: nat, needed: bool, volumes: (real, real))
    requires t.PlatesNamed() && lwDest in t.names
    requires var labDest, destWell := DilutionLabels(t, t.names[lwDest], start, n), DilutionWells(t, t.names[lwDest], start, n);
      && |s.sampleRows| == n && s.destWells == destWell
      && (forall k :: 0 <= k < n ==>
            s.sampleRows[k] == Transfer(DilutionLabels(t, origin, 1, n)[k], DilutionWells(t, origin, 1, n)[k], labDest[k], destWell[k],
                                        if needed then volumes.0 else 1000.0))
      && |s.bufferRows| == (if needed then n else 0)
      && (forall k :: 0 <= k < |s.bufferRows| ==> s.bufferRows[k] == Transfer(MobilePhase, 1, labDest[k], destWell[k], volumes.1))
    ensures SampleRowsAt(t, s, lwDest, start, origin, n, needed, volumes)
  {
    forall k | 0 <= k < n
      ensures DestOf(t, t.names[lwDest], start, k) == (DilutionLabels(t, t.names[lwDest], start, n)[k], DilutionWells(t, t.names[lwDest], start, n)[k])
      ensures DestOf(t, origin, 1, k) == (DilutionLabels(t, origin, 1, n)[k], DilutionWells(t, origin, 1, n)[k])
    {
      DestOfLists(t, t.names[lwDest], start, n, k);
      DestOfLists(t, origin, 1, n, k);
    }
  }

  /** The buffer rows of a dilution fill exactly the sample rows' destinations. */
  lemma BufferMatchesSamples(t: Tables, s: SampleRows, lwDest: string, start: int, origin: string, n: nat, volumes: (real, real), j: int)
    requires t.PlatesNamed() && lwDest in t.names && SampleRowsAt(t, s, lwDest, start, origin, n, true, volumes) && 0 <= j < n
    ensures BufferFor(s.sampleRows[j], s.bufferRows[j], MobilePhase)
  {
  }

  /** The buffer loop of `sample_dilution`: one row from the buffer trough to each destination. */
  method BufferRows(buffer: string, labDest: seq<string>, destWell: seq<int>, volume: real) returns (rows: seq<Transfer>)
    requires |labDest| == |destWell|
    ensures |rows| == |labDest|
    ensures forall k :: 0 <= k < |rows| ==> rows[k] == Transfer(buffer, 1, labDest[k], destWell[k], volume)
  {
    rows := [];
    for j := 0 to |labDest|
      invariant |rows| == j
      invariant forall k :: 0 <= k < j ==> rows[k] == Transfer(buffer, 1, labDest[k], destWell[k], volume)
    {
      rows := rows + [Transfer(buffer, 1, labDest[j], destWell[j], volume)];
    }
  }

  /**
   * `sample_dilution` for concentration `c` and the decision `data`: the display name of the
   * destination is looked up and one destination vial is reserved, then the volumes are
   * calculated, then the origin's counter advances once per sample.
   */
  function SampleRun(t: Tables, used: map<string, int>, lwDest: string, origin: string, n: nat, c: int, data: DilutionData)
    : (Option<PyError>, map<string, int>)
  {
    if lwDest !in t.names then (Some(KeyError), used) else
    var (first, u1) := RaisingStep(t, used, lwDest);
    if first.Err? then (Some(first.error), u1) else
    var volumes := SampleVolumes(c, data);
    if volumes.Err? then (Some(volumes.error), u1) else RaisingCounted(t, u1, origin, n)
  }

  /**
   * The placeholder row fails `sample_dilution` once the first vial is reserved: 3 mg/mL cannot
   * be diluted to 9.99 mg/mL.
   */
  lemma PlaceholderSampleRaises(t: Tables, used: map<string, int>, lwDest: string, origin: string, n: nat)
    requires lwDest in t.names && Countable(t, used, lwDest) && used[lwDest] + 1 <= t.capacity[lwDest]
    ensures SampleRun(t, used, lwDest, origin, n, 3, IsSampleDilutionNeeded(3).value)
         == (Some(AssertionError), used[lwDest := used[lwDest] + 1])
  {
    RaisingStepCases(t, used, lwDest);
    SampleVolumesSettled(3);
  }

  /**
   * `sec_HPLC` from counters `used`: the reset, the count of the samples' positions, the
   * standards, the dilution decision for concentration `c` and the samples. Its result is the
   * number of CSV files written: the blank, the reference material and the sample steps, two
   * for a detectability standard.
   */
  function SecRun(t: Tables, used: map<string, int>, n: int, origin: string, lwDest: string, posCtrOrigin: string,
                  c: int, hasDet: bool, refInit: int): (Result<int>, map<string, int>)
    requires SecTables(t)
  {
    var zero := Zeros(used.Keys);
    var (e0, u0) := if origin in t.names then RaisingCounted(t, zero, t.names[origin], Times(n)) else (None, zero);
    if e0.Some? then (Err(e0.value), u0) else
    var (s, u1) := StandardsRun(t, u0, lwDest, posCtrOrigin, hasDet, refInit);
    if s.Err? then (Err(s.error), u1) else
    var data := IsSampleDilutionNeeded(c);
    if data.Err? then (Err(data.error), u1) else
    var (e2, u2) := SampleRun(t, u1, lwDest, origin, Times(n), c, data.value);
    if e2.Some? then (Err(e2.value), u2) else (Ok(5 + 2 * Stride(hasDet)), u2)
  }

  /**
   * A run never succeeds for a 3 mg/mL sample (the placeholder row) nor for a reference material
   * below 10 mg/mL, the default 1 mg/mL included: one of the dilutions would have to concentrate.
   */
  lemma SecRunFails(t: Tables, used: map<string, int>, n: int, origin: string, lwDest: string, posCtrOrigin: string,
                    c: int, hasDet: bool, refInit: int)
    requires SecTables(t) && (c == 3 || refInit < 10)
    ensures SecRun(t, used, n, origin, lwDest, posCtrOrigin, c, hasDet, refInit).0.Err?
  {
    var zero := Zeros(used.Keys);
    var (e0, u0) := if origin in t.names then RaisingCounted(t, zero, t.names[origin], Times(n)) else (None, zero);
    if e0.Some? { return; }
    StandardsRunSucceeds(t, u0, lwDest, posCtrOrigin, hasDet, refInit);
    var (s, u1) := StandardsRun(t, u0, lwDest, posCtrOrigin, hasDet, refInit);
    if s.Err? { return; }
    SampleVolumesSettled(3);
  }

  /** `sec_HPLCMethod`: its raising labware counters and the number of the next CSV file. */
  class SecHplcMethod {
    const counters: RaisingCounters
    var csvNumber: int

    constructor ()
      ensures fresh(counters) && counters.tables == NewTables && counters.used == Zeros(NewNames.Keys)
      ensures csvNumber == 1
    {
      counters := new RaisingCounters(NewTables);
      csvNumber := 1;
    }

    /** The reset at the start of `sec_HPLC` and of `set_all_parameters`. */
    method Reset()
      modifies this, counters
      ensures counters.used == Zeros(old(counters.used).Keys) && csvNumber == 1
    {
      counters.Reset();
      csvNumber := 1;
    }

    /**
     * `standards_transfer` with `pos_ctr_dilution` and `detectability_standard_dilution`, for a
     * reference material of `refInit` mg/mL.
     */
    method StandardsTransfer(lwDest: string, origin: string, hasDet: bool, refInit: int)
      returns (r: Result<Standards>)
      requires SecTables(counters.tables)
      modifies this, counters
      ensures (r, counters.used) == StandardsRun(counters.tables, old(counters.used), lwDest, origin, hasDet, refInit)
      ensures csvNumber == if r.Ok? then old(csvNumber) + 3 + 2 * Stride(hasDet) else old(csvNumber)
    {
      var t := counters.tables;
      var skip1 := counters.NextLabwarePos(lwDest);
      if skip1.Err? {
        return Err(skip1.error);
      }
      var blankPos := counters.NextLabwarePos(lwDest);
      if blankPos.Err? {
        return Err(blankPos.error);
      }
      var blank := Row((t.names["Mobile Phase"], 1), DestOf(t, t.names[lwDest], blankPos.value, 0), 2000.0);
      var skip3 := counters.NextLabwarePos(lwDest);
      if skip3.Err? {
        return Err(skip3.error);
      }
      var detPos := 0;
      if hasDet {
        var p := counters.NextLabwarePos(lwDest);
        if p.Err? {
          return Err(p.error);
        }
        detPos := p.value;
      }
      // pos_ctr_dilution
      var refVolumes := DilutionParameter(refInit as real, RefFinal, TotalVolume);
      if refVolumes.Err? {
        return Err(refVolumes.error);
      }
      if origin !in t.names {
        return Err(KeyError);
      }
      var src := counters.NextLabwarePos(origin);
      if src.Err? {
        return Err(src.error);
      }
      var dst := counters.NextLabwarePos(lwDest);
      if dst.Err? {
        return Err(dst.error);
      }
      var refTo := DestOf(t, t.names[lwDest], dst.value, 0);
      var refSample := Row(DestOf(t, t.names[origin], src.value, 0), refTo, refVolumes.value.0);
      var refBuffer := Row((t.names["Mobile Phase"], 1), refTo, refVolumes.value.1);
      csvNumber := csvNumber + 2;
      // detectability_standard_dilution
      var det := [];
      if hasDet {
        var detVolumes := DilutionParameter(RefFinal, DetFinal, TotalVolume);
        DetectabilityVolumes();
        var to := DestOf(t, t.names[lwDest], detPos, 0);
        det := [Row(refTo, to, detVolumes.value.0), Row((t.names["Mobile Phase"], 1), to, detVolumes.value.1)];
        csvNumber := csvNumber + 2;
      }
      csvNumber := csvNumber + 1;
      r := Ok(Standards(blank, refSample, refBuffer, det));
    }

    /** The sample loop of `sample_dilution`: one row per sample, each followed by a draw from the origin. */
    method DrawSampleRows(origin: string, n: nat, labSource: seq<string>, sourceWell: seq<int>,
                          labDest: seq<string>, destWell: seq<int>, volume: real)
      returns (r: Result<seq<Transfer>>)
      requires |labSource| >= n && |sourceWell| >= n && |labDest| >= n && |destWell| >= n
      modifies counters
      ensures var (err, after) := RaisingCounted(counters.tables, old(counters.used), origin, n);
        counters.used == after && (r.Ok? <==> err.None?) && (r.Err? ==> r.error == err.value)
      ensures r.Ok? ==> |r.value| == n
      ensures r.Ok? ==> forall k :: 0 <= k < n ==> r.value[k] == Transfer(labSource[k], sourceWell[k], labDest[k], destWell[k], volume)
    {
      var t := counters.tables;
      var rows := [];
      for j := 0 to n
        invariant |rows| == j
        invariant forall k :: 0 <= k < j ==> rows[k] == Transfer(labSource[k], sourceWell[k], labDest[k], destWell[k], volume)
        invariant RaisingCounted(t, old(counters.used), origin, n) == RaisingCounted(t, counters.used, origin, n - j)
      {
        rows := rows + [Transfer(labSource[j], sourceWell[j], labDest[j], destWell[j], volume)];
        var step := counters.NextLabwarePos(origin);
        if step.Err? {
          assert RaisingCounted(t, old(counters.used), origin, n) == (Some(step.error), counters.used);
          return Err(step.error);
        }
      }
      assert RaisingCounted(t, old(counters.used), origin, n) == (None, counters.used);
      r := Ok(rows);
    }

    /**
     * `sample_dilution` for concentration `c` and the decision `data`: one reservation of the
     * destination labware gives the first vial of a run of `n`; then the volumes are calculated;
     * the samples come from positions 1..n of their labware, whose counter advances once per
     * sample row.
     */
    method SampleDilution(lwDest: string, origin: string, n: nat, c: int, data: DilutionData)
      returns (r: Result<SampleRows>)
      requires SecTables(counters.tables)
      modifies this, counters
      ensures lwDest !in counters.tables.names ==>
        r == Err(KeyError) && counters.used == old(counters.used) && csvNumber == old(csvNumber)
      ensures lwDest in counters.tables.names ==>
        var (first, used1) := RaisingStep(counters.tables, old(counters.used), lwDest);
        if first.Err? then r == Err(first.error) && counters.used == used1 && csvNumber == old(csvNumber)
        else if SampleVolumes(c, data).Err? then
          r == Err(SampleVolumes(c, data).error) && counters.used == used1 && csvNumber == old(csvNumber)
        else
          var (err, after) := RaisingCounted(counters.tables, used1, origin, n);
          && counters.used == after
          && (r.Ok? <==> err.None?)
          && (r.Err? ==> r.error == err.value && csvNumber == old(csvNumber))
          && (r.Ok? ==> SampleRowsAt(counters.tables, r.value, lwDest, first.value, origin, n, data.needed, SampleVolumes(c, data).value))
          && (r.Ok? ==> csvNumber == old(csvNumber) + 2)
      ensures var (err, after) := SampleRun(counters.tables, old(counters.used), lwDest, origin, n, c, data);
        counters.used == after && (r.Ok? <==> err.None?) && (r.Err? ==> r.error == err.value)
    {
      var t := counters.tables;
      if lwDest !in t.names {
        return Err(KeyError);
      }
      var first := counters.NextLabwarePos(lwDest);
      if first.Err? {
        return Err(first.error);
      }
      ghost var used1 := counters.used;
      var labDest, destWell := DilutionPositionDef(t, t.names[lwDest], first.value, n);
      var volumes := SampleVolumes(c, data);
      if volumes.Err? {
        return Err(volumes.error);
      }
      var bufferRows := [];
      if data.needed {
        bufferRows := BufferRows(t.names["Mobile Phase"], labDest, destWell, volumes.value.1);
      }
      var labSource, sourceWell := DilutionPositionDef(t, origin, 1, n);
      var volume := if data.needed then volumes.value.0 else 1000.0;
      var sampleRows := DrawSampleRows(origin, n, labSource, sourceWell, labDest, destWell, volume);
      if sampleRows.Err? {
        return Err(sampleRows.error);
      }
      csvNumber := csvNumber + 2;
      r := Ok(SampleRows(sampleRows.value, bufferRows, destWell));
      RowsFromLists(t, r.value, lwDest, first.value, origin, n, data.needed, volumes.value);
    }

    /**
     * `sec_HPLC`: the reset, the count of the samples' own positions, the standards, the decision
     * and the samples' dilution. The result is the `n_steps` the configuration file records: one
     * less than the next CSV number, which is the number of CSV files written.
     */
    method Run(n: int, origin: string, lwDest: string, posCtrOrigin: string, c: int, hasDet: bool, refInit: int)
      returns (r: Result<int>)
      requires SecTables(counters.tables)
      modifies this, counters
      ensures (r, counters.used) == SecRun(counters.tables, old(counters.used), n, origin, lwDest, posCtrOrigin, c, hasDet, refInit)
      ensures IsSampleDilutionNeeded(c).Err? || c == 3 || refInit < 10 ==> r.Err?
      ensures r.Ok? ==> r.value == csvNumber - 1 == 5 + 2 * Stride(hasDet)
    {
      ghost var spec := SecRun(counters.tables, counters.used, n, origin, lwDest, posCtrOrigin, c, hasDet, refInit);
      if c == 3 || refInit < 10 {
        SecRunFails(counters.tables, counters.used, n, origin, lwDest, posCtrOrigin, c, hasDet, refInit);
      }
      Reset();
      var err := counters.CountStartingLwPos(origin, n);
      if err.Some? {
        return Err(err.value);
      }
      ghost var u0 := counters.used;
      var standards := StandardsTransfer(lwDest, posCtrOrigin, hasDet, refInit);
      if standards.Err? {
        return Err(standards.error);
      }
      ghost var u1 := counters.used;
      assert StandardsRun(counters.tables, u0, lwDest, posCtrOrigin, hasDet, refInit) == (standards, u1);
      var data := IsSampleDilutionNeeded(c);
      if data.Err? {
        assert spec == (Err(data.error), u1);
        return Err(data.error);
      }
      var rows := SampleDilution(lwDest, origin, Times(n), c, data.value);
      ghost var (e2, u2) := SampleRun(counters.tables, u1, lwDest, origin, Times(n), c, data.value);
      assert u2 == counters.used && (rows.Err? <==> e2.Some?) && (rows.Err? ==> rows.error == e2.value);
      assert spec == (if e2.Some? then Err(e2.value) else Ok(5 + 2 * Stride(hasDet)), u2);
      if rows.Err? {
        return Err(rows.error);
      }
      r := Ok(csvNumber - 1);
    }
  }
}
