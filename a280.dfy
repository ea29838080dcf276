/**
 * The A280 protocol of A280.py: when the sample concentration reaches the limit, every sample
 * is first diluted into an Eppendorf tube together with buffer, and then every sample (diluted
 * or not) is moved into the soloVPE cuvette rack. The module reads the older tables of utils.py
 * and keeps its own sentinel counters; under those tables the cuvette rack is no plate, so its
 * positions are rack labels.
 */
module A280 {
  import opened Wrappers
  import opened Catalog
  import opened Addressing
  import opened Allocation
  import opened Dilution
  import TextTools
  import VolumeTransfer

  const Cuvettes := "soloVPE cuvettes"
  /** µL of sample and of buffer per Eppendorf tube, and µL moved into each cuvette. */
  const SampleVolume := 125.0
  const BufferVolume := 375.0
  const CuvetteVolume := 100.0

  /** `find_best_container` over the older volume table (volumes in mL). */
  function BestContainer(volume: real): string
  {
    TextTools.ContainerName(OldVolumes, TextTools.BestIn(OldVolumes, volume, |OldVolumes|))
  }

  /** The container the buffer label names: the total buffer volume, converted to mL. */
  function BufferLabware(n: int): string
  {
    BestContainer((375 * n) as real / 1000.0)
  }

  /** The name whose counter the buffer step advances as written: the total buffer volume left in µL. */
  function BufferRequestAsWritten(n: int): string
  {
    BestContainer((375 * n) as real)
  }

  /** Entry `j` of the sources into entry `j` of the destinations, one row per entry. */
  function Pairwise(sl: seq<string>, sw: seq<int>, dl: seq<string>, dw: seq<int>, volume: real): seq<Transfer>
    requires |sl| == |sw| == |dl| == |dw|
  {
    seq(|sl|, j requires 0 <= j < |sl| => Transfer(sl[j], sw[j], dl[j], dw[j], volume))
  }

  /** The two CSV files of `sample_dilution`, the buffer's place and the returned `DestWell`. */
  datatype Diluted = Diluted(sampleRows: seq<Transfer>, bufferRows: seq<Transfer>, buffer: (string, int), destWells: seq<int>)

  /**
   * `sample_dilution` from counters `u`, with the buffer's position taken from the counter of
   * `request`: the buffer sits at that position of `bufferLw` (-1 when the request is
   * no countable labware), sample `j` moves from origin container `j + 1` into the `j`-th next
   * Eppendorf tube, and one buffer aliquot follows it there. A full buffer labware returns
   * None, and the position arithmetic on it raises TypeError.
   */
  function SampleDilutionWith(t: Tables, u: map<string, int>, origin: string, n: int, request: string, bufferLw: string): (r: Result<(Diluted, map<string, int>)>)
    requires A280Tables(t) && "Eppendorf" in u
    ensures r.Ok? ==> r.value.1.Keys == u.Keys
  {
    SentinelStepCases(t, u, request);
    var (reply, u1) := SentinelStep(t, u, request);
    if reply.NoneReturned? then Err(TypeError)
    else
      var pos := if reply.Position? then reply.pos else -1;
      SentinelCountedValue(t, u1, "Eppendorf", Times(n));
      Ok((DilutedAt(t, u1["Eppendorf"], origin, n, bufferLw, pos), SentinelCounted(t, u1, "Eppendorf", Times(n))))
  }

  /**
   * The rows of `sample_dilution` once the buffer sits at `pos` of `bufferLw` and the Eppendorf
   * counter stands at `e`: sample `j` and the buffer both go into tube `e + 1 + j`.
   */
  function DilutedAt(t: Tables, e: int, origin: string, n: int, bufferLw: string, pos: int): Diluted
    requires t.PlatesNamed()
  {
    var bl, bw := DilutionLabels(t, bufferLw, pos, 1)[0], DilutionWells(t, bufferLw, pos, 1)[0];
    var sl, sw := DilutionLabels(t, origin, 1, n), DilutionWells(t, origin, 1, n);
    var dl, dw := DilutionLabels(t, "Eppendorf", e + 1, n), DilutionWells(t, "Eppendorf", e + 1, n);
    Diluted(Pairwise(sl, sw, dl, dw, SampleVolume), VolumeTransfer.Block(bl, bw, dl, dw, BufferVolume), (bl, bw), dw)
  }

  /** `sample_dilution` as written: the buffer position is requested for the µL volume. */
  function SampleDilutionAsWritten(t: Tables, u: map<string, int>, origin: string, n: int): Result<(Diluted, map<string, int>)>
    requires A280Tables(t) && "Eppendorf" in u
  {
    SampleDilutionWith(t, u, origin, n, BufferRequestAsWritten(n), BufferLabware(n))
  }

  /** `sample_dilution` as its commented-out predecessor intends: the buffer's own labware is counted. */
  function SampleDilutionIntended(t: Tables, u: map<string, int>, origin: string, n: int): Result<(Diluted, map<string, int>)>
    requires A280Tables(t) && "Eppendorf" in u
  {
    SampleDilutionWith(t, u, origin, n, BufferLabware(n), BufferLabware(n))
  }

  /** The CSV file of `sample_transfer`, the origin it leaves set and the returned `DestWell`. */
  datatype Moved = Moved(origin: string, rows: seq<Transfer>, destWells: seq<int>)

  /**
   * `sample_transfer` from counters `u`: a diluted run reads the last `n` Eppendorf tubes
   * counted and sets the origin to "Eppendorf"; otherwise the origin containers 1..n are read.
   * Sample `j` goes to cuvette `j + 1`, and the origin's counter is advanced once per sample.
   */
  function SampleTransferFrom(t: Tables, u: map<string, int>, origin: string, n: int, concentration: real, limit: real): (Moved, map<string, int>)
    requires A280Tables(t) && "Eppendorf" in u
  {
    var diluted := concentration >= limit;
    var o := if diluted then "Eppendorf" else origin;
    var start := if diluted then u["Eppendorf"] - (n - 1) else 1;
    var sl, sw := DilutionLabels(t, o, start, n), DilutionWells(t, o, start, n);
    var dl, dw := DilutionLabels(t, Cuvettes, 1, n), DilutionWells(t, Cuvettes, 1, n);
    (Moved(o, Pairwise(sl, sw, dl, dw, CuvetteVolume), dw), SentinelCounted(t, u, o, Times(n)))
  }

  /** The CSV files of one `a280` run: the dilution when there is one, then the transfer. */
  datatype Run = Run(dilution: Option<Diluted>, transfer: Moved)

  /**
   * `a280` from counters `u`: count the origin's positions, dilute when the concentration
   * reaches the limit, then transfer.
   */
  function A280From(t: Tables, u: map<string, int>, origin: string, n: int, concentration: real, limit: real): Result<(Run, map<string, int>)>
    requires A280Tables(t) && u.Keys == t.names.Keys
  {
    DisplayNames();
    var u1 := StartCountAsWritten(t, u, origin, n);
    if concentration >= limit then
      var d := SampleDilutionAsWritten(t, u1, origin, n);
      if d.Err? then Err(d.error)
      else
        var (m, u3) := SampleTransferFrom(t, d.value.1, origin, n, concentration, limit);
        Ok((Run(Some(d.value.0), m), u3))
    else
      var (m, u3) := SampleTransferFrom(t, u1, origin, n, concentration, limit);
      Ok((Run(None, m), u3))
  }

  // ---------------------------------------------------------------------------------------------
  // Properties
  // ---------------------------------------------------------------------------------------------

  /**
   * What the protocol needs of its tables: the plates are named, the Eppendorf rack is a counted
   * labware of 48 tubes, "VOLUME TOO BIG" is no labware,
   * and neither the cuvette rack nor any container of the volume table is a plate.
   */
  predicate A280Tables(t: Tables)
  {
    && t.PlatesNamed()
    && "Eppendorf" in t.names && "Eppendorf" in t.capacity && t.capacity["Eppendorf"] == 48
    && "Eppendorf" !in t.plates && Cuvettes !in t.plates && "VOLUME TOO BIG" !in t.names
    && forall c :: c in Containers ==> c !in t.plates
  }

  /** What `find_best_container` can return over the volume table of utils.py. */
  const Containers := {"Eppendorf", "Falcon15", "100mL_reservoir", "VOLUME TOO BIG"}

  /** The older tables serve; no key of them starts with 'V', so "VOLUME TOO BIG" is none of them. */
  lemma OldTablesServe()
    ensures A280Tables(OldTables)
  {
    OldNamesServe();
    OldPlatesServe();
  }

  /** The older names know the Eppendorf rack and its 48 tubes, and no "VOLUME TOO BIG". */
  lemma OldNamesServe()
    ensures "Eppendorf" in OldNames && "Eppendorf" in OldCapacity && OldCapacity["Eppendorf"] == 48
    ensures "VOLUME TOO BIG" !in OldNames
  {
    DisplayNames();
    forall k | k in OldNames
      ensures k != "VOLUME TOO BIG"
    {
      assert k[0] != 'V';
    }
  }

  /** The older plates are named, and neither the racks, the cuvettes nor the containers are plates. */
  lemma OldPlatesServe()
    ensures OldTables.PlatesNamed()
    ensures "Eppendorf" !in OldTables.plates && Cuvettes !in OldTables.plates
    ensures forall c :: c in Containers ==> c !in OldTables.plates
  {
  }

  /**
   * A dilution fails only when the buffer labware is full; otherwise it writes one sample row
   * and one buffer row per sample, and the Eppendorf counter advances by one per sample up to
   * the 48 tubes, no other counter changing.
   */
  lemma DilutionOutcome(t: Tables, u: map<string, int>, origin: string, n: int, request: string, bufferLw: string)
    requires A280Tables(t) && u.Keys == t.names.Keys
    ensures var (reply, u1) := SentinelStep(t, u, request);
      var r := SampleDilutionWith(t, u, origin, n, request, bufferLw);
      && (r.Err? <==> reply.NoneReturned?)
      && (r.Ok? ==>
        && |r.value.0.sampleRows| == |r.value.0.bufferRows| == |r.value.0.destWells| == Times(n)
        && r.value.1.Keys == u.Keys
        && r.value.1["Eppendorf"] == (if u1["Eppendorf"] >= 48 then u1["Eppendorf"] else Min(u1["Eppendorf"] + Times(n), 48))
        && forall k :: k in u && k != "Eppendorf" && k != request ==> r.value.1[k] == u[k])
  {
    SentinelStepCases(t, u, request);
    var u1 := SentinelStep(t, u, request).1;
    SentinelCountedValue(t, u1, "Eppendorf", Times(n));
  }

  /**
   * Sample row `j` and buffer row `j` of a dilution fill the same Eppendorf tube, the `j`-th
   * after the counter, with 125 µL of sample from origin container `j + 1` and 375 µL of buffer
   * from the buffer's place.
   */
  lemma DilutionRow(t: Tables, u: map<string, int>, origin: string, n: int, request: string, bufferLw: string, j: int)
    requires A280Tables(t) && u.Keys == t.names.Keys && SampleDilutionWith(t, u, origin, n, request, bufferLw).Ok? && 0 <= j < Times(n)
    ensures var u1 := SentinelStep(t, u, request).1;
      var d := SampleDilutionWith(t, u, origin, n, request, bufferLw).value.0;
      && |d.sampleRows| == |d.bufferRows| == |d.destWells| == Times(n)
      && d.sampleRows[j].source == DilutionLabels(t, origin, 1, n)[j]
      && d.sampleRows[j].sourceWell == DilutionWells(t, origin, 1, n)[j]
      && d.sampleRows[j].dest == d.bufferRows[j].dest == Pos2Str("Eppendorf", u1["Eppendorf"] + 1 + j)
      && d.sampleRows[j].destWell == d.bufferRows[j].destWell == d.destWells[j] == 1
      && (d.bufferRows[j].source, d.bufferRows[j].sourceWell) == d.buffer
      && d.sampleRows[j].volume == SampleVolume && d.bufferRows[j].volume == BufferVolume
  {
    var (reply, u1) := SentinelStep(t, u, request);
    DilutionFromStep(t, u, origin, n, request, bufferLw, reply, u1);
    DilutedRow(t, u1["Eppendorf"], origin, n, bufferLw, if reply.Position? then reply.pos else -1, j);
  }

  /** Row `j` of `DilutedAt`; see `DilutionRow`. */
  lemma DilutedRow(t: Tables, e: int, origin: string, n: int, bufferLw: string, pos: int, j: int)
    requires t.PlatesNamed() && "Eppendorf" !in t.plates && 0 <= j < Times(n)
    ensures var d := DilutedAt(t, e, origin, n, bufferLw, pos);
      && |d.sampleRows| == |d.bufferRows| == |d.destWells| == Times(n)
      && d.sampleRows[j].source == DilutionLabels(t, origin, 1, n)[j]
      && d.sampleRows[j].sourceWell == DilutionWells(t, origin, 1, n)[j]
      && d.sampleRows[j].dest == d.bufferRows[j].dest == Pos2Str("Eppendorf", e + 1 + j)
      && d.sampleRows[j].destWell == d.bufferRows[j].destWell == d.destWells[j] == 1
      && (d.bufferRows[j].source, d.bufferRows[j].sourceWell) == d.buffer
      && d.sampleRows[j].volume == SampleVolume && d.bufferRows[j].volume == BufferVolume
  {
    var dl := DilutionLabels(t, "Eppendorf", e + 1, n);
    assert dl[j] == Pos2Str("Eppendorf", e + 1 + j);
  }

  /** Sample row `j` of a dilution goes into the `j`-th Eppendorf tube after the counter. */
  lemma DilutionDest(t: Tables, u: map<string, int>, origin: string, n: int, request: string, bufferLw: string, j: int)
    requires A280Tables(t) && u.Keys == t.names.Keys && SampleDilutionWith(t, u, origin, n, request, bufferLw).Ok? && 0 <= j < Times(n)
    ensures var d := SampleDilutionWith(t, u, origin, n, request, bufferLw).value.0;
      && |d.sampleRows| == Times(n)
      && d.sampleRows[j].dest == Pos2Str("Eppendorf", SentinelStep(t, u, request).1["Eppendorf"] + 1 + j)
      && d.sampleRows[j].destWell == 1
  {
    var u1 := SentinelStep(t, u, request).1;
    var dl, dw := DilutionLabels(t, "Eppendorf", u1["Eppendorf"] + 1, n), DilutionWells(t, "Eppendorf", u1["Eppendorf"] + 1, n);
    DilutionShape(t, u, origin, n, request, bufferLw);
    assert dl[j] == Pos2Str("Eppendorf", u1["Eppendorf"] + 1 + j);
  }

  /** The rows of a successful dilution, spelled out over the runs they pair up. */
  lemma DilutionShape(t: Tables, u: map<string, int>, origin: string, n: int, request: string, bufferLw: string)
    requires A280Tables(t) && u.Keys == t.names.Keys && SampleDilutionWith(t, u, origin, n, request, bufferLw).Ok?
    ensures var u1 := SentinelStep(t, u, request).1;
      var d := SampleDilutionWith(t, u, origin, n, request, bufferLw).value.0;
      var dl, dw := DilutionLabels(t, "Eppendorf", u1["Eppendorf"] + 1, n), DilutionWells(t, "Eppendorf", u1["Eppendorf"] + 1, n);
      && "Eppendorf" in u1
      && d.sampleRows == Pairwise(DilutionLabels(t, origin, 1, n), DilutionWells(t, origin, 1, n), dl, dw, SampleVolume)
      && d.bufferRows == VolumeTransfer.Block(d.buffer.0, d.buffer.1, dl, dw, BufferVolume)
      && d.destWells == dw
  {
    SentinelStepCases(t, u, request);
  }

  /** No two samples of a dilution share an Eppendorf tube. */
  lemma DilutionTubesDistinct(t: Tables, u: map<string, int>, origin: string, n: int, request: string, bufferLw: string, i: int, j: int)
    requires A280Tables(t) && u.Keys == t.names.Keys && SampleDilutionWith(t, u, origin, n, request, bufferLw).Ok? && 0 <= i < j < Times(n)
    ensures var d := SampleDilutionWith(t, u, origin, n, request, bufferLw).value.0;
      |d.sampleRows| == Times(n) && d.sampleRows[i].dest != d.sampleRows[j].dest
  {
    DilutionRow(t, u, origin, n, request, bufferLw, i);
    DilutionRow(t, u, origin, n, request, bufferLw, j);
    var u1 := SentinelStep(t, u, request).1;
    Pos2StrInjective("Eppendorf", u1["Eppendorf"] + 1 + i, u1["Eppendorf"] + 1 + j);
  }

  /** `find_best_container` names one of the volume table's containers or "VOLUME TOO BIG". */
  lemma BestContainerNamed(volume: real)
    ensures BestContainer(volume) in Containers
  {
    var b := TextTools.BestIn(OldVolumes, volume, |OldVolumes|);
    if b.Some? {
      assert b.value == 0 || b.value == 1 || b.value == 2;
    }
  }

  /** From one sample on, the µL total fits no container (the largest holds 98 mL usable). */
  lemma BufferRequestTooBig(n: int)
    requires n >= 1
    ensures BufferRequestAsWritten(n) == "VOLUME TOO BIG"
  {
    var table, v := OldVolumes, (375 * n) as real;
    TextTools.BestInIsBest(table, v, |table|);
    assert !TextTools.Fits(table, 0, v) && !TextTools.Fits(table, 1, v) && !TextTools.Fits(table, 2, v);
  }

  /** Up to three samples, the mL total (at most 1.125 mL) fits an Eppendorf tube best. */
  lemma BufferInEppendorf(n: int)
    requires 1 <= n <= 3
    ensures BufferLabware(n) == "Eppendorf"
  {
    var table, v := OldVolumes, (375 * n) as real / 1000.0;
    assert TextTools.Fits(table, 0, v);
    assert TextTools.BestIn(table, v, 1) == Some(0);
    assert TextTools.BestIn(table, v, 2) == Some(0);
  }

  /**
   * As written, the buffer's position is requested for the total in µL, which fits no container
   * from one sample on: the reply is -1, no counter moves, and the buffer row reads position -1
   * of the labware the mL total names.
   */
  lemma BufferNotCounted(t: Tables, u: map<string, int>, origin: string, n: int)
    requires A280Tables(t) && u.Keys == t.names.Keys && n >= 1
    ensures SentinelStep(t, u, BufferRequestAsWritten(n)) == (MinusOne, u)
    ensures SampleDilutionAsWritten(t, u, origin, n).Ok?
    ensures SampleDilutionAsWritten(t, u, origin, n).value.0.buffer == (Pos2Str(BufferLabware(n), -1), 1)
  {
    BufferRequestTooBig(n);
    BestContainerNamed((375 * n) as real / 1000.0);
  }

  /**
   * Counting the buffer's own labware, as intended, puts the buffer of up to three samples into
   * the next Eppendorf tube and the samples into the tubes after it, none of them the buffer's.
   */
  lemma BufferIntended(t: Tables, u: map<string, int>, origin: string, n: int)
    requires A280Tables(t) && u.Keys == t.names.Keys && 1 <= n <= 3 && u["Eppendorf"] < 48
    ensures var r := SampleDilutionIntended(t, u, origin, n);
      && r.Ok?
      && r.value.0.buffer == (Pos2Str("Eppendorf", u["Eppendorf"] + 1), 1)
      && |r.value.0.sampleRows| == n
      && TubesAfterBuffer(r.value.0, u["Eppendorf"])
  {
    BufferInEppendorf(n);
    assert SampleDilutionIntended(t, u, origin, n) == SampleDilutionWith(t, u, origin, n, "Eppendorf", "Eppendorf");
    EppendorfBufferPlace(t, u, origin, n);
    EppendorfBufferApart(t, u, origin, n);
  }

  /**
   * A buffer counted on the Eppendorf rack takes the next tube, and the samples the tubes
   * after it.
   */
  lemma EppendorfBufferApart(t: Tables, u: map<string, int>, origin: string, n: int)
    requires A280Tables(t) && u.Keys == t.names.Keys && u["Eppendorf"] < 48
    ensures var r := SampleDilutionWith(t, u, origin, n, "Eppendorf", "Eppendorf");
      r.Ok? && TubesAfterBuffer(r.value.0, u["Eppendorf"])
  {
    EppendorfBufferPlace(t, u, origin, n);
    var d := SampleDilutionWith(t, u, origin, n, "Eppendorf", "Eppendorf").value.0;
    forall j | 0 <= j < |d.sampleRows|
      ensures d.sampleRows[j].dest == Pos2Str("Eppendorf", u["Eppendorf"] + 2 + j) != d.buffer.0
    {
      EppendorfBufferTube(t, u, origin, n, j);
    }
  }

  /** Sample `j` fills Eppendorf tube `e + 2 + j`, never the buffer's tube. */
  predicate TubesAfterBuffer(d: Diluted, e: int)
  {
    forall j :: 0 <= j < |d.sampleRows| ==> d.sampleRows[j].dest == Pos2Str("Eppendorf", e + 2 + j) != d.buffer.0
  }

  lemma EppendorfBufferPlace(t: Tables, u: map<string, int>, origin: string, n: int)
    requires A280Tables(t) && u.Keys == t.names.Keys && u["Eppendorf"] < 48
    ensures var r := SampleDilutionWith(t, u, origin, n, "Eppendorf", "Eppendorf");
      && r.Ok?
      && r.value.0.buffer == (Pos2Str("Eppendorf", u["Eppendorf"] + 1), 1)
      && |r.value.0.sampleRows| == Times(n)
  {
    var e := u["Eppendorf"];
    assert SentinelStep(t, u, "Eppendorf") == (Position(e + 1), u["Eppendorf" := e + 1]);
    DilutionOutcome(t, u, origin, n, "Eppendorf", "Eppendorf");
  }

  lemma EppendorfBufferTube(t: Tables, u: map<string, int>, origin: string, n: int, j: int)
    requires A280Tables(t) && u.Keys == t.names.Keys && u["Eppendorf"] < 48 && 0 <= j < Times(n)
    ensures var r := SampleDilutionWith(t, u, origin, n, "Eppendorf", "Eppendorf");
      && r.Ok? && |r.value.0.sampleRows| == Times(n)
      && r.value.0.sampleRows[j].dest == Pos2Str("Eppendorf", u["Eppendorf"] + 2 + j) != r.value.0.buffer.0
  {
    EppendorfBufferPlace(t, u, origin, n);
    assert SentinelStep(t, u, "Eppendorf").1["Eppendorf"] == u["Eppendorf"] + 1;
    DilutionDest(t, u, origin, n, "Eppendorf", "Eppendorf", j);
    Pos2StrInjective("Eppendorf", u["Eppendorf"] + 1, u["Eppendorf"] + 2 + j);
  }

  /** Row `j` of a transfer: from entry `j` of its source run into cuvette `j + 1`, 100 µL. */
  lemma TransferRow(t: Tables, u: map<string, int>, origin: string, n: int, concentration: real, limit: real, j: int)
    requires A280Tables(t) && "Eppendorf" in u && 0 <= j < Times(n)
    ensures var m := SampleTransferFrom(t, u, origin, n, concentration, limit).0;
      var start := if concentration >= limit then u["Eppendorf"] - (n - 1) else 1;
      && |m.rows| == |m.destWells| == Times(n)
      && m.origin == (if concentration >= limit then "Eppendorf" else origin)
      && m.rows[j].source == DilutionLabels(t, m.origin, start, n)[j]
      && m.rows[j].sourceWell == DilutionWells(t, m.origin, start, n)[j]
      && m.rows[j].dest == Pos2Str(Cuvettes, 1 + j)
      && m.rows[j].destWell == m.destWells[j] == 1
      && m.rows[j].volume == CuvetteVolume
  {
  }

  /**
   * With room in the Eppendorf rack, a diluted run's transfer reads exactly the tubes the
   * dilution filled, sample by sample, into the cuvettes 1..n, wherever the buffer was placed.
   */
  lemma TransferReadsDilutions(t: Tables, u: map<string, int>, origin: string, n: int, request: string, bufferLw: string,
                               concentration: real, limit: real)
    requires A280Tables(t) && u.Keys == t.names.Keys && concentration >= limit
    requires SampleDilutionWith(t, u, origin, n, request, bufferLw).Ok?
    requires SentinelStep(t, u, request).1["Eppendorf"] + Times(n) <= 48
    ensures var r := SampleDilutionWith(t, u, origin, n, request, bufferLw);
      var m := SampleTransferFrom(t, r.value.1, origin, n, concentration, limit).0;
      && m.origin == "Eppendorf"
      && |m.rows| == |r.value.0.sampleRows| == Times(n)
      && forall j :: 0 <= j < Times(n) ==>
           && m.rows[j].source == r.value.0.sampleRows[j].dest
           && m.rows[j].sourceWell == r.value.0.sampleRows[j].destWell
           && m.rows[j].dest == Pos2Str(Cuvettes, 1 + j)
  {
    var r := SampleDilutionWith(t, u, origin, n, request, bufferLw);
    DilutionOutcome(t, u, origin, n, request, bufferLw);
    var m := SampleTransferFrom(t, r.value.1, origin, n, concentration, limit).0;
    forall j | 0 <= j < Times(n)
      ensures m.rows[j].source == r.value.0.sampleRows[j].dest
      ensures m.rows[j].sourceWell == r.value.0.sampleRows[j].destWell
      ensures m.rows[j].dest == Pos2Str(Cuvettes, 1 + j)
    {
      TransferReadsTube(t, u, origin, n, request, bufferLw, concentration, limit, j);
    }
  }

  /** Transfer row `j` of a diluted run reads dilution tube `j`; see `TransferReadsDilutions`. */
  lemma TransferReadsTube(t: Tables, u: map<string, int>, origin: string, n: int, request: string, bufferLw: string,
                          concentration: real, limit: real, j: int)
    requires A280Tables(t) && u.Keys == t.names.Keys && concentration >= limit
    requires SampleDilutionWith(t, u, origin, n, request, bufferLw).Ok?
    requires SentinelStep(t, u, request).1["Eppendorf"] + Times(n) <= 48 && 0 <= j < Times(n)
    ensures var r := SampleDilutionWith(t, u, origin, n, request, bufferLw);
      var m := SampleTransferFrom(t, r.value.1, origin, n, concentration, limit).0;
      && |m.rows| == |r.value.0.sampleRows| == Times(n)
      && m.rows[j].source == r.value.0.sampleRows[j].dest
      && m.rows[j].sourceWell == r.value.0.sampleRows[j].destWell
      && m.rows[j].dest == Pos2Str(Cuvettes, 1 + j)
  {
    var r := SampleDilutionWith(t, u, origin, n, request, bufferLw);
    var e := SentinelStep(t, u, request).1["Eppendorf"];
    DilutionOutcome(t, u, origin, n, request, bufferLw);
    assert r.value.1["Eppendorf"] == e + n;
    DilutionDest(t, u, origin, n, request, bufferLw, j);
    TransferRow(t, r.value.1, origin, n, concentration, limit, j);
    assert DilutionLabels(t, "Eppendorf", e + 1, n)[j] == Pos2Str("Eppendorf", e + 1 + j);
  }

  /**
   * As written, from one sample on and with room for the dilutions, the transfer of a diluted
   * run reads the tubes the dilution filled.
   */
  lemma TransferReadsDilutionsAsWritten(t: Tables, u: map<string, int>, origin: string, n: int, concentration: real, limit: real)
    requires A280Tables(t) && u.Keys == t.names.Keys && n >= 1 && concentration >= limit && u["Eppendorf"] + n <= 48
    ensures var r := SampleDilutionAsWritten(t, u, origin, n);
      && r.Ok?
      && var m := SampleTransferFrom(t, r.value.1, origin, n, concentration, limit).0;
      && |m.rows| == |r.value.0.sampleRows| == n
      && forall j :: 0 <= j < n ==> m.rows[j].source == r.value.0.sampleRows[j].dest
  {
    BufferNotCounted(t, u, origin, n);
    TransferReadsDilutions(t, u, origin, n, BufferRequestAsWritten(n), BufferLabware(n), concentration, limit);
  }

  /** The dilution once the buffer call has replied `reply`: the helper that ties the method to its function. */
  lemma DilutionFromStep(t: Tables, u: map<string, int>, origin: string, n: int, request: string, bufferLw: string,
                         reply: Reply, u1: map<string, int>)
    requires A280Tables(t) && "Eppendorf" in u
    requires SentinelStep(t, u, request) == (reply, u1) && !reply.NoneReturned?
    ensures "Eppendorf" in u1
    ensures SampleDilutionWith(t, u, origin, n, request, bufferLw)
      == Ok((DilutedAt(t, u1["Eppendorf"], origin, n, bufferLw, if reply.Position? then reply.pos else -1),
             SentinelCounted(t, u1, "Eppendorf", Times(n))))
  {
    SentinelStepCases(t, u, request);
  }

  // ---------------------------------------------------------------------------------------------
  // The protocol object
  // ---------------------------------------------------------------------------------------------

  /** `A280Method`: its sentinel counters over the older tables and the protocol's parameters. */
  class A280Method {
    const counters: SentinelCounters
    var nSamples: int
    var sampleConcentration: real
    var concentrationLimit: real
    var sampleLwOrigin: string
    const sampleLwDest: string
    var sampleDilutedPositions: seq<int>
    /** `buffer_lw_pos`: unset until a dilution places the buffer. */
    var bufferLwPos: Option<(string, int)>

    /** The counters are over the older tables, one per labware name, and the cuvettes are the destination. */
    predicate Valid()
      reads this, counters
    {
      A280Tables(counters.tables) && counters.used.Keys == counters.tables.names.Keys && sampleLwDest == Cuvettes
    }

    constructor ()
      ensures Valid() && fresh(counters) && counters.tables == OldTables && counters.used == Zeros(OldNames.Keys)
      ensures nSamples == 0 && sampleConcentration == 100.0 && concentrationLimit == 100.0
      ensures sampleLwOrigin == "" && sampleDilutedPositions == [0] && bufferLwPos == None
    {
      OldTablesServe();
      counters := new SentinelCounters(OldTables);
      nSamples := 0;
      sampleConcentration := 100.0;
      concentrationLimit := 100.0;
      sampleLwOrigin := "";
      sampleLwDest := Cuvettes;
      sampleDilutedPositions := [0];
      bufferLwPos := None;
    }

    /** `set_all_parameters`: reset the counters and read the run's parameters. */
    method SetAllParameters(n: int, concentration: real, origin: string)
      requires Valid()
      modifies this, counters
      ensures Valid() && counters.used == Zeros(counters.tables.names.Keys)
      ensures nSamples == n && sampleConcentration == concentration && sampleLwOrigin == origin
      ensures concentrationLimit == old(concentrationLimit) && sampleDilutedPositions == old(sampleDilutedPositions)
      ensures bufferLwPos == old(bufferLwPos)
    {
      counters.Reset();
      nSamples := n;
      sampleConcentration := concentration;
      sampleLwOrigin := origin;
    }

    /** `count_starting_lw_pos`: one call per sample for the origin's display name. */
    method CountStartingLwPos()
      requires Valid()
      modifies counters
      ensures Valid() && counters.used == StartCountAsWritten(counters.tables, old(counters.used), sampleLwOrigin, nSamples)
    {
      ghost var after := StartCountAsWritten(counters.tables, counters.used, sampleLwOrigin, nSamples);
      counters.CountStartingLwPos(sampleLwOrigin, nSamples);
      assert counters.used == after;
    }

    /**
     * The loop of `sample_dilution`: one sample row and one buffer row into each destination,
     * each followed by a call for the Eppendorf rack.
     */
    method DiluteEach(sl: seq<string>, sw: seq<int>, dl: seq<string>, dw: seq<int>, bl: string, bw: int)
      returns (sampleRows: seq<Transfer>, bufferRows: seq<Transfer>)
      requires Valid() && |sl| == |sw| == |dl| == |dw|
      modifies counters
      ensures Valid()
      ensures sampleRows == Pairwise(sl, sw, dl, dw, SampleVolume)
      ensures bufferRows == VolumeTransfer.Block(bl, bw, dl, dw, BufferVolume)
      ensures counters.used == SentinelCounted(counters.tables, old(counters.used), "Eppendorf", |sl|)
    {
      ghost var u0 := counters.used;
      sampleRows, bufferRows := [], [];
      for j := 0 to |sl|
        invariant Valid() && |sampleRows| == |bufferRows| == j
        invariant forall k :: 0 <= k < j ==> sampleRows[k] == Transfer(sl[k], sw[k], dl[k], dw[k], SampleVolume)
        invariant forall k :: 0 <= k < j ==> bufferRows[k] == Transfer(bl, bw, dl[k], dw[k], BufferVolume)
        invariant SentinelCounted(counters.tables, u0, "Eppendorf", |sl|) == SentinelCounted(counters.tables, counters.used, "Eppendorf", |sl| - j)
      {
        sampleRows := sampleRows + [Transfer(sl[j], sw[j], dl[j], dw[j], SampleVolume)];
        bufferRows := bufferRows + [Transfer(bl, bw, dl[j], dw[j], BufferVolume)];
        SentinelStepCases(counters.tables, counters.used, "Eppendorf");
        var _ := counters.NextLabwarePos("Eppendorf");
      }
    }

    /** The loop of `sample_transfer`: one row per sample, each followed by a call for `name`. */
    method MoveEach(sl: seq<string>, sw: seq<int>, dl: seq<string>, dw: seq<int>, name: string) returns (rows: seq<Transfer>)
      requires Valid() && |sl| == |sw| == |dl| == |dw|
      modifies counters
      ensures Valid()
      ensures rows == Pairwise(sl, sw, dl, dw, CuvetteVolume)
      ensures counters.used == SentinelCounted(counters.tables, old(counters.used), name, |sl|)
    {
      ghost var u0 := counters.used;
      rows := [];
      for j := 0 to |sl|
        invariant Valid() && |rows| == j
        invariant forall k :: 0 <= k < j ==> rows[k] == Transfer(sl[k], sw[k], dl[k], dw[k], CuvetteVolume)
        invariant SentinelCounted(counters.tables, u0, name, |sl|) == SentinelCounted(counters.tables, counters.used, name, |sl| - j)
      {
        rows := rows + [Transfer(sl[j], sw[j], dl[j], dw[j], CuvetteVolume)];
        SentinelStepCases(counters.tables, counters.used, name);
        var _ := counters.NextLabwarePos(name);
      }
    }

    /**
     * `sample_dilution`: place the buffer, then dilute each sample into the next Eppendorf tube.
     * On success the buffer's place is kept; a full buffer labware raises TypeError.
     */
    method SampleDilution() returns (res: Result<Diluted>)
      requires Valid()
      modifies this, counters
      ensures Valid()
      ensures var r := SampleDilutionAsWritten(counters.tables, old(counters.used), sampleLwOrigin, nSamples);
        && res == (if r.Ok? then Ok(r.value.0) else Err(r.error))
        && counters.used == (if r.Ok? then r.value.1 else old(counters.used))
        && bufferLwPos == (if r.Ok? then Some(r.value.0.buffer) else old(bufferLwPos))
      ensures nSamples == old(nSamples) && sampleLwOrigin == old(sampleLwOrigin)
      ensures sampleConcentration == old(sampleConcentration) && concentrationLimit == old(concentrationLimit)
      ensures sampleDilutedPositions == old(sampleDilutedPositions)
    {
      ghost var u0 := counters.used;
      var n := nSamples;
      var bufferLw := TextTools.FindBestContainer(OldVolumes, (375 * n) as real / 1000.0);
      var request := TextTools.FindBestContainer(OldVolumes, (375 * n) as real);
      ghost var r := SampleDilutionWith(counters.tables, u0, sampleLwOrigin, n, request, bufferLw);
      assert r == SampleDilutionAsWritten(counters.tables, u0, sampleLwOrigin, n);
      SentinelStepCases(counters.tables, u0, request);
      var reply := counters.NextLabwarePos(request);
      if reply.NoneReturned? {
        assert r == Err(TypeError);
        return Err(TypeError);
      }
      ghost var u1 := counters.used;
      var d := PlaceDilutions(bufferLw, if reply.Position? then reply.pos else -1);
      assert bufferLw == BufferLabware(n);
      DilutionFromStep(counters.tables, u0, sampleLwOrigin, n, request, bufferLw, reply, u1);
      res := Ok(d);
    }

    /** The rows of `sample_dilution` once the buffer's place is known, counting one Eppendorf tube per sample. */
    method PlaceDilutions(bufferLw: string, pos: int) returns (d: Diluted)
      requires Valid()
      modifies this, counters
      ensures Valid()
      ensures d == DilutedAt(counters.tables, old(counters.used)["Eppendorf"], sampleLwOrigin, nSamples, bufferLw, pos)
      ensures counters.used == SentinelCounted(counters.tables, old(counters.used), "Eppendorf", Times(nSamples))
      ensures bufferLwPos == Some(d.buffer)
      ensures nSamples == old(nSamples) && sampleLwOrigin == old(sampleLwOrigin)
      ensures sampleConcentration == old(sampleConcentration) && concentrationLimit == old(concentrationLimit)
      ensures sampleDilutedPositions == old(sampleDilutedPositions)
    {
      var n := nSamples;
      var bl, bw := DilutionPositionDef(counters.tables, bufferLw, pos, 1);
      var sl, sw := DilutionPositionDef(counters.tables, sampleLwOrigin, 1, n);
      var dl, dw := DilutionPositionDef(counters.tables, "Eppendorf", counters.used["Eppendorf"] + 1, n);
      var sampleRows, bufferRows := DiluteEach(sl, sw, dl, dw, bl[0], bw[0]);
      bufferLwPos := Some((bl[0], bw[0]));
      d := Diluted(sampleRows, bufferRows, (bl[0], bw[0]), dw);
    }

    /**
     * `sample_transfer`: a diluted run reads the last Eppendorf tubes and leaves the origin set
     * to "Eppendorf"; each sample goes into the next cuvette.
     */
    method SampleTransfer() returns (m: Moved)
      requires Valid()
      modifies this, counters
      ensures Valid()
      ensures (m, counters.used) == SampleTransferFrom(counters.tables, old(counters.used), old(sampleLwOrigin), nSamples, sampleConcentration, concentrationLimit)
      ensures sampleLwOrigin == m.origin && nSamples == old(nSamples)
      ensures sampleConcentration == old(sampleConcentration) && concentrationLimit == old(concentrationLimit)
      ensures sampleDilutedPositions == old(sampleDilutedPositions) && bufferLwPos == old(bufferLwPos)
    {
      var n := nSamples;
      var sl, sw;
      if sampleConcentration >= concentrationLimit {
        sampleLwOrigin := "Eppendorf";
        sl, sw := DilutionPositionDef(counters.tables, sampleLwOrigin, counters.used[sampleLwOrigin] - (n - 1), n);
      } else {
        sl, sw := DilutionPositionDef(counters.tables, sampleLwOrigin, 1, n);
      }
      var dl, dw := DilutionPositionDef(counters.tables, sampleLwDest, 1, n);
      var rows := MoveEach(sl, sw, dl, dw, sampleLwOrigin);
      m := Moved(sampleLwOrigin, rows, dw);
    }

    /**
     * `a280`: count the origin's positions, dilute when the concentration reaches the limit and
     * keep the returned positions, then transfer. The result is the CSV content of the run.
     */
    method A280() returns (res: Result<Run>)
      requires Valid()
      modifies this, counters
      ensures Valid()
      ensures var r := A280From(counters.tables, old(counters.used), old(sampleLwOrigin), nSamples, sampleConcentration, concentrationLimit);
        && res == (if r.Ok? then Ok(r.value.0) else Err(r.error))
        && (r.Ok? ==> counters.used == r.value.1)
        && (r.Err? ==> counters.used == StartCountAsWritten(counters.tables, old(counters.used), old(sampleLwOrigin), nSamples))
      ensures res.Ok? && res.value.dilution.Some? ==> sampleDilutedPositions == res.value.dilution.value.destWells
      ensures res.Ok? && res.value.dilution.None? ==> sampleDilutedPositions == old(sampleDilutedPositions)
    {
      CountStartingLwPos();
      if sampleConcentration >= concentrationLimit {
        var d := SampleDilution();
        if d.Err? {
          return Err(d.error);
        }
        sampleDilutedPositions := d.value.destWells;
        var m := SampleTransfer();
        res := Ok(Run(Some(d.value), m));
      } else {
        var m := SampleTransfer();
        res := Ok(Run(None, m));
      }
    }
  }
}
