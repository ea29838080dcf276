/**
 * The dilution chains shared by the Dot-blot and nanoDSF protocols (Dotblot.py, helper/Dotblot.py,
 * nanoDSF.py). A chain moves a sample through a sequence of dilution steps: every intermediate
 * step goes to the next DeepWell position, the final step to the next Eppendorf tube, and each
 * step's source is the previous step's destination. Each step writes a sample row and a buffer
 * row with the same destination.
 */
module Dilution {
  import opened Wrappers
  import opened Catalog
  import opened Addressing
  import opened Allocation

  /** One CSV row: LabSource, SourceWell, LabDest, DestWell, Volume. */
  datatype Transfer = Transfer(source: string, sourceWell: int, dest: string, destWell: int, volume: real)

  /** One row of a dilution table: its "Sample volume" and "Assay buffer volume" entries. */
  datatype DilutionStep = DilutionStep(sampleVolume: real, bufferVolume: real)

  /** The worktable the chains assume: DeepWell is a named plate, Eppendorf a rack of tubes. */
  predicate Worktable(tables: Tables)
  {
    tables.PlatesNamed() && "DeepWell" in tables.plates && "Eppendorf" !in tables.plates
  }

  /** Both table generations are such worktables. */
  lemma WorktablesHold()
    ensures Worktable(NewTables) && Worktable(OldTables)
  {
    PlatesAreNamed();
  }

  /** Each row after the first takes its sample from the previous row's destination. */
  predicate Chained(rows: seq<Transfer>, source: string, sourceWell: int)
  {
    && (|rows| > 0 ==> rows[0].source == source && rows[0].sourceWell == sourceWell)
    && (forall i :: 0 < i < |rows| ==> rows[i].source == rows[i - 1].dest && rows[i].sourceWell == rows[i - 1].destWell)
  }

  /** The buffer row of a step fills the same destination as its sample row, from the buffer's only well. */
  predicate BufferFor(sample: Transfer, buffer: Transfer, bufferLabware: string)
  {
    buffer.source == bufferLabware && buffer.sourceWell == 1 && buffer.dest == sample.dest && buffer.destWell == sample.destWell
  }

  /** Where sample `j` of a `dilution_position_def(lw, base, _)` call goes: its label and well. */
  function DestOf(tables: Tables, lw: string, base: int, j: int): (string, int)
    requires tables.PlatesNamed()
  {
    if lw in tables.plates then (tables.names[lw], base + j) else (Pos2Str(lw, base + j), 1)
  }

  lemma DestOfLists(tables: Tables, lw: string, base: int, count: int, j: int)
    requires tables.PlatesNamed() && 0 <= j < count
    ensures DestOf(tables, lw, base, j) == (DilutionLabels(tables, lw, base, count)[j], DilutionWells(tables, lw, base, count)[j])
  {
  }

  /** Multiplying by a non-negative factor keeps the order: `n * a <= n * b` for `a <= b`. */
  lemma MulMonotone(n: int, a: int, b: int)
    requires n >= 0 && a <= b
    ensures n * a <= n * b
  {
    assert n * b - n * a == n * (b - a);
  }

  /** The `i`-th of `k` draws is what the counter left by the first `i` draws gives out. */
  lemma DrawsAt(last: int, capacity: int, k: nat, i: nat)
    requires i < k
    ensures Draws(last, capacity, k)[i] == Drawn(Advanced(last, capacity, i), capacity)
  {
    DrawsFrom(last, capacity, k);
    AdvancedClosed(last, capacity, i);
  }

  /** The rows of one control chain: the steps' volumes, a buffer row per sample row, chained from `source`. */
  predicate ChainRows(sampleRows: seq<Transfer>, bufferRows: seq<Transfer>, source: string, sourceWell: int,
                      buffer: string, steps: seq<DilutionStep>)
  {
    && |sampleRows| == |bufferRows| == |steps|
    && Chained(sampleRows, source, sourceWell)
    && forall i :: 0 <= i < |steps| ==>
      && BufferFor(sampleRows[i], bufferRows[i], buffer)
      && sampleRows[i].volume == steps[i].sampleVolume && bufferRows[i].volume == steps[i].bufferVolume
  }

  /** The first `upto` rows of `ControlChain`: chained, buffered, and into the drawn DeepWell wells before the last step. */
  predicate ControlPrefix(sampleRows: seq<Transfer>, bufferRows: seq<Transfer>, source: string, sourceWell: int,
                          steps: seq<DilutionStep>, buffer: string, plate: string, d0: int, capacity: int, upto: nat)
  {
    && |sampleRows| == |bufferRows| == upto <= |steps|
    && Chained(sampleRows, source, sourceWell)
    && (forall k :: 0 <= k < upto ==>
         && BufferFor(sampleRows[k], bufferRows[k], buffer)
         && sampleRows[k].volume == steps[k].sampleVolume && bufferRows[k].volume == steps[k].bufferVolume)
    && (forall k :: 0 <= k < upto && k < |steps| - 1 ==>
         sampleRows[k].dest == plate && sampleRows[k].destWell == Drawn(Advanced(d0, capacity, k), capacity))
  }

  /** Appending step `i`'s rows, taken from where the chain ends, extends the prefix. */
  lemma ControlPrefixSnoc(sampleRows: seq<Transfer>, bufferRows: seq<Transfer>, source: string, sourceWell: int,
                          steps: seq<DilutionStep>, buffer: string, plate: string, d0: int, capacity: int, i: nat,
                          row: Transfer, bufferRow: Transfer)
    requires ControlPrefix(sampleRows, bufferRows, source, sourceWell, steps, buffer, plate, d0, capacity, i) && i < |steps|
    requires i == 0 ==> row.source == source && row.sourceWell == sourceWell
    requires i > 0 ==> row.source == sampleRows[i - 1].dest && row.sourceWell == sampleRows[i - 1].destWell
    requires BufferFor(row, bufferRow, buffer) && row.volume == steps[i].sampleVolume && bufferRow.volume == steps[i].bufferVolume
    requires i < |steps| - 1 ==> row.dest == plate && row.destWell == Drawn(Advanced(d0, capacity, i), capacity)
    ensures ControlPrefix(sampleRows + [row], bufferRows + [bufferRow], source, sourceWell, steps, buffer, plate, d0, capacity, i + 1)
  {
    var ss, bs := sampleRows + [row], bufferRows + [bufferRow];
    assert ss[i] == row && bs[i] == bufferRow;
    assert forall k :: 0 <= k < i ==> ss[k] == sampleRows[k] && bs[k] == bufferRows[k];
    assert Chained(ss, source, sourceWell) by {
      forall k | 0 < k < |ss|
        ensures ss[k].source == ss[k - 1].dest && ss[k].sourceWell == ss[k - 1].destWell
      {
        if k < i { assert ss[k] == sampleRows[k] && ss[k - 1] == sampleRows[k - 1]; }
      }
    }
    forall k | 0 <= k < i + 1
      ensures BufferFor(ss[k], bs[k], buffer) && ss[k].volume == steps[k].sampleVolume && bs[k].volume == steps[k].bufferVolume
    {
    }
    forall k | 0 <= k < i + 1 && k < |steps| - 1
      ensures ss[k].dest == plate && ss[k].destWell == Drawn(Advanced(d0, capacity, k), capacity)
    {
    }
  }

  /** Where one step of a control chain goes: the next Eppendorf tube for the last step, else the next DeepWell position. */
  method ChainDestination(c: TwoFieldCounter, tables: Tables, last: bool) returns (dest: string, well: int)
    requires Worktable(tables)
    modifies c
    ensures last ==>
      && dest == Pos2Str("Eppendorf", Drawn(old(c.lastEppendorfPos), c.eppendorfCapacity)) && well == 1
      && c.lastEppendorfPos == Advanced(old(c.lastEppendorfPos), c.eppendorfCapacity, 1)
      && c.lastDeepWellPos == old(c.lastDeepWellPos)
    ensures !last ==>
      && dest == tables.names["DeepWell"] && well == Drawn(old(c.lastDeepWellPos), c.deepWellCapacity)
      && c.lastDeepWellPos == Advanced(old(c.lastDeepWellPos), c.deepWellCapacity, 1)
      && c.lastEppendorfPos == old(c.lastEppendorfPos)
  {
    var labels, wells;
    if last {
      var p := c.NextEppendorfPos();
      labels, wells := DilutionPositionDef(tables, "Eppendorf", p, 1);
    } else {
      var p := c.NextDeepWellPos();
      labels, wells := DilutionPositionDef(tables, "DeepWell", p, 1);
    }
    dest, well := labels[0], wells[0];
  }

  /** The loop of a control chain: rows drawn step by step, counters advanced once per step. */
  method ChainSteps(c: TwoFieldCounter, tables: Tables, source: string, sourceWell: int, buffer: string, steps: seq<DilutionStep>)
    returns (sampleRows: seq<Transfer>, bufferRows: seq<Transfer>, eppendorfPositions: seq<int>)
    requires Worktable(tables)
    modifies c
    ensures ControlPrefix(sampleRows, bufferRows, source, sourceWell, steps, buffer, tables.names["DeepWell"],
                          old(c.lastDeepWellPos), c.deepWellCapacity, |steps|)
    ensures |steps| == 0 ==> c.lastDeepWellPos == old(c.lastDeepWellPos) && c.lastEppendorfPos == old(c.lastEppendorfPos) && eppendorfPositions == []
    ensures |steps| > 0 ==>
      && c.lastDeepWellPos == Advanced(old(c.lastDeepWellPos), c.deepWellCapacity, |steps| - 1)
      && c.lastEppendorfPos == Advanced(old(c.lastEppendorfPos), c.eppendorfCapacity, 1)
      && eppendorfPositions == [old(c.lastEppendorfPos)]
      && sampleRows[|steps| - 1].dest == Pos2Str("Eppendorf", Drawn(old(c.lastEppendorfPos), c.eppendorfCapacity))
      && sampleRows[|steps| - 1].destWell == 1
  {
    ghost var d0, e0 := c.lastDeepWellPos, c.lastEppendorfPos;
    sampleRows, bufferRows, eppendorfPositions := [], [], [];
    var labSource, labWell := source, sourceWell;
    for i := 0 to |steps|
      invariant ControlPrefix(sampleRows, bufferRows, source, sourceWell, steps, buffer, tables.names["DeepWell"], d0, c.deepWellCapacity, i)
      invariant i > 0 ==> labSource == sampleRows[i - 1].dest && labWell == sampleRows[i - 1].destWell
      invariant i == 0 ==> labSource == source && labWell == sourceWell
      invariant |steps| == 0 ==> c.lastDeepWellPos == d0 && c.lastEppendorfPos == e0 && eppendorfPositions == []
      invariant i < |steps| ==> c.lastDeepWellPos == Advanced(d0, c.deepWellCapacity, i) && c.lastEppendorfPos == e0 && eppendorfPositions == []
      invariant i == |steps| > 0 ==>
        && c.lastDeepWellPos == Advanced(d0, c.deepWellCapacity, i - 1)
        && c.lastEppendorfPos == Advanced(e0, c.eppendorfCapacity, 1)
        && eppendorfPositions == [e0]
        && sampleRows[i - 1].dest == Pos2Str("Eppendorf", Drawn(e0, c.eppendorfCapacity))
        && sampleRows[i - 1].destWell == 1
    {
      if i + 1 == |steps| {
        eppendorfPositions := eppendorfPositions + [c.lastEppendorfPos];
      } else {
        AdvancedSnoc(d0, c.deepWellCapacity, i);
      }
      var labDest, destWell := ChainDestination(c, tables, i + 1 == |steps|);
      var row := Transfer(labSource, labWell, labDest, destWell, steps[i].sampleVolume);
      var bufferRow := Transfer(buffer, 1, labDest, destWell, steps[i].bufferVolume);
      ControlPrefixSnoc(sampleRows, bufferRows, source, sourceWell, steps, buffer, tables.names["DeepWell"], d0, c.deepWellCapacity, i, row, bufferRow);
      sampleRows := sampleRows + [row];
      bufferRows := bufferRows + [bufferRow];
      labSource, labWell := labDest, destWell;
    }
  }

  /**
   * One control dilution chain (`positive_control_dilutions` / `negative_control_dilutions`):
   * steps before the last go to DeepWell positions drawn one by one, the last to the next
   * Eppendorf tube, whose counter value before the draw is recorded.
   */
  method ControlChain(c: TwoFieldCounter, tables: Tables, source: string, sourceWell: int, buffer: string, steps: seq<DilutionStep>)
    returns (sampleRows: seq<Transfer>, bufferRows: seq<Transfer>, eppendorfPositions: seq<int>)
    requires Worktable(tables)
    modifies c
    ensures ChainRows(sampleRows, bufferRows, source, sourceWell, buffer, steps)
    ensures forall i :: 0 <= i < |steps| - 1 ==>
      sampleRows[i].dest == tables.names["DeepWell"] &&
      sampleRows[i].destWell == Draws(old(c.lastDeepWellPos), c.deepWellCapacity, |steps| - 1)[i]
    ensures |steps| > 0 ==>
      sampleRows[|steps| - 1].dest == Pos2Str("Eppendorf", Drawn(old(c.lastEppendorfPos), c.eppendorfCapacity)) &&
      sampleRows[|steps| - 1].destWell == 1
    ensures eppendorfPositions == if |steps| > 0 then [old(c.lastEppendorfPos)] else []
    ensures |steps| > 0 && old(c.lastEppendorfPos) + 1 <= c.eppendorfCapacity ==>
      sampleRows[|steps| - 1].dest == Pos2Str("Eppendorf", eppendorfPositions[0])
    ensures c.lastDeepWellPos == Advanced(old(c.lastDeepWellPos), c.deepWellCapacity, Times(|steps| - 1))
    ensures c.lastEppendorfPos == Advanced(old(c.lastEppendorfPos), c.eppendorfCapacity, if |steps| > 0 then 1 else 0)
  {
    ghost var d0 := c.lastDeepWellPos;
    sampleRows, bufferRows, eppendorfPositions := ChainSteps(c, tables, source, sourceWell, buffer, steps);
    if |steps| > 0 {
      forall k | 0 <= k < |steps| - 1
        ensures sampleRows[k].destWell == Draws(d0, c.deepWellCapacity, |steps| - 1)[k]
      {
        DrawsAt(d0, c.deepWellCapacity, |steps| - 1, k);
      }
    }
  }

  /** The counter values seen before each of `n` successive draws. */
  function CounterValues(last: int, capacity: int, n: nat): (vs: seq<int>)
    ensures |vs| == n
  {
    seq(n, j requires 0 <= j < n => Advanced(last, capacity, j))
  }

  /** Values seen over `a` draws and then `b` more are the values seen over `a + b` draws. */
  lemma CounterValuesAdd(last: int, capacity: int, a: nat, b: nat)
    ensures CounterValues(last, capacity, a) + CounterValues(Advanced(last, capacity, a), capacity, b) == CounterValues(last, capacity, a + b)
  {
    forall i | 0 <= i < b
      ensures CounterValues(last, capacity, a + b)[a + i] == CounterValues(Advanced(last, capacity, a), capacity, b)[i]
    {
      AdvancedAdd(last, capacity, a, i);
    }
  }

  /** The DeepWell counter at the start of intermediate step `k`, each step using `n` wells. */
  function StepBase(last: int, capacity: int, n: nat, k: nat): int
  {
    Advanced(last, capacity, k * n)
  }

  lemma StepBaseNext(last: int, capacity: int, n: nat, k: nat)
    ensures StepBase(last, capacity, n, k + 1) == Advanced(StepBase(last, capacity, n, k), capacity, n)
  {
    AdvancedAdd(last, capacity, k * n, n);
    assert k * n + n == (k + 1) * n;
  }

  /** `a + b` calls leave the counter where `b` calls leave it after the first `a`. */
  lemma {:induction false} AdvancedAdd(last: int, capacity: int, a: nat, b: nat)
    ensures Advanced(last, capacity, a + b) == Advanced(Advanced(last, capacity, a), capacity, b)
    decreases a
  {
    if a > 0 && last + 1 <= capacity {
      AdvancedAdd(last + 1, capacity, a - 1, b);
    } else if a > 0 {
      AdvancedClosed(last, capacity, a + b);
      AdvancedClosed(last, capacity, a);
      AdvancedClosed(last, capacity, b);
    }
  }

  /**
   * The samples of one dilution step (inner loop of `sample_dilutions`): sample `j` goes from
   * entry `j` of the source lists to entry `j` of `dilution_position_def(lw, counter, count)`,
   * and each sample advances that labware's counter once. On the final step (Eppendorf) the
   * counter value before each draw is recorded.
   */
  method StepSamples(c: TwoFieldCounter, tables: Tables, srcLabels: seq<string>, srcWells: seq<int>, n: nat,
                     final: bool, count: int, step: DilutionStep, buffer: string)
    returns (sampleRows: seq<Transfer>, bufferRows: seq<Transfer>, recorded: seq<int>, destLabels: seq<string>, destWells: seq<int>)
    requires Worktable(tables) && |srcLabels| >= n && |srcWells| >= n && count >= n
    modifies c
    ensures |sampleRows| == |bufferRows| == n
    ensures final ==>
      && destLabels == DilutionLabels(tables, "Eppendorf", old(c.lastEppendorfPos), count)
      && destWells == DilutionWells(tables, "Eppendorf", old(c.lastEppendorfPos), count)
    ensures !final ==>
      && destLabels == DilutionLabels(tables, "DeepWell", old(c.lastDeepWellPos), count)
      && destWells == DilutionWells(tables, "DeepWell", old(c.lastDeepWellPos), count)
    ensures forall j :: 0 <= j < n ==>
      && sampleRows[j] == Transfer(srcLabels[j], srcWells[j], destLabels[j], destWells[j], step.sampleVolume)
      && bufferRows[j] == Transfer(buffer, 1, destLabels[j], destWells[j], step.bufferVolume)
    ensures final ==>
      && recorded == CounterValues(old(c.lastEppendorfPos), c.eppendorfCapacity, n)
      && c.lastEppendorfPos == Advanced(old(c.lastEppendorfPos), c.eppendorfCapacity, n)
      && c.lastDeepWellPos == old(c.lastDeepWellPos)
    ensures !final ==>
      && recorded == []
      && c.lastDeepWellPos == Advanced(old(c.lastDeepWellPos), c.deepWellCapacity, n)
      && c.lastEppendorfPos == old(c.lastEppendorfPos)
  {
    ghost var d0, e0 := c.lastDeepWellPos, c.lastEppendorfPos;
    if final {
      destLabels, destWells := DilutionPositionDef(tables, "Eppendorf", c.lastEppendorfPos, count);
    } else {
      destLabels, destWells := DilutionPositionDef(tables, "DeepWell", c.lastDeepWellPos, count);
    }
    sampleRows, bufferRows, recorded := [], [], [];
    for j := 0 to n
      invariant |sampleRows| == |bufferRows| == j
      invariant forall k :: 0 <= k < j ==>
        && sampleRows[k] == Transfer(srcLabels[k], srcWells[k], destLabels[k], destWells[k], step.sampleVolume)
        && bufferRows[k] == Transfer(buffer, 1, destLabels[k], destWells[k], step.bufferVolume)
      invariant final ==>
        && recorded == CounterValues(e0, c.eppendorfCapacity, j)
        && c.lastEppendorfPos == Advanced(e0, c.eppendorfCapacity, j)
        && c.lastDeepWellPos == d0
      invariant !final ==>
        && recorded == []
        && c.lastDeepWellPos == Advanced(d0, c.deepWellCapacity, j)
        && c.lastEppendorfPos == e0
    {
      sampleRows := sampleRows + [Transfer(srcLabels[j], srcWells[j], destLabels[j], destWells[j], step.sampleVolume)];
      bufferRows := bufferRows + [Transfer(buffer, 1, destLabels[j], destWells[j], step.bufferVolume)];
      if final {
        recorded := recorded + [c.lastEppendorfPos];
        var _ := c.NextEppendorfPos();
        AdvancedSnoc(e0, c.eppendorfCapacity, j);
      } else {
        var _ := c.NextDeepWellPos();
        AdvancedSnoc(d0, c.deepWellCapacity, j);
      }
    }
  }

  /** The `n` sample rows and buffer rows of one step: paired destinations and the step's volumes. */
  predicate StepRows(sampleRows: seq<Transfer>, bufferRows: seq<Transfer>, n: nat, step: DilutionStep, buffer: string)
  {
    && |sampleRows| == |bufferRows| == n
    && forall j :: 0 <= j < n ==>
      && BufferFor(sampleRows[j], bufferRows[j], buffer)
      && sampleRows[j].volume == step.sampleVolume && bufferRows[j].volume == step.bufferVolume
  }

  /** Sample `j` of step `next` comes from where step `prev` left it. */
  predicate Follows(prev: seq<Transfer>, next: seq<Transfer>, n: nat)
  {
    |prev| >= n && |next| >= n &&
    forall j :: 0 <= j < n ==> next[j].source == prev[j].dest && next[j].sourceWell == prev[j].destWell
  }

  /** Sample `j` of the first step is taken from entry `j` of the initial lists. */
  predicate StartsFrom(rows: seq<Transfer>, labels: seq<string>, wells: seq<int>, n: nat)
  {
    |rows| >= n && |labels| >= n && |wells| >= n &&
    forall j :: 0 <= j < n ==> rows[j].source == labels[j] && rows[j].sourceWell == wells[j]
  }

  /** Sample `j` goes to well `base + j` of the plate `plate`. */
  predicate IntoWells(rows: seq<Transfer>, plate: string, base: int, n: nat)
  {
    |rows| >= n &&
    forall j :: 0 <= j < n ==> rows[j].dest == plate && rows[j].destWell == base + j
  }

  /** Sample `j` goes to the one well of Eppendorf tube `first + j`. */
  predicate IntoTubes(rows: seq<Transfer>, first: int, n: nat)
  {
    |rows| >= n &&
    forall j :: 0 <= j < n ==> rows[j].dest == Pos2Str("Eppendorf", first + j) && rows[j].destWell == 1
  }

  /** The first `upto` steps' rows of `DilutionSteps`, as its postconditions describe them. */
  predicate RowsChain(sampleRows: seq<seq<Transfer>>, bufferRows: seq<seq<Transfer>>, labels0: seq<string>, wells0: seq<int>,
                      n: nat, steps: seq<DilutionStep>, buffer: string, plate: string, d0: int, capacity: int, upto: nat)
  {
    && |sampleRows| == |bufferRows| == upto <= |steps|
    && (forall k :: 0 <= k < upto ==> StepRows(sampleRows[k], bufferRows[k], n, steps[k], buffer))
    && (upto > 0 ==> StartsFrom(sampleRows[0], labels0, wells0, n))
    && (forall k :: 0 < k < upto ==> Follows(sampleRows[k - 1], sampleRows[k], n))
    && (forall k :: 0 <= k < upto && k < |steps| - 1 ==> IntoWells(sampleRows[k], plate, StepBase(d0, capacity, n, k), n))
  }

  /** One more step whose rows fit the chain extends it. */
  lemma RowsChainSnoc(sampleRows: seq<seq<Transfer>>, bufferRows: seq<seq<Transfer>>, labels0: seq<string>, wells0: seq<int>,
                      n: nat, steps: seq<DilutionStep>, buffer: string, plate: string, d0: int, capacity: int, i: nat,
                      rowsS: seq<Transfer>, rowsB: seq<Transfer>)
    requires RowsChain(sampleRows, bufferRows, labels0, wells0, n, steps, buffer, plate, d0, capacity, i) && i < |steps|
    requires StepRows(rowsS, rowsB, n, steps[i], buffer)
    requires i == 0 ==> StartsFrom(rowsS, labels0, wells0, n)
    requires i > 0 ==> Follows(sampleRows[i - 1], rowsS, n)
    requires i < |steps| - 1 ==> IntoWells(rowsS, plate, StepBase(d0, capacity, n, i), n)
    ensures RowsChain(sampleRows + [rowsS], bufferRows + [rowsB], labels0, wells0, n, steps, buffer, plate, d0, capacity, i + 1)
  {
    var ss, bs := sampleRows + [rowsS], bufferRows + [rowsB];
    assert ss[i] == rowsS && bs[i] == rowsB;
    assert forall k :: 0 <= k < i ==> ss[k] == sampleRows[k] && bs[k] == bufferRows[k];
  }

  /**
   * The dilution steps of `sample_dilutions` for `n` samples starting in `(labels0, wells0)`:
   * step `i` before the last puts sample `j` in DeepWell well `counter + j` of that step's counter,
   * the last step puts it in Eppendorf tube `counter + j`, every step takes each sample from where
   * the previous step left it, and the recorded Eppendorf positions are the counter values drawn.
   */
  method DilutionSteps(c: TwoFieldCounter, tables: Tables, labels0: seq<string>, wells0: seq<int>, n: nat,
                       steps: seq<DilutionStep>, buffer: string)
    returns (sampleRows: seq<seq<Transfer>>, bufferRows: seq<seq<Transfer>>, positions: seq<int>)
    requires Worktable(tables) && |labels0| >= n && |wells0| >= n
    modifies c
    ensures |sampleRows| == |bufferRows| == |steps|
    ensures forall i :: 0 <= i < |steps| ==> StepRows(sampleRows[i], bufferRows[i], n, steps[i], buffer)
    ensures |steps| > 0 ==> StartsFrom(sampleRows[0], labels0, wells0, n)
    ensures forall i :: 0 < i < |steps| ==> Follows(sampleRows[i - 1], sampleRows[i], n)
    ensures forall i :: 0 <= i < |steps| - 1 ==>
      IntoWells(sampleRows[i], tables.names["DeepWell"], StepBase(old(c.lastDeepWellPos), c.deepWellCapacity, n, i), n)
    ensures |steps| > 0 ==> IntoTubes(sampleRows[|steps| - 1], old(c.lastEppendorfPos), n)
    ensures positions == if |steps| > 0 then CounterValues(old(c.lastEppendorfPos), c.eppendorfCapacity, n) else []
    ensures c.lastDeepWellPos == StepBase(old(c.lastDeepWellPos), c.deepWellCapacity, n, Times(|steps| - 1))
    ensures c.lastEppendorfPos == Advanced(old(c.lastEppendorfPos), c.eppendorfCapacity, if |steps| > 0 then n else 0)
  {
    ghost var d0, e0 := c.lastDeepWellPos, c.lastEppendorfPos;
    sampleRows, bufferRows, positions := [], [], [];
    var labSource, sourceWell := labels0, wells0;
    for i := 0 to |steps|
      invariant RowsChain(sampleRows, bufferRows, labels0, wells0, n, steps, buffer, tables.names["DeepWell"], d0, c.deepWellCapacity, i)
      invariant |labSource| >= n && |sourceWell| >= n
      invariant i == 0 ==> labSource == labels0 && sourceWell == wells0
      invariant i > 0 ==> forall j :: 0 <= j < n ==>
        labSource[j] == sampleRows[i - 1][j].dest && sourceWell[j] == sampleRows[i - 1][j].destWell
      invariant |steps| == 0 ==> c.lastDeepWellPos == d0 && c.lastEppendorfPos == e0 && positions == []
      invariant i < |steps| ==> c.lastDeepWellPos == StepBase(d0, c.deepWellCapacity, n, i) && c.lastEppendorfPos == e0 && positions == []
      invariant i == |steps| > 0 ==>
        && c.lastDeepWellPos == StepBase(d0, c.deepWellCapacity, n, i - 1)
        && c.lastEppendorfPos == Advanced(e0, c.eppendorfCapacity, n)
        && positions == CounterValues(e0, c.eppendorfCapacity, n)
        && IntoTubes(sampleRows[i - 1], e0, n)
    {
      var final := i + 1 == |steps|;
      ghost var base := c.lastDeepWellPos;
      var rowsS, rowsB, recorded, destLabels, destWells := StepSamples(c, tables, labSource, sourceWell, n, final, n * (i + 1) + 1, steps[i], buffer);
      if !final {
        StepBaseNext(d0, c.deepWellCapacity, n, i);
      }
      forall j | 0 <= j < n
        ensures rowsS[j].dest == (if final then Pos2Str("Eppendorf", e0 + j) else tables.names["DeepWell"])
        ensures rowsS[j].destWell == (if final then 1 else base + j)
      {
        if final {
          DestOfLists(tables, "Eppendorf", e0, n * (i + 1) + 1, j);
        } else {
          DestOfLists(tables, "DeepWell", base, n * (i + 1) + 1, j);
        }
      }
      assert StepRows(rowsS, rowsB, n, steps[i], buffer);
      assert i == 0 ==> StartsFrom(rowsS, labels0, wells0, n);
      assert i > 0 ==> Follows(sampleRows[i - 1], rowsS, n);
      assert final ==> IntoTubes(rowsS, e0, n);
      assert !final ==> IntoWells(rowsS, tables.names["DeepWell"], base, n);
      RowsChainSnoc(sampleRows, bufferRows, labels0, wells0, n, steps, buffer, tables.names["DeepWell"], d0, c.deepWellCapacity, i, rowsS, rowsB);
      sampleRows := sampleRows + [rowsS];
      bufferRows := bufferRows + [rowsB];
      positions := positions + recorded;
      labSource, sourceWell := destLabels, destWells;
    }
  }

  /**
   * The initial transfer of `sample_dilutions`: sample `j` moves from the one-well container
   * `sources[j]` to entry `j` of `dilution_position_def("DeepWell", counter, n)`, and each sample
   * consumes one DeepWell position.
   */
  method InitialTransfer(c: TwoFieldCounter, tables: Tables, sources: seq<string>, n: nat, volume: real)
    returns (rows: seq<Transfer>, labels: seq<string>, wells: seq<int>)
    requires Worktable(tables) && |sources| >= n
    modifies c
    ensures labels == DilutionLabels(tables, "DeepWell", old(c.lastDeepWellPos), n)
    ensures wells == DilutionWells(tables, "DeepWell", old(c.lastDeepWellPos), n)
    ensures |rows| == n
    ensures forall j :: 0 <= j < n ==>
      rows[j] == Transfer(sources[j], 1, tables.names["DeepWell"], old(c.lastDeepWellPos) + j, volume)
    ensures forall j :: 0 <= j < n ==> rows[j].dest == labels[j] && rows[j].destWell == wells[j]
    ensures c.lastDeepWellPos == Advanced(old(c.lastDeepWellPos), c.deepWellCapacity, n)
    ensures c.lastEppendorfPos == old(c.lastEppendorfPos)
  {
    ghost var d0 := c.lastDeepWellPos;
    labels, wells := DilutionPositionDef(tables, "DeepWell", c.lastDeepWellPos, n);
    rows := [];
    for j := 0 to n
      invariant |rows| == j
      invariant forall k :: 0 <= k < j ==> rows[k] == Transfer(sources[k], 1, tables.names["DeepWell"], d0 + k, volume)
      invariant c.lastDeepWellPos == Advanced(d0, c.deepWellCapacity, j) && c.lastEppendorfPos == old(c.lastEppendorfPos)
    {
      rows := rows + [Transfer(sources[j], 1, labels[j], wells[j], volume)];
      var _ := c.NextDeepWellPos();
      AdvancedSnoc(d0, c.deepWellCapacity, j);
    }
  }

  // ---------------------------------------------------------------------------------------------
  // Control vials and returned positions
  // ---------------------------------------------------------------------------------------------

  /** The column of a control vial in the custom holder: "A".."E" give 1..5, anything else keeps 1. */
  function VialColumn(x: string): int
  {
    if x == "A" then 1 else if x == "B" then 2 else if x == "C" then 3 else if x == "D" then 4 else if x == "E" then 5 else 1
  }

  /** The holder position of a control vial: its column plus five per row above it. */
  function ControlVialPos(x: string, y: int): int
  {
    VialColumn(x) + (y - 1) * 5
  }

  /**
   * The holder is numbered row by row, five vials per row: vial (x, y) is on row `y` and column
   * `x`, so different vials of columns A..E get different positions.
   */
  lemma ControlVialGrid(x: string, y: int, x2: string, y2: int)
    requires x in ["A", "B", "C", "D", "E"] && x2 in ["A", "B", "C", "D", "E"]
    ensures 1 <= VialColumn(x) <= 5
    ensures (ControlVialPos(x, y) - 1) / 5 + 1 == y && (ControlVialPos(x, y) - 1) % 5 + 1 == VialColumn(x)
    ensures ControlVialPos(x, y) == ControlVialPos(x2, y2) ==> x == x2 && y == y2
  {
    var p, q := ControlVialPos(x, y), ControlVialPos(x2, y2);
    assert p - 1 == (y - 1) * 5 + (VialColumn(x) - 1);
    assert q - 1 == (y2 - 1) * 5 + (VialColumn(x2) - 1);
  }

  /** The concatenation of a list of lists. */
  function Flat(xss: seq<seq<int>>): seq<int>
  {
    if xss == [] then [] else xss[0] + Flat(xss[1..])
  }

  /** `[xs[i:i + size] for i in range(0, len(xs), size)]` for a positive size. */
  function ChunksOf(xs: seq<int>, size: nat): seq<seq<int>>
    requires size > 0
    decreases |xs|
  {
    if |xs| == 0 then [] else if |xs| <= size then [xs] else [xs[..size]] + ChunksOf(xs[size..], size)
  }

  /** The same comprehension for any step: `range` raises ValueError for step 0, and a negative step yields nothing. */
  function Chunks(xs: seq<int>, size: int): Result<seq<seq<int>>>
  {
    if size == 0 then Err(ValueError) else if size < 0 then Ok([]) else Ok(ChunksOf(xs, size))
  }

  /** The chunks put back together give the list. */
  lemma {:induction false} ChunksOfFlat(xs: seq<int>, size: nat)
    requires size > 0
    ensures Flat(ChunksOf(xs, size)) == xs
    decreases |xs|
  {
    if |xs| > size {
      ChunksOfFlat(xs[size..], size);
      assert xs[..size] + xs[size..] == xs;
    } else if |xs| > 0 {
      assert Flat([xs]) == xs + Flat([]);
    }
  }

  /** Every chunk is nonempty and all but the last hold exactly `size` items. */
  lemma {:induction false} ChunksOfSizes(xs: seq<int>, size: nat)
    requires size > 0
    ensures |xs| > 0 ==> |ChunksOf(xs, size)| > 0
    ensures forall k :: 0 <= k < |ChunksOf(xs, size)| ==> 0 < |ChunksOf(xs, size)[k]| <= size
    ensures forall k :: 0 <= k < |ChunksOf(xs, size)| - 1 ==> |ChunksOf(xs, size)[k]| == size
    decreases |xs|
  {
    if |xs| > size {
      ChunksOfSizes(xs[size..], size);
    }
  }

  /** Chunks of one: each recorded position in a list of its own. */
  lemma {:induction false} ChunksOfOne(xs: seq<int>)
    ensures |ChunksOf(xs, 1)| == |xs|
    ensures forall i :: 0 <= i < |xs| ==> ChunksOf(xs, 1)[i] == [xs[i]]
    decreases |xs|
  {
    if |xs| > 1 {
      ChunksOfOne(xs[1..]);
    }
  }

  /** Entry `n` of the singleton chunks of the first `m` counter values is the counter after `n` draws. */
  lemma SingletonChunkAt(last: int, capacity: int, m: nat, n: nat)
    requires n < m
    ensures n < |ChunksOf(CounterValues(last, capacity, m), 1)|
    ensures ChunksOf(CounterValues(last, capacity, m), 1)[n] == [Advanced(last, capacity, n)]
  {
    ChunksOfOne(CounterValues(last, capacity, m));
  }

  // ---------------------------------------------------------------------------------------------
  // One sample dilution series: initial transfer, then the dilution steps
  // ---------------------------------------------------------------------------------------------

  /**
   * The rows of one series of `sample_dilutions` for `n` samples started with DeepWell counter
   * `d` and Eppendorf counter `e`: sample `j` first moves from `sources[j]` to DeepWell well
   * `d + j`, the first dilution step takes it from there, each later step from where the previous
   * one left it, intermediate steps fill consecutive DeepWell wells after the initial ones, and
   * the last step fills consecutive Eppendorf tubes from `e`.
   */
  predicate SeriesRows(init: seq<Transfer>, sampleRows: seq<seq<Transfer>>, bufferRows: seq<seq<Transfer>>, plate: string,
                       sources: seq<string>, n: nat, volume: real, steps: seq<DilutionStep>, buffer: string,
                       d: int, e: int, capD: int)
  {
    && |init| == n && |sources| >= n
    && (forall j :: 0 <= j < n ==> init[j] == Transfer(sources[j], 1, plate, d + j, volume))
    && |sampleRows| == |bufferRows| == |steps|
    && (forall i :: 0 <= i < |steps| ==> StepRows(sampleRows[i], bufferRows[i], n, steps[i], buffer))
    && (|steps| > 0 ==> Follows(init, sampleRows[0], n))
    && (forall i :: 0 < i < |steps| ==> Follows(sampleRows[i - 1], sampleRows[i], n))
    && (forall i :: 0 <= i < |steps| - 1 ==> IntoWells(sampleRows[i], plate, StepBase(Advanced(d, capD, n), capD, n, i), n))
    && (|steps| > 0 ==> IntoTubes(sampleRows[|steps| - 1], e, n))
  }

  /**
   * One series of `sample_dilutions`: the initial transfer into DeepWell wells and the dilution
   * steps after it. It uses `n` DeepWell positions for the initial transfer and `n` per
   * intermediate step, and `n` Eppendorf tubes when there is at least one step.
   */
  method SampleSeries(c: TwoFieldCounter, tables: Tables, sources: seq<string>, n: nat, volume: real,
                      steps: seq<DilutionStep>, buffer: string)
    returns (init: seq<Transfer>, sampleRows: seq<seq<Transfer>>, bufferRows: seq<seq<Transfer>>, recorded: seq<int>)
    requires Worktable(tables) && |sources| >= n
    modifies c
    ensures SeriesRows(init, sampleRows, bufferRows, tables.names["DeepWell"], sources, n, volume, steps, buffer,
                       old(c.lastDeepWellPos), old(c.lastEppendorfPos), c.deepWellCapacity)
    ensures recorded == if |steps| > 0 then CounterValues(old(c.lastEppendorfPos), c.eppendorfCapacity, n) else []
    ensures c.lastDeepWellPos == Advanced(old(c.lastDeepWellPos), c.deepWellCapacity, n + Times(|steps| - 1) * n)
    ensures c.lastEppendorfPos == Advanced(old(c.lastEppendorfPos), c.eppendorfCapacity, if |steps| > 0 then n else 0)
  {
    ghost var d0 := c.lastDeepWellPos;
    var labels, wells;
    init, labels, wells := InitialTransfer(c, tables, sources, n, volume);
    sampleRows, bufferRows, recorded := DilutionSteps(c, tables, labels, wells, n, steps, buffer);
    AdvancedAdd(d0, c.deepWellCapacity, n, Times(|steps| - 1) * n);
    assert |steps| > 0 ==> StartsFrom(sampleRows[0], labels, wells, n);
  }

  /** A list of `size * m` items splits into `m` chunks of exactly `size`. */
  lemma {:induction false} ChunksOfCount(xs: seq<int>, size: nat, m: nat)
    requires size > 0 && |xs| == size * m
    ensures |ChunksOf(xs, size)| == m
    ensures forall k :: 0 <= k < m ==> |ChunksOf(xs, size)[k]| == size
    decreases m
  {
    if m > 1 {
      assert |xs[size..]| == size * (m - 1);
      ChunksOfCount(xs[size..], size, m - 1);
    } else if m == 0 {
      assert |xs| == 0;
    }
  }
}
