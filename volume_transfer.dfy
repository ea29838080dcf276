/**
 * The volume transfer protocol of VolumeTransfer.py: every sample is transferred a number of
 * times, each time into the next position of the destination labware, and the destination
 * counter's value after each transfer is returned. The protocol runs on the older tables with
 * the sentinel counters.
 */
module VolumeTransfer {
  import opened Wrappers
  import opened Catalog
  import opened Addressing
  import opened Allocation
  import opened Dilution

  /** The rows of `sample_dilutions` and the returned `dest_positions`. */
  datatype Transfers = Transfers(rows: seq<Transfer>, positions: seq<int>)

  /** The rows of one sample: from its container into each destination label and well in turn. */
  function Block(source: string, sourceWell: int, labels: seq<string>, wells: seq<int>, volume: real): (rows: seq<Transfer>)
    requires |labels| == |wells|
  {
    seq(|labels|, j requires 0 <= j < |labels| => Transfer(source, sourceWell, labels[j], wells[j], volume))
  }

  /**
   * The rows of samples `i` onwards from counters `u`, given the samples' containers as the
   * parallel lists `labels` and `wells`: each sample's `r` rows go to the positions
   * `dilution_position_def(dest, u[dest] + 1, r)` lists, and the next sample starts from the
   * counters its `r` calls leave.
   */
  function TransferRows(t: Tables, u: map<string, int>, labels: seq<string>, wells: seq<int>, dest: string, r: nat,
                        volume: real, i: nat): (rows: seq<Transfer>)
    requires t.PlatesNamed() && |labels| == |wells| && i <= |labels| && (i == |labels| || dest in u)
    decreases |labels| - i
  {
    if i == |labels| then []
    else
      SentinelCountedValue(t, u, dest, r);
      Block(labels[i], wells[i], DilutionLabels(t, dest, u[dest] + 1, r), DilutionWells(t, dest, u[dest] + 1, r), volume)
        + TransferRows(t, SentinelCounted(t, u, dest, r), labels, wells, dest, r, volume, i + 1)
  }

  /** The counters after `k` samples of `r` calls each. */
  function After(t: Tables, u: map<string, int>, dest: string, r: nat, k: nat): map<string, int>
    decreases k
  {
    if k == 0 then u else After(t, SentinelCounted(t, u, dest, r), dest, r, k - 1)
  }

  /** The values `k` samples of `r` calls each record. */
  function Positions(t: Tables, u: map<string, int>, dest: string, r: nat, k: nat): seq<int>
    requires k == 0 || dest in u
    decreases k
  {
    if k == 0 then []
    else
      SentinelCountedValue(t, u, dest, r);
      Recorded(t, u, dest, r) + Positions(t, SentinelCounted(t, u, dest, r), dest, r, k - 1)
  }

  /**
   * What `sample_dilutions` returns for `n` samples of `r` transfers from counters `u`: the
   * samples sit in the containers `dilution_position_def(origin, 1, n)` lists, and reading the
   * destination's counter raises KeyError when it is no labware key and there is a sample.
   */
  function Transferred(t: Tables, u: map<string, int>, origin: string, dest: string, n: nat, r: nat, volume: real): Result<Transfers>
    requires t.PlatesNamed()
  {
    if n > 0 && dest !in u then Err(KeyError)
    else Ok(Transfers(TransferRows(t, u, DilutionLabels(t, origin, 1, n), DilutionWells(t, origin, 1, n), dest, r, volume, 0),
                      Positions(t, u, dest, r, n)))
  }

  // ---------------------------------------------------------------------------------------------
  // Properties of the transfers
  // ---------------------------------------------------------------------------------------------

  /**
   * `k * r` as repeated addition: the index of sample `k`'s first row when every sample has `r`
   * rows. Kept recursive so that reasoning about row indices stays linear.
   */
  function Mul(k: nat, r: nat): nat
    decreases k
  {
    if k == 0 then 0 else Mul(k - 1, r) + r
  }

  /** The sample row `k` belongs to when every sample has `r` rows: `k / r` by repeated subtraction. */
  function SampleOf(k: nat, r: nat): nat
    decreases k
  {
    if r == 0 || k < r then 0 else 1 + SampleOf(k - r, r)
  }

  /** `Mul` is multiplication. */
  lemma {:induction false} MulIsProduct(k: nat, r: nat)
    ensures Mul(k, r) == k * r
  {
    if k > 0 {
      MulIsProduct(k - 1, r);
    }
  }

  /** Samples without transfers give no rows. */
  lemma {:induction false} MulZero(k: nat)
    ensures Mul(k, 0) == 0
  {
    if k > 0 {
      MulZero(k - 1);
    }
  }

  /** `SampleOf` is Euclidean division, and row `Mul(s, r) + j` with `j < r` is in sample `s`. */
  lemma {:induction false} SampleOfIsQuotient(k: nat, r: nat)
    requires r > 0
    ensures SampleOf(k, r) == k / r
    decreases k
  {
    if k >= r {
      SampleOfIsQuotient(k - r, r);
      DivDrop(k, r);
    }
  }

  lemma MulLess(a: int, b: int, r: int)
    requires a <= b && r >= 0
    ensures a * r <= b * r
  {
  }

  lemma MulSub(a: int, b: int, r: int)
    ensures (a - b) * r == a * r - b * r
  {
  }

  /** Euclidean division is determined by quotient and remainder. */
  lemma DivUnique(x: int, r: int, q: int, m: int)
    requires r > 0 && x == q * r + m && 0 <= m < r
    ensures x / r == q
  {
    var d, e := x / r, x % r;
    assert x == d * r + e && 0 <= e < r;
    MulSub(q, d, r);
    if q > d {
      MulLess(1, q - d, r);
    } else if q < d {
      MulLess(1, d - q, r);
      MulSub(d, q, r);
    }
  }

  /** Dropping one block of `r` indices lowers the block number by one. */
  lemma DivDrop(k: int, r: int)
    requires r > 0 && k >= r
    ensures (k - r) / r == k / r - 1
  {
    var q, m := k / r, k % r;
    assert k == q * r + m && 0 <= m < r;
    MulSub(q, 1, r);
    DivUnique(k - r, r, q - 1, m);
  }

  /** Rows below `Mul(n, r)` belong to samples below `n`. */
  lemma {:induction false} SampleOfBelow(k: nat, r: nat, n: nat)
    requires k < Mul(n, r)
    ensures SampleOf(k, r) < n
    decreases n
  {
    if k >= r && r > 0 {
      SampleOfBelow(k - r, r, n - 1);
    }
  }

  lemma SampleOfStep(k: nat, r: nat)
    requires 0 < r <= k
    ensures SampleOf(k, r) == 1 + SampleOf(k - r, r)
  {
  }

  /** `k` samples of `r` calls leave the counters `k * r` calls leave. */
  lemma {:induction false} AfterCounted(t: Tables, u: map<string, int>, dest: string, r: nat, k: nat)
    ensures After(t, u, dest, r, k) == SentinelCounted(t, u, dest, Mul(k, r))
    decreases k
  {
    if k > 0 {
      AfterCounted(t, SentinelCounted(t, u, dest, r), dest, r, k - 1);
      SentinelCountedAdd(t, u, dest, r, Mul(k - 1, r));
    }
  }

  /** `k` samples of `r` calls record what `k * r` calls in a row record. */
  lemma {:induction false} PositionsRecorded(t: Tables, u: map<string, int>, dest: string, r: nat, k: nat)
    requires dest in u
    ensures Positions(t, u, dest, r, k) == Recorded(t, u, dest, Mul(k, r))
    decreases k
  {
    if k > 0 {
      SentinelCountedValue(t, u, dest, r);
      PositionsRecorded(t, SentinelCounted(t, u, dest, r), dest, r, k - 1);
      RecordedAdd(t, u, dest, r, Mul(k - 1, r));
    }
  }

  /** The samples from `i` on, of `r` transfers each, give that many times `r` rows. */
  lemma {:induction false} TransferRowsLength(t: Tables, u: map<string, int>, labels: seq<string>, wells: seq<int>,
                                              dest: string, r: nat, volume: real, i: nat)
    requires t.PlatesNamed() && |labels| == |wells| && i <= |labels| && (i == |labels| || dest in u)
    ensures |TransferRows(t, u, labels, wells, dest, r, volume, i)| == Mul(|labels| - i, r)
    decreases |labels| - i
  {
    if i < |labels| {
      SentinelCountedValue(t, u, dest, r);
      var u' := SentinelCounted(t, u, dest, r);
      TransferRowsLength(t, u', labels, wells, dest, r, volume, i + 1);
      var block := Block(labels[i], wells[i], DilutionLabels(t, dest, u[dest] + 1, r), DilutionWells(t, dest, u[dest] + 1, r), volume);
      assert TransferRows(t, u, labels, wells, dest, r, volume, i) == block + TransferRows(t, u', labels, wells, dest, r, volume, i + 1);
    }
  }

  /**
   * Row `k` of the samples from `i` on is one of the `r` transfers of sample `i + SampleOf(k, r)`:
   * it reads that sample's container and moves the given volume.
   */
  lemma {:induction false} TransferRowSource(t: Tables, u: map<string, int>, labels: seq<string>, wells: seq<int>,
                                             dest: string, r: nat, volume: real, i: nat, k: nat)
    requires t.PlatesNamed() && |labels| == |wells| && i <= |labels| && (i == |labels| || dest in u)
    requires r > 0 && k < |TransferRows(t, u, labels, wells, dest, r, volume, i)|
    ensures i + SampleOf(k, r) < |labels|
    ensures TransferRows(t, u, labels, wells, dest, r, volume, i)[k].source == labels[i + SampleOf(k, r)]
    ensures TransferRows(t, u, labels, wells, dest, r, volume, i)[k].sourceWell == wells[i + SampleOf(k, r)]
    ensures TransferRows(t, u, labels, wells, dest, r, volume, i)[k].volume == volume
    decreases |labels| - i
  {
    SentinelCountedValue(t, u, dest, r);
    var u' := SentinelCounted(t, u, dest, r);
    var block := Block(labels[i], wells[i], DilutionLabels(t, dest, u[dest] + 1, r), DilutionWells(t, dest, u[dest] + 1, r), volume);
    var rest := TransferRows(t, u', labels, wells, dest, r, volume, i + 1);
    assert TransferRows(t, u, labels, wells, dest, r, volume, i) == block + rest;
    assert |block| == r;
    if k < r {
      assert SampleOf(k, r) == 0;
      assert TransferRows(t, u, labels, wells, dest, r, volume, i)[k] == block[k];
    } else {
      TransferRowSource(t, u', labels, wells, dest, r, volume, i + 1, k - r);
      SampleOfStep(k, r);
      assert TransferRows(t, u, labels, wells, dest, r, volume, i)[k] == rest[k - r];
    }
  }

  /** Every row, read from the container of the sample it belongs to; see `TransferRowSource`. */
  lemma TransferRowsSources(t: Tables, u: map<string, int>, labels: seq<string>, wells: seq<int>,
                            dest: string, r: nat, volume: real, i: nat)
    requires t.PlatesNamed() && |labels| == |wells| && i <= |labels| && (i == |labels| || dest in u)
    ensures |TransferRows(t, u, labels, wells, dest, r, volume, i)| == Mul(|labels| - i, r)
    ensures forall k :: 0 <= k < Mul(|labels| - i, r) ==>
      && i + SampleOf(k, r) < |labels|
      && TransferRows(t, u, labels, wells, dest, r, volume, i)[k].source == labels[i + SampleOf(k, r)]
      && TransferRows(t, u, labels, wells, dest, r, volume, i)[k].sourceWell == wells[i + SampleOf(k, r)]
      && TransferRows(t, u, labels, wells, dest, r, volume, i)[k].volume == volume
  {
    TransferRowsLength(t, u, labels, wells, dest, r, volume, i);
    if r == 0 {
      MulZero(|labels| - i);
    } else {
      TransferRowsAllSources(t, u, labels, wells, dest, r, volume, i);
    }
  }

  lemma TransferRowsAllSources(t: Tables, u: map<string, int>, labels: seq<string>, wells: seq<int>,
                               dest: string, r: nat, volume: real, i: nat)
    requires t.PlatesNamed() && |labels| == |wells| && i <= |labels| && (i == |labels| || dest in u) && r > 0
    ensures forall k :: 0 <= k < |TransferRows(t, u, labels, wells, dest, r, volume, i)| ==>
      && i + SampleOf(k, r) < |labels|
      && TransferRows(t, u, labels, wells, dest, r, volume, i)[k].source == labels[i + SampleOf(k, r)]
      && TransferRows(t, u, labels, wells, dest, r, volume, i)[k].sourceWell == wells[i + SampleOf(k, r)]
      && TransferRows(t, u, labels, wells, dest, r, volume, i)[k].volume == volume
  {
    var rows := TransferRows(t, u, labels, wells, dest, r, volume, i);
    forall k | 0 <= k < |rows|
      ensures i + SampleOf(k, r) < |labels|
      ensures rows[k].source == labels[i + SampleOf(k, r)] && rows[k].sourceWell == wells[i + SampleOf(k, r)]
      ensures rows[k].volume == volume
    {
      TransferRowSource(t, u, labels, wells, dest, r, volume, i, k);
    }
  }

  /** Entry `k` of a run of positions from `start` is entry `k - d` of the run from `start + d`. */
  lemma DilutionShift(t: Tables, lw: string, start: int, start': int, d: nat, m: nat, m': nat, k: nat)
    requires t.PlatesNamed() && start' == start + d && d <= k < m && k - d < m'
    ensures DilutionLabels(t, lw, start', m')[k - d] == DilutionLabels(t, lw, start, m)[k]
    ensures DilutionWells(t, lw, start', m')[k - d] == DilutionWells(t, lw, start, m)[k]
  {
    assert start' + (k - d) == start + k;
  }

  /**
   * While the destination has room for all the transfers, row `k` goes to entry `k` of the run
   * `dilution_position_def(dest, u[dest] + 1, m)` of any length `m` that reaches it.
   */
  lemma {:induction false} TransferRowDest(t: Tables, u: map<string, int>, labels: seq<string>, wells: seq<int>,
                                           dest: string, r: nat, volume: real, i: nat, k: nat, m: nat)
    requires t.PlatesNamed() && |labels| == |wells| && i <= |labels|
    requires Countable(t, u, dest) && u[dest] + Mul(|labels| - i, r) <= t.capacity[dest]
    requires k < |TransferRows(t, u, labels, wells, dest, r, volume, i)| && k < m
    ensures TransferRows(t, u, labels, wells, dest, r, volume, i)[k].dest == DilutionLabels(t, dest, u[dest] + 1, m)[k]
    ensures TransferRows(t, u, labels, wells, dest, r, volume, i)[k].destWell == DilutionWells(t, dest, u[dest] + 1, m)[k]
    decreases |labels| - i
  {
    SentinelCountedValue(t, u, dest, r);
    var u' := SentinelCounted(t, u, dest, r);
    assert u'[dest] == u[dest] + r;
    var block := Block(labels[i], wells[i], DilutionLabels(t, dest, u[dest] + 1, r), DilutionWells(t, dest, u[dest] + 1, r), volume);
    var rest := TransferRows(t, u', labels, wells, dest, r, volume, i + 1);
    assert TransferRows(t, u, labels, wells, dest, r, volume, i) == block + rest;
    assert |block| == r;
    if k < r {
      assert TransferRows(t, u, labels, wells, dest, r, volume, i)[k] == block[k];
      DilutionShift(t, dest, u[dest] + 1, u[dest] + 1, 0, m, r, k);
    } else {
      TransferRowDest(t, u', labels, wells, dest, r, volume, i + 1, k - r, m - r);
      assert TransferRows(t, u, labels, wells, dest, r, volume, i)[k] == rest[k - r];
      DilutionShift(t, dest, u[dest] + 1, u'[dest] + 1, r, m, m - r, k);
    }
  }

  /** Every row, sent to its entry of one run of destination positions; see `TransferRowDest`. */
  lemma TransferRowsDest(t: Tables, u: map<string, int>, labels: seq<string>, wells: seq<int>,
                         dest: string, r: nat, volume: real, i: nat)
    requires t.PlatesNamed() && |labels| == |wells| && i <= |labels|
    requires Countable(t, u, dest) && u[dest] + Mul(|labels| - i, r) <= t.capacity[dest]
    ensures |TransferRows(t, u, labels, wells, dest, r, volume, i)| == Mul(|labels| - i, r)
    ensures forall k :: 0 <= k < Mul(|labels| - i, r) ==>
      && TransferRows(t, u, labels, wells, dest, r, volume, i)[k].dest == DilutionLabels(t, dest, u[dest] + 1, Mul(|labels| - i, r))[k]
      && TransferRows(t, u, labels, wells, dest, r, volume, i)[k].destWell == DilutionWells(t, dest, u[dest] + 1, Mul(|labels| - i, r))[k]
  {
    TransferRowsLength(t, u, labels, wells, dest, r, volume, i);
    forall k | 0 <= k < Mul(|labels| - i, r)
      ensures TransferRows(t, u, labels, wells, dest, r, volume, i)[k].dest == DilutionLabels(t, dest, u[dest] + 1, Mul(|labels| - i, r))[k]
      ensures TransferRows(t, u, labels, wells, dest, r, volume, i)[k].destWell == DilutionWells(t, dest, u[dest] + 1, Mul(|labels| - i, r))[k]
    {
      TransferRowDest(t, u, labels, wells, dest, r, volume, i, k, Mul(|labels| - i, r));
    }
  }

  /**
   * What `sample_dilutions` returns, read row by row: `n * r` rows, sample-major, every
   * returned value the destination's counter after one more call, and the counters left as by
   * `n * r` calls.
   */
  lemma TransferredRows(t: Tables, u: map<string, int>, origin: string, dest: string, n: nat, r: nat, volume: real)
    requires t.PlatesNamed() && dest in u
    ensures var res := Transferred(t, u, origin, dest, n, r, volume);
      && res.Ok? && |res.value.rows| == Mul(n, r)
      && res.value.positions == Recorded(t, u, dest, Mul(n, r))
      && After(t, u, dest, r, n) == SentinelCounted(t, u, dest, Mul(n, r))
      && forall k :: 0 <= k < Mul(n, r) ==>
           && SampleOf(k, r) < n
           && res.value.rows[k].source == DilutionLabels(t, origin, 1, n)[SampleOf(k, r)]
           && res.value.rows[k].sourceWell == DilutionWells(t, origin, 1, n)[SampleOf(k, r)]
           && res.value.rows[k].volume == volume
  {
    TransferRowsLength(t, u, DilutionLabels(t, origin, 1, n), DilutionWells(t, origin, 1, n), dest, r, volume, 0);
    TransferRowsSources(t, u, DilutionLabels(t, origin, 1, n), DilutionWells(t, origin, 1, n), dest, r, volume, 0);
    PositionsRecorded(t, u, dest, r, n);
    AfterCounted(t, u, dest, r, n);
  }

  /**
   * With room for every transfer, the returned positions are the run after the destination's
   * counter, and row `k` went to the `k`-th position of that run, the one returned with it.
   */
  lemma TransferredPositions(t: Tables, u: map<string, int>, origin: string, dest: string, n: nat, r: nat, volume: real)
    requires t.PlatesNamed() && Countable(t, u, dest) && u[dest] + Mul(n, r) <= t.capacity[dest]
    ensures var res := Transferred(t, u, origin, dest, n, r, volume);
      && res.Ok? && |res.value.rows| == |res.value.positions| == Mul(n, r)
      && (forall k :: 0 <= k < Mul(n, r) ==> res.value.positions[k] == u[dest] + 1 + k)
      && (forall k :: 0 <= k < Mul(n, r) ==>
            && res.value.rows[k].dest == DilutionLabels(t, dest, u[dest] + 1, Mul(n, r))[k]
            && res.value.rows[k].destWell == DilutionWells(t, dest, u[dest] + 1, Mul(n, r))[k])
  {
    var labels, wells := DilutionLabels(t, origin, 1, n), DilutionWells(t, origin, 1, n);
    TransferRowsLength(t, u, labels, wells, dest, r, volume, 0);
    TransferRowsDest(t, u, labels, wells, dest, r, volume, 0);
    PositionsRecorded(t, u, dest, r, n);
    RecordedClimb(t, u, dest, Mul(n, r));
  }

  // ---------------------------------------------------------------------------------------------
  // Counting the samples' own positions
  // ---------------------------------------------------------------------------------------------

  /**
   * As written, samples in DeepWell wells are not counted, because the DeepWell display name is
   * no key: after a reset, transferring them into DeepWell wells puts the first transfer of the
   * first sample back into its own well 1.
   */
  lemma DeepWellSampleOntoItself(n: nat, r: nat, volume: real)
    requires n >= 1 && r >= 1
    ensures var u := StartCountAsWritten(OldTables, Zeros(OldNames.Keys), "DeepWell", n);
      var res := Transferred(OldTables, u, "DeepWell", "DeepWell", n, r, volume);
      && res.Ok? && |res.value.rows| >= 1
      && res.value.rows[0].dest == res.value.rows[0].source
      && res.value.rows[0].destWell == res.value.rows[0].sourceWell == 1
  {
    PlatesAreNamed();
    DisplayNames();
    var u0 := Zeros(OldNames.Keys);
    DisplayNameNotCounted(OldTables, u0, "DeepWell", n);
    PlateFirstRowOntoItself(OldTables, StartCountAsWritten(OldTables, u0, "DeepWell", n), "DeepWell", n, r, volume);
  }

  /**
   * The 2R and 8R vial holders the origin menu offers are counted the same way: a transfer from
   * one of them into the same holder sends its first row back into the first sample's own vial.
   */
  lemma VialSampleOntoItself(lw: string, n: nat, r: nat, volume: real)
    requires (lw == "2R Vial" || lw == "8R Vial") && n >= 1 && r >= 1
    ensures var u := StartCountAsWritten(OldTables, Zeros(OldNames.Keys), lw, n);
      var res := Transferred(OldTables, u, lw, lw, n, r, volume);
      && res.Ok? && |res.value.rows| >= 1
      && res.value.rows[0].dest == res.value.rows[0].source
      && res.value.rows[0].destWell == res.value.rows[0].sourceWell == 1
  {
    PlatesAreNamed();
    OldVialNamesNoKey();
    var u0 := Zeros(OldNames.Keys);
    DisplayNameNotCounted(OldTables, u0, lw, n);
    PlateFirstRowOntoItself(OldTables, StartCountAsWritten(OldTables, u0, lw, n), lw, n, r, volume);
  }

  /** From a plate into the same plate with its counter at 0, the first row stays in well 1. */
  lemma PlateFirstRowOntoItself(t: Tables, u: map<string, int>, lw: string, n: nat, r: nat, volume: real)
    requires t.PlatesNamed() && lw in t.plates && lw in u && u[lw] == 0 && n >= 1 && r >= 1
    ensures var rows := TransferRows(t, u, DilutionLabels(t, lw, 1, n), DilutionWells(t, lw, 1, n), lw, r, volume, 0);
      && |rows| >= 1 && rows[0].dest == rows[0].source && rows[0].destWell == rows[0].sourceWell == 1
  {
    SentinelCountedValue(t, u, lw, r);
  }

  /**
   * Counting the origin labware itself, as intended, sends the DeepWell samples' transfers to
   * wells after the samples' own: with room for all of them, every source well is one of the
   * first `n` and every destination well comes after them.
   */
  lemma DeepWellSamplesIntended(n: nat, r: nat, volume: real)
    requires n + Mul(n, r) <= 96
    ensures var u := StartCountIntended(OldTables, Zeros(OldNames.Keys), "DeepWell", n);
      var res := Transferred(OldTables, u, "DeepWell", "DeepWell", n, r, volume);
      && res.Ok? && |res.value.rows| == Mul(n, r)
      && forall k :: 0 <= k < Mul(n, r) ==> 1 <= res.value.rows[k].sourceWell <= n < res.value.rows[k].destWell
  {
    PlatesAreNamed();
    var u0 := Zeros(OldNames.Keys);
    SentinelCountedValue(OldTables, u0, "DeepWell", n);
    PlateSamplesApart(OldTables, StartCountIntended(OldTables, u0, "DeepWell", n), "DeepWell", n, r, volume);
  }

  /**
   * From a plate into the same plate whose counter is past the `n` samples, with room for all
   * transfers, the rows read wells 1 to `n` and write only wells after them.
   */
  lemma PlateSamplesApart(t: Tables, u: map<string, int>, lw: string, n: nat, r: nat, volume: real)
    requires t.PlatesNamed() && lw in t.plates && Countable(t, u, lw) && n <= u[lw] && u[lw] + Mul(n, r) <= t.capacity[lw]
    ensures var rows := TransferRows(t, u, DilutionLabels(t, lw, 1, n), DilutionWells(t, lw, 1, n), lw, r, volume, 0);
      && |rows| == Mul(n, r)
      && forall k :: 0 <= k < Mul(n, r) ==> 1 <= rows[k].sourceWell <= n < rows[k].destWell
  {
    var labels, wells := DilutionLabels(t, lw, 1, n), DilutionWells(t, lw, 1, n);
    TransferRowsLength(t, u, labels, wells, lw, r, volume, 0);
    TransferRowsSources(t, u, labels, wells, lw, r, volume, 0);
    TransferRowsDest(t, u, labels, wells, lw, r, volume, 0);
  }

  /**
   * After the first `i` samples from counters `u0`: the rows and positions so far, followed by
   * what the remaining samples produce from the current counters `u`, are those of all of them.
   */
  predicate Progress(t: Tables, u0: map<string, int>, u: map<string, int>, labels: seq<string>, wells: seq<int>,
                     dest: string, r: nat, volume: real, i: nat, rows: seq<Transfer>, positions: seq<int>)
    requires t.PlatesNamed()
  {
    && |labels| == |wells| && i <= |labels| && dest in u0 && dest in u
    && rows + TransferRows(t, u, labels, wells, dest, r, volume, i) == TransferRows(t, u0, labels, wells, dest, r, volume, 0)
    && positions + Positions(t, u, dest, r, |labels| - i) == Positions(t, u0, dest, r, |labels|)
    && After(t, u, dest, r, |labels| - i) == After(t, u0, dest, r, |labels|)
  }

  /** Once every sample is done, the rows, positions and counters are those of the whole run. */
  lemma ProgressDone(t: Tables, u0: map<string, int>, u: map<string, int>, labels: seq<string>, wells: seq<int>,
                     dest: string, r: nat, volume: real, rows: seq<Transfer>, positions: seq<int>)
    requires t.PlatesNamed() && Progress(t, u0, u, labels, wells, dest, r, volume, |labels|, rows, positions)
    ensures rows == TransferRows(t, u0, labels, wells, dest, r, volume, 0)
    ensures positions == Positions(t, u0, dest, r, |labels|)
    ensures u == SentinelCounted(t, u0, dest, Mul(|labels|, r))
  {
    assert TransferRows(t, u, labels, wells, dest, r, volume, |labels|) == [];
    assert rows == rows + [];
    assert positions == positions + [];
    AfterCounted(t, u0, dest, r, |labels|);
  }

  // ---------------------------------------------------------------------------------------------
  // The protocol object
  // ---------------------------------------------------------------------------------------------

  /** `VolumeTransfer`: its sentinel counters over the older tables and the returned positions. */
  class VolumeTransferMethod {
    const counters: SentinelCounters
    var sampleDestPositions: seq<int>

    constructor ()
      ensures fresh(counters) && counters.tables == OldTables && counters.used == Zeros(OldNames.Keys)
      ensures sampleDestPositions == []
    {
      counters := new SentinelCounters(OldTables);
      sampleDestPositions := [];
    }

    /** The reset of `set_all_parameters`. */
    method SetAllParameters()
      modifies counters
      ensures counters.used == Zeros(old(counters.used).Keys)
    {
      counters.Reset();
    }

    /**
     * The transfers of one sample: `r` rows from its container into the lists
     * `dilution_position_def(dest, used[dest] + 1, r)` gives, each followed by a call for the
     * destination and the record of its counter.
     */
    method SampleTransfers(source: string, sourceWell: int, dest: string, r: nat, volume: real)
      returns (rows: seq<Transfer>, recorded: seq<int>)
      requires counters.tables.PlatesNamed() && dest in counters.used
      modifies counters
      ensures var start := old(counters.used)[dest] + 1;
        rows == Block(source, sourceWell, DilutionLabels(counters.tables, dest, start, r), DilutionWells(counters.tables, dest, start, r), volume)
      ensures recorded == Recorded(counters.tables, old(counters.used), dest, r)
      ensures counters.used == SentinelCounted(counters.tables, old(counters.used), dest, r)
    {
      var t := counters.tables;
      ghost var u0 := counters.used;
      var labDest, destWell := DilutionPositionDef(t, dest, counters.used[dest] + 1, r);
      rows, recorded := [], [];
      for j := 0 to r
        invariant rows == Block(source, sourceWell, labDest[..j], destWell[..j], volume)
        invariant dest in counters.used
        invariant SentinelCounted(t, u0, dest, r) == SentinelCounted(t, counters.used, dest, r - j)
        invariant recorded + Recorded(t, counters.used, dest, r - j) == Recorded(t, u0, dest, r)
      {
        rows := rows + [Transfer(source, sourceWell, labDest[j], destWell[j], volume)];
        ghost var before := counters.used;
        var _ := counters.NextLabwarePos(dest);
        assert Recorded(t, before, dest, r - j) == [counters.used[dest]] + Recorded(t, counters.used, dest, r - j - 1);
        recorded := recorded + [counters.used[dest]];
      }
      assert labDest[..r] == labDest && destWell[..r] == destWell;
    }

    /** Sample `i` of `sample_dilutions`: its transfers extend the rows and positions of the samples before it. */
    method SampleStep(ghost u0: map<string, int>, labels: seq<string>, wells: seq<int>, dest: string, r: nat, volume: real,
                      i: nat, rows: seq<Transfer>, positions: seq<int>)
      returns (rows': seq<Transfer>, positions': seq<int>)
      requires counters.tables.PlatesNamed() && i < |labels|
      requires Progress(counters.tables, u0, counters.used, labels, wells, dest, r, volume, i, rows, positions)
      modifies counters
      ensures Progress(counters.tables, u0, counters.used, labels, wells, dest, r, volume, i + 1, rows', positions')
    {
      var t := counters.tables;
      SentinelCountedValue(t, counters.used, dest, r);
      ghost var before := counters.used;
      var more, recorded := SampleTransfers(labels[i], wells[i], dest, r, volume);
      var rest := TransferRows(t, counters.used, labels, wells, dest, r, volume, i + 1);
      assert TransferRows(t, before, labels, wells, dest, r, volume, i) == more + rest;
      assert rows + more + rest == rows + (more + rest);
      var later := Positions(t, counters.used, dest, r, |labels| - i - 1);
      assert Positions(t, before, dest, r, |labels| - i) == recorded + later;
      assert positions + recorded + later == positions + (recorded + later);
      rows', positions' := rows + more, positions + recorded;
    }

    /**
     * `sample_dilutions`: for each of the `n` samples, read from container `i + 1` of the
     * origin, its `r` transfers into the next destination positions.
     */
    method SampleDilutions(origin: string, dest: string, n: nat, r: nat, volume: real) returns (res: Result<Transfers>)
      requires counters.tables.PlatesNamed()
      modifies counters
      ensures res == Transferred(counters.tables, old(counters.used), origin, dest, n, r, volume)
      ensures counters.used == SentinelCounted(counters.tables, old(counters.used), dest, Mul(n, r))
    {
      var t := counters.tables;
      ghost var u0 := counters.used;
      var labSource, sourceWell := DilutionPositionDef(t, origin, 1, n);
      if n > 0 && dest !in counters.used {
        SentinelCountedValue(t, u0, dest, Mul(n, r));
        return Err(KeyError);
      }
      if n == 0 {
        return Ok(Transfers([], []));
      }
      var rows: seq<Transfer> := [];
      var positions: seq<int> := [];
      for i := 0 to n
        invariant Progress(t, u0, counters.used, labSource, sourceWell, dest, r, volume, i, rows, positions)
      {
        rows, positions := SampleStep(u0, labSource, sourceWell, dest, r, volume, i, rows, positions);
      }
      ProgressDone(t, u0, counters.used, labSource, sourceWell, dest, r, volume, rows, positions);
      res := Ok(Transfers(rows, positions));
    }

    /**
     * `volume_transfer`: count the samples' own positions, then run the transfers and keep the
     * returned positions. Negative counts behave as zero.
     */
    method Run(origin: string, dest: string, n: int, r: int, volume: int) returns (res: Result<Transfers>)
      requires counters.tables.PlatesNamed()
      modifies this, counters
      ensures var u := StartCountAsWritten(counters.tables, old(counters.used), origin, n);
        && res == Transferred(counters.tables, u, origin, dest, Times(n), Times(r), volume as real)
        && counters.used == SentinelCounted(counters.tables, u, dest, Mul(Times(n), Times(r)))
      ensures res.Ok? ==> sampleDestPositions == res.value.positions
      ensures res.Err? ==> sampleDestPositions == old(sampleDestPositions)
    {
      counters.CountStartingLwPos(origin, n);
      res := SampleDilutions(origin, dest, Times(n), Times(r), volume as real);
      if res.Ok? {
        sampleDestPositions := res.value.positions;
      }
    }
  }
}
