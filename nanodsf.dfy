/**
 * The nanoDSF protocol of helper/nanoDSF.py: samples go, one well each, onto a 384-well plate
 * filled row by row; with BSA enabled, the first slot of every 24-slot row is kept for BSA and
 * the samples move right to make room.
 */
module NanoDSF {
  import opened Wrappers
  import opened Catalog
  import opened Allocation
  import opened WellGeometry
  import DotblotPump

  /** `[i for i in range(1, n + 1)]`: the slots 1..n. */
  function Iota(n: nat): (xs: seq<int>)
    ensures |xs| == n && forall j :: 0 <= j < n ==> xs[j] == j + 1
  {
    seq(n, j requires 0 <= j < n => j + 1)
  }

  /** How many BSA slots the loop inserts for `n` samples: one per 23 samples, rounded up. */
  function BsaCount(n: nat): nat { (n + 22) / 23 }

  /** How many slots are mapped to wells: the samples, and the BSA slots when BSA is added. */
  function SlotCount(n: nat, addBsa: bool): nat { n + if addBsa then BsaCount(n) else 0 }

  /**
   * A well of the 384-well plate for slot `p` in horizontal single mode, or the rejection object,
   * as the mapper computes it: a slot at the end of a row lands one row too low.
   */
  function SlotWell(p: int): Wells
  {
    if 1 <= p <= 384 then Single(HorizontalSingleAsWritten(p, 384)) else PositionRejected
  }

  /** The intended well of slot `p`: row-major slots onto the plate, one well each. */
  function IntendedSlotWell(p: int): Wells
  {
    if 1 <= p <= 384 then Single(HorizontalSingle(p, 384)) else PositionRejected
  }

  /** What `get_deep_well_pos(p, 384, "horizontal", "single")` gives. */
  lemma SlotWellIsMapper(p: int)
    ensures DeepWellPos(p, 384, "horizontal", "single") == Ok(SlotWell(p))
  {
  }

  /** The wells of slots 1..count, in slot order. */
  function SlotWells(count: nat): (ws: seq<Wells>)
    ensures |ws| == count && forall j :: 0 <= j < count ==> ws[j] == SlotWell(j + 1)
  {
    seq(count, j requires 0 <= j < count => SlotWell(j + 1))
  }

  /** The intended wells of slots 1..count, in slot order. */
  function IntendedSlotWells(count: nat): (ws: seq<Wells>)
    ensures |ws| == count && forall j :: 0 <= j < count ==> ws[j] == IntendedSlotWell(j + 1)
  {
    seq(count, j requires 0 <= j < count => IntendedSlotWell(j + 1))
  }

  /** The well of the `j`-th BSA slot (0-based): slot 24j+1 is the first column of row j. */
  function BsaWell(j: nat): Wells
  {
    if j < 16 then Single(j + 1) else PositionRejected
  }

  /** The BSA wells one run appends. */
  function RunBsaWells(n: nat, addBsa: bool): (ws: seq<Wells>)
    ensures |ws| == if addBsa then BsaCount(n) else 0
    ensures forall j :: 0 <= j < |ws| ==> ws[j] == BsaWell(j)
  {
    if addBsa then seq(BsaCount(n), j requires 0 <= j < BsaCount(n) => BsaWell(j)) else []
  }

  /** The first column of the plate: the `j`-th BSA slot lands in row `j`, column 1. */
  lemma BsaSlotWell(j: nat)
    ensures SlotWell(24 * j + 1) == BsaWell(j) && IntendedSlotWell(24 * j + 1) == BsaWell(j)
  {
    if j < 16 {
      assert (24 * j + 1 - 1) / 24 == j && (24 * j + 1 - 1) % 24 == 0;
      assert (24 * j + 1) / 24 == j && (24 * j + 1) % 24 == 1;
    }
  }

  /**
   * The `while` loop of `calculate_deep_well_positions`: it shifts `pos[index:]` right by one,
   * inserts `index + 1` at `index`, records that slot's well as a BSA well and moves 24 slots on.
   * The list stays 1..len, so it ends as 1..n+k with k BSA slots at 1, 25, 49, ...
   */
  method InsertBsaSlots(n: nat) returns (pos: seq<int>, bsa: seq<Wells>)
    ensures pos == Iota(SlotCount(n, true))
    ensures bsa == RunBsaWells(n, true)
  {
    pos := Iota(n);
    bsa := [];
    var index := 0;
    while index < |pos|
      invariant index == 24 * |bsa|
      invariant pos == Iota(n + |bsa|)
      invariant |bsa| == 0 || 23 * (|bsa| - 1) < n
      invariant forall j :: 0 <= j < |bsa| ==> bsa[j] == BsaWell(j)
      decreases |pos| - index
    {
      var len := |pos|;
      pos := pos[..index] + seq(len - index, j requires 0 <= j < len - index => pos[index + j] + 1);
      assert forall j :: 0 <= j < len ==> pos[j] == if j < index then j + 1 else j + 2;
      pos := pos[..index] + [index + 1] + pos[index..];
      assert forall j :: 0 <= j < len + 1 ==> pos[j] == j + 1;
      assert pos == Iota(len + 1);
      SlotWellIsMapper(pos[index]);
      BsaSlotWell(|bsa|);
      var w := DeepWellPos(pos[index], 384, "horizontal", "single");
      bsa := bsa + [w.value];
      index := index + 24;
    }
    assert |bsa| == BsaCount(n);
  }

  /**
   * The mapping loop of `calculate_deep_well_positions` over the slots 1..|slots|: with the
   * misspelt triplicate token the mapper rejects the first slot with ValueError, otherwise every
   * slot is mapped, slots past the plate to the rejection object.
   */
  method MapSlots(slots: seq<int>, triplicates: bool) returns (r: Result<seq<Wells>>)
    requires slots == Iota(|slots|)
    ensures triplicates && |slots| > 0 ==> r == Err(ValueError)
    ensures !triplicates || |slots| == 0 ==> r == Ok(SlotWells(|slots|))
  {
    var token := if triplicates then "tripicate" else "single";
    var wells: seq<Wells> := [];
    for i := 0 to |slots|
      invariant wells == SlotWells(i)
      invariant triplicates ==> i == 0
    {
      var w := DeepWellPos(slots[i], 384, "horizontal", token);
      if w.Err? {
        return Err(w.error);
      }
      SlotWellIsMapper(slots[i]);
      wells := wells + [w.value];
    }
    r := Ok(wells);
  }

  /** The slot of sample `i` (0-based) once the BSA slots are in place. */
  function SampleSlot(i: nat): int { i + i / 23 + 2 }

  /** Slot `p` heads a 24-slot row. */
  predicate IsRowStart(p: int) { (p - 1) % 24 == 0 }

  /** Sample slots avoid the row starts, keep the sample order and stay inside 1..n+k. */
  lemma SampleSlotBounds(n: nat, i: nat)
    requires i < n
    ensures 2 <= SampleSlot(i) <= SlotCount(n, true) && !IsRowStart(SampleSlot(i))
    ensures forall j :: i < j < n ==> SampleSlot(i) < SampleSlot(j)
  {
    var q, b := i / 23, i % 23;
    assert SampleSlot(i) - 1 == 24 * q + b + 1;
    assert (SampleSlot(i) - 1) % 24 == b + 1;
    assert (n - 1) / 23 >= q;
    assert BsaCount(n) == (n - 1) / 23 + 1;
  }

  /**
   * After the loop the slots split exactly: the row starts 24j+1 (j < k) are BSA slots, every
   * other slot of 1..n+k is the slot of exactly one sample.
   */
  lemma SlotsSplit(n: nat, p: int)
    requires 1 <= p <= SlotCount(n, true)
    ensures IsRowStart(p) ==> (p - 1) / 24 < BsaCount(n)
    ensures !IsRowStart(p) ==> exists i :: 0 <= i < n && SampleSlot(i) == p
  {
    var q, r := (p - 1) / 24, (p - 1) % 24;
    assert p == 24 * q + r + 1;
    var k := BsaCount(n);
    assert 23 * k >= n;
    if r != 0 {
      var i := 23 * q + r - 1;
      assert i / 23 == q;
      assert SampleSlot(i) == p;
      assert n + k < SampleSlot(n);
      assert i < n;
    }
  }

  /** Which slot sample `i` is mapped from: `i + 1` without BSA, `SampleSlot(i)` with BSA. */
  function SampleSlotOf(addBsa: bool, i: nat): int
  {
    if addBsa then SampleSlot(i) else i + 1
  }

  /** The integer wells in a list that may hold rejection objects. */
  function Ints(ws: seq<Wells>): (s: set<int>)
    ensures forall w :: w in s <==> Single(w) in ws
  {
    set x | x in ws && x.Single? :: x.well
  }

  /** `sorted(list(s))` for a set of wells inside 1..hi: strictly ascending, the same elements. */
  function Ascending(s: set<int>, hi: int): (xs: seq<int>)
    ensures forall i, j :: 0 <= i < j < |xs| ==> xs[i] < xs[j]
    ensures forall x :: x in xs <==> x in s && 1 <= x <= hi
    ensures forall i :: 0 <= i < |xs| ==> 1 <= xs[i] <= hi
    decreases hi
  {
    if hi < 1 then []
    else
      var xs := Ascending(s, hi - 1);
      xs + (if hi in s then [hi] else [])
  }

  /**
   * `sample_dest_positions` as written: every slot's well minus every well `BSA_wells` holds,
   * including those left over from earlier runs of the same object.
   */
  function DestAsWritten(stale: seq<Wells>, n: nat, addBsa: bool): seq<int>
  {
    Ascending(Ints(SlotWells(SlotCount(n, addBsa))) - Ints(stale + RunBsaWells(n, addBsa)), 384)
  }

  /**
   * The intended `sample_dest_positions`: the intended well of every slot, minus only this run's
   * BSA wells.
   */
  function FreshDest(n: nat, addBsa: bool): seq<int>
  {
    Ascending(Ints(IntendedSlotWells(SlotCount(n, addBsa))) - Ints(RunBsaWells(n, addBsa)), 384)
  }

  /** A BSA well: a well of the first column, or a rejection object. */
  predicate BsaLike(w: Wells) { w == PositionRejected || (w.Single? && 1 <= w.well <= 16) }

  /**
   * With BSA wells limited to the first column, a slot past the plate means the set difference
   * holds a rejection object beside well 17 (slot 2), so `sorted` raises TypeError.
   */
  lemma PastThePlateMixesTypes(stale: seq<Wells>, n: nat, addBsa: bool)
    requires forall w :: w in stale ==> BsaLike(w)
    requires SlotCount(n, addBsa) > 384
    ensures PositionRejected in SlotWells(SlotCount(n, addBsa))
    ensures Single(17) in SlotWells(SlotCount(n, addBsa)) && 17 !in Ints(stale + RunBsaWells(n, addBsa))
  {
    var ws := SlotWells(SlotCount(n, addBsa));
    assert ws[384] == PositionRejected;
    assert ws[1] == Single(17);
    var bsa := stale + RunBsaWells(n, addBsa);
    forall w | w in bsa
      ensures BsaLike(w)
    {
      if w !in stale {
        var j :| 0 <= j < |RunBsaWells(n, addBsa)| && RunBsaWells(n, addBsa)[j] == w;
      }
    }
  }

  /**
   * The corrected destinations: a well is listed exactly when it is the well of some sample's
   * slot, with or without BSA.
   */
  lemma FreshDestIsSamples(n: nat, addBsa: bool, w: int)
    requires SlotCount(n, addBsa) <= 384
    ensures w in FreshDest(n, addBsa) <==> exists i :: 0 <= i < n && w == HorizontalSingle(SampleSlotOf(addBsa, i), 384)
  {
    if w in FreshDest(n, addBsa) {
      FreshDestOnlySamples(n, addBsa, w);
    }
    if exists i :: 0 <= i < n && w == HorizontalSingle(SampleSlotOf(addBsa, i), 384) {
      var i :| 0 <= i < n && w == HorizontalSingle(SampleSlotOf(addBsa, i), 384);
      FreshDestHasSample(n, addBsa, i);
    }
  }

  /** A listed well is the well of some sample's slot. */
  lemma FreshDestOnlySamples(n: nat, addBsa: bool, w: int)
    requires SlotCount(n, addBsa) <= 384 && w in FreshDest(n, addBsa)
    ensures exists i :: 0 <= i < n && w == HorizontalSingle(SampleSlotOf(addBsa, i), 384)
  {
    var p := ListedSlot(n, addBsa, w);
    if addBsa {
      SlotsSplit(n, p);
      if IsRowStart(p) {
        RowStartIsBsa(n, p);
        assert false;
      }
      var i :| 0 <= i < n && SampleSlot(i) == p;
      assert w == HorizontalSingle(SampleSlotOf(addBsa, i), 384);
    } else {
      assert w == HorizontalSingle(SampleSlotOf(addBsa, p - 1), 384);
    }
  }

  /** A listed well is the well of a slot, and no BSA well of the run. */
  lemma ListedSlot(n: nat, addBsa: bool, w: int) returns (p: int)
    requires SlotCount(n, addBsa) <= 384 && w in FreshDest(n, addBsa)
    ensures 1 <= p <= SlotCount(n, addBsa) && IntendedSlotWell(p) == Single(w) && Single(w) !in RunBsaWells(n, addBsa)
  {
    var ws := IntendedSlotWells(SlotCount(n, addBsa));
    assert Single(w) in ws && Single(w) !in RunBsaWells(n, addBsa);
    var j :| 0 <= j < |ws| && ws[j] == Single(w);
    p := j + 1;
  }

  /** The well of a row-start slot within 1..n+k is one of the run's BSA wells. */
  lemma RowStartIsBsa(n: nat, p: int)
    requires 1 <= p <= SlotCount(n, true) && IsRowStart(p)
    ensures IntendedSlotWell(p) in RunBsaWells(n, true)
  {
    SlotsSplit(n, p);
    var b := (p - 1) / 24;
    assert p == 24 * b + 1;
    BsaSlotWell(b);
    assert RunBsaWells(n, true)[b] == BsaWell(b);
  }

  /** The well of every sample's slot is listed. */
  lemma FreshDestHasSample(n: nat, addBsa: bool, i: nat)
    requires SlotCount(n, addBsa) <= 384 && i < n
    ensures HorizontalSingle(SampleSlotOf(addBsa, i), 384) in FreshDest(n, addBsa)
  {
    var count := SlotCount(n, addBsa);
    var ws := IntendedSlotWells(count);
    var bsa := RunBsaWells(n, addBsa);
    var w := HorizontalSingle(SampleSlotOf(addBsa, i), 384);
    {
      var p := SampleSlotOf(addBsa, i);
      if addBsa {
        SampleSlotBounds(n, i);
      }
      assert ws[p - 1] == Single(w);
      HorizontalSingleRowMajor(p, 384);
      if addBsa {
        forall b | 0 <= b < |bsa|
          ensures bsa[b] != Single(w)
        {
          BsaSlotWell(b);
          if b < 16 {
            HorizontalSingleBijective(p, 24 * b + 1, 1, 384);
          }
        }
      }
      assert Single(w) !in bsa;
    }
  }

  /** Different samples get different wells, so the corrected list has one well per sample. */
  lemma SampleWellsDistinct(n: nat, addBsa: bool, i: nat, j: nat)
    requires SlotCount(n, addBsa) <= 384 && i < j < n
    ensures HorizontalSingle(SampleSlotOf(addBsa, i), 384) != HorizontalSingle(SampleSlotOf(addBsa, j), 384)
  {
    if addBsa {
      SampleSlotBounds(n, i);
      SampleSlotBounds(n, j);
    }
    HorizontalSingleBijective(SampleSlotOf(addBsa, i), SampleSlotOf(addBsa, j), 1, 384);
  }

  /**
   * `BSA_wells` is never cleared: after a BSA run with 24 samples (BSA wells 1 and 2), a run of
   * 25 samples without BSA drops wells 1 and 2, the wells of samples 1 and 25, from its
   * destinations, and the sample transfer then excludes well 1.
   */
  lemma StaleBsaWellsDropSamples()
    ensures RunBsaWells(24, true) == [Single(1), Single(2)]
    ensures 1 !in DestAsWritten(RunBsaWells(24, true), 25, false)
    ensures 2 !in DestAsWritten(RunBsaWells(24, true), 25, false)
    ensures 1 in DestAsWritten([], 25, false) && 2 in DestAsWritten([], 25, false)
    ensures 1 in FreshDest(25, false) && 2 in FreshDest(25, false)
  {
    assert BsaCount(24) == 2;
    assert RunBsaWells(24, true) == [BsaWell(0), BsaWell(1)];
    assert SlotWells(25)[0] == Single(1);
    assert SlotWells(25)[24] == Single(2);
    assert IntendedSlotWells(25)[0] == Single(1);
    assert IntendedSlotWells(25)[24] == Single(2);
  }

  /**
   * The mapper as written sends the last slot of a row one row down: with BSA and 23 samples,
   * sample 23 sits in slot 24 and is listed at well 370, while well 369, the end of the first
   * row, is never used; the intended list holds 369.
   */
  lemma RowEndShiftedDown()
    ensures SampleSlot(22) == 24 && SlotCount(23, true) == 24
    ensures 370 in DestAsWritten([], 23, true) && 369 !in DestAsWritten([], 23, true)
    ensures 369 in FreshDest(23, true)
  {
    assert RunBsaWells(23, true) == [Single(1)];
    var ws := SlotWells(24);
    assert ws[23] == Single(370);
    assert Single(369) !in ws by {
      forall j | 0 <= j < 24
        ensures ws[j] != Single(369)
      {
        if j < 23 {
          FirstRowSlot(j + 1);
        }
      }
    }
    var s := Ints(ws) - Ints(RunBsaWells(23, true));
    assert 370 in s && 369 !in s;
    assert SampleSlotOf(true, 22) == 24;
    assert HorizontalSingle(24, 384) == 369;
    FreshDestHasSample(23, true, 22);
  }

  /** A slot before the end of the first row lands in row 0, one column per slot. */
  lemma FirstRowSlot(p: int)
    requires 1 <= p < 24
    ensures SlotWell(p) == Single(16 * (p - 1) + 1)
  {
    assert p / 24 == 0 && p % 24 == p;
  }

  /**
   * With BSA and 368 samples the slots fill the plate exactly, and sample 345 (slot 360) and
   * sample 368 (slot 384) are mapped to the same well 384, so `set(sample_wells)` merges them.
   */
  lemma LastSlotsMerge()
    ensures SlotCount(368, true) == 384
    ensures SampleSlot(344) == 360 && SampleSlot(367) == 384
    ensures SlotWell(360) == SlotWell(384) == Single(384)
    ensures IntendedSlotWell(360) != IntendedSlotWell(384)
  {
  }

  /**
   * The excluded wells of the sample transfer in `generate_gwl_file`: every well up to the highest
   * destination that is neither a destination nor, when BSA is added, a BSA well. With no
   * destinations `max` raises ValueError.
   */
  function SampleExcluded(dest: seq<int>, bsaWells: seq<Wells>, addBsa: bool): (r: Result<set<int>>)
    ensures r.Err? <==> dest == []
    ensures r.Err? ==> r.error == ValueError
    ensures r.Ok? ==> forall w :: w in r.value <==>
      1 <= w && w !in dest && (exists d :: d in dest && w <= d) && (!addBsa || Single(w) !in bsaWells)
  {
    var m := DotblotPump.SeqMax(dest);
    if m.Err? then Err(m.error)
    else Ok(set w | 1 <= w <= m.value && w !in dest && (addBsa ==> Single(w) !in bsaWells))
  }

  /** With the corrected destinations, no sample well is excluded and neither is a BSA well. */
  lemma ExcludedSparesSamples(n: nat, addBsa: bool, i: nat)
    requires SlotCount(n, addBsa) <= 384 && i < n
    ensures SampleExcluded(FreshDest(n, addBsa), RunBsaWells(n, addBsa), addBsa).Ok?
    ensures HorizontalSingle(SampleSlotOf(addBsa, i), 384) !in SampleExcluded(FreshDest(n, addBsa), RunBsaWells(n, addBsa), addBsa).value
  {
    FreshDestIsSamples(n, addBsa, HorizontalSingle(SampleSlotOf(addBsa, i), 384));
  }

  /** The state of `nanoDSFMethod` this model keeps: its labware counters and the well lists. */
  class NanoDSFMethod {
    const counters: SentinelCounters
    var bsaWells: seq<Wells>
    var sampleDestPositions: seq<int>

    /** Every BSA well recorded lies in the first column, or is a rejection object. */
    predicate Valid()
      reads this
    {
      forall w :: w in bsaWells ==> BsaLike(w)
    }

    constructor ()
      ensures fresh(counters) && counters.tables == NewTables && counters.used == Zeros(NewNames.Keys)
      ensures bsaWells == [] && sampleDestPositions == [0] && Valid()
    {
      counters := new SentinelCounters(NewTables);
      bsaWells := [];
      sampleDestPositions := [0];
    }

    /**
     * `count_starting_lw_pos`: one position of the BSA tube's display name, then `n` positions of
     * the origin labware's display name when the origin is a known labware.
     */
    method CountStartingLwPos(origin: string, n: int)
      requires counters.tables == NewTables
      modifies counters
      ensures var afterBsa := SentinelStep(NewTables, old(counters.used), "Brown_screw_cap_2ml").1;
        counters.used == if origin in NewNames then SentinelCounted(NewTables, afterBsa, NewNames[origin], Times(n)) else afterBsa
    {
      BsaTubeName();
      var _ := counters.NextLabwarePos(NewNames["BSA tube"]);
      counters.CountStartingLwPos(origin, n);
    }

    /**
     * `calculate_deep_well_positions`: the wells of every slot (BSA slots included), and the
     * sorted sample destinations. Adding BSA to triplicates fails its assertion; triplicates
     * otherwise reach the mapper with the token "tripicate", which it rejects; slots past the
     * plate make `sorted` compare rejection objects with wells.
     */
    method CalculateDeepWellPositions(n: nat, addBsa: bool, triplicates: bool) returns (r: Result<seq<Wells>>)
      requires Valid()
      modifies this
      ensures Valid()
      ensures addBsa && triplicates ==> r == Err(AssertionError) && bsaWells == old(bsaWells)
      ensures !(addBsa && triplicates) ==> bsaWells == old(bsaWells) + RunBsaWells(n, addBsa)
      ensures triplicates && !addBsa && n > 0 ==> r == Err(ValueError)
      ensures !triplicates && SlotCount(n, addBsa) > 384 ==> r == Err(TypeError)
      ensures r.Ok? <==> (!triplicates && SlotCount(n, addBsa) <= 384) || (triplicates && !addBsa && n == 0)
      ensures r.Ok? ==> r.value == SlotWells(SlotCount(n, addBsa))
      ensures r.Ok? ==> sampleDestPositions == DestAsWritten(old(bsaWells), n, addBsa)
      ensures r.Err? ==> sampleDestPositions == old(sampleDestPositions)
    {
      if addBsa && triplicates {
        return Err(AssertionError);
      }
      var slots := Iota(n);
      if addBsa {
        var pos, bsa := InsertBsaSlots(n);
        bsaWells := bsaWells + bsa;
        slots := pos;
      }
      assert forall j :: 0 <= j < |RunBsaWells(n, addBsa)| ==> BsaLike(RunBsaWells(n, addBsa)[j]);
      assert forall w :: w in bsaWells ==> w in old(bsaWells) || w in RunBsaWells(n, addBsa);
      var mapped := MapSlots(slots, triplicates);
      if mapped.Err? {
        return Err(mapped.error);
      }
      var wells := mapped.value;
      assert SlotCount(n, addBsa) > 384 ==> wells[384] == PositionRejected;
      if PositionRejected in wells {
        return Err(TypeError);
      }
      sampleDestPositions := Ascending(Ints(wells) - Ints(bsaWells), 384);
      r := Ok(wells);
    }
  }

  /** The BSA tube is requested by its display name, which is no key, so nothing is counted for it. */
  lemma BsaRequestCountsNothing(used: map<string, int>)
    requires used.Keys == NewNames.Keys
    ensures SentinelStep(NewTables, used, NewNames["BSA tube"]) == (MinusOne, used)
  {
    BsaTubeName();
    forall k | k in NewCapacity
      ensures k != "Brown_screw_cap_2ml"
    {
      assert k[0] != 'B';
    }
  }
}
