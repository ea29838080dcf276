/**
 * The pump labware of helper/Dotblot.py: where the controls and samples of each coating go on
 * the 96-well plate (`calculate_pump_labware_positions`), and the wells a reagent distribution
 * leaves out (`excluded_positions` in `pump_labware_transfer`).
 */
module DotblotPump {
  import opened Wrappers
  import opened WellGeometry

  /** The triplet `get_deep_well_pos` gives with its defaults (96 wells, vertical, triplicate). */
  function PumpWells(p: int): Wells
  {
    DeepWellPosDefault(p).value
  }

  /**
   * Triplicate slot of sample `i` of coating group `k`: the first six follow the two controls in
   * the group's first block of eight, the rest go two blocks further on.
   */
  function PumpIndex(k: nat, i: nat): nat
  {
    if i < 6 then i + 3 + k * 8 else i + 3 + (k + 1) * 8
  }

  /** The control wells of one kind: slot `first` for the first coating, `first + 8` for the second. */
  function ControlWells(first: int, coatings: int): seq<Wells>
  {
    if coatings == 1 then [PumpWells(first)] else [PumpWells(first), PumpWells(first + 8)]
  }

  /** The wells of the first `m` samples of coating group `k`. */
  function SampleWells(k: nat, m: nat): seq<Wells>
  {
    seq(m, i requires 0 <= i < m => PumpWells(PumpIndex(k, i)))
  }

  /** `pos_ctr_pos`, `neg_ctr_pos` and `samples_pos`: one entry per coating, per sample. */
  datatype PumpLayout = PumpLayout(posCtr: seq<Wells>, negCtr: seq<Wells>, samples: seq<seq<Wells>>)

  /**
   * What `calculate_pump_labware_positions` gives for `coatings` control chains and the sample
   * groups `groups`: ValueError unless there are one or two coatings, IndexError when a group
   * beyond the coatings holds a sample.
   */
  function PumpLayoutOf(coatings: int, groups: seq<seq<int>>): Result<PumpLayout>
  {
    if coatings != 1 && coatings != 2 then Err(ValueError)
    else if exists k :: coatings <= k < |groups| && groups[k] != [] then Err(IndexError)
    else Ok(PumpLayout(ControlWells(1, coatings), ControlWells(2, coatings),
                       seq(coatings, k requires 0 <= k < coatings => if k < |groups| then SampleWells(k, |groups[k]|) else [])))
  }

  /** `calculate_pump_labware_positions`, with the sample groups as `sample_eppendorf_positions`. */
  method CalculatePumpLabwarePositions(coatings: int, groups: seq<seq<int>>) returns (r: Result<PumpLayout>)
    ensures r == PumpLayoutOf(coatings, groups)
  {
    var posCtr, negCtr, samplePos;
    if coatings == 1 {
      posCtr, negCtr, samplePos := [PumpWells(1)], [PumpWells(2)], [[]];
    } else if coatings == 2 {
      posCtr, negCtr, samplePos := [PumpWells(1), PumpWells(9)], [PumpWells(2), PumpWells(10)], [[], []];
    } else {
      return Err(ValueError);
    }
    for k := 0 to |groups|
      invariant |samplePos| == coatings
      invariant forall j :: 0 <= j < coatings ==> samplePos[j] == if j < k then SampleWells(j, |groups[j]|) else []
      invariant forall j :: coatings <= j < k ==> groups[j] == []
    {
      for i := 0 to |groups[k]|
        invariant |samplePos| == coatings
        invariant forall j :: 0 <= j < coatings ==> samplePos[j] == if j < k then SampleWells(j, |groups[j]|) else if j == k then SampleWells(k, i) else []
        invariant k >= coatings ==> i == 0
      {
        if k >= |samplePos| {
          assert coatings <= k < |groups| && groups[k] != [];
          return Err(IndexError);
        }
        var p := if i < 6 then i + 3 + k * 8 else i + 3 + (k + 1) * 8;
        assert SampleWells(k, i + 1) == SampleWells(k, i) + [PumpWells(p)];
        samplePos := samplePos[k := samplePos[k] + [PumpWells(p)]];
      }
    }
    assert samplePos == seq(coatings, k requires 0 <= k < coatings => if k < |groups| then SampleWells(k, |groups[k]|) else []);
    r := Ok(PumpLayout(posCtr, negCtr, samplePos));
  }

  /** How many samples a coating group holds before its slots run into another group's. */
  function GroupCapacity(coatings: int): nat
  {
    if coatings == 1 then 22 else 14
  }

  /**
   * Within the capacity, sample slots stay on the plate (3..32), clear of the control slots, and
   * different samples get different slots.
   */
  lemma PumpIndexSlots(coatings: int, k: nat, i: nat, k2: nat, i2: nat)
    requires coatings == 1 || coatings == 2
    requires k < coatings && k2 < coatings && i < GroupCapacity(coatings) && i2 < GroupCapacity(coatings)
    ensures 3 <= PumpIndex(k, i) <= 32
    ensures PumpIndex(k, i) !in {1, 2, 9, 10}
    ensures (k, i) != (k2, i2) ==> PumpIndex(k, i) != PumpIndex(k2, i2)
  {
  }

  /** Slots 1..32 are the triplets of the plate: the wells of two different slots never meet. */
  lemma SlotsDisjoint(p: int, q: int)
    requires 1 <= p <= 32 && 1 <= q <= 32 && p != q
    ensures PumpWells(p).Triplet? && PumpWells(q).Triplet?
    ensures forall w :: w in PumpWells(p).wells ==> w !in PumpWells(q).wells && 1 <= w <= 96
  {
    DeepWellPosTriplicate(p, 96, "vertical");
    DeepWellPosTriplicate(q, 96, "vertical");
    TripletsDisjoint(p, q, 96, true);
    TripletOnPlate(p, 96, true);
  }

  /** Within the capacity, two different samples of a layout share no well. */
  lemma SamplesDisjoint(coatings: int, groups: seq<seq<int>>, k: nat, i: nat, k2: nat, i2: nat)
    requires PumpLayoutOf(coatings, groups).Ok?
    requires k < coatings && k < |groups| && i < |groups[k]| && i < GroupCapacity(coatings)
    requires k2 < coatings && k2 < |groups| && i2 < |groups[k2]| && i2 < GroupCapacity(coatings)
    requires (k, i) != (k2, i2)
    ensures var s := PumpLayoutOf(coatings, groups).value.samples;
      s[k][i].Triplet? && s[k2][i2].Triplet? && forall w :: w in s[k][i].wells ==> w !in s[k2][i2].wells
  {
    PumpIndexSlots(coatings, k, i, k2, i2);
    PumpIndexSlots(coatings, k2, i2, k, i);
    SlotsDisjoint(PumpIndex(k, i), PumpIndex(k2, i2));
  }

  /** Within the capacity, no sample shares a well with a control of either kind. */
  lemma SampleClearOfControls(coatings: int, groups: seq<seq<int>>, k: nat, i: nat, c: nat)
    requires PumpLayoutOf(coatings, groups).Ok?
    requires k < coatings && k < |groups| && i < |groups[k]| && i < GroupCapacity(coatings) && c < coatings
    ensures var l := PumpLayoutOf(coatings, groups).value;
      forall w :: w in l.samples[k][i].wells ==> w !in l.posCtr[c].wells && w !in l.negCtr[c].wells
  {
    var l := PumpLayoutOf(coatings, groups).value;
    var pos, neg := if c == 0 then 1 else 9, if c == 0 then 2 else 10;
    assert l.posCtr[c] == PumpWells(pos) && l.negCtr[c] == PumpWells(neg);
    assert l.samples[k][i] == PumpWells(PumpIndex(k, i));
    PumpIndexSlots(coatings, k, i, k, i);
    SlotsDisjoint(PumpIndex(k, i), pos);
    SlotsDisjoint(PumpIndex(k, i), neg);
  }

  /**
   * Beyond the capacity the slots collide: with two coatings, the fifteenth sample of the first
   * group lands in the wells of the seventh sample of the second.
   */
  lemma SlotsCollideBeyondCapacity(groups: seq<seq<int>>)
    requires |groups| == 2 && |groups[0]| == 15 && |groups[1]| == 7
    ensures PumpLayoutOf(2, groups).Ok?
    ensures PumpLayoutOf(2, groups).value.samples[0][14] == PumpLayoutOf(2, groups).value.samples[1][6]
  {
    assert PumpIndex(0, 14) == PumpIndex(1, 6) == 25;
  }

  /** Slots 1..8 hold the first column of each of the three first columns: wells p, p + 8, p + 16. */
  lemma PumpWellsFirstColumn(p: int)
    requires 1 <= p <= 8
    ensures PumpWells(p) == Triplet([p, p + 8, p + 16])
  {
    DeepWellPosTriplicate(p, 96, "vertical");
    assert VerticalStart(p, 96) == TruncDiv(p - 1, 8) * 24 + WrapMod(p, 8) == p;
  }

  /** The first four samples of the first coating sit in slots 3..6. */
  lemma FirstGroupSlots()
    ensures SampleWells(0, 4) == [PumpWells(3), PumpWells(4), PumpWells(5), PumpWells(6)]
  {
    var sw := SampleWells(0, 4);
    assert sw[0] == PumpWells(3) && sw[1] == PumpWells(4) && sw[2] == PumpWells(5) && sw[3] == PumpWells(6);
  }

  /** The docstring's example: one coating, four samples, triplets down the plate. */
  lemma PumpDocstringExample()
    ensures PumpLayoutOf(1, [[3, 4, 5, 6]]) == Ok(PumpLayout([Triplet([1, 9, 17])], [Triplet([2, 10, 18])],
                                                         [[Triplet([3, 11, 19]), Triplet([4, 12, 20]), Triplet([5, 13, 21]), Triplet([6, 14, 22])]]))
  {
    assert PumpLayoutOf(1, [[3, 4, 5, 6]]) == Ok(PumpLayout([PumpWells(1)], [PumpWells(2)], [SampleWells(0, 4)])) by {
      var samples := seq(1, k requires 0 <= k < 1 => if k < 1 then SampleWells(k, |[[3, 4, 5, 6]][k]|) else []);
      assert samples == [SampleWells(0, 4)];
    }
    FirstGroupSlots();
    PumpWellsFirstColumn(1);
    PumpWellsFirstColumn(2);
    PumpWellsFirstColumn(3);
    PumpWellsFirstColumn(4);
    PumpWellsFirstColumn(5);
    PumpWellsFirstColumn(6);
  }

  // ---------------------------------------------------------------------------------------------
  // Reagent distribution
  // ---------------------------------------------------------------------------------------------

  /** The well numbers of a list of triplets, in order. */
  function Numbers(ws: seq<Wells>): seq<int>
  {
    if ws == [] then [] else (if ws[0].Triplet? then ws[0].wells else []) + Numbers(ws[1..])
  }

  /** `np.max`; of an empty list it raises ValueError. */
  function SeqMax(xs: seq<int>): (r: Result<int>)
    ensures r.Err? <==> xs == []
    ensures r.Err? ==> r.error == ValueError
    ensures r.Ok? ==> r.value in xs && forall x :: x in xs ==> x <= r.value
  {
    if xs == [] then Err(ValueError)
    else if |xs| == 1 then Ok(xs[0])
    else
      var m := SeqMax(xs[1..]).value;
      assert forall x :: x in xs ==> x == xs[0] || x in xs[1..];
      Ok(if xs[0] >= m then xs[0] else m)
  }

  /**
   * The distribution covers wells 1..max of `limitWells`; `excluded_pos` is every well in that
   * range that is not in `used`.
   */
  function Excluded(limitWells: seq<int>, used: seq<int>): Result<(int, set<int>)>
  {
    var m := SeqMax(limitWells);
    if m.Err? then Err(m.error) else Ok((m.value, set w | 1 <= w <= m.value && w !in used))
  }

  /** The wells of coating `c`: its two controls and its samples. */
  function CoatingNumbers(l: PumpLayout, c: nat): Result<seq<int>>
  {
    if c >= |l.posCtr| || c >= |l.negCtr| || c >= |l.samples| then Err(IndexError)
    else Ok(Numbers([l.posCtr[c]]) + Numbers([l.negCtr[c]]) + Numbers(l.samples[c]))
  }

  /** All sample wells, group after group. */
  function Flatten(wss: seq<seq<Wells>>): seq<int>
  {
    if wss == [] then [] else Numbers(wss[0]) + Flatten(wss[1..])
  }

  /** The `_type` that `transfer_volume_to_wells` picks from the liquid's name. */
  datatype TransferKind = AllWells | ReagentDistribution | PosNeg | OnlySamples

  function KindOf(source: string): (k: TransferKind)
    ensures k == ReagentDistribution <==> source == "DPBS"
    ensures k == PosNeg <==> source == "Pos/Neg control"
    ensures k == OnlySamples <==> source == "Samples"
  {
    if source == "DPBS" then ReagentDistribution
    else if source == "Pos/Neg control" then PosNeg
    else if source == "Samples" then OnlySamples
    else AllWells
  }

  /**
   * What one transfer step writes: a reagent distribution over wells 1..last that leaves out
   * `excluded`, or one transfer row per destination well.
   */
  datatype PumpTransfer =
    | Distribution(last: int, excluded: set<int>, volume: real)
    | PerWell(wells: seq<int>, volume: real)

  /** Every sample group holds as many samples as the first, each of them a triplet. */
  predicate Rectangular(wss: seq<seq<Wells>>)
  {
    (forall k :: 0 <= k < |wss| ==> |wss[k]| == |wss[0]|)
    && forall k, i :: 0 <= k < |wss| && 0 <= i < |wss[k]| ==> wss[k][i].Triplet?
  }

  /** Every sample entry is the rejection object (a slot off the plate) rather than a triplet. */
  predicate AllRejected(wss: seq<seq<Wells>>)
  {
    forall k, i :: 0 <= k < |wss| && 0 <= i < |wss[k]| ==> !wss[k][i].Triplet?
  }

  /**
   * `np.ndarray.flatten(np.array(samples_pos)).tolist()`. NumPy refuses a ragged list (groups of
   * different sizes, or triplets beside rejection objects) with ValueError; a rectangular list of
   * rejection objects flattens, and then `np.max` cannot compare them and raises TypeError.
   */
  function SampleArray(wss: seq<seq<Wells>>): (r: Result<seq<int>>)
    ensures r.Ok? <==> Rectangular(wss)
    ensures r.Ok? ==> r.value == Flatten(wss)
  {
    if Rectangular(wss) then Ok(Flatten(wss))
    else if (forall k :: 0 <= k < |wss| ==> |wss[k]| == |wss[0]|) && AllRejected(wss) then Err(TypeError)
    else Err(ValueError)
  }

  /** The wells of one coating's controls, positive then negative. */
  function ControlNumbers(l: PumpLayout, k: nat): seq<int>
    requires k < |l.posCtr| && k < |l.negCtr|
  {
    Numbers([l.posCtr[k]]) + Numbers([l.negCtr[k]])
  }

  /** The wells of the first `m` samples of group `k`. */
  function GroupNumbers(l: PumpLayout, k: nat, m: nat): seq<int>
    requires k < |l.samples| && m <= |l.samples[k]|
  {
    Numbers(l.samples[k][..m])
  }

  /**
   * The rows of the "Pos/Neg control" step from control group `j` on: each group's positive then
   * negative control wells. `sample_group[0]` of an empty group and a group past the layout's
   * controls raise IndexError.
   */
  function ControlRows(l: PumpLayout, controls: seq<seq<int>>, j: nat): (r: Result<seq<int>>)
    ensures r.Err? ==> r.error == IndexError
    ensures r.Ok? ==> j >= |controls| || (|controls| <= |l.posCtr| && |controls| <= |l.negCtr|)
    ensures r.Ok? ==> forall w :: w in r.value <==> exists k :: j <= k < |controls| && k < |l.posCtr| && k < |l.negCtr| && w in ControlNumbers(l, k)
    decreases |controls| - j
  {
    if j >= |controls| then Ok([])
    else if controls[j] == [] || j >= |l.posCtr| || j >= |l.negCtr| then Err(IndexError)
    else
      var rest := ControlRows(l, controls, j + 1);
      if rest.Err? then rest else Ok(ControlNumbers(l, j) + rest.value)
  }

  /**
   * The rows of the "Samples" step from sample group `j` on: the wells of each sample of the
   * group, in order. `sample_group[0]` of an empty group and a sample past the layout raise
   * IndexError.
   */
  function SampleRows(l: PumpLayout, groups: seq<seq<int>>, j: nat): (r: Result<seq<int>>)
    ensures r.Err? ==> r.error == IndexError
    ensures r.Ok? ==> forall k :: j <= k < |groups| ==> Fits(l, groups, k)
    ensures r.Ok? ==> forall w :: w in r.value <==>
      exists k :: j <= k < |groups| && Fits(l, groups, k) && w in GroupNumbers(l, k, |groups[k]|)
    decreases |groups| - j
  {
    if j >= |groups| then Ok([])
    else if groups[j] == [] || !Fits(l, groups, j) then Err(IndexError)
    else
      var rest := SampleRows(l, groups, j + 1);
      if rest.Err? then rest else Ok(GroupNumbers(l, j, |groups[j]|) + rest.value)
  }

  /** Sample group `k` has a place in the layout for each of its samples. */
  predicate Fits(l: PumpLayout, groups: seq<seq<int>>, k: nat)
  {
    k < |groups| && k < |l.samples| && |groups[k]| <= |l.samples[k]|
  }

  /**
   * `transfer_volume_to_wells(source, dest, volume, n)` onto the pump labware. The sample array
   * and its highest well come first, so every kind of step fails without samples. DPBS is
   * distributed over 1..max with nothing left out; with two coatings a coating protein goes to
   * its own coating's wells only; the other liquids go to every used well up to the highest
   * sample well; "Samples" and "Pos/Neg control" write one row per well instead, samples at
   * 100 uL.
   */
  function TransferToWells(l: PumpLayout, twoCoatings: bool, source: string, volume: real,
                           groups: seq<seq<int>>, controls: seq<seq<int>>): (r: Result<PumpTransfer>)
    ensures SampleArray(l.samples).Err? ==> r == Err(SampleArray(l.samples).error)
    ensures r.Ok? ==> Flatten(l.samples) != []
    ensures r.Ok? && r.value.Distribution? ==> KindOf(source) in {AllWells, ReagentDistribution} && r.value.volume == volume
    ensures r.Ok? && r.value.PerWell? ==> KindOf(source) in {PosNeg, OnlySamples}
  {
    var flat := SampleArray(l.samples);
    if flat.Err? then Err(flat.error)
    else
      var top := SeqMax(flat.value);
      if top.Err? then Err(top.error)
      else match KindOf(source)
        case ReagentDistribution => Ok(Distribution(top.value, {}, volume))
        case PosNeg =>
          var rows := ControlRows(l, controls, 0);
          if rows.Err? then Err(rows.error) else Ok(PerWell(rows.value, volume))
        case OnlySamples =>
          var rows := SampleRows(l, groups, 0);
          if rows.Err? then Err(rows.error) else Ok(PerWell(rows.value, 100.0))
        case AllWells =>
          if twoCoatings && (source == "Coating protein" || source == "Coating protein 2") then
            var ws := CoatingNumbers(l, if source == "Coating protein" then 0 else 1);
            if ws.Err? then Err(ws.error)
            else
              var e := Excluded(ws.value, ws.value);
              if e.Err? then Err(e.error) else Ok(Distribution(e.value.0, e.value.1, volume))
          else
            var e := Excluded(flat.value, Numbers(l.posCtr) + Numbers(l.negCtr) + flat.value).value;
            Ok(Distribution(e.0, e.1, volume))
  }

  /**
   * The wells a distribution over 1..max pipettes into are exactly the used wells in that range:
   * a well is excluded if and only if it is not used.
   */
  lemma ExcludedIsComplement(limitWells: seq<int>, used: seq<int>, w: int)
    requires Excluded(limitWells, used).Ok? && 1 <= w <= Excluded(limitWells, used).value.0
    ensures w in Excluded(limitWells, used).value.1 <==> w !in used
  {
  }

  /** When the range comes from the used wells themselves, every used well gets reagent. */
  lemma UsedWellsServed(used: seq<int>, w: int)
    requires used != [] && w in used && w >= 1
    ensures Excluded(used, used).Ok?
    ensures w <= Excluded(used, used).value.0 && w !in Excluded(used, used).value.1
  {
  }

  /** DPBS goes to every well from 1 to the highest sample well, none left out. */
  lemma DpbsCoversEveryWell(l: PumpLayout, twoCoatings: bool, volume: real, groups: seq<seq<int>>, controls: seq<seq<int>>)
    requires Rectangular(l.samples) && Flatten(l.samples) != []
    ensures var r := TransferToWells(l, twoCoatings, "DPBS", volume, groups, controls);
      r.Ok? && r.value == Distribution(SeqMax(Flatten(l.samples)).value, {}, volume)
  {
  }

  /**
   * Any other liquid with one coating reaches every used well below the highest sample well,
   * controls and samples alike, and leaves out exactly the unused ones.
   */
  lemma AllWellsServeUsedWells(l: PumpLayout, source: string, volume: real, groups: seq<seq<int>>, controls: seq<seq<int>>, w: int)
    requires KindOf(source) == AllWells && Rectangular(l.samples) && Flatten(l.samples) != []
    requires 1 <= w <= SeqMax(Flatten(l.samples)).value
    ensures var r := TransferToWells(l, false, source, volume, groups, controls);
      r.Ok? && r.value.Distribution? && r.value.last == SeqMax(Flatten(l.samples)).value
      && (w in r.value.excluded <==> w !in Numbers(l.posCtr) + Numbers(l.negCtr) + Flatten(l.samples))
  {
  }

  /** With no samples at all, every step raises ValueError at the highest sample well. */
  lemma NoSamplesNoTransfer(l: PumpLayout, twoCoatings: bool, source: string, volume: real, groups: seq<seq<int>>, controls: seq<seq<int>>)
    requires forall k :: 0 <= k < |l.samples| ==> l.samples[k] == []
    ensures TransferToWells(l, twoCoatings, source, volume, groups, controls) == Err(ValueError)
  {
    FlattenEmpty(l.samples);
  }

  /**
   * With two coatings, groups of different sizes make a ragged array: every step raises
   * ValueError, whatever the liquid.
   */
  lemma RaggedGroupsRaise(coatings: int, groups: seq<seq<int>>, source: string, volume: real, controls: seq<seq<int>>)
    requires coatings == 2 && |groups| == 2 && |groups[0]| != |groups[1]|
    requires PumpLayoutOf(coatings, groups).Ok?
    ensures TransferToWells(PumpLayoutOf(coatings, groups).value, true, source, volume, groups, controls) == Err(ValueError)
  {
    var l := PumpLayoutOf(coatings, groups).value;
    assert |l.samples[0]| == |groups[0]| && |l.samples[1]| == |groups[1]|;
    assert !Rectangular(l.samples);
  }

  /**
   * The "Samples" step of a layout built from non-empty groups gives a row to every sample's
   * wells and to nothing else, at 100 uL each.
   */
  lemma SampleRowsServeEverySample(coatings: int, groups: seq<seq<int>>, volume: real, controls: seq<seq<int>>, twoCoatings: bool, w: int)
    requires PumpLayoutOf(coatings, groups).Ok?
    requires forall k :: 0 <= k < |groups| ==> groups[k] != []
    requires var l := PumpLayoutOf(coatings, groups).value; Rectangular(l.samples) && Flatten(l.samples) != []
    ensures var l := PumpLayoutOf(coatings, groups).value;
      var r := TransferToWells(l, twoCoatings, "Samples", volume, groups, controls);
      r.Ok? && r.value.PerWell? && r.value.volume == 100.0
      && (w in r.value.wells <==> exists k :: 0 <= k < |groups| && k < coatings && w in Numbers(l.samples[k]))
  {
    var l := PumpLayoutOf(coatings, groups).value;
    GroupsPastCoatingsEmpty(coatings, groups);
    SampleRowsWhole(l, groups, coatings, 0);
    var rows := SampleRows(l, groups, 0);
    forall k | 0 <= k < |groups|
      ensures GroupNumbers(l, k, |groups[k]|) == Numbers(l.samples[k])
    {
      assert l.samples[k][..|groups[k]|] == l.samples[k];
    }
  }

  /** A layout exists only when the groups past the coatings are empty. */
  lemma GroupsPastCoatingsEmpty(coatings: int, groups: seq<seq<int>>)
    requires PumpLayoutOf(coatings, groups).Ok?
    ensures |groups| > coatings ==> groups[coatings] == []
  {
  }

  /** Group by group, the sample rows of a layout built from non-empty groups succeed. */
  lemma {:induction false} SampleRowsWhole(l: PumpLayout, groups: seq<seq<int>>, coatings: int, j: nat)
    requires PumpLayoutOf(coatings, groups).Ok? && l == PumpLayoutOf(coatings, groups).value
    requires forall k :: 0 <= k < |groups| ==> groups[k] != []
    requires |groups| <= coatings
    ensures SampleRows(l, groups, j).Ok?
    decreases |groups| - j
  {
    if j < |groups| {
      assert |l.samples[j]| == |groups[j]|;
      SampleRowsWhole(l, groups, coatings, j + 1);
    }
  }

  /** The "Pos/Neg control" step never writes to a sample well of the layout, within the capacity. */
  lemma ControlRowsMissSamples(coatings: int, groups: seq<seq<int>>, controls: seq<seq<int>>, k: nat, i: nat, w: int)
    requires PumpLayoutOf(coatings, groups).Ok?
    requires k < coatings && k < |groups| && i < |groups[k]| && i < GroupCapacity(coatings)
    requires var l := PumpLayoutOf(coatings, groups).value; ControlRows(l, controls, 0).Ok?
    requires w in PumpLayoutOf(coatings, groups).value.samples[k][i].wells
    ensures w !in ControlRows(PumpLayoutOf(coatings, groups).value, controls, 0).value
  {
    var l := PumpLayoutOf(coatings, groups).value;
    forall c | 0 <= c < |controls| && c < |l.posCtr| && c < |l.negCtr|
      ensures w !in ControlNumbers(l, c)
    {
      var pos, neg := if c == 0 then 1 else 9, if c == 0 then 2 else 10;
      assert l.posCtr[c] == PumpWells(pos) && l.negCtr[c] == PumpWells(neg);
      SlotsDisjoint(pos, neg);
      SampleClearOfControls(coatings, groups, k, i, c);
      assert Numbers([l.posCtr[c]]) == l.posCtr[c].wells;
      assert Numbers([l.negCtr[c]]) == l.negCtr[c].wells;
    }
  }

  lemma {:induction false} FlattenEmpty(wss: seq<seq<Wells>>)
    requires forall k :: 0 <= k < |wss| ==> wss[k] == []
    ensures Flatten(wss) == []
  {
    if wss != [] {
      FlattenEmpty(wss[1..]);
    }
  }
}
