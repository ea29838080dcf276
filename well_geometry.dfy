/**
 * `get_deep_well_pos`: from a 1-based sample index to the physical well number(s) on a 96- or
 * 384-well plate. Wells are numbered column by column (A1 = 1, B1 = 2, ...), so a plate of
 * `WellsPerCol` rows and `WellsPerRow` columns holds wells 1..plate.
 */
module WellGeometry {
  import opened Wrappers

  /** What a call with well-formed arguments gives back. */
  datatype Wells =
    | Triplet(wells: seq<int>)  // the three wells of a triplicate sample
    | Single(well: int)         // the one well of a single sample
    | PositionRejected          // the ValueError object returned, not raised, for a position off the plate

  predicate ValidPlate(plate: int) { plate == 96 || plate == 384 }

  function WellsPerBlock(plate: int): int { if plate == 96 then 24 else 48 }
  function WellsPerCol(plate: int): int { if plate == 96 then 8 else 16 }
  function WellsPerRow(plate: int): int { if plate == 96 then 12 else 24 }

  /** Python's `int(a / b)` for a positive divisor: the quotient truncated toward zero. */
  function TruncDiv(a: int, b: int): int
    requires b > 0
  {
    if a >= 0 then a / b else -((-a) / b)
  }

  /** Python's `x % m`, zero replaced by `m`: a value in 1..m. */
  function WrapMod(x: int, m: int): (r: int)
    requires m > 0
    ensures 1 <= r <= m
  {
    if x % m == 0 then m else x % m
  }

  /** First well of a triplicate sample placed column-wise (vertical). */
  function VerticalStart(pos: int, plate: int): int
    requires ValidPlate(plate)
  {
    TruncDiv(pos - 1, WellsPerCol(plate)) * WellsPerBlock(plate) + WrapMod(pos, WellsPerCol(plate))
  }

  /** First well of a triplicate sample placed row-wise (horizontal); `WellsPerRow / 3` is 4 or 8. */
  function HorizontalStart(pos: int, plate: int): int
    requires ValidPlate(plate)
  {
    var perRow := WellsPerRow(plate) / 3;
    var row := TruncDiv(pos - 1, perRow) + 1;
    var block := WrapMod(pos, perRow);
    (block - 1) * WellsPerBlock(plate) + row
  }

  /** The well of a single horizontal sample, as helper/utils.py computes it. */
  function HorizontalSingleAsWritten(pos: int, plate: int): int
    requires ValidPlate(plate)
  {
    var row := pos / WellsPerRow(plate);
    var col := if pos % WellsPerRow(plate) == 0 then 24 else pos % WellsPerRow(plate);
    var well := row + (col - 1) * WellsPerCol(plate) + 1;
    if well == 385 then 384 else well
  }

  /** The well of a single horizontal sample: row-major sample order onto column-major wells. */
  function HorizontalSingle(pos: int, plate: int): int
    requires ValidPlate(plate)
  {
    var row := (pos - 1) / WellsPerRow(plate);
    var col := (pos - 1) % WellsPerRow(plate) + 1;
    row + (col - 1) * WellsPerCol(plate) + 1
  }

  function TripletFrom(start: int, plate: int): seq<int>
    requires ValidPlate(plate)
  {
    [start, start + WellsPerCol(plate), start + 2 * WellsPerCol(plate)]
  }

  /**
   * `get_deep_well_pos(pos, plate_type, sample_direction, sample_transfer)`. A bad plate type,
   * direction or transfer token raises ValueError; a position off the plate returns the error
   * object instead. The horizontal single branch follows the code as written, so samples at
   * the end of a row land one row too low (see `HorizontalSingleAsWrittenCollides`).
   */
  function DeepWellPos(pos: int, plate: int, direction: string, transfer: string): (r: Result<Wells>)
    ensures r.Err? <==> !(ValidPlate(plate) && direction in ["vertical", "horizontal"] && transfer in ["single", "triplicate"])
    ensures r.Err? ==> r.error == ValueError
    ensures r.Ok? ==> (r.value == PositionRejected <==> !(1 <= pos <= plate))
    ensures r.Ok? && r.value.Triplet? ==> transfer == "triplicate" && |r.value.wells| == 3
    ensures r.Ok? && r.value.Single? ==> transfer == "single"
    ensures r.Ok? && transfer == "single" && direction == "vertical" && 1 <= pos <= plate ==> r.value == Single(pos)
  {
    if !ValidPlate(plate) then Err(ValueError)
    else if direction !in ["vertical", "horizontal"] then Err(ValueError)
    else if transfer !in ["single", "triplicate"] then Err(ValueError)
    else if pos < 1 || pos > plate then Ok(PositionRejected)
    else if direction == "vertical" then
      if transfer == "triplicate" then Ok(Triplet(TripletFrom(VerticalStart(pos, plate), plate)))
      else Ok(Single(pos))
    else
      if transfer == "triplicate" then Ok(Triplet(TripletFrom(HorizontalStart(pos, plate), plate)))
      else Ok(Single(HorizontalSingleAsWritten(pos, plate)))
  }

  /** The defaults of `get_deep_well_pos`: a 96-well plate, vertical, triplicate. */
  function DeepWellPosDefault(pos: int): Result<Wells>
  {
    DeepWellPos(pos, 96, "vertical", "triplicate")
  }

  /** The 96-well examples in the docstring of `get_deep_well_pos`. */
  lemma DocstringExamples96()
    ensures DeepWellPosDefault(1) == Ok(Triplet([1, 9, 17]))
    ensures DeepWellPos(3, 96, "vertical", "triplicate") == Ok(Triplet([3, 11, 19]))
    ensures DeepWellPosDefault(9) == Ok(Triplet([25, 33, 41]))
  {
    assert DeepWellPosDefault(1) == Ok(Triplet([1, 9, 17])) by {
      assert VerticalStart(1, 96) == 1;
    }
    assert DeepWellPos(3, 96, "vertical", "triplicate") == Ok(Triplet([3, 11, 19])) by {
      assert VerticalStart(3, 96) == 3;
    }
    assert VerticalStart(9, 96) == 25;
  }

  /** The 384-well vertical examples in the docstring of `get_deep_well_pos`. */
  lemma DocstringExamples384()
    ensures DeepWellPos(1, 384, "vertical", "triplicate") == Ok(Triplet([1, 17, 33]))
    ensures DeepWellPos(3, 384, "vertical", "triplicate") == Ok(Triplet([3, 19, 35]))
  {
    assert DeepWellPos(1, 384, "vertical", "triplicate") == Ok(Triplet([1, 17, 33])) by {
      assert VerticalStart(1, 384) == 1;
    }
    assert VerticalStart(3, 384) == 3;
  }

  /** The 384-well horizontal example in the docstring of `get_deep_well_pos`. */
  lemma DocstringExample384Horizontal()
    ensures DeepWellPos(3, 384, "horizontal", "triplicate") == Ok(Triplet([97, 113, 129]))
  {
    assert HorizontalStart(3, 384) == 97;
  }

  /** Well numbering: the 0-based column and row of well `w`. */
  function ColumnOf(w: int, plate: int): int
    requires ValidPlate(plate)
  {
    (w - 1) / WellsPerCol(plate)
  }

  function RowOf(w: int, plate: int): int
    requires ValidPlate(plate)
  {
    (w - 1) % WellsPerCol(plate)
  }

  /** The wells a triplicate sample gets in the given direction. */
  function TripletWells(pos: int, plate: int, vertical: bool): seq<int>
    requires ValidPlate(plate)
  {
    TripletFrom(if vertical then VerticalStart(pos, plate) else HorizontalStart(pos, plate), plate)
  }

  /** The block of three columns and the 0-based row that a triplicate sample occupies. */
  function TripletSlot(pos: int, plate: int, vertical: bool): (int, int)
    requires ValidPlate(plate)
  {
    var perRow := WellsPerRow(plate) / 3;
    if vertical then ((pos - 1) / WellsPerCol(plate), (pos - 1) % WellsPerCol(plate))
    else ((pos - 1) % perRow, (pos - 1) / perRow)
  }

  /** The triplet of a sample starts at row `r` of the first column of block `b`. */
  lemma TripletStartsAtSlot(pos: int, plate: int, vertical: bool)
    requires ValidPlate(plate) && pos >= 1
    ensures var (b, r) := TripletSlot(pos, plate, vertical);
      TripletWells(pos, plate, vertical)[0] == b * WellsPerBlock(plate) + r + 1
  {
    var c, perRow := WellsPerCol(plate), WellsPerRow(plate) / 3;
    WrapModPredecessor(pos, c);
    WrapModPredecessor(pos, perRow);
  }

  lemma WrapModPredecessor(x: int, m: int)
    requires x >= 1 && (m == 4 || m == 8 || m == 16)
    ensures WrapMod(x, m) == (x - 1) % m + 1
  {
  }

  /** `get_deep_well_pos` in triplicate mode gives `TripletWells`. */
  lemma DeepWellPosTriplicate(pos: int, plate: int, direction: string)
    requires ValidPlate(plate) && direction in ["vertical", "horizontal"] && 1 <= pos <= plate
    ensures DeepWellPos(pos, plate, direction, "triplicate") == Ok(Triplet(TripletWells(pos, plate, direction == "vertical")))
  {
  }

  /** Well `b * WellsPerBlock + j * WellsPerCol + r + 1` is at row `r` of column `3b + j`. */
  lemma WellCoordinates(b: int, j: int, r: int, plate: int)
    requires ValidPlate(plate) && 0 <= r < WellsPerCol(plate)
    ensures var w := b * WellsPerBlock(plate) + j * WellsPerCol(plate) + r + 1;
      ColumnOf(w, plate) == 3 * b + j && RowOf(w, plate) == r
  {
    var c := WellsPerCol(plate);
    assert b * WellsPerBlock(plate) + j * c + r == (3 * b + j) * c + r;
  }

  /** Samples 1..plate/3 use blocks 0..WellsPerRow/3 - 1 and rows 0..WellsPerCol - 1, one slot each. */
  lemma SlotBounds(pos: int, plate: int, vertical: bool)
    requires ValidPlate(plate) && 1 <= pos
    ensures var (b, r) := TripletSlot(pos, plate, vertical);
      0 <= b && 0 <= r && (pos <= plate / 3 ==> b < WellsPerRow(plate) / 3 && r < WellsPerCol(plate))
      && (vertical && pos > plate / 3 ==> b >= WellsPerRow(plate) / 3)
  {
  }

  /**
   * A triplicate sample 1..plate/3 occupies three wells of the plate on one row, in the three
   * adjacent columns of a block; in the vertical direction a sample beyond plate/3 starts off the plate.
   */
  lemma TripletOnPlate(pos: int, plate: int, vertical: bool)
    requires ValidPlate(plate) && 1 <= pos <= plate
    ensures var ws := TripletWells(pos, plate, vertical);
      pos <= plate / 3 ==>
        forall j :: 0 <= j < 3 ==>
          1 <= ws[j] <= plate && RowOf(ws[j], plate) == RowOf(ws[0], plate)
          && ColumnOf(ws[j], plate) == 3 * TripletSlot(pos, plate, vertical).0 + j
    ensures vertical && pos > plate / 3 ==> TripletWells(pos, plate, vertical)[0] > plate
  {
    TripletStartsAtSlot(pos, plate, vertical);
    SlotBounds(pos, plate, vertical);
    var (b, r) := TripletSlot(pos, plate, vertical);
    var ws := TripletWells(pos, plate, vertical);
    forall j | 0 <= j < 3 && pos <= plate / 3
      ensures ws[j] == b * WellsPerBlock(plate) + j * WellsPerCol(plate) + r + 1
      ensures ColumnOf(ws[j], plate) == 3 * b + j && RowOf(ws[j], plate) == r
    {
      WellCoordinates(b, j, r, plate);
    }
  }

  /** The slot of a sample determines the sample. */
  lemma SlotDeterminesSample(pos: int, plate: int, vertical: bool)
    requires ValidPlate(plate)
    ensures var (b, r) := TripletSlot(pos, plate, vertical);
      pos - 1 == if vertical then b * WellsPerCol(plate) + r else r * (WellsPerRow(plate) / 3) + b
  {
    var x := pos - 1;
    if plate == 96 {
      assert x == x / 8 * 8 + x % 8 && x == x / 4 * 4 + x % 4;
    } else {
      assert x == x / 16 * 16 + x % 16 && x == x / 8 * 8 + x % 8;
    }
  }

  /** Two samples in the same slot are the same sample. */
  lemma SameSlotSameSample(p: int, q: int, plate: int, vertical: bool)
    requires ValidPlate(plate) && TripletSlot(p, plate, vertical) == TripletSlot(q, plate, vertical)
    ensures p == q
  {
    SlotDeterminesSample(p, plate, vertical);
    SlotDeterminesSample(q, plate, vertical);
  }

  /** A well shared by the triplets of samples `p` and `q` puts them in the same slot. */
  lemma SharedWellSameSample(p: int, q: int, plate: int, vertical: bool, i: int, j: int)
    requires ValidPlate(plate) && 1 <= p <= plate / 3 && 1 <= q <= plate / 3 && 0 <= i < 3 && 0 <= j < 3
    requires TripletWells(p, plate, vertical)[i] == TripletWells(q, plate, vertical)[j]
    ensures p == q
  {
    TripletWellAt(p, plate, vertical, i);
    TripletWellAt(q, plate, vertical, j);
    assert TripletSlot(p, plate, vertical) == TripletSlot(q, plate, vertical);
    SameSlotSameSample(p, q, plate, vertical);
  }

  /** Well `j` of a sample's triplet: row `r` of column `3b + j` of its slot `(b, r)`. */
  lemma TripletWellAt(pos: int, plate: int, vertical: bool, j: int)
    requires ValidPlate(plate) && 1 <= pos <= plate / 3 && 0 <= j < 3
    ensures var (b, r) := TripletSlot(pos, plate, vertical);
      var w := TripletWells(pos, plate, vertical)[j];
      ColumnOf(w, plate) == 3 * b + j && RowOf(w, plate) == r
  {
    TripletStartsAtSlot(pos, plate, vertical);
    SlotBounds(pos, plate, vertical);
    var (b, r) := TripletSlot(pos, plate, vertical);
    WellCoordinates(b, j, r, plate);
  }

  /** Two different samples 1..plate/3 never share a well. */
  lemma TripletsDisjoint(p: int, q: int, plate: int, vertical: bool)
    requires ValidPlate(plate) && 1 <= p <= plate / 3 && 1 <= q <= plate / 3 && p != q
    ensures forall w :: w in TripletWells(p, plate, vertical) ==> w !in TripletWells(q, plate, vertical)
  {
    var ps := TripletWells(p, plate, vertical);
    var qs := TripletWells(q, plate, vertical);
    forall i, j | 0 <= i < 3 && 0 <= j < 3
      ensures ps[i] == qs[j] ==> p == q
    {
      if ps[i] == qs[j] {
        SharedWellSameSample(p, q, plate, vertical, i, j);
      }
    }
  }

  lemma DivModUnique(x: int, m: int, q: int, r: int)
    requires (m == 4 || m == 8 || m == 12 || m == 16 || m == 24) && x == q * m + r && 0 <= r < m
    ensures x / m == q && x % m == r
  {
  }

  /** Every well of the plate belongs to the triplet of some sample 1..plate/3. */
  lemma TripletsCoverPlate(w: int, plate: int, vertical: bool)
    requires ValidPlate(plate) && 1 <= w <= plate
    ensures exists pos :: 1 <= pos <= plate / 3 && w in TripletWells(pos, plate, vertical)
  {
    var pos := SampleOfWell(w, plate, vertical);
    WellInTriplet(w, plate, vertical, pos);
  }

  /** The sample whose triplet block and row are those of well `w`. */
  lemma SampleOfWell(w: int, plate: int, vertical: bool) returns (pos: int)
    requires ValidPlate(plate) && 1 <= w <= plate
    ensures 1 <= pos <= plate / 3
    ensures TripletSlot(pos, plate, vertical) == (ColumnOf(w, plate) / 3, RowOf(w, plate))
  {
    var col, row := ColumnOf(w, plate), RowOf(w, plate);
    var b := col / 3;
    var perRow := WellsPerRow(plate) / 3;
    var c := WellsPerCol(plate);
    assert 0 <= col < WellsPerRow(plate) && 0 <= b < perRow;
    pos := if vertical then b * c + row + 1 else row * perRow + b + 1;
    assert 1 <= pos <= plate / 3;
    if vertical {
      DivModUnique(pos - 1, c, b, row);
    } else {
      DivModUnique(pos - 1, perRow, row, b);
    }
  }

  /** Well `w` is entry `column mod 3` of the triplet that starts in its block and row. */
  lemma WellInTriplet(w: int, plate: int, vertical: bool, pos: int)
    requires ValidPlate(plate) && 1 <= w <= plate && 1 <= pos <= plate / 3
    requires TripletSlot(pos, plate, vertical) == (ColumnOf(w, plate) / 3, RowOf(w, plate))
    ensures TripletWells(pos, plate, vertical)[ColumnOf(w, plate) % 3] == w
  {
    var col, row := ColumnOf(w, plate), RowOf(w, plate);
    var c := WellsPerCol(plate);
    assert w - 1 == col * c + row;
    TripletStartsAtSlot(pos, plate, vertical);
    assert w == col / 3 * WellsPerBlock(plate) + row + 1 + col % 3 * c;
  }

  /**
   * As written, the horizontal single branch sends sample 360 and sample 384 of a 384-well plate
   * to the same well, and sample 12 of a 96-well plate to well 186, off the plate.
   */
  lemma HorizontalSingleAsWrittenCollides()
    ensures DeepWellPos(360, 384, "horizontal", "single") == DeepWellPos(384, 384, "horizontal", "single") == Ok(Single(384))
    ensures HorizontalSingleAsWritten(360, 384) == 384 && HorizontalSingleAsWritten(384, 384) == 384
    ensures HorizontalSingleAsWritten(24, 384) == 370 && HorizontalSingle(24, 384) == 369
    ensures HorizontalSingleAsWritten(12, 96) == 186
  {
  }

  /** The two computations differ only for samples at the end of a row (pos a multiple of WellsPerRow). */
  lemma HorizontalSingleAgreesOffLastColumn(pos: int, plate: int)
    requires ValidPlate(plate) && 1 <= pos <= plate && pos % WellsPerRow(plate) != 0
    ensures HorizontalSingleAsWritten(pos, plate) == HorizontalSingle(pos, plate)
  {
    var m := WellsPerRow(plate);
    DivModUnique(pos - 1, m, pos / m, pos % m - 1);
  }

  /**
   * Single horizontal samples 1..plate fill the plate row by row: sample `pos` lands on row
   * `(pos - 1) / WellsPerRow` and column `(pos - 1) % WellsPerRow`, inside the plate.
   */
  lemma HorizontalSingleRowMajor(pos: int, plate: int)
    requires ValidPlate(plate) && 1 <= pos <= plate
    ensures var w := HorizontalSingle(pos, plate);
      1 <= w <= plate
      && RowOf(w, plate) == (pos - 1) / WellsPerRow(plate)
      && ColumnOf(w, plate) == (pos - 1) % WellsPerRow(plate)
  {
    var m, c := WellsPerRow(plate), WellsPerCol(plate);
    var row, col := (pos - 1) / m, (pos - 1) % m;
    assert 0 <= row < c;
    DivModUnique(HorizontalSingle(pos, plate) - 1, c, col, row);
  }

  /** Different single horizontal samples get different wells, and every well is used by one. */
  lemma HorizontalSingleBijective(p: int, q: int, w: int, plate: int)
    requires ValidPlate(plate) && 1 <= p <= plate && 1 <= q <= plate && 1 <= w <= plate
    ensures HorizontalSingle(p, plate) == HorizontalSingle(q, plate) ==> p == q
    ensures exists pos :: 1 <= pos <= plate && HorizontalSingle(pos, plate) == w
  {
    HorizontalSingleRowMajor(p, plate);
    HorizontalSingleRowMajor(q, plate);
    var m := WellsPerRow(plate);
    DivModUnique(p - 1, m, (p - 1) / m, (p - 1) % m);
    DivModUnique(q - 1, m, (q - 1) / m, (q - 1) % m);
    var pos := RowOf(w, plate) * m + ColumnOf(w, plate) + 1;
    DivModUnique(pos - 1, m, RowOf(w, plate), ColumnOf(w, plate));
    HorizontalSingleRowMajor(pos, plate);
    DivModUnique(w - 1, WellsPerCol(plate), ColumnOf(w, plate), RowOf(w, plate));
  }

  /** `get_deep_well_pos(pos)` of utils.py: a 96-well plate, vertical triplicate, and no range check. */
  function OldDeepWellPos(pos: int): seq<int>
  {
    var block := TruncDiv(pos - 1, 8);
    var row := WrapMod(pos, 8);
    var start := block * 24 + row;
    [start, start + 8, start + 16]
  }

  /** The older mapper agrees with the newer one's defaults on 1..96. */
  lemma OldDeepWellPosAgrees(pos: int)
    requires 1 <= pos <= 96
    ensures DeepWellPosDefault(pos) == Ok(Triplet(OldDeepWellPos(pos)))
  {
    DeepWellPosTriplicate(pos, 96, "vertical");
    assert VerticalStart(pos, 96) == TruncDiv(pos - 1, 8) * 24 + WrapMod(pos, 8);
    assert OldDeepWellPos(pos) == TripletFrom(VerticalStart(pos, 96), 96);
  }

  /**
   * The older mapper reproduces its own docstring and, lacking the range check, still answers
   * for position 0 (Python truncates -1/8 to 0).
   */
  lemma OldDeepWellPosExamples()
    ensures OldDeepWellPos(1) == [1, 9, 17] && OldDeepWellPos(3) == [3, 11, 19] && OldDeepWellPos(9) == [25, 33, 41]
    ensures OldDeepWellPos(0) == [8, 16, 24]
  {
    assert TruncDiv(-1, 8) == 0 && WrapMod(0, 8) == 8;
    assert TruncDiv(8, 8) == 1 && WrapMod(9, 8) == 1;
  }
}
