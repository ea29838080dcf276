/**
 * Worklist (GWL) generation for the Tecan: `convert_csv_to_gwl` turns five-field CSV rows
 * into aspirate/dispense/wash lines, and the `R;` (reagent distribution) and `T;` (sample
 * transfer) command builders lay out their fields and a sorted tail of excluded wells.
 * Files are modelled as lists of lines; opening and writing them is not modelled.
 */
module Gwl {
  import opened Wrappers
  import opened Numerals
  import opened PyStrings

  const Wash: string := "W;\n"
  const Flush: string := "F;\n"
  const FieldsPerRow := 5

  // ---------------------------------------------------------------- CSV rows to commands

  /** The five fields of a CSV line, or None for a blank line or one with another field count. */
  function RowFields(line: string): (r: Option<seq<string>>)
    ensures r.Some? ==> |r.value| == FieldsPerRow
  {
    var t := Strip(line);
    if t == [] then None
    else
      var parts := Split(t, ',');
      if |parts| != FieldsPerRow then None else Some(parts)
  }

  /** Aspirate `volume` from the source labware and well (fields 0, 1, 4). */
  function ALine(f: seq<string>): string
    requires |f| == FieldsPerRow
  {
    "A;" + f[0] + ";;;" + f[1] + ";;" + f[4] + ";;;;\n"
  }

  /** Dispense `volume` into the destination labware and well (fields 2, 3, 4). */
  function DLine(f: seq<string>): string
    requires |f| == FieldsPerRow
  {
    "D;" + f[2] + ";;;" + f[3] + ";;" + f[4] + ";;;;\n"
  }

  /** The lines one CSV line produces. */
  function RowCommands(line: string): seq<string>
  {
    match RowFields(line)
    case None => []
    case Some(f) => [ALine(f), DLine(f), Wash]
  }

  /** The first loop of `convert_csv_to_gwl`: every input line's commands, in order. */
  function Expand(lines: seq<string>): seq<string>
  {
    if lines == [] then [] else RowCommands(lines[0]) + Expand(lines[1..])
  }

  /** The fields of the lines that are kept, in input order. */
  function KeptRows(lines: seq<string>): (rows: seq<seq<string>>)
    ensures forall k :: 0 <= k < |rows| ==> |rows[k]| == FieldsPerRow
  {
    if lines == [] then []
    else match RowFields(lines[0])
      case None => KeptRows(lines[1..])
      case Some(f) => [f] + KeptRows(lines[1..])
  }

  /** One aspirate/dispense/wash triple per row. */
  function Triples(rows: seq<seq<string>>): seq<string>
    requires forall k :: 0 <= k < |rows| ==> |rows[k]| == FieldsPerRow
  {
    if rows == [] then [] else [ALine(rows[0]), DLine(rows[0]), Wash] + Triples(rows[1..])
  }

  /**
   * The commands are exactly one aspirate/dispense/wash triple per kept row, in input order;
   * blank lines and lines without exactly five fields contribute nothing.
   */
  lemma {:induction false} ExpandIsTriples(lines: seq<string>)
    ensures Expand(lines) == Triples(KeptRows(lines))
  {
    if lines != [] {
      ExpandIsTriples(lines[1..]);
    }
  }

  /** Where the lines of row `k` sit in the output. */
  lemma {:induction false} TriplesAt(rows: seq<seq<string>>, k: int)
    requires forall i :: 0 <= i < |rows| ==> |rows[i]| == FieldsPerRow
    requires 0 <= k < |rows|
    ensures |Triples(rows)| == 3 * |rows|
    ensures Triples(rows)[3 * k] == ALine(rows[k]) && Triples(rows)[3 * k + 1] == DLine(rows[k])
    ensures Triples(rows)[3 * k + 2] == Wash
  {
    if k > 0 {
      TriplesAt(rows[1..], k - 1);
    } else if |rows| > 1 {
      TriplesAt(rows[1..], 0);
    }
  }

  // ---------------------------------------------------------------- wash lines

  function CountW(lines: seq<string>): nat
  {
    if lines == [] then 0 else (if lines[0] == Wash then 1 else 0) + CountW(lines[1..])
  }

  lemma {:induction false} CountWAppend(a: seq<string>, b: seq<string>)
    ensures CountW(a + b) == CountW(a) + CountW(b)
  {
    if a != [] {
      assert (a + b)[0] == a[0] && (a + b)[1..] == a[1..] + b;
      CountWAppend(a[1..], b);
      assert CountW(a + b) == (if a[0] == Wash then 1 else 0) + CountW(a[1..] + b);
    } else {
      assert a + b == b;
    }
  }

  /** Every kept row gives exactly one wash line. */
  lemma {:induction false} CountWExpand(lines: seq<string>)
    ensures CountW(Expand(lines)) == |KeptRows(lines)|
  {
    if lines != [] {
      CountWExpand(lines[1..]);
      CountWAppend(RowCommands(lines[0]), Expand(lines[1..]));
      match RowFields(lines[0])
      case None =>
      case Some(f) =>
        assert ALine(f)[0] != Wash[0] && DLine(f)[0] != Wash[0];
        var t := [ALine(f), DLine(f), Wash];
        assert t[1..] == [DLine(f), Wash] && t[1..][1..] == [Wash] && t[1..][1..][1..] == [];
        assert ALine(f) != Wash && DLine(f) != Wash;
        assert CountW(t[1..][1..]) == 1;
        assert CountW(t[1..]) == 1;
    }
  }

  // ---------------------------------------------------------------- thinning to eight washes

  /** `indices_to_keep`: the ranks `int(i * (n - 1) / 7)` for i in 0..7 among n wash lines. */
  function KeepRanks(n: int): seq<int>
  {
    seq(8, i => i * (n - 1) / 7)
  }

  predicate StrictlyIncreasing(s: seq<int>)
  {
    forall i, j :: 0 <= i < j < |s| ==> s[i] < s[j]
  }

  /**
   * The list comprehension that drops wash lines: a wash line is kept when its rank among the
   * wash lines (counted from `rank`) is one of `keep`; every other line is kept.
   */
  function Thin(lines: seq<string>, keep: seq<int>, rank: int): seq<string>
  {
    if lines == [] then []
    else if lines[0] == Wash then
      (if rank in keep then [Wash] else []) + Thin(lines[1..], keep, rank + 1)
    else [lines[0]] + Thin(lines[1..], keep, rank)
  }

  /** The `onetime_tip_change` step: with more than eight wash lines, keep eight of them. */
  function ThinIfAsked(lines: seq<string>, onetimeTipChange: bool): seq<string>
  {
    if onetimeTipChange && CountW(lines) > 8 then Thin(lines, KeepRanks(CountW(lines)), 0) else lines
  }

  /** The non-wash lines, in order. */
  function Commands(lines: seq<string>): seq<string>
  {
    if lines == [] then [] else (if lines[0] == Wash then [] else [lines[0]]) + Commands(lines[1..])
  }

  /** With more than eight washes the ranks kept are eight distinct ones, the first and the last among them. */
  lemma KeepRanksShape(n: int)
    requires n > 8
    ensures |KeepRanks(n)| == 8 && StrictlyIncreasing(KeepRanks(n))
    ensures KeepRanks(n)[0] == 0 && KeepRanks(n)[7] == n - 1
    ensures forall i :: 0 <= i < 8 ==> 0 <= KeepRanks(n)[i] < n
  {
    var ks := KeepRanks(n);
    forall i | 0 <= i < 8
      ensures 0 <= ks[i] < n
    {
      KeepRankBound(i, n - 1);
    }
    forall i | 0 <= i < 7
      ensures ks[i] < ks[i + 1]
    {
      KeepRankStep(i, n - 1);
    }
    forall i, j | 0 <= i < j < 8
      ensures ks[i] < ks[j]
    {
      AdjacentIncreasing(ks, i, j);
    }
    assert ks[7] == 7 * (n - 1) / 7;
  }

  lemma KeepRankBound(i: int, m: int)
    requires 0 <= i < 8 && m >= 8
    ensures 0 <= i * m / 7 <= m
  {
    assert 0 <= i * m <= 7 * m;
  }

  lemma KeepRankStep(i: int, m: int)
    requires 0 <= i < 7 && m >= 8
    ensures i * m / 7 < (i + 1) * m / 7
  {
    assert (i + 1) * m == i * m + m;
    StepAtLeastOne(i * m, m);
  }

  /** A list that grows from each entry to the next grows from any entry to any later one. */
  lemma AdjacentIncreasing(s: seq<int>, i: int, j: int)
    requires forall k :: 0 <= k < |s| - 1 ==> s[k] < s[k + 1]
    requires 0 <= i < j < |s|
    ensures s[i] < s[j]
    decreases j - i
  {
    if j > i + 1 {
      AdjacentIncreasing(s, i, j - 1);
    }
  }

  lemma StepAtLeastOne(a: int, m: int)
    requires a >= 0 && m >= 7
    ensures a / 7 < (a + m) / 7
  {
  }

  /** Membership in `keep` matters only for the ranks still to come. */
  lemma {:induction false} ThinOnlyLaterRanks(lines: seq<string>, a: seq<int>, b: seq<int>, rank: int)
    requires forall k :: k >= rank ==> (k in a <==> k in b)
    ensures Thin(lines, a, rank) == Thin(lines, b, rank)
  {
    if lines != [] {
      ThinOnlyLaterRanks(lines[1..], a, b, if lines[0] == Wash then rank + 1 else rank);
    }
  }

  /** Wash lines counted in a thinned list: the first line's share, then the rest's. */
  lemma ThinStep(lines: seq<string>, keep: seq<int>, rank: int)
    requires lines != []
    ensures CountW(Thin(lines, keep, rank)) ==
      (if lines[0] == Wash && rank in keep then 1 else 0) + CountW(Thin(lines[1..], keep, if lines[0] == Wash then rank + 1 else rank))
  {
    var rest := Thin(lines[1..], keep, if lines[0] == Wash then rank + 1 else rank);
    var head := if lines[0] == Wash then (if rank in keep then [Wash] else []) else [lines[0]];
    assert Thin(lines, keep, rank) == head + rest;
    CountWAppend(head, rest);
  }

  /** Thinning keeps one wash line per kept rank, and every non-wash line. */
  lemma {:induction false} ThinCounts(lines: seq<string>, keep: seq<int>, rank: int)
    requires StrictlyIncreasing(keep)
    requires keep != [] ==> rank <= keep[0] && keep[|keep| - 1] < rank + CountW(lines)
    ensures CountW(Thin(lines, keep, rank)) == |keep|
  {
    if lines != [] {
      ThinStep(lines, keep, rank);
      if lines[0] != Wash {
        ThinCounts(lines[1..], keep, rank);
      } else if keep != [] && keep[0] == rank {
        ThinOnlyLaterRanks(lines[1..], keep, keep[1..], rank + 1);
        ThinCounts(lines[1..], keep[1..], rank + 1);
      } else {
        assert rank !in keep;
        ThinCounts(lines[1..], keep, rank + 1);
      }
    }
  }

  /** Thinning drops wash lines only: the other lines are kept, in order. */
  lemma {:induction false} ThinKeepsCommands(lines: seq<string>, keep: seq<int>, rank: int)
    ensures Commands(Thin(lines, keep, rank)) == Commands(lines)
  {
    if lines != [] {
      var rest := Thin(lines[1..], keep, if lines[0] == Wash then rank + 1 else rank);
      var head := if lines[0] == Wash then (if rank in keep then [Wash] else []) else [lines[0]];
      assert Thin(lines, keep, rank) == head + rest;
      CommandsAppend(head, rest);
      ThinKeepsCommands(lines[1..], keep, if lines[0] == Wash then rank + 1 else rank);
    }
  }

  lemma {:induction false} CommandsAppend(a: seq<string>, b: seq<string>)
    ensures Commands(a + b) == Commands(a) + Commands(b)
  {
    if a != [] {
      assert (a + b)[0] == a[0] && (a + b)[1..] == a[1..] + b;
      CommandsAppend(a[1..], b);
      assert Commands(a + b) == (if a[0] == Wash then [] else [a[0]]) + Commands(a[1..] + b);
    } else {
      assert a + b == b;
    }
  }

  /**
   * With `onetime_tip_change` and more than eight wash lines exactly eight remain, those at ranks
   * `KeepRanks(n)` (the first and the last among them); no other line is touched.
   */
  lemma ThinKeepsEight(lines: seq<string>)
    requires CountW(lines) > 8
    ensures CountW(ThinIfAsked(lines, true)) == 8
    ensures Commands(ThinIfAsked(lines, true)) == Commands(lines)
  {
    KeepRanksShape(CountW(lines));
    ThinCounts(lines, KeepRanks(CountW(lines)), 0);
    ThinKeepsCommands(lines, KeepRanks(CountW(lines)), 0);
  }

  // ---------------------------------------------------------------- flushing instead of washing

  /** helper/utils.py with `reuse_tips`: every wash line becomes a flush line. */
  function FlushAll(lines: seq<string>): seq<string>
  {
    seq(|lines|, i requires 0 <= i < |lines| => if lines[i] == Wash then Flush else lines[i])
  }

  /** utils.py: every wash line that has another wash line after it becomes a flush line. */
  function FlushAllButLast(lines: seq<string>): seq<string>
  {
    seq(|lines|, i requires 0 <= i < |lines| =>
      if lines[i] == Wash && CountW(lines[i + 1..]) > 0 then Flush else lines[i])
  }

  /** `w_indices`: the positions of the wash lines, ascending. */
  function WashIndices(lines: seq<string>): seq<int>
  {
    if lines == [] then []
    else
      var n := |lines| - 1;
      WashIndices(lines[..n]) + if lines[n] == Wash then [n] else []
  }

  /** The t-th entry of `w_indices` is the wash line with t wash lines before it. */
  lemma {:induction false} WashIndicesRanks(lines: seq<string>)
    ensures |WashIndices(lines)| == CountW(lines)
    ensures forall t :: 0 <= t < |WashIndices(lines)| ==>
      0 <= WashIndices(lines)[t] < |lines| && lines[WashIndices(lines)[t]] == Wash &&
      CountW(lines[..WashIndices(lines)[t]]) == t
    ensures forall j :: 0 <= j < |lines| && lines[j] == Wash ==>
      CountW(lines[..j]) < |WashIndices(lines)| && WashIndices(lines)[CountW(lines[..j])] == j
  {
    if lines != [] {
      var n := |lines| - 1;
      var init := lines[..n];
      WashIndicesRanks(init);
      CountWAppend(init, [lines[n]]);
      assert init + [lines[n]] == lines;
      assert [lines[n]][1..] == [];
      assert forall j :: 0 <= j <= n ==> init[..j] == lines[..j];
      assert init[..n] == init;
    }
  }

  /** A wash line splits the count in three. */
  lemma CountWSplit(lines: seq<string>, j: int)
    requires 0 <= j < |lines| && lines[j] == Wash
    ensures CountW(lines) == CountW(lines[..j]) + 1 + CountW(lines[j + 1..])
  {
    assert lines == lines[..j] + ([lines[j]] + lines[j + 1..]);
    CountWAppend(lines[..j], [lines[j]] + lines[j + 1..]);
    assert ([lines[j]] + lines[j + 1..])[1..] == lines[j + 1..];
  }

  /**
   * The final loop, in place: overwrite the lines listed in `w_indices` (all of them, or all
   * but the last) with flush lines.
   */
  method FlushWashes(a: array<string>, keepLast: bool)
    modifies a
    ensures a[..] == if keepLast then FlushAllButLast(old(a[..])) else FlushAll(old(a[..]))
  {
    ghost var before := a[..];
    var ix := WashIndices(a[..]);
    WashIndicesRanks(before);
    var upto := if keepLast && |ix| > 0 then |ix| - 1 else |ix|;
    OverwriteAt(a, ix[..upto], Flush);
    FlushedByIndices(before, a[..], upto, keepLast);
  }

  /** `for i in indices: a[i] = v`: exactly the listed entries now hold `v`. */
  method OverwriteAt<T>(a: array<T>, indices: seq<int>, v: T)
    requires forall t :: 0 <= t < |indices| ==> 0 <= indices[t] < a.Length
    modifies a
    ensures forall j :: 0 <= j < a.Length ==> a[j] == if j in indices then v else old(a[j])
  {
    for k := 0 to |indices|
      invariant forall j :: 0 <= j < a.Length ==> a[j] == if j in indices[..k] then v else old(a[j])
    {
      a[indices[k]] := v;
      assert indices[..k + 1] == indices[..k] + [indices[k]];
    }
    assert indices[..|indices|] == indices;
  }

  /** Flushing the lines the first `k` entries of `w_indices` list is flushing the wash lines of rank below `k`. */
  lemma FlushedByIndices(before: seq<string>, after: seq<string>, k: int, keepLast: bool)
    requires |after| == |before|
    requires k == if keepLast && CountW(before) > 0 then CountW(before) - 1 else CountW(before)
    requires 0 <= k <= |WashIndices(before)|
    requires forall j :: 0 <= j < |after| ==> after[j] == if j in WashIndices(before)[..k] then Flush else before[j]
    ensures after == if keepLast then FlushAllButLast(before) else FlushAll(before)
  {
    var ix := WashIndices(before);
    WashIndicesRanks(before);
    forall j | 0 <= j < |after|
      ensures j in ix[..k] <==> before[j] == Wash && CountW(before[..j]) < k
    {
      if j in ix[..k] {
        var t :| 0 <= t < k && ix[..k][t] == j;
        assert ix[t] == j;
      }
      if before[j] == Wash && CountW(before[..j]) < k {
        assert ix[..k][CountW(before[..j])] == j;
      }
    }
    FlushedByRank(before, after, k, keepLast);
  }

  /** Flushing the wash lines of rank below `k` is the specified result. */
  lemma FlushedByRank(before: seq<string>, after: seq<string>, k: int, keepLast: bool)
    requires |after| == |before|
    requires k == if keepLast && CountW(before) > 0 then CountW(before) - 1 else CountW(before)
    requires forall j :: 0 <= j < |after| ==>
      after[j] == if before[j] == Wash && CountW(before[..j]) < k then Flush else before[j]
    ensures after == if keepLast then FlushAllButLast(before) else FlushAll(before)
  {
    forall j | 0 <= j < |after|
      ensures after[j] == (if keepLast then FlushAllButLast(before) else FlushAll(before))[j]
    {
      if before[j] == Wash {
        CountWSplit(before, j);
      }
    }
  }

  /** With `reuse_tips` no wash line is left. */
  lemma {:induction false} FlushAllLeavesNoWash(lines: seq<string>)
    ensures CountW(FlushAll(lines)) == 0
  {
    if lines != [] {
      assert Flush[0] != Wash[0];
      assert FlushAll(lines)[1..] == FlushAll(lines[1..]);
      FlushAllLeavesNoWash(lines[1..]);
    }
  }

  /** In the older converter exactly one wash line survives when there was any. */
  lemma {:induction false} FlushAllButLastLeavesOne(lines: seq<string>)
    ensures CountW(FlushAllButLast(lines)) == if CountW(lines) > 0 then 1 else 0
  {
    if lines != [] {
      assert Flush[0] != Wash[0];
      var f := FlushAllButLast(lines);
      assert forall i :: 1 <= i < |lines| ==> lines[i + 1..] == lines[1..][i..];
      assert f[1..] == FlushAllButLast(lines[1..]);
      FlushAllButLastLeavesOne(lines[1..]);
    }
  }

  /** ... and it is the last one: no wash line follows it, and the flushed lines were washes. */
  lemma FlushAllButLastKeepsLast(lines: seq<string>, i: int)
    requires 0 <= i < |lines|
    ensures FlushAllButLast(lines)[i] == Wash <==> lines[i] == Wash && CountW(lines[i + 1..]) == 0
    ensures FlushAllButLast(lines)[i] == Flush <==> lines[i] == Flush || (lines[i] == Wash && CountW(lines[i + 1..]) > 0)
  {
    assert Flush[0] != Wash[0];
  }

  // ---------------------------------------------------------------- the converters

  /** helper/utils.py `convert_csv_to_gwl`: expand, thin if asked, then flush every wash if `reuse_tips`. */
  function ConvertedNew(lines: seq<string>, reuseTips: bool, onetimeTipChange: bool): seq<string>
  {
    var t := ThinIfAsked(Expand(lines), onetimeTipChange);
    if reuseTips then FlushAll(t) else t
  }

  /** utils.py `convert_csv_to_gwl`: expand, thin if asked, then flush every wash but the last. */
  function ConvertedOld(lines: seq<string>, onetimeTipChange: bool): seq<string>
  {
    FlushAllButLast(ThinIfAsked(Expand(lines), onetimeTipChange))
  }

  /** Expanding from line `i` is line `i`'s commands followed by the expansion from line `i + 1`. */
  lemma ExpandFrom(lines: seq<string>, i: int)
    requires 0 <= i < |lines|
    ensures Expand(lines[i..]) == RowCommands(lines[i]) + Expand(lines[i + 1..])
  {
    assert lines[i..][0] == lines[i];
    assert lines[i..][1..] == lines[i + 1..];
  }

  /** The first loop: the command lines of every input line, appended in order. */
  method ExpandRows(lines: seq<string>) returns (output: seq<string>)
    ensures output == Expand(lines)
  {
    output := [];
    for i := 0 to |lines|
      invariant output + Expand(lines[i..]) == Expand(lines)
    {
      var commands := RowCommands(lines[i]);
      ExpandFrom(lines, i);
      AppendAssoc(output, commands, Expand(lines[i + 1..]));
      output := output + commands;
    }
    assert lines[|lines|..] == [];
  }

  /** helper/utils.py `convert_csv_to_gwl` on the lines of the input file. */
  method ConvertCsvToGwl(lines: seq<string>, reuseTips: bool, onetimeTipChange: bool) returns (out: seq<string>)
    ensures out == ConvertedNew(lines, reuseTips, onetimeTipChange)
  {
    var output := ExpandRows(lines);
    var thinned := ThinIfAsked(output, onetimeTipChange);
    var a := new string[|thinned|](i requires 0 <= i < |thinned| => thinned[i]);
    assert a[..] == thinned;
    if reuseTips {
      FlushWashes(a, false);
    }
    out := a[..];
  }

  /** utils.py `convert_csv_to_gwl` on the lines of the input file. */
  method ConvertCsvToGwlOld(lines: seq<string>, onetimeTipChange: bool) returns (out: seq<string>)
    ensures out == ConvertedOld(lines, onetimeTipChange)
  {
    var output := ExpandRows(lines);
    var thinned := ThinIfAsked(output, onetimeTipChange);
    var a := new string[|thinned|](i requires 0 <= i < |thinned| => thinned[i]);
    assert a[..] == thinned;
    FlushWashes(a, true);
    out := a[..];
  }

  /**
   * Without options the output is one aspirate/dispense/wash triple per well-formed row; with
   * `reuse_tips` no wash line is left; with `onetime_tip_change` and more than eight rows exactly
   * eight wash lines remain and every aspirate/dispense line is kept, in order.
   */
  lemma ConvertedNewShape(lines: seq<string>, reuseTips: bool, onetimeTipChange: bool)
    ensures ConvertedNew(lines, false, false) == Triples(KeptRows(lines))
    ensures reuseTips ==> CountW(ConvertedNew(lines, reuseTips, onetimeTipChange)) == 0
    ensures !reuseTips ==> CountW(ConvertedNew(lines, reuseTips, onetimeTipChange)) ==
                           if onetimeTipChange && |KeptRows(lines)| > 8 then 8 else |KeptRows(lines)|
    ensures Commands(ConvertedNew(lines, false, onetimeTipChange)) == Commands(Expand(lines))
  {
    ExpandIsTriples(lines);
    CountWExpand(lines);
    FlushAllLeavesNoWash(ThinIfAsked(Expand(lines), onetimeTipChange));
    if onetimeTipChange && |KeptRows(lines)| > 8 {
      ThinKeepsEight(Expand(lines));
    }
  }

  /** The older converter leaves exactly one wash line when at least one row was converted. */
  lemma ConvertedOldShape(lines: seq<string>, onetimeTipChange: bool)
    ensures CountW(ConvertedOld(lines, onetimeTipChange)) == if |KeptRows(lines)| > 0 then 1 else 0
  {
    var t := ThinIfAsked(Expand(lines), onetimeTipChange);
    CountWExpand(lines);
    FlushAllButLastLeavesOne(t);
    if onetimeTipChange && |KeptRows(lines)| > 8 {
      ThinKeepsEight(Expand(lines));
    }
  }

  // ---------------------------------------------------------------- R; and T; commands

  predicate SortedAsc(s: seq<int>)
  {
    forall i, j :: 0 <= i < j < |s| ==> s[i] <= s[j]
  }

  /** One step of insertion sort: `x` goes before the first element not below it. */
  function Insert(x: int, s: seq<int>): (r: seq<int>)
    ensures |r| == |s| + 1
  {
    if s == [] || x <= s[0] then [x] + s
    else [s[0]] + Insert(x, s[1..])
  }

  /** Python's `sorted` on a list of integers, as an insertion sort. */
  function Sorted(s: seq<int>): (r: seq<int>)
    ensures |r| == |s|
  {
    if s == [] then [] else Insert(s[0], Sorted(s[1..]))
  }

  /** An ascending list stays ascending with an element in front that is not above its head. */
  lemma SortedCons(a: int, s: seq<int>)
    requires SortedAsc(s) && (s != [] ==> a <= s[0])
    ensures SortedAsc([a] + s)
  {
    var r := [a] + s;
    forall i, j | 0 <= i < j < |r|
      ensures r[i] <= r[j]
    {
      if i == 0 {
        assert r[j] == s[j - 1] && s[0] <= s[j - 1];
      } else {
        assert r[i] == s[i - 1] && r[j] == s[j - 1];
      }
    }
  }

  /** Inserting into an ascending list keeps it ascending and adds exactly `x`. */
  lemma {:induction false} InsertSorts(x: int, s: seq<int>)
    requires SortedAsc(s)
    ensures SortedAsc(Insert(x, s)) && multiset(Insert(x, s)) == multiset(s) + multiset{x}
  {
    if s == [] || x <= s[0] {
      SortedCons(x, s);
    } else {
      var tail := s[1..];
      assert s == [s[0]] + tail;
      assert SortedAsc(tail);
      InsertSorts(x, tail);
      var r' := Insert(x, tail);
      assert r'[0] == x || r'[0] == tail[0];
      SortedCons(s[0], r');
      assert Insert(x, s) == [s[0]] + r';
    }
  }

  /** `sorted` returns its input in ascending order: ascending, and a permutation of it. */
  lemma {:induction false} SortedSorts(s: seq<int>)
    ensures SortedAsc(Sorted(s)) && multiset(Sorted(s)) == multiset(s)
  {
    if s != [] {
      assert s == [s[0]] + s[1..];
      SortedSorts(s[1..]);
      InsertSorts(s[0], Sorted(s[1..]));
    }
  }

  /** The `f"{excluded_pos};"` fields, one per excluded well in ascending order. */
  function ExcludedFields(excluded: seq<int>): (fields: seq<string>)
    ensures |fields| == |excluded|
  {
    var sorted := Sorted(excluded);
    seq(|sorted|, k requires 0 <= k < |sorted| => IntToString(sorted[k]))
  }

  /** The fields of the `R;` line, the last one the empty string after the final `;`. */
  function ReagentFields(sourceLw: string, destLw: string, sourcePosStart: int, sourcePosEnd: int,
                         destPosStart: int, destPosEnd: int, volume: int, nDitiReuses: int,
                         nMultiDispenses: int, excluded: seq<int>): seq<string>
  {
    ReagentHead(sourceLw, destLw, sourcePosStart, sourcePosEnd, destPosStart, destPosEnd, volume,
                nDitiReuses, nMultiDispenses) + ExcludedFields(excluded) + [""]
  }

  /** The fixed fields of the `R;` line, before the excluded wells. */
  function ReagentHead(sourceLw: string, destLw: string, sourcePosStart: int, sourcePosEnd: int,
                       destPosStart: int, destPosEnd: int, volume: int, nDitiReuses: int,
                       nMultiDispenses: int): (head: seq<string>)
    ensures |head| == 16
  {
    ["R", sourceLw, "", "", IntToString(sourcePosStart), IntToString(sourcePosEnd), destLw, "", "",
     IntToString(destPosStart), IntToString(destPosEnd), IntToString(volume), "",
     IntToString(nDitiReuses), IntToString(nMultiDispenses), "0"]
  }

  /** The fields of the `T;` line, the last one the empty string after the final `;`. */
  function TransferFields(sourceLw: string, destLw: string, sourcePosStart: int, sourcePosEnd: int,
                          destPosStart: int, destPosEnd: int, volume: int, nDitiReuses: int,
                          nMultiDispenses: int, sampleCount: int, replicationCount: int,
                          sampleDirection: int, replicateDirection: int, excluded: seq<int>): seq<string>
  {
    TransferHead(sourceLw, destLw, sourcePosStart, sourcePosEnd, destPosStart, destPosEnd, volume,
                 nDitiReuses, nMultiDispenses, sampleCount, replicationCount, sampleDirection,
                 replicateDirection) + ExcludedFields(excluded) + [""]
  }

  /** The fixed fields of the `T;` line, before the excluded wells. */
  function TransferHead(sourceLw: string, destLw: string, sourcePosStart: int, sourcePosEnd: int,
                        destPosStart: int, destPosEnd: int, volume: int, nDitiReuses: int,
                        nMultiDispenses: int, sampleCount: int, replicationCount: int,
                        sampleDirection: int, replicateDirection: int): (head: seq<string>)
    ensures |head| == 19
  {
    ["T", sourceLw, "", "", IntToString(sourcePosStart), IntToString(sourcePosEnd), destLw, "", "",
     IntToString(destPosStart), IntToString(destPosEnd), IntToString(volume), "",
     IntToString(nDitiReuses), IntToString(nMultiDispenses), IntToString(sampleCount),
     IntToString(replicationCount), IntToString(sampleDirection), IntToString(replicateDirection)]
  }

  /** The fixed fields of a `T;` line read back as the arguments. */
  lemma TransferHeadReadsAs(sourceLw: string, destLw: string, sourcePosStart: int, sourcePosEnd: int,
                            destPosStart: int, destPosEnd: int, volume: int, nDitiReuses: int,
                            nMultiDispenses: int, sampleCount: int, replicationCount: int,
                            sampleDirection: int, replicateDirection: int)
    ensures var head := TransferHead(sourceLw, destLw, sourcePosStart, sourcePosEnd, destPosStart, destPosEnd, volume,
                                     nDitiReuses, nMultiDispenses, sampleCount, replicationCount, sampleDirection,
                                     replicateDirection);
      && head[0] == "T" && head[1] == sourceLw && head[6] == destLw
      && ReadsAs(head[4], sourcePosStart) && ReadsAs(head[5], sourcePosEnd)
      && ReadsAs(head[9], destPosStart) && ReadsAs(head[10], destPosEnd) && ReadsAs(head[11], volume)
      && ReadsAs(head[13], nDitiReuses) && ReadsAs(head[14], nMultiDispenses)
      && ReadsAs(head[15], sampleCount) && ReadsAs(head[16], replicationCount)
      && ReadsAs(head[17], sampleDirection) && ReadsAs(head[18], replicateDirection)
  {
    SeqOf19(TransferHead(sourceLw, destLw, sourcePosStart, sourcePosEnd, destPosStart, destPosEnd, volume,
                         nDitiReuses, nMultiDispenses, sampleCount, replicationCount, sampleDirection,
                         replicateDirection),
            "T", sourceLw, "", "", IntToString(sourcePosStart), IntToString(sourcePosEnd), destLw, "", "",
            IntToString(destPosStart), IntToString(destPosEnd), IntToString(volume), "",
            IntToString(nDitiReuses), IntToString(nMultiDispenses), IntToString(sampleCount),
            IntToString(replicationCount), IntToString(sampleDirection), IntToString(replicateDirection));
    IntToStringReadsAs(sourcePosStart);
    IntToStringReadsAs(sourcePosEnd);
    IntToStringReadsAs(destPosStart);
    IntToStringReadsAs(destPosEnd);
    IntToStringReadsAs(volume);
    IntToStringReadsAs(nDitiReuses);
    IntToStringReadsAs(nMultiDispenses);
    IntToStringReadsAs(sampleCount);
    IntToStringReadsAs(replicationCount);
    IntToStringReadsAs(sampleDirection);
    IntToStringReadsAs(replicateDirection);
  }

  /** The entries of a 16-entry literal, by position. */
  lemma SeqOf16<T>(s: seq<T>, a0: T, a1: T, a2: T, a3: T, a4: T, a5: T, a6: T, a7: T, a8: T, a9: T,
                   a10: T, a11: T, a12: T, a13: T, a14: T, a15: T)
    requires s == [a0, a1, a2, a3, a4, a5, a6, a7, a8, a9, a10, a11, a12, a13, a14, a15]
    ensures s[0] == a0 && s[1] == a1 && s[4] == a4 && s[5] == a5 && s[6] == a6 && s[9] == a9 && s[10] == a10
    ensures s[11] == a11 && s[13] == a13 && s[14] == a14 && s[15] == a15
  {
  }

  /** The entries of a 19-entry literal, by position. */
  lemma SeqOf19<T>(s: seq<T>, a0: T, a1: T, a2: T, a3: T, a4: T, a5: T, a6: T, a7: T, a8: T, a9: T,
                   a10: T, a11: T, a12: T, a13: T, a14: T, a15: T, a16: T, a17: T, a18: T)
    requires s == [a0, a1, a2, a3, a4, a5, a6, a7, a8, a9, a10, a11, a12, a13, a14, a15, a16, a17, a18]
    ensures s[0] == a0 && s[1] == a1 && s[4] == a4 && s[5] == a5 && s[6] == a6 && s[9] == a9 && s[10] == a10
    ensures s[11] == a11 && s[13] == a13 && s[14] == a14 && s[15] == a15 && s[16] == a16 && s[17] == a17 && s[18] == a18
  {
  }

  /** The fixed fields of an `R;` line read back as the arguments. */
  lemma ReagentHeadReadsAs(sourceLw: string, destLw: string, sourcePosStart: int, sourcePosEnd: int,
                           destPosStart: int, destPosEnd: int, volume: int, nDitiReuses: int,
                           nMultiDispenses: int)
    ensures var head := ReagentHead(sourceLw, destLw, sourcePosStart, sourcePosEnd, destPosStart, destPosEnd, volume,
                                    nDitiReuses, nMultiDispenses);
      && head[0] == "R" && head[1] == sourceLw && head[6] == destLw && head[15] == "0"
      && ReadsAs(head[4], sourcePosStart) && ReadsAs(head[5], sourcePosEnd)
      && ReadsAs(head[9], destPosStart) && ReadsAs(head[10], destPosEnd) && ReadsAs(head[11], volume)
      && ReadsAs(head[13], nDitiReuses) && ReadsAs(head[14], nMultiDispenses)
  {
    SeqOf16(ReagentHead(sourceLw, destLw, sourcePosStart, sourcePosEnd, destPosStart, destPosEnd, volume,
                        nDitiReuses, nMultiDispenses),
            "R", sourceLw, "", "", IntToString(sourcePosStart), IntToString(sourcePosEnd), destLw, "", "",
            IntToString(destPosStart), IntToString(destPosEnd), IntToString(volume), "",
            IntToString(nDitiReuses), IntToString(nMultiDispenses), "0");
    IntToStringReadsAs(sourcePosStart);
    IntToStringReadsAs(sourcePosEnd);
    IntToStringReadsAs(destPosStart);
    IntToStringReadsAs(destPosEnd);
    IntToStringReadsAs(volume);
    IntToStringReadsAs(nDitiReuses);
    IntToStringReadsAs(nMultiDispenses);
  }

  /** A line's fields start with its fixed fields, whatever follows them. */
  lemma HeadKept<T>(head: seq<T>, tail: seq<T>, last: T)
    ensures |head + tail + [last]| == |head| + |tail| + 1
    ensures (head + tail + [last])[..|head|] == head
    ensures forall i :: 0 <= i < |head| ==> (head + tail + [last])[i] == head[i]
  {
  }

  /** `generate_reagent_distribution_gwl`: the line written, or the failed `open_mode` assertion. */
  function ReagentDistributionCommand(openMode: string, sourceLw: string, destLw: string,
                                      sourcePosStart: int, sourcePosEnd: int, destPosStart: int,
                                      destPosEnd: int, volume: int, nDitiReuses: int,
                                      nMultiDispenses: int, excluded: seq<int>): Result<string>
  {
    if openMode != "a" && openMode != "w" then Err(AssertionError)
    else Ok(Join(ReagentFields(sourceLw, destLw, sourcePosStart, sourcePosEnd, destPosStart, destPosEnd,
                               volume, nDitiReuses, nMultiDispenses, excluded), ';') + "\n")
  }

  /** `generate_sample_transfer_gwl`: the line written, or the failed `open_mode` assertion. */
  function SampleTransferCommand(openMode: string, sourceLw: string, destLw: string,
                                 sourcePosStart: int, sourcePosEnd: int, destPosStart: int,
                                 destPosEnd: int, volume: int, nDitiReuses: int,
                                 nMultiDispenses: int, sampleCount: int, replicationCount: int,
                                 sampleDirection: int, replicateDirection: int,
                                 excluded: seq<int>): Result<string>
  {
    if openMode != "a" && openMode != "w" then Err(AssertionError)
    else Ok(Join(TransferFields(sourceLw, destLw, sourcePosStart, sourcePosEnd, destPosStart, destPosEnd,
                                volume, nDitiReuses, nMultiDispenses, sampleCount, replicationCount,
                                sampleDirection, replicateDirection, excluded), ';') + "\n")
  }

  lemma NumeralHasNoSemicolon(n: int)
    ensures ';' !in IntToString(n)
  {
    var s := IntToString(n);
    IntToStringRoundTrip(n);
    forall k | 0 <= k < |s|
      ensures s[k] != ';'
    {
      if k > 0 || s[0] != '-' {
        assert IsDigit(s[k]);
      }
    }
  }

  /** Read back, the excluded tail is the excluded wells in ascending order. */
  lemma ExcludedFieldsReadBack(excluded: seq<int>)
    ensures forall k :: 0 <= k < |excluded| ==>
      ';' !in ExcludedFields(excluded)[k] && ReadsAs(ExcludedFields(excluded)[k], Sorted(excluded)[k])
    ensures SortedAsc(Sorted(excluded)) && multiset(Sorted(excluded)) == multiset(excluded)
  {
    SortedSorts(excluded);
    forall k | 0 <= k < |excluded|
      ensures ';' !in ExcludedFields(excluded)[k] && ReadsAs(ExcludedFields(excluded)[k], Sorted(excluded)[k])
    {
      NumeralHasNoSemicolon(Sorted(excluded)[k]);
      IntToStringReadsAs(Sorted(excluded)[k]);
    }
  }

  predicate NoSemicolons(fields: seq<string>)
  {
    forall f :: f in fields ==> ';' !in f
  }

  lemma NoSemicolonsConcat(a: seq<string>, b: seq<string>)
    requires NoSemicolons(a) && NoSemicolons(b)
    ensures NoSemicolons(a + b)
  {
  }

  /** A line built by joining `;`-free fields and a newline reads back as those fields. */
  lemma LineReadBack(fields: seq<string>)
    requires |fields| >= 1 && NoSemicolons(fields)
    ensures var line := Join(fields, ';') + "\n";
      line[|line| - 1] == '\n' && Split(line[..|line| - 1], ';') == fields
  {
    SplitJoin(fields, ';');
    var line := Join(fields, ';') + "\n";
    assert line[..|line| - 1] == Join(fields, ';');
  }

  /** The excluded-well fields are numerals, so they hold no `;`. */
  lemma ExcludedFieldsNoSemicolons(excluded: seq<int>)
    ensures NoSemicolons(ExcludedFields(excluded))
  {
    var fields := ExcludedFields(excluded);
    forall f | f in fields
      ensures ';' !in f
    {
      var k :| 0 <= k < |fields| && fields[k] == f;
      NumeralHasNoSemicolon(Sorted(excluded)[k]);
    }
  }

  /** The fixed `R;` fields are letters, empty fields, numerals and the two labware names. */
  lemma ReagentHeadNoSemicolons(sourceLw: string, destLw: string, sourcePosStart: int, sourcePosEnd: int,
                                destPosStart: int, destPosEnd: int, volume: int, nDitiReuses: int,
                                nMultiDispenses: int)
    requires ';' !in sourceLw && ';' !in destLw
    ensures NoSemicolons(ReagentHead(sourceLw, destLw, sourcePosStart, sourcePosEnd, destPosStart,
                                     destPosEnd, volume, nDitiReuses, nMultiDispenses))
  {
    var nums := [sourcePosStart, sourcePosEnd, destPosStart, destPosEnd, volume, nDitiReuses, nMultiDispenses];
    var strs := seq(|nums|, k requires 0 <= k < |nums| => IntToString(nums[k]));
    forall f | f in strs
      ensures ';' !in f
    {
      var k :| 0 <= k < |strs| && strs[k] == f;
      NumeralHasNoSemicolon(nums[k]);
    }
    assert ReagentHead(sourceLw, destLw, sourcePosStart, sourcePosEnd, destPosStart, destPosEnd, volume,
                       nDitiReuses, nMultiDispenses) ==
      ["R", sourceLw, "", "", strs[0], strs[1], destLw, "", "", strs[2], strs[3], strs[4], "", strs[5], strs[6], "0"];
  }

  /** As `ReagentHeadNoSemicolons`, for the fixed `T;` fields. */
  lemma TransferHeadNoSemicolons(sourceLw: string, destLw: string, sourcePosStart: int, sourcePosEnd: int,
                                 destPosStart: int, destPosEnd: int, volume: int, nDitiReuses: int,
                                 nMultiDispenses: int, sampleCount: int, replicationCount: int,
                                 sampleDirection: int, replicateDirection: int)
    requires ';' !in sourceLw && ';' !in destLw
    ensures NoSemicolons(TransferHead(sourceLw, destLw, sourcePosStart, sourcePosEnd, destPosStart,
                                      destPosEnd, volume, nDitiReuses, nMultiDispenses, sampleCount,
                                      replicationCount, sampleDirection, replicateDirection))
  {
    var nums := [sourcePosStart, sourcePosEnd, destPosStart, destPosEnd, volume, nDitiReuses,
                 nMultiDispenses, sampleCount, replicationCount, sampleDirection, replicateDirection];
    var strs := seq(|nums|, k requires 0 <= k < |nums| => IntToString(nums[k]));
    forall f | f in strs
      ensures ';' !in f
    {
      var k :| 0 <= k < |strs| && strs[k] == f;
      NumeralHasNoSemicolon(nums[k]);
    }
    assert TransferHead(sourceLw, destLw, sourcePosStart, sourcePosEnd, destPosStart, destPosEnd, volume,
                        nDitiReuses, nMultiDispenses, sampleCount, replicationCount, sampleDirection,
                        replicateDirection) ==
      ["T", sourceLw, "", "", strs[0], strs[1], destLw, "", "", strs[2], strs[3], strs[4], "",
       strs[5], strs[6], strs[7], strs[8], strs[9], strs[10]];
  }

  /** The fixed part of the fields and the excluded tail hold no `;`. */
  lemma ReagentFieldsNoSemicolons(sourceLw: string, destLw: string, sourcePosStart: int, sourcePosEnd: int,
                                  destPosStart: int, destPosEnd: int, volume: int, nDitiReuses: int,
                                  nMultiDispenses: int, excluded: seq<int>)
    requires ';' !in sourceLw && ';' !in destLw
    ensures NoSemicolons(ReagentFields(sourceLw, destLw, sourcePosStart, sourcePosEnd, destPosStart,
                                       destPosEnd, volume, nDitiReuses, nMultiDispenses, excluded))
  {
    var head := ReagentHead(sourceLw, destLw, sourcePosStart, sourcePosEnd, destPosStart, destPosEnd, volume,
                            nDitiReuses, nMultiDispenses);
    ReagentHeadNoSemicolons(sourceLw, destLw, sourcePosStart, sourcePosEnd, destPosStart, destPosEnd, volume,
                            nDitiReuses, nMultiDispenses);
    ExcludedFieldsNoSemicolons(excluded);
    NoSemicolonsConcat(head, ExcludedFields(excluded));
    NoSemicolonsConcat(head + ExcludedFields(excluded), [""]);
  }

  /** As `ReagentFieldsNoSemicolons`, for the `T;` fields. */
  lemma TransferFieldsNoSemicolons(sourceLw: string, destLw: string, sourcePosStart: int, sourcePosEnd: int,
                                   destPosStart: int, destPosEnd: int, volume: int, nDitiReuses: int,
                                   nMultiDispenses: int, sampleCount: int, replicationCount: int,
                                   sampleDirection: int, replicateDirection: int, excluded: seq<int>)
    requires ';' !in sourceLw && ';' !in destLw
    ensures NoSemicolons(TransferFields(sourceLw, destLw, sourcePosStart, sourcePosEnd, destPosStart,
                                        destPosEnd, volume, nDitiReuses, nMultiDispenses, sampleCount,
                                        replicationCount, sampleDirection, replicateDirection, excluded))
  {
    var head := TransferHead(sourceLw, destLw, sourcePosStart, sourcePosEnd, destPosStart, destPosEnd, volume,
                             nDitiReuses, nMultiDispenses, sampleCount, replicationCount, sampleDirection,
                             replicateDirection);
    TransferHeadNoSemicolons(sourceLw, destLw, sourcePosStart, sourcePosEnd, destPosStart, destPosEnd, volume,
                             nDitiReuses, nMultiDispenses, sampleCount, replicationCount, sampleDirection,
                             replicateDirection);
    ExcludedFieldsNoSemicolons(excluded);
    NoSemicolonsConcat(head, ExcludedFields(excluded));
    NoSemicolonsConcat(head + ExcludedFields(excluded), [""]);
  }

  /**
   * `generate_reagent_distribution_gwl`: a mode other than "a" or "w" fails the assertion;
   * otherwise the line ends in a newline and, split on `;` before it, gives back its fields.
   */
  lemma ReagentDistributionLayout(openMode: string, sourceLw: string, destLw: string,
                                  sourcePosStart: int, sourcePosEnd: int, destPosStart: int,
                                  destPosEnd: int, volume: int, nDitiReuses: int,
                                  nMultiDispenses: int, excluded: seq<int>)
    requires ';' !in sourceLw && ';' !in destLw
    ensures var r := ReagentDistributionCommand(openMode, sourceLw, destLw, sourcePosStart, sourcePosEnd,
                                                destPosStart, destPosEnd, volume, nDitiReuses,
                                                nMultiDispenses, excluded);
      (r.Err? <==> openMode != "a" && openMode != "w") && (r.Err? ==> r.error == AssertionError) &&
      (r.Ok? ==> r.value[|r.value| - 1] == '\n' &&
                 Split(r.value[..|r.value| - 1], ';') ==
                 ReagentFields(sourceLw, destLw, sourcePosStart, sourcePosEnd, destPosStart,
                               destPosEnd, volume, nDitiReuses, nMultiDispenses, excluded))
  {
    ReagentFieldsNoSemicolons(sourceLw, destLw, sourcePosStart, sourcePosEnd, destPosStart,
                              destPosEnd, volume, nDitiReuses, nMultiDispenses, excluded);
    LineReadBack(ReagentFields(sourceLw, destLw, sourcePosStart, sourcePosEnd, destPosStart,
                               destPosEnd, volume, nDitiReuses, nMultiDispenses, excluded));
  }

  /** `generate_sample_transfer_gwl`: as `ReagentDistributionLayout`, for the `T;` line. */
  lemma SampleTransferLayout(openMode: string, sourceLw: string, destLw: string,
                             sourcePosStart: int, sourcePosEnd: int, destPosStart: int,
                             destPosEnd: int, volume: int, nDitiReuses: int,
                             nMultiDispenses: int, sampleCount: int, replicationCount: int,
                             sampleDirection: int, replicateDirection: int, excluded: seq<int>)
    requires ';' !in sourceLw && ';' !in destLw
    ensures var r := SampleTransferCommand(openMode, sourceLw, destLw, sourcePosStart, sourcePosEnd,
                                           destPosStart, destPosEnd, volume, nDitiReuses,
                                           nMultiDispenses, sampleCount, replicationCount,
                                           sampleDirection, replicateDirection, excluded);
      (r.Err? <==> openMode != "a" && openMode != "w") && (r.Err? ==> r.error == AssertionError) &&
      (r.Ok? ==> r.value[|r.value| - 1] == '\n' &&
                 Split(r.value[..|r.value| - 1], ';') ==
                 TransferFields(sourceLw, destLw, sourcePosStart, sourcePosEnd, destPosStart,
                                destPosEnd, volume, nDitiReuses, nMultiDispenses, sampleCount,
                                replicationCount, sampleDirection, replicateDirection, excluded))
  {
    TransferFieldsNoSemicolons(sourceLw, destLw, sourcePosStart, sourcePosEnd, destPosStart,
                               destPosEnd, volume, nDitiReuses, nMultiDispenses, sampleCount,
                               replicationCount, sampleDirection, replicateDirection, excluded);
    LineReadBack(TransferFields(sourceLw, destLw, sourcePosStart, sourcePosEnd, destPosStart,
                                destPosEnd, volume, nDitiReuses, nMultiDispenses, sampleCount,
                                replicationCount, sampleDirection, replicateDirection, excluded));
  }

  /** The field is the decimal numeral of `n`. */
  predicate ReadsAs(field: string, n: int)
  {
    IsNumeral(field) && ParseInt(field) == n
  }

  lemma IntToStringReadsAs(n: int)
    ensures ReadsAs(IntToString(n), n)
  {
    IntToStringRoundTrip(n);
  }

  /**
   * After the fixed fields come the excluded wells, in ascending order and as many times as
   * given, then the empty field after the final `;`.
   */
  lemma TailReadBack(head: seq<string>, excluded: seq<int>)
    ensures var fields := head + ExcludedFields(excluded) + [""];
      |fields| == |head| + |excluded| + 1 && fields[..|head|] == head &&
      (forall k :: 0 <= k < |excluded| ==> ReadsAs(fields[|head| + k], Sorted(excluded)[k])) &&
      SortedAsc(Sorted(excluded)) && multiset(Sorted(excluded)) == multiset(excluded) &&
      fields[|head| + |excluded|] == ""
  {
    var fields := head + ExcludedFields(excluded) + [""];
    assert forall k :: 0 <= k < |excluded| ==> fields[|head| + k] == ExcludedFields(excluded)[k];
    ExcludedFieldsReadBack(excluded);
  }

  /**
   * The `R;` fields in order: the command letter, source labware and wells, destination labware
   * and wells, volume, tip reuses, multi-dispenses, the constant 0, then the excluded wells in
   * ascending order (a permutation of those given), then the empty field after the final `;`.
   */
  lemma ReagentFieldsReadBack(sourceLw: string, destLw: string, sourcePosStart: int, sourcePosEnd: int,
                              destPosStart: int, destPosEnd: int, volume: int, nDitiReuses: int,
                              nMultiDispenses: int, excluded: seq<int>, fields: seq<string>)
    requires fields == ReagentFields(sourceLw, destLw, sourcePosStart, sourcePosEnd, destPosStart,
                                     destPosEnd, volume, nDitiReuses, nMultiDispenses, excluded)
    ensures |fields| == 17 + |excluded|
    ensures fields[0] == "R" && fields[1] == sourceLw && fields[6] == destLw && fields[15] == "0"
    ensures ReadsAs(fields[4], sourcePosStart) && ReadsAs(fields[5], sourcePosEnd)
    ensures ReadsAs(fields[9], destPosStart) && ReadsAs(fields[10], destPosEnd)
    ensures ReadsAs(fields[11], volume)
    ensures ReadsAs(fields[13], nDitiReuses) && ReadsAs(fields[14], nMultiDispenses)
    ensures fields[..16] + ExcludedFields(excluded) + [""] == fields
  {
    var head := ReagentHead(sourceLw, destLw, sourcePosStart, sourcePosEnd, destPosStart, destPosEnd, volume,
                            nDitiReuses, nMultiDispenses);
    ReagentHeadReadsAs(sourceLw, destLw, sourcePosStart, sourcePosEnd, destPosStart, destPosEnd, volume,
                       nDitiReuses, nMultiDispenses);
    HeadKept(head, ExcludedFields(excluded), "");
  }

  /** As `ReagentFieldsReadBack`, for the `T;` fields with the sample and replicate counts and directions. */
  lemma TransferFieldsReadBack(sourceLw: string, destLw: string, sourcePosStart: int, sourcePosEnd: int,
                               destPosStart: int, destPosEnd: int, volume: int, nDitiReuses: int,
                               nMultiDispenses: int, sampleCount: int, replicationCount: int,
                               sampleDirection: int, replicateDirection: int, excluded: seq<int>,
                               fields: seq<string>)
    requires fields == TransferFields(sourceLw, destLw, sourcePosStart, sourcePosEnd, destPosStart,
                                      destPosEnd, volume, nDitiReuses, nMultiDispenses, sampleCount,
                                      replicationCount, sampleDirection, replicateDirection, excluded)
    ensures |fields| == 20 + |excluded|
    ensures fields[0] == "T" && fields[1] == sourceLw && fields[6] == destLw
    ensures ReadsAs(fields[4], sourcePosStart) && ReadsAs(fields[5], sourcePosEnd)
    ensures ReadsAs(fields[9], destPosStart) && ReadsAs(fields[10], destPosEnd)
    ensures ReadsAs(fields[11], volume)
    ensures ReadsAs(fields[13], nDitiReuses) && ReadsAs(fields[14], nMultiDispenses)
    ensures ReadsAs(fields[15], sampleCount) && ReadsAs(fields[16], replicationCount)
    ensures ReadsAs(fields[17], sampleDirection) && ReadsAs(fields[18], replicateDirection)
    ensures fields[..19] + ExcludedFields(excluded) + [""] == fields
  {
    var head := TransferHead(sourceLw, destLw, sourcePosStart, sourcePosEnd, destPosStart, destPosEnd, volume,
                             nDitiReuses, nMultiDispenses, sampleCount, replicationCount, sampleDirection,
                             replicateDirection);
    TransferHeadReadsAs(sourceLw, destLw, sourcePosStart, sourcePosEnd, destPosStart, destPosEnd, volume,
                        nDitiReuses, nMultiDispenses, sampleCount, replicationCount, sampleDirection,
                        replicateDirection);
    HeadKept(head, ExcludedFields(excluded), "");
  }

  /**
   * The docstring's `R;` line (written with mode "w" and no excluded wells), as the fields it
   * splits into.
   */
  lemma ReagentDistributionExample()
    ensures var r := ReagentDistributionCommand("w", "100ml_1", "dotblot_apparatus", 1, 1, 1, 24, 100, 12, 12, []);
      r.Ok? && r.value[|r.value| - 1] == '\n' &&
      Split(r.value[..|r.value| - 1], ';') ==
        ["R", "100ml_1", "", "", "1", "1", "dotblot_apparatus", "", "", "1", "24", "100", "", "12", "12", "0", ""]
  {
    assert IntToString(1) == "1" && IntToString(24) == "24";
    assert IntToString(100) == "100" && IntToString(12) == "12";
    assert ExcludedFields([]) == [];
    ReagentDistributionLayout("w", "100ml_1", "dotblot_apparatus", 1, 1, 1, 24, 100, 12, 12, []);
  }

  /** Excluded wells are written in ascending order whatever order they were given in. */
  lemma SortedExample()
    ensures Sorted([10, 3, 7]) == [3, 7, 10]
  {
    var s := [10, 3, 7];
    assert s[1..] == [3, 7] && s[1..][1..] == [7];
    assert Sorted([7]) == [7];
    assert Insert(3, [7]) == [3, 7];
    assert Sorted([3, 7]) == [3, 7];
    assert Insert(10, []) == [10];
    assert Insert(10, [7]) == [7] + Insert(10, []);
    assert Insert(10, [3, 7]) == [3] + Insert(10, [7]);
  }
}
