/**
 * Labware addressing: `pos_2_str` builds worktable labels such as "Eppendorf[003]", and
 * `dilution_position_def` expands a start position into parallel label and well lists.
 * The copies in utils.py and helper/utils.py are the same code over their own tables;
 * GeneralDilution.py carries its own `pos_2_str`, which takes the head of any list.
 */
module Addressing {
  import opened Wrappers
  import opened Numerals
  import opened Catalog

  /** Three zero-padded decimal digits of `n`. */
  function ThreeDigits(n: int): string
    requires 0 <= n < 1000
  {
    [DigitChar(n / 100), DigitChar(n / 10 % 10), DigitChar(n % 10)]
  }

  /** `pos_2_str(name, pos)` for an integer position: "[00" before a position below 10, "[0" otherwise. */
  function Pos2Str(name: string, pos: int): (text: string)
    ensures |text| > |name| + 3 && text[..|name|] == name && text[|text| - 1] == ']'
  {
    if pos < 10 then name + "[00" + IntToString(pos) + "]"
    else name + "[0" + IntToString(pos) + "]"
  }

  /** Positions 0..99 get three zero-padded digits; 100 and above get "[0" and all their digits. */
  lemma Pos2StrPadding(name: string, pos: int)
    ensures 0 <= pos < 100 ==> Pos2Str(name, pos) == name + "[" + ThreeDigits(pos) + "]"
    ensures pos >= 100 ==> Pos2Str(name, pos) == name + "[0" + IntToString(pos) + "]"
  {
    if 10 <= pos < 100 {
      assert NatToString(pos) == NatToString(pos / 10) + [DigitChar(pos % 10)];
    }
  }

  /** The position argument of `pos_2_str`: an int, or a list such as a numpy array. */
  datatype PosArg = IntPos(n: int) | ListPos(items: seq<int>)

  /**
   * `pos_2_str` of helper/utils.py and utils.py: a one-element list is unwrapped; comparing any
   * other list with 10 raises TypeError.
   */
  function Pos2StrArg(name: string, arg: PosArg): (r: Result<string>)
    ensures r.Ok? <==> (arg.IntPos? || |arg.items| == 1)
    ensures r.Err? ==> r.error == TypeError
    ensures r.Ok? ==> r.value == Pos2Str(name, if arg.IntPos? then arg.n else arg.items[0])
  {
    match arg
    case IntPos(n) => Ok(Pos2Str(name, n))
    case ListPos(items) => if |items| == 1 then Ok(Pos2Str(name, items[0])) else Err(TypeError)
  }

  /** `pos_2_str` of GeneralDilution.py: any list is replaced by its first item; an empty one raises IndexError. */
  function Pos2StrFirst(name: string, arg: PosArg): (r: Result<string>)
    ensures r.Err? <==> (arg.ListPos? && arg.items == [])
    ensures r.Err? ==> r.error == IndexError
    ensures r.Ok? ==> r.value == Pos2Str(name, if arg.IntPos? then arg.n else arg.items[0])
  {
    match arg
    case IntPos(n) => Ok(Pos2Str(name, n))
    case ListPos(items) => if items == [] then Err(IndexError) else Ok(Pos2Str(name, items[0]))
  }

  /** Two positions of the same labware never share a label. */
  lemma Pos2StrInjective(name: string, p: int, q: int)
    ensures Pos2Str(name, p) == Pos2Str(name, q) <==> p == q
  {
    if Pos2Str(name, p) == Pos2Str(name, q) {
      Pos2StrAsDigits(name, p);
      Pos2StrAsDigits(name, q);
      MiddleDetermined(name + "[0", Digits(p), Digits(q), "]");
      DigitsRoundTrip(p);
      DigitsRoundTrip(q);
    }
  }

  lemma Pos2StrAsDigits(name: string, pos: int)
    ensures Pos2Str(name, pos) == name + "[0" + Digits(pos) + "]"
  {
    var i := IntToString(pos);
    if pos < 10 {
      assert "[00" == "[0" + "0";
      assert name + "[00" + i == name + "[0" + ("0" + i);
    }
  }

  /** What `pos_2_str` writes between "[0" and "]". */
  function Digits(pos: int): string
  {
    if pos < 10 then "0" + IntToString(pos) else IntToString(pos)
  }

  /** A '0' before a numeral, or a numeral that does not start with '0' or '-'. */
  predicate IsPadded(m: string)
  {
    if |m| >= 2 && m[0] == '0' then IsNumeral(m[1..]) else m != [] && m[0] != '-' && AllDigits(m)
  }

  /** Reads a position back from what `pos_2_str` writes between "[0" and "]". */
  function DigitsValue(m: string): int
    requires IsPadded(m)
  {
    if |m| >= 2 && m[0] == '0' then ParseInt(m[1..]) else ParseInt(m)
  }

  lemma DigitsRoundTrip(pos: int)
    ensures IsPadded(Digits(pos)) && DigitsValue(Digits(pos)) == pos
  {
    IntToStringRoundTrip(pos);
    var i := IntToString(pos);
    if pos < 10 {
      assert Digits(pos)[1..] == i;
      if pos < 0 { assert i[1..] == NatToString(-pos); }
    }
  }

  lemma MiddleDetermined(pre: string, m1: string, m2: string, suf: string)
    requires pre + m1 + suf == pre + m2 + suf
    ensures m1 == m2
  {
    var a, b := pre + m1 + suf, pre + m2 + suf;
    assert |m1| == |m2|;
    assert m1 == a[|pre|..|pre| + |m1|];
    assert m2 == b[|pre|..|pre| + |m2|];
  }

  /** The examples in the docstring of `pos_2_str`. */
  lemma Pos2StrExamples()
    ensures Pos2Str("Eppendorf", 3) == "Eppendorf[003]"
    ensures Pos2Str("Eppendorf", 13) == "Eppendorf[013]"
  {
    Pos2StrPadding("Eppendorf", 3);
    Pos2StrPadding("Eppendorf", 13);
  }

  function Count(n: int): nat { if n > 0 then n else 0 }

  /** Labels `dilution_position_def` gives: a plate's fixed display name, or one rack label per position. */
  function DilutionLabels(tables: Tables, labware: string, initialPos: int, n: int): (labels: seq<string>)
    requires tables.PlatesNamed()
  {
    if labware in tables.plates then seq(Count(n), i => tables.names[labware])
    else seq(Count(n), i => Pos2Str(labware, initialPos + i))
  }

  /** Wells `dilution_position_def` gives: consecutive wells of a plate, or well 1 of each rack position. */
  function DilutionWells(tables: Tables, labware: string, initialPos: int, n: int): (wells: seq<int>)
  {
    if labware in tables.plates then seq(Count(n), i => initialPos + i)
    else seq(Count(n), i => 1)
  }

  /**
   * `dilution_position_def(labware_name, initial_pos, nsamples)`: appends one label and one
   * well per sample, so both lists have `nsamples` entries (none for a negative count).
   */
  method DilutionPositionDef(tables: Tables, labware: string, initialPos: int, nsamples: int)
    returns (labels: seq<string>, wells: seq<int>)
    requires tables.PlatesNamed()
    ensures labels == DilutionLabels(tables, labware, initialPos, nsamples)
    ensures wells == DilutionWells(tables, labware, initialPos, nsamples)
  {
    labels, wells := [], [];
    var n := Count(nsamples);
    if labware in tables.plates {
      for i := 0 to n
        invariant labels == DilutionLabels(tables, labware, initialPos, i)
        invariant wells == DilutionWells(tables, labware, initialPos, i)
      {
        DilutionSnoc(tables, labware, initialPos, i);
        labels := labels + [tables.names[labware]];
        wells := wells + [initialPos + i];
      }
    } else {
      for i := 0 to n
        invariant labels == DilutionLabels(tables, labware, initialPos, i)
        invariant wells == DilutionWells(tables, labware, initialPos, i)
      {
        DilutionSnoc(tables, labware, initialPos, i);
        labels := labels + [Pos2Str(labware, initialPos + i)];
        wells := wells + [1];
      }
    }
  }

  /** One more sample adds one label and one well at the end. */
  lemma DilutionSnoc(tables: Tables, labware: string, initialPos: int, i: nat)
    requires tables.PlatesNamed()
    ensures DilutionLabels(tables, labware, initialPos, i + 1) ==
      DilutionLabels(tables, labware, initialPos, i) + [if labware in tables.plates then tables.names[labware] else Pos2Str(labware, initialPos + i)]
    ensures DilutionWells(tables, labware, initialPos, i + 1) ==
      DilutionWells(tables, labware, initialPos, i) + [if labware in tables.plates then initialPos + i else 1]
  {
    var a, b := DilutionLabels(tables, labware, initialPos, i + 1), DilutionLabels(tables, labware, initialPos, i);
    assert a[..i] == b;
    assert a == a[..i] + [a[i]];
    var c, d := DilutionWells(tables, labware, initialPos, i + 1), DilutionWells(tables, labware, initialPos, i);
    assert c[..i] == d;
    assert c == c[..i] + [c[i]];
  }

  /**
   * The lists have one entry per sample, and no two samples are sent to the same container and
   * well: plates differ in the well, racks in the label.
   */
  lemma DilutionPositionsDistinct(tables: Tables, labware: string, initialPos: int, n: int, i: int, j: int)
    requires tables.PlatesNamed() && 0 <= i < j < n
    ensures |DilutionLabels(tables, labware, initialPos, n)| == |DilutionWells(tables, labware, initialPos, n)| == n
    ensures DilutionLabels(tables, labware, initialPos, n)[i] != DilutionLabels(tables, labware, initialPos, n)[j]
         || DilutionWells(tables, labware, initialPos, n)[i] != DilutionWells(tables, labware, initialPos, n)[j]
  {
    if labware !in tables.plates {
      var labels := DilutionLabels(tables, labware, initialPos, n);
      assert labels[i] == Pos2Str(labware, initialPos + i);
      assert labels[j] == Pos2Str(labware, initialPos + j);
      Pos2StrInjective(labware, initialPos + i, initialPos + j);
    }
  }
}
