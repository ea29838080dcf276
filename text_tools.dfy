/**
 * The small helpers shared by the GUI and the protocols: word wrap (`divide_string_into_lines`),
 * the best container for a volume (`find_best_container`), assay lookup (`get_assay_indices`,
 * `generate_methods_and_products`) and `flatten`. utils.py and helper/utils.py hold the same
 * code for all but `flatten` and the volume table, which is a parameter here.
 */
module TextTools {
  import opened Wrappers
  import opened PyStrings
  import Catalog

  // ---------------------------------------------------------------- word wrap

  /** The `line` accumulator of `divide_string_into_lines`: each word followed by one space. */
  function LineText(cur: seq<string>): string
  {
    if cur == [] then "" else JoinWords(cur) + " "
  }

  /**
   * Greedy packing: `cur` is the line being filled; a word that would take the line (with its
   * trailing space) past `width` closes the line, which may be the still-empty first one.
   */
  function Pack(words: seq<string>, width: int, cur: seq<string>): (gs: seq<seq<string>>)
    ensures |gs| >= 1
    decreases |words|
  {
    if words == [] then [cur]
    else if |LineText(cur)| + |words[0]| + 1 > width then [cur] + Pack(words[1..], width, [words[0]])
    else Pack(words[1..], width, cur + [words[0]])
  }

  /** The words of each output line of `divide_string_into_lines(s, width)`. */
  function WrappedLines(s: string, width: int): seq<seq<string>>
  {
    Pack(Words(s), width, [])
  }

  /** Every finished line followed by a newline. */
  function Prefix(groups: seq<seq<string>>): string
  {
    if groups == [] then "" else Prefix(groups[..|groups| - 1]) + JoinWords(groups[|groups| - 1]) + "\n"
  }

  /** The text of the lines, joined by newlines. */
  function Render(groups: seq<seq<string>>): string
    requires |groups| >= 1
  {
    Prefix(groups[..|groups| - 1]) + JoinWords(groups[|groups| - 1])
  }

  function Flat<T>(groups: seq<seq<T>>): seq<T>
  {
    if groups == [] then [] else groups[0] + Flat(groups[1..])
  }

  predicate PlainWords(ws: seq<string>)
  {
    forall k :: 0 <= k < |ws| ==> IsWord(ws[k])
  }

  lemma {:induction false} JoinFirstLast(ws: seq<string>)
    requires |ws| >= 1 && PlainWords(ws)
    ensures |Join(ws, ' ')| >= 1 && Join(ws, ' ')[0] == ws[0][0]
    ensures Join(ws, ' ')[|Join(ws, ' ')| - 1] == ws[|ws| - 1][|ws[|ws| - 1]| - 1]
  {
    if |ws| > 1 {
      JoinFirstLast(ws[1..]);
    }
  }

  /** `line.strip()` takes the trailing space off and leaves the words. */
  lemma StripLineText(cur: seq<string>)
    requires PlainWords(cur)
    ensures Strip(LineText(cur)) == JoinWords(cur)
  {
    if cur != [] {
      var j := JoinWords(cur);
      assert j != [] && !IsSpace(j[0]) && !IsSpace(j[|j| - 1]) by {
        JoinFirstLast(cur);
        assert IsWord(cur[0]) && cur[0][0] in cur[0];
        var last := cur[|cur| - 1];
        assert IsWord(last) && last[|last| - 1] in last;
      }
      assert TrimStart(j + " ") == j + " " by {
        assert (j + " ")[0] == j[0];
      }
      assert TrimEnd(j + " ") == j by {
        assert (j + " ")[..|j + " "| - 1] == j;
        assert TrimEnd(j) == j;
      }
    }
  }

  lemma LineTextSnoc(cur: seq<string>, w: string)
    ensures LineText(cur + [w]) == LineText(cur) + w + " "
    ensures cur != [] ==> JoinWords(cur + [w]) == JoinWords(cur) + " " + w
  {
    if cur == [] {
      assert [] + [w] == [w];
    } else {
      JoinSnoc(cur, w, ' ');
    }
  }

  /** The loop of `divide_string_into_lines`, on the words of `s`. */
  method DivideStringIntoLines(s: string, width: int) returns (result: string)
    ensures result == Render(WrappedLines(s, width))
  {
    var words := Words(s);
    assert PlainWords(words);
    result := "";
    var line := "";
    ghost var done: seq<seq<string>> := [];
    ghost var cur: seq<string> := [];
    for i := 0 to |words|
      invariant WrapState(words, width, i, done, cur, result, line)
    {
      var word := words[i];
      if |line| + |word| + 1 > width {
        BreakKeepsState(words, width, i, done, cur, result, line);
        result := result + Strip(line) + "\n";
        line := word + " ";
        done := done + [cur];
        cur := [word];
      } else {
        ExtendKeepsState(words, width, i, done, cur, result, line);
        line := line + word + " ";
        cur := cur + [word];
      }
    }
    StripLineText(cur);
    result := result + Strip(line);
    RenderLast(words, width, done, cur);
  }

  /** Once every word is placed, the text is the finished lines and then the current one. */
  lemma RenderLast(words: seq<string>, width: int, done: seq<seq<string>>, cur: seq<string>)
    requires Pack(words, width, []) == done + Pack(words[|words|..], width, cur)
    ensures Render(Pack(words, width, [])) == Prefix(done) + JoinWords(cur)
  {
    assert words[|words|..] == [];
    assert (done + [cur])[..|done|] == done;
  }

  /**
   * What the loop keeps after `i` words: `line` is the text of the current words `cur`, `result`
   * the finished lines `done`, and packing the rest from `cur` completes the packing of all words.
   */
  predicate WrapState(words: seq<string>, width: int, i: int, done: seq<seq<string>>, cur: seq<string>, result: string, line: string)
  {
    && 0 <= i <= |words| && PlainWords(words) && PlainWords(cur)
    && line == LineText(cur) && result == Prefix(done)
    && Pack(words, width, []) == done + Pack(words[i..], width, cur)
  }

  /** A word that does not fit finishes the current line and starts the next. */
  lemma BreakKeepsState(words: seq<string>, width: int, i: int, done: seq<seq<string>>, cur: seq<string>, result: string, line: string)
    requires WrapState(words, width, i, done, cur, result, line) && i < |words|
    requires |line| + |words[i]| + 1 > width
    ensures WrapState(words, width, i + 1, done + [cur], [words[i]], result + Strip(line) + "\n", words[i] + " ")
  {
    PackStep(words, width, i, done, cur);
    StripLineText(cur);
    PrefixSnoc(done, cur);
  }

  /** A word that fits joins the current line. */
  lemma ExtendKeepsState(words: seq<string>, width: int, i: int, done: seq<seq<string>>, cur: seq<string>, result: string, line: string)
    requires WrapState(words, width, i, done, cur, result, line) && i < |words|
    requires |line| + |words[i]| + 1 <= width
    ensures WrapState(words, width, i + 1, done, cur + [words[i]], result, line + words[i] + " ")
  {
    PackStep(words, width, i, done, cur);
    LineTextSnoc(cur, words[i]);
  }

  /** One turn of the loop, on the packing and the accumulators. */
  lemma PackStep(words: seq<string>, width: int, i: int, done: seq<seq<string>>, cur: seq<string>)
    requires 0 <= i < |words| && PlainWords(words) && PlainWords(cur)
    requires Pack(words, width, []) == done + Pack(words[i..], width, cur)
    ensures PlainWords([words[i]]) && PlainWords(cur + [words[i]])
    ensures LineText([words[i]]) == words[i] + " "
    ensures |LineText(cur)| + |words[i]| + 1 > width ==>
      Pack(words, width, []) == (done + [cur]) + Pack(words[i + 1..], width, [words[i]])
    ensures |LineText(cur)| + |words[i]| + 1 <= width ==>
      Pack(words, width, []) == done + Pack(words[i + 1..], width, cur + [words[i]])
  {
    assert words[i..][1..] == words[i + 1..];
    assert words[i..][0] == words[i];
  }

  lemma PrefixSnoc(done: seq<seq<string>>, cur: seq<string>)
    ensures Prefix(done + [cur]) == Prefix(done) + JoinWords(cur) + "\n"
  {
    assert (done + [cur])[..|done|] == done;
  }

  /** Packing keeps every word, in order: breaks fall only between words. */
  lemma {:induction false} PackKeepsWords(words: seq<string>, width: int, cur: seq<string>)
    ensures Flat(Pack(words, width, cur)) == cur + words
    decreases |words|
  {
    if words == [] {
      FlatCons(cur, []);
    } else if |LineText(cur)| + |words[0]| + 1 > width {
      PackKeepsWords(words[1..], width, [words[0]]);
      FlatCons(cur, Pack(words[1..], width, [words[0]]));
      SplitFirst(cur, words);
    } else {
      PackKeepsWords(words[1..], width, cur + [words[0]]);
      SplitFirst(cur, words);
    }
  }

  lemma FlatCons<T>(g: seq<T>, gs: seq<seq<T>>)
    ensures Flat([g] + gs) == g + Flat(gs)
  {
    assert ([g] + gs)[1..] == gs;
  }

  lemma SplitFirst<T>(xs: seq<T>, ys: seq<T>)
    requires |ys| > 0
    ensures xs + ys == xs + ([ys[0]] + ys[1..]) == (xs + [ys[0]]) + ys[1..]
  {
    assert ys == [ys[0]] + ys[1..];
  }

  /** A line holding two or more words is shorter than `width`. */
  lemma {:induction false} PackFits(words: seq<string>, width: int, cur: seq<string>)
    requires |cur| >= 2 ==> |JoinWords(cur)| < width
    ensures forall k :: 0 <= k < |Pack(words, width, cur)| && |Pack(words, width, cur)[k]| >= 2 ==>
      |JoinWords(Pack(words, width, cur)[k])| < width
    decreases |words|
  {
    if words != [] {
      if |LineText(cur)| + |words[0]| + 1 > width {
        PackFits(words[1..], width, [words[0]]);
      } else {
        LineTextSnoc(cur, words[0]);
        PackFits(words[1..], width, cur + [words[0]]);
      }
    }
  }

  /**
   * Only the first line can be empty, and a line is closed only when the next line's first word
   * would not have fitted after it.
   */
  lemma {:induction false} PackBreaks(words: seq<string>, width: int, cur: seq<string>)
    ensures var gs := Pack(words, width, cur);
      |gs| >= 1 && gs[0] == (if words != [] && |LineText(cur)| + |words[0]| + 1 > width then cur else gs[0]) &&
      (forall k :: 1 <= k < |gs| ==> gs[k] != []) &&
      (forall k :: 0 <= k < |gs| - 1 ==> |LineText(gs[k])| + |gs[k + 1][0]| + 1 > width)
    decreases |words|
  {
    if words != [] {
      if |LineText(cur)| + |words[0]| + 1 > width {
        PackBreaks(words[1..], width, [words[0]]);
        PackFirst(words[1..], width, [words[0]]);
      } else {
        PackBreaks(words[1..], width, cur + [words[0]]);
      }
    }
  }

  /** The first line starts with the words already on it. */
  lemma {:induction false} PackFirst(words: seq<string>, width: int, cur: seq<string>)
    ensures |Pack(words, width, cur)[0]| >= |cur| && Pack(words, width, cur)[0][..|cur|] == cur
    decreases |words|
  {
    if words != [] && |LineText(cur)| + |words[0]| + 1 <= width {
      PackFirst(words[1..], width, cur + [words[0]]);
      assert (cur + [words[0]])[..|cur|] == cur;
      var g := Pack(words, width, cur)[0];
      assert g[..|cur|] == g[..|cur| + 1][..|cur|];
    }
  }

  /**
   * `divide_string_into_lines(s, width)`: the words of `s` in order; only the first line may be
   * empty, which happens exactly when there are no words or the first word with its space does
   * not fit; lines of two or more words are shorter than `width`.
   */
  lemma WrappedLinesProperties(s: string, width: int)
    ensures Flat(WrappedLines(s, width)) == Words(s)
    ensures forall k :: 1 <= k < |WrappedLines(s, width)| ==> WrappedLines(s, width)[k] != []
    ensures WrappedLines(s, width)[0] == [] <==> Words(s) == [] || |Words(s)[0]| + 1 > width
    ensures forall k :: 0 <= k < |WrappedLines(s, width)| && |WrappedLines(s, width)[k]| >= 2 ==>
      |JoinWords(WrappedLines(s, width)[k])| < width
  {
    var words := Words(s);
    assert Flat(WrappedLines(s, width)) == words by {
      PackKeepsWords(words, width, []);
      assert [] + words == words;
    }
    PackFits(words, width, []);
    PackBreaks(words, width, []);
    assert WrappedLines(s, width)[0] == [] <==> words == [] || |words[0]| + 1 > width by {
      PackFirst(words, width, []);
      if words != [] && |words[0]| + 1 <= width {
        assert [] + [words[0]] == [words[0]];
        PackFirst(words[1..], width, [words[0]]);
      }
    }
  }

  /** A first word too long for the line gives an empty first line: the text starts with a newline. */
  lemma WrapLeadingNewline(s: string, width: int)
    requires Words(s) != [] && |Words(s)[0]| + 1 > width
    ensures |Render(WrappedLines(s, width))| >= 1 && Render(WrappedLines(s, width))[0] == '\n'
  {
    var gs := WrappedLines(s, width);
    PackBreaks(Words(s), width, []);
    assert |gs| >= 2;
    assert gs[..|gs| - 1][..1] == [[]];
    PrefixStarts(gs[..|gs| - 1]);
  }

  lemma {:induction false} PrefixStarts(groups: seq<seq<string>>)
    requires |groups| >= 1 && groups[0] == []
    ensures |Prefix(groups)| >= 1 && Prefix(groups)[0] == '\n'
  {
    if |groups| > 1 {
      PrefixStarts(groups[..|groups| - 1]);
    } else {
      assert groups[..0] == [];
    }
  }

  // ---------------------------------------------------------------- best container

  /** The volume table in dict order: (labware, dead volume, maximum volume). */
  type VolumeTable = seq<(string, real, real)>

  function Room(table: VolumeTable, i: int): real
    requires 0 <= i < |table|
  {
    table[i].2 - table[i].1
  }

  predicate Fits(table: VolumeTable, i: int, volume: real)
    requires 0 <= i < |table|
  {
    volume <= Room(table, i)
  }

  /**
   * The container the loop has chosen after the first `n` entries: a fitting entry replaces the
   * current choice only when its usable room is strictly smaller.
   */
  function BestIn(table: VolumeTable, volume: real, n: int): (r: Option<int>)
    requires 0 <= n <= |table|
    ensures r.Some? ==> 0 <= r.value < n
  {
    if n == 0 then None
    else
      var b := BestIn(table, volume, n - 1);
      if Fits(table, n - 1, volume) && (b.None? || Room(table, n - 1) < Room(table, b.value)) then Some(n - 1)
      else b
  }

  /** What `find_best_container` returns for the chosen entry (an empty name is falsy). */
  function ContainerName(table: VolumeTable, best: Option<int>): string
    requires best.Some? ==> 0 <= best.value < |table|
  {
    if best.Some? && table[best.value].0 != "" then table[best.value].0 else "VOLUME TOO BIG"
  }

  /** `i` fits, no fitting entry has less room, and no earlier fitting entry has as little. */
  predicate IsBest(table: VolumeTable, volume: real, n: int, i: int)
    requires 0 <= n <= |table|
  {
    0 <= i < n && Fits(table, i, volume) &&
    (forall j :: 0 <= j < n && Fits(table, j, volume) ==> Room(table, i) <= Room(table, j)) &&
    (forall j :: 0 <= j < i && Fits(table, j, volume) ==> Room(table, i) < Room(table, j))
  }

  /** The loop finds nothing exactly when nothing fits, and otherwise the best entry. */
  lemma {:induction false} BestInIsBest(table: VolumeTable, volume: real, n: int)
    requires 0 <= n <= |table|
    ensures BestIn(table, volume, n).None? <==> forall j :: 0 <= j < n ==> !Fits(table, j, volume)
    ensures BestIn(table, volume, n).Some? ==> IsBest(table, volume, n, BestIn(table, volume, n).value)
  {
    if n > 0 {
      BestInIsBest(table, volume, n - 1);
    }
  }

  /** There is only one best entry. */
  lemma BestIsUnique(table: VolumeTable, volume: real, n: int, i: int, j: int)
    requires 0 <= n <= |table|
    requires IsBest(table, volume, n, i) && IsBest(table, volume, n, j)
    ensures i == j
  {
  }

  /** The scalar form of `find_best_container`. */
  method FindBestContainer(table: VolumeTable, volume: real) returns (container: string)
    ensures container == ContainerName(table, BestIn(table, volume, |table|))
  {
    var best: Option<int> := None;
    var bestSum: real := 0.0;
    for i := 0 to |table|
      invariant best == BestIn(table, volume, i)
      invariant best.Some? ==> bestSum == Room(table, best.value)
    {
      var (_, deadVol, maxVol) := table[i];
      if volume <= maxVol - deadVol {
        var currentSum := maxVol - deadVol;
        if best.None? || currentSum < bestSum {
          bestSum := currentSum;
          best := Some(i);
        }
      }
    }
    if best.Some? && table[best.value].0 != "" {
      container := table[best.value].0;
    } else {
      container := "VOLUME TOO BIG";
    }
  }

  /**
   * With the tables of each generation: 1 mL goes to an Eppendorf, 10 mL to a Falcon15, and
   * 97.5 mL is too big for the newer reservoir's usable room but fits the older one's.
   */
  lemma BestContainerExamples()
    ensures ContainerName(Catalog.NewTables.volumes, BestIn(Catalog.NewTables.volumes, 1.0, 3)) == "Eppendorf"
    ensures ContainerName(Catalog.NewTables.volumes, BestIn(Catalog.NewTables.volumes, 10.0, 3)) == "Falcon15"
    ensures ContainerName(Catalog.NewTables.volumes, BestIn(Catalog.NewTables.volumes, 97.5, 3)) == "VOLUME TOO BIG"
    ensures ContainerName(Catalog.OldTables.volumes, BestIn(Catalog.OldTables.volumes, 97.5, 3)) == "100mL_reservoir"
  {
  }

  /** The dict form: every reagent gets its own container, chosen independently. */
  method FindBestContainers(table: VolumeTable, reagents: map<string, real>) returns (result: map<string, string>)
    ensures result.Keys == reagents.Keys
    ensures forall item :: item in result ==>
      result[item] == ContainerName(table, BestIn(table, reagents[item], |table|))
  {
    result := map[];
    var todo := reagents.Keys;
    while todo != {}
      invariant todo <= reagents.Keys && result.Keys == reagents.Keys - todo
      invariant forall item :: item in result ==>
        result[item] == ContainerName(table, BestIn(table, reagents[item], |table|))
      decreases |todo|
    {
      var item :| item in todo;
      var container := FindBestContainer(table, reagents[item]);
      result := result[item := container];
      todo := todo - {item};
    }
  }

  // ---------------------------------------------------------------- assay lookup

  datatype Assay = Assay(kind: string, product: string)

  /** ASCII `str.lower()`. */
  function Lower(s: string): (r: string)
    ensures |r| == |s|
  {
    seq(|s|, i requires 0 <= i < |s| => if 'A' <= s[i] <= 'Z' then (s[i] as int + 32) as char else s[i])
  }

  predicate Matches(a: Assay, kind: string, product: string)
  {
    Lower(a.kind) == Lower(kind) && Lower(a.product) == Lower(product)
  }

  /** `get_assay_indices` over the first `n` assays: the matching indices, ascending, and all of them. */
  function AssayIndicesUpTo(assays: seq<Assay>, kind: string, product: string, n: int): (ix: seq<int>)
    requires 0 <= n <= |assays|
    ensures forall i, j :: 0 <= i < j < |ix| ==> ix[i] < ix[j]
    ensures forall k :: 0 <= k < |ix| ==> 0 <= ix[k] < n && Matches(assays[ix[k]], kind, product)
    ensures forall j :: 0 <= j < n && Matches(assays[j], kind, product) ==> j in ix
  {
    if n == 0 then []
    else
      var front := AssayIndicesUpTo(assays, kind, product, n - 1);
      if Matches(assays[n - 1], kind, product) then front + [n - 1] else front
  }

  function GetAssayIndices(assays: seq<Assay>, kind: string, product: string): (ix: seq<int>)
    ensures forall i, j :: 0 <= i < j < |ix| ==> ix[i] < ix[j]
    ensures forall j :: 0 <= j < |assays| ==> (j in ix <==> Matches(assays[j], kind, product))
  {
    AssayIndicesUpTo(assays, kind, product, |assays|)
  }

  /** The lookup ignores ASCII case. */
  lemma GetAssayIndicesIgnoresCase(assays: seq<Assay>, kind: string, product: string)
    ensures GetAssayIndices(assays, Lower(kind), Lower(product)) == GetAssayIndices(assays, kind, product)
  {
    LowerIdempotent(kind);
    LowerIdempotent(product);
    AssayIndicesSame(assays, Lower(kind), Lower(product), kind, product, |assays|);
  }

  lemma LowerIdempotent(s: string)
    ensures Lower(Lower(s)) == Lower(s)
  {
  }

  lemma {:induction false} AssayIndicesSame(assays: seq<Assay>, m1: string, p1: string, m2: string, p2: string, n: int)
    requires 0 <= n <= |assays|
    requires Lower(m1) == Lower(m2) && Lower(p1) == Lower(p2)
    ensures AssayIndicesUpTo(assays, m1, p1, n) == AssayIndicesUpTo(assays, m2, p2, n)
  {
    if n > 0 {
      AssayIndicesSame(assays, m1, p1, m2, p2, n - 1);
    }
  }

  // ---------------------------------------------------------------- methods and products

  /** The methods of the first `n` assays, each once, in order of first appearance. */
  function MethodsUpTo(assays: seq<Assay>, n: int): seq<string>
    requires 0 <= n <= |assays|
  {
    if n == 0 then []
    else
      var front := MethodsUpTo(assays, n - 1);
      if assays[n - 1].kind in front then front else front + [assays[n - 1].kind]
  }

  /** The products of the assays among the first `n` whose method is `m`, in order. */
  function ProductsUpTo(assays: seq<Assay>, m: string, n: int): seq<string>
    requires 0 <= n <= |assays|
  {
    if n == 0 then []
    else
      var front := ProductsUpTo(assays, m, n - 1);
      if assays[n - 1].kind == m then front + [assays[n - 1].product] else front
  }

  /** The loop of `generate_methods_and_products` over the assay records. */
  method GenerateMethodsAndProducts(assays: seq<Assay>) returns (methods: seq<string>, products: map<string, seq<string>>)
    ensures methods == MethodsUpTo(assays, |assays|)
    ensures products.Keys == set k | 0 <= k < |assays| :: assays[k].kind
    ensures forall m :: m in products ==> products[m] == ProductsUpTo(assays, m, |assays|)
  {
    methods := [];
    products := map[];
    for i := 0 to |assays|
      invariant methods == MethodsUpTo(assays, i)
      invariant products.Keys == set k | 0 <= k < i :: assays[k].kind
      invariant forall m :: m in products ==> products[m] == ProductsUpTo(assays, m, i)
    {
      var assay := assays[i];
      if assay.kind !in methods {
        methods := methods + [assay.kind];
      }
      if assay.kind !in products {
        products := products[assay.kind := []];
        ProductsAbsent(assays, assay.kind, i);
      }
      products := products[assay.kind := products[assay.kind] + [assay.product]];
      assert (set k | 0 <= k < i + 1 :: assays[k].kind) == (set k | 0 <= k < i :: assays[k].kind) + {assay.kind};
    }
  }

  lemma {:induction false} ProductsAbsent(assays: seq<Assay>, m: string, n: int)
    requires 0 <= n <= |assays| && forall k :: 0 <= k < n ==> assays[k].kind != m
    ensures ProductsUpTo(assays, m, n) == []
  {
    if n > 0 {
      ProductsAbsent(assays, m, n - 1);
    }
  }

  /**
   * METHODS_LIST holds each method exactly once, those and only those of the assays, each placed
   * no later than its first appearance allows: a method first seen before another comes first.
   */
  lemma {:induction false} MethodsListed(assays: seq<Assay>, n: int)
    requires 0 <= n <= |assays|
    ensures forall i, j :: 0 <= i < j < |MethodsUpTo(assays, n)| ==> MethodsUpTo(assays, n)[i] != MethodsUpTo(assays, n)[j]
    ensures forall m :: m in MethodsUpTo(assays, n) <==> exists k :: 0 <= k < n && assays[k].kind == m
    ensures forall i, j :: 0 <= i < j < |MethodsUpTo(assays, n)| ==>
      FirstIndex(assays, MethodsUpTo(assays, n)[i], n) < FirstIndex(assays, MethodsUpTo(assays, n)[j], n)
  {
    if n > 0 {
      MethodsListed(assays, n - 1);
      var front := MethodsUpTo(assays, n - 1);
      var m := assays[n - 1].kind;
      forall x | x in front
        ensures FirstIndex(assays, x, n) == FirstIndex(assays, x, n - 1) < n - 1
      {
        FirstIndexBelow(assays, x, n - 1);
      }
      if m !in front {
        assert FirstIndex(assays, m, n) == n - 1 by {
          FirstIndexAbsent(assays, m, n - 1);
        }
      }
    }
  }

  /** The index of the first of the first `n` assays whose method is `m`, or `n`. */
  function FirstIndex(assays: seq<Assay>, m: string, n: int): (f: int)
    requires 0 <= n <= |assays|
    ensures 0 <= f <= n
  {
    if n == 0 then 0
    else
      var f := FirstIndex(assays, m, n - 1);
      if f < n - 1 then f else if assays[n - 1].kind == m then n - 1 else n
  }

  lemma {:induction false} FirstIndexBelow(assays: seq<Assay>, m: string, n: int)
    requires 0 <= n <= |assays| && exists k :: 0 <= k < n && assays[k].kind == m
    ensures FirstIndex(assays, m, n) < n && assays[FirstIndex(assays, m, n)].kind == m
  {
    var k :| 0 <= k < n && assays[k].kind == m;
    if k < n - 1 {
      FirstIndexBelow(assays, m, n - 1);
    } else if exists k' :: 0 <= k' < n - 1 && assays[k'].kind == m {
      FirstIndexBelow(assays, m, n - 1);
    } else {
      FirstIndexAbsent(assays, m, n - 1);
    }
  }

  lemma {:induction false} FirstIndexAbsent(assays: seq<Assay>, m: string, n: int)
    requires 0 <= n <= |assays| && forall k :: 0 <= k < n ==> assays[k].kind != m
    ensures FirstIndex(assays, m, n) == n
  {
    if n > 0 {
      FirstIndexAbsent(assays, m, n - 1);
    }
  }

  /** PRODUCTS_DICT[m] lists exactly the products of m's assays, in input order. */
  lemma {:induction false} ProductsListed(assays: seq<Assay>, m: string, n: int)
    requires 0 <= n <= |assays|
    ensures |ProductsUpTo(assays, m, n)| == |set k | 0 <= k < n && assays[k].kind == m|
    ensures forall p :: p in ProductsUpTo(assays, m, n) <==> exists k :: 0 <= k < n && assays[k].kind == m && assays[k].product == p
  {
    if n > 0 {
      ProductsListed(assays, m, n - 1);
      var before := set k | 0 <= k < n - 1 && assays[k].kind == m;
      var now := set k | 0 <= k < n && assays[k].kind == m;
      if assays[n - 1].kind == m {
        assert now == before + {n - 1};
      } else {
        assert now == before;
      }
    }
  }

  // ---------------------------------------------------------------- flatten

  /** A Python value as far as `flatten` looks at it: a list, or anything that is not iterable. */
  datatype PyValue = Scalar(n: int) | List(items: seq<PyValue>)

  predicate AllLists(rows: seq<PyValue>)
  {
    forall k :: 0 <= k < |rows| ==> rows[k].List?
  }

  /** The rows' items, one row after the other. */
  function Concatenated(rows: seq<PyValue>): seq<PyValue>
    requires AllLists(rows)
  {
    if rows == [] then [] else rows[0].items + Concatenated(rows[1..])
  }

  /** An item is in the flat list exactly when it is in one of the rows. */
  lemma {:induction false} ConcatenatedMembers(rows: seq<PyValue>, x: PyValue)
    requires AllLists(rows)
    ensures x in Concatenated(rows) <==> exists k :: 0 <= k < |rows| && x in rows[k].items
  {
    if rows != [] {
      ConcatenatedMembers(rows[1..], x);
      if x in rows[0].items {
      } else if x in Concatenated(rows[1..]) {
        var k :| 0 <= k < |rows[1..]| && x in rows[1..][k].items;
        assert x in rows[k + 1].items;
      } else {
        forall k | 0 <= k < |rows|
          ensures x !in rows[k].items
        {
          if k > 0 {
            assert rows[k] == rows[1..][k - 1];
          }
        }
      }
    }
  }

  lemma {:induction false} ConcatenatedSnoc(rows: seq<PyValue>, row: PyValue)
    requires AllLists(rows) && row.List?
    ensures AllLists(rows + [row]) && Concatenated(rows + [row]) == Concatenated(rows) + row.items
  {
    if rows == [] {
      assert [] + [row] == [row];
      assert [row][1..] == [];
    } else {
      assert (rows + [row])[1..] == rows[1..] + [row];
      ConcatenatedSnoc(rows[1..], row);
    }
  }

  /** utils.py `flatten`: a row that is not a list raises TypeError. */
  method FlattenOld(matrix: PyValue) returns (r: Result<seq<PyValue>>)
    ensures matrix.List? && AllLists(matrix.items) ==> r == Ok(Concatenated(matrix.items))
    ensures !(matrix.List? && AllLists(matrix.items)) ==> r == Err(TypeError)
  {
    if matrix.Scalar? {
      return Err(TypeError);
    }
    var flat: seq<PyValue> := [];
    for i := 0 to |matrix.items|
      invariant AllLists(matrix.items[..i]) && flat == Concatenated(matrix.items[..i])
    {
      var row := matrix.items[i];
      if row.Scalar? {
        return Err(TypeError);
      }
      assert matrix.items[..i + 1] == matrix.items[..i] + [row];
      ConcatenatedSnoc(matrix.items[..i], row);
      flat := flat + row.items;
    }
    assert matrix.items[..|matrix.items|] == matrix.items;
    r := Ok(flat);
  }

  /** helper/utils.py `flatten`: on a TypeError the argument comes back unchanged. */
  method Flatten(matrix: PyValue) returns (r: PyValue)
    ensures r == if matrix.List? && AllLists(matrix.items) then List(Concatenated(matrix.items)) else matrix
  {
    var flat := FlattenOld(matrix);
    if flat.Ok? {
      r := List(flat.value);
    } else {
      r := matrix;
    }
  }

  /** The docstring example. */
  lemma FlattenExample()
    ensures Concatenated([List([Scalar(1), Scalar(2), Scalar(3)]), List([Scalar(4), Scalar(5), Scalar(6)]),
                          List([Scalar(7), Scalar(8), Scalar(9)])])
            == seq(9, i => Scalar(i + 1))
  {
    var rows := [List([Scalar(1), Scalar(2), Scalar(3)]), List([Scalar(4), Scalar(5), Scalar(6)]),
                 List([Scalar(7), Scalar(8), Scalar(9)])];
    assert rows[1..][1..][1..] == [];
    assert Concatenated(rows[1..][1..]) == [Scalar(7), Scalar(8), Scalar(9)];
    assert Concatenated(rows[1..]) == [Scalar(4), Scalar(5), Scalar(6), Scalar(7), Scalar(8), Scalar(9)];
  }
}
