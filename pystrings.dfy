/**
 * The parts of Python's `str` the core relies on, for ASCII text: `strip()`, `split(sep)`,
 * `sep.join(parts)` and the whitespace `split()`.
 */
module PyStrings {
  /** The ASCII characters Python's `str.strip()` removes. */
  predicate IsSpace(c: char)
  {
    var k := c as int;
    k == 32 || 9 <= k <= 13 || 28 <= k <= 31
  }

  function TrimStart(s: string): (r: string)
    ensures |r| <= |s| && r == s[|s| - |r|..]
    ensures r != [] ==> !IsSpace(r[0])
  {
    if s != [] && IsSpace(s[0]) then TrimStart(s[1..]) else s
  }

  function TrimEnd(s: string): (r: string)
    ensures |r| <= |s| && r == s[..|r|]
    ensures r != [] ==> !IsSpace(r[|r| - 1])
  {
    if s != [] && IsSpace(s[|s| - 1]) then TrimEnd(s[..|s| - 1]) else s
  }

  /** `s.strip()`. */
  function Strip(s: string): string
  {
    TrimEnd(TrimStart(s))
  }

  /** `s.split(sep)` for a one-character separator: always at least one part, none holding `sep`. */
  function Split(s: string, sep: char): (parts: seq<string>)
    ensures |parts| >= 1
    ensures forall p :: p in parts ==> sep !in p
    decreases |s|
  {
    if s == [] then [""]
    else
      var rest := Split(s[1..], sep);
      if s[0] == sep then [""] + rest else [[s[0]] + rest[0]] + rest[1..]
  }

  /** `sep.join(parts)`. */
  function Join(parts: seq<string>, sep: char): string
    requires |parts| >= 1
  {
    if |parts| == 1 then parts[0] else parts[0] + [sep] + Join(parts[1..], sep)
  }

  /** Joining the parts of a split gives the string back. */
  lemma {:induction false} JoinSplit(s: string, sep: char)
    ensures Join(Split(s, sep), sep) == s
    decreases |s|
  {
    if s != [] {
      var rest := Split(s[1..], sep);
      JoinSplit(s[1..], sep);
      if s[0] != sep {
        if |rest| == 1 {
          assert s == [s[0]] + s[1..];
        } else {
          assert Join(rest, sep) == rest[0] + [sep] + Join(rest[1..], sep);
          assert s == [s[0]] + s[1..];
        }
      }
    }
  }

  /** Splitting a join of separator-free parts gives the parts back. */
  lemma {:induction false} SplitJoin(parts: seq<string>, sep: char)
    requires |parts| >= 1 && forall p :: p in parts ==> sep !in p
    ensures Split(Join(parts, sep), sep) == parts
    decreases |parts|, |parts[0]|
  {
    if |parts| == 1 {
      SplitNoSeparator(parts[0], sep);
    } else if parts[0] == [] {
      var j := Join(parts, sep);
      assert j == [sep] + Join(parts[1..], sep);
      assert j[1..] == Join(parts[1..], sep);
      SplitJoin(parts[1..], sep);
    } else {
      var c := parts[0][0];
      var shorter := [parts[0][1..]] + parts[1..];
      assert parts[0] in parts && c in parts[0];
      forall p | p in shorter
        ensures sep !in p
      {
        if p == parts[0][1..] {
          assert forall x :: x in p ==> x in parts[0];
        } else {
          assert p in parts;
        }
      }
      var j := Join(parts, sep);
      assert j == [c] + Join(shorter, sep) by {
        assert parts[0] == [c] + parts[0][1..];
        assert shorter[1..] == parts[1..];
      }
      assert j[1..] == Join(shorter, sep);
      SplitJoin(shorter, sep);
      assert [c] + shorter[0] == parts[0];
      assert parts == [[c] + shorter[0]] + shorter[1..];
    }
  }

  lemma {:induction false} SplitNoSeparator(s: string, sep: char)
    requires sep !in s
    ensures Split(s, sep) == [s]
    decreases |s|
  {
    if s != [] {
      SplitNoSeparator(s[1..], sep);
      assert s == [s[0]] + s[1..];
    }
  }

  lemma {:induction false} JoinSnoc(parts: seq<string>, p: string, sep: char)
    requires |parts| >= 1
    ensures Join(parts + [p], sep) == Join(parts, sep) + [sep] + p
  {
    if |parts| > 1 {
      assert (parts + [p])[1..] == parts[1..] + [p];
      JoinSnoc(parts[1..], p, sep);
    }
  }

  /** The characters of `s` that are not whitespace, in order. */
  function NonSpace(s: string): string
  {
    if s == [] then [] else (if IsSpace(s[0]) then [] else [s[0]]) + NonSpace(s[1..])
  }

  function Concat(ws: seq<string>): string
  {
    if ws == [] then [] else ws[0] + Concat(ws[1..])
  }

  /** `s.split()`: the maximal runs of non-whitespace characters, in order. */
  /** A word: a non-empty run of non-whitespace characters. */
  predicate IsWord(w: string)
  {
    w != [] && forall c :: c in w ==> !IsSpace(c)
  }

  function Words(s: string): (ws: seq<string>)
    ensures forall k :: 0 <= k < |ws| ==> IsWord(ws[k])
    ensures s != [] && !IsSpace(s[0]) ==> ws != [] && ws[0] != [] && ws[0][0] == s[0]
  {
    if s == [] then []
    else
      var rest := Words(s[1..]);
      if IsSpace(s[0]) then rest
      else if |s| > 1 && !IsSpace(s[1]) then [[s[0]] + rest[0]] + rest[1..]
      else [[s[0]]] + rest
  }

  /** The words hold exactly the non-whitespace characters, in order. */
  lemma {:induction false} WordsKeepText(s: string)
    ensures Concat(Words(s)) == NonSpace(s)
  {
    if s != [] {
      var rest := Words(s[1..]);
      WordsKeepText(s[1..]);
      if !IsSpace(s[0]) {
        if |s| > 1 && !IsSpace(s[1]) {
          var ws := [[s[0]] + rest[0]] + rest[1..];
          assert ws[1..] == rest[1..];
          assert Concat(rest) == rest[0] + Concat(rest[1..]);
        } else {
          assert ([[s[0]]] + rest)[1..] == rest;
        }
      }
    }
  }

  /** A run without whitespace is one word: `split()` never cuts inside a run. */
  lemma {:induction false} WordsOfRun(s: string)
    requires s != [] && forall c :: c in s ==> !IsSpace(c)
    ensures Words(s) == [s]
    decreases |s|
  {
    assert s == [s[0]] + s[1..];
    if |s| > 1 {
      assert forall c :: c in s[1..] ==> c in s;
      WordsOfRun(s[1..]);
      assert s[1] == s[1..][0];
      assert s[1] in s;
      assert Words(s) == [[s[0]] + s[1..]] + [];
    } else {
      assert s[1..] == [] && s == [s[0]];
      assert Words(s) == [[s[0]]] + [];
    }
  }

  /** A whitespace character always ends a word: the words of `a`, then those of `b`. */
  lemma {:induction false} WordsSplitAtSpace(a: string, c: char, b: string)
    requires IsSpace(c)
    ensures Words(a + [c] + b) == Words(a) + Words(b)
    decreases |a|
  {
    if a == [] {
      assert Words(a + [c] + b) == Words(b) by {
        assert a + [c] + b == [c] + b;
        WordsCons(c, b);
      }
    } else {
      WordsSplitAtSpace(a[1..], c, b);
      WordsSplitStep(a[0], a[1..], c, b);
      assert a == [a[0]] + a[1..];
    }
  }

  /** The inductive step: a character in front of `t` joins the words of `t` the same way
      whether or not `t` is followed by a space and `b`. */
  lemma WordsSplitStep(x: char, t: string, c: char, b: string)
    requires IsSpace(c) && Words(t + [c] + b) == Words(t) + Words(b)
    ensures Words([x] + t + [c] + b) == Words([x] + t) + Words(b)
  {
    var tb := t + [c] + b;
    assert tb != [] && (t != [] ==> tb[0] == t[0]) && (t == [] ==> IsSpace(tb[0])) by {
      if t == [] { assert tb[0] == c; } else { assert tb[0] == t[0]; }
    }
    assert Words([x] + t + [c] + b) == ConsWord(x, tb, Words(t) + Words(b)) by {
      assert [x] + t + [c] + b == [x] + tb;
      WordsCons(x, tb);
    }
    WordsCons(x, t);
    ConsWordSplit(x, t, tb, Words(t), Words(b));
  }

  /** One step of `split()` over a tail `t` already split into `w`: a space is dropped,
      any other character starts a word or extends the first one when `t` begins inside a word. */
  function ConsWord(x: char, t: string, w: seq<string>): (r: seq<string>)
    ensures !IsSpace(x) ==> r != [] && r[0] != [] && r[0][0] == x
  {
    if IsSpace(x) then w
    else if t != [] && !IsSpace(t[0]) && w != [] then [[x] + w[0]] + w[1..]
    else [[x]] + w
  }

  /** A character in front of `t` and of `tb`, where `tb` goes on from `t` after a word break:
      both gain or extend the same first word. */
  lemma ConsWordSplit(x: char, t: string, tb: string, w: seq<string>, wb: seq<string>)
    requires tb != [] && (t != [] ==> tb[0] == t[0]) && (t == [] ==> IsSpace(tb[0]))
    requires t != [] && !IsSpace(t[0]) ==> w != []
    ensures ConsWord(x, tb, w + wb) == ConsWord(x, t, w) + wb
  {
    if !IsSpace(x) && t != [] && !IsSpace(t[0]) {
      assert (w + wb)[0] == w[0] && (w + wb)[1..] == w[1..] + wb;
      AppendAssoc([[x] + w[0]], w[1..], wb);
    } else if !IsSpace(x) {
      AppendAssoc([[x]], w, wb);
    }
  }

  /** Concatenation regroups freely. */
  lemma AppendAssoc<T>(p: seq<T>, q: seq<T>, r: seq<T>)
    ensures p + (q + r) == (p + q) + r
  {
  }

  /** The words of `[x] + t` are one `ConsWord` step over the words of `t`. */
  lemma WordsCons(x: char, t: string)
    ensures Words([x] + t) == ConsWord(x, t, Words(t))
  {
    var s := [x] + t;
    assert s[0] == x && s[1..] == t;
    assert |s| > 1 ==> s[1] == t[0];
  }

  /** The words joined by single spaces, as one output line. */
  function JoinWords(ws: seq<string>): string
  {
    if ws == [] then "" else Join(ws, ' ')
  }
}
