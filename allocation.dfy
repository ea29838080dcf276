/**
 * Per-run position counters. Each protocol class remembers how many positions of each labware it
 * has used so far, and hands out the next one while the capacity table allows it. Three dialects
 * of this exist and are modelled here as written:
 *  - two integer fields (`last_eppendorf_pos`, `last_deep_well_pos`) that start at 1 and hand out
 *    the value *before* the increment, or -1 once exhausted (`TwoFieldCounter`);
 *  - a dictionary `used_labware_pos` whose `next_labware_pos` returns the count *after* the
 *    increment, falls through to `None` at capacity and returns -1 on any other failure
 *    (`SentinelCounters`);
 *  - the same dictionary whose `next_labware_pos` raises on every failure (`RaisingCounters`).
 */
module Allocation {
  import opened Wrappers
  import opened Catalog

  /** The number of iterations of Python's `range(0, n)`. */
  function Times(n: int): nat { if n > 0 then n else 0 }

  function Min(a: int, b: int): int { if a <= b then a else b }

  function Max(a: int, b: int): int { if a >= b then a else b }

  // ---------------------------------------------------------------------------------------------
  // Two-field counters
  // ---------------------------------------------------------------------------------------------

  /** What one call of `next_eppendorf_pos` / `next_deep_well_pos` returns for counter `last`. */
  function Drawn(last: int, capacity: int): int
  {
    if last + 1 <= capacity then last else -1
  }

  /** The counter after `k` calls, starting from `last`. */
  function Advanced(last: int, capacity: int, k: nat): int
    decreases k
  {
    if k == 0 || last + 1 > capacity then last else Advanced(last + 1, capacity, k - 1)
  }

  /** The values `k` successive calls return, starting from counter `last`. */
  function Draws(last: int, capacity: int, k: nat): (ps: seq<int>)
    ensures |ps| == k
    decreases k
  {
    if k == 0 then [] else [Drawn(last, capacity)] + Draws(Advanced(last, capacity, 1), capacity, k - 1)
  }

  /** The counter climbs one per call and then stays at the capacity (or where it was, if above). */
  lemma {:induction false} AdvancedClosed(last: int, capacity: int, k: nat)
    ensures Advanced(last, capacity, k) == if last >= capacity then last else Min(last + k, capacity)
    decreases k
  {
    if k > 0 && last + 1 <= capacity {
      AdvancedClosed(last + 1, capacity, k - 1);
    }
  }

  /** One more call advances the counter from where `k` calls left it. */
  lemma {:induction false} AdvancedSnoc(last: int, capacity: int, k: nat)
    ensures Advanced(last, capacity, k + 1) == Advanced(Advanced(last, capacity, k), capacity, 1)
    decreases k
  {
    if k > 0 && last + 1 <= capacity {
      AdvancedSnoc(last + 1, capacity, k - 1);
    }
  }

  /** Call `k + 1` returns what the counter left by the first `k` calls draws. */
  lemma {:induction false} DrawsSnoc(last: int, capacity: int, k: nat)
    ensures Draws(last, capacity, k + 1) == Draws(last, capacity, k) + [Drawn(Advanced(last, capacity, k), capacity)]
    decreases k
  {
    if k > 0 {
      DrawsSnoc(Advanced(last, capacity, 1), capacity, k - 1);
      if last + 1 <= capacity {
        assert Advanced(last, capacity, k) == Advanced(last + 1, capacity, k - 1);
      } else {
        assert Advanced(last, capacity, k) == last;
        assert Advanced(last, capacity, k - 1) == last;
      }
    }
  }

  /** Call `i` returns `last + i` while that is below the capacity, and -1 from then on. */
  lemma {:induction false} DrawsFrom(last: int, capacity: int, k: nat)
    ensures forall i :: 0 <= i < k ==> Draws(last, capacity, k)[i] == if last + i < capacity then last + i else -1
    decreases k
  {
    if k > 0 {
      DrawsFrom(Advanced(last, capacity, 1), capacity, k - 1);
      forall i | 0 <= i < k
        ensures Draws(last, capacity, k)[i] == if last + i < capacity then last + i else -1
      {
        if i > 0 {
          assert Draws(last, capacity, k)[i] == Draws(Advanced(last, capacity, 1), capacity, k - 1)[i - 1];
          if last + 1 > capacity {
            assert Advanced(last, capacity, 1) == last;
          }
        }
      }
    }
  }

  /**
   * After the reset to 1, successive calls yield 1, 2, ..., capacity - 1 and then -1: the last
   * position of the labware is never handed out.
   */
  lemma DrawsAfterReset(capacity: int, k: nat)
    requires capacity >= 1
    ensures forall i :: 0 <= i < k ==> Draws(1, capacity, k)[i] == if i + 1 < capacity then i + 1 else -1
    ensures k >= capacity ==> capacity !in Draws(1, capacity, k)
  {
    DrawsFrom(1, capacity, k);
    forall i | 0 <= i < k
      ensures Draws(1, capacity, k)[i] != capacity
    {
    }
  }

  /** `last_eppendorf_pos` and `last_deep_well_pos` of Dotblot.py, helper/Dotblot.py and nanoDSF.py. */
  class TwoFieldCounter {
    var lastEppendorfPos: int
    var lastDeepWellPos: int
    const eppendorfCapacity: int
    const deepWellCapacity: int

    /** Both counters start at 1; the capacities are the table's "Eppendorf" and "DeepWell" entries. */
    constructor (tables: Tables)
      requires "Eppendorf" in tables.capacity && "DeepWell" in tables.capacity
      ensures lastEppendorfPos == 1 && lastDeepWellPos == 1
      ensures eppendorfCapacity == tables.capacity["Eppendorf"]
      ensures deepWellCapacity == tables.capacity["DeepWell"]
    {
      lastEppendorfPos, lastDeepWellPos := 1, 1;
      eppendorfCapacity := tables.capacity["Eppendorf"];
      deepWellCapacity := tables.capacity["DeepWell"];
    }

    /** Returns the counter and then adds one while `counter + 1 <= capacity`; otherwise -1 and no change. */
    method NextEppendorfPos() returns (pos: int)
      modifies this
      ensures old(lastEppendorfPos) + 1 <= eppendorfCapacity ==>
                pos == old(lastEppendorfPos) && lastEppendorfPos == old(lastEppendorfPos) + 1
      ensures old(lastEppendorfPos) + 1 > eppendorfCapacity ==>
                pos == -1 && lastEppendorfPos == old(lastEppendorfPos)
      ensures pos == Drawn(old(lastEppendorfPos), eppendorfCapacity)
      ensures lastEppendorfPos == Advanced(old(lastEppendorfPos), eppendorfCapacity, 1)
      ensures lastDeepWellPos == old(lastDeepWellPos)
    {
      if lastEppendorfPos + 1 <= eppendorfCapacity {
        lastEppendorfPos := lastEppendorfPos + 1;
        pos := lastEppendorfPos - 1;
      } else {
        pos := -1;
      }
    }

    /** The same for the DeepWell counter. */
    method NextDeepWellPos() returns (pos: int)
      modifies this
      ensures old(lastDeepWellPos) + 1 <= deepWellCapacity ==>
                pos == old(lastDeepWellPos) && lastDeepWellPos == old(lastDeepWellPos) + 1
      ensures old(lastDeepWellPos) + 1 > deepWellCapacity ==>
                pos == -1 && lastDeepWellPos == old(lastDeepWellPos)
      ensures pos == Drawn(old(lastDeepWellPos), deepWellCapacity)
      ensures lastDeepWellPos == Advanced(old(lastDeepWellPos), deepWellCapacity, 1)
      ensures lastEppendorfPos == old(lastEppendorfPos)
    {
      if lastDeepWellPos + 1 <= deepWellCapacity {
        lastDeepWellPos := lastDeepWellPos + 1;
        pos := lastDeepWellPos - 1;
      } else {
        pos := -1;
      }
    }

    /** `set_all_parameters` puts both counters back to 1. */
    method Reset()
      modifies this
      ensures lastEppendorfPos == 1 && lastDeepWellPos == 1
    {
      lastEppendorfPos, lastDeepWellPos := 1, 1;
    }
  }

  // ---------------------------------------------------------------------------------------------
  // Dictionary counters
  // ---------------------------------------------------------------------------------------------

  /** `{lw: 0 for lw in LabwareNames}` and `dict.fromkeys(used, 0)`. */
  function Zeros(keys: set<string>): (m: map<string, int>)
    ensures m.Keys == keys
  {
    map k | k in keys :: 0
  }

  /** The counter of `name` can be read and compared: it is a known key with a capacity. */
  predicate Countable(tables: Tables, used: map<string, int>, name: string)
  {
    name in tables.names && name in used && name in tables.capacity
  }

  /** What the sentinel `next_labware_pos` returns: the new count, Python's `None`, or -1. */
  datatype Reply = Position(pos: int) | NoneReturned | MinusOne

  /**
   * One call of the sentinel `next_labware_pos(name)`: the reply and the new counters. An unknown
   * name returns -1; a failed lookup raises KeyError inside the `try`, which also returns -1; at
   * capacity the function falls off its end and returns None.
   */
  function SentinelStep(tables: Tables, used: map<string, int>, name: string): (Reply, map<string, int>)
  {
    if !Countable(tables, used, name) then (MinusOne, used)
    else if used[name] + 1 <= tables.capacity[name] then (Position(used[name] + 1), used[name := used[name] + 1])
    else (NoneReturned, used)
  }

  /** The counters after `n` sentinel calls for the same name (the replies are discarded). */
  function SentinelCounted(tables: Tables, used: map<string, int>, name: string, n: nat): map<string, int>
    decreases n
  {
    if n == 0 then used else SentinelCounted(tables, SentinelStep(tables, used, name).1, name, n - 1)
  }

  /** The cases of one sentinel call, and that no other counter changes. */
  lemma SentinelStepCases(tables: Tables, used: map<string, int>, name: string)
    ensures var (r, after) := SentinelStep(tables, used, name);
      && after.Keys == used.Keys
      && (forall k :: k in used && k != name ==> after[k] == used[k])
      && (r.Position? <==> Countable(tables, used, name) && used[name] + 1 <= tables.capacity[name])
      && (r.Position? ==> r.pos == after[name] == used[name] + 1)
      && (r.NoneReturned? <==> Countable(tables, used, name) && used[name] + 1 > tables.capacity[name])
      && (!r.Position? ==> after == used)
  {
  }

  /**
   * `n` calls advance a countable name's counter to `used + n`, stopping at the capacity, and
   * touch nothing else; for any other name they change nothing.
   */
  lemma {:induction false} SentinelCountedValue(tables: Tables, used: map<string, int>, name: string, n: nat)
    ensures SentinelCounted(tables, used, name, n).Keys == used.Keys
    ensures forall k :: k in used && k != name ==> SentinelCounted(tables, used, name, n)[k] == used[k]
    ensures Countable(tables, used, name) ==>
      SentinelCounted(tables, used, name, n)[name] ==
        if used[name] >= tables.capacity[name] then used[name] else Min(used[name] + n, tables.capacity[name])
    ensures !Countable(tables, used, name) ==> SentinelCounted(tables, used, name, n) == used
    decreases n
  {
    if n > 0 {
      var next := SentinelStep(tables, used, name).1;
      SentinelCountedValue(tables, next, name, n - 1);
    }
  }

  /**
   * What a loop that appends `used[name]` after each sentinel call for `name` records: the
   * counter's value, whether or not the call handed out a position.
   */
  function Recorded(t: Tables, u: map<string, int>, name: string, n: nat): (vs: seq<int>)
    requires name in u
    ensures |vs| == n
    decreases n
  {
    if n == 0 then []
    else
      var after := SentinelStep(t, u, name).1;
      [after[name]] + Recorded(t, after, name, n - 1)
  }

  /** `a` calls and then `b` more leave the counters where `a + b` calls leave them. */
  lemma {:induction false} SentinelCountedAdd(t: Tables, u: map<string, int>, name: string, a: nat, b: nat)
    ensures SentinelCounted(t, SentinelCounted(t, u, name, a), name, b) == SentinelCounted(t, u, name, a + b)
    decreases a
  {
    if a > 0 {
      SentinelCountedAdd(t, SentinelStep(t, u, name).1, name, a - 1, b);
    }
  }

  /**
   * The values recorded by `n` calls: below the capacity each call advances the counter, so
   * the values climb one by one and then repeat the capacity; a name the counters cannot count
   * records its unchanged value every time.
   */
  lemma {:induction false} RecordedValues(t: Tables, u: map<string, int>, name: string, n: nat)
    requires name in u
    ensures Countable(t, u, name) && u[name] < t.capacity[name] ==>
      forall j :: 0 <= j < n ==> Recorded(t, u, name, n)[j] == Min(u[name] + 1 + j, t.capacity[name])
    ensures Countable(t, u, name) && u[name] >= t.capacity[name] ==>
      forall j :: 0 <= j < n ==> Recorded(t, u, name, n)[j] == u[name]
    ensures !Countable(t, u, name) ==> forall j :: 0 <= j < n ==> Recorded(t, u, name, n)[j] == u[name]
    decreases n
  {
    if n > 0 {
      var after := SentinelStep(t, u, name).1;
      RecordedValues(t, after, name, n - 1);
      var vs := Recorded(t, u, name, n);
      assert vs == [after[name]] + Recorded(t, after, name, n - 1);
      if Countable(t, u, name) && u[name] < t.capacity[name] {
        assert Countable(t, after, name) && after[name] == u[name] + 1;
        forall j | 0 <= j < n
          ensures vs[j] == Min(u[name] + 1 + j, t.capacity[name])
        {
          if j > 0 {
            assert vs[j] == Recorded(t, after, name, n - 1)[j - 1];
          }
        }
      } else {
        assert after == u;
        forall j | 0 <= j < n
          ensures vs[j] == u[name]
        {
          if j > 0 {
            assert vs[j] == Recorded(t, after, name, n - 1)[j - 1];
          }
        }
      }
    }
  }

  /** Recording `a` calls and then `b` more records what `a + b` calls record. */
  lemma {:induction false} RecordedAdd(t: Tables, u: map<string, int>, name: string, a: nat, b: nat)
    requires name in u
    ensures name in SentinelCounted(t, u, name, a)
    ensures Recorded(t, u, name, a) + Recorded(t, SentinelCounted(t, u, name, a), name, b) == Recorded(t, u, name, a + b)
    decreases a
  {
    SentinelCountedValue(t, u, name, a);
    if a > 0 {
      var after := SentinelStep(t, u, name).1;
      RecordedAdd(t, after, name, a - 1, b);
      assert Recorded(t, u, name, a) == [after[name]] + Recorded(t, after, name, a - 1);
      assert Recorded(t, u, name, a + b) == [after[name]] + Recorded(t, after, name, a - 1 + b);
    }
  }

  /** With room for `n` more, the `n` recorded values are the next `n` positions. */
  lemma RecordedClimb(t: Tables, u: map<string, int>, name: string, n: nat)
    requires name in u && Countable(t, u, name) && u[name] + n <= t.capacity[name]
    ensures forall j :: 0 <= j < n ==> Recorded(t, u, name, n)[j] == u[name] + 1 + j
  {
    if n > 0 {
      RecordedValues(t, u, name, n);
    }
  }

  /** The counters `count_starting_lw_pos` leaves: it counts the origin's display name. */
  function StartCountAsWritten(t: Tables, u: map<string, int>, origin: string, n: int): (after: map<string, int>)
    ensures after.Keys == u.Keys
  {
    if origin in t.names then
      SentinelCountedValue(t, u, t.names[origin], Times(n));
      SentinelCounted(t, u, t.names[origin], Times(n))
    else u
  }

  /** The counting its docstring describes: the origin labware's own counter. */
  function StartCountIntended(t: Tables, u: map<string, int>, origin: string, n: int): (after: map<string, int>)
    ensures after.Keys == u.Keys
  {
    if origin in t.names then
      SentinelCountedValue(t, u, origin, Times(n));
      SentinelCounted(t, u, origin, Times(n))
    else u
  }

  /**
   * One call of the raising `next_labware_pos(name)`: the new count, or an exception with the
   * counters unchanged. The handler re-reads `used[name]` and the capacity to log them, so a
   * name without a counter or without a capacity surfaces as KeyError; every other failure is
   * the ValueError the handler raises.
   */
  function RaisingStep(tables: Tables, used: map<string, int>, name: string): (Result<int>, map<string, int>)
  {
    if Countable(tables, used, name) && used[name] + 1 <= tables.capacity[name] then
      (Ok(used[name] + 1), used[name := used[name] + 1])
    else if name !in used || name !in tables.capacity then (Err(KeyError), used)
    else (Err(ValueError), used)
  }

  /** `n` raising calls for the same name: the first exception stops the loop, keeping earlier increments. */
  function RaisingCounted(tables: Tables, used: map<string, int>, name: string, n: nat): (Option<PyError>, map<string, int>)
    decreases n
  {
    if n == 0 then (None, used)
    else
      var (r, next) := RaisingStep(tables, used, name);
      if r.Err? then (Some(r.error), next) else RaisingCounted(tables, next, name, n - 1)
  }

  /** The cases of one raising call: success exactly under capacity, and no change on failure. */
  lemma RaisingStepCases(tables: Tables, used: map<string, int>, name: string)
    ensures var (r, after) := RaisingStep(tables, used, name);
      && (r.Ok? <==> Countable(tables, used, name) && used[name] + 1 <= tables.capacity[name])
      && (r.Ok? ==> r.value == after[name] == used[name] + 1 && after == used[name := r.value])
      && (r.Err? ==> after == used)
      && (r.Err? ==> (r.error == KeyError <==> name !in used || name !in tables.capacity))
  {
  }

  /**
   * `n` raising calls for a countable name either all succeed, advancing the counter by `n`, or
   * stop with ValueError once the capacity is reached, leaving the counter at the capacity.
   */
  lemma {:induction false} RaisingCountedValue(tables: Tables, used: map<string, int>, name: string, n: nat)
    requires Countable(tables, used, name) && used[name] <= tables.capacity[name]
    ensures var (err, after) := RaisingCounted(tables, used, name, n);
      && after.Keys == used.Keys
      && (err.None? <==> used[name] + n <= tables.capacity[name])
      && (err.Some? ==> err.value == ValueError && after[name] == tables.capacity[name])
      && (err.None? ==> after[name] == used[name] + n)
      && (forall k :: k in used && k != name ==> after[k] == used[k])
    decreases n
  {
    if n > 0 && used[name] + 1 <= tables.capacity[name] {
      RaisingCountedValue(tables, used[name := used[name] + 1], name, n - 1);
    }
  }

  /** `used_labware_pos` with the sentinel `next_labware_pos` (GeneralDilution.py and others). */
  class SentinelCounters {
    var used: map<string, int>
    const tables: Tables

    /** One zero counter per key of `LabwareNames`. */
    constructor (tables: Tables)
      ensures this.tables == tables && used == Zeros(tables.names.Keys)
    {
      this.tables := tables;
      used := Zeros(tables.names.Keys);
    }

    method NextLabwarePos(name: string) returns (r: Reply)
      modifies this
      ensures (r, used) == SentinelStep(tables, old(used), name)
    {
      if name in tables.names && name in used && name in tables.capacity {
        if used[name] + 1 <= tables.capacity[name] {
          used := used[name := used[name] + 1];
          r := Position(used[name]);
        } else {
          r := NoneReturned;
        }
      } else {
        r := MinusOne;
      }
    }

    /**
     * `count_starting_lw_pos`: when the origin is a key of `LabwareNames`, consume `n` positions
     * of the labware named by its *display name* `LabwareNames[origin]`.
     */
    method CountStartingLwPos(origin: string, n: int)
      modifies this
      ensures used == if origin in tables.names then SentinelCounted(tables, old(used), tables.names[origin], Times(n)) else old(used)
    {
      if origin in tables.names {
        var name := tables.names[origin];
        var i := 0;
        while i < n
          invariant 0 <= i <= Times(n)
          invariant SentinelCounted(tables, old(used), name, Times(n)) == SentinelCounted(tables, used, name, Times(n) - i)
        {
          var _ := NextLabwarePos(name);
          i := i + 1;
        }
      }
    }

    /** `dict.fromkeys(self.used_labware_pos, 0)`. */
    method Reset()
      modifies this
      ensures used == Zeros(old(used).Keys)
    {
      used := Zeros(used.Keys);
    }
  }

  /** `used_labware_pos` with the raising `next_labware_pos` (helper/SEC_HPLC.py and others). */
  class RaisingCounters {
    var used: map<string, int>
    const tables: Tables

    constructor (tables: Tables)
      ensures this.tables == tables && used == Zeros(tables.names.Keys)
    {
      this.tables := tables;
      used := Zeros(tables.names.Keys);
    }

    method NextLabwarePos(name: string) returns (r: Result<int>)
      modifies this
      ensures (r, used) == RaisingStep(tables, old(used), name)
    {
      if name in tables.names && name in used && name in tables.capacity && used[name] + 1 <= tables.capacity[name] {
        used := used[name := used[name] + 1];
        r := Ok(used[name]);
      } else if name !in used || name !in tables.capacity {
        r := Err(KeyError);
      } else {
        r := Err(ValueError);
      }
    }

    /** `count_starting_lw_pos` over the raising counter: the first exception ends it. */
    method CountStartingLwPos(origin: string, n: int) returns (err: Option<PyError>)
      modifies this
      ensures (err, used) == if origin in tables.names then RaisingCounted(tables, old(used), tables.names[origin], Times(n)) else (None, old(used))
    {
      err := None;
      if origin in tables.names {
        var name := tables.names[origin];
        var i := 0;
        while i < n
          invariant 0 <= i <= Times(n)
          invariant RaisingCounted(tables, old(used), name, Times(n)) == RaisingCounted(tables, used, name, Times(n) - i)
        {
          var r := NextLabwarePos(name);
          if r.Err? {
            err := Some(r.error);
            return;
          }
          i := i + 1;
        }
      }
    }

    method Reset()
      modifies this
      ensures used == Zeros(old(used).Keys)
    {
      used := Zeros(used.Keys);
    }
  }

  /**
   * `count_starting_lw_pos` passes the display name `LabwareNames[origin]`. When that display
   * name is not itself a key, the sentinel form consumes nothing and the raising form raises
   * KeyError on its first call, before consuming anything.
   */
  lemma {:induction false} DisplayNameNotCounted(tables: Tables, used: map<string, int>, origin: string, n: nat)
    requires origin in tables.names && tables.names[origin] !in tables.names
    requires used.Keys == tables.names.Keys
    ensures SentinelCounted(tables, used, tables.names[origin], n) == used
    ensures n > 0 ==> RaisingCounted(tables, used, tables.names[origin], n) == (Some(KeyError), used)
  {
    SentinelCountedValue(tables, used, tables.names[origin], n);
  }

  /**
   * In both tables generations the DeepWell display name "96 Deep Well 2ml[001]" is no key, so a
   * DeepWell origin is never counted, while the Eppendorf display name is its own key.
   */
  lemma DisplayNames()
    ensures NewNames["DeepWell"] !in NewNames && OldNames["DeepWell"] !in OldNames
    ensures NewNames["Eppendorf"] == "Eppendorf"
    ensures "Eppendorf" in OldNames && OldNames["Eppendorf"] == "Eppendorf"
  {
    NewDeepWellNameNoKey();
    OldDeepWellNameNoKey();
  }

  /** No key of the current table ends with `]`, so the DeepWell display name is none of them. */
  lemma NewDeepWellNameNoKey()
    ensures NewNames["DeepWell"] !in NewNames
  {
    var d := NewNames["DeepWell"];
    assert d == "96 Deep Well 2ml[001]";
    forall k | k in NewNames
      ensures k != d
    {
      assert k[|k| - 1] != ']';
    }
  }

  /** The same for the older table. */
  lemma OldDeepWellNameNoKey()
    ensures OldNames["DeepWell"] !in OldNames
  {
    var d := OldNames["DeepWell"];
    assert d == "96 Deep Well 2ml[001]";
    forall k | k in OldNames
      ensures k != d
    {
      assert k[|k| - 1] != ']';
    }
  }

  /** Nor are the display names of the older 2R and 8R vial holders, which the origin menus offer. */
  lemma OldVialNamesNoKey()
    ensures OldNames["2R Vial"] !in OldNames && OldNames["8R Vial"] !in OldNames
  {
    var v2, v8 := OldNames["2R Vial"], OldNames["8R Vial"];
    assert v2 == "2R Vial holder[001]" && v8 == "8R Vial holder[001]";
    forall k | k in OldNames
      ensures k != v2 && k != v8
    {
      assert k[|k| - 1] != ']';
    }
  }
}
