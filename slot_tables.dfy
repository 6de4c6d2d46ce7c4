/**
 * Facts about the fixed-capacity slot tables of LightStorage, stated over the
 * table contents: which entry is the first empty one, how many are taken,
 * which is the highest taken, and how a sequence of shadow sources is placed.
 */
module SlotTables {

  /** `find_light_slot` / `find_shadow_slot`: the first empty index from 0, or -1 when full. */
  function FirstEmpty<T(==)>(t: seq<T>, empty: T): (i: int)
    ensures -1 <= i < |t|
    ensures i == -1 <==> forall k :: 0 <= k < |t| ==> t[k] != empty
    ensures i >= 0 ==> t[i] == empty && forall k :: 0 <= k < i ==> t[k] != empty
  {
    if t == [] then -1
    else if t[0] == empty then 0
    else
      var r := FirstEmpty(t[1..], empty);
      if r < 0 then -1 else r + 1
  }

  /** The number of taken entries. */
  function Occupied<T(==)>(t: seq<T>, empty: T): nat
  {
    if t == [] then 0
    else Occupied(t[..|t| - 1], empty) + (if t[|t| - 1] != empty then 1 else 0)
  }

  /**
   * The highest taken index, or 0 when the table is empty: the value
   * `update_max_light_index` recomputes.
   */
  function Highest<T(==)>(t: seq<T>, empty: T): (m: nat)
    ensures |t| == 0 ==> m == 0
    ensures |t| > 0 ==> m < |t|
    ensures forall k :: m < k < |t| ==> t[k] == empty
    ensures m > 0 ==> t[m] != empty
  {
    if t == [] then 0
    else if t[|t| - 1] != empty then |t| - 1
    else Highest(t[..|t| - 1], empty)
  }

  /** An index bounding every taken entry, taken itself or 0, is the highest one. */
  lemma HighestUnique<T>(t: seq<T>, empty: T, m: nat)
    requires m < |t|
    requires forall k :: m < k < |t| ==> t[k] == empty
    requires m > 0 ==> t[m] != empty
    ensures Highest(t, empty) == m
  {
  }

  /** Filling an empty entry adds one to the count. */
  lemma {:induction false} OccupiedFill<T>(t: seq<T>, empty: T, s: nat, x: T)
    requires s < |t| && t[s] == empty && x != empty
    ensures Occupied(t[s := x], empty) == Occupied(t, empty) + 1
  {
    var n := |t| - 1;
    if s == n {
      assert t[s := x][..n] == t[..n];
    } else {
      assert t[s := x][..n] == t[..n][s := x];
      OccupiedFill(t[..n], empty, s, x);
    }
  }

  /** Emptying a taken entry takes one from the count. */
  lemma {:induction false} OccupiedClear<T>(t: seq<T>, empty: T, s: nat)
    requires s < |t| && t[s] != empty
    ensures Occupied(t[s := empty], empty) + 1 == Occupied(t, empty)
  {
    var n := |t| - 1;
    if s == n {
      assert t[s := empty][..n] == t[..n];
    } else {
      assert t[s := empty][..n] == t[..n][s := empty];
      OccupiedClear(t[..n], empty, s);
    }
  }

  /** A table of nothing but empty entries counts none. */
  lemma {:induction false} EmptyOccupied<T>(t: seq<T>, empty: T)
    requires forall k :: 0 <= k < |t| ==> t[k] == empty
    ensures Occupied(t, empty) == 0
  {
    if t != [] {
      EmptyOccupied(t[..|t| - 1], empty);
    }
  }

  /** No table holds more entries than its capacity. */
  lemma {:induction false} OccupiedBound<T>(t: seq<T>, empty: T)
    ensures Occupied(t, empty) <= |t|
    ensures Occupied(t, empty) == |t| <==> forall k :: 0 <= k < |t| ==> t[k] != empty
  {
    if t != [] {
      var n := |t| - 1;
      OccupiedBound(t[..n], empty);
      if Occupied(t, empty) == |t| {
        forall k | 0 <= k < |t| ensures t[k] != empty {
          if k < n { assert t[..n][k] == t[k]; }
        }
      }
      if forall k :: 0 <= k < |t| ==> t[k] != empty {
        assert forall k :: 0 <= k < n ==> t[..n][k] != empty;
      }
    }
  }

  /** The table is full, so the slot search fails, exactly when the count reaches the capacity. */
  lemma FullIffCount<T>(t: seq<T>, empty: T)
    ensures FirstEmpty(t, empty) == -1 <==> Occupied(t, empty) == |t|
  {
    OccupiedBound(t, empty);
  }

  /** Filling entry s makes the highest index the larger of the old one and s. */
  lemma HighestFill<T>(t: seq<T>, empty: T, s: nat, x: T)
    requires s < |t| && x != empty
    ensures Highest(t[s := x], empty) == if Highest(t, empty) < s then s else Highest(t, empty)
  {
    var h := Highest(t, empty);
    var m := if h < s then s else h;
    HighestUnique(t[s := x], empty, m);
  }

  /** Emptying an entry other than the highest leaves the highest index where it was. */
  lemma HighestClearBelow<T>(t: seq<T>, empty: T, s: nat)
    requires s < |t| && s != Highest(t, empty)
    ensures Highest(t[s := empty], empty) == Highest(t, empty)
  {
    HighestUnique(t[s := empty], empty, Highest(t, empty));
  }

  /** An emptied slot is found again by the next search, or an earlier one is. */
  lemma ClearedSlotReusable<T>(t: seq<T>, empty: T, s: nat)
    requires s < |t|
    ensures 0 <= FirstEmpty(t[s := empty], empty) <= s
  {
    assert t[s := empty][s] == empty;
  }

  /**
   * `setup_shadows`: each source in turn takes the first empty entry; at the
   * first source for which none is left, placing stops. Returns the new table
   * and the slot given to each placed source, in order.
   */
  function Place<T(==)>(t: seq<T>, empty: T, srcs: seq<T>): (r: (seq<T>, seq<int>))
    ensures |r.0| == |t| && |r.1| <= |srcs|
    decreases |srcs|
  {
    if srcs == [] then (t, [])
    else
      var s := FirstEmpty(t, empty);
      if s < 0 then (t, [])
      else
        var rest := Place(t[s := srcs[0]], empty, srcs[1..]);
        (rest.0, [s] + rest.1)
  }

  /**
   * Every placed source gets a distinct slot that was empty before and holds
   * it afterwards; the other entries are untouched; and placing stops early
   * only when the table is full.
   */
  lemma {:induction false} PlaceSound<T>(t: seq<T>, empty: T, srcs: seq<T>)
    requires forall k :: 0 <= k < |srcs| ==> srcs[k] != empty
    requires forall i, j :: 0 <= i < j < |srcs| ==> srcs[i] != srcs[j]
    ensures var (t', slots) := Place(t, empty, srcs);
      (forall k :: 0 <= k < |slots| ==> 0 <= slots[k] < |t| && t[slots[k]] == empty && t'[slots[k]] == srcs[k]) &&
      (forall i, j :: 0 <= i < j < |slots| ==> slots[i] != slots[j]) &&
      (forall j :: 0 <= j < |t| && j !in slots ==> t'[j] == t[j]) &&
      (|slots| < |srcs| ==> forall j :: 0 <= j < |t| ==> t'[j] != empty)
    decreases |srcs|
  {
    var (t', slots) := Place(t, empty, srcs);
    if srcs != [] {
      var s := FirstEmpty(t, empty);
      if s >= 0 {
        var t1 := t[s := srcs[0]];
        PlaceSound(t1, empty, srcs[1..]);
        var (t'', rest) := Place(t1, empty, srcs[1..]);
        assert t' == t'' && slots == [s] + rest;
        PlacedCons(t, empty, srcs, s, t'', rest);
      }
    }
  }

  /** The outcome of placing `srcs` into `t`, as `PlaceSound` states it. */
  ghost predicate PlacedWell<T>(t: seq<T>, empty: T, srcs: seq<T>, t': seq<T>, slots: seq<int>)
  {
    |t'| == |t| && |slots| <= |srcs| &&
    (forall k :: 0 <= k < |slots| ==> 0 <= slots[k] < |t| && t[slots[k]] == empty && t'[slots[k]] == srcs[k]) &&
    (forall i, j :: 0 <= i < j < |slots| ==> slots[i] != slots[j]) &&
    (forall j :: 0 <= j < |t| && j !in slots ==> t'[j] == t[j]) &&
    (|slots| < |srcs| ==> forall j :: 0 <= j < |t| ==> t'[j] != empty)
  }

  /** Placing the first source in the empty slot `s` and the rest after it places them all well. */
  lemma PlacedCons<T>(t: seq<T>, empty: T, srcs: seq<T>, s: int, t': seq<T>, rest: seq<int>)
    requires srcs != [] && 0 <= s < |t| && t[s] == empty && srcs[0] != empty
    requires PlacedWell(t[s := srcs[0]], empty, srcs[1..], t', rest)
    ensures PlacedWell(t, empty, srcs, t', [s] + rest)
  {
    var t1 := t[s := srcs[0]];
    var slots := [s] + rest;
    forall k | 0 <= k < |rest| ensures rest[k] != s && t[rest[k]] == empty {
      assert t1[rest[k]] == empty;
    }
    forall k | 0 <= k < |slots|
      ensures 0 <= slots[k] < |t| && t[slots[k]] == empty && t'[slots[k]] == srcs[k]
    {
      if k > 0 {
        assert slots[k] == rest[k - 1] && srcs[1..][k - 1] == srcs[k];
      } else {
        assert s !in rest;
      }
    }
    forall i, j | 0 <= i < j < |slots| ensures slots[i] != slots[j] {
      if i > 0 {
        assert slots[i] == rest[i - 1] && slots[j] == rest[j - 1];
      }
    }
    forall j | 0 <= j < |t| && j !in slots ensures t'[j] == t[j] {
      assert j !in rest && j != s;
    }
    if |slots| < |srcs| {
      assert |rest| < |srcs[1..]|;
    }
  }

  /** Placing never lowers any slot below an already taken entry: taken entries stay taken. */
  lemma {:induction false} PlaceKeepsTaken<T>(t: seq<T>, empty: T, srcs: seq<T>, j: nat)
    requires forall k :: 0 <= k < |srcs| ==> srcs[k] != empty
    requires j < |t| && t[j] != empty
    ensures Place(t, empty, srcs).0[j] == t[j]
    decreases |srcs|
  {
    if srcs != [] {
      var s := FirstEmpty(t, empty);
      if s >= 0 {
        PlaceKeepsTaken(t[s := srcs[0]], empty, srcs[1..], j);
      }
    }
  }
}
