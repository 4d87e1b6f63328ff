/** Small definitions that several parts of the model share. */
module Basics {

  datatype Option<+T> = None | Some(value: T)

  /** A rectangle of pixels; a width or height of zero or less makes it empty. */
  datatype Rect = Rect(left: int, top: int, width: int, height: int)

  predicate Inside(r: Rect, row: int, col: int) {
    r.left <= col < r.left + r.width && r.top <= row < r.top + r.height
  }

  function Min(a: int, b: int): int {
    if a <= b then a else b
  }

  function Max(a: int, b: int): int {
    if a >= b then a else b
  }

  lemma Regrouped<T>(a: seq<T>, b: seq<T>, c: seq<T>)
    ensures a + (b + c) == a + b + c
  {
  }

  /** The list holds the elements of another one at the given increasing positions. */
  ghost predicate Selects<T>(all: seq<T>, at: seq<nat>, list: seq<T>) {
    && |at| == |list|
    && (forall k :: 0 <= k < |at| ==> at[k] < |all| && list[k] == all[at[k]])
    && (forall j, k :: 0 <= j < k < |at| ==> at[j] < at[k])
  }

  /** An element before all selected ones can be selected as well. */
  lemma SelectsAlso<T>(all: seq<T>, i: nat, at: seq<nat>, list: seq<T>)
    requires i < |all| && Selects(all, at, list) && forall k :: k in at ==> i < k
    ensures Selects(all, [i] + at, [all[i]] + list)
    ensures forall k :: k in [i] + at <==> k == i || k in at
  {
    var more := [i] + at;
    forall j, k | 0 <= j < k < |more| ensures more[j] < more[k] {
      assert more[k] == at[k - 1] && at[k - 1] in at;
      if j > 0 {
        assert more[j] == at[j - 1];
      }
    }
  }

  /** What is selected behind the first element is selected from the whole. */
  lemma SelectsLater<T>(all: seq<T>, at: seq<nat>, list: seq<T>) returns (moved: seq<nat>)
    requires all != [] && Selects(all[1..], at, list)
    ensures Selects(all, moved, list)
    ensures forall k: nat :: k in moved <==> k >= 1 && k - 1 in at
  {
    moved := seq(|at|, k requires 0 <= k < |at| => at[k] + 1);
    forall k | k in at ensures k + 1 in moved {
      var j :| 0 <= j < |at| && at[j] == k;
      assert moved[j] == k + 1;
    }
  }

  /** A product with a name of its own, for proofs that should not multiply out. */
  function Times(a: real, b: real): real {
    a * b
  }

  function Abs(x: real): real {
    if x < 0.0 then -x else x
  }

  /** The value, held inside the unit interval. */
  function Clamp(v: real): (r: real)
    ensures 0.0 <= r <= 1.0 && (0.0 <= v <= 1.0 ==> r == v)
  {
    if v < 0.0 then 0.0 else if v > 1.0 then 1.0 else v
  }

  /** No value of the unit interval is nearer. */
  lemma ClampIsNearest(v: real, w: real)
    requires 0.0 <= w <= 1.0
    ensures Abs(v - Clamp(v)) <= Abs(v - w)
  {
  }
}
