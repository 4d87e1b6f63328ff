/** The editable curve: knots, their circular extension and the evaluation. */
module SplineCurves {
  import opened Basics
  import opened NaturalSpline

  // -------------------------------------------------------------------------
  // Edits of the knot list
  // -------------------------------------------------------------------------

  /** The first knot to the right of x. */
  function RightOf(points: seq<Knot>, x: real): (i: nat)
    ensures i <= |points|
    ensures i < |points| ==> points[i].x > x
    ensures forall j :: 0 <= j < i ==> points[j].x <= x
  {
    if points == [] || points[0].x > x then 0 else RightOf(points[1..], x) + 1
  }

  function Added(points: seq<Knot>, x: real, y: real): seq<Knot> {
    points[..RightOf(points, x)] + [Knot(x, y)] + points[RightOf(points, x)..]
  }

  /** The first and the last knot stay. */
  predicate Removable(points: seq<Knot>, id: nat) {
    0 < id && id + 1 < |points|
  }

  function Removed(points: seq<Knot>, id: nat): seq<Knot> {
    if Removable(points, id) then points[..id] + points[id + 1..] else points
  }

  /** The abscissa that is really set: one that would change the order is not. */
  function Settled(points: seq<Knot>, id: nat, x: real): real
    requires id < |points|
  {
    var x1 := if id > 0 && Clamp(x) <= points[id - 1].x then points[id].x else Clamp(x);
    if id + 1 < |points| && x1 >= points[id + 1].x then points[id].x else x1
  }

  /** On a circular curve the ends at 0 and 1 share their ordinate. */
  function Synced(points: seq<Knot>, circular: bool, x: real, y: real): (r: seq<Knot>)
    ensures |r| == |points|
  {
    var n := |points|;
    if !circular || n <= 1 then points
    else
      var p := if x == 0.0 && points[n - 1].x == 1.0 then points[n - 1 := points[n - 1].(y := y)] else points;
      if x == 1.0 && p[0].x == 0.0 then p[0 := p[0].(y := y)] else p
  }

  function Placed(points: seq<Knot>, circular: bool, id: nat, x: real, y: real): seq<Knot> {
    if id >= |points| then points
    else
      var x1 := Settled(points, id, x);
      Synced(points[id := Knot(x1, Clamp(y))], circular, x1, Clamp(y))
  }

  datatype Edit = Add(x: real, y: real) | Remove(id: nat) | Set(id: nat, x: real, y: real)

  function Edited(points: seq<Knot>, circular: bool, e: Edit): seq<Knot> {
    match e
    case Add(x, y) => Added(points, x, y)
    case Remove(id) => Removed(points, id)
    case Set(id, x, y) => Placed(points, circular, id, x, y)
  }

  function RunEdits(points: seq<Knot>, circular: bool, edits: seq<Edit>): seq<Knot>
    decreases |edits|
  {
    if edits == [] then points else RunEdits(Edited(points, circular, edits[0]), circular, edits[1..])
  }

  /** Every new knot gets a new abscissa. */
  ghost predicate FreshAdds(points: seq<Knot>, circular: bool, edits: seq<Edit>)
    decreases |edits|
  {
    edits != [] ==>
      && (edits[0].Add? ==> NewAbscissa(points, edits[0].x))
      && FreshAdds(Edited(points, circular, edits[0]), circular, edits[1..])
  }

  ghost predicate NewAbscissa(points: seq<Knot>, x: real) {
    forall i :: 0 <= i < |points| ==> points[i].x != x
  }

  ghost predicate InUnit(points: seq<Knot>) {
    forall i :: 0 <= i < |points| ==> 0.0 <= points[i].x <= 1.0
  }

  /** An added knot keeps the order exactly if its abscissa is new. */
  lemma AddKeepsOrder(points: seq<Knot>, x: real, y: real)
    requires Increasing(points)
    ensures Increasing(Added(points, x, y)) <==> NewAbscissa(points, x)
  {
    var i, r := RightOf(points, x), Added(points, x, y);
    assert r[i] == Knot(x, y);
    if NewAbscissa(points, x) {
      forall a | 0 < a < |r| ensures r[a - 1].x < r[a].x {
        if a < i {
          assert r[a - 1] == points[a - 1] && r[a] == points[a];
        } else if a == i {
          assert r[a - 1] == points[a - 1];
        } else if a == i + 1 {
          assert r[a] == points[i];
        } else {
          assert r[a - 1] == points[a - 2] && r[a] == points[a - 1];
        }
      }
      StepsIncrease(r);
    }
    if Increasing(r) {
      forall j | 0 <= j < |points| ensures points[j].x != x {
        if j < i {
          assert r[j] == points[j];
        } else {
          assert r[j + 1] == points[j];
        }
      }
    }
  }

  lemma RemoveKeepsOrder(points: seq<Knot>, id: nat)
    requires Increasing(points)
    ensures Increasing(Removed(points, id))
    ensures points != [] ==> var r := Removed(points,
                                              id); |r| > 0 && r[0] == points[0] && r[|r| - 1] == points[|points| - 1]
  {
    if Removable(points, id) {
      var r := Removed(points, id);
      forall a | 0 < a < |r| ensures r[a - 1].x < r[a].x {
        var from, to := if a - 1 < id then a - 1 else a, if a < id then a else a + 1;
        assert r[a - 1] == points[from] && r[a] == points[to];
      }
      StepsIncrease(r);
    }
  }

  lemma SetKeepsOrder(points: seq<Knot>, circular: bool, id: nat, x: real, y: real)
    requires Increasing(points)
    ensures var r := Placed(points, circular, id, x, y);
            && |r| == |points| && Increasing(r)
            && (forall j :: 0 <= j < |points| && j != id ==> r[j].x == points[j].x)
            && (InUnit(points) ==> InUnit(r))
  {
    if id < |points| {
      var x1 := Settled(points, id, x);
      var p := points[id := Knot(x1, Clamp(y))];
      MovedKeepsOrder(points, id, x);
      SyncedKeepsOrder(p, circular, x1, Clamp(y));
    }
  }

  lemma MovedKeepsOrder(points: seq<Knot>, id: nat, x: real)
    requires Increasing(points) && id < |points|
    ensures forall v :: var r := points[id := Knot(Settled(points, id, x), v)];
                        Increasing(r) && (InUnit(points) ==> InUnit(r))
  {
    var x1 := Settled(points, id, x);
    assert id > 0 ==> points[id - 1].x < x1;
    assert id + 1 < |points| ==> x1 < points[id + 1].x;
    forall v
      ensures Increasing(points[id := Knot(x1, v)])
      ensures InUnit(points) ==> InUnit(points[id := Knot(x1, v)])
    {
      var p := points[id := Knot(x1, v)];
      forall a | 0 < a < |p| ensures p[a - 1].x < p[a].x {
        assert points[a - 1].x < points[a].x;
      }
      StepsIncrease(p);
    }
  }

  lemma SyncedKeepsOrder(p: seq<Knot>, circular: bool, x: real, y: real)
    requires Increasing(p)
    ensures var r := Synced(p, circular, x, y);
            && (forall j :: 0 <= j < |p| ==> r[j].x == p[j].x)
            && Increasing(r) && (InUnit(p) ==> InUnit(r))
  {
  }

  /** The new knot comes in at its place, and the others keep theirs. */
  lemma {:induction false} AddPutsOneKnot(points: seq<Knot>, x: real, y: real)
    ensures var r, i := Added(points, x, y), RightOf(points, x);
            && |r| == |points| + 1 && r[i] == Knot(x, y)
            && forall j :: 0 <= j < |points| ==> r[if j < i then j else j + 1] == points[j]
  {
  }

  /** Exactly one knot goes; the first and the last stay whatever is asked for. */
  lemma RemoveTakesOneKnot(points: seq<Knot>, id: nat)
    ensures var r := Removed(points, id);
            if 0 < id < |points| - 1 then
              && |r| == |points| - 1
              && forall j :: 0 <= j < |r| ==> r[j] == points[if j < id then j else j + 1]
            else r == points
  {
    if 0 < id < |points| - 1 {
      var r := points[..id] + points[id + 1..];
      forall j | 0 <= j < |r| ensures r[j] == points[if j < id then j else j + 1] {
      }
    }
  }

  /** The knot moves to the clamped place, but not sideways beyond a neighbour.  No other knot moves but
      the opposite end of a circular curve, which takes the same height. */
  lemma SetMovesOneKnot(points: seq<Knot>, circular: bool, id: nat, x: real, y: real)
    requires Increasing(points) && id < |points|
    ensures var r, n := Placed(points, circular, id, x, y), |points|;
            var free := (id > 0 ==> points[id - 1].x < Clamp(x)) && (id < n - 1 ==> Clamp(x) < points[id + 1].x);
            && |r| == n
            && r[id] == Knot(if free then Clamp(x) else points[id].x, Clamp(y))
            && forall j :: 0 <= j < n && j != id ==>
                 var tied := circular && ((j == n - 1 && r[id].x == 0.0 && points[j].x == 1.0)
                                          || (j == 0 && r[id].x == 1.0 && points[j].x == 0.0));
                 r[j] == if tied then Knot(points[j].x, Clamp(y)) else points[j]
  {
    assert id > 0 ==> points[id - 1].x < points[id].x;
    assert id + 1 < |points| ==> points[id].x < points[id + 1].x;
  }

  /** Over every run of edits the abscissae strictly increase. */
  lemma {:induction false} EditsKeepOrder(points: seq<Knot>, circular: bool, edits: seq<Edit>)
    requires Increasing(points) && FreshAdds(points, circular, edits)
    ensures Increasing(RunEdits(points, circular, edits))
    decreases |edits|
  {
    if edits != [] {
      match edits[0] {
        case Add(x, y) => AddKeepsOrder(points, x, y);
        case Remove(id) => RemoveKeepsOrder(points, id);
        case Set(id, x, y) => SetKeepsOrder(points, circular, id, x, y);
      }
      EditsKeepOrder(Edited(points, circular, edits[0]), circular, edits[1..]);
    }
  }

  // -------------------------------------------------------------------------
  // The circular extension
  // -------------------------------------------------------------------------

  function Shift(k: Knot, d: real): Knot {
    Knot(k.x + d, k.y)
  }

  predicate Overlaps(points: seq<Knot>)
    requires |points| >= 2
  {
    points[0].x == points[|points| - 1].x - 1.0
  }

  /** Two knots of the neighbouring periods on each side. */
  function Extended(points: seq<Knot>): (r: seq<Knot>)
    requires |points| >= 2
    ensures |r| >= 2
  {
    var n := |points|;
    if Overlaps(points) && n < 3 then points
    else if Overlaps(points) then
      [Shift(points[n - 3], -1.0), Shift(points[n - 2], -1.0)] + points + [Shift(points[1], 1.0), Shift(points[2], 1.0)]
    else
      [Shift(points[n - 2], -1.0), Shift(points[n - 1], -1.0)] + points + [Shift(points[0], 1.0), Shift(points[1], 1.0)]
  }

  lemma ExtendedSteps(points: seq<Knot>)
    requires |points| >= 2 && Increasing(points) && points[|points| - 1].x - points[0].x <= 1.0
    ensures Increasing(Extended(points))
  {
    var n := |points|;
    if Overlaps(points) && n < 3 {
    } else if Overlaps(points) {
      Flanked(points, Shift(points[n - 3], -1.0), Shift(points[n - 2], -1.0), Shift(points[1], 1.0),
              Shift(points[2], 1.0));
    } else {
      Flanked(points, Shift(points[n - 2], -1.0), Shift(points[n - 1], -1.0), Shift(points[0], 1.0),
              Shift(points[1], 1.0));
    }
  }

  lemma Flanked(points: seq<Knot>, a: Knot, b: Knot, c: Knot, d: Knot)
    requires points != [] && Increasing(points)
    requires a.x < b.x < points[0].x && points[|points| - 1].x < c.x < d.x
    ensures Increasing([a, b] + points + [c, d])
  {
    var r, n := [a, b] + points + [c, d], |points|;
    assert r[2..n + 2] == points;
    forall j | 0 < j < |r| ensures r[j - 1].x < r[j].x {
      if 2 <= j < n + 2 {
        assert r[j] == points[j - 2];
      }
      if 2 <= j - 1 < n + 2 {
        assert r[j - 1] == points[j - 3];
      }
    }
    StepsIncrease(r);
  }

  /** The extension is in order exactly if the knots fit into one period. */
  lemma ExtendedInOrder(points: seq<Knot>)
    requires |points| >= 2 && Increasing(points)
    ensures Increasing(Extended(points)) <==> points[|points| - 1].x - points[0].x <= 1.0
  {
    var n := |points|;
    if points[n - 1].x - points[0].x <= 1.0 {
      ExtendedSteps(points);
    } else {
      var r := Extended(points);
      assert r[1] == Shift(points[n - 1], -1.0) && r[2] == points[0];
    }
  }

  /** With knots in [0, 1] it reaches over the whole interval. */
  lemma ExtendedSpans(points: seq<Knot>)
    requires |points| >= 2 && Increasing(points) && InUnit(points)
    ensures var r := Extended(points); Increasing(r) && r[0].x <= 0.0 && r[|r| - 1].x >= 1.0
    ensures |points| >= 3 || !Overlaps(points) ==> var r := Extended(points); r[0].x < 0.0 && r[|r| - 1].x > 1.0
  {
    ExtendedInOrder(points);
    var n := |points|;
    assert points[0].x < points[1].x && points[n - 2].x < points[n - 1].x;
  }

  function Period(points: seq<Knot>): nat
    requires |points| >= 2
  {
    if Overlaps(points) then |points| - 1 else |points|
  }

  /** Knot j of the periodic continuation of the curve. */
  function Periodic(points: seq<Knot>, j: int): Knot
    requires |points| >= 2
    decreases j < 0, if j < 0 then -j else j
  {
    if j < 0 then Shift(Periodic(points, j + Period(points)), -1.0)
    else if j >= Period(points) then Shift(Periodic(points, j - Period(points)), 1.0)
    else points[j]
  }

  lemma PeriodicNear(points: seq<Knot>, j: int)
    requires |points| >= 2
    ensures 0 <= j < Period(points) ==> Periodic(points, j) == points[j]
    ensures -(Period(points) as int) <= j < 0 ==> Periodic(points, j) == Shift(points[j + Period(points)], -1.0)
    ensures Period(points) <= j < 2 * Period(points) ==> Periodic(points, j) == Shift(points[j - Period(points)], 1.0)
  {
  }

  /** The extension is the window of the periodic continuation from knot -2 on; on an overlapping
      curve this takes equal ordinates at both ends. */
  lemma {:induction false} ExtendedIsPeriodic(points: seq<Knot>, j: nat)
    requires |points| >= 2 && (Overlaps(points) ==> |points| >= 3 && points[0].y == points[|points| - 1].y)
    requires j < |Extended(points)|
    ensures Extended(points)[j] == Periodic(points, j - 2)
  {
    var n, r, m := |points|, Extended(points), Period(points);
    PeriodicNear(points, j - 2);
    if 2 <= j < n + 2 {
      assert r[j] == points[j - 2];
    } else if j == n + 3 && n == 3 && Overlaps(points) {
      PeriodicNear(points, j - 2 - m);
      assert Periodic(points, j - 2) == Shift(Periodic(points, j - 2 - m), 1.0);
    } else if j < 2 {
      assert r[j] == Periodic(points, j - 2);
    }
  }

  // -------------------------------------------------------------------------
  // Evaluation
  // -------------------------------------------------------------------------

  function Line(p: Knot, q: Knot, x: real): real
    requires p.x < q.x
  {
    p.y + (x - p.x) * (q.y - p.y) / (q.x - p.x)
  }

  /** r is the value of the curve at x: constant outside the knots, and between two knots the
      line or the clamped cubic. */
  ghost predicate ValueAt(k: seq<Knot>, m: seq<real>, x: real, r: real)
    requires |m| == |k| >= 2 && Increasing(k)
  {
    if x <= k[0].x then r == k[0].y
    else if x >= k[|k| - 1].x then r == k[|k| - 1].y
    else exists i :: 0 <= i < |k| - 1 && k[i].x <= x < k[i + 1].x
                     && r == if |k| == 2 then Line(k[i], k[i + 1], x) else Clamp(Cubic(k, m, i, x))
  }

  lemma OneInterval(k: seq<Knot>, x: real, i: nat, j: nat)
    requires Increasing(k) && i + 1 < |k| && j + 1 < |k|
    requires k[i].x <= x < k[i + 1].x && k[j].x <= x < k[j + 1].x
    ensures i <= j
  {
  }

  /** There is one value at each x. */
  lemma ValueIsUnique(k: seq<Knot>, m: seq<real>, x: real, r: real, s: real)
    requires |m| == |k| >= 2 && Increasing(k) && ValueAt(k, m, x, r) && ValueAt(k, m, x, s)
    ensures r == s
  {
    if k[0].x < x < k[|k| - 1].x {
      var i :| 0 <= i < |k| - 1 && k[i].x <= x < k[i + 1].x && r == if |k| == 2 then Line(k[i], k[i + 1], x)
          else Clamp(Cubic(k, m, i, x));
      var j :| 0 <= j < |k| - 1 && k[j].x <= x < k[j + 1].x && s == if |k| == 2 then Line(k[j], k[j + 1], x)
          else Clamp(Cubic(k, m, j, x));
      OneInterval(k, x, i, j);
      OneInterval(k, x, j, i);
    }
  }

  /** The curve passes through every knot with an ordinate in [0, 1]. */
  lemma PassesThroughKnots(k: seq<Knot>, m: seq<real>, j: nat, r: real)
    requires |m| == |k| >= 2 && Increasing(k) && j < |k| && 0.0 <= k[j].y <= 1.0
    requires ValueAt(k, m, k[j].x, r)
    ensures r == k[j].y
  {
    if 0 < j < |k| - 1 {
      CubicMeetsKnots(k, m, j);
      assert ValueAt(k, m, k[j].x, k[j].y) by {
        assert k[j].x <= k[j].x < k[j + 1].x && k[j].y == Clamp(Cubic(k, m, j, k[j].x));
      }
      ValueIsUnique(k, m, k[j].x, r, k[j].y);
    }
  }

  /** With two knots the values lie on the straight line through both. */
  lemma TwoKnotsAreALine(k: seq<Knot>, m: seq<real>, x: real, r: real)
    requires |m| == |k| == 2 && Increasing(k) && k[0].x <= x <= k[1].x && ValueAt(k, m, x, r)
    ensures (r - k[0].y) * (k[1].x - k[0].x) == (x - k[0].x) * (k[1].y - k[0].y)
  {
    if k[0].x < x < k[1].x {
      Undivided((x - k[0].x) * (k[1].y - k[0].y), k[1].x - k[0].x);
    }
  }

  lemma Undivided(a: real, b: real)
    requires b != 0.0
    ensures a / b * b == a
  {
  }

  /** The curve that every new object starts with is the identity. */
  lemma DefaultIsIdentity(m: seq<real>, x: real, r: real)
    requires |m| == 2 && 0.0 <= x <= 1.0 && ValueAt([Knot(0.0, 0.0), Knot(1.0, 1.0)], m, x, r)
    ensures r == x
  {
    TwoKnotsAreALine([Knot(0.0, 0.0), Knot(1.0, 1.0)], m, x, r);
  }

  lemma LineStaysInside(p: Knot, q: Knot, x: real)
    requires p.x <= x < q.x && 0.0 <= p.y <= 1.0 && 0.0 <= q.y <= 1.0
    ensures 0.0 <= Line(p, q, x) <= 1.0
  {
    var t := (x - p.x) / (q.x - p.x);
    Ratio(x - p.x, q.x - p.x);
    Scaled(x - p.x, q.y - p.y, q.x - p.x);
    Between(p.y, q.y, t);
  }

  lemma Scaled(a: real, b: real, c: real)
    requires c > 0.0
    ensures a * b / c == a / c * b
  {
  }

  lemma Ratio(a: real, b: real)
    requires 0.0 <= a < b
    ensures 0.0 <= a / b < 1.0
  {
    if a > 0.0 {
      Fraction(a, b);
    }
  }

  lemma Weighted(u: real, v: real, t: real, w: real)
    requires w == 1.0 - t
    ensures u + t * (v - u) == w * u + t * v
  {
  }

  lemma Portion(t: real, u: real)
    requires 0.0 <= t && 0.0 <= u <= 1.0
    ensures 0.0 <= t * u && t * u <= t
  {
    assert t * (1.0 - u) >= 0.0;
  }

  lemma Sum(a: real, b: real, w: real, t: real, r: real)
    requires 0.0 <= a <= w && 0.0 <= b <= t && w + t == 1.0 && r == a + b
    ensures 0.0 <= r <= 1.0
  {
  }

  lemma Between(u: real, v: real, t: real)
    requires 0.0 <= t <= 1.0 && 0.0 <= u <= 1.0 && 0.0 <= v <= 1.0
    ensures 0.0 <= u + t * (v - u) <= 1.0
  {
    var w := 1.0 - t;
    Portion(w, u);
    Portion(t, v);
    Weighted(u, v, t, w);
    Sum(w * u, t * v, w, t, u + t * (v - u));
  }

  /** With all ordinates in [0, 1] so is every value. */
  lemma ValueStaysInside(k: seq<Knot>, m: seq<real>, x: real, r: real)
    requires |m| == |k| >= 2 && Increasing(k) && ValueAt(k, m, x, r)
    requires forall i :: 0 <= i < |k| ==> 0.0 <= k[i].y <= 1.0
    ensures 0.0 <= r <= 1.0
  {
    if k[0].x < x < k[|k| - 1].x && |k| == 2 {
      LineStaysInside(k[0], k[1], x);
    }
  }

  // -------------------------------------------------------------------------
  // The curve object
  // -------------------------------------------------------------------------

  /** A curve of the colour management system is applied to both coordinates. */
  function Mapped(points: seq<Knot>, curve: real -> real): (r: seq<Knot>)
    ensures |r| == |points|
  {
    seq(|points|, i requires 0 <= i < |points| => Knot(curve(points[i].x), curve(points[i].y)))
  }

  function Tabulated(points: seq<Knot>, circular: bool, linear: bool, curve: real -> real): (r: seq<Knot>)
    requires |points| >= 2
    ensures |r| >= 2
  {
    if circular then Extended(points) else if linear then Mapped(points, curve) else points
  }

  ghost predicate Rising(f: real -> real) {
    forall a, b :: a < b ==> f(a) < f(b)
  }

  lemma TabulatedInOrder(points: seq<Knot>, circular: bool, linear: bool, curve: real -> real)
    requires |points| >= 2 && Increasing(points) && (circular ==> InUnit(points)) && Rising(curve)
    ensures Increasing(Tabulated(points, circular, linear, curve))
  {
    if circular {
      ExtendedSpans(points);
    }
  }

  class SplineCurve {
    var points: seq<Knot>
    var points2: seq<Knot>
    var ypp: array<real>
    var circular: bool
    var linear: bool
    const curve: real -> real

    /** The tabulated knots belong to a natural spline that is ready to be evaluated. */
    ghost predicate Valid()
      reads this, ypp
    {
      && Increasing(points) && (circular ==> InUnit(points)) && Rising(curve)
      && |points2| >= 2 && Increasing(points2) && Natural(points2, ypp[..])
    }

    /** The tabulated knots are those of the current points. */
    ghost predicate Current()
      reads this
    {
      |points| >= 2 ==> points2 == Tabulated(points, circular, linear, curve)
    }

    constructor (c: real -> real)
      requires Rising(c)
      ensures Valid() && Current() && points == [Knot(0.0, 0.0), Knot(1.0, 1.0)] && !circular && !linear && curve == c
    {
      curve := c;
      points, points2 := [Knot(0.0, 0.0), Knot(1.0, 1.0)], [Knot(0.0, 0.0), Knot(1.0, 1.0)];
      circular, linear := false, false;
      var solved := Solve([Knot(0.0, 0.0), Knot(1.0, 1.0)]);
      ypp := solved;
    }

    static method Extend(points: seq<Knot>) returns (r: seq<Knot>)
      requires |points| >= 2
      ensures r == Extended(points)
    {
      var n := |points|;
      var overlap := points[0].x == points[n - 1].x - 1.0;
      if overlap && n < 3 {
        return points;
      }
      if overlap {
        r := [points[n - 3], points[n - 2]];
      } else {
        r := [points[n - 2], points[n - 1]];
      }
      r := [Shift(r[0], -1.0), Shift(r[1], -1.0)] + points;
      var after := if overlap then [points[1], points[2]] else [points[0], points[1]];
      r := r + [Shift(after[0], 1.0), Shift(after[1], 1.0)];
    }

    static method Tabulate(points: seq<Knot>, circular: bool, linear: bool, curve: real -> real) returns (r: seq<Knot>)
      requires |points| >= 2
      ensures r == Tabulated(points, circular, linear, curve)
    {
      if circular {
        r := Extend(points);
      } else {
        r := points;
        if linear {
          for i := 0 to |r|
            invariant |r| == |points|
            invariant forall j :: 0 <= j < i ==> r[j] == Knot(curve(points[j].x), curve(points[j].y))
            invariant forall j :: i <= j < |points| ==> r[j] == points[j]
          {
            r := r[i := Knot(curve(r[i].x), curve(r[i].y))];
          }
        }
      }
    }

    method UpdateSpline()
      requires Increasing(points) && (circular ==> InUnit(points)) && Rising(curve)
      requires |points| < 2 ==> Valid()
      modifies this`points2, this`ypp
      ensures Valid() && Current()
      ensures |points| < 2 ==> points2 == old(points2) && ypp == old(ypp)
      ensures |points| >= 2 && circular ==> points2 == Extended(points)
      ensures |points| >= 2 && !circular && !linear ==> points2 == points
      ensures |points| >= 2 && !circular && linear ==>
                && |points2| == |points|
                && forall i :: 0 <= i < |points| ==> points2[i] == Knot(curve(points[i].x), curve(points[i].y))
    {
      if |points| < 2 {
        return;
      }
      TabulatedInOrder(points, circular, linear, curve);
      points2 := Tabulate(points, circular, linear, curve);
      ypp := Solve(points2);
    }

    static method Insert(points: seq<Knot>, x: real, y: real) returns (r: seq<Knot>, index: nat)
      ensures r == Added(points, x, y) && index == RightOf(points, x)
    {
      assert points[0..] == points;
      for i := 0 to |points|
        invariant i + RightOf(points[i..], x) == RightOf(points, x)
      {
        assert points[i..][1..] == points[i + 1..];
        if points[i].x > x {
          return points[..i] + [Knot(x, y)] + points[i..], i;
        }
      }
      assert points[..|points|] == points && points[|points|..] == [];
      return points + [Knot(x, y)], |points|;
    }

    method AddPoint(x: real, y: real) returns (index: nat)
      requires Valid() && NewAbscissa(points, x) && (circular ==> 0.0 <= x <= 1.0)
      modifies this
      ensures Valid() && Current() && circular == old(circular) && linear == old(linear)
      ensures points == Edited(old(points), circular, Add(x, y))
      ensures index == RightOf(old(points), x) && points[index] == Knot(x, y)
    {
      AddKeepsOrder(points, x, y);
      points, index := Insert(points, x, y);
      UpdateSpline();
    }

    method RemovePoint(id: nat) returns (done: bool)
      requires Valid() && points != []
      modifies this
      ensures Valid() && circular == old(circular) && linear == old(linear)
      ensures points == Edited(old(points), circular, Remove(id))
      ensures done == Removable(old(points), id) && (done ==> Current())
      ensures !done ==> points2 == old(points2) && ypp == old(ypp)
    {
      if id == 0 || id >= |points| - 1 {
        return false;
      }
      RemoveKeepsOrder(points, id);
      points := points[..id] + points[id + 1..];
      UpdateSpline();
      return true;
    }

    static method Place(points: seq<Knot>, circular: bool, id: nat, x0: real, y0: real) returns (r: seq<Knot>,
                        x: real, y: real)
      requires id < |points|
      ensures r == Placed(points, circular, id, x0, y0) && x == Settled(points, id, x0) && y == Clamp(y0)
    {
      r, x, y := points, x0, y0;
      if x < 0.0 { x := 0.0; }
      if y < 0.0 { y := 0.0; }
      if x > 1.0 { x := 1.0; }
      if y > 1.0 { y := 1.0; }
      if id > 0 && x <= r[id - 1].x { x := r[id].x; }
      if id < |r| - 1 && x >= r[id + 1].x { x := r[id].x; }
      r := r[id := Knot(x, y)];
      var n := |r|;
      if circular && n > 1 {
        if x == 0.0 && r[n - 1].x == 1.0 {
          r := r[n - 1 := r[n - 1].(y := r[id].y)];
        }
        if x == 1.0 && r[0].x == 0.0 {
          r := r[0 := r[0].(y := r[id].y)];
        }
      }
    }

    method SetPoint(id: nat, x0: real, y0: real) returns (done: bool, x: real, y: real)
      requires Valid()
      modifies this
      ensures Valid() && circular == old(circular) && linear == old(linear)
      ensures points == Edited(old(points), circular, Set(id, x0, y0))
      ensures done == (id < |old(points)|) && (done ==> Current())
      ensures done ==> x == Settled(old(points), id, x0) && y == Clamp(y0)
    {
      if id >= |points| {
        return false, x0, y0;
      }
      SetKeepsOrder(points, circular, id, x0, y0);
      points, x, y := Place(points, circular, id, x0, y0);
      UpdateSpline();
      done := true;
    }

    /** The binary search for the interval. */
    static method Bracket(k: seq<Knot>, x: real) returns (lo: nat, hi: nat)
      requires |k| >= 2 && k[0].x < x < k[|k| - 1].x
      ensures hi == lo + 1 < |k| && k[lo].x <= x < k[hi].x
    {
      lo, hi := 0, |k| - 1;
      while hi - lo > 1
        invariant 0 <= lo < hi < |k|
        invariant k[lo].x <= x < k[hi].x
      {
        var mid := (hi + lo) / 2;
        if k[mid].x > x {
          hi := mid;
        } else {
          lo := mid;
        }
      }
    }

    static method CubicValue(p: Knot, q: Knot, m0: real, m1: real, x: real) returns (r: real)
      requires p.x < q.x
      ensures r == Blend(p.y, q.y, m0, m1, q.x - p.x, (q.x - x) / (q.x - p.x), (x - p.x) / (q.x - p.x))
    {
      var h := q.x - p.x;
      var a, b := (q.x - x) / h, (x - p.x) / h;
      var r1, r2 := a * p.y, b * q.y;
      var r3, r4 := (a * a * a - a) * m0, (b * b * b - b) * m1;
      r := r1 + r2 + (r3 + r4) * (h * h) / 6.0;
    }

    method GetValue(x: real) returns (r: real)
      requires Valid()
      ensures ValueAt(points2, ypp[..], x, r)
    {
      var n := |points2|;
      if x <= points2[0].x { return points2[0].y; }
      if x >= points2[n - 1].x { return points2[n - 1].y; }
      var lo, hi := Bracket(points2, x);
      var p, q := points2[lo], points2[hi];
      if n == 2 {
        r := p.y + (x - p.x) * (q.y - p.y) / (q.x - p.x);
      } else {
        r := CubicValue(p, q, ypp[lo], ypp[hi], x);
        r := Clamp(r);
      }
    }
  }
}
