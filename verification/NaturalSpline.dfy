/** Natural cubic splines: the system of equations behind them and its solution. */
module NaturalSpline {

  datatype Knot = Knot(x: real, y: real)

  /** Abscissae strictly increase. */
  ghost predicate Increasing(k: seq<Knot>) {
    forall i, j :: 0 <= i < j < |k| ==> k[i].x < k[j].x
  }

  lemma {:induction false} StepsIncrease(k: seq<Knot>)
    requires forall i :: 0 < i < |k| ==> k[i - 1].x < k[i].x
    ensures Increasing(k)
  {
    if |k| > 1 {
      var n := |k| - 1;
      StepsIncrease(k[..n]);
      forall i | 0 <= i < n ensures k[i].x < k[n].x {
        assert k[..n][i].x <= k[..n][n - 1].x;
      }
      forall i, j | 0 <= i < j < |k| ensures k[i].x < k[j].x {
        if j < n {
          assert k[..n][i].x < k[..n][j].x;
        }
      }
    }
  }

  function Width(k: seq<Knot>, i: nat): (h: real)
    requires i + 1 < |k|
  {
    k[i + 1].x - k[i].x
  }

  /** The slope of the chord from knot i to knot i + 1. */
  function Chord(k: seq<Knot>, i: nat): real
    requires i + 1 < |k| && Width(k, i) != 0.0
  {
    (k[i + 1].y - k[i].y) / Width(k, i)
  }

  /** The share of the left interval at an interior knot. */
  function Share(k: seq<Knot>, i: nat): real
    requires 0 < i && i + 1 < |k| && k[i - 1].x < k[i + 1].x
  {
    (k[i].x - k[i - 1].x) / (k[i + 1].x - k[i - 1].x)
  }

  function Bend(k: seq<Knot>, i: nat): real
    requires 0 < i && i + 1 < |k| && k[i - 1].x < k[i].x < k[i + 1].x
  {
    6.0 * (Chord(k, i) - Chord(k, i - 1)) / (k[i + 1].x - k[i - 1].x)
  }

  /** The equation for the second derivatives at an interior knot. */
  ghost predicate Balanced(k: seq<Knot>, m: seq<real>, i: nat)
    requires |m| == |k| && 0 < i && i + 1 < |k| && k[i - 1].x < k[i].x < k[i + 1].x
  {
    Share(k, i) * m[i - 1] + 2.0 * m[i] + (1.0 - Share(k, i)) * m[i + 1] == Bend(k, i)
  }

  /** The second derivatives of the natural spline through the knots. */
  ghost predicate Natural(k: seq<Knot>, m: seq<real>)
    requires Increasing(k)
  {
    && |m| == |k| >= 2
    && m[0] == 0.0 && m[|m| - 1] == 0.0
    && forall i :: 0 < i < |k| - 1 ==> Balanced(k, m, i)
  }

  // -------------------------------------------------------------------------
  // Elimination
  // -------------------------------------------------------------------------

  lemma ShareIsFraction(k: seq<Knot>, i: nat)
    requires 0 < i && i + 1 < |k| && k[i - 1].x < k[i].x < k[i + 1].x
    ensures 0.0 < Share(k, i) < 1.0
  {
    Fraction(k[i].x - k[i - 1].x, k[i + 1].x - k[i - 1].x);
  }

  lemma Fraction(a: real, b: real)
    requires 0.0 < a < b
    ensures 0.0 < a / b < 1.0
  {
    var q := a / b;
    assert q * b == a;
    assert q * b == a;
    assert (1.0 - q) * b == b - a;
    if 1.0 - q <= 0.0 {
      NonPositive(1.0 - q, b);
      assert false;
    }
  }

  lemma NonPositive(x: real, b: real)
    requires x <= 0.0 && b > 0.0
    ensures x * b <= 0.0
  {
  }

  /** A pivot is greater than one, and the coefficient it gives stays in (-1, 0]. */
  lemma PivotStep(sig: real, c: real)
    requires 0.0 < sig < 1.0 && -1.0 < c <= 0.0
    ensures var p := sig * c + 2.0; p > 1.0 && -1.0 < (sig - 1.0) / p <= 0.0
  {
    var p := sig * c + 2.0;
    assert sig * c > -1.0 by {
      assert sig * c >= -sig by {
        assert sig * (c + 1.0) >= 0.0;
      }
    }
    assert p > 1.0;
    Fraction(1.0 - sig, p);
    assert (sig - 1.0) / p == -((1.0 - sig) / p);
  }

  /** The coefficients of the forward sweep. */
  function Coefficient(k: seq<Knot>, i: nat): (c: real)
    requires Increasing(k) && i + 1 < |k|
    ensures -1.0 < c <= 0.0
    decreases 2 * i + 1
  {
    if i == 0 then 0.0
    else
      ShareIsFraction(k, i);
      PivotStep(Share(k, i), Coefficient(k, i - 1));
      (Share(k, i) - 1.0) / Pivot(k, i)
  }

  function Pivot(k: seq<Knot>, i: nat): (p: real)
    requires Increasing(k) && 0 < i && i + 1 < |k|
    ensures p > 1.0
    decreases 2 * i
  {
    ShareIsFraction(k, i);
    PivotStep(Share(k, i), Coefficient(k, i - 1));
    Share(k, i) * Coefficient(k, i - 1) + 2.0
  }

  function Remainder(k: seq<Knot>, i: nat): real
    requires Increasing(k) && i + 1 < |k|
  {
    if i == 0 then 0.0 else (Bend(k, i) - Share(k, i) * Remainder(k, i - 1)) / Pivot(k, i)
  }

  /** What the back substitution gives at knot i, if it gives `next` one to the right. */
  ghost predicate Substituted(k: seq<Knot>, m: seq<real>, i: nat)
    requires Increasing(k) && |m| == |k| && i + 1 < |k|
  {
    m[i] == Coefficient(k, i) * m[i + 1] + Remainder(k, i)
  }

  lemma SubstitutedIsBalanced(k: seq<Knot>, m: seq<real>, i: nat)
    requires Increasing(k) && |m| == |k| && 0 < i && i + 1 < |k|
    requires Substituted(k, m, i - 1) && Substituted(k, m, i)
    ensures Balanced(k, m, i)
  {
    Eliminated(Share(k, i), Coefficient(k, i - 1), Remainder(k, i - 1), Pivot(k, i), Coefficient(k, i),
               Remainder(k, i), Bend(k, i),
               m[i - 1], m[i], m[i + 1]);
  }

  lemma Eliminated(sig: real, c0: real, u0: real, p: real, c: real, u: real, r: real, left: real, here: real,
                   right: real)
    requires p == sig * c0 + 2.0 && p > 1.0 && c == (sig - 1.0) / p && u == (r - sig * u0) / p
    requires left == c0 * here + u0 && here == c * right + u
    ensures sig * left + 2.0 * here + (1.0 - sig) * right == r
  {
    assert p * c == sig - 1.0;
    assert p * u == r - sig * u0;
    assert p * here == p * c * right + p * u;
    assert sig * left == sig * c0 * here + sig * u0;
  }

  lemma BalancedAt(k: seq<Knot>, m: seq<real>, i: nat)
    requires Increasing(k) && Natural(k, m) && 0 < i && i + 1 < |k|
    ensures Share(k, i) * m[i - 1] + 2.0 * m[i] + (1.0 - Share(k, i)) * m[i + 1] == Bend(k, i)
  {
    assert Balanced(k, m, i);
  }

  /** Conversely, a solution satisfies every equation of the back substitution. */
  lemma {:induction false} NaturalIsSubstituted(k: seq<Knot>, m: seq<real>, i: nat)
    requires Increasing(k) && Natural(k, m) && i + 1 < |k|
    ensures Substituted(k, m, i)
  {
    if i > 0 {
      NaturalIsSubstituted(k, m, i - 1);
      BalancedAt(k, m, i);
      Resolved(Share(k, i), Coefficient(k, i - 1), Remainder(k, i - 1), Pivot(k, i), Bend(k, i), m[i - 1], m[i],
               m[i + 1]);
    }
  }

  lemma Resolved(sig: real, c0: real, u0: real, p: real, r: real, left: real, here: real, right: real)
    requires p == sig * c0 + 2.0 && p > 1.0
    requires left == c0 * here + u0
    requires sig * left + 2.0 * here + (1.0 - sig) * right == r
    ensures here == (sig - 1.0) / p * right + (r - sig * u0) / p
  {
    Distributed(sig, c0, u0, here, right);
    assert sig * left == sig * (c0 * here + u0) && p * here == (sig * c0 + 2.0) * here;
    Divided(p, here, (sig - 1.0) * right, r - sig * u0);
    assert (sig - 1.0) * right / p == (sig - 1.0) / p * right;
  }

  lemma Distributed(sig: real, c0: real, u0: real, here: real, right: real)
    ensures sig * (c0 * here + u0) == sig * c0 * here + sig * u0
    ensures (sig * c0 + 2.0) * here == sig * c0 * here + 2.0 * here
    ensures (sig - 1.0) * right == -((1.0 - sig) * right)
  {
  }

  lemma Divided(p: real, here: real, a: real, b: real)
    requires p > 1.0 && p * here == a + b
    ensures here == a / p + b / p
  {
    assert here == (a + b) / p;
    assert (a + b) / p == a / p + b / p;
  }

  /** There is only one natural spline through the knots. */
  lemma {:induction false} NaturalIsUnique(k: seq<Knot>, m: seq<real>, n: seq<real>, i: nat)
    requires Increasing(k) && Natural(k, m) && Natural(k, n) && i < |k|
    ensures m[i] == n[i]
    decreases |k| - i
  {
    if i + 1 < |k| {
      NaturalIsUnique(k, m, n, i + 1);
      NaturalIsSubstituted(k, m, i);
      NaturalIsSubstituted(k, n, i);
    }
  }

  /** One step of the decomposition. */
  method Eliminate(k: seq<Knot>, i: nat, c0: real, u0: real) returns (c: real, u: real)
    requires Increasing(k) && 0 < i && i + 1 < |k| && c0 == Coefficient(k, i - 1) && u0 == Remainder(k, i - 1)
    ensures c == Coefficient(k, i) && u == Remainder(k, i)
  {
    var sig := (k[i].x - k[i - 1].x) / (k[i + 1].x - k[i - 1].x);
    var p := sig * c0 + 2.0;
    assert p == Pivot(k, i);
    c := (sig - 1.0) / p;
    u := (k[i + 1].y - k[i].y) / (k[i + 1].x - k[i].x) - (k[i].y - k[i - 1].y) / (k[i].x - k[i - 1].x);
    u := (6.0 * u / (k[i + 1].x - k[i - 1].x) - sig * u0) / p;
  }

  /** These are the results of the decomposition. */
  ghost predicate Swept(k: seq<Knot>, cs: seq<real>, us: seq<real>)
    requires Increasing(k)
  {
    && |cs| == |us| && |cs| < |k|
    && (forall i {:trigger cs[i]} :: 0 <= i < |cs| ==> cs[i] == Coefficient(k, i))
    && (forall i {:trigger us[i]} :: 0 <= i < |us| ==> us[i] == Remainder(k, i))
  }

  lemma {:induction false} SweptFurther(k: seq<Knot>, cs: seq<real>, us: seq<real>, c: real, u: real)
    requires Increasing(k) && Swept(k, cs, us) && |cs| + 1 < |k|
    requires c == Coefficient(k, |cs|) && u == Remainder(k, |us|)
    ensures Swept(k, cs + [c], us + [u])
  {
    var cs', us' := cs + [c], us + [u];
    forall i | 0 <= i < |cs'| ensures cs'[i] == Coefficient(k, i) && us'[i] == Remainder(k, i) {
      assert i == |cs| || (cs'[i] == cs[i] && us'[i] == us[i]);
    }
  }

  /** The first loop. */
  method ForwardSweep(k: seq<Knot>, ypp: array<real>, u: array<real>)
    requires |k| >= 2 && Increasing(k) && ypp != u && ypp.Length == |k| && u.Length == |k| - 1
    modifies ypp, u
    ensures Swept(k, ypp[..|k| - 1], u[..])
  {
    ypp[0], u[0] := 0.0, 0.0;
    ghost var cs, us := [0.0], [0.0];
    for i := 1 to |k| - 1
      invariant Swept(k, cs, us) && |cs| == i
      invariant ypp[..i] == cs && u[..i] == us
    {
      assert ypp[i - 1] == cs[i - 1] && u[i - 1] == us[i - 1];
      ypp[i], u[i] := Eliminate(k, i, ypp[i - 1], u[i - 1]);
      SweptFurther(k, cs, us, ypp[i], u[i]);
      cs, us := cs + [ypp[i]], us + [u[i]];
    }
    assert u[..] == u[..|k| - 1];
  }

  /** Both loops. */
  method Solve(k: seq<Knot>) returns (ypp: array<real>)
    requires |k| >= 2 && Increasing(k)
    ensures fresh(ypp) && ypp.Length == |k| && Natural(k, ypp[..])
  {
    var n := |k|;
    var u := new real[n - 1];
    ypp := new real[n];
    ForwardSweep(k, ypp, u);
    ghost var cs, us := ypp[..n - 1], u[..];
    BackSubstitute(ypp, u);
    SubstitutedIsNatural(k, cs, us, ypp[..]);
  }

  ghost predicate Chained(cs: seq<real>, us: seq<real>, m: seq<real>, j: int)
    requires |cs| == |us| == |m| - 1 && j >= 0
  {
    forall i {:trigger us[i]} :: j <= i < |cs| ==> m[i] == cs[i] * m[i + 1] + us[i]
  }

  lemma ChainedFurther(cs: seq<real>, us: seq<real>, m: seq<real>, n: seq<real>, j: nat)
    requires |cs| == |us| == |m| - 1 && |n| == |m| && j < |cs|
    requires Chained(cs, us, m, j + 1) && n[j] == cs[j] * m[j + 1] + us[j] && forall i :: j < i < |m| ==> n[i] == m[i]
    ensures Chained(cs, us, n, j)
  {
    forall i | j <= i < |cs| ensures n[i] == cs[i] * n[i + 1] + us[i] {
      assert i == j || m[i] == cs[i] * m[i + 1] + us[i];
    }
  }

  /** The second loop. */
  method BackSubstitute(ypp: array<real>, u: array<real>)
    requires ypp != u && ypp.Length == u.Length + 1 >= 2
    modifies ypp
    ensures ypp[u.Length] == 0.0
    ensures Chained(old(ypp[..u.Length]), u[..], ypp[..], 0)
  {
    ghost var cs, us := ypp[..u.Length], u[..];
    ypp[u.Length] := 0.0;
    var j := u.Length - 1;
    while j >= 0
      invariant -1 <= j < u.Length && u[..] == us
      invariant forall i :: 0 <= i <= j ==> ypp[i] == cs[i]
      invariant Chained(cs, us, ypp[..], j + 1)
      invariant ypp[u.Length] == 0.0
    {
      ghost var m := ypp[..];
      ypp[j] := ypp[j] * ypp[j + 1] + u[j];
      ChainedFurther(cs, us, m, ypp[..], j);
      j := j - 1;
    }
  }

  lemma SubstitutedIsNatural(k: seq<Knot>, cs: seq<real>, us: seq<real>, m: seq<real>)
    requires Increasing(k) && |m| == |k| >= 2 && m[|m| - 1] == 0.0
    requires Swept(k, cs, us) && |cs| == |k| - 1 && Chained(cs, us, m, 0)
    ensures Natural(k, m)
  {
    assert Coefficient(k, 0) == 0.0 && Remainder(k, 0) == 0.0;
    assert m[0] == cs[0] * m[1] + us[0];
    forall i | 0 < i < |k| - 1 ensures Balanced(k, m, i) {
      assert m[i - 1] == cs[i - 1] * m[i] + us[i - 1];
      assert m[i] == cs[i] * m[i + 1] + us[i];
      SubstitutedIsBalanced(k, m, i);
    }
  }

  // -------------------------------------------------------------------------
  // The curve between two knots
  // -------------------------------------------------------------------------

  /** The cubic on interval i, before it is clipped. */
  function Cubic(k: seq<Knot>, m: seq<real>, i: nat, x: real): real
    requires |m| == |k| && i + 1 < |k| && k[i].x < k[i + 1].x
  {
    var h := Width(k, i);
    Blend(k[i].y, k[i + 1].y, m[i], m[i + 1], h, (k[i + 1].x - x) / h, (x - k[i].x) / h)
  }

  function Blend(y0: real, y1: real, m0: real, m1: real, h: real, a: real, b: real): real {
    a * y0 + b * y1 + ((a * a * a - a) * m0 + (b * b * b - b) * m1) * (h * h) / 6.0
  }

  /** Its first derivative. */
  function Slope(k: seq<Knot>, m: seq<real>, i: nat, x: real): real
    requires |m| == |k| && i + 1 < |k| && k[i].x < k[i + 1].x
  {
    var h := Width(k, i);
    Tilt(Chord(k, i), m[i], m[i + 1], h, (k[i + 1].x - x) / h, (x - k[i].x) / h)
  }

  function Tilt(chord: real, m0: real, m1: real, h: real, a: real, b: real): real {
    chord + ((1.0 - 3.0 * a * a) * m0 + (3.0 * b * b - 1.0) * m1) * h / 6.0
  }

  /** Its second derivative: the values m at the knots, joined by a line. */
  function Curvature(k: seq<Knot>, m: seq<real>, i: nat, x: real): real
    requires |m| == |k| && i + 1 < |k| && k[i].x < k[i + 1].x
  {
    var h := Width(k, i);
    (k[i + 1].x - x) / h * m[i] + (x - k[i].x) / h * m[i + 1]
  }

  /** A cubic polynomial at distance e, from its value and its derivatives. */
  function Taylor(value: real, slope: real, curvature: real, third: real, e: real): real {
    value + e * slope + e * e * (curvature / 2.0 + e * third / 6.0)
  }

  /** Slope and Curvature are the derivatives of Cubic: the Taylor expansion at any x is exact. */
  lemma CubicExpands(k: seq<Knot>, m: seq<real>, i: nat, x: real, e: real)
    requires |m| == |k| && i + 1 < |k| && k[i].x < k[i + 1].x
    ensures Cubic(k, m, i, x + e)
         == Taylor(Cubic(k, m, i, x), Slope(k, m, i, x), Curvature(k, m, i, x), (m[i + 1] - m[i]) / Width(k, i), e)
  {
    var h := Width(k, i);
    Moved(k[i].x, k[i + 1].x, x, e, h);
    Restored(k[i].y, k[i + 1].y, h);
    Restored(m[i], m[i + 1], h);
    BlendMoves(k[i].y, k[i + 1].y, Chord(k, i), m[i], m[i + 1], (m[i + 1] - m[i]) / h, h, (k[i + 1].x - x) / h,
               (x - k[i].x) / h,
               (k[i + 1].x - (x + e)) / h, (x + e - k[i].x) / h, e / h, e);
  }

  lemma BlendMoves(y0: real, y1: real, chord: real, m0: real, m1: real, s: real, h: real, a: real, b: real,
                   a': real, b': real, t: real, e: real)
    requires y1 == y0 + chord * h && m1 == m0 + s * h && a' == a - t && b' == b + t && e == t * h
    ensures Blend(y0, y1, m0, m1, h, a', b')
         == Taylor(Blend(y0, y1, m0, m1, h, a, b), Tilt(chord, m0, m1, h, a, b), a * m0 + b * m1, s, e)
  {
    BlendExpands(y0, chord, m0, s, h, a, b, t);
    assert Blend(y0, y1, m0, m1, h, a', b') == Blend(y0, y0 + chord * h, m0, m0 + s * h, h, a - t, b + t);
  }

  lemma Moved(x0: real, x1: real, x: real, e: real, h: real)
    requires h > 0.0
    ensures (x1 - (x + e)) / h == (x1 - x) / h - e / h
    ensures (x + e - x0) / h == (x - x0) / h + e / h
    ensures e / h * h == e
  {
  }

  lemma Restored(u: real, v: real, h: real)
    requires h > 0.0
    ensures u + (v - u) / h * h == v
  {
  }

  lemma BlendExpands(y0: real, chord: real, m0: real, s: real, h: real, a: real, b: real, t: real)
    ensures Blend(y0, y0 + chord * h, m0, m0 + s * h, h, a - t, b + t)
         == Taylor(Blend(y0, y0 + chord * h, m0, m0 + s * h, h, a, b), Tilt(chord, m0, m0 + s * h, h, a, b),
                   a * m0 + b * (m0 + s * h), s, t * h)
  {
    var y1, m1 := y0 + chord * h, m0 + s * h;
    Identity(y0, chord, m0, s, h, a, b, t);
    assert Blend(y0, y1, m0, m1, h, a, b)
        == a * y0 + b * y1 + ((a * a * a - a) * m0 + (b * b * b - b) * m1) * (h * h) / 6.0;
    assert Tilt(chord, m0, m1, h, a, b) == chord + ((1.0 - 3.0 * a * a) * m0 + (3.0 * b * b - 1.0) * m1) * h / 6.0;
  }

  lemma Identity(y0: real, chord: real, m0: real, s: real, h: real, a: real, b: real, t: real)
    ensures (a - t) * y0 + (b + t) * (y0 + chord * h)
              + (((a - t) * (a - t) * (a - t) - (a - t)) * m0
                  + ((b + t) * (b + t) * (b + t) - (b + t)) * (m0 + s * h)) * (h * h) / 6.0
         == Taylor(a * y0 + b * (y0 + chord * h)
                     + ((a * a * a - a) * m0 + (b * b * b - b) * (m0 + s * h)) * (h * h) / 6.0,
                   chord + ((1.0 - 3.0 * a * a) * m0 + (3.0 * b * b - 1.0) * (m0 + s * h)) * h / 6.0,
                   a * m0 + b * (m0 + s * h), s, t * h)
  {
  }

  /** Each cubic passes through the knots at its ends. */
  lemma CubicMeetsKnots(k: seq<Knot>, m: seq<real>, i: nat)
    requires |m| == |k| && i + 1 < |k| && k[i].x < k[i + 1].x
    ensures Cubic(k, m, i, k[i].x) == k[i].y && Cubic(k, m, i, k[i + 1].x) == k[i + 1].y
  {
    var h := Width(k, i);
    assert h / h == 1.0 && 0.0 / h == 0.0;
    assert Blend(k[i].y, k[i + 1].y, m[i], m[i + 1], h, 1.0, 0.0) == k[i].y;
    assert Blend(k[i].y, k[i + 1].y, m[i], m[i + 1], h, 0.0, 1.0) == k[i + 1].y;
  }

  lemma SlopesAtKnots(k: seq<Knot>, m: seq<real>, i: nat)
    requires |m| == |k| && i + 1 < |k| && k[i].x < k[i + 1].x
    ensures Slope(k, m, i, k[i].x) == Chord(k, i) - (2.0 * m[i] + m[i + 1]) * Width(k, i) / 6.0
    ensures Slope(k, m, i, k[i + 1].x) == Chord(k, i) + (m[i] + 2.0 * m[i + 1]) * Width(k, i) / 6.0
  {
    var h := Width(k, i);
    assert h / h == 1.0 && 0.0 / h == 0.0;
  }

  /** The cubics on the two sides of an interior knot have the same slope there exactly if the
      equation of the knot holds. */
  lemma SmoothExactlyIfBalanced(k: seq<Knot>, m: seq<real>, i: nat)
    requires |m| == |k| && 0 < i && i + 1 < |k| && k[i - 1].x < k[i].x < k[i + 1].x
    ensures Slope(k, m, i - 1, k[i].x) == Slope(k, m, i, k[i].x) <==> Balanced(k, m, i)
  {
    SlopesAtKnots(k, m, i - 1);
    SlopesAtKnots(k, m, i);
    var h0, h1 := Width(k, i - 1), Width(k, i);
    var w := h0 + h1;
    var sig, r := Share(k, i), Bend(k, i);
    assert sig * w == h0 && (1.0 - sig) * w == h1;
    assert r * w == 6.0 * (Chord(k, i) - Chord(k, i - 1));
    BalanceScales(sig, w, h0, h1, r, Chord(k, i) - Chord(k, i - 1), m[i - 1], m[i], m[i + 1]);
  }

  lemma BalanceScales(sig: real, w: real, h0: real, h1: real, r: real, d: real, left: real, here: real, right: real)
    requires w > 0.0 && sig * w == h0 && (1.0 - sig) * w == h1 && r * w == 6.0 * d && h0 + h1 == w
    ensures sig * left + 2.0 * here + (1.0 - sig) * right == r
       <==> (left + 2.0 * here) * h0 / 6.0 + (2.0 * here + right) * h1 / 6.0 == d
  {
    var s := sig * left + 2.0 * here + (1.0 - sig) * right;
    assert s * w == left * h0 + 2.0 * here * w + right * h1;
    assert 2.0 * here * w == 2.0 * here * h0 + 2.0 * here * h1;
    assert (left + 2.0 * here) * h0 + (2.0 * here + right) * h1 == s * w;
    if s * w == r * w {
      assert (s - r) * w == 0.0;
    }
  }

  lemma CurvatureAtKnots(k: seq<Knot>, m: seq<real>, i: nat)
    requires |m| == |k| && i + 1 < |k| && k[i].x < k[i + 1].x
    ensures Curvature(k, m, i, k[i].x) == m[i] && Curvature(k, m, i, k[i + 1].x) == m[i + 1]
  {
    var h := Width(k, i);
    assert h / h == 1.0 && 0.0 / h == 0.0;
  }

  /** Value, slope and curvature continue across every interior knot, and the curvature is zero
      at both ends. */
  lemma NaturalIsSmooth(k: seq<Knot>, m: seq<real>, i: nat)
    requires Increasing(k) && Natural(k, m) && 0 < i && i + 1 < |k|
    ensures Cubic(k, m, i - 1, k[i].x) == k[i].y == Cubic(k, m, i, k[i].x)
    ensures Slope(k, m, i - 1, k[i].x) == Slope(k, m, i, k[i].x)
    ensures Curvature(k, m, i - 1, k[i].x) == Curvature(k, m, i, k[i].x)
    ensures Curvature(k, m, 0, k[0].x) == 0.0 == Curvature(k, m, |k| - 2, k[|k| - 1].x)
  {
    CubicMeetsKnots(k, m, i - 1);
    CubicMeetsKnots(k, m, i);
    SmoothExactlyIfBalanced(k, m, i);
    CurvatureAtKnots(k, m, i - 1);
    CurvatureAtKnots(k, m, i);
    CurvatureAtKnots(k, m, 0);
    CurvatureAtKnots(k, m, |k| - 2);
  }
}
