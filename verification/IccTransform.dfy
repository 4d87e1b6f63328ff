/** The fast path of colour transforms: linear RGB to linear RGB through one 3 by 3 matrix. */
module IccTransforms {
  import opened Basics

  datatype Vec = Vec(x: real, y: real, z: real)

  /** A matrix by rows. */
  datatype Matrix = Matrix(r0: Vec, r1: Vec, r2: Vec)

  const ONE := Matrix(Vec(1.0, 0.0, 0.0), Vec(0.0, 1.0, 0.0), Vec(0.0, 0.0, 1.0))

  function Dot(a0: real, a1: real, a2: real, b0: real, b1: real, b2: real): real {
    a0 * b0 + a1 * b1 + a2 * b2
  }

  function RowBy(r: Vec, v: Vec): real {
    Dot(r.x, r.y, r.z, v.x, v.y, v.z)
  }

  function Apply(m: Matrix, v: Vec): Vec {
    Vec(RowBy(m.r0, v), RowBy(m.r1, v), RowBy(m.r2, v))
  }

  function Transposed(m: Matrix): Matrix {
    Matrix(Vec(m.r0.x, m.r1.x, m.r2.x), Vec(m.r0.y, m.r1.y, m.r2.y), Vec(m.r0.z, m.r1.z, m.r2.z))
  }

  function Mul(a: Matrix, b: Matrix): Matrix {
    var t := Transposed(b);
    Matrix(Apply(t, a.r0), Apply(t, a.r1), Apply(t, a.r2))
  }

  function Minor(a: real, b: real, c: real, d: real): real {
    a * d - b * c
  }

  function Cross(u: Vec, v: Vec): Vec {
    Vec(Minor(u.y, u.z, v.y, v.z), Minor(u.z, u.x, v.z, v.x), Minor(u.x, u.y, v.x, v.y))
  }

  /** The determinant, as the volume spanned by the rows. */
  function Det(m: Matrix): real {
    RowBy(Cross(m.r1, m.r2), m.r0)
  }

  const EPSILON := 0.0000001

  predicate Invertible(m: Matrix) {
    Det(m) >= EPSILON || Det(m) <= -EPSILON
  }

  /** The transposed cofactors: its columns are the cross products of the rows. */
  function Adjugate(m: Matrix): Matrix {
    Transposed(Matrix(Cross(m.r1, m.r2), Cross(m.r2, m.r0), Cross(m.r0, m.r1)))
  }

  function ScaleVec(s: real, v: Vec): Vec {
    Vec(Times(s, v.x), Times(s, v.y), Times(s, v.z))
  }

  function Scale(s: real, m: Matrix): Matrix {
    Matrix(ScaleVec(s, m.r0), ScaleVec(s, m.r1), ScaleVec(s, m.r2))
  }

  function Inverse(m: Matrix): Matrix
    requires Det(m) != 0.0
  {
    Scale(1.0 / Det(m), Adjugate(m))
  }

  // -------------------------------------------------------------------------
  // Laws
  // -------------------------------------------------------------------------

  lemma CrossIsNormal(u: Vec, v: Vec)
    ensures RowBy(Cross(u, v), u) == 0.0 && RowBy(Cross(u, v), v) == 0.0
  {
    Normal(u.x, u.y, u.z, v.x, v.y, v.z);
  }

  lemma Normal(a: real, b: real, c: real, d: real, e: real, f: real)
    ensures Dot(Minor(b, c, e, f), Minor(c, a, f, d), Minor(a, b, d, e), a, b, c) == 0.0
    ensures Dot(Minor(b, c, e, f), Minor(c, a, f, d), Minor(a, b, d, e), d, e, f) == 0.0
  {
    var p, q, r := Minor(b, c, e, f), Minor(c, a, f, d), Minor(a, b, d, e);
    assert Dot(p, q, r, a, b, c) == Dot(b * f - c * e, c * d - a * f, a * e - b * d, a, b, c);
    assert Dot(p, q, r, d, e, f) == Dot(b * f - c * e, c * d - a * f, a * e - b * d, d, e, f);
  }

  lemma DetCycles(u: Vec, v: Vec, w: Vec)
    ensures RowBy(Cross(u, v), w) == RowBy(Cross(v, w), u)
  {
    Cycles(u.x, u.y, u.z, v.x, v.y, v.z, w.x, w.y, w.z);
  }

  lemma Cycles(a: real, b: real, c: real, d: real, e: real, f: real, g: real, h: real, i: real)
    ensures Dot(Minor(b, c, e, f), Minor(c, a, f, d), Minor(a, b, d, e), g, h, i)
         == Dot(Minor(e, f, h, i), Minor(f, d, i, g), Minor(d, e, g, h), a, b, c)
  {
    assert Dot(Minor(b, c, e, f), Minor(c, a, f, d), Minor(a, b, d, e), g, h, i)
        == Dot(b * f - c * e, c * d - a * f, a * e - b * d, g, h, i);
    Volume(a, b, c, d, e, f, g, h, i);
  }

  /** The determinant written out. */
  lemma Volume(a: real, b: real, c: real, d: real, e: real, f: real, g: real, h: real, i: real)
    ensures Dot(Minor(e, f, h, i), Minor(f, d, i, g), Minor(d, e, g, h), a, b, c)
         == a * (i * e - h * f) - d * (i * b - h * c) + g * (f * b - e * c)
  {
    assert Dot(Minor(e, f, h, i), Minor(f, d, i, g), Minor(d, e, g, h), a, b, c)
        == Dot(e * i - f * h, f * g - d * i, d * h - e * g, a, b, c);
  }

  lemma AdjugateRight(m: Matrix)
    ensures Mul(m, Adjugate(m)) == Scale(Det(m), ONE)
  {
    assert Transposed(Adjugate(m)) == Matrix(Cross(m.r1, m.r2), Cross(m.r2, m.r0), Cross(m.r0, m.r1));
    DetCycles(m.r0, m.r1, m.r2);
    DetCycles(m.r1, m.r2, m.r0);
    CrossIsNormal(m.r0, m.r1);
    CrossIsNormal(m.r1, m.r2);
    CrossIsNormal(m.r2, m.r0);
    ScaledOne(Det(m));
  }

  /** A column of a matrix by a row of its adjugate: here p, q, r is the column that was left out
      of the minors. */
  lemma ColumnExpands(p: real, q: real, r: real, a: real, b: real, c: real, d: real, e: real, f: real)
    ensures Dot(p, q, r, Minor(b, e, c, f), Minor(c, f, a, d), Minor(a, d, b, e))
         == p * (b * f - e * c) + q * (c * d - f * a) + r * (a * e - d * b)
    ensures Dot(a, b, c, Minor(b, e, c, f), Minor(c, f, a, d), Minor(a, d, b, e)) == 0.0
    ensures Dot(d, e, f, Minor(b, e, c, f), Minor(c, f, a, d), Minor(a, d, b, e)) == 0.0
  {
    var x, y, z := b * f - e * c, c * d - f * a, a * e - d * b;
    assert Dot(p, q, r, Minor(b, e, c, f), Minor(c, f, a, d), Minor(a, d, b, e)) == Dot(p, q, r, x, y, z);
    assert Dot(a, b, c, Minor(b, e, c, f), Minor(c, f, a, d), Minor(a, d, b, e)) == Dot(a, b, c, x, y, z);
    assert Dot(d, e, f, Minor(b, e, c, f), Minor(c, f, a, d), Minor(a, d, b, e)) == Dot(d, e, f, x, y, z);
    assert Dot(a, b, c, b * f - e * c, c * d - f * a, a * e - d * b) == 0.0;
    assert Dot(d, e, f, b * f - e * c, c * d - f * a, a * e - d * b) == 0.0;
  }

  lemma AdjugateRow0(m: Matrix)
    ensures Apply(Transposed(m), Adjugate(m).r0) == Vec(Det(m), 0.0, 0.0)
  {
    ColumnExpands(m.r0.x, m.r1.x, m.r2.x, m.r0.y, m.r1.y, m.r2.y, m.r0.z, m.r1.z, m.r2.z);
    Volume(m.r0.x, m.r0.y, m.r0.z, m.r1.x, m.r1.y, m.r1.z, m.r2.x, m.r2.y, m.r2.z);
  }

  lemma AdjugateRow1(m: Matrix)
    ensures Apply(Transposed(m), Adjugate(m).r1) == Vec(0.0, Det(m), 0.0)
  {
    ColumnExpands(m.r0.y, m.r1.y, m.r2.y, m.r0.z, m.r1.z, m.r2.z, m.r0.x, m.r1.x, m.r2.x);
    Volume(m.r0.x, m.r0.y, m.r0.z, m.r1.x, m.r1.y, m.r1.z, m.r2.x, m.r2.y, m.r2.z);
  }

  lemma AdjugateRow2(m: Matrix)
    ensures Apply(Transposed(m), Adjugate(m).r2) == Vec(0.0, 0.0, Det(m))
  {
    ColumnExpands(m.r0.z, m.r1.z, m.r2.z, m.r0.x, m.r1.x, m.r2.x, m.r0.y, m.r1.y, m.r2.y);
    Volume(m.r0.x, m.r0.y, m.r0.z, m.r1.x, m.r1.y, m.r1.z, m.r2.x, m.r2.y, m.r2.z);
  }

  lemma AdjugateLeft(m: Matrix)
    ensures Mul(Adjugate(m), m) == Scale(Det(m), ONE)
  {
    AdjugateRow0(m);
    AdjugateRow1(m);
    AdjugateRow2(m);
    ScaledOne(Det(m));
  }

  lemma ScaledOne(d: real)
    ensures Scale(d, ONE) == Matrix(Vec(d, 0.0, 0.0), Vec(0.0, d, 0.0), Vec(0.0, 0.0, d))
  {
    assert Times(d, 1.0) == d && Times(d, 0.0) == 0.0;
  }

  lemma RowBySwaps(m: Matrix, v: Vec)
    ensures RowBy(m.r0, v) == RowBy(v, m.r0) && RowBy(m.r1, v) == RowBy(v, m.r1) && RowBy(m.r2, v) == RowBy(v, m.r2)
  {
  }

  lemma MulTransposes(a: Matrix, b: Matrix)
    ensures Mul(Transposed(b), Transposed(a)) == Transposed(Mul(a, b))
  {
    var t := Transposed(b);
    assert Transposed(Transposed(a)) == a;
    RowBySwaps(a, t.r0);
    RowBySwaps(a, t.r1);
    RowBySwaps(a, t.r2);
  }

  lemma DotScales(s: real, a: real, b: real, c: real, x: real, y: real, z: real)
    ensures Dot(a, b, c, Times(s, x), Times(s, y), Times(s, z)) == Times(s, Dot(a, b, c, x, y, z))
         == Dot(Times(s, a), Times(s, b), Times(s, c), x, y, z)
  {
    assert a * (s * x) + b * (s * y) + c * (s * z) == s * (a * x + b * y + c * z)
           == (s * a) * x + (s * b) * y + (s * c) * z;
    assert Dot(a, b, c, Times(s, x), Times(s, y), Times(s, z)) == Dot(a, b, c, s * x, s * y, s * z);
    assert Dot(Times(s, a), Times(s, b), Times(s, c), x, y, z) == Dot(s * a, s * b, s * c, x, y, z);
    assert Times(s, Dot(a, b, c, x, y, z)) == Times(s, a * x + b * y + c * z);
  }

  lemma ApplyScales(s: real, t: Matrix, v: Vec)
    ensures Apply(t, ScaleVec(s, v)) == ScaleVec(s, Apply(t, v)) == Apply(Scale(s, t), v)
  {
    DotScales(s, t.r0.x, t.r0.y, t.r0.z, v.x, v.y, v.z);
    DotScales(s, t.r1.x, t.r1.y, t.r1.z, v.x, v.y, v.z);
    DotScales(s, t.r2.x, t.r2.y, t.r2.z, v.x, v.y, v.z);
  }

  lemma ScaledLeft(s: real, a: Matrix, b: Matrix)
    ensures Mul(Scale(s, a), b) == Scale(s, Mul(a, b))
  {
    var t := Transposed(b);
    ApplyScales(s, t, a.r0);
    ApplyScales(s, t, a.r1);
    ApplyScales(s, t, a.r2);
  }

  lemma ScaledRight(s: real, a: Matrix, b: Matrix)
    ensures Mul(a, Scale(s, b)) == Scale(s, Mul(a, b))
  {
    var t := Transposed(b);
    assert Transposed(Scale(s, b)) == Scale(s, t);
    ApplyScales(s, t, a.r0);
    ApplyScales(s, t, a.r1);
    ApplyScales(s, t, a.r2);
  }

  /** The inverse works from both sides. */
  lemma InverseIsTwoSided(m: Matrix)
    requires Det(m) != 0.0
    ensures Mul(m, Inverse(m)) == ONE == Mul(Inverse(m), m)
  {
    var d := Det(m);
    ScaledLeft(1.0 / d, Adjugate(m), m);
    ScaledRight(1.0 / d, m, Adjugate(m));
    AdjugateLeft(m);
    AdjugateRight(m);
    ScaledOne(d);
    assert Times(1.0 / d, d) == 1.0 && Times(1.0 / d, 0.0) == 0.0;
  }

  lemma Associative(a: Vec, b: Matrix, v: Vec)
    ensures RowBy(Apply(Transposed(b), a), v) == RowBy(a, Apply(b, v))
  {
    DotAssociates(a.x, a.y, a.z, b.r0.x, b.r0.y, b.r0.z, b.r1.x, b.r1.y, b.r1.z, b.r2.x, b.r2.y, b.r2.z, v.x, v.y, v.z);
  }

  lemma DotAssociates(a: real, b: real, c: real, p: real, q: real, r: real, s: real, t: real, u: real, k: real,
                      l: real, m: real,
                      x: real, y: real, z: real)
    ensures Dot(Dot(p, s, k, a, b, c), Dot(q, t, l, a, b, c), Dot(r, u, m, a, b, c), x, y, z)
         == Dot(a, b, c, Dot(p, q, r, x, y, z), Dot(s, t, u, x, y, z), Dot(k, l, m, x, y, z))
  {
    assert Dot(Dot(p, s, k, a, b, c), Dot(q, t, l, a, b, c), Dot(r, u, m, a, b, c), x, y, z)
        == Dot(p * a + s * b + k * c, q * a + t * b + l * c, r * a + u * b + m * c, x, y, z);
    assert Dot(a, b, c, Dot(p, q, r, x, y, z), Dot(s, t, u, x, y, z), Dot(k, l, m, x, y, z))
        == Dot(a, b, c, p * x + q * y + r * z, s * x + t * y + u * z, k * x + l * y + m * z);
    assert Dot(p * a + s * b + k * c, q * a + t * b + l * c, r * a + u * b + m * c, x, y, z)
        == Dot(a, b, c, p * x + q * y + r * z, s * x + t * y + u * z, k * x + l * y + m * z);
  }

  /** A product applied is one factor applied after the other. */
  lemma MulApplies(a: Matrix, b: Matrix, v: Vec)
    ensures Apply(Mul(a, b), v) == Apply(a, Apply(b, v))
  {
    Associative(a.r0, b, v);
    Associative(a.r1, b, v);
    Associative(a.r2, b, v);
  }

  lemma MulIsAssociative(a: Matrix, b: Matrix, c: Matrix)
    ensures Mul(Mul(a, b), c) == Mul(a, Mul(b, c))
  {
    var t, u := Transposed(c), Transposed(b);
    MulTransposes(b, c);
    assert Transposed(Mul(b, c)) == Mul(t, u);
    MulApplies(t, u, a.r0);
    MulApplies(t, u, a.r1);
    MulApplies(t, u, a.r2);
  }

  lemma OneIsNeutral(m: Matrix)
    ensures Mul(ONE, m) == m == Mul(m, ONE)
  {
  }

  // -------------------------------------------------------------------------
  // Transforms
  // -------------------------------------------------------------------------

  /** The matrix of a profile: the colorants are its columns. */
  function ProfileMatrix(colorants: seq<real>): Matrix
    requires |colorants| == 9
  {
    Matrix(Vec(colorants[0], colorants[3], colorants[6]),
           Vec(colorants[1], colorants[4], colorants[7]),
           Vec(colorants[2], colorants[5], colorants[8]))
  }

  /** The colour of a primary is its triple of the colorants, and that of a pixel the sum of its parts of
      the three. */
  lemma PrimariesAreColorants(colorants: seq<real>, v: Vec)
    requires |colorants| == 9
    ensures var m := ProfileMatrix(colorants);
            && Apply(m, Vec(1.0, 0.0, 0.0)) == Vec(colorants[0], colorants[1], colorants[2])
            && Apply(m, Vec(0.0, 1.0, 0.0)) == Vec(colorants[3], colorants[4], colorants[5])
            && Apply(m, Vec(0.0, 0.0, 1.0)) == Vec(colorants[6], colorants[7], colorants[8])
            && Apply(m, v).x == v.x * colorants[0] + v.y * colorants[3] + v.z * colorants[6]
            && Apply(m, v).y == v.x * colorants[1] + v.y * colorants[4] + v.z * colorants[7]
            && Apply(m, v).z == v.x * colorants[2] + v.y * colorants[5] + v.z * colorants[8]
  {
  }

  /** From one RGB space over XYZ to another one. */
  function Conversion(from: Matrix, to: Matrix): Matrix
    requires Det(to) != 0.0
  {
    Mul(Inverse(to), from)
  }

  /** Going over a third space makes no difference. */
  lemma ConversionsCompose(a: Matrix, b: Matrix, c: Matrix, v: Vec)
    requires Det(b) != 0.0 && Det(c) != 0.0
    ensures Mul(Conversion(b, c), Conversion(a, b)) == Conversion(a, c)
    ensures Apply(Conversion(b, c), Apply(Conversion(a, b), v)) == Apply(Conversion(a, c), v)
  {
    var ic, ib := Inverse(c), Inverse(b);
    MulIsAssociative(ic, b, Mul(ib, a));
    MulIsAssociative(b, ib, a);
    InverseIsTwoSided(b);
    OneIsNeutral(a);
    MulApplies(Conversion(b, c), Conversion(a, b), v);
  }

  /** There and back again gives every pixel back. */
  lemma ConversionRoundTrip(a: Matrix, b: Matrix, v: Vec)
    requires Det(a) != 0.0 && Det(b) != 0.0
    ensures Apply(Conversion(b, a), Apply(Conversion(a, b), v)) == v
  {
    ConversionsCompose(a, b, a, v);
    InverseIsTwoSided(a);
    assert Apply(ONE, v) == v;
  }

  /** Both spaces describe the same colour: its XYZ values do not change. */
  lemma ConversionKeepsColor(a: Matrix, b: Matrix, v: Vec)
    requires Det(b) != 0.0
    ensures Apply(b, Apply(Conversion(a, b), v)) == Apply(a, v)
  {
    var ib := Inverse(b);
    MulApplies(b, Conversion(a, b), v);
    MulIsAssociative(b, ib, a);
    InverseIsTwoSided(b);
    OneIsNeutral(a);
  }

  // -------------------------------------------------------------------------
  // The transform object
  // -------------------------------------------------------------------------

  function MatrixOf(a: array2<real>): Matrix
    requires a.Length0 == 3 && a.Length1 == 3
    reads a
  {
    Matrix(Vec(a[0, 0], a[0, 1], a[0, 2]), Vec(a[1, 0], a[1, 1], a[1, 2]), Vec(a[2, 0], a[2, 1], a[2, 2]))
  }

  /** Inverts a matrix, unless its determinant is too small. */
  method Mat3Inv(dst: array2<real>, src: array2<real>) returns (failed: bool)
    requires dst != src && dst.Length0 == 3 && dst.Length1 == 3 && src.Length0 == 3 && src.Length1 == 3
    modifies dst
    ensures failed == !Invertible(MatrixOf(src)) == (Abs(Det(MatrixOf(src))) < 0.0000001)
    ensures MatrixOf(src) == old(MatrixOf(src))
    ensures !failed ==> MatrixOf(dst) == Inverse(MatrixOf(src))
    ensures failed ==> MatrixOf(dst) == old(MatrixOf(dst))
  {
    var m := MatrixOf(src);
    var det := Determinant(m);
    if Abs(det) < EPSILON {
      return true;
    }
    var b := Inverted(m, 1.0 / det);
    dst[0, 0], dst[0, 1], dst[0, 2] := b.r0.x, b.r0.y, b.r0.z;
    dst[1, 0], dst[1, 1], dst[1, 2] := b.r1.x, b.r1.y, b.r1.z;
    dst[2, 0], dst[2, 1], dst[2, 2] := b.r2.x, b.r2.y, b.r2.z;
    return false;
  }

  method Determinant(m: Matrix) returns (det: real)
    ensures det == Det(m)
  {
    det := m.r0.x * (m.r2.z * m.r1.y - m.r2.y * m.r1.z)
         - m.r1.x * (m.r2.z * m.r0.y - m.r2.y * m.r0.z)
         + m.r2.x * (m.r1.z * m.r0.y - m.r1.y * m.r0.z);
    Volume(m.r0.x, m.r0.y, m.r0.z, m.r1.x, m.r1.y, m.r1.z, m.r2.x, m.r2.y, m.r2.z);
  }

  /** The two ways of writing a 2 by 2 minor, with either sign. */
  lemma MinorTimes(s: real, a: real, b: real, c: real, d: real)
    ensures s * (d * a - c * b) == Times(s, Minor(a, b, c, d))
    ensures -s * (d * a - c * b) == Times(s, Minor(c, d, a, b)) == Times(s, Minor(b, a, d, c))
  {
    assert Times(s, Minor(a, b, c, d)) == Times(s, a * d - b * c);
    assert Times(s, Minor(c, d, a, b)) == Times(s, c * b - d * a);
    assert Times(s, Minor(b, a, d, c)) == Times(s, b * c - a * d);
  }

  lemma InverseRow0(m: Matrix, inv: real)
    ensures ScaleVec(inv, Adjugate(m).r0)
         == Vec(inv * (m.r2.z * m.r1.y - m.r2.y * m.r1.z), -inv * (m.r2.z * m.r0.y - m.r2.y * m.r0.z),
                inv * (m.r1.z * m.r0.y - m.r1.y * m.r0.z))
  {
    MinorTimes(inv, m.r1.y, m.r1.z, m.r2.y, m.r2.z);
    MinorTimes(inv, m.r0.y, m.r0.z, m.r2.y, m.r2.z);
    MinorTimes(inv, m.r0.y, m.r0.z, m.r1.y, m.r1.z);
  }

  lemma InverseRow1(m: Matrix, inv: real)
    ensures ScaleVec(inv, Adjugate(m).r1)
         == Vec(-inv * (m.r2.z * m.r1.x - m.r2.x * m.r1.z), inv * (m.r2.z * m.r0.x - m.r2.x * m.r0.z),
                -inv * (m.r1.z * m.r0.x - m.r1.x * m.r0.z))
  {
    MinorTimes(inv, m.r1.x, m.r1.z, m.r2.x, m.r2.z);
    MinorTimes(inv, m.r0.x, m.r0.z, m.r2.x, m.r2.z);
    MinorTimes(inv, m.r0.x, m.r0.z, m.r1.x, m.r1.z);
  }

  lemma InverseRow2(m: Matrix, inv: real)
    ensures ScaleVec(inv, Adjugate(m).r2)
         == Vec(inv * (m.r2.y * m.r1.x - m.r2.x * m.r1.y), -inv * (m.r2.y * m.r0.x - m.r2.x * m.r0.y),
                inv * (m.r1.y * m.r0.x - m.r1.x * m.r0.y))
  {
    MinorTimes(inv, m.r1.x, m.r1.y, m.r2.x, m.r2.y);
    MinorTimes(inv, m.r0.x, m.r0.y, m.r2.x, m.r2.y);
    MinorTimes(inv, m.r0.x, m.r0.y, m.r1.x, m.r1.y);
  }

  method Inverted(m: Matrix, inv: real) returns (b: Matrix)
    requires Det(m) != 0.0 && inv == 1.0 / Det(m)
    ensures b == Inverse(m)
  {
    var b0 := Vec(inv * (m.r2.z * m.r1.y - m.r2.y * m.r1.z),
                  -inv * (m.r2.z * m.r0.y - m.r2.y * m.r0.z),
                  inv * (m.r1.z * m.r0.y - m.r1.y * m.r0.z));
    var b1 := Vec(-inv * (m.r2.z * m.r1.x - m.r2.x * m.r1.z),
                  inv * (m.r2.z * m.r0.x - m.r2.x * m.r0.z),
                  -inv * (m.r1.z * m.r0.x - m.r1.x * m.r0.z));
    var b2 := Vec(inv * (m.r2.y * m.r1.x - m.r2.x * m.r1.y),
                  -inv * (m.r2.y * m.r0.x - m.r2.x * m.r0.y),
                  inv * (m.r1.y * m.r0.x - m.r1.x * m.r0.y));
    InverseRow0(m, inv);
    InverseRow1(m, inv);
    InverseRow2(m, inv);
    b := Matrix(b0, b1, b2);
  }

  class ICCTransform {
    const rgb2rgb: array2<real>
    var isRgb2rgb: bool

    constructor ()
      ensures fresh(rgb2rgb) && rgb2rgb.Length0 == 3 && rgb2rgb.Length1 == 3 && !isRgb2rgb
    {
      rgb2rgb := new real[3, 3];
      isRgb2rgb := false;
    }

    /** Reads the colorants of a profile, column by column. */
    static method ReadColorants(colorants: seq<real>) returns (m: array2<real>)
      requires |colorants| == 9
      ensures fresh(m) && m.Length0 == 3 && m.Length1 == 3 && MatrixOf(m) == ProfileMatrix(colorants)
    {
      m := new real[3, 3];
      for i := 0 to 3
        invariant forall c, r :: 0 <= c < i && 0 <= r < 3 ==> m[r, c] == colorants[3 * c + r]
      {
        for j := 0 to 3
          invariant forall c, r :: 0 <= c < i && 0 <= r < 3 ==> m[r, c] == colorants[3 * c + r]
          invariant forall r :: 0 <= r < j ==> m[r, i] == colorants[3 * i + r]
        {
          m[j, i] := colorants[3 * i + j];
        }
      }
    }

    /** The triple loop of the product. */
    static method Multiply(dst: array2<real>, a: array2<real>, b: array2<real>)
      requires dst != a && dst != b
      requires dst.Length0 == 3 && dst.Length1 == 3 && a.Length0 == 3 && a.Length1 == 3 && b.Length0 == 3
               && b.Length1 == 3
      modifies dst
      ensures MatrixOf(dst) == old(Mul(MatrixOf(a), MatrixOf(b)))
    {
      ghost var A, B := MatrixOf(a), MatrixOf(b);
      for i := 0 to 3
        invariant forall r, c :: 0 <= r < i && 0 <= c < 3 ==> dst[r, c] == Sum(A, B, r, c, 3)
      {
        for j := 0 to 3
          invariant forall r, c :: 0 <= r < i && 0 <= c < 3 ==> dst[r, c] == Sum(A, B, r, c, 3)
          invariant forall c :: 0 <= c < j ==> dst[i, c] == Sum(A, B, i, c, 3)
        {
          dst[i, j] := 0.0;
          for k := 0 to 3
            invariant dst[i, j] == Sum(A, B, i, j, k)
            invariant forall r, c :: 0 <= r < i && 0 <= c < 3 ==> dst[r, c] == Sum(A, B, r, c, 3)
            invariant forall c :: 0 <= c < j ==> dst[i, c] == Sum(A, B, i, c, 3)
          {
            assert a[i, k] == At(A, i, k) && b[k, j] == At(B, k, j);
            dst[i, j] := dst[i, j] + a[i, k] * b[k, j];
          }
        }
      }
      SumsAreProduct(A, B);
    }

    /** The matrix of the fast path, from the colorants of the two profiles. */
    method Init(inColorants: seq<real>, outColorants: seq<real>)
      requires |inColorants| == 9 && |outColorants| == 9 && rgb2rgb.Length0 == 3 && rgb2rgb.Length1 == 3
      modifies this, rgb2rgb
      ensures isRgb2rgb
      ensures var from, to := ProfileMatrix(inColorants), ProfileMatrix(outColorants);
              Invertible(to) ==> MatrixOf(rgb2rgb) == Conversion(from, to)
    {
      var rgb2xyz := ReadColorants(inColorants);
      var rgb2xyz2 := ReadColorants(outColorants);
      var xyz2rgb := new real[3, 3];
      var _ := Mat3Inv(xyz2rgb, rgb2xyz2);
      Multiply(rgb2rgb, xyz2rgb, rgb2xyz);
      isRgb2rgb := true;
    }

    /** Converts n pixels; the output may be the input. */
    method ApplyTo(input: array<real>, output: array<real>, n: nat)
      requires rgb2rgb.Length0 == 3 && rgb2rgb.Length1 == 3 && isRgb2rgb
      requires 3 * n <= input.Length && 3 * n <= output.Length
      modifies output
      ensures forall i :: 0 <= i < n ==> PixelOf(output[..], i) == Apply(MatrixOf(rgb2rgb), PixelOf(old(input[..]), i))
      ensures forall k :: 3 * n <= k < output.Length ==> output[k] == old(output[k])
    {
      ghost var was := input[..];
      for i := 0 to n
        invariant forall j :: 0 <= j < i ==> PixelOf(output[..], j) == Apply(MatrixOf(rgb2rgb), PixelOf(was, j))
        invariant forall k :: 3 * i <= k < input.Length ==> input[k] == was[k]
        invariant forall k :: 3 * n <= k < output.Length ==> output[k] == old(output[k])
      {
        var r, g, b := input[3 * i], input[3 * i + 1], input[3 * i + 2];
        ghost var before := output[..];
        output[3 * i] := rgb2rgb[0, 0] * r + rgb2rgb[0, 1] * g + rgb2rgb[0, 2] * b;
        output[3 * i + 1] := rgb2rgb[1, 0] * r + rgb2rgb[1, 1] * g + rgb2rgb[1, 2] * b;
        output[3 * i + 2] := rgb2rgb[2, 0] * r + rgb2rgb[2, 1] * g + rgb2rgb[2, 2] * b;
        assert PixelOf(output[..], i) == Apply(MatrixOf(rgb2rgb), PixelOf(was, i));
        forall j | 0 <= j < i ensures PixelOf(output[..], j) == Apply(MatrixOf(rgb2rgb), PixelOf(was, j)) {
          assert PixelOf(output[..], j) == PixelOf(before, j);
        }
      }
    }
  }

  function PixelOf(s: seq<real>, i: nat): Vec
    requires 3 * i + 2 < |s|
  {
    Vec(s[3 * i], s[3 * i + 1], s[3 * i + 2])
  }

  function At(m: Matrix, i: nat, j: nat): real {
    var row := if i == 0 then m.r0 else if i == 1 then m.r1 else m.r2;
    if j == 0 then row.x else if j == 1 then row.y else row.z
  }

  function Sum(a: Matrix, b: Matrix, i: nat, j: nat, n: nat): real {
    if n == 0 then 0.0 else Sum(a, b, i, j, n - 1) + At(a, i, n - 1) * At(b, n - 1, j)
  }

  lemma {:induction false} SumIs(a: Matrix, b: Matrix, i: nat, j: nat)
    ensures Sum(a, b, i, j, 3) == At(a, i, 0) * At(b, 0, j) + At(a, i, 1) * At(b, 1, j) + At(a, i, 2) * At(b, 2, j)
  {
    assert Sum(a, b, i, j, 1) == At(a, i, 0) * At(b, 0, j);
    assert Sum(a, b, i, j, 2) == Sum(a, b, i, j, 1) + At(a, i, 1) * At(b, 1, j);
  }

  lemma {:induction false} SumRow(a: Matrix, b: Matrix, i: nat)
    requires i < 3
    ensures Vec(Sum(a, b, i, 0, 3), Sum(a, b, i, 1, 3), Sum(a, b, i, 2, 3))
         == Apply(Transposed(b), if i == 0 then a.r0 else if i == 1 then a.r1 else a.r2)
  {
    SumIs(a, b, i, 0);
    SumIs(a, b, i, 1);
    SumIs(a, b, i, 2);
  }

  lemma {:induction false} SumsAreProduct(a: Matrix, b: Matrix)
    ensures Mul(a, b) == Matrix(Vec(Sum(a, b, 0, 0, 3), Sum(a, b, 0, 1, 3), Sum(a, b, 0, 2, 3)),
                                Vec(Sum(a, b, 1, 0, 3), Sum(a, b, 1, 1, 3), Sum(a, b, 1, 2, 3)),
                                Vec(Sum(a, b, 2, 0, 3), Sum(a, b, 2, 1, 3), Sum(a, b, 2, 2, 3)))
  {
    SumRow(a, b, 0);
    SumRow(a, b, 1);
    SumRow(a, b, 2);
  }
}
