/** Conversions between RGB, HSV and HSL, over exact numbers. */
module ColorConversions {
  import opened Basics

  datatype Rgb = Rgb(r: real, g: real, b: real)

  datatype Hsv = Hsv(h: real, s: real, v: real)

  datatype Hsl = Hsl(h: real, s: real, l: real)

  function Min3(a: real, b: real, c: real): real {
    if a <= b && a <= c then a else if b <= c then b else c
  }

  function Max3(a: real, b: real, c: real): real {
    if a >= b && a >= c then a else if b >= c then b else c
  }

  /** The hue in degrees; c is the difference of the largest and the smallest component. */
  function Hue(p: Rgb, max: real, c: real): real
    requires c != 0.0
  {
    var h := 60.0 * (if p.r == max then (p.g - p.b) / c
                     else if p.g == max then (p.b - p.r) / c + 2.0
                     else (p.r - p.g) / c + 4.0);
    if h < 0.0 then h + 360.0 else h
  }

  /** Black is the only colour of the cube with no largest component. */
  function Rgb2Hsv(p: Rgb): Hsv
    requires Max3(p.r, p.g, p.b) == 0.0 ==> Min3(p.r, p.g, p.b) == 0.0
  {
    var min, max := Min3(p.r, p.g, p.b), Max3(p.r, p.g, p.b);
    var c := max - min;
    if c == 0.0 then Hsv(0.0, 0.0, max) else Hsv(Hue(p, max, c), c / max, max)
  }

  function Hsv2Rgb(c: Hsv): Rgb {
    if c.s == 0.0 then Rgb(c.v, c.v, c.v) else Hsv2RgbAt(c.v, c.s, c.h / 60.0)
  }

  function Hsv2RgbAt(v: real, s: real, sect: real): Rgb {
    var i := sect.Floor;
    var f := sect - i as real;
    var p, q, t := v * (1.0 - s), v * (1.0 - s * f), v * (1.0 - s * (1.0 - f));
    InSextant(i, v, p, q, t)
  }

  function InSextant(i: int, v: real, p: real, q: real, t: real): Rgb {
    if i == 0 then Rgb(v, t, p)
    else if i == 1 then Rgb(q, v, p)
    else if i == 2 then Rgb(p, v, t)
    else if i == 3 then Rgb(p, q, v)
    else if i == 4 then Rgb(t, p, v)
    else Rgb(v, p, q)
  }

  /** The remainder by two, for numbers that are not negative. */
  function Mod2(x: real): real {
    x - 2.0 * (x / 2.0).Floor as real
  }

  /** The second conversion from HSV, through the chroma. */
  function Hsv2Rgb2(c: Hsv): Rgb {
    if c.s == 0.0 then Rgb(c.v, c.v, c.v)
    else
      var chroma := Times(c.s, c.v);
      var hdash := c.h / 60.0;
      var x := Times(chroma, 1.0 - Abs(Mod2(hdash) - 1.0));
      Raised(Sextant(hdash.Floor, chroma, x), c.v - chroma)
  }

  function Sextant(i: int, chroma: real, x: real): Rgb {
    if i == 0 then Rgb(chroma, x, 0.0)
    else if i == 1 then Rgb(x, chroma, 0.0)
    else if i == 2 then Rgb(0.0, chroma, x)
    else if i == 3 then Rgb(0.0, x, chroma)
    else if i == 4 then Rgb(x, 0.0, chroma)
    else Rgb(chroma, 0.0, x)
  }

  function Raised(p: Rgb, min: real): Rgb {
    Rgb(Clamp(p.r + min), Clamp(p.g + min), Clamp(p.b + min))
  }

  function Rgb2Hsl(p: Rgb): Hsl
    requires var min, max := Min3(p.r, p.g, p.b), Max3(p.r, p.g, p.b);
             max + min == 0.0 || max + min == 2.0 ==> min == max
  {
    var min, max := Min3(p.r, p.g, p.b), Max3(p.r, p.g, p.b);
    var sum, delta := max + min, max - min;
    var l := sum / 2.0;
    if delta == 0.0 then Hsl(0.0, 0.0, l) else Hsl(Hue(p, max, delta), Saturation(min, max), l)
  }

  function Saturation(min: real, max: real): real
    requires max + min != 0.0 && max + min != 2.0
  {
    if (max + min) / 2.0 <= 0.5 then (max - min) / (max + min) else (max - min) / (2.0 - max - min)
  }

  function HslValue(n1: real, n2: real, hue: real): real {
    var h := if hue > 6.0 then hue - 6.0 else if hue < 0.0 then hue + 6.0 else hue;
    if h < 1.0 then n1 + (n2 - n1) * h
    else if h < 3.0 then n2
    else if h < 4.0 then n1 + (n2 - n1) * (4.0 - h)
    else n1
  }

  function UpperEnd(l: real, s: real): real {
    if l <= 0.5 then l * (s + 1.0) else l + s - l * s
  }

  function Hsl2Rgb(c: Hsl): Rgb {
    if c.s == 0.0 then Rgb(c.l, c.l, c.l)
    else
      var h := c.h / 60.0;
      var m2 := UpperEnd(c.l, c.s);
      var m1 := c.l * 2.0 - m2;
      Rgb(HslValue(m1, m2, h + 2.0), HslValue(m1, m2, h), HslValue(m1, m2, h - 2.0))
  }

  ghost predicate InCube(p: Rgb) {
    0.0 <= p.r <= 1.0 && 0.0 <= p.g <= 1.0 && 0.0 <= p.b <= 1.0
  }

  // -------------------------------------------------------------------------
  // Hues
  // -------------------------------------------------------------------------

  /** How far the middle component has come from the smallest to the largest, for a hue in sixths
      of a turn. */
  function Middle(h: real): real {
    if h <= 1.0 then h
    else if h <= 2.0 then 2.0 - h
    else if h <= 3.0 then h - 2.0
    else if h <= 4.0 then 4.0 - h
    else if h <= 5.0 then h - 4.0
    else 6.0 - h
  }

  function Arranged(h: real, lo: real, mid: real, hi: real): Rgb {
    if h <= 1.0 then Rgb(hi, mid, lo)
    else if h <= 2.0 then Rgb(mid, hi, lo)
    else if h <= 3.0 then Rgb(lo, hi, mid)
    else if h <= 4.0 then Rgb(lo, mid, hi)
    else if h <= 5.0 then Rgb(mid, lo, hi)
    else Rgb(hi, lo, mid)
  }

  /** The colour of a hue between a smallest and a largest component. */
  function Shade(h: real, lo: real, hi: real): Rgb {
    Arranged(h, lo, lo + Times(hi - lo, Middle(h)), hi)
  }

  lemma Quotient(a: real, c: real) returns (q: real)
    requires c > 0.0 && -c <= a <= c
    ensures q == a / c && Times(c, q) == a && Times(c, -q) == -a && -1.0 <= q <= 1.0
    ensures (a < 0.0 <==> q < 0.0) && (a == 0.0 <==> q == 0.0)
    ensures (a == c <==> q == 1.0) && (a == -c <==> q == -1.0)
  {
    q := a / c;
    assert c * q == a;
    Bounded(a, c, q);
    assert Times(c, -q) == -(c * q);
  }

  lemma Bounded(a: real, c: real, q: real)
    requires c > 0.0 && c * q == a && -c <= a <= c
    ensures -1.0 <= q <= 1.0 && (a < 0.0 <==> q < 0.0) && (a == 0.0 <==> q == 0.0)
    ensures (a == c <==> q == 1.0) && (a == -c <==> q == -1.0)
  {
    Ordered(c, q, 1.0);
    Ordered(c, -1.0, q);
    Ordered(c, q, 0.0);
    Ordered(c, 0.0, q);
  }

  lemma Ordered(c: real, x: real, y: real)
    requires c > 0.0
    ensures c * x <= c * y <==> x <= y
  {
    if x <= y { NotNegative(c, y - x); }
    if x > y { Positive(c, x - y); }
  }

  lemma NotNegative(c: real, x: real)
    requires c > 0.0 && x >= 0.0
    ensures c * x >= 0.0
  {
  }

  lemma Positive(c: real, x: real)
    requires c > 0.0 && x > 0.0
    ensures c * x > 0.0
  {
  }

  /** The hue around one of the three corners, n sixths of a turn from red: a is the difference of
      the two smaller components. */
  lemma HueAround(a: real, c: real, n: real) returns (h: real)
    requires c > 0.0 && -c <= a <= c
    ensures h == a / c + n
    ensures a >= 0.0 ==> n <= h <= n + 1.0 && Times(c, h - n) == a
    ensures a < 0.0 ==> n - 1.0 <= h < n && Times(c, n - h) == -a
    ensures (a == c <==> h == n + 1.0) && (a == -c <==> h == n - 1.0)
  {
    var q := Quotient(a, c);
    h := q + n;
    assert h - n == q && n - h == -q;
  }

  /** Every colour but a grey is the shade of its hue between its components. */
  lemma HueIsShade(p: Rgb) returns (h: real)
    requires Max3(p.r, p.g, p.b) != Min3(p.r, p.g, p.b)
    ensures var lo, hi := Min3(p.r, p.g, p.b), Max3(p.r, p.g, p.b);
            0.0 <= h < 6.0 && p == Shade(h, lo, hi) && Hue(p, hi, hi - lo) == 60.0 * h
  {
    var lo, hi := Min3(p.r, p.g, p.b), Max3(p.r, p.g, p.b);
    if p.r == hi {
      h := ShadeNearRed(p, lo, hi);
    } else if p.g == hi {
      h := ShadeNearGreen(p, lo, hi);
    } else {
      h := ShadeNearBlue(p, lo, hi);
    }
  }

  lemma ShadeNearRed(p: Rgb, lo: real, hi: real) returns (h: real)
    requires lo == Min3(p.r, p.g, p.b) && hi == Max3(p.r, p.g, p.b) && lo < hi && p.r == hi
    ensures 0.0 <= h < 6.0 && p == Shade(h, lo, hi) && Hue(p, hi, hi - lo) == 60.0 * h
  {
    var c := hi - lo;
    var h0 := HueAround(p.g - p.b, c, 0.0);
    if p.g >= p.b {
      h := h0;
      assert h - 0.0 == h;
    } else {
      h := HueAround(p.g - p.b, c, 6.0);
      assert h == h0 + 6.0;
      if h == 5.0 {
        assert Times(c, Middle(h)) == c by { Units(c); }
        assert p == Rgb(hi, lo, lo + c);
      }
    }
  }

  lemma ShadeNearGreen(p: Rgb, lo: real, hi: real) returns (h: real)
    requires lo == Min3(p.r, p.g, p.b) && hi == Max3(p.r, p.g, p.b) && lo < hi && p.g == hi && p.r != hi
    ensures 0.0 <= h < 6.0 && p == Shade(h, lo, hi) && Hue(p, hi, hi - lo) == 60.0 * h
  {
    h := HueAround(p.b - p.r, hi - lo, 2.0);
    Units(hi - lo);
  }

  lemma ShadeNearBlue(p: Rgb, lo: real, hi: real) returns (h: real)
    requires lo == Min3(p.r, p.g, p.b) && hi == Max3(p.r, p.g, p.b) && lo < hi && p.r != hi && p.g != hi
    ensures 0.0 <= h < 6.0 && p == Shade(h, lo, hi) && Hue(p, hi, hi - lo) == 60.0 * h
  {
    h := HueAround(p.r - p.g, hi - lo, 4.0);
    Units(hi - lo);
  }

  lemma Units(c: real)
    ensures Times(c, 0.0) == 0.0 && Times(c, 1.0) == c
  {
  }

  /** The middle component, and when it is one of the others. */
  lemma MiddleInside(c: real, x: real)
    requires c > 0.0 && 0.0 <= x <= 1.0
    ensures 0.0 <= Times(c, x) <= c && (Times(c, x) == 0.0 <==> x == 0.0) && (Times(c, x) == c <==> x == 1.0)
  {
    NotNegative(c, x);
    NotNegative(c, 1.0 - x);
    if x > 0.0 { Positive(c, x); }
    if x < 1.0 { Positive(c, 1.0 - x); }
  }

  lemma ShadeComponents(h: real, lo: real, hi: real)
    requires 0.0 <= h < 6.0 && lo < hi
    ensures var p := Shade(h, lo, hi); Min3(p.r, p.g, p.b) == lo && Max3(p.r, p.g, p.b) == hi
  {
    MiddleInside(hi - lo, Middle(h));
  }

  /** Different hues have different shades. */
  lemma ShadesDiffer(h: real, k: real, lo: real, hi: real)
    requires 0.0 <= h < 6.0 && 0.0 <= k < 6.0 && lo < hi && Shade(h, lo, hi) == Shade(k, lo, hi)
    ensures h == k
  {
    var c := hi - lo;
    MiddleInside(c, Middle(h));
    MiddleInside(c, Middle(k));
    if Times(c, Middle(h)) == Times(c, Middle(k)) {
      Cancelled(c, Middle(h), Middle(k));
    }
  }

  lemma Cancelled(c: real, x: real, y: real)
    requires c > 0.0 && Times(c, x) == Times(c, y)
    ensures x == y
  {
    assert c * (x - y) == 0.0;
  }

  // -------------------------------------------------------------------------
  // HSV
  // -------------------------------------------------------------------------

  /** A colour given as HSV is the shade of its hue below its value. */
  lemma HsvIsShade(c: Hsv, h: real)
    requires c.h == 60.0 * h && 0.0 <= h < 6.0 && c.s != 0.0
    ensures Hsv2Rgb(c) == Shade(h, c.v - Times(c.v, c.s), c.v)
  {
    assert c.h / 60.0 == h;
    AtIsShade(c.v, c.s, h);
  }

  lemma AtIsShade(v: real, s: real, h: real)
    requires 0.0 <= h < 6.0
    ensures Hsv2RgbAt(v, s, h) == Shade(h, v - Times(v, s), v)
  {
    Parts(v, s, h - h.Floor as real);
    ShadeAt(h, v - Times(v, s), v, Times(v, s));
  }

  /** A shade by sextants. */
  lemma ShadeAt(h: real, lo: real, hi: real, c: real)
    requires 0.0 <= h < 6.0 && c == hi - lo
    ensures var i := h.Floor;
            var f := h - i as real;
            var q, t := lo + Times(c, 1.0 - f), lo + Times(c, f);
            Shade(h, lo, hi) == InSextant(i, hi, lo, q, t)
  {
    Units(c);
  }

  lemma Parts(v: real, s: real, f: real)
    ensures v * (1.0 - s) == v - Times(v, s)
    ensures v * (1.0 - s * (1.0 - f)) == v - Times(v, s) + Times(Times(v, s), f)
    ensures v * (1.0 - s * f) == v - Times(v, s) + Times(Times(v, s), 1.0 - f)
  {
    assert Times(Times(v, s), f) == Times(v * s, f) && Times(Times(v, s), 1.0 - f) == Times(v * s, 1.0 - f);
  }

  /** RGB to HSV and back. */
  lemma HsvRoundTrip(p: Rgb)
    requires InCube(p)
    ensures Hsv2Rgb(Rgb2Hsv(p)) == p
  {
    var lo, hi := Min3(p.r, p.g, p.b), Max3(p.r, p.g, p.b);
    if lo != hi {
      var h := HueIsShade(p);
      var s := Quotient(hi - lo, hi);
      HsvIsShade(Rgb2Hsv(p), h);
    }
  }

  /** HSV to RGB and back; the hue of a grey and the saturation of black cannot come back. */
  lemma HsvRoundTripBack(c: Hsv)
    requires 0.0 <= c.h < 360.0 && 0.0 < c.s <= 1.0 && 0.0 < c.v <= 1.0
    ensures Max3(Hsv2Rgb(c).r, Hsv2Rgb(c).g, Hsv2Rgb(c).b) == c.v
    ensures Rgb2Hsv(Hsv2Rgb(c)) == c
  {
    var h := c.h / 60.0;
    var p, chroma := Hsv2Rgb(c), Times(c.v, c.s);
    HsvIsShade(c, h);
    PositiveTimes(c.v, c.s);
    Divided(c.v, c.s);
    var lo := c.v - chroma;
    ShadeComponents(h, lo, c.v);
    var k := HueIsShade(p);
    ShadesDiffer(h, k, lo, c.v);
  }

  lemma PositiveTimes(c: real, x: real)
    requires c > 0.0 && x > 0.0
    ensures Times(c, x) > 0.0
  {
    Positive(c, x);
  }

  lemma Divided(v: real, s: real)
    requires v != 0.0
    ensures Times(v, s) / v == s
  {
  }

  /** The conversion through the chroma gives the same shade. */
  lemma ChromaIsShade(c: Hsv, h: real)
    requires c.h == 60.0 * h && 0.0 <= h < 6.0 && 0.0 < c.s <= 1.0 && 0.0 < c.v <= 1.0
    ensures Hsv2Rgb2(c) == Shade(h, c.v - Times(c.v, c.s), c.v)
  {
    assert c.h / 60.0 == h;
    var chroma := Times(c.s, c.v);
    Swapped(c.s, c.v);
    PositiveTimes(c.v, c.s);
    Remaining(c.v, c.s);
    SextantIsShade(h, chroma, c.v - chroma);
  }

  lemma Remaining(v: real, s: real)
    requires v > 0.0 && s <= 1.0
    ensures v - Times(v, s) >= 0.0
  {
    NotNegative(v, 1.0 - s);
  }

  lemma SextantIsShade(h: real, chroma: real, min: real)
    requires 0.0 <= h < 6.0 && 0.0 < chroma && 0.0 <= min && min + chroma <= 1.0
    ensures Raised(Sextant(h.Floor, chroma, Times(chroma, 1.0 - Abs(Mod2(h) - 1.0))), min)
            == Shade(h, min, min + chroma)
  {
    var i := h.Floor;
    var f := h - i as real;
    ModOf(h);
    var m := if i % 2 == 0 then f else 1.0 - f;
    MiddleInside(chroma, m);
    Units(chroma);
    assert f != 0.0 ==> m == Middle(h);
  }

  lemma Swapped(a: real, b: real)
    ensures Times(a, b) == Times(b, a)
  {
  }

  lemma ModOf(h: real)
    requires 0.0 <= h < 6.0
    ensures Mod2(h) == (if h.Floor % 2 == 0 then h - h.Floor as real else 1.0 + (h - h.Floor as real))
  {
    var i := h.Floor;
    assert (h / 2.0).Floor == i / 2;
  }

  /** Both conversions from HSV agree, as long as the hue is below 360 degrees. */
  lemma ConversionsAgree(c: Hsv)
    requires 0.0 <= c.h < 360.0 && 0.0 <= c.s <= 1.0 && 0.0 <= c.v <= 1.0
    ensures Hsv2Rgb(c) == Hsv2Rgb2(c)
  {
    if c.s != 0.0 {
      var h := c.h / 60.0;
      if c.v == 0.0 {
        Black(c);
      } else {
        HsvIsShade(c, h);
        ChromaIsShade(c, h);
      }
    }
  }

  lemma Black(c: Hsv)
    requires c.v == 0.0
    ensures Hsv2Rgb(c) == Rgb(0.0, 0.0, 0.0) == Hsv2Rgb2(c)
  {
    var x := 1.0 - Abs(Mod2(c.h / 60.0) - 1.0);
    assert Times(c.s, c.v) == 0.0 && Times(0.0, x) == 0.0;
  }

  lemma FirstAtFullTurn(s: real, v: real)
    requires s != 0.0
    ensures Hsv2Rgb(Hsv(360.0, s, v)) == Rgb(v, v * (1.0 - s), v)
  {
    assert 360.0 / 60.0 == 6.0 && (6.0).Floor == 6;
    assert v * (1.0 - s * 0.0) == v;
  }

  lemma SecondAtFullTurn(s: real, v: real)
    requires s != 0.0
    ensures Hsv2Rgb2(Hsv(360.0, s, v)) == Rgb(Clamp(v), Clamp(v - Times(s, v)), Clamp(v - Times(s, v)))
  {
    assert 360.0 / 60.0 == 6.0 && (6.0).Floor == 6 && (6.0 / 2.0).Floor == 3;
    assert Mod2(6.0) == 0.0 && Abs(0.0 - 1.0) == 1.0;
    assert Times(Times(s, v), 0.0) == 0.0;
  }

  /** At exactly 360 degrees they agree only on greys and black: the first gives magenta tones
      where the second gives red ones. */
  lemma FullTurn(s: real, v: real)
    requires 0.0 <= s <= 1.0 && 0.0 <= v <= 1.0
    ensures Hsv2Rgb(Hsv(360.0, s, v)) == Hsv2Rgb2(Hsv(360.0, s, v)) <==> s == 0.0 || v == 0.0
  {
    if v == 0.0 {
      Black(Hsv(360.0, s, v));
    } else if s != 0.0 {
      FirstAtFullTurn(s, v);
      SecondAtFullTurn(s, v);
      PositiveTimes(s, v);
      Swapped(s, v);
      Remaining(v, s);
    }
  }

  // -------------------------------------------------------------------------
  // HSL
  // -------------------------------------------------------------------------

  /** A colour given as HSL is the shade of its hue between the two ends around its lightness. */
  lemma HslIsShade(m1: real, m2: real, h: real)
    requires 0.0 <= h < 6.0 && m1 < m2
    ensures Rgb(HslValue(m1, m2, h + 2.0), HslValue(m1, m2, h), HslValue(m1, m2, h - 2.0)) == Shade(h, m1, m2)
  {
    var c := m2 - m1;
    Units(c);
    assert forall x :: (m2 - m1) * x == Times(c, x);
  }

  /** The saturation leads back to the largest component. */
  lemma SaturationEnds(min: real, max: real)
    requires 0.0 <= min < max <= 1.0
    ensures max + min != 0.0 && max + min != 2.0
    ensures Saturation(min, max) != 0.0 && UpperEnd((max + min) / 2.0, Saturation(min, max)) == max
  {
    var l, d := (max + min) / 2.0, max - min;
    if l <= 0.5 {
      Halved(d, max + min, l);
      Spread(l, d / (max + min));
    } else {
      Halved(d, 2.0 - max - min, 1.0 - l);
      Spread(l, d / (2.0 - max - min));
    }
  }

  lemma Spread(l: real, s: real)
    ensures l * (s + 1.0) == l + Times(s, l) && l + s - l * s == l + Times(s, 1.0 - l)
  {
  }

  lemma Halved(d: real, whole: real, half: real)
    requires half != 0.0 && whole == 2.0 * half
    ensures Times(d / whole, half) == d / 2.0 && (d != 0.0 ==> d / whole != 0.0)
  {
    var q := d / whole;
    assert q * whole == d;
  }

  /** RGB to HSL and back. */
  lemma HslRoundTrip(p: Rgb)
    requires InCube(p)
    ensures var lo, hi := Min3(p.r, p.g, p.b), Max3(p.r, p.g, p.b);
            (hi + lo == 0.0 || hi + lo == 2.0 ==> lo == hi) && Hsl2Rgb(Rgb2Hsl(p)) == p
  {
    var lo, hi := Min3(p.r, p.g, p.b), Max3(p.r, p.g, p.b);
    if lo != hi {
      var h := HueIsShade(p);
      SaturationEnds(lo, hi);
      HslIsShade(lo, hi, h);
      assert 60.0 * h / 60.0 == h;
    }
  }

  /** The ends lead back to the saturation. */
  lemma EndsSaturation(l: real, s: real)
    requires 0.0 < s <= 1.0 && 0.0 < l < 1.0
    ensures var m2 := UpperEnd(l, s);
            var m1 := l * 2.0 - m2;
            && m1 < m2 && m1 + m2 == 2.0 * l && Saturation(m1, m2) == s
  {
    var half := if l <= 0.5 then l else 1.0 - l;
    Spread(l, s);
    PositiveTimes(s, half);
    Doubled(s, half);
    var m2 := UpperEnd(l, s);
    assert m2 == l + Times(s, half);
    assert m2 - (l * 2.0 - m2) == 2.0 * Times(s, half);
  }

  lemma Doubled(s: real, half: real)
    requires half != 0.0
    ensures 2.0 * Times(s, half) / (2.0 * half) == s
  {
  }

  /** HSL to RGB and back. */
  lemma HslRoundTripBack(c: Hsl)
    requires 0.0 <= c.h < 360.0 && 0.0 < c.s <= 1.0 && 0.0 < c.l < 1.0
    ensures var p := Hsl2Rgb(c);
            var lo, hi := Min3(p.r, p.g, p.b), Max3(p.r, p.g, p.b);
            (hi + lo == 0.0 || hi + lo == 2.0 ==> lo == hi) && Rgb2Hsl(p) == c
  {
    var h, m2 := c.h / 60.0, UpperEnd(c.l, c.s);
    var m1 := c.l * 2.0 - m2;
    EndsSaturation(c.l, c.s);
    HslIsShade(m1, m2, h);
    ShadeComponents(h, m1, m2);
    var k := HueIsShade(Hsl2Rgb(c));
    ShadesDiffer(h, k, m1, m2);
  }

  // -------------------------------------------------------------------------
  // Greys
  // -------------------------------------------------------------------------

  lemma PositiveQuotient(a: real, c: real)
    requires a > 0.0 && c > 0.0
    ensures a / c > 0.0
  {
  }

  /** Exactly the greys have no saturation, and their hue is zero; every other colour has one hue below a
      full turn, in both notations. */
  lemma GreysHaveNoHue(p: Rgb)
    requires InCube(p)
    ensures var lo, hi := Min3(p.r, p.g, p.b), Max3(p.r, p.g, p.b);
            hi == 0.0 || hi + lo == 0.0 || hi + lo == 2.0 ==> lo == hi
    ensures var a, b := Rgb2Hsv(p), Rgb2Hsl(p);
            if p.r == p.g == p.b then a == Hsv(0.0, 0.0, p.r) && b == Hsl(0.0, 0.0, p.r)
            else a.s > 0.0 && b.s > 0.0 && 0.0 <= a.h == b.h < 360.0
  {
    var lo, hi := Min3(p.r, p.g, p.b), Max3(p.r, p.g, p.b);
    if lo != hi {
      var _ := HueIsShade(p);
      PositiveQuotient(hi - lo, hi);
      PositiveQuotient(hi - lo, hi + lo);
      PositiveQuotient(hi - lo, 2.0 - hi - lo);
    }
  }

  /** Without saturation every hue gives the same grey, also outside the circle. */
  lemma NoSaturationIsGrey(h: real, v: real)
    ensures Hsv2Rgb(Hsv(h, 0.0, v)) == Hsv2Rgb2(Hsv(h, 0.0, v)) == Hsl2Rgb(Hsl(h, 0.0, v)) == Rgb(v, v, v)
  {
  }

  /** With saturation the second conversion stays inside the cube, whatever it is given. */
  lemma SecondStaysInCube(c: Hsv)
    requires c.s != 0.0
    ensures InCube(Hsv2Rgb2(c))
  {
  }
}
