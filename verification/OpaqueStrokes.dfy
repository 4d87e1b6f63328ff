/** Strokes with an opaque pen, which does not read a row back before it writes it. */
module OpaqueStrokes {
  import opened BrushStrokes

  // -------------------------------------------------------------------------
  // What the row buffer holds
  // -------------------------------------------------------------------------

  /** Draw j of a stroke writes the colour to position m of the row buffer: the pixel that goes
      with this position is new in the stroke. */
  predicate Inks<P>(draws: seq<Draw<P>>, j: nat, m: nat)
    requires j < |draws|
  {
    draws[j].first + m <= draws[j].last && !Touched(draws[..j], draws[j].row, draws[j].first + m)
  }

  /** Some draw before draw n does. */
  predicate InkedBefore<P>(draws: seq<Draw<P>>, n: nat, m: nat)
    requires n <= |draws|
  {
    exists j :: 0 <= j < n && Inks(draws, j, m)
  }

  ghost predicate OneOpaquePen<P>(draws: seq<Draw<P>>, pen: Pen<P>) {
    !pen.translucent && forall i :: 0 <= i < |draws| ==> draws[i].pen == pen
  }

  /** The canvas after the first n draws of a stroke. */
  function After<P>(c: Canvas<P>, zero: P, draws: seq<Draw<P>>, n: nat): (r: Canvas<P>)
    requires Valid(c) && AllFit(c, draws) && n <= |draws|
    ensures Valid(r) && r.xsize == c.xsize && r.ysize == c.ysize
  {
    StartedIsValid(c, zero);
    Stroke(Started(c, zero), draws[..n])
  }

  lemma AfterNext<P>(c: Canvas<P>, zero: P, draws: seq<Draw<P>>, n: nat)
    requires Valid(c) && AllFit(c, draws) && n < |draws|
    ensures Fits(After(c, zero, draws, n), draws[n])
    ensures After(c, zero, draws, n + 1) == DrawnRow(After(c, zero, draws, n), draws[n])
  {
    var s := Started(c, zero);
    StartedIsValid(c, zero);
    assert draws[..n + 1] == draws[..n] + [draws[n]];
    StrokeConcat(s, draws[..n], [draws[n]]);
    assert [draws[n]] + [] == [draws[n]];
    StrokeHead(After(c, zero, draws, n), draws[n], []);
  }

  lemma TouchedNext<P>(draws: seq<Draw<P>>, n: nat, row: nat, col: nat)
    requires n < |draws|
    ensures Touched(draws[..n + 1], row, col) <==> Touched(draws[..n], row, col) || Touches(draws[n], row, col)
  {
    if Touched(draws[..n], row, col) {
      var i :| 0 <= i < n && Touches(draws[..n][i], row, col);
      assert Touches(draws[..n + 1][i], row, col);
    }
    if Touches(draws[n], row, col) {
      assert Touches(draws[..n + 1][n], row, col);
    }
    if Touched(draws[..n + 1], row, col) {
      var i :| 0 <= i < n + 1 && Touches(draws[..n + 1][i], row, col);
      assert i < n ==> Touches(draws[..n][i], row, col);
    }
  }

  /** The ranges cover exactly the pixels touched so far. */
  lemma {:induction false} CoveredIsTouched<P>(c: Canvas<P>, zero: P, draws: seq<Draw<P>>, n: nat, row: nat, col: nat)
    requires Valid(c) && AllFit(c, draws) && n <= |draws| && row < c.ysize
    ensures Covered(After(c, zero, draws, n).ranges[row], col) <==> Touched(draws[..n], row, col)
  {
    if n > 0 {
      var before, d := After(c, zero, draws, n - 1), draws[n - 1];
      CoveredIsTouched(c, zero, draws, n - 1, row, col);
      AfterNext(c, zero, draws, n - 1);
      TouchedNext(draws, n - 1, row, col);
      CoverGrows(before.ranges[d.row], Range(d.first, d.last), c.xsize, col);
    }
  }

  lemma InkedNext<P>(draws: seq<Draw<P>>, n: nat, m: nat)
    requires n < |draws|
    ensures InkedBefore(draws, n + 1, m) <==> InkedBefore(draws, n, m) || Inks(draws, n, m)
  {
  }

  lemma BufferNext<P>(c: Canvas<P>, d: Draw<P>, m: nat)
    requires Valid(c) && Fits(c, d) && m < c.xsize && !d.pen.translucent
    ensures DrawnRow(c, d).buf[m]
         == if d.first + m <= d.last && !Covered(c.ranges[d.row], d.first + m) then d.pen.color else c.buf[m]
  {
    assert DrawnRow(c, d).buf[m] == BufAt(c, d, m);
  }

  /** The row buffer holds the colour exactly where it was inked; elsewhere it is still empty. */
  lemma {:induction false} BufferIs<P>(c: Canvas<P>, zero: P, draws: seq<Draw<P>>, pen: Pen<P>, n: nat, m: nat)
    requires Valid(c) && AllFit(c, draws) && OneOpaquePen(draws, pen) && n <= |draws| && m < c.xsize
    ensures After(c, zero, draws, n).buf[m] == if InkedBefore(draws, n, m) then pen.color else zero
  {
    if n > 0 {
      BufferIs(c, zero, draws, pen, n - 1, m);
      AfterNext(c, zero, draws, n - 1);
      InkedNext(draws, n - 1, m);
      InksIfNew(c, zero, draws, n - 1, m);
      BufferNext(After(c, zero, draws, n - 1), draws[n - 1], m);
    }
  }

  lemma InksIfNew<P>(c: Canvas<P>, zero: P, draws: seq<Draw<P>>, n: nat, m: nat)
    requires Valid(c) && AllFit(c, draws) && n < |draws|
    ensures var before, d := After(c, zero, draws, n), draws[n];
            Inks(draws, n, m)
            <==> d.first + m <= d.last && (d.row < c.ysize ==> !Covered(before.ranges[d.row], d.first + m))
  {
    assert Fits(c, draws[n]);
    CoveredIsTouched(c, zero, draws, n, draws[n].row, draws[n].first + m);
  }

  // -------------------------------------------------------------------------
  // What a pixel ends up as
  // -------------------------------------------------------------------------

  /** Draw k is the last one that touches the pixel. */
  ghost predicate LastTouch<P>(draws: seq<Draw<P>>, k: nat, row: nat, col: nat)
    requires k < |draws|
  {
    Touches(draws[k], row, col) && forall i :: k < i < |draws| ==> !Touches(draws[i], row, col)
  }

  lemma {:induction false} FindLastTouch<P>(draws: seq<Draw<P>>, n: nat, row: nat, col: nat) returns (k: nat)
    requires n <= |draws| && Touched(draws[..n], row, col)
    requires forall i :: n <= i < |draws| ==> !Touches(draws[i], row, col)
    ensures k < |draws| && LastTouch(draws, k, row, col)
  {
    if Touches(draws[n - 1], row, col) {
      k := n - 1;
    } else {
      TouchedNext(draws, n - 1, row, col);
      k := FindLastTouch(draws, n - 1, row, col);
    }
  }

  /** Draws that do not touch a pixel leave it alone. */
  lemma {:induction false} Untouched<P>(c: Canvas<P>, zero: P, draws: seq<Draw<P>>, k: nat, n: nat, row: nat, col: nat)
    requires Valid(c) && AllFit(c, draws) && k <= n <= |draws| && row < c.ysize && col < c.xsize
    requires forall i :: k <= i < n ==> !Touches(draws[i], row, col)
    ensures Pixel(After(c, zero, draws, n), row, col) == Pixel(After(c, zero, draws, k), row, col)
    decreases n - k
  {
    if k < n {
      Untouched(c, zero, draws, k, n - 1, row, col);
      AfterNext(c, zero, draws, n - 1);
      DrawnPixel(After(c, zero, draws, n - 1), draws[n - 1], row, col);
    }
  }

  /** The last draw that touches a pixel decides: it shows the colour if the pixel was new then, or
      if an earlier draw had inked the position of the row buffer that is written to it. */
  predicate Colored<P>(draws: seq<Draw<P>>, k: nat, row: nat, col: nat)
    requires k < |draws| && draws[k].first <= col
  {
    !Touched(draws[..k], row, col) || InkedBefore(draws, k, col - draws[k].first)
  }

  lemma OpaquePixel<P>(c: Canvas<P>, zero: P, draws: seq<Draw<P>>, pen: Pen<P>, k: nat, row: nat, col: nat)
    requires Valid(c) && AllFit(c, draws) && OneOpaquePen(draws, pen) && row < c.ysize && col < c.xsize
    requires k < |draws| && LastTouch(draws, k, row, col)
    ensures Pixel(After(c, zero, draws, |draws|), row, col) == if Colored(draws, k, row, col) then pen.color else zero
  {
    var before, d := After(c, zero, draws, k), draws[k];
    Untouched(c, zero, draws, k + 1, |draws|, row, col);
    AfterNext(c, zero, draws, k);
    DrawnPixel(before, d, row, col);
    CoveredIsTouched(c, zero, draws, k, row, col);
    BufferIs(c, zero, draws, pen, k, col - d.first);
  }

  lemma UntouchedPixel<P>(c: Canvas<P>, zero: P, draws: seq<Draw<P>>, row: nat, col: nat)
    requires Valid(c) && AllFit(c, draws) && row < c.ysize && col < c.xsize && !Touched(draws, row, col)
    ensures Pixel(After(c, zero, draws, |draws|), row, col) == Pixel(c, row, col)
  {
    StartedIsValid(c, zero);
    Untouched(c, zero, draws, 0, |draws|, row, col);
    assert draws[..0] == [];
  }

  // -------------------------------------------------------------------------
  // The exact condition
  // -------------------------------------------------------------------------

  /** Whenever a pixel is written for the last time, its colour is in the row buffer. */
  ghost predicate AllColored<P>(draws: seq<Draw<P>>, xsize: nat, ysize: nat) {
    forall k, row, col ::
      0 <= k < |draws| && 0 <= row < ysize && 0 <= col < xsize && LastTouch(draws, k, row, col) ==>
        Colored(draws, k, row, col)
  }

  /** Every touched pixel has the colour, every other one is as it was. */
  ghost predicate ColorsTouched<P>(c: Canvas<P>, draws: seq<Draw<P>>, color: P, r: Canvas<P>)
    requires Valid(c) && Valid(r) && r.xsize == c.xsize && r.ysize == c.ysize
  {
    forall row, col :: 0 <= row < c.ysize && 0 <= col < c.xsize ==>
      Pixel(r, row, col) == if Touched(draws, row, col) then color else Pixel(c, row, col)
  }

  /** A stroke with an opaque pen colours exactly the pixels it touches if and only if the row
      buffer holds the colour at each last writing, or the colour is that of an empty buffer.
      What the file showed before plays no part. */
  lemma {:induction false} OpaqueStrokeExactly<P>(c: Canvas<P>, zero: P, draws: seq<Draw<P>>, pen: Pen<P>)
    requires Valid(c) && AllFit(c, draws) && OneOpaquePen(draws, pen)
    ensures Valid(Started(c, zero))
    ensures ColorsTouched(c, draws, pen.color, Stroke(Started(c, zero), draws))
       <==> AllColored(draws, c.xsize, c.ysize) || pen.color == zero
  {
    StartedIsValid(c, zero);
    assert draws[..|draws|] == draws;
    var r := After(c, zero, draws, |draws|);
    forall k, row, col |
      0 <= k < |draws| && 0 <= row < c.ysize && 0 <= col < c.xsize && LastTouch(draws, k, row, col)
      ensures Touched(draws, row, col)
      ensures Pixel(r, row, col) == pen.color <==> Colored(draws, k, row, col) || pen.color == zero
    {
      OpaquePixel(c, zero, draws, pen, k, row, col);
    }
    if AllColored(draws, c.xsize, c.ysize) || pen.color == zero {
      forall row, col | 0 <= row < c.ysize && 0 <= col < c.xsize
        ensures Pixel(r, row, col) == if Touched(draws, row, col) then pen.color else Pixel(c, row, col)
      {
        if Touched(draws, row, col) {
          var k := FindLastTouch(draws, |draws|, row, col);
        } else {
          UntouchedPixel(c, zero, draws, row, col);
        }
      }
    }
  }

  /** In particular if no row is wider than the first one, which inks all positions that are
      needed. */
  lemma NoWiderIsColored<P>(draws: seq<Draw<P>>, xsize: nat, ysize: nat)
    requires forall i :: 0 <= i < |draws| ==> draws[i].last - draws[i].first <= draws[0].last - draws[0].first
    ensures AllColored(draws, xsize, ysize)
  {
    forall k, row, col |
      0 <= k < |draws| && 0 <= row < ysize && 0 <= col < xsize && LastTouch(draws, k, row, col)
      ensures Colored(draws, k, row, col)
    {
      if k > 0 {
        assert draws[..0] == [];
        assert Inks(draws, 0, col - draws[k].first);
      }
    }
  }

  lemma {:induction false} OpaqueStroke<P>(c: Canvas<P>, zero: P, draws: seq<Draw<P>>, pen: Pen<P>)
    requires Valid(c) && AllFit(c, draws) && OneOpaquePen(draws, pen)
    requires forall i :: 0 <= i < |draws| ==> draws[i].last - draws[i].first <= draws[0].last - draws[0].first
    ensures Valid(Started(c, zero)) && ColorsTouched(c, draws, pen.color, Stroke(Started(c, zero), draws))
  {
    OpaqueStrokeExactly(c, zero, draws, pen);
    NoWiderIsColored(draws, c.xsize, c.ysize);
  }
}
