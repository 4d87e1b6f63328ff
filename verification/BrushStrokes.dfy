/** Brush strokes on a raw pixel file: what rows, points and strokes do to the pixels. */
module BrushStrokes {

  datatype Range = Range(first: nat, last: nat)

  /** A translucent pen mixes its colour with the pixel below, an opaque one replaces it. */
  datatype Pen<!P> = Pen(size: nat, translucent: bool, color: P, mix: P -> P) {
    function Paint(below: P): P {
      if translucent then mix(below) else color
    }
  }

  /** A piece of one row, drawn with a pen. */
  datatype Draw<!P> = Draw(pen: Pen<P>, row: nat, first: nat, last: nat)

  /** The pixel file row by row, the row buffer, and the ranges of each row painted in the
      current stroke. */
  datatype Canvas<P> = Canvas(xsize: nat, ysize: nat, file: seq<P>, buf: seq<P>, ranges: seq<seq<Range>>)

  ghost predicate Valid<P>(c: Canvas<P>) {
    && |c.file| == c.xsize * c.ysize && |c.buf| == c.xsize && |c.ranges| == c.ysize
    && forall r :: 0 <= r < c.ysize ==> RangesFit(c.ranges[r], c.xsize)
  }

  ghost predicate RangesFit(list: seq<Range>, xsize: nat) {
    && (forall i :: 0 <= i < |list| ==> list[i].first <= list[i].last < xsize)
    && (forall i, j :: 0 <= i < j < |list| ==> list[i].first <= list[j].first)
  }

  ghost predicate Fits<P>(c: Canvas<P>, d: Draw<P>) {
    d.row < c.ysize && d.first <= d.last < c.xsize
  }

  predicate Covered(list: seq<Range>, col: int) {
    exists i :: 0 <= i < |list| && list[i].first <= col <= list[i].last
  }

  /** Behind all ranges that start at the same column or further left. */
  function InsertRange(list: seq<Range>, r: Range): seq<Range> {
    if list == [] || r.first < list[0].first then [r] + list else [list[0]] + InsertRange(list[1..], r)
  }

  function Offset<P>(c: Canvas<P>, row: nat, col: nat): nat {
    c.xsize * row + col
  }

  lemma OffsetFits(xsize: nat, ysize: nat, row: nat, col: nat)
    requires row < ysize && col < xsize
    ensures xsize * row + col < xsize * ysize
  {
    assert xsize * (row + 1) <= xsize * ysize by {
      Scaled(xsize, row + 1, ysize);
    }
    assert xsize * (row + 1) == xsize * row + xsize;
  }

  lemma Scaled(a: nat, b: int, c: int)
    requires b <= c
    ensures a * b <= a * c
  {
  }

  /** What the row buffer holds at index j after the drawing of a row. */
  function BufAt<P>(c: Canvas<P>, d: Draw<P>, j: nat): P
    requires Valid(c) && Fits(c, d) && j < c.xsize
  {
    var n := d.last - d.first + 1;
    OffsetFits(c.xsize, c.ysize, d.row, d.last);
    if j >= n then c.buf[j]
    else if !Covered(c.ranges[d.row], d.first + j) then d.pen.Paint(c.file[Offset(c, d.row, d.first) + j])
    else if d.pen.translucent then c.file[Offset(c, d.row, d.first) + j]
    else c.buf[j]
  }

  /** The canvas after a row: the buffer is filled, written to the file, and the range noted. */
  function DrawnRow<P>(c: Canvas<P>, d: Draw<P>): (r: Canvas<P>)
    requires Valid(c) && Fits(c, d)
  {
    OffsetFits(c.xsize, c.ysize, d.row, d.last);
    var n, off := d.last - d.first + 1, Offset(c, d.row, d.first);
    var buf := seq(c.xsize, j requires 0 <= j < c.xsize => BufAt(c, d, j));
    c.(buf := buf,
       file := c.file[..off] + buf[..n] + c.file[off + n..],
       ranges := c.ranges[d.row := InsertRange(c.ranges[d.row], Range(d.first, d.last))])
  }

  lemma {:induction false} InsertedRange(list: seq<Range>, r: Range, xsize: nat)
    requires RangesFit(list, xsize) && r.first <= r.last < xsize
    ensures RangesFit(InsertRange(list, r), xsize)
    ensures forall x :: x in InsertRange(list, r) <==> x in list || x == r
  {
    if list != [] && r.first >= list[0].first {
      InsertedRange(list[1..], r, xsize);
      var more := InsertRange(list[1..], r);
      forall j | 0 <= j < |more| ensures list[0].first <= more[j].first {
        assert more[j] in list[1..] || more[j] == r;
      }
      var all := InsertRange(list, r);
      assert all == [list[0]] + more;
      forall x ensures x in all <==> x in list || x == r {
        assert x in list <==> x == list[0] || x in list[1..];
      }
    }
  }

  lemma CoveredMember(list: seq<Range>, col: int)
    ensures Covered(list, col) <==> exists x :: x in list && x.first <= col <= x.last
  {
    if x :| x in list && x.first <= col <= x.last {
      var i :| 0 <= i < |list| && list[i] == x;
    }
  }

  lemma {:induction false} CoverGrows(list: seq<Range>, r: Range, xsize: nat, col: int)
    requires RangesFit(list, xsize) && r.first <= r.last < xsize
    ensures Covered(InsertRange(list, r), col) <==> Covered(list, col) || r.first <= col <= r.last
  {
    InsertedRange(list, r, xsize);
    CoveredMember(list, col);
    CoveredMember(InsertRange(list, r), col);
  }

  lemma DrawnIsValid<P>(c: Canvas<P>, d: Draw<P>)
    requires Valid(c) && Fits(c, d)
    ensures Valid(DrawnRow(c, d))
  {
    OffsetFits(c.xsize, c.ysize, d.row, d.last);
    InsertedRange(c.ranges[d.row], Range(d.first, d.last), c.xsize);
  }

  // -------------------------------------------------------------------------
  // Pixels
  // -------------------------------------------------------------------------

  function Pixel<P>(c: Canvas<P>, row: nat, col: nat): P
    requires Valid(c) && row < c.ysize && col < c.xsize
  {
    OffsetFits(c.xsize, c.ysize, row, col);
    c.file[Offset(c, row, col)]
  }

  predicate Touches<P>(d: Draw<P>, row: nat, col: nat) {
    d.row == row && d.first <= col <= d.last
  }

  /** Pixels of other rows lie outside the written part of the file. */
  lemma Apart(xsize: nat, row: nat, col: nat, r: nat, first: nat, last: nat)
    requires col < xsize && first <= last < xsize
    ensures var i, off := xsize * row + col, xsize * r + first;
            off <= i < off + (last - first + 1) <==> row == r && first <= col <= last
  {
    if row < r {
      Scaled(xsize, row + 1, r);
      assert xsize * (row + 1) == xsize * row + xsize;
    } else if row > r {
      Scaled(xsize, r + 1, row);
      assert xsize * (r + 1) == xsize * r + xsize;
    }
  }

  /** One row, seen at one pixel. */
  lemma DrawnPixel<P>(c: Canvas<P>, d: Draw<P>, row: nat, col: nat)
    requires Valid(c) && Fits(c, d) && row < c.ysize && col < c.xsize
    ensures Valid(DrawnRow(c, d))
    ensures Pixel(DrawnRow(c, d), row, col)
         == if !Touches(d, row, col) then Pixel(c, row, col)
            else if !Covered(c.ranges[row], col) then d.pen.Paint(Pixel(c, row, col))
            else if d.pen.translucent then Pixel(c, row, col)
            else c.buf[col - d.first]
  {
    DrawnIsValid(c, d);
    OffsetFits(c.xsize, c.ysize, d.row, d.last);
    OffsetFits(c.xsize, c.ysize, row, col);
    Apart(c.xsize, row, col, d.row, d.first, d.last);
    var i, off, n := Offset(c, row, col), Offset(c, d.row, d.first), d.last - d.first + 1;
    var r := DrawnRow(c, d);
    if Touches(d, row, col) {
      assert i == off + (col - d.first);
      assert r.file[i] == r.buf[col - d.first];
    } else if i < off {
      assert r.file[i] == c.file[i];
    } else {
      assert r.file[i] == c.file[off + n..][i - off - n];
    }
  }

  // -------------------------------------------------------------------------
  // Strokes
  // -------------------------------------------------------------------------

  /** A stroke starts with an empty buffer and no ranges. */
  function Started<P>(c: Canvas<P>, zero: P): Canvas<P> {
    c.(buf := seq(c.xsize, _ => zero), ranges := seq(c.ysize, _ => []))
  }

  lemma StartedIsValid<P>(c: Canvas<P>, zero: P)
    requires Valid(c)
    ensures Valid(Started(c, zero)) && Started(c, zero).file == c.file
  {
  }

  ghost predicate AllFit<P>(c: Canvas<P>, draws: seq<Draw<P>>) {
    forall i :: 0 <= i < |draws| ==> Fits(c, draws[i])
  }

  function Stroke<P>(c: Canvas<P>, draws: seq<Draw<P>>): (r: Canvas<P>)
    requires Valid(c) && AllFit(c, draws)
    ensures Valid(r) && r.xsize == c.xsize && r.ysize == c.ysize
    decreases |draws|
  {
    if draws == [] then c
    else
      DrawnIsValid(c, draws[0]);
      Stroke(DrawnRow(c, draws[0]), draws[1..])
  }

  lemma {:induction false} StrokeHead<P>(c: Canvas<P>, d: Draw<P>, rest: seq<Draw<P>>)
    requires Valid(c) && Fits(c, d) && AllFit(c, rest)
    ensures Valid(DrawnRow(c, d)) && AllFit(c, [d] + rest) && AllFit(DrawnRow(c, d), rest)
    ensures Stroke(c, [d] + rest) == Stroke(DrawnRow(c, d), rest)
  {
    DrawnIsValid(c, d);
    assert ([d] + rest)[0] == d && ([d] + rest)[1..] == rest;
  }

  lemma {:induction false} StrokeConcat<P>(c: Canvas<P>, a: seq<Draw<P>>, b: seq<Draw<P>>)
    requires Valid(c) && AllFit(c, a) && AllFit(c, b)
    ensures AllFit(c, a + b) && AllFit(Stroke(c, a), b)
    ensures Stroke(c, a + b) == Stroke(Stroke(c, a), b)
    decreases |a|
  {
    if a == [] {
      assert a + b == b;
    } else {
      DrawnIsValid(c, a[0]);
      StrokeConcat(DrawnRow(c, a[0]), a[1..], b);
      StrokeHead(c, a[0], a[1..] + b);
      assert a + b == [a[0]] + (a[1..] + b);
    }
  }

  predicate Touched<P>(draws: seq<Draw<P>>, row: nat, col: nat) {
    exists i :: 0 <= i < |draws| && Touches(draws[i], row, col)
  }

  /** What a pixel should become: it is painted by the first draw that touches it, and by no
      later one. */
  function FirstTouch<P>(draws: seq<Draw<P>>, row: nat, col: nat, p: P): P
    decreases |draws|
  {
    if draws == [] then p
    else if Touches(draws[0], row, col) then draws[0].pen.Paint(p)
    else FirstTouch(draws[1..], row, col, p)
  }

  /** From any point of a stroke on: a pixel that was painted already stays as it is. */
  lemma {:induction false} TranslucentStrokeFrom<P>(c: Canvas<P>, draws: seq<Draw<P>>, row: nat, col: nat)
    requires Valid(c) && AllFit(c, draws) && row < c.ysize && col < c.xsize
    requires forall i :: 0 <= i < |draws| ==> draws[i].pen.translucent
    ensures Pixel(Stroke(c, draws), row, col)
         == if Covered(c.ranges[row], col) then Pixel(c, row, col) else FirstTouch(draws, row, col, Pixel(c, row, col))
    decreases |draws|
  {
    if draws != [] {
      var d := draws[0];
      DrawnPixel(c, d, row, col);
      CoverGrows(c.ranges[d.row], Range(d.first, d.last), c.xsize, col);
      TranslucentStrokeFrom(DrawnRow(c, d), draws[1..], row, col);
    }
  }

  /** However its rows overlap, a stroke with translucent pens paints every touched pixel exactly
      once, with the first pen that touches it over the pixel as it was when the stroke started,
      and leaves all others unchanged. */
  lemma {:induction false} TranslucentStroke<P>(c: Canvas<P>, zero: P, draws: seq<Draw<P>>, row: nat, col: nat)
    requires Valid(c) && AllFit(c, draws) && row < c.ysize && col < c.xsize
    requires forall i :: 0 <= i < |draws| ==> draws[i].pen.translucent
    ensures Valid(Started(c, zero))
    ensures Pixel(Stroke(Started(c, zero), draws), row, col) == FirstTouch(draws, row, col, Pixel(c, row, col))
  {
    StartedIsValid(c, zero);
    assert !Covered(Started(c, zero).ranges[row], col);
    TranslucentStrokeFrom(Started(c, zero), draws, row, col);
  }

  /** With one pen: painted exactly where some row touched. */
  lemma {:induction false} OnePen<P>(draws: seq<Draw<P>>, pen: Pen<P>, row: nat, col: nat, p: P)
    requires forall i :: 0 <= i < |draws| ==> draws[i].pen == pen
    ensures FirstTouch(draws, row, col, p) == if Touched(draws, row, col) then pen.Paint(p) else p
    decreases |draws|
  {
    if draws != [] {
      OnePen(draws[1..], pen, row, col, p);
      if Touched(draws[1..], row, col) {
        var i :| 0 <= i < |draws[1..]| && Touches(draws[1..][i], row, col);
        assert Touches(draws[i + 1], row, col);
      }
      if !Touches(draws[0], row, col) && Touched(draws, row, col) {
        var i :| 0 <= i < |draws| && Touches(draws[i], row, col);
        assert Touches(draws[1..][i - 1], row, col);
      }
    }
  }
}
