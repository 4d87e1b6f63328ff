/** The raw buffer: a pixel file on which strokes are drawn in place. */
module RawBuffers {
  import opened Basics
  import opened BrushStrokes
  import opened BrushPoints

  /** The values of all bands of a pixel. */
  type Pel = seq<real>

  class RawBuffer {
    const xsize: nat
    const ysize: nat
    const zero: Pel
    const file: array<Pel>
    var buf: array<Pel>
    var pxmask: array<bool>
    var strokeRanges: seq<seq<Range>>

    ghost predicate Ready()
      reads this, file, buf, pxmask
    {
      file != buf && pxmask.Length == xsize && Valid(State())
    }

    function State(): Canvas<Pel>
      reads this, file, buf
    {
      Canvas(xsize, ysize, file[..], buf[..], strokeRanges)
    }

    constructor (xs: nat, ys: nat, pixels: array<Pel>, z: Pel)
      requires pixels.Length == xs * ys
      ensures Ready() && fresh(buf) && fresh(pxmask)
      ensures State() == Started(Canvas(xs, ys, pixels[..], [], []), z) && file == pixels && zero == z
    {
      xsize, ysize, file, zero := xs, ys, pixels, z;
      buf := new Pel[xs](_ => z);
      pxmask := new bool[xs];
      strokeRanges := seq(ys, _ => []);
    }

    method StartStroke()
      requires Ready()
      modifies this
      ensures Ready() && fresh(buf) && fresh(pxmask)
      ensures State() == Started(old(State()), zero)
    {
      buf := new Pel[xsize](_ => zero);
      pxmask := new bool[xsize];
      for y := 0 to ysize
        invariant |strokeRanges| == ysize && forall r :: 0 <= r < y ==> strokeRanges[r] == []
        invariant buf.Length == xsize && pxmask.Length == xsize && fresh(buf) && fresh(pxmask)
        invariant forall j :: 0 <= j < xsize ==> buf[j] == zero
      {
        strokeRanges := strokeRanges[y := []];
      }
      assert strokeRanges == seq(ysize, _ => []);
      assert buf[..] == seq(xsize, _ => zero);
    }

    /** Marks the pixels of a range. */
    method SetMask(first: nat, last: nat, value: bool)
      requires first <= last < pxmask.Length
      modifies pxmask
      ensures forall x :: 0 <= x < pxmask.Length ==> pxmask[x] == if first <= x <= last then value else old(pxmask[x])
    {
      for x := first to last + 1
        invariant forall c :: 0 <= c < pxmask.Length ==> pxmask[c] == if first <= c < x then value else old(pxmask[c])
      {
        pxmask[x] := value;
      }
    }

    /** The mask of a row: marked where the pen may paint. */
    method MaskRow(row: nat, first: nat, last: nat)
      requires Ready() && row < ysize && first <= last < xsize
      modifies pxmask
      ensures forall x :: first <= x <= last ==> pxmask[x] == !Covered(strokeRanges[row], x)
    {
      SetMask(first, last, true);
      var ranges := strokeRanges[row];
      for i := 0 to |ranges|
        invariant forall x :: first <= x <= last ==> pxmask[x] == !Covered(ranges[..i], x)
      {
        ghost var before := pxmask[..];
        SetMask(ranges[i].first, ranges[i].last, false);
        forall x | first <= x <= last ensures pxmask[x] == !Covered(ranges[..i + 1], x) {
          assert before[x] == !Covered(ranges[..i], x);
          CoveredNext(ranges, i, x);
        }
      }
      assert ranges[..|ranges|] == ranges;
    }

    /** Blends with the pixels of the file. */
    method FillTranslucent(pen: Pen<Pel>, first: nat, npx: nat, offset: nat)
      requires file != buf && first + npx <= pxmask.Length && npx <= buf.Length && offset + npx <= file.Length
      modifies buf
      ensures forall j :: npx <= j < buf.Length ==> buf[j] == old(buf[j])
      ensures forall j :: 0 <= j < npx ==>
                buf[j] == if pxmask[first + j] then pen.mix(file[offset + j]) else file[offset + j]
    {
      for j := 0 to npx
        invariant forall i :: npx <= i < buf.Length ==> buf[i] == old(buf[i])
        invariant forall i :: 0 <= i < j ==> buf[i] == file[offset + i]
      {
        buf[j] := file[offset + j];
      }
      for j := 0 to npx
        invariant forall i :: npx <= i < buf.Length ==> buf[i] == old(buf[i])
        invariant forall i :: 0 <= i < j ==>
                    buf[i] == if pxmask[first + i] then pen.mix(file[offset + i]) else file[offset + i]
        invariant forall i :: j <= i < npx ==> buf[i] == file[offset + i]
      {
        if pxmask[first + j] {
          buf[j] := pen.mix(buf[j]);
        }
      }
    }

    /** Sets the colour; what lies between is whatever the buffer held before. */
    method FillOpaque(pen: Pen<Pel>, first: nat, npx: nat)
      requires first + npx <= pxmask.Length && npx <= buf.Length
      modifies buf
      ensures forall j :: 0 <= j < buf.Length ==>
                buf[j] == if j < npx && pxmask[first + j] then pen.color else old(buf[j])
    {
      for j := 0 to npx
        invariant forall i :: 0 <= i < buf.Length ==>
                    buf[i] == if i < j && pxmask[first + i] then pen.color else old(buf[i])
      {
        if pxmask[first + j] {
          buf[j] := pen.color;
        }
      }
    }

    method WriteBack(offset: nat, npx: nat)
      requires file != buf && npx <= buf.Length && offset + npx <= file.Length
      modifies file
      ensures file[..] == old(file[..offset]) + buf[..npx] + old(file[offset + npx..])
    {
      for j := 0 to npx
        invariant file[..offset] == old(file[..offset]) && file[offset..offset + j] == buf[..j]
        invariant file[offset + npx..] == old(file[offset + npx..])
      {
        file[offset + j] := buf[j];
        assert file[offset..offset + j + 1] == file[offset..offset + j] + [buf[j]];
      }
      assert file[..] == file[..offset] + file[offset..offset + npx] + file[offset + npx..];
    }

    method NoteRange(row: nat, first: nat, last: nat)
      requires row < |strokeRanges|
      modifies this`strokeRanges
      ensures strokeRanges == old(strokeRanges)[row := InsertRange(old(strokeRanges)[row], Range(first, last))]
    {
      var list := strokeRanges[row];
      var i := 0;
      while i < |list| && first >= list[i].first
        invariant 0 <= i <= |list|
        invariant forall k :: 0 <= k < i ==> list[k].first <= first
      {
        i := i + 1;
      }
      InsertedAt(list, Range(first, last), i);
      strokeRanges := strokeRanges[row := list[..i] + [Range(first, last)] + list[i..]];
    }

    method DrawRow(d: Draw<Pel>)
      requires Ready() && Fits(State(), d)
      modifies this`strokeRanges, file, buf, pxmask
      ensures Ready() && State() == DrawnRow(old(State()), d)
    {
      ghost var c := State();
      OffsetFits(xsize, ysize, d.row, d.last);
      DrawnIsValid(c, d);
      MaskRow(d.row, d.first, d.last);
      var offset, npx := xsize * d.row + d.first, d.last - d.first + 1;
      if d.pen.translucent {
        FillTranslucent(d.pen, d.first, npx, offset);
      } else {
        FillOpaque(d.pen, d.first, npx);
      }
      BufFilled(c, d, buf[..], pxmask[..]);
      WriteBack(offset, npx);
      NoteRange(d.row, d.first, d.last);
      RowDrawn(c, d, State());
    }

    /** The rows at one distance from the centre. */
    method DrawPair(pen: Pen<Pel>, x0: nat, y0: nat, y: nat)
      requires Ready() && x0 < xsize && y0 < ysize && y <= pen.size
      modifies this`strokeRanges, file, buf, pxmask
      ensures Ready() && AllFit(old(State()), RowPair(pen, x0, y0, y, xsize, ysize))
      ensures State() == Stroke(old(State()), RowPair(pen, x0, y0, y, xsize, ysize))
    {
      var row1, row2 := y0 - y, y0 + y;
      ghost var c := State();
      ghost var upper, lower := RowAt(pen, x0, Distance(y0, y), y, xsize), RowAt(pen, x0, y0 + y, y, xsize);
      PairStroke(c, pen, x0, y0, y);
      if row1 >= 0 {
        DrawRowAt(pen, x0, row1, y);
      }
      ghost var d := State();
      assert d == WithRow(c, upper, y <= y0);
      if row2 != row1 && row2 < ysize {
        DrawRowAt(pen, x0, row2, y);
      }
      assert State() == WithRow(d, lower, y != 0 && y0 + y < ysize);
    }

    /** A row of a point, clipped at the borders. */
    method DrawRowAt(pen: Pen<Pel>, x0: nat, row: nat, y: nat)
      requires Ready() && x0 < xsize && row < ysize && y <= pen.size
      modifies this`strokeRanges, file, buf, pxmask
      ensures Ready() && Fits(old(State()), RowAt(pen, x0, row, y, xsize))
      ensures State() == DrawnRow(old(State()), RowAt(pen, x0, row, y, xsize))
    {
      var half := HalfWidth(pen.size, y);
      var startcol, endcol := x0 - half, x0 + half;
      if startcol < 0 {
        startcol := 0;
      }
      if endcol >= xsize {
        endcol := xsize - 1;
      }
      assert Draw(pen, row, startcol, endcol) == RowAt(pen, x0, row, y, xsize);
      DrawRow(Draw(pen, row, startcol, endcol));
    }

    method DrawPoint(pen: Pen<Pel>, x0: nat, y0: nat) returns (update: Rect)
      requires Ready() && x0 < xsize && y0 < ysize
      modifies this`strokeRanges, file, buf, pxmask
      ensures Ready() && AllFit(old(State()), PointRows(pen, x0, y0, xsize, ysize))
      ensures State() == Stroke(old(State()), PointRows(pen, x0, y0, xsize, ysize))
      ensures update == UpdateArea(pen.size, x0, y0, xsize, ysize)
    {
      ghost var c := State();
      PointRowsFit(c, pen, x0, y0, 0);
      for y := 0 to pen.size + 1
        invariant Ready() && AllFit(State(), RowsFrom(pen, x0, y0, y, xsize, ysize))
        invariant Stroke(State(), RowsFrom(pen, x0, y0, y, xsize, ysize))
                  == Stroke(c, PointRows(pen, x0, y0, xsize, ysize))
      {
        NextPair(State(), pen, x0, y0, y);
        DrawPair(pen, x0, y0, y);
        PointRowsFit(State(), pen, x0, y0, y + 1);
      }
      update := UpdateArea(pen.size, x0, y0, xsize, ysize);
    }
  }

  lemma {:induction false} NextPair<P>(c: Canvas<P>, pen: Pen<P>, x0: nat, y0: nat, y: nat)
    requires Valid(c) && x0 < c.xsize && y0 < c.ysize && y <= pen.size
    ensures var pair, rest := RowPair(pen, x0, y0, y, c.xsize, c.ysize),
                              RowsFrom(pen, x0, y0, y + 1, c.xsize, c.ysize);
            && AllFit(c, pair) && Valid(Stroke(c, pair)) && AllFit(Stroke(c, pair), rest)
            && AllFit(c, pair + rest) && Stroke(c, pair + rest) == Stroke(Stroke(c, pair), rest)
  {
    PairStroke(c, pen, x0, y0, y);
    PointRowsFit(c, pen, x0, y0, y + 1);
    StrokeConcat(c, RowPair(pen, x0, y0, y, c.xsize, c.ysize), RowsFrom(pen, x0, y0, y + 1, c.xsize, c.ysize));
  }

  lemma {:induction false} InsertedAt(list: seq<Range>, r: Range, i: nat)
    requires i <= |list| && (forall k :: 0 <= k < i ==> list[k].first <= r.first)
    requires i < |list| ==> r.first < list[i].first
    ensures InsertRange(list, r) == list[..i] + [r] + list[i..]
  {
    if i > 0 {
      InsertedAt(list[1..], r, i - 1);
      assert list[..i] == [list[0]] + list[1..][..i - 1];
    }
  }

  lemma CoveredNext(list: seq<Range>, i: nat, x: int)
    requires i < |list|
    ensures Covered(list[..i + 1], x) <==> Covered(list[..i], x) || list[i].first <= x <= list[i].last
  {
    if Covered(list[..i], x) {
      var k :| 0 <= k < i && list[..i][k].first <= x <= list[..i][k].last;
      assert list[..i + 1][k] == list[..i][k];
    }
    if Covered(list[..i + 1], x) {
      var k :| 0 <= k < i + 1 && list[..i + 1][k].first <= x <= list[..i + 1][k].last;
      assert k == i || list[..i][k] == list[..i + 1][k];
    }
    assert list[..i + 1][i] == list[i];
  }

  lemma RowDrawn<P>(c: Canvas<P>, d: Draw<P>, r: Canvas<P>)
    requires Valid(c) && Fits(c, d) && r.xsize == c.xsize && r.ysize == c.ysize
    requires Offset(c, d.row, d.first) + (d.last - d.first + 1) <= |c.file|
    requires r.buf == DrawnRow(c, d).buf
    requires r.file == c.file[..Offset(c, d.row, d.first)] + r.buf[..d.last - d.first + 1]
                       + c.file[Offset(c, d.row, d.first) + (d.last - d.first + 1)..]
    requires r.ranges == c.ranges[d.row := InsertRange(c.ranges[d.row], Range(d.first, d.last))]
    ensures r == DrawnRow(c, d)
  {
  }

  lemma BufFilled<P>(c: Canvas<P>, d: Draw<P>, buf: seq<P>, mask: seq<bool>)
    requires Valid(c) && Fits(c, d) && |buf| == c.xsize == |mask|
    requires forall x :: d.first <= x <= d.last ==> mask[x] == !Covered(c.ranges[d.row], x)
    requires Offset(c, d.row, d.first) + (d.last - d.first + 1) <= |c.file|
    requires forall j :: d.last - d.first + 1 <= j < |buf| ==> buf[j] == c.buf[j]
    requires forall j :: 0 <= j < d.last - d.first + 1 ==> buf[j] == Filled(c, d, mask[d.first + j], j)
    ensures buf == DrawnRow(c, d).buf
  {
    forall j | 0 <= j < c.xsize ensures buf[j] == BufAt(c, d, j) {
      if j < d.last - d.first + 1 {
        assert mask[d.first + j] == !Covered(c.ranges[d.row], d.first + j);
      }
    }
  }

  function Filled<P>(c: Canvas<P>, d: Draw<P>, marked: bool, j: nat): P
    requires j < |c.buf| && Offset(c, d.row, d.first) + j < |c.file|
  {
    if marked then d.pen.Paint(c.file[Offset(c, d.row, d.first) + j])
    else if d.pen.translucent then c.file[Offset(c, d.row, d.first) + j]
    else c.buf[j]
  }

  /** The canvas after a row of a point, if the row is in the image. */
  function WithRow<P>(c: Canvas<P>, d: Draw<P>, present: bool): (r: Canvas<P>)
    requires Valid(c) && (present ==> Fits(c, d))
    ensures Valid(r) && r.xsize == c.xsize && r.ysize == c.ysize
  {
    if present then
      DrawnIsValid(c, d);
      DrawnRow(c, d)
    else c
  }

  function RowIf<P>(d: Draw<P>, present: bool): seq<Draw<P>> {
    if present then [d] else []
  }

  lemma {:induction false} RowIfStroke<P>(c: Canvas<P>, d: Draw<P>, present: bool)
    requires Valid(c) && (present ==> Fits(c, d))
    ensures AllFit(c, RowIf(d, present)) && Stroke(c, RowIf(d, present)) == WithRow(c, d, present)
  {
    if present {
      StrokeHead(c, d, []);
      assert [d] + [] == [d];
    }
  }

  lemma {:induction false} PairStroke<P>(c: Canvas<P>, pen: Pen<P>, x0: nat, y0: nat, y: nat)
    requires Valid(c) && x0 < c.xsize && y0 < c.ysize && y <= pen.size
    ensures AllFit(c, RowPair(pen, x0, y0, y, c.xsize, c.ysize))
    ensures var upper, lower := RowAt(pen, x0, Distance(y0, y), y, c.xsize), RowAt(pen, x0, y0 + y, y, c.xsize);
            Stroke(c, RowPair(pen, x0, y0, y, c.xsize, c.ysize))
            == WithRow(WithRow(c, upper, y <= y0), lower, y != 0 && y0 + y < c.ysize)
  {
    var upper, lower := RowAt(pen, x0, Distance(y0, y), y, c.xsize), RowAt(pen, x0, y0 + y, y, c.xsize);
    var first, second := RowIf(upper, y <= y0), RowIf(lower, y != 0 && y0 + y < c.ysize);
    RowIfStroke(c, upper, y <= y0);
    RowIfStroke(c, lower, y != 0 && y0 + y < c.ysize);
    RowIfStroke(WithRow(c, upper, y <= y0), lower, y != 0 && y0 + y < c.ysize);
    StrokeConcat(c, first, second);
    assert RowPair(pen, x0, y0, y, c.xsize, c.ysize) == first + second;
  }

  // -------------------------------------------------------------------------
  // The opaque pen at the border
  // -------------------------------------------------------------------------

  /** On a row of four pixels, an opaque pen of size one is put on the last pixel and dragged one
      pixel to the left.  The last pixel ends up empty: the second row is wider than the first. */
  lemma OpaqueDragLosesPixel(mix: int -> int)
    ensures var c := Canvas(4, 1, [7, 7, 7, 7], [0, 0, 0, 0], [[]]);
            var pen := Pen(1, false, 9, mix);
            var points := [Point(3, 0), Point(2, 0)];
            && Valid(c) && PointsInside(points, 4, 1) && AllFit(c, DragRows(pen, points, 4, 1))
            && Near(1, points, 0, 3)
            && Pixel(Stroke(c, DragRows(pen, points, 4, 1)), 0, 3) == 0
  {
    var c, pen := Canvas(4, 1, [7, 7, 7, 7], [0, 0, 0, 0], [[]]), Pen(1, false, 9, mix);
    var points := [Point(3, 0), Point(2, 0)];
    DragRowsFit(c, pen, points);
    OnePoint(pen, 3);
    OnePoint(pen, 2);
    var a, b := Draw(pen, 0, 2, 3), Draw(pen, 0, 1, 3);
    TwoPoints(pen, points, a, b);
    assert Close(1, points[0], 0, 3);
    StrokeHead(c, a, [b]);
    var d := DrawnRow(c, a);
    assert [b] == [b] + [];
    StrokeHead(d, b, []);
    FirstTouchOfBorder(c, pen, a);
    assert Covered(d.ranges[0], 3);
    DrawnPixel(d, b, 0, 3);
  }

  lemma {:induction false} TwoPoints(pen: Pen<int>, points: seq<Point>, a: Draw<int>, b: Draw<int>)
    requires points == [Point(3, 0), Point(2, 0)]
    requires PointRows(pen, 3, 0, 4, 1) == [a] && PointRows(pen, 2, 0, 4, 1) == [b]
    ensures DragRows(pen, points, 4, 1) == [a] + [b]
  {
    assert points[1..] == [Point(2, 0)] && points[1..][1..] == [];
    assert DragRows(pen, points[1..][1..], 4, 1) == [];
    assert DragRows(pen, points[1..], 4, 1) == [b] + [];
  }

  lemma FirstTouchOfBorder(c: Canvas<int>, pen: Pen<int>, a: Draw<int>)
    requires c == Canvas(4, 1, [7, 7, 7, 7], [0, 0, 0, 0], [[]]) && a == Draw(pen, 0, 2, 3)
    ensures Valid(c) && Fits(c, a) && Covered(DrawnRow(c, a).ranges[0], 3) && DrawnRow(c, a).buf[2] == 0
  {
    var d := DrawnRow(c, a);
    assert d.ranges[0] == [Range(2, 3)];
    assert d.ranges[0][0].first <= 3 <= d.ranges[0][0].last;
  }

  lemma OnePoint(pen: Pen<int>, x: nat)
    requires x < 4 && pen.size == 1
    ensures PointRows(pen, x, 0, 4, 1) == [Draw(pen, 0, Max(0, x - 1), Min(3, x + 1))]
  {
    HalfWidthAtMost(1, 0);
    assert RowsFrom(pen, x, 0, 2, 4, 1) == [];
    assert RowPair(pen, x, 0, 1, 4, 1) == [];
    assert RowsFrom(pen, x, 0, 1, 4, 1) == [];
  }
}
