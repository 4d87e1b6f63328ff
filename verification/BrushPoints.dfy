/** The rows of a brush point cover a disk; strokes of points. */
module BrushPoints {
  import opened Basics
  import opened BrushStrokes
  import opened OpaqueStrokes

  function Intersect(a: Rect, b: Rect): Rect {
    var left, top := Max(a.left, b.left), Max(a.top, b.top);
    var right, bottom := Min(a.left + a.width, b.left + b.width), Min(a.top + a.height, b.top + b.height);
    Rect(left, top, Max(0, right - left), Max(0, bottom - top))
  }

  /** The common part of two rectangles holds exactly the pixels of both. */
  lemma IntersectIsCommon(a: Rect, b: Rect, row: int, col: int)
    requires a.width >= 0 && a.height >= 0 && b.width >= 0 && b.height >= 0
    ensures Inside(Intersect(a, b), row, col) <==> Inside(a, row, col) && Inside(b, row, col)
  {
  }

  function RootFrom(n: nat, d: nat): (r: nat)
    requires d * d <= n
    ensures r * r <= n < (r + 1) * (r + 1)
    decreases n - d * d
  {
    if (d + 1) * (d + 1) <= n then RootFrom(n, d + 1) else d
  }

  /** The square root, rounded down. */
  function Root(n: nat): (r: nat)
    ensures r * r <= n < (r + 1) * (r + 1)
  {
    RootFrom(n, 0)
  }

  lemma RootBounds(n: nat, d: int)
    ensures -(Root(n) as int) <= d <= Root(n) <==> d * d <= n
  {
    var r := Root(n);
    Squares(d, r);
    Squares(d, r + 1);
  }

  lemma Squares(d: int, r: nat)
    ensures -(r as int) <= d <= r ==> d * d <= r * r
    ensures d >= r || -d >= r ==> d * d >= r * r
  {
    var e := if d < 0 then -d else d;
    assert e * e == d * d;
    if e <= r {
      SquareGrows(e, r);
    }
    if e >= r {
      SquareGrows(r, e);
    }
  }

  lemma SquareGrows(y: nat, size: nat)
    requires y <= size
    ensures y * y <= size * size
  {
  }

  // -------------------------------------------------------------------------
  // Points
  // -------------------------------------------------------------------------

  function HalfWidth(size: nat, y: nat): nat
    requires y <= size
  {
    SquareGrows(y, size);
    Root(size * size - y * y)
  }

  function RowAt<P>(pen: Pen<P>, x0: nat, row: nat, y: nat, xsize: nat): Draw<P>
    requires y <= pen.size && x0 < xsize
  {
    var d := HalfWidth(pen.size, y);
    Draw(pen, row, Max(0, x0 - d), Min(xsize - 1, x0 + d))
  }

  /** The row above the centre, then the row below. */
  function RowPair<P>(pen: Pen<P>, x0: nat, y0: nat, y: nat, xsize: nat, ysize: nat): seq<Draw<P>>
    requires y <= pen.size && x0 < xsize
  {
    (if y0 - y >= 0 then [RowAt(pen, x0, y0 - y, y, xsize)] else [])
    + (if y != 0 && y0 + y < ysize then [RowAt(pen, x0, y0 + y, y, xsize)] else [])
  }

  function RowsFrom<P>(pen: Pen<P>, x0: nat, y0: nat, y: nat, xsize: nat, ysize: nat): seq<Draw<P>>
    requires x0 < xsize
    decreases pen.size + 1 - y
  {
    if y > pen.size then [] else RowPair(pen, x0, y0, y, xsize, ysize) + RowsFrom(pen, x0, y0, y + 1, xsize, ysize)
  }

  function PointRows<P>(pen: Pen<P>, x0: nat, y0: nat, xsize: nat, ysize: nat): seq<Draw<P>>
    requires x0 < xsize
  {
    RowsFrom(pen, x0, y0, 0, xsize, ysize)
  }

  lemma {:induction false} PointRowsFit<P>(c: Canvas<P>, pen: Pen<P>, x0: nat, y0: nat, y: nat)
    requires x0 < c.xsize && y0 < c.ysize
    ensures AllFit(c, RowsFrom(pen, x0, y0, y, c.xsize, c.ysize))
    ensures forall i :: 0 <= i < |RowsFrom(pen, x0, y0, y, c.xsize, c.ysize)| ==>
              RowsFrom(pen, x0, y0, y, c.xsize, c.ysize)[i].pen == pen
    decreases pen.size + 1 - y
  {
    if y <= pen.size {
      PointRowsFit(c, pen, x0, y0, y + 1);
    }
  }

  lemma TouchedConcat<P>(a: seq<Draw<P>>, b: seq<Draw<P>>, row: nat, col: nat)
    ensures Touched(a + b, row, col) <==> Touched(a, row, col) || Touched(b, row, col)
  {
    if Touched(a, row, col) {
      var i :| 0 <= i < |a| && Touches(a[i], row, col);
      assert Touches((a + b)[i], row, col);
    }
    if Touched(b, row, col) {
      var i :| 0 <= i < |b| && Touches(b[i], row, col);
      assert Touches((a + b)[|a| + i], row, col);
    }
    if Touched(a + b, row, col) {
      var i :| 0 <= i < |a + b| && Touches((a + b)[i], row, col);
      assert if i < |a| then Touches(a[i], row, col) else Touches(b[i - |a|], row, col);
    }
  }

  function Square(a: int): int {
    a * a
  }

  lemma RowAtTouches<P>(pen: Pen<P>, x0: nat, row: nat, y: nat, xsize: nat, col: nat)
    requires y <= pen.size && x0 < xsize && col < xsize
    ensures Touches(RowAt(pen, x0, row, y, xsize), row, col) <==> Square(col - x0) + Square(y) <= Square(pen.size)
  {
    SquareGrows(y, pen.size);
    RootBounds(pen.size * pen.size - y * y, col - x0);
  }

  lemma {:induction false} RowsCover<P>(pen: Pen<P>, x0: nat, y0: nat, y: nat, xsize: nat, ysize: nat, row: nat,
                                        col: nat)
    requires x0 < xsize && y0 < ysize && row < ysize && col < xsize
    ensures Touched(RowsFrom(pen, x0, y0, y, xsize, ysize), row, col)
       <==> y <= Distance(row, y0) <= pen.size && Square(col - x0) + Square(Distance(row, y0)) <= Square(pen.size)
    decreases pen.size + 1 - y
  {
    if y <= pen.size {
      RowsCover(pen, x0, y0, y + 1, xsize, ysize, row, col);
      TouchedConcat(RowPair(pen, x0, y0, y, xsize, ysize), RowsFrom(pen, x0, y0, y + 1, xsize, ysize), row, col);
      PairCovers(pen, x0, y0, y, xsize, ysize, row, col);
    }
  }

  function Distance(a: nat, b: nat): nat {
    if a >= b then a - b else b - a
  }

  lemma PairCovers<P>(pen: Pen<P>, x0: nat, y0: nat, y: nat, xsize: nat, ysize: nat, row: nat, col: nat)
    requires x0 < xsize && y0 < ysize && row < ysize && col < xsize && y <= pen.size
    ensures Touched(RowPair(pen, x0, y0, y, xsize, ysize), row, col)
       <==> Distance(row, y0) == y && Square(col - x0) + Square(y) <= Square(pen.size)
  {
    RowAtTouches(pen, x0, row, y, xsize, col);
    var pair, it := RowPair(pen, x0, y0, y, xsize, ysize), RowAt(pen, x0, row, y, xsize);
    if Distance(row, y0) == y && Touches(it, row, col) {
      assert it == if row <= y0 then pair[0] else pair[|pair| - 1];
    }
  }

  /** Inside the image a point covers exactly the pixels at a distance of at most its size. */
  lemma PointCoversDisk<P>(pen: Pen<P>, x0: nat, y0: nat, xsize: nat, ysize: nat, row: nat, col: nat)
    requires x0 < xsize && y0 < ysize && row < ysize && col < xsize
    ensures Touched(PointRows(pen, x0, y0, xsize, ysize), row, col)
       <==> Square(col - x0) + Square(row - y0) <= Square(pen.size)
  {
    RowsCover(pen, x0, y0, 0, xsize, ysize, row, col);
    DiskRow(col - x0, row - y0, Distance(row, y0), pen.size);
  }

  lemma DiskRow(dx: int, dy: int, y: nat, size: nat)
    requires y == dy || y == -dy
    ensures Square(y) == Square(dy)
    ensures Square(dx) + Square(dy) <= Square(size) ==> y <= size && -(size as int) <= dx <= size
  {
    assert Square(dx) >= 0 && Square(dy) >= 0;
    SquareOrder(y, size);
    SquareOrder(if dx < 0 then -dx else dx, size);
    assert Square(dx) == Square(-dx);
  }

  lemma SquareOrder(a: nat, b: nat)
    ensures Square(a) <= Square(b) <==> a <= b
  {
    if a <= b {
      SquareGrows(a, b);
    } else {
      SquareGrows(b + 1, a);
      assert Square(b + 1) > Square(b);
    }
  }

  /** The area that is reported as changed. */
  function UpdateArea(size: nat, x0: nat, y0: nat, xsize: nat, ysize: nat): Rect {
    Intersect(Rect(0, 0, xsize, ysize), Rect(x0 - size, y0 - size, 2 * size + 1, 2 * size + 1))
  }

  /** It holds every touched pixel, nothing outside the image, and no column or row that is
      further away than the size. */
  lemma UpdateAreaIsTight<P>(pen: Pen<P>, x0: nat, y0: nat, xsize: nat, ysize: nat, row: nat, col: nat)
    requires x0 < xsize && y0 < ysize && row < ysize && col < xsize
    ensures Touched(PointRows(pen, x0, y0, xsize, ysize), row, col) ==>
              Inside(UpdateArea(pen.size, x0, y0, xsize, ysize), row, col)
    ensures Inside(UpdateArea(pen.size, x0, y0, xsize, ysize), row, col)
        ==> Touched(PointRows(pen, x0, y0, xsize, ysize), y0, col)
            && Touched(PointRows(pen, x0, y0, xsize, ysize), row, x0)
  {
    PointCoversDisk(pen, x0, y0, xsize, ysize, row, col);
    DiskRow(col - x0, row - y0, Distance(row, y0), pen.size);
    if Inside(UpdateArea(pen.size, x0, y0, xsize, ysize), row, col) {
      PointCoversDisk(pen, x0, y0, xsize, ysize, y0, col);
      PointCoversDisk(pen, x0, y0, xsize, ysize, row, x0);
      DiskCross(col - x0, pen.size);
      DiskCross(row - y0, pen.size);
    }
  }

  lemma DiskCross(d: int, size: nat)
    requires -(size as int) <= d <= size
    ensures Square(d) + Square(0) <= Square(size) && Square(0) + Square(d) <= Square(size)
  {
    SquareOrder(if d < 0 then -d else d, size);
    assert Square(d) == Square(-d);
  }

  // -------------------------------------------------------------------------
  // Dragging the pen
  // -------------------------------------------------------------------------

  datatype Point = Point(x: nat, y: nat)

  ghost predicate PointsInside(points: seq<Point>, xsize: nat, ysize: nat) {
    forall i :: 0 <= i < |points| ==> points[i].x < xsize && points[i].y < ysize
  }

  function DragRows<P>(pen: Pen<P>, points: seq<Point>, xsize: nat, ysize: nat): seq<Draw<P>>
    requires PointsInside(points, xsize, ysize)
    decreases |points|
  {
    if points == [] then []
    else PointRows(pen, points[0].x, points[0].y, xsize, ysize) + DragRows(pen, points[1..], xsize, ysize)
  }

  predicate Close(size: nat, p: Point, row: nat, col: nat) {
    Square(col - p.x) + Square(row - p.y) <= Square(size)
  }

  /** Some point of the drag lies close enough. */
  predicate Near(size: nat, points: seq<Point>, row: nat, col: nat) {
    exists i :: 0 <= i < |points| && Close(size, points[i], row, col)
  }

  lemma NearSplits(size: nat, points: seq<Point>, row: nat, col: nat)
    requires points != []
    ensures Near(size, points, row, col) <==> Close(size, points[0], row, col) || Near(size, points[1..], row, col)
  {
    if Near(size, points[1..], row, col) {
      var i :| 0 <= i < |points[1..]| && Close(size, points[1..][i], row, col);
      assert Close(size, points[i + 1], row, col);
    }
    if Near(size, points, row, col) {
      var i :| 0 <= i < |points| && Close(size, points[i], row, col);
      assert i == 0 || points[i] == points[1..][i - 1];
    }
  }

  lemma {:induction false} DragRowsFit<P>(c: Canvas<P>, pen: Pen<P>, points: seq<Point>)
    requires PointsInside(points, c.xsize, c.ysize)
    ensures AllFit(c, DragRows(pen, points, c.xsize, c.ysize))
    ensures forall i :: 0 <= i < |DragRows(pen, points, c.xsize, c.ysize)| ==>
              DragRows(pen, points, c.xsize, c.ysize)[i].pen == pen
    decreases |points|
  {
    if points != [] {
      PointRowsFit(c, pen, points[0].x, points[0].y, 0);
      DragRowsFit(c, pen, points[1..]);
    }
  }

  lemma {:induction false} DragCovers<P>(pen: Pen<P>, points: seq<Point>, xsize: nat, ysize: nat, row: nat, col: nat)
    requires PointsInside(points, xsize, ysize) && row < ysize && col < xsize
    ensures Touched(DragRows(pen, points, xsize, ysize), row, col) <==> Near(pen.size, points, row, col)
    decreases |points|
  {
    if points != [] {
      var p := points[0];
      PointCoversDisk(pen, p.x, p.y, xsize, ysize, row, col);
      DragCovers(pen, points[1..], xsize, ysize, row, col);
      TouchedConcat(PointRows(pen, p.x, p.y, xsize, ysize), DragRows(pen, points[1..], xsize, ysize), row, col);
      NearSplits(pen.size, points, row, col);
    }
  }

  /** Dragging a translucent pen over any points mixes its colour once into every pixel near one
      of them, and changes nothing else. */
  lemma {:induction false} DragMixesOnce<P>(c: Canvas<P>, zero: P, pen: Pen<P>, points: seq<Point>, row: nat, col: nat)
    requires Valid(c) && PointsInside(points, c.xsize, c.ysize) && row < c.ysize && col < c.xsize && pen.translucent
    ensures Valid(Started(c, zero)) && AllFit(c, DragRows(pen, points, c.xsize, c.ysize))
    ensures Pixel(Stroke(Started(c, zero), DragRows(pen, points, c.xsize, c.ysize)), row, col)
         == if Near(pen.size, points, row, col) then pen.mix(Pixel(c, row, col)) else Pixel(c, row, col)
  {
    var draws := DragRows(pen, points, c.xsize, c.ysize);
    DragRowsFit(c, pen, points);
    TranslucentStroke(c, zero, draws, row, col);
    OnePen(draws, pen, row, col, Pixel(c, row, col));
    DragCovers(pen, points, c.xsize, c.ysize, row, col);
  }

  // -------------------------------------------------------------------------
  // Dragging an opaque pen
  // -------------------------------------------------------------------------

  /** The columns of the widest row of a point, clipped at the borders. */
  function Reach(size: nat, x: nat, xsize: nat): int
    requires x < xsize
  {
    Min(xsize - 1, x + size) - Max(0, x - size)
  }

  lemma HalfWidthAtMost(size: nat, y: nat)
    requires y <= size
    ensures HalfWidth(size, y) <= size && (y == 0 ==> HalfWidth(size, y) == size)
  {
    SquareGrows(y, size);
    RootBounds(size * size - y * y, size + 1);
    RootBounds(size * size - y * y, size);
    assert (size + 1) * (size + 1) > size * size;
  }

  lemma {:induction false} RowsNoWider<P>(pen: Pen<P>, x0: nat, y0: nat, y: nat, xsize: nat, ysize: nat)
    requires x0 < xsize
    ensures forall i :: 0 <= i < |RowsFrom(pen, x0, y0, y, xsize, ysize)| ==>
              var d := RowsFrom(pen, x0, y0, y, xsize, ysize)[i]; d.last - d.first <= Reach(pen.size, x0, xsize)
    decreases pen.size + 1 - y
  {
    if y <= pen.size {
      HalfWidthAtMost(pen.size, y);
      RowsNoWider(pen, x0, y0, y + 1, xsize, ysize);
    }
  }

  lemma {:induction false} DragNoWider<P>(pen: Pen<P>, points: seq<Point>, xsize: nat, ysize: nat, w: int)
    requires PointsInside(points, xsize, ysize)
    requires forall i :: 0 <= i < |points| ==> Reach(pen.size, points[i].x, xsize) <= w
    ensures forall i :: 0 <= i < |DragRows(pen, points, xsize, ysize)| ==>
              var d := DragRows(pen, points, xsize, ysize)[i]; d.last - d.first <= w
    decreases |points|
  {
    if points != [] {
      RowsNoWider(pen, points[0].x, points[0].y, 0, xsize, ysize);
      assert forall i :: 0 <= i < |points[1..]| ==> points[1..][i] == points[i + 1];
      DragNoWider(pen, points[1..], xsize, ysize, w);
    }
  }

  /** Dragging an opaque pen colours exactly the pixels near the points if and only if the row
      buffer holds the colour whenever a pixel is written for the last time, or the colour is that
      of an empty buffer. */
  lemma {:induction false} OpaqueDragExactly<P>(c: Canvas<P>, zero: P, pen: Pen<P>, points: seq<Point>)
    requires Valid(c) && PointsInside(points, c.xsize, c.ysize) && !pen.translucent
    ensures Valid(Started(c, zero)) && AllFit(c, DragRows(pen, points, c.xsize, c.ysize))
    ensures ColorsNear(c, pen, points, Stroke(Started(c, zero), DragRows(pen, points, c.xsize, c.ysize)))
       <==> AllColored(DragRows(pen, points, c.xsize, c.ysize), c.xsize, c.ysize) || pen.color == zero
  {
    var draws := DragRows(pen, points, c.xsize, c.ysize);
    DragRowsFit(c, pen, points);
    OpaqueStrokeExactly(c, zero, draws, pen);
    forall row, col | 0 <= row < c.ysize && 0 <= col < c.xsize
      ensures Touched(draws, row, col) <==> Near(pen.size, points, row, col)
    {
      DragCovers(pen, points, c.xsize, c.ysize, row, col);
    }
  }

  ghost predicate ColorsNear<P>(c: Canvas<P>, pen: Pen<P>, points: seq<Point>, r: Canvas<P>)
    requires Valid(c) && Valid(r) && r.xsize == c.xsize && r.ysize == c.ysize
  {
    forall row, col :: 0 <= row < c.ysize && 0 <= col < c.xsize ==>
      Pixel(r, row, col) == if Near(pen.size, points, row, col) then pen.color else Pixel(c, row, col)
  }

  /** In particular if no point reaches over more columns than the first one: the first one is not
      clipped at a border more than others. */
  lemma {:induction false} OpaqueDrag<P>(c: Canvas<P>, zero: P, pen: Pen<P>, points: seq<Point>)
    requires Valid(c) && PointsInside(points, c.xsize, c.ysize) && !pen.translucent
    requires forall i :: 0 <= i < |points| ==>
               Reach(pen.size, points[i].x, c.xsize) <= Reach(pen.size, points[0].x, c.xsize)
    ensures Valid(Started(c, zero)) && AllFit(c, DragRows(pen, points, c.xsize, c.ysize))
    ensures ColorsNear(c, pen, points, Stroke(Started(c, zero), DragRows(pen, points, c.xsize, c.ysize)))
  {
    var draws := DragRows(pen, points, c.xsize, c.ysize);
    OpaqueDragExactly(c, zero, pen, points);
    if points != [] {
      var p := points[0];
      HalfWidthAtMost(pen.size, 0);
      assert draws[0] == RowAt(pen, p.x, p.y, 0, c.xsize);
      DragNoWider(pen, points, c.xsize, c.ysize, Reach(pen.size, p.x, c.xsize));
    }
    NoWiderIsColored(draws, c.xsize, c.ysize);
  }
}
