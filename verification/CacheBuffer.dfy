/** The cache of a rendered image, filled tile by tile. */
module CacheBuffers {
  import opened Basics

  const TILE := 128

  /** An image that is computed on demand. */
  datatype Source<!P> = Source(width: nat, height: nat, at: (nat, nat) -> P)

  // -------------------------------------------------------------------------
  // The walk over the tiles
  // -------------------------------------------------------------------------

  /** The tile to be done next. */
  datatype Cursor = Cursor(x: nat, y: nat, completed: bool)

  function Next(w: nat, h: nat, c: Cursor): Cursor {
    var x := if c.x + TILE >= w then 0 else c.x + TILE;
    var y := if c.x + TILE >= w then c.y + TILE else c.y;
    Cursor(x, y, y >= h)
  }

  predicate InTile(c: Cursor, x: nat, y: nat) {
    c.x <= x < c.x + TILE && c.y <= y < c.y + TILE
  }

  /** The pixel lies in a tile before the cursor. */
  predicate Done(c: Cursor, x: nat, y: nat) {
    y < c.y || (y < c.y + TILE && x < c.x)
  }

  ghost predicate OnGrid(w: nat, h: nat, c: Cursor) {
    c.x % TILE == 0 && c.y % TILE == 0 && if c.completed then c.x == 0 && c.y >= h else c.x < w && c.y < h
  }

  /** The number of tiles side by side: the quotient, rounded up. */
  function Tiles(n: nat): nat {
    (n + TILE - 1) / TILE
  }

  /** The number of tiles before the cursor. */
  function Number(w: nat, c: Cursor): nat {
    c.y / TILE * Tiles(w) + c.x / TILE
  }

  /** Each step adds the pixels of one tile to those that are done, none of which was done before. */
  lemma NextTile(w: nat, h: nat, c: Cursor, x: nat, y: nat)
    requires OnGrid(w, h, c) && !c.completed && x < w && y < h
    ensures OnGrid(w, h, Next(w, h, c))
    ensures Done(Next(w, h, c), x, y) <==> Done(c, x, y) || InTile(c, x, y)
    ensures !(Done(c, x, y) && InTile(c, x, y))
    ensures Next(w, h, c).completed ==> Done(Next(w, h, c), x, y)
  {
  }

  lemma NextNumber(w: nat, h: nat, c: Cursor)
    requires OnGrid(w, h, c) && !c.completed
    ensures Number(w, Next(w, h, c)) == Number(w, c) + 1
    ensures Next(w, h, c).completed ==> Number(w, Next(w, h, c)) == Tiles(w) * Tiles(h)
    ensures Number(w, c) < Tiles(w) * Tiles(h)
  {
    var n, rows, t := Next(w, h, c), c.y / TILE, Tiles(w);
    assert rows < Tiles(h);
    assert (rows + 1) * t == rows * t + t;
    MoreRows(rows + 1, Tiles(h), t);
    if c.x + TILE >= w {
      assert c.x / TILE + 1 == t;
      assert n.y / TILE == rows + 1;
      if n.completed {
        assert rows + 1 == Tiles(h);
      }
    } else {
      assert (c.x + TILE) / TILE == c.x / TILE + 1;
    }
  }

  lemma MoreRows(a: nat, b: nat, t: nat)
    requires a <= b
    ensures a * t <= b * t
  {
  }

  function Start(): Cursor {
    Cursor(0, 0, false)
  }

  /** The cursor after up to n tiles. */
  function Advanced(w: nat, h: nat, c: Cursor, n: nat): Cursor
    decreases n
  {
    if n == 0 || c.completed then c else Advanced(w, h, Next(w, h, c), n - 1)
  }

  lemma {:induction false} AdvancedOnGrid(w: nat, h: nat, c: Cursor, n: nat)
    requires OnGrid(w, h, c)
    ensures OnGrid(w, h, Advanced(w, h, c, n))
    decreases n
  {
    if n > 0 && !c.completed {
      NextOnGrid(w, h, c);
      AdvancedOnGrid(w, h, Next(w, h, c), n - 1);
    }
  }

  lemma NextOnGrid(w: nat, h: nat, c: Cursor)
    requires OnGrid(w, h, c) && !c.completed
    ensures OnGrid(w, h, Next(w, h, c))
  {
    NextTile(w, h, c, 0, 0);
  }

  /** The number of tiles before a cursor, and of all tiles, as far as a walk is concerned. */
  ghost predicate Counts(w: nat, h: nat, c: Cursor, k: nat) {
    k == Number(w, c) && (c.completed ==> k == Tiles(w) * Tiles(h)) && (!c.completed ==> k < Tiles(w) * Tiles(h))
  }

  lemma NextCounts(w: nat, h: nat, c: Cursor, k: nat)
    requires OnGrid(w, h, c) && !c.completed && Counts(w, h, c, k)
    ensures Counts(w, h, Next(w, h, c), k + 1)
  {
    NextNumber(w, h, c);
    NextOnGrid(w, h, c);
    if !Next(w, h, c).completed {
      NextNumber(w, h, Next(w, h, c));
    }
  }

  lemma {:induction false} AdvancedNumber(w: nat, h: nat, c: Cursor, n: nat, k: nat) returns (m: nat)
    requires OnGrid(w, h, c) && Counts(w, h, c, k)
    ensures Counts(w, h, Advanced(w, h, c, n), m)
    ensures !Advanced(w, h, c, n).completed ==> m == k + n
    ensures m <= k + n && (n > 0 && !c.completed ==> m > k)
    decreases n
  {
    m := k;
    if n > 0 && !c.completed {
      NextOnGrid(w, h, c);
      NextCounts(w, h, c, k);
      m := AdvancedNumber(w, h, Next(w, h, c), n - 1, k + 1);
    }
  }

  lemma StartCounts(w: nat, h: nat)
    requires w > 0 && h > 0
    ensures OnGrid(w, h, Start()) && Counts(w, h, Start(), 0)
  {
    NextNumber(w, h, Start());
  }

  /** The walk is over after exactly as many tiles as cover the image, and not earlier. */
  lemma {:induction false} WalkEnds(w: nat, h: nat, n: nat)
    requires w > 0 && h > 0
    ensures Advanced(w, h, Start(), n).completed <==> n >= Tiles(w) * Tiles(h)
  {
    StartCounts(w, h);
    var m := AdvancedNumber(w, h, Start(), n, 0);
  }

  // -------------------------------------------------------------------------
  // The buffer
  // -------------------------------------------------------------------------

  function Index(w: nat, x: nat, y: nat): nat {
    w * y + x
  }

  lemma IndexFits(w: nat, h: nat, x: nat, y: nat)
    requires x < w && y < h
    ensures Index(w, x, y) < w * h
  {
    MoreRows(y + 1, h, w);
    assert w * (y + 1) == w * y + w;
  }

  /** Rows do not overlap. */
  lemma RowsApart(w: nat, x: nat, y: nat, left: nat, row: nat, n: nat)
    requires x < w && left + n <= w
    ensures Index(w, left, row) <= Index(w, x, y) < Index(w, left, row) + n <==> y == row && left <= x < left + n
  {
    if y < row {
      MoreRows(y + 1, row, w);
      assert w * (y + 1) == w * y + w;
    } else if y > row {
      MoreRows(row + 1, y, w);
      assert w * (row + 1) == w * row + w;
    }
  }

  class CacheBuffer<P(0)> {
    var image: Option<Source<P>>
    var memarray: array?<P>
    var cursor: Cursor
    ghost var before: seq<P>

    /** Every pixel that is done is that of the image; the others have not been written. */
    ghost predicate Valid()
      reads this, memarray
    {
      match image
      case None => cursor == Start() && memarray == null
      case Some(i) =>
        && i.width > 0 && i.height > 0 && OnGrid(i.width, i.height, cursor)
        && (memarray == null ==> cursor == Start())
        && (memarray != null ==>
              memarray.Length == i.width * i.height == |before| && Filled(i, memarray[..], before, cursor))
    }

    constructor ()
      ensures Valid() && image == None
    {
      image, memarray, cursor, before := None, null, Start(), [];
    }

    method Reset()
      modifies this
      ensures Valid() && image == None
    {
      image, memarray, cursor := None, null, Start();
    }

    method SetImage(i: Source<P>)
      requires Valid() && image == None && i.width > 0 && i.height > 0
      modifies this
      ensures Valid() && image == Some(i) && cursor == Start()
    {
      image := Some(i);
    }

    /** Computes one line of a tile. */
    method ComputeLine(i: Source<P>, x0: nat, y0: nat, buf: array<P>, y: nat, width: nat)
      requires buf.Length == TILE * TILE && y < TILE && width <= TILE
      modifies buf
      ensures forall k :: 0 <= k < buf.Length ==>
                buf[k] == if TILE * y <= k < TILE * y + width then i.at(x0 + (k - TILE * y), y0 + y) else old(buf[k])
    {
      for x := 0 to width
        invariant forall k :: 0 <= k < buf.Length ==>
                    buf[k] == if TILE * y <= k < TILE * y + x then i.at(x0 + (k - TILE * y), y0 + y) else old(buf[k])
      {
        buf[TILE * y + x] := i.at(x0 + x, y0 + y);
      }
    }

    /** Computes one tile into its buffer. */
    method StepCb(i: Source<P>, x0: nat, y0: nat, buf: array<P>)
      requires buf.Length == TILE * TILE && x0 < i.width && y0 < i.height
      modifies buf
      ensures TileReady(i, x0, y0, buf[..], Min(TILE, i.height - y0))
    {
      var width, height := Min(TILE, i.width - x0), Min(TILE, i.height - y0);
      for y := 0 to height
        invariant TileReady(i, x0, y0, buf[..], y)
      {
        ghost var was := buf[..];
        ComputeLine(i, x0, y0, buf, y, width);
        forall a, b | 0 <= a < width && 0 <= b < y + 1 ensures TileHolds(i, x0, y0, buf[..], a, b) {
          if b < y {
            assert TileHolds(i, x0, y0, was, a, b);
          }
        }
      }
    }

    /** Writes a piece of a row. */
    method CopyRow(mem: array<P>, offset: nat, buf: array<P>, p: nat, n: nat)
      requires mem != buf && offset + n <= mem.Length && p + n <= buf.Length
      modifies mem
      ensures forall k :: 0 <= k < mem.Length ==>
                mem[k] == if offset <= k < offset + n then buf[p + (k - offset)] else old(mem[k])
    {
      for j := 0 to n
        invariant forall k :: 0 <= k < mem.Length ==>
                    mem[k] == if offset <= k < offset + j then buf[p + (k - offset)] else old(mem[k])
      {
        mem[offset + j] := buf[p + j];
      }
    }

    /** Copies a computed tile to its place. */
    method CopyTile(i: Source<P>, mem: array<P>, c: Cursor, buf: array<P>)
      requires mem != buf && mem.Length == i.width * i.height && buf.Length == TILE * TILE && c.x < i.width
               && c.y < i.height
      requires TileReady(i, c.x, c.y, buf[..], Min(TILE, i.height - c.y))
      modifies mem
      ensures RowsCopied(i, old(mem[..]), mem[..], c, Min(TILE, i.height - c.y))
    {
      ghost var was := mem[..];
      var width, height := Min(TILE, i.width - c.x), Min(TILE, i.height - c.y);
      for y := 0 to height
        invariant RowsCopied(i, was, mem[..], c, y)
      {
        ghost var now := mem[..];
        IndexFits(i.width, i.height, c.x + width - 1, c.y + y);
        CopyRow(mem, Index(i.width, c.x, c.y + y), buf, TILE * y, width);
        RowCopied(i, was, now, mem[..], c, y, buf[..]);
      }
    }

    /** One step of the cache with any number of threads: each takes the next tile, then all tiles
        are copied. */
    method Step(nthreads: nat)
      requires Valid() && nthreads > 0
      modifies this, memarray
      ensures Valid() && image == old(image)
      ensures image.Some? ==> cursor == Advanced(image.value.width, image.value.height, old(cursor), nthreads)
      ensures image.Some? && !old(cursor).completed ==> memarray != null
      ensures old(memarray) != null ==> memarray == old(memarray) && before == old(before)
      ensures old(memarray) == null ==> memarray == null || fresh(memarray)
    {
      if cursor.completed || image.None? {
        return;
      }
      var i := image.value;
      var tiles := TakeTiles(i, nthreads);
      if memarray == null {
        memarray := new P[i.width * i.height];
        before := memarray[..];
        NothingDone(i, before);
      }
      ghost var c := old(cursor);
      for t := 0 to |tiles|
        invariant cursor == Advanced(i.width, i.height, c, nthreads) && image == Some(i)
        invariant memarray != null && memarray.Length == i.width * i.height == |before|
        invariant old(memarray) != null ==> memarray == old(memarray) && before == old(before)
        invariant old(memarray) == null ==> fresh(memarray)
        invariant Filled(i, memarray[..], before, Advanced(i.width, i.height, c, t))
      {
        TakenAt(i.width, i.height, c, nthreads, t);
        var buf := new P[TILE * TILE];
        StepCb(i, tiles[t].x, tiles[t].y, buf);
        ghost var was := memarray[..];
        CopyTile(i, memarray, tiles[t], buf);
        TileFilled(i, was, memarray[..], before, tiles[t]);
      }
      TakenLength(i.width, i.height, c, nthreads);
      AdvancedOnGrid(i.width, i.height, c, nthreads);
    }

    /** The first loop of a step. */
    method TakeTiles(i: Source<P>, nthreads: nat) returns (tiles: seq<Cursor>)
      requires !cursor.completed
      modifies this`cursor
      ensures tiles == Taken(i.width, i.height, old(cursor), nthreads)
      ensures cursor == Advanced(i.width, i.height, old(cursor), nthreads)
    {
      tiles := [];
      ghost var c0 := cursor;
      for t := 0 to nthreads
        invariant !cursor.completed
        invariant Taken(i.width, i.height, c0, nthreads) == tiles + Taken(i.width, i.height, cursor, nthreads - t)
        invariant Advanced(i.width, i.height, c0, nthreads) == Advanced(i.width, i.height, cursor, nthreads - t)
      {
        ghost var c := cursor;
        TakenNext(i.width, i.height, tiles, c, nthreads - t);
        tiles := tiles + [cursor];
        var x, y := cursor.x + TILE, cursor.y;
        if x >= i.width {
          x := 0;
          y := y + TILE;
        }
        cursor := Cursor(x, y, y >= i.height);
        assert cursor == Next(i.width, i.height, c);
        if cursor.completed {
          return;
        }
      }
    }
  }

  lemma TakenNext(w: nat, h: nat, tiles: seq<Cursor>, c: Cursor, n: nat)
    requires !c.completed && n > 0
    ensures tiles + Taken(w, h, c, n) == (tiles + [c]) + Taken(w, h, Next(w, h, c), n - 1)
    ensures Advanced(w, h, c, n) == Advanced(w, h, Next(w, h, c), n - 1)
    ensures Next(w, h, c).completed ==>
              tiles + Taken(w, h, c, n) == tiles + [c] && Advanced(w, h, c, n) == Next(w, h, c)
  {
    assert Next(w, h, c).completed ==> Taken(w, h, Next(w, h, c), n - 1) == [];
  }

  /** The tiles of one step. */
  function Taken(w: nat, h: nat, c: Cursor, n: nat): seq<Cursor>
    decreases n
  {
    if n == 0 || c.completed then [] else [c] + Taken(w, h, Next(w, h, c), n - 1)
  }

  lemma {:induction false} TakenAt(w: nat, h: nat, c: Cursor, n: nat, t: nat)
    requires OnGrid(w, h, c) && t < |Taken(w, h, c, n)|
    ensures var a := Advanced(w, h, c, t);
            Taken(w, h, c, n)[t] == a && OnGrid(w, h, a) && !a.completed && Advanced(w, h, c, t + 1) == Next(w, h, a)
    decreases n
  {
    if t > 0 {
      NextNumber(w, h, c);
      NextTile(w, h, c, 0, 0);
      TakenAt(w, h, Next(w, h, c), n - 1, t - 1);
    }
  }

  lemma {:induction false} TakenLength(w: nat, h: nat, c: Cursor, n: nat)
    ensures Advanced(w, h, c, |Taken(w, h, c, n)|) == Advanced(w, h, c, n)
    decreases n
  {
    if n > 0 && !c.completed {
      TakenLength(w, h, Next(w, h, c), n - 1);
    }
  }

  /** The pixels done are those of the image, the others are as they were before. */
  ghost predicate Filled<P>(i: Source<P>, mem: seq<P>, before: seq<P>, c: Cursor)
    requires |mem| == |before| == i.width * i.height
  {
    forall x: nat, y: nat :: x < i.width && y < i.height ==>
      PixelAt(mem, i.width, i.height, x, y) == if Done(c, x, y) then i.at(x, y)
          else PixelAt(before, i.width, i.height, x, y)
  }

  lemma NothingDone<P>(i: Source<P>, mem: seq<P>)
    requires |mem| == i.width * i.height
    ensures Filled(i, mem, mem, Start())
  {
  }

  lemma TileFilled<P>(i: Source<P>, was: seq<P>, now: seq<P>, before: seq<P>, c: Cursor)
    requires |was| == |now| == |before| == i.width * i.height
    requires OnGrid(i.width, i.height, c) && !c.completed
    requires Filled(i, was, before, c) && RowsCopied(i, was, now, c, Min(TILE, i.height - c.y))
    ensures Filled(i, now, before, Next(i.width, i.height, c))
  {
    forall x: nat, y: nat | x < i.width && y < i.height
      ensures PixelAt(now, i.width, i.height, x, y)
           == if Done(Next(i.width, i.height, c), x, y) then i.at(x, y) else PixelAt(before, i.width, i.height, x, y)
    {
      NextTile(i.width, i.height, c, x, y);
    }
  }

  /** When the walk is over the buffer is the image. */
  lemma CompletedIsImage<P>(i: Source<P>, mem: seq<P>, before: seq<P>, c: Cursor, x: nat, y: nat)
    requires |mem| == |before| == i.width * i.height && x < i.width && y < i.height
    requires Filled(i, mem, before, c) && OnGrid(i.width, i.height, c) && c.completed
    ensures PixelAt(mem, i.width, i.height, x, y) == i.at(x, y)
  {
  }

  /** Steps until the cache is complete, each with its own number of threads. */
  method CacheAll<P(0)>(cache: CacheBuffer<P>, i: Source<P>, threads: nat -> nat)
    requires cache.Valid() && cache.image == Some(i) && cache.cursor == Start() && cache.memarray == null
    requires forall k :: threads(k) > 0
    modifies cache
    ensures cache.Valid() && cache.cursor.completed && cache.memarray != null
            && cache.memarray.Length == i.width * i.height
    ensures forall x: nat, y: nat :: x < i.width && y < i.height ==>
              PixelAt(cache.memarray[..], i.width, i.height, x, y) == i.at(x, y)
  {
    var k := 0;
    ghost var done: nat := 0;
    StartCounts(i.width, i.height);
    while !cache.cursor.completed
      invariant cache.Valid() && cache.image == Some(i)
      invariant Counts(i.width, i.height, cache.cursor, done)
      invariant cache.cursor != Start() ==> cache.memarray != null
      invariant cache.memarray != null ==> fresh(cache.memarray)
      decreases Tiles(i.width) * Tiles(i.height) - done
    {
      done := AdvancedNumber(i.width, i.height, cache.cursor, threads(k), done);
      cache.Step(threads(k));
      k := k + 1;
    }
    forall x: nat, y: nat | x < i.width && y < i.height
      ensures PixelAt(cache.memarray[..], i.width, i.height, x, y) == i.at(x, y)
    {
      CompletedIsImage(i, cache.memarray[..], cache.before, cache.cursor, x, y);
    }
  }

  /** The buffer of a tile holds the pixels of the image. */
  ghost predicate TileHolds<P>(i: Source<P>, x0: nat, y0: nat, buf: seq<P>, x: nat, y: nat)
    requires |buf| == TILE * TILE && x < TILE && y < TILE
  {
    buf[TILE * y + x] == i.at(x0 + x, y0 + y)
  }

  ghost predicate TileReady<P>(i: Source<P>, x0: nat, y0: nat, buf: seq<P>, rows: nat)
    requires |buf| == TILE * TILE && x0 <= i.width && rows <= TILE
  {
    forall a, b :: 0 <= a < Min(TILE, i.width - x0) && 0 <= b < rows ==> TileHolds(i, x0, y0, buf, a, b)
  }

  ghost function PixelAt<P>(mem: seq<P>, w: nat, h: nat, x: nat, y: nat): P
    requires x < w && y < h && |mem| == w * h
  {
    IndexFits(w, h, x, y);
    mem[Index(w, x, y)]
  }

  /** The first rows of a tile have been copied, and nothing else has changed. */
  ghost predicate RowsCopied<P>(i: Source<P>, was: seq<P>, now: seq<P>, c: Cursor, rows: nat)
    requires |was| == |now| == i.width * i.height
  {
    forall x: nat, y: nat :: x < i.width && y < i.height ==>
      PixelAt(now, i.width, i.height, x, y)
      == if InTile(c, x, y) && y < c.y + rows then i.at(x, y) else PixelAt(was, i.width, i.height, x, y)
  }

  lemma RowCopied<P>(i: Source<P>, was: seq<P>, mid: seq<P>, now: seq<P>, c: Cursor, y: nat, buf: seq<P>)
    requires |was| == |mid| == |now| == i.width * i.height && |buf| == TILE * TILE && c.x < i.width
             && c.y + y < i.height && y < TILE
    requires RowsCopied(i, was, mid, c, y)
    requires forall a :: 0 <= a < Min(TILE, i.width - c.x) ==> TileHolds(i, c.x, c.y, buf, a, y)
    requires var width, offset := Min(TILE, i.width - c.x), Index(i.width, c.x, c.y + y);
             forall k :: 0 <= k < |now| ==>
                   now[k] == if offset <= k < offset + width then buf[TILE * y + (k - offset)] else mid[k]
    ensures RowsCopied(i, was, now, c, y + 1)
  {
    var width, offset := Min(TILE, i.width - c.x), Index(i.width, c.x, c.y + y);
    forall a: nat, b: nat | a < i.width && b < i.height
      ensures PixelAt(now, i.width, i.height, a, b)
           == if InTile(c, a, b) && b < c.y + (y + 1) then i.at(a, b) else PixelAt(was, i.width, i.height, a, b)
    {
      IndexFits(i.width, i.height, a, b);
      RowsApart(i.width, a, b, c.x, c.y + y, width);
      var k := Index(i.width, a, b);
      assert now[k] == if offset <= k < offset + width then buf[TILE * y + (k - offset)] else mid[k];
      assert PixelAt(mid, i.width, i.height, a, b) == mid[k];
      if b == c.y + y && c.x <= a < c.x + width {
        assert TileHolds(i, c.x, c.y, buf, a - c.x, y);
      }
    }
  }
}
