/**
 * What rotating the coordinates of single LEDs does to lines and tiles of eight, in wrapping
 * arithmetic and with device addresses of one byte. No coordinate is assumed to be in range.
 */
module Drawing {
  import opened Bits
  import opened Rotation
  import opened Display

  /** Grid sides are whole tiles. */
  predicate Eights(g: Geometry) { g.rows % 8 == 0 && g.cols % 8 == 0 }

  /** The dot a single-LED command paints, its rotated coordinates cut to a byte each. */
  function DotAt<V>(g: Geometry, x: uint, y: uint, v: V): Paint<V> {
    var (px, py) := OutputCb(g, x, y);
    Dot(Low8(px), Low8(py), v)
  }

  // ---- arithmetic ---------------------------------------------------------

  lemma Remainder256(n: int, q: int, r: nat)
    requires n == 256 * q + r && r < 256
    ensures n % 256 == r
  {
  }

  lemma WrapLow8(n: int)
    ensures Low8(Wrap(n)) == n % 256
  {
    var w := Wrap(n);
    var m := n / UINT_RANGE;
    assert n == UINT_RANGE * m + w;
    Remainder256(n, 0x100_0000 * m + w / 256, w % 256);
  }

  /** Within an aligned group of eight, the low byte counts along with the number. */
  lemma Low8Of(q: int, k: nat)
    requires q % 8 == 0 && k < 8
    ensures (q + k) % 256 == q % 256 + k
    ensures Floor8(q % 256 + k) == q % 256
  {
    var m, d := q % 256, q / 256;
    assert q == 256 * d + m;
    assert m % 8 == 0;
    assert m == 8 * (m / 8) && m / 8 <= 31;
    Remainder256(q + k, d, m + k);
  }

  lemma FloorSplit(x: nat)
    ensures Floor8(x) % 8 == 0 && x == Floor8(x) + x % 8
  {
  }

  /** Flooring to a tile commutes with cutting to a byte. */
  lemma FloorForward(x: uint, c: nat)
    requires c < 8
    ensures Low8(Wrap(Floor8(x) + c)) == Floor8(Low8(x)) + c
  {
    hide Wrap, Floor8;
    FloorSplit(x);
    WrapLow8(Floor8(x) + c);
    Low8Of(Floor8(x), c);
    Low8Of(Floor8(x), x % 8);
  }

  lemma NoWrap(x: uint, c: nat)
    requires c < 8
    ensures Wrap(Floor8(x) + c) == Floor8(x) + c
  {
    FloorSplit(x);
    var m := Floor8(x) / 8;
    assert Floor8(x) == 8 * m;
    SmallMod(Floor8(x) + c, UINT_RANGE);
  }

  /** Flooring to a tile commutes with reflection: the tile of n-1-x holds n-1-(floor(x)+c) at column 7-c. */
  lemma FloorReflected(n: int, x: uint, c: nat)
    requires n % 8 == 0 && c < 8
    ensures Low8(Wrap(n - 1 - Wrap(Floor8(x) + c))) == Floor8(Low8(Wrap(n - 1 - x))) + (7 - c)
  {
    hide Wrap, Floor8;
    FloorSplit(x);
    var q := n - 8 - Floor8(x);
    assert q % 8 == 0;
    NoWrap(x, c);
    WrapLow8(n - 1 - (Floor8(x) + c));
    WrapLow8(n - 1 - x);
    Low8Of(q, 7 - c);
    Low8Of(q, 7 - x % 8);
    assert n - 1 - (Floor8(x) + c) == q + (7 - c);
    assert n - 1 - x == q + (7 - x % 8);
  }

  // ---- tiles --------------------------------------------------------------

  /** The 64 single-LED dots of the tile that (x, y) lies in, in row-major order. */
  function TileDots<V>(g: Geometry, x: uint, y: uint, vs: seq<V>): (ds: seq<Paint<V>>)
    requires |vs| == 64
    ensures |ds| == 64
  {
    seq(64, i requires 0 <= i < 64 => DotAt(g, Wrap(Floor8(x) + i % 8), Wrap(Floor8(y) + i / 8), vs[i]))
  }

  /** The tile command that a rotated offset and a turned tile make up. */
  function TilePaint<V>(g: Geometry, x: uint, y: uint, vs: seq<V>): Paint<V>
    requires |vs| == 64
  {
    var (px, py) := OutputCb(g, x, y);
    Tile(Floor8(Low8(px)), Floor8(Low8(py)), Turn(g.rotation, vs))
  }

  /** Column, within the physical tile, of the LED at row r, column c of the logical one. */
  function TargetCol(rot: Rotation, r: nat, c: nat): (i: nat)
    requires r < 8 && c < 8
    ensures i < 8
  {
    match rot case R0 => c case R90 => r case R180 => 7 - c case R270 => 7 - r
  }

  function TargetRow(rot: Rotation, r: nat, c: nat): (i: nat)
    requires r < 8 && c < 8
    ensures i < 8
  {
    match rot case R0 => r case R90 => 7 - c case R180 => 7 - r case R270 => c
  }

  lemma TileDotAt<V>(g: Geometry, x: uint, y: uint, r: nat, c: nat, v: V)
    requires Eights(g) && r < 8 && c < 8
    ensures var (px, py) := OutputCb(g, x, y);
      DotAt(g, Wrap(Floor8(x) + c), Wrap(Floor8(y) + r), v) ==
      Dot(Floor8(Low8(px)) + TargetCol(g.rotation, r, c), Floor8(Low8(py)) + TargetRow(g.rotation, r, c), v)
  {
    hide Wrap, Low8, Floor8;
    FloorForward(x, c);
    FloorForward(y, r);
    FloorReflected(GetCols(g), x, c);
    FloorReflected(GetRows(g), y, r);
  }

  lemma SourceOfTarget(rot: Rotation, r: nat, c: nat)
    requires r < 8 && c < 8
    ensures Source(rot, TargetRow(rot, r, c), TargetCol(rot, r, c)) == 8 * r + c
  {
  }

  lemma TargetOfSource(rot: Rotation, r: nat, c: nat)
    requires r < 8 && c < 8
    ensures var (sr, sc) := (SourceRow(rot, r, c), SourceCol(rot, r, c));
      TargetRow(rot, sr, sc) == r && TargetCol(rot, sr, sc) == c
  {
  }

  /** Drawing a tile LED by LED is drawing the turned tile at the rotated offset. */
  lemma TileDrawn<V>(g: Geometry, x: uint, y: uint, vs: seq<V>, p: Point, v: V)
    requires Eights(g) && |vs| == 64
    ensures AfterAll(TileDots(g, x, y, vs), p, v) == After(TilePaint(g, x, y, vs), p, v)
  {
    hide OutputCb, Floor8, Low8, DotAt, Source, AfterAll;
    var ds := TileDots(g, x, y, vs);
    var c := TilePaint(g, x, y, vs);
    var rot := g.rotation;
    forall i | 0 <= i < 64
      ensures ds[i].Dot? && ds[i].v == vs[i]
      ensures Point(ds[i].x, ds[i].y) == Point(c.x + TargetCol(rot, i / 8, i % 8), c.y + TargetRow(rot, i / 8, i % 8))
    {
      TileDotAt(g, x, y, i / 8, i % 8, vs[i]);
    }
    forall i | 0 <= i < |ds| && Hits(ds[i], p)
      ensures ds[i].v == After(c, p, v)
    {
      SourceOfTarget(rot, i / 8, i % 8);
      TurnAt(rot, vs, TargetRow(rot, i / 8, i % 8), TargetCol(rot, i / 8, i % 8));
    }
    var k := 0;
    if c.x <= p.x < c.x + 8 && c.y <= p.y < c.y + 8 {
      var r, q := p.y - c.y, p.x - c.x;
      k := Source(rot, r, q);
      SourceDigits(rot, r, q);
      TargetOfSource(rot, r, q);
      assert Hits(ds[k], p);
    }
    CommandIsDots(c, ds, p, v, k);
  }

  lemma SourceDigits(rot: Rotation, r: nat, c: nat)
    requires r < 8 && c < 8
    ensures Source(rot, r, c) / 8 == SourceRow(rot, r, c) && Source(rot, r, c) % 8 == SourceCol(rot, r, c)
  {
  }

  // ---- lines of eight -----------------------------------------------------

  function RowDots<V>(g: Geometry, x: uint, y: uint, vs: seq<V>): (ds: seq<Paint<V>>)
    ensures |ds| == |vs|
  {
    seq(|vs|, i requires 0 <= i < |vs| => DotAt(g, Wrap(Floor8(x) + i), y, vs[i]))
  }

  function ColDots<V>(g: Geometry, x: uint, y: uint, vs: seq<V>): (ds: seq<Paint<V>>)
    ensures |ds| == |vs|
  {
    seq(|vs|, i requires 0 <= i < |vs| => DotAt(g, x, Wrap(Floor8(y) + i), vs[i]))
  }

  /** A line from the tile boundary at or before the given point. */
  function LinePaint<V>(horizontal: bool, px: uint, py: uint, vs: seq<V>): Paint<V> {
    if horizontal then HLine(Floor8(Low8(px)), Low8(py), vs) else VLine(Low8(px), Floor8(Low8(py)), vs)
  }

  /** The line command for eight LEDs of a logical row: turned to a column, or reversed, as the flags say. */
  function RowPaint<V>(g: Geometry, x: uint, y: uint, vs: seq<V>): Paint<V> {
    var (px, py) := OutputCb(g, x, y);
    LinePaint(!RowColSwap(g.rotation), px, py, if RowRevBits(g.rotation) then Reversed(vs) else vs)
  }

  function ColPaint<V>(g: Geometry, x: uint, y: uint, vs: seq<V>): Paint<V> {
    var (px, py) := OutputCb(g, x, y);
    LinePaint(RowColSwap(g.rotation), px, py, if ColRevBits(g.rotation) then Reversed(vs) else vs)
  }

  /** LED i of a line of n, counted from the other end if reversed. */
  function Along(n: nat, reversed: bool, i: nat): (j: nat)
    requires i < n
    ensures j < n
  {
    if reversed then n - 1 - i else i
  }

  lemma RowDotAt<V>(g: Geometry, x: uint, y: uint, i: nat, v: V)
    requires Eights(g) && i < 8
    ensures var (px, py) := OutputCb(g, x, y);
      var j := Along(8, RowRevBits(g.rotation), i);
      DotAt(g, Wrap(Floor8(x) + i), y, v) ==
      if RowColSwap(g.rotation) then Dot(Low8(px), Floor8(Low8(py)) + j, v) else Dot(Floor8(Low8(px)) + j, Low8(py), v)
  {
    hide Wrap, Low8, Floor8;
    FloorForward(x, i);
    FloorReflected(GetCols(g), x, i);
  }

  lemma ColDotAt<V>(g: Geometry, x: uint, y: uint, i: nat, v: V)
    requires Eights(g) && i < 8
    ensures var (px, py) := OutputCb(g, x, y);
      var j := Along(8, ColRevBits(g.rotation), i);
      DotAt(g, x, Wrap(Floor8(y) + i), v) ==
      if RowColSwap(g.rotation) then Dot(Floor8(Low8(px)) + j, Low8(py), v) else Dot(Low8(px), Floor8(Low8(py)) + j, v)
  {
    hide Wrap, Low8, Floor8;
    FloorForward(y, i);
    FloorReflected(GetRows(g), y, i);
  }

  /** Dots along a line, in either direction, draw the same as the line. */
  lemma LineDrawn<V>(c: Paint<V>, ds: seq<Paint<V>>, n: nat, reversed: bool, vs: seq<V>, p: Point, v: V)
    requires c.HLine? || c.VLine?
    requires |vs| == |ds| == n
    requires c.vs == if reversed then Reversed(vs) else vs
    requires forall i :: 0 <= i < n ==> ds[i] == DotOnLine(c, n, reversed, i, vs[i])
    ensures AfterAll(ds, p, v) == After(c, p, v)
  {
    hide AfterAll;
    var k := 0;
    if c.HLine? && p.y == c.y && c.x <= p.x < c.x + n {
      k := Along(n, reversed, p.x - c.x);
      assert ds[k] == DotOnLine(c, n, reversed, k, vs[k]);
    } else if c.VLine? && p.x == c.x && c.y <= p.y < c.y + n {
      k := Along(n, reversed, p.y - c.y);
      assert ds[k] == DotOnLine(c, n, reversed, k, vs[k]);
    }
    forall i | 0 <= i < n && Hits(ds[i], p)
      ensures ds[i].v == After(c, p, v)
    {
      assert ds[i] == DotOnLine(c, n, reversed, i, vs[i]);
    }
    CommandIsDots(c, ds, p, v, k);
  }

  /** The dot for LED i of a line of n. */
  function DotOnLine<V>(c: Paint<V>, n: nat, reversed: bool, i: nat, v: V): Paint<V>
    requires (c.HLine? || c.VLine?) && i < n
  {
    if c.HLine? then Dot(c.x + Along(n, reversed, i), c.y, v) else Dot(c.x, c.y + Along(n, reversed, i), v)
  }

  /** Drawing eight LEDs of a row one by one is drawing the rotated line. */
  lemma RowDrawn<V>(g: Geometry, x: uint, y: uint, vs: seq<V>, p: Point, v: V)
    requires Eights(g) && |vs| == 8
    ensures AfterAll(RowDots(g, x, y, vs), p, v) == After(RowPaint(g, x, y, vs), p, v)
  {
    hide OutputCb, Floor8, Low8, DotAt, AfterAll;
    var c, ds, rev := RowPaint(g, x, y, vs), RowDots(g, x, y, vs), RowRevBits(g.rotation);
    forall i | 0 <= i < 8
      ensures ds[i] == DotOnLine(c, 8, rev, i, vs[i])
    {
      RowDotAt(g, x, y, i, vs[i]);
    }
    LineDrawn(c, ds, 8, rev, vs, p, v);
  }

  lemma ColDrawn<V>(g: Geometry, x: uint, y: uint, vs: seq<V>, p: Point, v: V)
    requires Eights(g) && |vs| == 8
    ensures AfterAll(ColDots(g, x, y, vs), p, v) == After(ColPaint(g, x, y, vs), p, v)
  {
    hide OutputCb, Floor8, Low8, DotAt, AfterAll;
    var c, ds, rev := ColPaint(g, x, y, vs), ColDots(g, x, y, vs), ColRevBits(g.rotation);
    forall i | 0 <= i < 8
      ensures ds[i] == DotOnLine(c, 8, rev, i, vs[i])
    {
      ColDotAt(g, x, y, i, vs[i]);
    }
    LineDrawn(c, ds, 8, rev, vs, p, v);
  }

  // ---- longer lines, eight at a time --------------------------------------

  /** The lines that draw a row of any multiple of eight LEDs. */
  function RowPaints<V>(g: Geometry, x: uint, y: uint, vs: seq<V>): (cs: seq<Paint<V>>)
    requires |vs| % 8 == 0
    ensures |cs| == |vs| / 8
  {
    seq(|vs| / 8, k requires 0 <= k < |vs| / 8 => RowPaint(g, Wrap(x + 8 * k), y, vs[8 * k..8 * k + 8]))
  }

  function ColPaints<V>(g: Geometry, x: uint, y: uint, vs: seq<V>): (cs: seq<Paint<V>>)
    requires |vs| % 8 == 0
    ensures |cs| == |vs| / 8
  {
    seq(|vs| / 8, k requires 0 <= k < |vs| / 8 => ColPaint(g, x, Wrap(y + 8 * k), vs[8 * k..8 * k + 8]))
  }

  lemma FloorStep(x: uint, k: nat, i: nat)
    ensures Wrap(Floor8(Wrap(x + 8 * k)) + i) == Wrap(Floor8(x) + (8 * k + i))
  {
    var n := x + 8 * k;
    var q, w := n / UINT_RANGE, Wrap(n);
    assert n == UINT_RANGE * q + w;
    assert w % 8 == x % 8;
    assert Floor8(x) + (8 * k + i) == Floor8(w) + i + UINT_RANGE * q;
    WrapShift(Floor8(w) + i, q);
  }

  lemma RowDotsChunk<V>(g: Geometry, x: uint, y: uint, vs: seq<V>, k: nat)
    requires 8 * k + 8 <= |vs|
    ensures RowDots(g, x, y, vs)[8 * k..8 * k + 8] == RowDots(g, Wrap(x + 8 * k), y, vs[8 * k..8 * k + 8])
  {
    hide Wrap, Floor8, DotAt;
    var ds, es := RowDots(g, x, y, vs)[8 * k..8 * k + 8], RowDots(g, Wrap(x + 8 * k), y, vs[8 * k..8 * k + 8]);
    forall i | 0 <= i < 8
      ensures ds[i] == es[i]
    {
      FloorStep(x, k, i);
    }
  }

  lemma ColDotsChunk<V>(g: Geometry, x: uint, y: uint, vs: seq<V>, k: nat)
    requires 8 * k + 8 <= |vs|
    ensures ColDots(g, x, y, vs)[8 * k..8 * k + 8] == ColDots(g, x, Wrap(y + 8 * k), vs[8 * k..8 * k + 8])
  {
    hide Wrap, Floor8, DotAt;
    var ds, es := ColDots(g, x, y, vs)[8 * k..8 * k + 8], ColDots(g, x, Wrap(y + 8 * k), vs[8 * k..8 * k + 8]);
    forall i | 0 <= i < 8
      ensures ds[i] == es[i]
    {
      FloorStep(y, k, i);
    }
  }

  /** Chunks of eight dots that each draw like one command draw like all the commands in turn. */
  lemma {:induction false} ChunksDrawn<V>(cs: seq<Paint<V>>, ds: seq<Paint<V>>, p: Point, v: V)
    requires |ds| == 8 * |cs| && AreDots(ds)
    requires forall k, w :: 0 <= k < |cs| ==> AfterAll(ds[8 * k..8 * k + 8], p, w) == After(cs[k], p, w)
    ensures AfterAll(ds, p, v) == AfterAll(cs, p, v)
  {
    if cs != [] {
      var n := |cs| - 1;
      var cs', ds' := cs[..n], ds[..8 * n];
      forall k, w | 0 <= k < n
        ensures AfterAll(ds'[8 * k..8 * k + 8], p, w) == After(cs'[k], p, w)
      {
        assert ds'[8 * k..8 * k + 8] == ds[8 * k..8 * k + 8];
      }
      ChunksDrawn(cs', ds', p, v);
      assert cs == cs' + [cs[n]] && ds == ds' + ds[8 * n..8 * n + 8];
      AfterAllConcat(cs', [cs[n]], p, v);
      AfterAllConcat(ds', ds[8 * n..8 * n + 8], p, v);
    }
  }

  /** Drawing a row LED by LED is drawing its lines, wherever it starts and however long it is. */
  lemma RowsDrawn<V>(g: Geometry, x: uint, y: uint, vs: seq<V>, p: Point, v: V)
    requires Eights(g) && |vs| % 8 == 0
    ensures AfterAll(RowDots(g, x, y, vs), p, v) == AfterAll(RowPaints(g, x, y, vs), p, v)
  {
    hide OutputCb, Floor8, Low8, Wrap, AfterAll, After;
    var cs, ds := RowPaints(g, x, y, vs), RowDots(g, x, y, vs);
    forall k, w | 0 <= k < |cs|
      ensures AfterAll(ds[8 * k..8 * k + 8], p, w) == After(cs[k], p, w)
    {
      RowDotsChunk(g, x, y, vs, k);
      RowDrawn(g, Wrap(x + 8 * k), y, vs[8 * k..8 * k + 8], p, w);
    }
    ChunksDrawn(cs, ds, p, v);
  }

  lemma ColsDrawn<V>(g: Geometry, x: uint, y: uint, vs: seq<V>, p: Point, v: V)
    requires Eights(g) && |vs| % 8 == 0
    ensures AfterAll(ColDots(g, x, y, vs), p, v) == AfterAll(ColPaints(g, x, y, vs), p, v)
  {
    hide OutputCb, Floor8, Low8, Wrap, AfterAll, After;
    var cs, ds := ColPaints(g, x, y, vs), ColDots(g, x, y, vs);
    forall k, w | 0 <= k < |cs|
      ensures AfterAll(ds[8 * k..8 * k + 8], p, w) == After(cs[k], p, w)
    {
      ColDotsChunk(g, x, y, vs, k);
      ColDrawn(g, x, Wrap(y + 8 * k), vs[8 * k..8 * k + 8], p, w);
    }
    ChunksDrawn(cs, ds, p, v);
  }
}
