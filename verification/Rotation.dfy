/**
 * The four cable orientations: what each does to a coordinate, and what it does to an
 * 8x8 tile of LEDs. A tile is a sequence of 64 values in row-major order.
 */
module Rotation {
  import opened Bits

  datatype Rotation = R0 | R90 | R180 | R270

  /** The fields of a device handle that drawing and input depend on. */
  datatype Geometry = Geometry(rows: int, cols: int, rotation: Rotation)

  predicate RowColSwap(r: Rotation) { r == R90 || r == R270 }
  predicate RowRevBits(r: Rotation) { r == R90 || r == R180 }
  predicate ColRevBits(r: Rotation) { r == R180 || r == R270 }

  /** The number of rows the application sees. */
  function GetRows(g: Geometry): int { if RowColSwap(g.rotation) then g.cols else g.rows }

  /** The number of columns the application sees. */
  function GetCols(g: Geometry): int { if RowColSwap(g.rotation) then g.rows else g.cols }

  /** `monome_set_rotation`, which keeps the two low bits of what it is given. */
  function SetRotation(g: Geometry, r: nat): Geometry {
    g.(rotation := match r % 4 case 0 => R0 case 1 => R90 case 2 => R180 case _ => R270)
  }

  // ---- coordinates --------------------------------------------------------

  /** `output_cb`: from the application's coordinates to the device's, in wrapping arithmetic. */
  function OutputCb(g: Geometry, x: uint, y: uint): (uint, uint) {
    match g.rotation
    case R0 => (x, y)
    case R90 => (y, Wrap(GetCols(g) - 1 - x))
    case R180 => (Wrap(GetCols(g) - 1 - x), Wrap(GetRows(g) - 1 - y))
    case R270 => (Wrap(GetRows(g) - 1 - y), x)
  }

  /** `%` on unsigned operands. C leaves division by zero undefined; here it yields 0. */
  function UMod(a: uint, n: uint): uint { if n == 0 then 0 else a % n }

  /** `input_cb`: from the device's coordinates to the application's. */
  function InputCb(g: Geometry, x: uint, y: uint): (uint, uint) {
    match g.rotation
    case R0 => (x, y)
    case R90 => (UMod(Wrap(GetCols(g) - 1 - y), Wrap(GetCols(g))), x)
    case R180 => (UMod(Wrap(GetCols(g) - 1 - x), Wrap(GetCols(g))), UMod(Wrap(GetRows(g) - 1 - y), Wrap(GetRows(g))))
    case R270 => (y, UMod(Wrap(GetRows(g) - 1 - x), Wrap(GetRows(g))))
  }

  predicate Sized(g: Geometry) {
    0 < g.rows < UINT_RANGE && 0 < g.cols < UINT_RANGE
  }

  predicate InLogical(g: Geometry, x: uint, y: uint) { x < GetCols(g) && y < GetRows(g) }

  predicate InPhysical(g: Geometry, x: uint, y: uint) { x < g.cols && y < g.rows }

  lemma Reflect(n: int, x: uint)
    requires 0 <= x < n < UINT_RANGE
    ensures Wrap(n - 1 - x) == n - 1 - x
    ensures UMod(Wrap(n - 1 - x), Wrap(n)) == n - 1 - x
  {
    SmallMod(n - 1 - x, UINT_RANGE);
    SmallMod(n, UINT_RANGE);
    SmallMod(n - 1 - x, n);
  }

  lemma SmallMod(a: nat, n: nat)
    requires a < n
    ensures a % n == a
  {
  }

  /** Drawing coordinates land inside the device, and reading them back undoes the rotation. */
  lemma InputAfterOutput(g: Geometry, x: uint, y: uint)
    requires Sized(g) && InLogical(g, x, y)
    ensures var (px, py) := OutputCb(g, x, y);
      InPhysical(g, px, py) && InputCb(g, px, py) == (x, y)
  {
    hide Wrap, UMod;
    Reflect(GetCols(g), x);
    Reflect(GetRows(g), y);
    Reflect(GetCols(g), GetCols(g) - 1 - x);
    Reflect(GetRows(g), GetRows(g) - 1 - y);
  }

  /** Input coordinates land inside the logical grid, and drawing there addresses the same LED. */
  lemma OutputAfterInput(g: Geometry, px: uint, py: uint)
    requires Sized(g) && InPhysical(g, px, py)
    ensures var (x, y) := InputCb(g, px, py);
      InLogical(g, x, y) && OutputCb(g, x, y) == (px, py)
  {
    hide Wrap, UMod;
    Reflect(g.cols, px);
    Reflect(g.rows, py);
    Reflect(g.cols, g.cols - 1 - px);
    Reflect(g.rows, g.rows - 1 - py);
  }

  /**
   * A physical coordinate outside the grid is folded back: with positive sides the reflected
   * input coordinates never reach the side they were reduced by.
   */
  lemma InputFolds(g: Geometry, px: uint, py: uint)
    requires Sized(g)
    ensures var (x, y) := InputCb(g, px, py);
      && (g.rotation in {R90, R180} ==> x < GetCols(g))
      && (g.rotation in {R180, R270} ==> y < GetRows(g))
  {
    hide Wrap, UMod;
    UModBelow(Wrap(GetCols(g) - 1 - px), GetCols(g));
    UModBelow(Wrap(GetCols(g) - 1 - py), GetCols(g));
    UModBelow(Wrap(GetRows(g) - 1 - px), GetRows(g));
    UModBelow(Wrap(GetRows(g) - 1 - py), GetRows(g));
  }

  lemma UModBelow(a: uint, n: int)
    requires 0 < n < UINT_RANGE
    ensures UMod(a, Wrap(n)) < n
  {
    SmallMod(n, UINT_RANGE);
  }

  // ---- tiles --------------------------------------------------------------

  /** Where in the old tile the value at row r, column c of the turned tile comes from. */
  function SourceRow(rot: Rotation, r: nat, c: nat): (i: nat)
    requires r < 8 && c < 8
    ensures i < 8
  {
    match rot case R0 => r case R90 => c case R180 => 7 - r case R270 => 7 - c
  }

  function SourceCol(rot: Rotation, r: nat, c: nat): (i: nat)
    requires r < 8 && c < 8
    ensures i < 8
  {
    match rot case R0 => c case R90 => 7 - r case R180 => 7 - c case R270 => r
  }

  function Source(rot: Rotation, r: nat, c: nat): (i: nat)
    requires r < 8 && c < 8
    ensures i < 64
  {
    8 * SourceRow(rot, r, c) + SourceCol(rot, r, c)
  }

  /** The tile turned by rot. */
  function Turn<V>(rot: Rotation, tile: seq<V>): (t: seq<V>)
    requires |tile| == 64
    ensures |t| == 64
  {
    seq(64, i requires 0 <= i < 64 => tile[Source(rot, i / 8, i % 8)])
  }

  lemma TurnAt<V>(rot: Rotation, tile: seq<V>, r: nat, c: nat)
    requires |tile| == 64 && r < 8 && c < 8
    ensures Turn(rot, tile)[8 * r + c] == tile[Source(rot, r, c)]
  {
    Digits(r, c);
  }

  /** The rotation that has the effect of rot1 followed by rot2. */
  function Compose(rot1: Rotation, rot2: Rotation): Rotation {
    match rot1
    case R0 => rot2
    case R90 => (match rot2 case R0 => R90 case R90 => R180 case R180 => R270 case R270 => R0)
    case R180 => (match rot2 case R0 => R180 case R90 => R270 case R180 => R0 case R270 => R90)
    case R270 => (match rot2 case R0 => R270 case R90 => R0 case R180 => R90 case R270 => R180)
  }

  lemma Digits(r: nat, c: nat)
    requires c < 8
    ensures (8 * r + c) / 8 == r && (8 * r + c) % 8 == c
  {
  }

  lemma SourceCompose(rot1: Rotation, rot2: Rotation, r: nat, c: nat)
    requires r < 8 && c < 8
    ensures var i := Source(rot2, r, c);
      Source(rot1, i / 8, i % 8) == Source(Compose(rot1, rot2), r, c)
  {
    Digits(SourceRow(rot2, r, c), SourceCol(rot2, r, c));
    SourcesCompose(rot1, rot2, r, c);
  }

  lemma SourcesCompose(rot1: Rotation, rot2: Rotation, r: nat, c: nat)
    requires r < 8 && c < 8
    ensures SourceRow(rot1, SourceRow(rot2, r, c), SourceCol(rot2, r, c)) == SourceRow(Compose(rot1, rot2), r, c)
    ensures SourceCol(rot1, SourceRow(rot2, r, c), SourceCol(rot2, r, c)) == SourceCol(Compose(rot1, rot2), r, c)
  {
  }

  /** Turning twice adds the angles: the tile rotations form the cyclic group of order four. */
  lemma TurnTurn<V>(rot1: Rotation, rot2: Rotation, tile: seq<V>)
    requires |tile| == 64
    ensures Turn(rot2, Turn(rot1, tile)) == Turn(Compose(rot1, rot2), tile)
  {
    forall i | 0 <= i < 64
      ensures Turn(rot2, Turn(rot1, tile))[i] == Turn(Compose(rot1, rot2), tile)[i]
    {
      SourceCompose(rot1, rot2, i / 8, i % 8);
    }
  }

  lemma TurnR0<V>(tile: seq<V>)
    requires |tile| == 64
    ensures Turn(R0, tile) == tile
  {
  }

  /** A tile turned by 90 degrees r times. */
  function QuarterTurns<V>(r: nat, tile: seq<V>): (t: seq<V>)
    requires |tile| == 64
    ensures |t| == 64
  {
    if r == 0 then tile else Turn(R90, QuarterTurns(r - 1, tile))
  }

  /** Setting any number as the rotation turns tiles by that many quarters. */
  lemma {:induction false} SetRotationTurns<V>(g: Geometry, r: nat, tile: seq<V>)
    requires |tile| == 64
    ensures Turn(SetRotation(g, r).rotation, tile) == QuarterTurns(r, tile)
  {
    hide Turn;
    if r == 0 {
      TurnR0(tile);
    } else {
      SetRotationTurns(g, r - 1, tile);
      TurnTurn(SetRotation(g, r - 1).rotation, R90, tile);
      NextQuarter(g, r - 1);
    }
  }

  lemma NextQuarter(g: Geometry, r: nat)
    ensures Compose(SetRotation(g, r).rotation, R90) == SetRotation(g, r + 1).rotation
  {
  }

  /** The tile with a single mark, at row 0, column 1. */
  function Marked(): (t: seq<bool>)
    ensures |t| == 64
  {
    seq(64, i => i == 1)
  }

  /** The picture with one mark tells all the rotations apart. */
  lemma TurnsDiffer(rot1: Rotation, rot2: Rotation)
    ensures Turn(rot1, Marked()) == Turn(rot2, Marked()) <==> rot1 == rot2
  {
    MarkLands(rot1);
    MarkLands(rot2);
  }

  /** Where the mark lands, and that it is nowhere else in the corners. */
  lemma MarkLands(rot: Rotation)
    ensures Turn(rot, Marked())[1] <==> rot == R0
    ensures Turn(rot, Marked())[48] <==> rot == R90
    ensures Turn(rot, Marked())[62] <==> rot == R180
  {
    TurnAt(rot, Marked(), 0, 1);
    TurnAt(rot, Marked(), 6, 0);
    TurnAt(rot, Marked(), 7, 6);
  }

  // ---- tiles of bits ------------------------------------------------------

  /** The tile drawn by eight map bytes: byte r is row r, and bit c is column c. */
  function TileOf(d: seq<byte>): (t: seq<bool>)
    requires |d| == 8
    ensures |t| == 64
  {
    seq(64, i requires 0 <= i < 64 => Bit(d[i / 8], i % 8))
  }

  function MapOf(t: seq<bool>): (d: seq<byte>)
    requires |t| == 64
    ensures |d| == 8
  {
    seq(8, r requires 0 <= r < 8 => ByteOf(t[8 * r..8 * r + 8]))
  }

  lemma TileOfMapOf(t: seq<bool>)
    requires |t| == 64
    ensures TileOf(MapOf(t)) == t
  {
    hide Bit, ByteOf;
    forall i | 0 <= i < 64
      ensures TileOf(MapOf(t))[i] == t[i]
    {
      var r := i / 8;
      BitsOfByteOf(t[8 * r..8 * r + 8]);
      assert BitsOf(MapOf(t)[r])[i % 8] == t[8 * r..8 * r + 8][i % 8];
    }
  }

  lemma TileRow(d: seq<byte>, r: nat)
    requires |d| == 8 && r < 8
    ensures TileOf(d)[8 * r..8 * r + 8] == BitsOf(d[r])
  {
    forall c | 0 <= c < 8
      ensures TileOf(d)[8 * r + c] == BitsOf(d[r])[c]
    {
      Digits(r, c);
    }
  }

  lemma MapOfTileOf(d: seq<byte>)
    requires |d| == 8
    ensures MapOf(TileOf(d)) == d
  {
    forall r | 0 <= r < 8
      ensures MapOf(TileOf(d))[r] == d[r]
    {
      TileRow(d, r);
      ByteOfBitsOf(d[r]);
    }
  }

  /** `map_cb` as a function on eight bytes. */
  function TurnMap(rot: Rotation, d: seq<byte>): (t: seq<byte>)
    requires |d| == 8
    ensures |t| == 8
  {
    MapOf(Turn(rot, TileOf(d)))
  }

  /** The rotations of eight bytes compose as those of tiles do. */
  lemma TurnMapTwice(rot1: Rotation, rot2: Rotation, d: seq<byte>)
    requires |d| == 8
    ensures TurnMap(rot2, TurnMap(rot1, d)) == TurnMap(Compose(rot1, rot2), d)
    ensures TurnMap(R0, d) == d
  {
    hide TileOf, MapOf, Turn, Compose;
    TileOfMapOf(Turn(rot1, TileOf(d)));
    TurnTurn(rot1, rot2, TileOf(d));
    TurnR0(TileOf(d));
    MapOfTileOf(d);
  }
}
