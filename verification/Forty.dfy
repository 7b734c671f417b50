/** The 40h protocol (monome 40h, arduinome): LED commands, button input, and the device. */
module Forty {
  import opened Bits
  import opened Rotation
  import opened MapCallbacks
  import opened Levels
  import opened Display
  import opened Drawing
  import opened Framing
  import opened Devices
  import opened Events
  import opened Platform
  import opened Inputs

  // Opcodes, the high nybbles of the message headers. LED_ON and LED_OFF differ in the low nybble.
  const LED := 0x2
  const LED_ROW := 0x7
  const LED_COL := 0x8

  // ---- the device ---------------------------------------------------------

  /** Every message is two bytes long. */
  function PayloadLength(op: nat, arg: nat): nat { 1 }

  function Interpret(m: Msg): Option<Paint<bool>> {
    var p := m.payload;
    if |p| != 1 then None
    else if m.addr == LED && m.cmd <= 1 then Some(Dot(p[0] / 16, p[0] % 16, m.cmd == 1))
    else if m.addr == LED_ROW then Some(HLine(0, m.cmd, BitsOf(p[0])))
    else if m.addr == LED_COL then Some(VLine(m.cmd, 0, BitsOf(p[0])))
    else None
  }

  function Painted(s: seq<byte>): seq<Paint<bool>> { DevicePaints(PayloadLength, Interpret, s) }

  predicate Panel(g: Geometry) { g.rows == 8 && g.cols == 8 }

  // ---- messages -----------------------------------------------------------

  function SetMsg(g: Geometry, x: uint, y: uint, on: bool): Msg {
    var (px, py) := OutputCb(g, x, y);
    Msg(LED, if on then 1 else 0, [Low8(Or(px % 8 * 16, py % 8))])
  }

  function RowMsg(g: Geometry, y: uint, d: byte): Msg {
    Msg(if RowColSwap(g.rotation) then LED_COL else LED_ROW, OutputCb(g, y, y).0 % 8,
        [if RowRevBits(g.rotation) then ReverseByte(d) else d])
  }

  function ColMsg(g: Geometry, x: uint, d: byte): Msg {
    Msg(if RowColSwap(g.rotation) then LED_ROW else LED_COL, OutputCb(g, x, x).1 % 8,
        [if ColRevBits(g.rotation) then ReverseByte(d) else d])
  }

  /** What `led_map` sends: the data is turned, then each of its rows is drawn as a logical row. */
  function MapMsgs(g: Geometry, data: seq<byte>): (ms: seq<Msg>)
    requires |data| == 8
    ensures |ms| == 8
  {
    seq(8, i requires 0 <= i < 8 => RowMsg(g, i, TurnMap(g.rotation, data)[i]))
  }

  function AllMsgs(on: bool): (ms: seq<Msg>)
    ensures |ms| == 8
  {
    seq(8, i => Msg(LED_ROW, i % 16, [if on then 0xFF else 0]))
  }

  // ---- the C functions ----------------------------------------------------

  method MonomeWrite(port: Port, m: Msg) returns (ret: int)
    modifies port`answers, port`clock, port`log, port`sent, port`lost
    ensures Wrote(old(port.answers), old(port.lost), port.answers, port.lost, 1, |Bytes(m)|)
    ensures ret == 0 || ret == -1
    ensures port.lost >= old(port.lost) && ret == if port.lost == old(port.lost) then 0 else -1
    ensures ret == 0 ==> port.sent == old(port.sent) + Bytes(m)
  {
    var n := port.Write(Bytes(m));
    ret := if n == |Bytes(m)| then 0 else -1;
  }

  method LedSet(g: Geometry, port: Port, x: uint, y: uint, on: uint) returns (ret: int)
    modifies port`answers, port`clock, port`log, port`sent, port`lost
    ensures Wrote(old(port.answers), old(port.lost), port.answers, port.lost, 1, 2)
    ensures port.lost >= old(port.lost) && ret == if port.lost == old(port.lost) then 0 else -1
    ensures ret == 0 ==> port.sent == old(port.sent) + Bytes(SetMsg(g, x, y, on != 0))
  {
    var (px, py) := OutputCb(g, x, y);
    px, py := px % 8, py % 8;
    ret := MonomeWrite(port, Msg(LED, if on != 0 then 1 else 0, [Low8(Or(px * 16, py))]));
  }

  lemma NybblePair(px: nat, py: nat)
    requires px < 16 && py < 16
    ensures Or(px * 16, py) == px * 16 + py
  {
    OrNibble(px, py);
  }

  method LedColRow(g: Geometry, port: Port, mode: nat, address: uint, data: byte) returns (ret: int)
    requires mode == LED_ROW || mode == LED_COL
    modifies port`answers, port`clock, port`log, port`sent, port`lost
    ensures Wrote(old(port.answers), old(port.lost), port.answers, port.lost, 1, 2)
    ensures ret == 0 || ret == -1
    ensures port.lost >= old(port.lost) && ret == if port.lost == old(port.lost) then 0 else -1
    ensures ret == 0 ==>
      port.sent == old(port.sent) + Bytes(if mode == LED_ROW then RowMsg(g, address, data) else ColMsg(g, address, data))
  {
    var (xaddress, a) := OutputCb(g, address, address);
    var d;
    if mode == LED_ROW {
      a := xaddress;
      d := if RowRevBits(g.rotation) then ReverseByte(data) else data;
    } else {
      d := if ColRevBits(g.rotation) then ReverseByte(data) else data;
    }
    var op := mode;
    if RowColSwap(g.rotation) {
      op := (if mode - LED_ROW == 0 then 1 else 0) + LED_ROW;
    }
    ret := MonomeWrite(port, Msg(op, a % 8, [d]));
  }

  method LedMap(g: Geometry, arch: Arch, port: Port, x_off: uint, y_off: uint, data: seq<byte>) returns (ret: int)
    requires |data| == 8
    modifies port`answers, port`clock, port`log, port`sent, port`lost
    ensures Wrote(old(port.answers), old(port.lost), port.answers, port.lost, 8, 2)
    ensures ret + Failures(old(port.answers), 8, 2) == 0
    ensures port.lost >= old(port.lost) && (ret == 0 <==> port.lost == old(port.lost))
    ensures ret == 0 ==> port.sent == old(port.sent) + BytesOf(MapMsgs(g, data))
  {
    hide TurnMap, RowMsg, Bytes, BytesOf, Wrote, Failures;
    var buf := new byte[8];
    CopyInto(buf, 0, data);
    assert buf[..8] == buf[..] == data;
    RotateMap(g.rotation, arch, buf, 0);
    assert buf[..] == TurnMap(g.rotation, data);
    ret := 0;
    ghost var ms := MapMsgs(g, data);
    NoBytes();
    WroteNothing(port.answers, port.lost, 2);
    for i := 0 to 8
      invariant buf[..] == TurnMap(g.rotation, data)
      invariant ret + Failures(old(port.answers), i, 2) == 0
      invariant port.lost >= old(port.lost) && (ret == 0 <==> port.lost == old(port.lost))
      invariant Wrote(old(port.answers), old(port.lost), port.answers, port.lost, i, 2)
      invariant ret == 0 ==> port.sent == old(port.sent) + BytesOf(ms[..i])
    {
      ghost var answers, lost := port.answers, port.lost;
      var r := LedColRow(g, port, LED_ROW, i, buf[i]);
      WroteMore(old(port.answers), old(port.lost), answers, lost, i, port.answers, port.lost, 2);
      BytesOfSnoc(ms[..i], ms[i]);
      assert ms[..i + 1] == ms[..i] + [ms[i]];
      ret := ret + r;
    }
    assert ms[..8] == ms;
  }

  lemma NoBytes()
    ensures BytesOf([]) == []
  {
  }

  method LedAll(port: Port, status: uint) returns (ret: int)
    modifies port`answers, port`clock, port`log, port`sent, port`lost
    ensures Wrote(old(port.answers), old(port.lost), port.answers, port.lost, 8, 2)
    ensures ret == 16 && port.lost >= old(port.lost)
    ensures port.lost == old(port.lost) ==> port.sent == old(port.sent) + BytesOf(AllMsgs(status != 0))
  {
    hide Bytes, BytesOf, Wrote;
    ghost var ms := AllMsgs(status != 0);
    NoBytes();
    WroteNothing(port.answers, port.lost, 2);
    for i := 0 to 8
      invariant port.lost >= old(port.lost)
      invariant Wrote(old(port.answers), old(port.lost), port.answers, port.lost, i, 2)
      invariant port.lost == old(port.lost) ==> port.sent == old(port.sent) + BytesOf(ms[..i])
    {
      ghost var answers, lost := port.answers, port.lost;
      BytesSize(ms[i]);
      var _ := MonomeWrite(port, Msg(LED_ROW, i % 16, [if status != 0 then 0xFF else 0]));
      WroteMore(old(port.answers), old(port.lost), answers, lost, i, port.answers, port.lost, 2);
      BytesOfSnoc(ms[..i], ms[i]);
      assert ms[..i + 1] == ms[..i] + [ms[i]];
    }
    assert ms[..8] == ms;
    ret := 2 * 8;
  }

  method LedLevelMap(g: Geometry, arch: Arch, port: Port, x_off: uint, y_off: uint, data: seq<byte>)
    returns (ret: int)
    requires |data| == 64
    modifies port`answers, port`clock, port`log, port`sent, port`lost
    ensures Wrote(old(port.answers), old(port.lost), port.answers, port.lost, 8, 2)
    ensures ret + Failures(old(port.answers), 8, 2) == 0
    ensures port.lost >= old(port.lost) && (ret == 0 <==> port.lost == old(port.lost))
    ensures ret == 0 ==> port.sent == old(port.sent) + BytesOf(MapMsgs(g, Masks(Turn(g.rotation, data))))
  {
    var masks := TurnedMasks(g.rotation, data);
    ret := LedMap(g, arch, port, x_off, y_off, masks);
  }

  // ---- lines --------------------------------------------------------------

  lemma InRange(g: Geometry, x: uint, y: uint, v: bool)
    requires Panel(g) && InLogical(g, x, y)
    ensures var (px, py) := OutputCb(g, x, y);
      px < 8 && py < 8 && DotAt(g, x, y, v) == Dot(px, py, v)
  {
    InputAfterOutput(g, x, y);
  }

  lemma SetInterpreted(g: Geometry, x: uint, y: uint, on: bool)
    requires Panel(g) && InLogical(g, x, y)
    ensures Exact(PayloadLength, SetMsg(g, x, y, on))
    ensures Interpret(SetMsg(g, x, y, on)) == Some(DotAt(g, x, y, on))
  {
    hide OutputCb, Or, DotAt;
    var (px, py) := OutputCb(g, x, y);
    InRange(g, x, y, on);
    NybblePair(px, py);
    SmallMod(px, 8);
    SmallMod(py, 8);
  }

  lemma Small(n: nat)
    requires n < 8
    ensures Low8(n) == n && Floor8(Low8(n)) == 0 && n % 8 == n
  {
  }

  /** On a square panel, the x coordinate of the rotated (y, y) is the address of the line of row y. */
  lemma RowAddress(g: Geometry, y: uint)
    requires Panel(g) && y < 8
    ensures var (px, py) := OutputCb(g, 0, y);
      px < 8 && py < 8 && OutputCb(g, y, y).0 == if RowColSwap(g.rotation) then px else py
  {
    hide Wrap;
    Reflect(8, y);
    Reflect(8, 0);
  }

  /** Likewise the y coordinate of the rotated (x, x), for column x. */
  lemma ColAddress(g: Geometry, x: uint)
    requires Panel(g) && x < 8
    ensures var (px, py) := OutputCb(g, x, 0);
      px < 8 && py < 8 && OutputCb(g, x, x).1 == if RowColSwap(g.rotation) then py else px
  {
    hide Wrap;
    Reflect(8, x);
    Reflect(8, 0);
  }

  lemma RowInterpreted(g: Geometry, y: uint, d: byte)
    requires Panel(g) && y < 8
    ensures Exact(PayloadLength, RowMsg(g, y, d))
    ensures Interpret(RowMsg(g, y, d)) == Some(RowPaint(g, 0, y, BitsOf(d)))
  {
    hide BitsOf, ReverseByte, OutputCb, Low8, Floor8;
    ReverseByteBits(d);
    var (px, py) := OutputCb(g, 0, y);
    RowAddress(g, y);
    Small(px);
    Small(py);
  }

  lemma ColInterpreted(g: Geometry, x: uint, d: byte)
    requires Panel(g) && x < 8
    ensures Exact(PayloadLength, ColMsg(g, x, d))
    ensures Interpret(ColMsg(g, x, d)) == Some(ColPaint(g, x, 0, BitsOf(d)))
  {
    hide BitsOf, ReverseByte, OutputCb, Low8, Floor8;
    ReverseByteBits(d);
    var (px, py) := OutputCb(g, x, 0);
    ColAddress(g, x);
    Small(px);
    Small(py);
  }

  lemma PaintedAll(ms: seq<Msg>, cs: seq<Paint<bool>>)
    requires |ms| == |cs|
    requires forall i :: 0 <= i < |ms| ==> Exact(PayloadLength, ms[i]) && Interpret(ms[i]) == Some(cs[i])
    ensures Painted(BytesOf(ms)) == cs
  {
    hide Interpret, Exact;
    DevicePaintsAll(PayloadLength, Interpret, ms, cs);
  }

  /** One `led_set` for each LED of a row. */
  function RowSets(g: Geometry, y: uint, vs: seq<bool>): (ms: seq<Msg>)
    requires |vs| == 8
    ensures |ms| == 8
  {
    seq(8, i requires 0 <= i < 8 => SetMsg(g, i, y, vs[i]))
  }

  function ColSets(g: Geometry, x: uint, vs: seq<bool>): (ms: seq<Msg>)
    requires |vs| == 8
    ensures |ms| == 8
  {
    seq(8, i requires 0 <= i < 8 => SetMsg(g, x, i, vs[i]))
  }

  lemma WrapSum(i: nat)
    requires i < 8
    ensures Wrap(Floor8(0) + i) == i
  {
  }

  /** A row command paints what eight `led_set` calls would. */
  lemma RowPaintsTheSame(g: Geometry, y: uint, d: byte, frame: Frame<bool>)
    requires Panel(g) && y < 8
    ensures Show(frame, Painted(BytesOf([RowMsg(g, y, d)]))) == Show(frame, Painted(BytesOf(RowSets(g, y, BitsOf(d)))))
  {
    hide Painted, BytesOf, Interpret, Exact, RowMsg, SetMsg, RowPaint, DotAt, BitsOf, After, Wrap, Floor8;
    BitsOfLength(d);
    var c, ms, ds := RowPaint(g, 0, y, BitsOf(d)), RowSets(g, y, BitsOf(d)), RowDots(g, 0, y, BitsOf(d));
    RowInterpreted(g, y, d);
    PaintedAll([RowMsg(g, y, d)], [c]);
    forall i | 0 <= i < 8
      ensures Exact(PayloadLength, ms[i]) && Interpret(ms[i]) == Some(ds[i])
    {
      WrapSum(i);
      SetInterpreted(g, i, y, BitsOf(d)[i]);
    }
    PaintedAll(ms, ds);
    forall p | p in frame
      ensures AfterAll([c], p, frame[p]) == AfterAll(ds, p, frame[p])
    {
      RowDrawn(g, 0, y, BitsOf(d), p, frame[p]);
    }
    SameFrame(frame, [c], ds);
  }

  lemma ColPaintsTheSame(g: Geometry, x: uint, d: byte, frame: Frame<bool>)
    requires Panel(g) && x < 8
    ensures Show(frame, Painted(BytesOf([ColMsg(g, x, d)]))) == Show(frame, Painted(BytesOf(ColSets(g, x, BitsOf(d)))))
  {
    hide Painted, BytesOf, Interpret, Exact, ColMsg, SetMsg, ColPaint, DotAt, BitsOf, After, Wrap, Floor8;
    BitsOfLength(d);
    var c, ms, ds := ColPaint(g, x, 0, BitsOf(d)), ColSets(g, x, BitsOf(d)), ColDots(g, x, 0, BitsOf(d));
    ColInterpreted(g, x, d);
    PaintedAll([ColMsg(g, x, d)], [c]);
    forall i | 0 <= i < 8
      ensures Exact(PayloadLength, ms[i]) && Interpret(ms[i]) == Some(ds[i])
    {
      WrapSum(i);
      SetInterpreted(g, x, i, BitsOf(d)[i]);
    }
    PaintedAll(ms, ds);
    forall p | p in frame
      ensures AfterAll([c], p, frame[p]) == AfterAll(ds, p, frame[p])
    {
      ColDrawn(g, x, 0, BitsOf(d), p, frame[p]);
    }
    SameFrame(frame, [c], ds);
  }

  /** `led_all` fills the panel, row by row. */
  lemma AllFills(on: bool, frame: Frame<bool>)
    requires forall p :: p in frame ==> p.x < 8 && p.y < 8
    ensures Show(frame, Painted(BytesOf(AllMsgs(on)))) == Show(frame, [Fill(on)])
  {
    hide Painted, BytesOf, Interpret, Exact, BitsOf;
    var cs := seq(8, i requires 0 <= i < 8 => HLine(0, i, seq(8, _ => on)));
    forall i | 0 <= i < 8
      ensures Exact(PayloadLength, AllMsgs(on)[i]) && Interpret(AllMsgs(on)[i]) == Some(cs[i])
    {
      FullByte(on, i);
    }
    PaintedAll(AllMsgs(on), cs);
    forall p | p in frame
      ensures AfterAll(cs, p, frame[p]) == on
    {
      RowsFill(cs, on, 8, p, frame[p]);
      assert cs[..8] == cs;
    }
    SameFrame(frame, cs, [Fill(on)]);
  }

  lemma FullByte(on: bool, i: nat)
    requires i < 8
    ensures var m := Msg(LED_ROW, i % 16, [if on then 0xFF else 0]);
      Exact(PayloadLength, m) && Interpret(m) == Some(HLine(0, i, seq(8, _ => on)))
  {
    hide Bit;
    AllBits();
    assert BitsOf(if on then 0xFF else 0) == seq(8, _ => on);
  }

  lemma AllBits()
    ensures forall c :: 0 <= c < 8 ==> Bit(0xFF, c) && !Bit(0, c)
  {
  }

  lemma {:induction false} RowsFill(cs: seq<Paint<bool>>, on: bool, n: nat, p: Point, v: bool)
    requires n <= |cs| == 8 && p.x < 8
    requires forall i :: 0 <= i < 8 ==> cs[i] == HLine(0, i, seq(8, _ => on))
    ensures AfterAll(cs[..n], p, v) == if p.y < n then on else v
  {
    if n > 0 {
      RowsFill(cs, on, n - 1, p, v);
      assert cs[..n] == cs[..n - 1] + [cs[n - 1]];
      AfterAllConcat(cs[..n - 1], [cs[n - 1]], p, v);
    }
  }

  // ---- maps ---------------------------------------------------------------

  /** Row i of a tile is where logical row i of the tile at the origin draws its dots. */
  lemma TileRowDots(g: Geometry, tile: seq<bool>, i: nat)
    requires |tile| == 64 && i < 8
    ensures TileDots(g, 0, 0, tile)[8 * i..8 * i + 8] == RowDots(g, 0, i, tile[8 * i..8 * i + 8])
  {
    hide DotAt;
    var ds, es := TileDots(g, 0, 0, tile)[8 * i..8 * i + 8], RowDots(g, 0, i, tile[8 * i..8 * i + 8]);
    forall c | 0 <= c < 8
      ensures ds[c] == es[c]
    {
      Digits(i, c);
      WrapSum(i);
    }
  }

  /** Eight rows drawn one after the other are a tile. */
  lemma RowsAreTile(g: Geometry, tile: seq<bool>, p: Point, v: bool)
    requires Panel(g) && |tile| == 64
    ensures AfterAll(RowsOf(g, tile), p, v) == After(Tile(0, 0, Turn(g.rotation, tile)), p, v)
  {
    hide After, AfterAll, RowPaint, RowDots, TileDots, Turn;
    var cs, ds := RowsOf(g, tile), TileDots(g, 0, 0, tile);
    TileDotsAreDots(g, tile);
    forall k, w | 0 <= k < |cs|
      ensures AfterAll(ds[8 * k..8 * k + 8], p, w) == After(cs[k], p, w)
    {
      TileRowDots(g, tile, k);
      RowDrawn(g, 0, k, tile[8 * k..8 * k + 8], p, w);
    }
    ChunksDrawn(cs, ds, p, v);
    TileDrawn(g, 0, 0, tile, p, v);
    OriginTile(g, tile);
  }

  lemma TileDotsAreDots(g: Geometry, tile: seq<bool>)
    requires |tile| == 64
    ensures AreDots(TileDots(g, 0, 0, tile))
  {
  }

  lemma OriginTile(g: Geometry, tile: seq<bool>)
    requires Panel(g) && |tile| == 64
    ensures TilePaint(g, 0, 0, tile) == Tile(0, 0, Turn(g.rotation, tile))
  {
    hide OutputCb, Low8, Floor8, Turn;
    var (px, py) := OutputCb(g, 0, 0);
    InRange(g, 0, 0, true);
    Small(px);
    Small(py);
  }

  function RowsOf(g: Geometry, tile: seq<bool>): (cs: seq<Paint<bool>>)
    requires |tile| == 64
    ensures |cs| == 8
  {
    seq(8, i requires 0 <= i < 8 => RowPaint(g, 0, i, tile[8 * i..8 * i + 8]))
  }

  lemma MapMsgsPaint(g: Geometry, data: seq<byte>)
    requires Panel(g) && |data| == 8
    ensures Painted(BytesOf(MapMsgs(g, data))) == RowsOf(g, Turn(g.rotation, TileOf(data)))
  {
    hide Painted, BytesOf, Interpret, Exact, RowMsg, RowPaint, BitsOf, TileOf, Turn, MapOf;
    var d, t := TurnMap(g.rotation, data), Turn(g.rotation, TileOf(data));
    TileOfMapOf(t);
    var ms, cs := MapMsgs(g, data), RowsOf(g, t);
    forall i | 0 <= i < 8
      ensures Exact(PayloadLength, ms[i]) && Interpret(ms[i]) == Some(cs[i])
    {
      TileRow(d, i);
      RowInterpreted(g, i, d[i]);
    }
    PaintedAll(ms, cs);
  }

  /** The map that `led_map` draws is the data turned twice: once as a matrix, once row by row. */
  lemma MapTurnsTwice(g: Geometry, data: seq<byte>, frame: Frame<bool>)
    requires Panel(g) && |data| == 8
    ensures Show(frame, Painted(BytesOf(MapMsgs(g, data)))) ==
            Show(frame, [Tile(0, 0, Turn(Compose(g.rotation, g.rotation), TileOf(data)))])
  {
    hide Painted, BytesOf, MapMsgs, RowsOf, Turn, TileOf, After;
    var t := Turn(g.rotation, TileOf(data));
    MapMsgsPaint(g, data);
    TurnTurn(g.rotation, g.rotation, TileOf(data));
    var c := Tile(0, 0, Turn(g.rotation, t));
    forall p | p in frame
      ensures AfterAll(RowsOf(g, t), p, frame[p]) == AfterAll([c], p, frame[p])
    {
      RowsAreTile(g, t, p, frame[p]);
    }
    SameFrame(frame, RowsOf(g, t), [c]);
  }

  /** The level map is turned once more before it is reduced: three times in all. */
  lemma LevelMapTurnsThrice(g: Geometry, levels: seq<byte>, frame: Frame<bool>)
    requires Panel(g) && |levels| == 64
    ensures var rot := g.rotation;
      Show(frame, Painted(BytesOf(MapMsgs(g, Masks(Turn(rot, levels)))))) ==
      Show(frame, [Tile(0, 0, Turn(Compose(rot, Compose(rot, rot)), Lit(levels)))])
  {
    hide Painted, BytesOf, MapMsgs, Turn, TileOf, Show, Masks, Lit;
    var rot := g.rotation;
    MapTurnsTwice(g, Masks(Turn(rot, levels)), frame);
    MasksTile(Turn(rot, levels));
    LitTurn(rot, levels);
    TurnTurn(rot, Compose(rot, rot), Lit(levels));
  }

  /** One `led_set` for each LED of the panel. */
  function MapSets(g: Geometry, tile: seq<bool>): (ms: seq<Msg>)
    requires |tile| == 64
    ensures |ms| == 64
  {
    seq(64, i requires 0 <= i < 64 => SetMsg(g, i % 8, i / 8, tile[i]))
  }

  lemma MapSetsShow(g: Geometry, tile: seq<bool>, frame: Frame<bool>)
    requires Panel(g) && |tile| == 64
    ensures Show(frame, Painted(BytesOf(MapSets(g, tile)))) == Show(frame, [Tile(0, 0, Turn(g.rotation, tile))])
  {
    hide Painted, BytesOf, Interpret, Exact, SetMsg, DotAt, Wrap, Floor8, After, Turn;
    var ms, ds, c := MapSets(g, tile), TileDots(g, 0, 0, tile), Tile(0, 0, Turn(g.rotation, tile));
    forall i | 0 <= i < 64
      ensures Exact(PayloadLength, ms[i]) && Interpret(ms[i]) == Some(ds[i])
    {
      WrapSum(i % 8);
      WrapSum(i / 8);
      SetInterpreted(g, i % 8, i / 8, tile[i]);
    }
    PaintedAll(ms, ds);
    OriginTile(g, tile);
    forall p | p in frame
      ensures AfterAll(ds, p, frame[p]) == AfterAll([c], p, frame[p])
    {
      TileDrawn(g, 0, 0, tile, p, frame[p]);
    }
    SameFrame(frame, ds, [c]);
  }

  predicate Full(frame: Frame<bool>) {
    forall x: nat, y: nat :: x < 8 && y < 8 ==> Point(x, y) in frame
  }

  lemma TilesDiffer(t: seq<bool>, u: seq<bool>, frame: Frame<bool>)
    requires |t| == |u| == 64 && Full(frame)
    ensures Show(frame, [Tile(0, 0, t)]) == Show(frame, [Tile(0, 0, u)]) <==> t == u
  {
    hide Show;
    if t != u {
      var i :| 0 <= i < 64 && t[i] != u[i];
      var p := Point(i % 8, i / 8);
      ShowOne(frame, Tile(0, 0, t), p);
      ShowOne(frame, Tile(0, 0, u), p);
    }
  }

  ghost predicate MapRight(g: Geometry, data: seq<byte>, frame: Frame<bool>)
    requires |data| == 8
  {
    Show(frame, Painted(BytesOf(MapMsgs(g, data)))) == Show(frame, Painted(BytesOf(MapSets(g, TileOf(data)))))
  }

  /** `led_map` agrees with `led_set` for all data exactly when nothing is rotated. */
  lemma MapIsRightIff(g: Geometry, frame: Frame<bool>)
    requires Panel(g) && Full(frame)
    ensures (forall data :: |data| == 8 ==> MapRight(g, data, frame)) <==> g.rotation == R0
  {
    hide Painted, BytesOf, MapMsgs, MapSets, Turn, TileOf, Show, Full;
    var twice := Compose(g.rotation, g.rotation);
    forall data | |data| == 8
      ensures MapRight(g, data, frame) <==> Turn(twice, TileOf(data)) == Turn(g.rotation, TileOf(data))
    {
      MapTurnsTwice(g, data, frame);
      MapSetsShow(g, TileOf(data), frame);
      TilesDiffer(Turn(twice, TileOf(data)), Turn(g.rotation, TileOf(data)), frame);
    }
    TurnsDiffer(twice, g.rotation);
    TileOfMapOf(Marked());
    assert |MapOf(Marked())| == 8;
  }

  ghost predicate LevelMapRight(g: Geometry, levels: seq<byte>, frame: Frame<bool>)
    requires |levels| == 64
  {
    Show(frame, Painted(BytesOf(MapMsgs(g, Masks(Turn(g.rotation, levels)))))) ==
    Show(frame, Painted(BytesOf(MapSets(g, Lit(levels)))))
  }

  /** `led_level_map` agrees with `led_level_set` for all levels exactly at 0 and 180 degrees. */
  lemma LevelMapIsRightIff(g: Geometry, frame: Frame<bool>)
    requires Panel(g) && Full(frame)
    ensures (forall levels :: |levels| == 64 ==> LevelMapRight(g, levels, frame)) <==>
            g.rotation == R0 || g.rotation == R180
  {
    hide Compose, Painted, BytesOf, MapMsgs, MapSets, Turn, Lit, Show, Full, Masks;
    var thrice := Compose(g.rotation, Compose(g.rotation, g.rotation));
    forall levels | |levels| == 64
      ensures LevelMapRight(g, levels, frame) <==> Turn(thrice, Lit(levels)) == Turn(g.rotation, Lit(levels))
    {
      LevelMapTurnsThrice(g, levels, frame);
      MapSetsShow(g, Lit(levels), frame);
      TilesDiffer(Turn(thrice, Lit(levels)), Turn(g.rotation, Lit(levels)), frame);
    }
    TurnsDiffer(thrice, g.rotation);
    ThreeTurns(g.rotation);
    assert |MarkedLevels()| == 64;
  }

  lemma ThreeTurns(rot: Rotation)
    ensures Compose(rot, Compose(rot, rot)) == rot <==> rot == R0 || rot == R180
  {
  }

  // ---- input --------------------------------------------------------------

  const BUTTON_DOWN := 0x01
  const BUTTON_UP := 0x00
  const AUX_1 := 0x10
  const AUX_2 := 0x14

  function ButtonEvent(g: Geometry, b0: byte, b1: byte): Option<Event> {
    var (x, y) := InputCb(g, b1 / 16, b1 % 16);
    if b0 == BUTTON_DOWN then Some(ButtonDown(x, y))
    else if b0 == BUTTON_UP then Some(ButtonUp(x, y))
    else None
  }

  /** The first bytes of messages that there are events for. */
  predicate EventByte(b0: byte) { b0 == BUTTON_DOWN || b0 == BUTTON_UP || AUX_1 <= b0 < AUX_2 + 4 }

  class Input {
    const port: Port
    var tiltX: int
    var tiltY: int

    constructor (port: Port)
      ensures this.port == port && tiltX == 0 && tiltY == 0
    {
      this.port, tiltX, tiltY := port, 0, 0;
    }

    /**
     * `next_event`, with the same signed-unsigned comparison as in the series protocol: a read that
     * fails outright is reported as a button released.
     */
    method NextEvent(g: Geometry) returns (ret: int, e: Option<Event>, ghost read: int, ghost taken: nat)
      modifies this`tiltX, this`tiltY, port`answers, port`clock, port`log, port`input
      ensures taken <= 2 && taken <= |old(port.input)| && port.input == old(port.input)[taken..]
      ensures Got(read, taken, port.answers) == ReadTwo(old(port.answers), old(port.input))
      ensures ret == Returned(EventByte, old(port.answers), old(port.input))
      ensures 0 <= read < 2 ==> ret == read && e == None
      ensures 0 <= read < 2 ==> tiltX == old(tiltX) && tiltY == old(tiltY)
      ensures !(0 <= read < 2) ==>
        var b0, b1 := Arrived(old(port.input), taken, 0), Arrived(old(port.input), taken, 1);
        && tiltX == (if AUX_1 <= b0 < AUX_1 + 4 then (b0 % 4 * 256 + b1) / 4 else old(tiltX))
        && tiltY == (if AUX_2 <= b0 < AUX_2 + 4 then (b0 % 4 * 256 + b1) / 4 else old(tiltY))
        && e == (if AUX_1 <= b0 < AUX_2 + 4 then Some(Event.Tilt(0, tiltX, tiltY, 0)) else ButtonEvent(g, b0, b1))
        && ret == (if e.Some? then 1 else 0)
      ensures read == -1 && taken == 0 ==> ret == 1 && e == ButtonEvent(g, BUTTON_UP, 0)
    {
      var buf := new byte[2](_ => 0);
      var n;
      n, taken := port.Read(buf, 0, 2);
      read := n;
      if 0 <= n < 2 {
        return n, None, read, taken;
      }
      var b0, b1 := buf[0], buf[1];
      assert b0 == buf[..][0] && b1 == buf[..][1];
      if b0 == BUTTON_DOWN || b0 == BUTTON_UP {
        var (x, y) := InputCb(g, b1 / 16, b1 % 16);
        ret, e := 1, Some(if b0 == BUTTON_DOWN then ButtonDown(x, y) else ButtonUp(x, y));
      } else if AUX_1 <= b0 < AUX_2 + 4 {
        if b0 < AUX_2 {
          tiltX := (b0 % 4 * 256 + b1) / 4;
        } else {
          tiltY := (b0 % 4 * 256 + b1) / 4;
        }
        ret, e := 1, Some(Event.Tilt(0, tiltX, tiltY, 0));
      } else {
        ret, e := 0, None;
      }
    }
  }

  /**
   * A result of 1 means that a whole message with an event was taken, exactly unless the read stopped
   * halfway, or failed at once, or failed halfway through what looks like a message with an event.
   */
  lemma EventTakenIff(script: seq<Answer>, stream: seq<byte>)
    ensures (Returned(EventByte, script, stream) == 1 <==> TookEvent(EventByte, script, stream)) <==>
      && !StopsHalfway(script, stream) && !FailsAtOnce(script)
      && !(FailsHalfway(script, stream) && (stream[0] <= 0x01 || 0x10 <= stream[0] < 0x18))
  {
    hide StopsHalfway, FailsAtOnce, FailsHalfway, Returned, TookEvent;
    FailsOnce(script, stream);
    ReturnedIsRightIff(EventByte, script, stream);
  }

  /** A schedule on which a failed read is reported as a release, and one on which half a message has no event but result 1. */
  lemma FalseRelease(g: Geometry, stream: seq<byte>)
    requires stream != []
    ensures var script := [Answer(Broken, 0, 0)];
      && ReadTwo(script, stream) == Got(-1, 0, []) && Returned(EventByte, script, stream) == 1
      && ButtonEvent(g, BUTTON_UP, 0) == Some(ButtonUp(InputCb(g, 0, 0).0, InputCb(g, 0, 0).1))
    ensures var script := [Answer(Fine, 1, 0)];
      ReadTwo(script, stream) == Got(1, 1, []) && Returned(EventByte, script, stream) == 1
  {
    hide InputCb, ReadTwo, Returned;
    FailedRead(EventByte, stream);
    HalfMessage(EventByte, stream);
  }

  /**
   * Both kinds of button message carry the column in the high nybble and the row in the low one, and
   * lighting the coordinates that are reported lights the LED under the button.
   */
  lemma ButtonAddressesLed(g: Geometry, px: uint, py: uint)
    requires Panel(g) && InPhysical(g, px, py)
    ensures var down, up := ButtonEvent(g, 0x01, px * 16 + py), ButtonEvent(g, 0x00, px * 16 + py);
      && down.Some? && down.value.ButtonDown? && up.Some? && up.value.ButtonUp?
      && up.value.x == down.value.x && up.value.y == down.value.y
      && InLogical(g, down.value.x, down.value.y)
      && Interpret(SetMsg(g, down.value.x, down.value.y, true)) == Some(Dot(px, py, true))
  {
    hide OutputCb, InputCb, SetMsg, Interpret, DotAt;
    OutputAfterInput(g, px, py);
    var (x, y) := InputCb(g, px, py);
    assert (px * 16 + py) / 16 == px && (px * 16 + py) % 16 == py;
    SetInterpreted(g, x, y, true);
    InRange(g, x, y, true);
  }

  /** The bytes of the messages for LEDs and lines, unrotated. */
  lemma OnTheWire(x: uint, y: uint, d: byte)
    requires x < 8 && y < 8
    ensures var g := Geometry(8, 8, R0);
      && Bytes(SetMsg(g, x, y, true)) == [0x21, x * 16 + y]
      && Bytes(SetMsg(g, x, y, false)) == [0x20, x * 16 + y]
      && Bytes(RowMsg(g, y, d)) == [0x70 + y, d]
      && Bytes(ColMsg(g, x, d)) == [0x80 + x, d]
  {
    hide Or;
    OrNibble(x, y);
    SmallMod(x, 8);
    SmallMod(y, 8);
  }
}
