/** The LED commands of the mext protocol, and the device that carries them out. */
module MextLeds {
  import opened Bits
  import opened Rotation
  import opened MapCallbacks
  import opened Levels
  import opened Display
  import opened Drawing
  import opened Framing
  import opened Devices
  import opened Platform
  import opened MextWire

  // ---- the device ---------------------------------------------------------

  /**
   * What an on/off message paints. That a line command floors its offset along the line, and a
   * map command both its offsets, to a multiple of 8 is an assumption about the device.
   */
  function Interpret(m: Msg): Option<Paint<bool>> {
    var p := m.payload;
    if m.addr != SS_LED_GRID || |p| != OutgoingLength(m.addr, m.cmd) then None
    else if m.cmd == CMD_LED_OFF then Some(Dot(p[0], p[1], false))
    else if m.cmd == CMD_LED_ON then Some(Dot(p[0], p[1], true))
    else if m.cmd == CMD_LED_ALL_OFF then Some(Fill(false))
    else if m.cmd == CMD_LED_ALL_ON then Some(Fill(true))
    else if m.cmd == CMD_LED_MAP then Some(Tile(Floor8(p[0]), Floor8(p[1]), TileOf(p[2..10])))
    else if m.cmd == CMD_LED_ROW then Some(HLine(Floor8(p[0]), p[1], BitsOf(p[2])))
    else if m.cmd == CMD_LED_COLUMN then Some(VLine(p[0], Floor8(p[1]), BitsOf(p[2])))
    else None
  }

  /** Two levels from each byte, the high nybble first. */
  function Unpacked(s: seq<byte>): (levels: seq<byte>)
    ensures |levels| == 2 * |s|
  {
    seq(2 * |s|, i requires 0 <= i < 2 * |s| => if i % 2 == 0 then s[i / 2] / 16 else s[i / 2] % 16)
  }

  /** What a variable-brightness message paints, under the same assumption about offsets. */
  function InterpretLevels(m: Msg): Option<Paint<byte>> {
    var p := m.payload;
    if m.addr != SS_LED_GRID || |p| != OutgoingLength(m.addr, m.cmd) then None
    else if m.cmd == CMD_LED_LEVEL_SET then Some(Dot(p[0], p[1], p[2]))
    else if m.cmd == CMD_LED_LEVEL_ALL then Some(Fill(p[0]))
    else if m.cmd == CMD_LED_LEVEL_MAP then Some(Tile(Floor8(p[0]), Floor8(p[1]), Unpacked(p[2..34])))
    else if m.cmd == CMD_LED_LEVEL_ROW then Some(HLine(Floor8(p[0]), p[1], Unpacked(p[2..6])))
    else if m.cmd == CMD_LED_LEVEL_COLUMN then Some(VLine(p[0], Floor8(p[1]), Unpacked(p[2..6])))
    else None
  }

  // ---- on/off messages ----------------------------------------------------

  function SetMsg(g: Geometry, x: uint, y: uint, on: bool): Msg {
    var (px, py) := OutputCb(g, x, y);
    Msg(SS_LED_GRID, if on then CMD_LED_ON else CMD_LED_OFF, [Low8(px), Low8(py)])
  }

  /** The command nybble after the rotation has made rows of columns, or not. */
  function Swapped(g: Geometry, cmd: nat, rowCmd: nat): nat {
    if RowColSwap(g.rotation) then (if cmd == rowCmd then 1 else 0) + rowCmd else cmd
  }

  function RowColMsg(g: Geometry, cmd: nat, x: uint, y: uint, data: byte): Msg {
    var (px, py) := OutputCb(g, x, y);
    Msg(SS_LED_GRID, Swapped(g, cmd, CMD_LED_ROW), [Low8(px), Low8(py), data])
  }

  function MapMsg(g: Geometry, x: uint, y: uint, data: seq<byte>): Msg
    requires |data| == 8
  {
    var (px, py) := OutputCb(g, x, y);
    Msg(SS_LED_GRID, CMD_LED_MAP, [Low8(px), Low8(py)] + TurnMap(g.rotation, data))
  }

  /** The message for each data byte of a row, eight columns apart. */
  function RowMsgs(g: Geometry, x: uint, y: uint, data: seq<byte>): (ms: seq<Msg>)
    ensures |ms| == |data|
  {
    seq(|data|, k requires 0 <= k < |data| =>
      RowColMsg(g, CMD_LED_ROW, Wrap(x + 8 * k), y, if RowRevBits(g.rotation) then ReverseByte(data[k]) else data[k]))
  }

  function ColMsgs(g: Geometry, x: uint, y: uint, data: seq<byte>): (ms: seq<Msg>)
    ensures |ms| == |data|
  {
    seq(|data|, k requires 0 <= k < |data| =>
      RowColMsg(g, CMD_LED_COLUMN, x, Wrap(y + 8 * k), if ColRevBits(g.rotation) then ReverseByte(data[k]) else data[k]))
  }

  // ---- the C functions ----------------------------------------------------

  method LedSet(g: Geometry, port: Port, x: uint, y: uint, on: uint) returns (ret: int)
    modifies port`answers, port`clock, port`log, port`sent, port`lost
    ensures Wrote(old(port.answers), old(port.lost), port.answers, port.lost, 1, 3)
    ensures old(port.answers) == [] ==> ret == 3
    ensures old(port.answers) != [] ==>
      var a := old(port.answers)[0];
      ret == if a.outcome == Fine then Min(a.count, 3) else -1
    ensures ret == 3 <==> port.lost == old(port.lost)
    ensures port.lost >= old(port.lost)
    ensures port.lost == old(port.lost) ==> port.sent == old(port.sent) + Bytes(SetMsg(g, x, y, on != 0))
  {
    var (px, py) := OutputCb(g, x, y);
    ret := WriteMsg(port, Msg(SS_LED_GRID, if on != 0 then CMD_LED_ON else CMD_LED_OFF, [Low8(px), Low8(py)]));
  }

  method LedRowCol(g: Geometry, port: Port, cmd: nat, x: uint, y: uint, data: byte) returns (ret: int)
    requires cmd == CMD_LED_ROW || cmd == CMD_LED_COLUMN
    modifies port`answers, port`clock, port`log, port`sent, port`lost
    ensures Wrote(old(port.answers), old(port.lost), port.answers, port.lost, 1, 4)
    ensures old(port.answers) == [] ==> ret == 4
    ensures old(port.answers) != [] ==>
      var a := old(port.answers)[0];
      ret == if a.outcome == Fine then Min(a.count, 4) else -1
    ensures ret == 4 <==> port.lost == old(port.lost)
    ensures port.lost >= old(port.lost)
    ensures port.lost == old(port.lost) ==> port.sent == old(port.sent) + Bytes(RowColMsg(g, cmd, x, y, data))
  {
    var cmd' := cmd;
    if RowColSwap(g.rotation) {
      cmd' := (if cmd - CMD_LED_ROW == 0 then 1 else 0) + CMD_LED_ROW;
    }
    var (px, py) := OutputCb(g, x, y);
    ret := WriteMsg(port, Msg(SS_LED_GRID, cmd', [Low8(px), Low8(py), data]));
  }

  /** The payload of a map: an offset, then eight bytes turned where they were copied to. */
  method MapPayload(rot: Rotation, arch: Arch, x: byte, y: byte, data: seq<byte>) returns (p: seq<byte>)
    requires |data| == 8
    ensures p == [x, y] + TurnMap(rot, data)
  {
    hide TurnMap;
    var payload := new byte[10];
    CopyInto(payload, 2, data);
    assert payload[2..10] == data;
    RotateMap(rot, arch, payload, 2);
    ghost var turned := payload[..];
    assert turned[2..10] == TurnMap(rot, data);
    payload[0], payload[1] := x, y;
    p := payload[..];
    assert p == [x, y] + turned[2..10];
  }

  method LedMap(g: Geometry, arch: Arch, port: Port, x_off: uint, y_off: uint, data: seq<byte>) returns (ret: int)
    requires |data| == 8
    modifies port`answers, port`clock, port`log, port`sent, port`lost
    ensures Wrote(old(port.answers), old(port.lost), port.answers, port.lost, 1, 11)
    ensures old(port.answers) == [] ==> ret == 11
    ensures old(port.answers) != [] ==>
      var a := old(port.answers)[0];
      ret == if a.outcome == Fine then Min(a.count, 11) else -1
    ensures ret == 11 <==> port.lost == old(port.lost)
    ensures port.lost >= old(port.lost)
    ensures port.lost == old(port.lost) ==> port.sent == old(port.sent) + Bytes(MapMsg(g, x_off, y_off, data))
  {
    hide OutputCb, Low8, TurnMap, Delay;
    var (px, py) := OutputCb(g, x_off, y_off);
    var payload := MapPayload(g.rotation, arch, Low8(px), Low8(py), data);
    ret := WriteMsg(port, Msg(SS_LED_GRID, CMD_LED_MAP, payload));
  }

  method LedRow(g: Geometry, port: Port, x_off: uint, y: uint, data: seq<byte>) returns (ret: int)
    modifies port`answers, port`clock, port`log, port`sent, port`lost
    ensures Wrote(old(port.answers), old(port.lost), port.answers, port.lost, |data|, 4)
    ensures ret == 1 && port.lost >= old(port.lost)
    ensures port.lost == old(port.lost) ==> port.sent == old(port.sent) + BytesOf(RowMsgs(g, x_off, y, data))
  {
    hide RowMsgs, RowColMsg, Bytes, Wrap;
    var x: uint := x_off;
    ghost var ms := RowMsgs(g, x_off, y, data);
    WrapSmall(x);
    WroteNothing(port.answers, port.lost, 4);
    for i := 0 to |data|
      invariant port.lost >= old(port.lost)
      invariant Wrote(old(port.answers), old(port.lost), port.answers, port.lost, i, 4)
      invariant port.lost == old(port.lost) ==> port.sent == old(port.sent) + BytesOf(ms[..i])
      invariant x == Wrap(x_off + 8 * i)
    {
      ghost var answers, lost := port.answers, port.lost;
      RowMsgAt(g, x_off, y, data, i);
      BytesOfSnoc(ms[..i], ms[i]);
      assert ms[..i + 1] == ms[..i] + [ms[i]];
      if RowRevBits(g.rotation) {
        var _ := LedRowCol(g, port, CMD_LED_ROW, x, y, ReverseByte(data[i]));
      } else {
        var _ := LedRowCol(g, port, CMD_LED_ROW, x, y, data[i]);
      }
      WroteMore(old(port.answers), old(port.lost), answers, lost, i, port.answers, port.lost, 4);
      WrapAdd(x_off + 8 * i, 8);
      x := Wrap(x + 8);
    }
    assert ms[..|data|] == ms;
    ret := 1;
  }

  lemma RowMsgAt(g: Geometry, x: uint, y: uint, data: seq<byte>, k: nat)
    requires k < |data|
    ensures RowMsgs(g, x, y, data)[k] ==
      RowColMsg(g, CMD_LED_ROW, Wrap(x + 8 * k), y, if RowRevBits(g.rotation) then ReverseByte(data[k]) else data[k])
  {
  }

  method LedCol(g: Geometry, port: Port, x: uint, y_off: uint, data: seq<byte>) returns (ret: int)
    modifies port`answers, port`clock, port`log, port`sent, port`lost
    ensures Wrote(old(port.answers), old(port.lost), port.answers, port.lost, |data|, 4)
    ensures ret == 1 && port.lost >= old(port.lost)
    ensures port.lost == old(port.lost) ==> port.sent == old(port.sent) + BytesOf(ColMsgs(g, x, y_off, data))
  {
    hide ColMsgs, RowColMsg, Bytes, Wrap;
    var y: uint := y_off;
    ghost var ms := ColMsgs(g, x, y_off, data);
    WrapSmall(y);
    WroteNothing(port.answers, port.lost, 4);
    for i := 0 to |data|
      invariant port.lost >= old(port.lost)
      invariant Wrote(old(port.answers), old(port.lost), port.answers, port.lost, i, 4)
      invariant port.lost == old(port.lost) ==> port.sent == old(port.sent) + BytesOf(ms[..i])
      invariant y == Wrap(y_off + 8 * i)
    {
      ghost var answers, lost := port.answers, port.lost;
      ColMsgAt(g, x, y_off, data, i);
      BytesOfSnoc(ms[..i], ms[i]);
      assert ms[..i + 1] == ms[..i] + [ms[i]];
      if ColRevBits(g.rotation) {
        var _ := LedRowCol(g, port, CMD_LED_COLUMN, x, y, ReverseByte(data[i]));
      } else {
        var _ := LedRowCol(g, port, CMD_LED_COLUMN, x, y, data[i]);
      }
      WroteMore(old(port.answers), old(port.lost), answers, lost, i, port.answers, port.lost, 4);
      WrapAdd(y_off + 8 * i, 8);
      y := Wrap(y + 8);
    }
    assert ms[..|data|] == ms;
    ret := 1;
  }

  lemma ColMsgAt(g: Geometry, x: uint, y: uint, data: seq<byte>, k: nat)
    requires k < |data|
    ensures ColMsgs(g, x, y, data)[k] ==
      RowColMsg(g, CMD_LED_COLUMN, x, Wrap(y + 8 * k), if ColRevBits(g.rotation) then ReverseByte(data[k]) else data[k])
  {
  }

  // ---- a line or a map paints what single LEDs would ----------------------

  lemma SetInterpreted(g: Geometry, x: uint, y: uint, on: bool)
    ensures Exact(OutgoingLength, SetMsg(g, x, y, on))
    ensures Interpret(SetMsg(g, x, y, on)) == Some(DotAt(g, x, y, on))
  {
  }

  lemma RowInterpreted(g: Geometry, x: uint, y: uint, data: byte)
    ensures var m := RowColMsg(g, CMD_LED_ROW, x, y, if RowRevBits(g.rotation) then ReverseByte(data) else data);
      Exact(OutgoingLength, m) && Interpret(m) == Some(RowPaint(g, x, y, BitsOf(data)))
  {
    hide BitsOf, ReverseByte, Floor8, Low8;
    ReverseByteBits(data);
  }

  lemma ColInterpreted(g: Geometry, x: uint, y: uint, data: byte)
    ensures var m := RowColMsg(g, CMD_LED_COLUMN, x, y, if ColRevBits(g.rotation) then ReverseByte(data) else data);
      Exact(OutgoingLength, m) && Interpret(m) == Some(ColPaint(g, x, y, BitsOf(data)))
  {
    hide BitsOf, ReverseByte, Floor8, Low8;
    ReverseByteBits(data);
  }

  lemma MapInterpreted(g: Geometry, x: uint, y: uint, data: seq<byte>)
    requires |data| == 8
    ensures var m := MapMsg(g, x, y, data);
      Exact(OutgoingLength, m) && Interpret(m) == Some(TilePaint(g, x, y, TileOf(data)))
  {
    hide TileOf, MapOf, Turn, Floor8, Low8;
    TileOfMapOf(Turn(g.rotation, TileOf(data)));
    assert MapMsg(g, x, y, data).payload[2..10] == TurnMap(g.rotation, data);
  }

  /** One `mext_led_set` for each LED of a row, starting on the tile boundary at or before x. */
  function RowSets(g: Geometry, x: uint, y: uint, data: seq<byte>): (ms: seq<Msg>)
    ensures |ms| == 8 * |data|
  {
    seq(8 * |data|, i requires 0 <= i < 8 * |data| => SetMsg(g, Wrap(Floor8(x) + i), y, LineBits(data)[i]))
  }

  function ColSets(g: Geometry, x: uint, y: uint, data: seq<byte>): (ms: seq<Msg>)
    ensures |ms| == 8 * |data|
  {
    seq(8 * |data|, i requires 0 <= i < 8 * |data| => SetMsg(g, x, Wrap(Floor8(y) + i), LineBits(data)[i]))
  }

  /** One `mext_led_set` for each LED of the tile that (x, y) lies in. */
  function MapSets(g: Geometry, x: uint, y: uint, data: seq<byte>): (ms: seq<Msg>)
    requires |data| == 8
    ensures |ms| == 64
  {
    seq(64, i requires 0 <= i < 64 => SetMsg(g, Wrap(Floor8(x) + i % 8), Wrap(Floor8(y) + i / 8), TileOf(data)[i]))
  }

  lemma RowMsgsPaint(g: Geometry, x: uint, y: uint, data: seq<byte>)
    ensures DevicePaints(OutgoingLength, Interpret, BytesOf(RowMsgs(g, x, y, data))) == RowPaints(g, x, y, LineBits(data))
  {
    hide Interpret, Exact, RowColMsg, RowPaint, LineBits, BitsOf, DevicePaints, BytesOf, Wrap;
    var ms, cs := RowMsgs(g, x, y, data), RowPaints(g, x, y, LineBits(data));
    forall k | 0 <= k < |data|
      ensures Exact(OutgoingLength, ms[k]) && Interpret(ms[k]) == Some(cs[k])
    {
      RowInterpreted(g, Wrap(x + 8 * k), y, data[k]);
      LineBitsChunk(data, k);
    }
    DevicePaintsAll(OutgoingLength, Interpret, ms, cs);
  }

  lemma ColMsgsPaint(g: Geometry, x: uint, y: uint, data: seq<byte>)
    ensures DevicePaints(OutgoingLength, Interpret, BytesOf(ColMsgs(g, x, y, data))) == ColPaints(g, x, y, LineBits(data))
  {
    hide Interpret, Exact, RowColMsg, ColPaint, LineBits, BitsOf, DevicePaints, BytesOf, Wrap;
    var ms, cs := ColMsgs(g, x, y, data), ColPaints(g, x, y, LineBits(data));
    forall k | 0 <= k < |data|
      ensures Exact(OutgoingLength, ms[k]) && Interpret(ms[k]) == Some(cs[k])
    {
      ColInterpreted(g, x, Wrap(y + 8 * k), data[k]);
      LineBitsChunk(data, k);
    }
    DevicePaintsAll(OutgoingLength, Interpret, ms, cs);
  }

  lemma SetsPaint(g: Geometry, ms: seq<Msg>, ds: seq<Paint<bool>>, xs: seq<uint>, ys: seq<uint>, vs: seq<bool>)
    requires |ms| == |ds| == |xs| == |ys| == |vs|
    requires forall i :: 0 <= i < |ms| ==> ms[i] == SetMsg(g, xs[i], ys[i], vs[i])
    requires forall i :: 0 <= i < |ms| ==> ds[i] == DotAt(g, xs[i], ys[i], vs[i])
    ensures DevicePaints(OutgoingLength, Interpret, BytesOf(ms)) == ds
  {
    hide Interpret, Exact, SetMsg, DotAt, DevicePaints, BytesOf;
    forall i | 0 <= i < |ms|
      ensures Exact(OutgoingLength, ms[i]) && Interpret(ms[i]) == Some(ds[i])
    {
      SetInterpreted(g, xs[i], ys[i], vs[i]);
    }
    DevicePaintsAll(OutgoingLength, Interpret, ms, ds);
  }

  lemma RowSetsPaint(g: Geometry, x: uint, y: uint, data: seq<byte>)
    ensures DevicePaints(OutgoingLength, Interpret, BytesOf(RowSets(g, x, y, data))) == RowDots(g, x, y, LineBits(data))
  {
    hide Interpret, SetMsg, DotAt, LineBits, DevicePaints, BytesOf, Wrap, Floor8;
    var n := 8 * |data|;
    SetsPaint(g, RowSets(g, x, y, data), RowDots(g, x, y, LineBits(data)),
              seq<uint>(n, i requires 0 <= i < n => Wrap(Floor8(x) + i)), seq(n, _ => y), LineBits(data));
  }

  lemma ColSetsPaint(g: Geometry, x: uint, y: uint, data: seq<byte>)
    ensures DevicePaints(OutgoingLength, Interpret, BytesOf(ColSets(g, x, y, data))) == ColDots(g, x, y, LineBits(data))
  {
    hide Interpret, SetMsg, DotAt, LineBits, DevicePaints, BytesOf, Wrap, Floor8;
    var n := 8 * |data|;
    SetsPaint(g, ColSets(g, x, y, data), ColDots(g, x, y, LineBits(data)),
              seq(n, _ => x), seq<uint>(n, i requires 0 <= i < n => Wrap(Floor8(y) + i)), LineBits(data));
  }

  lemma MapSetsPaint(g: Geometry, x: uint, y: uint, data: seq<byte>)
    requires |data| == 8
    ensures DevicePaints(OutgoingLength, Interpret, BytesOf(MapSets(g, x, y, data))) == TileDots(g, x, y, TileOf(data))
  {
    hide Interpret, SetMsg, DotAt, TileOf, DevicePaints, BytesOf, Wrap, Floor8;
    SetsPaint(g, MapSets(g, x, y, data), TileDots(g, x, y, TileOf(data)),
              seq(64, i requires 0 <= i < 64 => Wrap(Floor8(x) + i % 8)),
              seq(64, i requires 0 <= i < 64 => Wrap(Floor8(y) + i / 8)), TileOf(data));
  }

  /**
   * The bytes of `mext_led_row` leave the device showing what one `mext_led_set` per LED would:
   * for every rotation, every number of data bytes, every offset, and every device.
   */
  lemma RowPaintsTheSame(g: Geometry, x: uint, y: uint, data: seq<byte>, frame: Frame<bool>)
    requires Eights(g)
    ensures Show(frame, DevicePaints(OutgoingLength, Interpret, BytesOf(RowMsgs(g, x, y, data)))) ==
            Show(frame, DevicePaints(OutgoingLength, Interpret, BytesOf(RowSets(g, x, y, data))))
  {
    hide RowPaints, RowDots, LineBits, DevicePaints, BytesOf, AfterAll, RowMsgs, RowSets;
    RowMsgsPaint(g, x, y, data);
    RowSetsPaint(g, x, y, data);
    forall p | p in frame {
      RowsDrawn(g, x, y, LineBits(data), p, frame[p]);
    }
    SameFrame(frame, RowPaints(g, x, y, LineBits(data)), RowDots(g, x, y, LineBits(data)));
  }

  lemma ColPaintsTheSame(g: Geometry, x: uint, y: uint, data: seq<byte>, frame: Frame<bool>)
    requires Eights(g)
    ensures Show(frame, DevicePaints(OutgoingLength, Interpret, BytesOf(ColMsgs(g, x, y, data)))) ==
            Show(frame, DevicePaints(OutgoingLength, Interpret, BytesOf(ColSets(g, x, y, data))))
  {
    hide ColPaints, ColDots, LineBits, DevicePaints, BytesOf, AfterAll, ColMsgs, ColSets;
    ColMsgsPaint(g, x, y, data);
    ColSetsPaint(g, x, y, data);
    forall p | p in frame {
      ColsDrawn(g, x, y, LineBits(data), p, frame[p]);
    }
    SameFrame(frame, ColPaints(g, x, y, LineBits(data)), ColDots(g, x, y, LineBits(data)));
  }

  /** The one message of `mext_led_map` paints the tile that 64 `mext_led_set` calls would. */
  lemma MapPaintsTheSame(g: Geometry, x: uint, y: uint, data: seq<byte>, frame: Frame<bool>)
    requires Eights(g) && |data| == 8
    ensures Show(frame, DevicePaints(OutgoingLength, Interpret, BytesOf([MapMsg(g, x, y, data)]))) ==
            Show(frame, DevicePaints(OutgoingLength, Interpret, BytesOf(MapSets(g, x, y, data))))
  {
    hide TilePaint, TileDots, TileOf, DevicePaints, BytesOf, After, MapMsg, MapSets, Interpret, Exact;
    var c := TilePaint(g, x, y, TileOf(data));
    MapInterpreted(g, x, y, data);
    DevicePaintsAll(OutgoingLength, Interpret, [MapMsg(g, x, y, data)], [c]);
    MapSetsPaint(g, x, y, data);
    forall p | p in frame
      ensures AfterAll([c], p, frame[p]) == AfterAll(TileDots(g, x, y, TileOf(data)), p, frame[p])
    {
      TileDrawn(g, x, y, TileOf(data), p, frame[p]);
    }
    SameFrame(frame, [c], TileDots(g, x, y, TileOf(data)));
  }

  // ---- levels -------------------------------------------------------------

  /** `revcopy`: eight bytes in reverse. */
  method RevCopy(dst: array<byte>, off: nat, src: seq<byte>)
    requires |src| == 8 && off + 8 <= dst.Length
    modifies dst
    ensures dst[..] == Splice(old(dst[..]), off, Reversed(src))
  {
    var i := 8;
    while i > 0
      invariant 0 <= i <= 8
      invariant forall k :: 0 <= k < off || off + 8 <= k < dst.Length ==> dst[k] == old(dst[k])
      invariant forall k :: off <= k < off + 8 - i ==> dst[k] == Reversed(src)[k - off]
    {
      i := i - 1;
      dst[off + 7 - i] := src[i];
    }
    assert dst[..] == dst[..off] + dst[off..off + 8] + dst[off + 8..];
    assert dst[off..off + 8] == Reversed(src);
  }

  /** Two levels to a byte, the first in the high nybble; only the low four bits of a level survive. */
  function Packed(levels: seq<byte>): (s: seq<byte>)
    ensures |s| == |levels| / 2
  {
    seq(|levels| / 2, i requires 0 <= i < |levels| / 2 => levels[2 * i] % 16 * 16 + levels[2 * i + 1] % 16)
  }

  /**
   * `pack_nybbles`: packs 2n bytes into the first n of them. Each step reads two bytes that no
   * earlier step has written.
   */
  method PackNybbles(data: array<byte>, off: nat, n: nat)
    requires off + 2 * n <= data.Length
    modifies data
    ensures data[..] == Splice(old(data[..]), off, Packed(old(data[off..off + 2 * n])))
  {
    hide Nybbles, Packed, Splice;
    ghost var levels := data[off..off + 2 * n];
    ghost var packed := Packed(levels);
    for i := 0 to n
      invariant forall k :: 0 <= k < off || off + i <= k < data.Length ==> data[k] == old(data[k])
      invariant forall k :: off <= k < off + i ==> data[k] == packed[k - off]
    {
      var hi, lo := data[off + i * 2], data[off + i * 2 + 1];
      assert hi == levels[2 * i] && lo == levels[2 * i + 1];
      PackedAt(levels, i);
      data[off + i] := Nybbles(hi, lo);
    }
    assert data[..][off..off + n] == packed;
    Spliced(old(data[..]), off, packed, data[..]);
  }

  lemma PackedAt(levels: seq<byte>, i: nat)
    requires i < |levels| / 2
    ensures Packed(levels)[i] == Nybbles(levels[2 * i], levels[2 * i + 1])
  {
  }

  /** `(hi << 4) | (lo & 0x0F)` in a byte. */
  function Nybbles(hi: byte, lo: byte): (b: byte)
    ensures b == hi % 16 * 16 + lo % 16
  {
    Shifted(hi);
    Low8(hi * 16) + lo % 16
  }

  lemma Shifted(b: byte)
    ensures Low8(b * 16) == b % 16 * 16 <= 240
  {
  }

  predicate AreLevels(levels: seq<byte>) {
    forall i :: 0 <= i < |levels| ==> levels[i] < 16
  }

  /** The device unpacks the levels that were packed, if they are levels at all. */
  lemma UnpackedPacked(levels: seq<byte>)
    requires AreLevels(levels) && |levels| % 2 == 0
    ensures Unpacked(Packed(levels)) == levels
  {
    forall i | 0 <= i < |levels|
      ensures Unpacked(Packed(levels))[i] == levels[i]
    {
      UnpackPair(levels[i / 2 * 2], levels[i / 2 * 2 + 1]);
    }
  }

  lemma UnpackPair(hi: byte, lo: byte)
    requires hi < 16 && lo < 16
    ensures (hi % 16 * 16 + lo % 16) / 16 == hi && (hi % 16 * 16 + lo % 16) % 16 == lo
  {
  }

  function LevelSetMsg(g: Geometry, x: uint, y: uint, level: byte): Msg {
    var (px, py) := OutputCb(g, x, y);
    Msg(SS_LED_GRID, CMD_LED_LEVEL_SET, [Low8(px), Low8(py), level])
  }

  function LevelMapMsg(g: Geometry, x: uint, y: uint, levels: seq<byte>): Msg
    requires |levels| == 64
  {
    var (px, py) := OutputCb(g, x, y);
    Msg(SS_LED_GRID, CMD_LED_LEVEL_MAP, [Low8(px), Low8(py)] + Packed(Turn(g.rotation, levels)))
  }

  function LevelRowColMsg(g: Geometry, cmd: nat, rev: bool, x: uint, y: uint, levels: seq<byte>): Msg
    requires |levels| == 8
  {
    var (px, py) := OutputCb(g, x, y);
    Msg(SS_LED_GRID, Swapped(g, cmd, CMD_LED_LEVEL_ROW),
        [Low8(px), Low8(py)] + Packed(if rev then Reversed(levels) else levels))
  }

  /** The message for each whole group of eight levels; a shorter group at the end is not sent. */
  function LevelRowMsgs(g: Geometry, x: uint, y: uint, levels: seq<byte>): (ms: seq<Msg>)
    ensures |ms| == |levels| / 8
  {
    seq(|levels| / 8, k requires 0 <= k < |levels| / 8 =>
      LevelRowColMsg(g, CMD_LED_LEVEL_ROW, RowRevBits(g.rotation), Wrap(x + 8 * k), y, levels[8 * k..8 * k + 8]))
  }

  function LevelColMsgs(g: Geometry, x: uint, y: uint, levels: seq<byte>): (ms: seq<Msg>)
    ensures |ms| == |levels| / 8
  {
    seq(|levels| / 8, k requires 0 <= k < |levels| / 8 =>
      LevelRowColMsg(g, CMD_LED_LEVEL_COLUMN, ColRevBits(g.rotation), x, Wrap(y + 8 * k), levels[8 * k..8 * k + 8]))
  }

  method LedLevelSet(g: Geometry, port: Port, x: uint, y: uint, level: uint) returns (ret: int)
    modifies port`answers, port`clock, port`log, port`sent, port`lost
    ensures Wrote(old(port.answers), old(port.lost), port.answers, port.lost, 1, 4)
    ensures old(port.answers) == [] ==> ret == 4
    ensures old(port.answers) != [] ==>
      var a := old(port.answers)[0];
      ret == if a.outcome == Fine then Min(a.count, 4) else -1
    ensures ret == 4 <==> port.lost == old(port.lost)
    ensures port.lost >= old(port.lost)
    ensures port.lost == old(port.lost) ==> port.sent == old(port.sent) + Bytes(LevelSetMsg(g, x, y, Low8(level)))
  {
    var (px, py) := OutputCb(g, x, y);
    ret := WriteMsg(port, Msg(SS_LED_GRID, CMD_LED_LEVEL_SET, [Low8(px), Low8(py), Low8(level)]));
  }

  /** The payload of a level line: an offset, then eight levels packed where they were copied to. */
  method LevelPayload(x: byte, y: byte, rev: bool, data: seq<byte>) returns (p: seq<byte>)
    requires |data| == 8
    ensures |p| == 10 && p[..6] == [x, y] + Packed(if rev then Reversed(data) else data)
  {
    hide Packed, Reversed, Splice;
    var payload := new byte[10];
    payload[0], payload[1] := x, y;
    ghost var levels := if rev then Reversed(data) else data;
    ghost var head := payload[..];
    if rev {
      RevCopy(payload, 2, data);
    } else {
      CopyInto(payload, 2, data);
    }
    SpliceReads(head, 2, levels);
    ghost var full := payload[..];
    assert payload[2..2 + 2 * 4] == full[2..10];
    PackNybbles(payload, 2, 4);
    SpliceReads(full, 2, Packed(levels));
    ghost var packed := payload[..];
    assert packed[..6] == packed[..2] + packed[2..6];
    assert packed[..2] == full[..2] == head[..2] == [x, y];
    p := payload[..];
  }

  method LedLevelRowCol(g: Geometry, port: Port, cmd: nat, rev: bool, x: uint, y: uint, data: seq<byte>)
    returns (ret: int)
    requires |data| == 8
    requires cmd == CMD_LED_LEVEL_ROW || cmd == CMD_LED_LEVEL_COLUMN
    modifies port`answers, port`clock, port`log, port`sent, port`lost
    ensures Wrote(old(port.answers), old(port.lost), port.answers, port.lost, 1, 7)
    ensures old(port.answers) == [] ==> ret == 7
    ensures old(port.answers) != [] ==>
      var a := old(port.answers)[0];
      ret == if a.outcome == Fine then Min(a.count, 7) else -1
    ensures ret == 7 <==> port.lost == old(port.lost)
    ensures port.lost >= old(port.lost)
    ensures port.lost == old(port.lost) ==>
      port.sent == old(port.sent) + Bytes(LevelRowColMsg(g, cmd, rev, x, y, data))
  {
    hide OutputCb, Low8, Packed, Reversed, Splice;
    var cmd' := cmd;
    if RowColSwap(g.rotation) {
      cmd' := (if cmd - CMD_LED_LEVEL_ROW == 0 then 1 else 0) + CMD_LED_LEVEL_ROW;
    }
    var (px, py) := OutputCb(g, x, y);
    var payload := LevelPayload(Low8(px), Low8(py), rev, data);
    ret := WriteMsg(port, Msg(SS_LED_GRID, cmd', payload));
  }

  method LedLevelMap(g: Geometry, port: Port, x_off: uint, y_off: uint, data: seq<byte>) returns (ret: int)
    requires |data| == 64
    modifies port`answers, port`clock, port`log, port`sent, port`lost
    ensures Wrote(old(port.answers), old(port.lost), port.answers, port.lost, 1, 35)
    ensures old(port.answers) == [] ==> ret == 35
    ensures old(port.answers) != [] ==>
      var a := old(port.answers)[0];
      ret == if a.outcome == Fine then Min(a.count, 35) else -1
    ensures ret == 35 <==> port.lost == old(port.lost)
    ensures port.lost >= old(port.lost)
    ensures port.lost == old(port.lost) ==> port.sent == old(port.sent) + Bytes(LevelMapMsg(g, x_off, y_off, data))
  {
    hide OutputCb, Low8, Packed, Turn;
    var (px, py) := OutputCb(g, x_off, y_off);
    var payload := new byte[66];
    RotateLevels(g.rotation, payload, 2, data);
    assert payload[2..66] == Turn(g.rotation, data);
    PackNybbles(payload, 2, 32);
    ghost var packed := payload[..];
    assert packed[2..34] == Packed(Turn(g.rotation, data));
    payload[0], payload[1] := Low8(px), Low8(py);
    assert payload[..34] == [Low8(px), Low8(py)] + packed[2..34];
    ret := WriteMsg(port, Msg(SS_LED_GRID, CMD_LED_LEVEL_MAP, payload[..]));
  }

  method LedLevelRow(g: Geometry, port: Port, x_off: uint, y: uint, data: seq<byte>) returns (ret: int)
    modifies port`answers, port`clock, port`log, port`sent, port`lost
    ensures Wrote(old(port.answers), old(port.lost), port.answers, port.lost, |data| / 8, 7)
    ensures ret == 1 && port.lost >= old(port.lost)
    ensures port.lost == old(port.lost) ==> port.sent == old(port.sent) + BytesOf(LevelRowMsgs(g, x_off, y, data))
  {
    hide LevelRowMsgs, LevelRowColMsg, Bytes, Wrap;
    var x: uint := x_off;
    var count := |data| / 8;
    ghost var ms := LevelRowMsgs(g, x_off, y, data);
    WrapSmall(x);
    WroteNothing(port.answers, port.lost, 7);
    for i := 0 to count
      invariant port.lost >= old(port.lost)
      invariant Wrote(old(port.answers), old(port.lost), port.answers, port.lost, i, 7)
      invariant port.lost == old(port.lost) ==> port.sent == old(port.sent) + BytesOf(ms[..i])
      invariant x == Wrap(x_off + 8 * i)
    {
      ghost var answers, lost := port.answers, port.lost;
      LevelRowMsgAt(g, x_off, y, data, i);
      BytesOfSnoc(ms[..i], ms[i]);
      assert ms[..i + 1] == ms[..i] + [ms[i]];
      var _ := LedLevelRowCol(g, port, CMD_LED_LEVEL_ROW, RowRevBits(g.rotation), x, y, data[8 * i..8 * i + 8]);
      WroteMore(old(port.answers), old(port.lost), answers, lost, i, port.answers, port.lost, 7);
      WrapAdd(x_off + 8 * i, 8);
      x := Wrap(x + 8);
    }
    assert ms[..count] == ms;
    ret := 1;
  }

  lemma LevelRowMsgAt(g: Geometry, x: uint, y: uint, levels: seq<byte>, k: nat)
    requires k < |levels| / 8
    ensures LevelRowMsgs(g, x, y, levels)[k] ==
      LevelRowColMsg(g, CMD_LED_LEVEL_ROW, RowRevBits(g.rotation), Wrap(x + 8 * k), y, levels[8 * k..8 * k + 8])
  {
  }

  method LedLevelCol(g: Geometry, port: Port, x: uint, y_off: uint, data: seq<byte>) returns (ret: int)
    modifies port`answers, port`clock, port`log, port`sent, port`lost
    ensures Wrote(old(port.answers), old(port.lost), port.answers, port.lost, |data| / 8, 7)
    ensures ret == 1 && port.lost >= old(port.lost)
    ensures port.lost == old(port.lost) ==> port.sent == old(port.sent) + BytesOf(LevelColMsgs(g, x, y_off, data))
  {
    hide LevelColMsgs, LevelRowColMsg, Bytes, Wrap;
    var y: uint := y_off;
    var count := |data| / 8;
    ghost var ms := LevelColMsgs(g, x, y_off, data);
    WrapSmall(y);
    WroteNothing(port.answers, port.lost, 7);
    for i := 0 to count
      invariant port.lost >= old(port.lost)
      invariant Wrote(old(port.answers), old(port.lost), port.answers, port.lost, i, 7)
      invariant port.lost == old(port.lost) ==> port.sent == old(port.sent) + BytesOf(ms[..i])
      invariant y == Wrap(y_off + 8 * i)
    {
      ghost var answers, lost := port.answers, port.lost;
      LevelColMsgAt(g, x, y_off, data, i);
      BytesOfSnoc(ms[..i], ms[i]);
      assert ms[..i + 1] == ms[..i] + [ms[i]];
      var _ := LedLevelRowCol(g, port, CMD_LED_LEVEL_COLUMN, ColRevBits(g.rotation), x, y, data[8 * i..8 * i + 8]);
      WroteMore(old(port.answers), old(port.lost), answers, lost, i, port.answers, port.lost, 7);
      WrapAdd(y_off + 8 * i, 8);
      y := Wrap(y + 8);
    }
    assert ms[..count] == ms;
    ret := 1;
  }

  lemma LevelColMsgAt(g: Geometry, x: uint, y: uint, levels: seq<byte>, k: nat)
    requires k < |levels| / 8
    ensures LevelColMsgs(g, x, y, levels)[k] ==
      LevelRowColMsg(g, CMD_LED_LEVEL_COLUMN, ColRevBits(g.rotation), x, Wrap(y + 8 * k), levels[8 * k..8 * k + 8])
  {
  }

  // ---- a level line or map paints what single levels would ----------------

  lemma LevelSetInterpreted(g: Geometry, x: uint, y: uint, level: byte)
    ensures Exact(OutgoingLength, LevelSetMsg(g, x, y, level))
    ensures InterpretLevels(LevelSetMsg(g, x, y, level)) == Some(DotAt(g, x, y, level))
  {
  }

  lemma AfterOffset(x: byte, y: byte, s: seq<byte>)
    ensures ([x, y] + s)[2..2 + |s|] == s && ([x, y] + s)[0] == x && ([x, y] + s)[1] == y
  {
  }

  lemma LevelRowInterpreted(g: Geometry, x: uint, y: uint, levels: seq<byte>)
    requires |levels| == 8 && AreLevels(levels)
    ensures var m := LevelRowColMsg(g, CMD_LED_LEVEL_ROW, RowRevBits(g.rotation), x, y, levels);
      Exact(OutgoingLength, m) && InterpretLevels(m) == Some(RowPaint(g, x, y, levels))
  {
    hide Packed, Unpacked, Floor8, Low8;
    var shown := if RowRevBits(g.rotation) then Reversed(levels) else levels;
    UnpackedPacked(shown);
    var (px, py) := OutputCb(g, x, y);
    AfterOffset(Low8(px), Low8(py), Packed(shown));
  }

  lemma LevelColInterpreted(g: Geometry, x: uint, y: uint, levels: seq<byte>)
    requires |levels| == 8 && AreLevels(levels)
    ensures var m := LevelRowColMsg(g, CMD_LED_LEVEL_COLUMN, ColRevBits(g.rotation), x, y, levels);
      Exact(OutgoingLength, m) && InterpretLevels(m) == Some(ColPaint(g, x, y, levels))
  {
    hide Packed, Unpacked, Floor8, Low8;
    var shown := if ColRevBits(g.rotation) then Reversed(levels) else levels;
    UnpackedPacked(shown);
    var (px, py) := OutputCb(g, x, y);
    AfterOffset(Low8(px), Low8(py), Packed(shown));
  }

  lemma LevelMapInterpreted(g: Geometry, x: uint, y: uint, levels: seq<byte>)
    requires |levels| == 64 && AreLevels(levels)
    ensures var m := LevelMapMsg(g, x, y, levels);
      Exact(OutgoingLength, m) && InterpretLevels(m) == Some(TilePaint(g, x, y, levels))
  {
    hide Packed, Unpacked, Floor8, Low8, Source;
    var turned := Turn(g.rotation, levels);
    UnpackedPacked(turned);
    var (px, py) := OutputCb(g, x, y);
    AfterOffset(Low8(px), Low8(py), Packed(turned));
  }

  /** One `mext_led_level_set` for each level, starting on the tile boundary at or before x. */
  function LevelRowSets(g: Geometry, x: uint, y: uint, levels: seq<byte>): (ms: seq<Msg>)
    ensures |ms| == |levels|
  {
    seq(|levels|, i requires 0 <= i < |levels| => LevelSetMsg(g, Wrap(Floor8(x) + i), y, levels[i]))
  }

  function LevelColSets(g: Geometry, x: uint, y: uint, levels: seq<byte>): (ms: seq<Msg>)
    ensures |ms| == |levels|
  {
    seq(|levels|, i requires 0 <= i < |levels| => LevelSetMsg(g, x, Wrap(Floor8(y) + i), levels[i]))
  }

  function LevelMapSets(g: Geometry, x: uint, y: uint, levels: seq<byte>): (ms: seq<Msg>)
    requires |levels| == 64
    ensures |ms| == 64
  {
    seq(64, i requires 0 <= i < 64 => LevelSetMsg(g, Wrap(Floor8(x) + i % 8), Wrap(Floor8(y) + i / 8), levels[i]))
  }

  lemma LevelSetsPaint(g: Geometry, ms: seq<Msg>, ds: seq<Paint<byte>>, xs: seq<uint>, ys: seq<uint>, vs: seq<byte>)
    requires |ms| == |ds| == |xs| == |ys| == |vs|
    requires forall i :: 0 <= i < |ms| ==> ms[i] == LevelSetMsg(g, xs[i], ys[i], vs[i])
    requires forall i :: 0 <= i < |ms| ==> ds[i] == DotAt(g, xs[i], ys[i], vs[i])
    ensures DevicePaints(OutgoingLength, InterpretLevels, BytesOf(ms)) == ds
  {
    hide InterpretLevels, Exact, LevelSetMsg, DotAt, DevicePaints, BytesOf;
    forall i | 0 <= i < |ms|
      ensures Exact(OutgoingLength, ms[i]) && InterpretLevels(ms[i]) == Some(ds[i])
    {
      LevelSetInterpreted(g, xs[i], ys[i], vs[i]);
    }
    DevicePaintsAll(OutgoingLength, InterpretLevels, ms, ds);
  }

  lemma LevelRowSetsPaint(g: Geometry, x: uint, y: uint, levels: seq<byte>)
    ensures DevicePaints(OutgoingLength, InterpretLevels, BytesOf(LevelRowSets(g, x, y, levels))) == RowDots(g, x, y, levels)
  {
    hide InterpretLevels, LevelSetMsg, DotAt, DevicePaints, BytesOf, Wrap, Floor8;
    var n := |levels|;
    LevelSetsPaint(g, LevelRowSets(g, x, y, levels), RowDots(g, x, y, levels),
                   seq<uint>(n, i requires 0 <= i < n => Wrap(Floor8(x) + i)), seq(n, _ => y), levels);
  }

  lemma LevelColSetsPaint(g: Geometry, x: uint, y: uint, levels: seq<byte>)
    ensures DevicePaints(OutgoingLength, InterpretLevels, BytesOf(LevelColSets(g, x, y, levels))) == ColDots(g, x, y, levels)
  {
    hide InterpretLevels, LevelSetMsg, DotAt, DevicePaints, BytesOf, Wrap, Floor8;
    var n := |levels|;
    LevelSetsPaint(g, LevelColSets(g, x, y, levels), ColDots(g, x, y, levels),
                   seq(n, _ => x), seq<uint>(n, i requires 0 <= i < n => Wrap(Floor8(y) + i)), levels);
  }

  lemma LevelMapSetsPaint(g: Geometry, x: uint, y: uint, levels: seq<byte>)
    requires |levels| == 64
    ensures DevicePaints(OutgoingLength, InterpretLevels, BytesOf(LevelMapSets(g, x, y, levels))) == TileDots(g, x, y, levels)
  {
    hide InterpretLevels, LevelSetMsg, DotAt, DevicePaints, BytesOf, Wrap, Floor8;
    LevelSetsPaint(g, LevelMapSets(g, x, y, levels), TileDots(g, x, y, levels),
                   seq(64, i requires 0 <= i < 64 => Wrap(Floor8(x) + i % 8)),
                   seq(64, i requires 0 <= i < 64 => Wrap(Floor8(y) + i / 8)), levels);
  }

  lemma LevelRowMsgsPaint(g: Geometry, x: uint, y: uint, levels: seq<byte>)
    requires |levels| % 8 == 0 && AreLevels(levels)
    ensures DevicePaints(OutgoingLength, InterpretLevels, BytesOf(LevelRowMsgs(g, x, y, levels))) == RowPaints(g, x, y, levels)
  {
    hide InterpretLevels, Exact, LevelRowColMsg, RowPaint, DevicePaints, BytesOf, Wrap;
    var ms, cs := LevelRowMsgs(g, x, y, levels), RowPaints(g, x, y, levels);
    forall k | 0 <= k < |levels| / 8
      ensures Exact(OutgoingLength, ms[k]) && InterpretLevels(ms[k]) == Some(cs[k])
    {
      LevelRowInterpreted(g, Wrap(x + 8 * k), y, levels[8 * k..8 * k + 8]);
    }
    DevicePaintsAll(OutgoingLength, InterpretLevels, ms, cs);
  }

  /** A packed level row, unpacked by the device, shows what one `mext_led_level_set` per LED would. */
  lemma LevelRowPaintsTheSame(g: Geometry, x: uint, y: uint, levels: seq<byte>, frame: Frame<byte>)
    requires Eights(g) && |levels| % 8 == 0 && AreLevels(levels)
    ensures Show(frame, DevicePaints(OutgoingLength, InterpretLevels, BytesOf(LevelRowMsgs(g, x, y, levels)))) ==
            Show(frame, DevicePaints(OutgoingLength, InterpretLevels, BytesOf(LevelRowSets(g, x, y, levels))))
  {
    hide RowPaints, RowDots, DevicePaints, BytesOf, AfterAll, LevelRowMsgs, LevelRowSets;
    LevelRowMsgsPaint(g, x, y, levels);
    LevelRowSetsPaint(g, x, y, levels);
    forall p | p in frame {
      RowsDrawn(g, x, y, levels, p, frame[p]);
    }
    SameFrame(frame, RowPaints(g, x, y, levels), RowDots(g, x, y, levels));
  }

  lemma LevelColMsgsPaint(g: Geometry, x: uint, y: uint, levels: seq<byte>)
    requires |levels| % 8 == 0 && AreLevels(levels)
    ensures DevicePaints(OutgoingLength, InterpretLevels, BytesOf(LevelColMsgs(g, x, y, levels))) == ColPaints(g, x, y, levels)
  {
    hide InterpretLevels, Exact, LevelRowColMsg, ColPaint, DevicePaints, BytesOf, Wrap;
    var ms, cs := LevelColMsgs(g, x, y, levels), ColPaints(g, x, y, levels);
    forall k | 0 <= k < |levels| / 8
      ensures Exact(OutgoingLength, ms[k]) && InterpretLevels(ms[k]) == Some(cs[k])
    {
      LevelColInterpreted(g, x, Wrap(y + 8 * k), levels[8 * k..8 * k + 8]);
    }
    DevicePaintsAll(OutgoingLength, InterpretLevels, ms, cs);
  }

  /** A packed level column, unpacked by the device, shows what one `mext_led_level_set` per LED would. */
  lemma LevelColPaintsTheSame(g: Geometry, x: uint, y: uint, levels: seq<byte>, frame: Frame<byte>)
    requires Eights(g) && |levels| % 8 == 0 && AreLevels(levels)
    ensures Show(frame, DevicePaints(OutgoingLength, InterpretLevels, BytesOf(LevelColMsgs(g, x, y, levels)))) ==
            Show(frame, DevicePaints(OutgoingLength, InterpretLevels, BytesOf(LevelColSets(g, x, y, levels))))
  {
    hide ColPaints, ColDots, DevicePaints, BytesOf, AfterAll, LevelColMsgs, LevelColSets;
    LevelColMsgsPaint(g, x, y, levels);
    LevelColSetsPaint(g, x, y, levels);
    forall p | p in frame {
      ColsDrawn(g, x, y, levels, p, frame[p]);
    }
    SameFrame(frame, ColPaints(g, x, y, levels), ColDots(g, x, y, levels));
  }

  lemma LevelMapPaintsTheSame(g: Geometry, x: uint, y: uint, levels: seq<byte>, frame: Frame<byte>)
    requires Eights(g) && |levels| == 64 && AreLevels(levels)
    ensures Show(frame, DevicePaints(OutgoingLength, InterpretLevels, BytesOf([LevelMapMsg(g, x, y, levels)]))) ==
            Show(frame, DevicePaints(OutgoingLength, InterpretLevels, BytesOf(LevelMapSets(g, x, y, levels))))
  {
    hide TilePaint, TileDots, DevicePaints, BytesOf, After, LevelMapMsg, LevelMapSets, InterpretLevels, Exact;
    var c := TilePaint(g, x, y, levels);
    LevelMapInterpreted(g, x, y, levels);
    DevicePaintsAll(OutgoingLength, InterpretLevels, [LevelMapMsg(g, x, y, levels)], [c]);
    LevelMapSetsPaint(g, x, y, levels);
    forall p | p in frame
      ensures AfterAll([c], p, frame[p]) == AfterAll(TileDots(g, x, y, levels), p, frame[p])
    {
      TileDrawn(g, x, y, levels, p, frame[p]);
    }
    SameFrame(frame, [c], TileDots(g, x, y, levels));
  }

  /** The bytes of the messages, unrotated. */
  lemma OnTheWire(rows: int, cols: int, x: byte, y: byte, d: byte)
    ensures var g := Geometry(rows, cols, R0);
      && Bytes(SetMsg(g, x, y, true)) == [0x11, x, y]
      && Bytes(SetMsg(g, x, y, false)) == [0x10, x, y]
      && Bytes(RowColMsg(g, CMD_LED_ROW, x, y, d)) == [0x15, x, y, d]
      && Bytes(RowColMsg(g, CMD_LED_COLUMN, x, y, d)) == [0x16, x, y, d]
      && Bytes(LevelSetMsg(g, x, y, d)) == [0x18, x, y, d]
  {
  }

  lemma MapsOnTheWire(rows: int, cols: int, x: byte, y: byte, d: seq<byte>, levels: seq<byte>)
    requires |d| == 8 && |levels| == 64
    ensures var g := Geometry(rows, cols, R0);
      && Bytes(MapMsg(g, x, y, d)) == [0x14, x, y] + d
      && Bytes(LevelMapMsg(g, x, y, levels)) == [0x1A, x, y] + Packed(levels)
  {
    hide TurnMap, Turn, Packed;
    TurnMapTwice(R0, R0, d);
    TurnR0(levels);
  }

  /** Eight levels of a row, packed two to a byte with the first in the high nybble. */
  lemma LevelsOnTheWire(rows: int, cols: int, x: byte, y: byte, l: seq<byte>)
    requires |l| == 8 && AreLevels(l)
    ensures var g := Geometry(rows, cols, R0);
      && Bytes(LevelRowColMsg(g, CMD_LED_LEVEL_ROW, false, x, y, l)) ==
         [0x1B, x, y, 16 * l[0] + l[1], 16 * l[2] + l[3], 16 * l[4] + l[5], 16 * l[6] + l[7]]
      && Bytes(LevelRowColMsg(g, CMD_LED_LEVEL_COLUMN, false, x, y, l)) ==
         [0x1C, x, y, 16 * l[0] + l[1], 16 * l[2] + l[3], 16 * l[4] + l[5], 16 * l[6] + l[7]]
  {
    var p := Packed(l);
    assert p == [p[0], p[1], p[2], p[3]];
    forall i | 0 <= i < 8 ensures l[i] % 16 == l[i] {
      SmallMod(l[i], 16);
    }
    assert p[0] == 16 * l[0] + l[1] && p[1] == 16 * l[2] + l[3] && p[2] == 16 * l[4] + l[5] && p[3] == 16 * l[6] + l[7];
  }
}
