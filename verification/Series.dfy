/** The series protocol (monome 64, 128, 256 and kits): LED commands, button input, and the device. */
module Series {
  import opened Bits
  import opened Rotation
  import opened MapCallbacks
  import opened Levels
  import opened Display
  import opened Drawing
  import opened Framing
  import opened Devices
  import opened Events
  import opened Platform
  import opened Inputs

  // Opcodes, the high nybbles of the message headers.
  const LED_ON := 0x2
  const LED_OFF := 0x3
  const LED_ROW_8 := 0x4
  const LED_COL_8 := 0x5
  const LED_ROW_16 := 0x6
  const LED_COL_16 := 0x7
  const LED_FRAME := 0x8
  const CLEAR := 0x9

  // ---- the device ---------------------------------------------------------

  function PayloadLength(op: nat, arg: nat): nat {
    if op <= LED_COL_8 then 1
    else if op == LED_ROW_16 || op == LED_COL_16 then 2
    else if op == LED_FRAME then 8
    else 0
  }

  function Interpret(m: Msg): Option<Paint<bool>> {
    var p := m.payload;
    if |p| != PayloadLength(m.addr, m.cmd) then None
    else if m.addr == LED_ON then Some(Dot(p[0] / 16, p[0] % 16, true))
    else if m.addr == LED_OFF then Some(Dot(p[0] / 16, p[0] % 16, false))
    else if m.addr == LED_ROW_8 then Some(HLine(0, m.cmd, BitsOf(p[0])))
    else if m.addr == LED_COL_8 then Some(VLine(m.cmd, 0, BitsOf(p[0])))
    else if m.addr == LED_ROW_16 then Some(HLine(0, m.cmd, BitsOf(p[0]) + BitsOf(p[1])))
    else if m.addr == LED_COL_16 then Some(VLine(m.cmd, 0, BitsOf(p[0]) + BitsOf(p[1])))
    else if m.addr == LED_FRAME then Some(Tile(8 * (m.cmd % 2), 8 * (m.cmd / 2 % 2), TileOf(p)))
    else if m.addr == CLEAR then Some(Fill(m.cmd % 2 == 1))
    else None
  }

  function Painted(s: seq<byte>): seq<Paint<bool>> { DevicePaints(PayloadLength, Interpret, s) }

  /** The sizes these devices come in. */
  predicate Panel(g: Geometry) { g.rows in {8, 16} && g.cols in {8, 16} }

  // ---- messages -----------------------------------------------------------

  function SetMsg(g: Geometry, x: uint, y: uint, on: bool): Msg {
    var (px, py) := OutputCb(g, x, y);
    Msg(if on then LED_ON else LED_OFF, 0, [Low8(Or(px * 16, py))])
  }

  /** The physical line that logical row (or column) a lies on, by rotating (a, a). */
  function LineAddress(g: Geometry, row: bool, a: uint): uint {
    var (xa, ya) := OutputCb(g, a, a);
    if row == RowColSwap(g.rotation) then xa else ya
  }

  predicate Reverses(g: Geometry, row: bool) { if row then RowRevBits(g.rotation) else ColRevBits(g.rotation) }

  /** Whether a logical row (or column) is a row of the device. */
  predicate Across(g: Geometry, row: bool) { row != RowColSwap(g.rotation) }

  function Line8Msg(g: Geometry, row: bool, a: uint, d: byte): Msg {
    Msg(if Across(g, row) then LED_ROW_8 else LED_COL_8, LineAddress(g, row, a) % 16,
        [if Reverses(g, row) then ReverseByte(d) else d])
  }

  /** Two data bytes as a 16-bit line carries them; big-endian builds exchange them. */
  function Line16Bytes(big: bool, rev: bool, d0: byte, d1: byte): seq<byte> {
    if !big then (if rev then [ReverseByte(d1), ReverseByte(d0)] else [d0, d1])
    else (if rev then [ReverseByte(d0), ReverseByte(d1)] else [d1, d0])
  }

  function Line16Msg(g: Geometry, big: bool, row: bool, a: uint, d0: byte, d1: byte): Msg {
    Msg(if Across(g, row) then LED_ROW_16 else LED_COL_16, LineAddress(g, row, a) % 16,
        Line16Bytes(big, Reverses(g, row), d0, d1))
  }

  /** How many LEDs a logical row (or column) has. */
  function LineLength(g: Geometry, row: bool): int { if row then GetCols(g) else GetRows(g) }

  /** The two bytes of the 16-bit variable that a single data byte is widened into, as they lie in memory. */
  function Widened(big: bool, d: byte): (byte, byte) { if big then (0, d) else (d, 0) }

  /** The message for a whole row or column: the length of the line decides between 8 and 16 bits. */
  function LineMsg(g: Geometry, big: bool, row: bool, a: uint, count: nat, data: seq<byte>): Msg
    requires |data| >= 1 && (count > 1 ==> |data| >= 2)
  {
    if LineLength(g, row) <= 8 then Line8Msg(g, row, a, data[0])
    else if count <= 1 then
      var (d0, d1) := Widened(big, data[0]);
      Line16Msg(g, big, row, a, d0, d1)
    else Line16Msg(g, big, row, a, data[0], data[1])
  }

  function MapMsg(g: Geometry, x: uint, y: uint, data: seq<byte>): Msg
    requires |data| == 8
  {
    var (px, py) := OutputCb(g, x, y);
    Msg(LED_FRAME, (px / 8 + py / 8 * 2) % 4, TurnMap(g.rotation, data))
  }

  // ---- the C functions ----------------------------------------------------

  method MonomeWrite(port: Port, m: Msg) returns (ret: int)
    modifies port`answers, port`clock, port`log, port`sent, port`lost
    ensures Wrote(old(port.answers), old(port.lost), port.answers, port.lost, 1, |Bytes(m)|)
    ensures ret == if port.lost == old(port.lost) then 0 else -1
    ensures ret == 0 ==> port.sent == old(port.sent) + Bytes(m)
    ensures ret == 0 || ret == -1
  {
    var n := port.Write(Bytes(m));
    ret := if n == |Bytes(m)| then 0 else -1;
  }

  method LedSet(g: Geometry, port: Port, x: uint, y: uint, on: uint) returns (ret: int)
    modifies port`answers, port`clock, port`log, port`sent, port`lost
    ensures Wrote(old(port.answers), old(port.lost), port.answers, port.lost, 1, 2)
    ensures ret == if port.lost == old(port.lost) then 0 else -1
    ensures ret == 0 ==> port.sent == old(port.sent) + Bytes(SetMsg(g, x, y, on != 0))
  {
    var (px, py) := OutputCb(g, x, y);
    ret := MonomeWrite(port, Msg(LED_ON + (if on == 0 then 1 else 0), 0, [Low8(Or(px * 16, py))]));
  }

  method LedColRow8(g: Geometry, port: Port, mode: nat, address: uint, data: byte) returns (ret: int)
    requires mode == LED_ROW_8 || mode == LED_COL_8
    modifies port`answers, port`clock, port`log, port`sent, port`lost
    ensures Wrote(old(port.answers), old(port.lost), port.answers, port.lost, 1, 2)
    ensures ret == if port.lost == old(port.lost) then 0 else -1
    ensures ret == 0 ==> port.sent == old(port.sent) + Bytes(Line8Msg(g, mode == LED_ROW_8, address, data))
  {
    var (xaddress, a) := OutputCb(g, address, address);
    var d;
    if mode == LED_ROW_8 {
      if RowColSwap(g.rotation) {
        a := xaddress;
      }
      d := if RowRevBits(g.rotation) then ReverseByte(data) else data;
    } else {
      if !RowColSwap(g.rotation) {
        a := xaddress;
      }
      d := if ColRevBits(g.rotation) then ReverseByte(data) else data;
    }
    var op := mode;
    if RowColSwap(g.rotation) {
      op := (if mode - LED_ROW_8 == 0 then 1 else 0) + LED_ROW_8;
    }
    ret := MonomeWrite(port, Msg(op, a % 16, [d]));
  }

  /** The two data bytes, placed as the build does. */
  method Line16Payload(arch: Arch, rev: bool, d0: byte, d1: byte) returns (data: seq<byte>)
    ensures data == Line16Bytes(arch.bigEndian, rev, d0, d1)
  {
    hide ReverseByte;
    var buf := new byte[3];
    if !arch.bigEndian {
      if rev {
        buf[1] := ReverseByte(d1);
        buf[2] := ReverseByte(d0);
      } else {
        buf[1] := d0;
        buf[2] := d1;
      }
    } else {
      if rev {
        buf[2] := ReverseByte(d1);
        buf[1] := ReverseByte(d0);
      } else {
        buf[2] := d0;
        buf[1] := d1;
      }
    }
    data := buf[1..];
  }

  method LedColRow16(g: Geometry, arch: Arch, port: Port, mode: nat, address: uint, d0: byte, d1: byte)
    returns (ret: int)
    requires mode == LED_ROW_16 || mode == LED_COL_16
    modifies port`answers, port`clock, port`log, port`sent, port`lost
    ensures Wrote(old(port.answers), old(port.lost), port.answers, port.lost, 1, 3)
    ensures ret == if port.lost == old(port.lost) then 0 else -1
    ensures ret == 0 ==>
      port.sent == old(port.sent) + Bytes(Line16Msg(g, arch.bigEndian, mode == LED_ROW_16, address, d0, d1))
  {
    var (xaddress, a) := OutputCb(g, address, address);
    var rev;
    if mode == LED_ROW_16 {
      if RowColSwap(g.rotation) {
        a := xaddress;
      }
      rev := RowRevBits(g.rotation);
    } else {
      if !RowColSwap(g.rotation) {
        a := xaddress;
      }
      rev := ColRevBits(g.rotation);
    }
    var data := Line16Payload(arch, rev, d0, d1);
    var op := mode;
    if RowColSwap(g.rotation) {
      op := (if mode - LED_ROW_16 == 0 then 1 else 0) + LED_ROW_16;
    }
    ret := MonomeWrite(port, Msg(op, a % 16, data));
  }

  /** `led_row`; the offset along the row is ignored. */
  method LedRow(g: Geometry, arch: Arch, port: Port, x_off: uint, y: uint, count: nat, data: seq<byte>)
    returns (ret: int)
    requires |data| >= 1 && (count > 1 ==> |data| >= 2)
    modifies port`answers, port`clock, port`log, port`sent, port`lost
    ensures Wrote(old(port.answers), old(port.lost), port.answers, port.lost, 1, if GetCols(g) <= 8 then 2 else 3)
    ensures ret == if port.lost == old(port.lost) then 0 else -1
    ensures ret == 0 ==> port.sent == old(port.sent) + Bytes(LineMsg(g, arch.bigEndian, true, y, count, data))
  {
    if GetCols(g) <= 8 {
      ret := LedColRow8(g, port, LED_ROW_8, y, data[0]);
    } else if count <= 1 {
      var (d0, d1) := Widened(arch.bigEndian, data[0]);
      ret := LedColRow16(g, arch, port, LED_ROW_16, y, d0, d1);
    } else {
      ret := LedColRow16(g, arch, port, LED_ROW_16, y, data[0], data[1]);
    }
  }

  method LedCol(g: Geometry, arch: Arch, port: Port, x: uint, y_off: uint, count: nat, data: seq<byte>)
    returns (ret: int)
    requires |data| >= 1 && (count > 1 ==> |data| >= 2)
    modifies port`answers, port`clock, port`log, port`sent, port`lost
    ensures Wrote(old(port.answers), old(port.lost), port.answers, port.lost, 1, if GetRows(g) <= 8 then 2 else 3)
    ensures ret == if port.lost == old(port.lost) then 0 else -1
    ensures ret == 0 ==> port.sent == old(port.sent) + Bytes(LineMsg(g, arch.bigEndian, false, x, count, data))
  {
    if GetRows(g) <= 8 {
      ret := LedColRow8(g, port, LED_COL_8, x, data[0]);
    } else if count <= 1 {
      var (d0, d1) := Widened(arch.bigEndian, data[0]);
      ret := LedColRow16(g, arch, port, LED_COL_16, x, d0, d1);
    } else {
      ret := LedColRow16(g, arch, port, LED_COL_16, x, data[0], data[1]);
    }
  }

  method LedMap(g: Geometry, arch: Arch, port: Port, x_off: uint, y_off: uint, data: seq<byte>) returns (ret: int)
    requires |data| == 8
    modifies port`answers, port`clock, port`log, port`sent, port`lost
    ensures Wrote(old(port.answers), old(port.lost), port.answers, port.lost, 1, 9)
    ensures ret == if port.lost == old(port.lost) then 0 else -1
    ensures ret == 0 ==> port.sent == old(port.sent) + Bytes(MapMsg(g, x_off, y_off, data))
  {
    hide TurnMap;
    var buf := new byte[9];
    CopyInto(buf, 1, data);
    assert buf[1..9] == data;
    RotateMap(g.rotation, arch, buf, 1);
    assert buf[1..9] == TurnMap(g.rotation, data);
    var (px, py) := OutputCb(g, x_off, y_off);
    var quadrant := px / 8 + py / 8 * 2;
    assert buf[1..] == buf[1..9];
    ret := MonomeWrite(port, Msg(LED_FRAME, quadrant % 4, buf[1..]));
  }

  // ---- levels -------------------------------------------------------------

  /** What `led_level_map` ends up sending: the levels are turned, reduced, and turned again. */
  function LevelMapMsg(g: Geometry, x: uint, y: uint, levels: seq<byte>): Msg
    requires |levels| == 64
  {
    MapMsg(g, x, y, Masks(Turn(g.rotation, levels)))
  }

  method LedLevelMap(g: Geometry, arch: Arch, port: Port, x_off: uint, y_off: uint, data: seq<byte>)
    returns (ret: int)
    requires |data| == 64
    modifies port`answers, port`clock, port`log, port`sent, port`lost
    ensures Wrote(old(port.answers), old(port.lost), port.answers, port.lost, 1, 9)
    ensures ret == if port.lost == old(port.lost) then 0 else -1
    ensures ret == 0 ==> port.sent == old(port.sent) + Bytes(LevelMapMsg(g, x_off, y_off, data))
  {
    var masks := TurnedMasks(g.rotation, data);
    ret := LedMap(g, arch, port, x_off, y_off, masks);
  }

  /** The masks of the whole groups of eight levels of a line. */
  function LineMasks(levels: seq<byte>): (masks: seq<byte>)
    ensures |masks| == |levels| / 8
  {
    seq(|levels| / 8, k requires 0 <= k < |levels| / 8 => ByteOf(Lit(levels[8 * k..8 * k + 8])))
  }

  /** The reduction loop of `led_level_row` and `led_level_col`, whose buffer holds 16 masks. */
  method ReduceLine(data: seq<byte>) returns (masks: seq<byte>)
    requires |data| / 8 <= 16
    ensures masks == LineMasks(data)
  {
    hide Lit, ByteOf;
    var chunks := |data| / 8;
    masks := [];
    for i := 0 to chunks
      invariant masks == LineMasks(data)[..i]
    {
      var mask := ReduceLevelsToBitmask(data[i * 8..i * 8 + 8]);
      masks := masks + [mask];
    }
  }

  method LedLevelRow(g: Geometry, arch: Arch, port: Port, x_off: uint, row: uint, data: seq<byte>) returns (ret: int)
    requires 1 <= |data| / 8 <= 16
    modifies port`answers, port`clock, port`log, port`sent, port`lost
    ensures Wrote(old(port.answers), old(port.lost), port.answers, port.lost, 1, if GetCols(g) <= 8 then 2 else 3)
    ensures ret == if port.lost == old(port.lost) then 0 else -1
    ensures ret == 0 ==>
      port.sent == old(port.sent) + Bytes(LineMsg(g, arch.bigEndian, true, row, |data| / 8, LineMasks(data)))
  {
    var masks := ReduceLine(data);
    ret := LedRow(g, arch, port, x_off, row, |data| / 8, masks);
  }

  method LedLevelCol(g: Geometry, arch: Arch, port: Port, col: uint, y_off: uint, data: seq<byte>) returns (ret: int)
    requires 1 <= |data| / 8 <= 16
    modifies port`answers, port`clock, port`log, port`sent, port`lost
    ensures Wrote(old(port.answers), old(port.lost), port.answers, port.lost, 1, if GetRows(g) <= 8 then 2 else 3)
    ensures ret == if port.lost == old(port.lost) then 0 else -1
    ensures ret == 0 ==>
      port.sent == old(port.sent) + Bytes(LineMsg(g, arch.bigEndian, false, col, |data| / 8, LineMasks(data)))
  {
    var masks := ReduceLine(data);
    ret := LedCol(g, arch, port, col, y_off, |data| / 8, masks);
  }

  // ---- single LEDs --------------------------------------------------------

  lemma InRange(g: Geometry, x: uint, y: uint)
    requires Panel(g) && InLogical(g, x, y)
    ensures var (px, py) := OutputCb(g, x, y);
      px < g.cols && py < g.rows && DotAt(g, x, y, true) == Dot(px, py, true) && DotAt(g, x, y, false) == Dot(px, py, false)
  {
    InputAfterOutput(g, x, y);
  }

  lemma SetInterpreted(g: Geometry, x: uint, y: uint, on: bool)
    requires Panel(g) && InLogical(g, x, y)
    ensures Exact(PayloadLength, SetMsg(g, x, y, on))
    ensures Interpret(SetMsg(g, x, y, on)) == Some(DotAt(g, x, y, on))
  {
    hide OutputCb, Or, DotAt;
    var (px, py) := OutputCb(g, x, y);
    InRange(g, x, y);
    OrNibble(px, py);
    SmallMod(px * 16 + py, 256);
  }

  // ---- maps ---------------------------------------------------------------

  /** One `led_set` for each LED of the tile that (x, y) lies in. */
  function MapSets(g: Geometry, x: uint, y: uint, tile: seq<bool>): (ms: seq<Msg>)
    requires |tile| == 64
    ensures |ms| == 64
  {
    seq(64, i requires 0 <= i < 64 => SetMsg(g, Wrap(Floor8(x) + i % 8), Wrap(Floor8(y) + i / 8), tile[i]))
  }

  lemma TileInRange(n: int, x: uint, c: nat)
    requires n in {8, 16} && x < n && c < 8
    ensures Wrap(Floor8(x) + c) < n
  {
  }

  lemma MapSetsPaint(g: Geometry, x: uint, y: uint, tile: seq<bool>)
    requires Panel(g) && InLogical(g, x, y) && |tile| == 64
    ensures Painted(BytesOf(MapSets(g, x, y, tile))) == TileDots(g, x, y, tile)
  {
    hide Interpret, Exact, SetMsg, DotAt, Painted, BytesOf, Wrap, Floor8;
    var ms, ds := MapSets(g, x, y, tile), TileDots(g, x, y, tile);
    forall i | 0 <= i < 64
      ensures Exact(PayloadLength, ms[i]) && Interpret(ms[i]) == Some(ds[i])
    {
      TileInRange(GetCols(g), x, i % 8);
      TileInRange(GetRows(g), y, i / 8);
      SetInterpreted(g, Wrap(Floor8(x) + i % 8), Wrap(Floor8(y) + i / 8), tile[i]);
    }
    PaintedAll(ms, ds);
  }

  lemma PaintedAll(ms: seq<Msg>, cs: seq<Paint<bool>>)
    requires |ms| == |cs|
    requires forall i :: 0 <= i < |ms| ==> Exact(PayloadLength, ms[i]) && Interpret(ms[i]) == Some(cs[i])
    ensures Painted(BytesOf(ms)) == cs
  {
    hide Interpret, Exact;
    DevicePaintsAll(PayloadLength, Interpret, ms, cs);
  }

  lemma PaintedOne(m: Msg, c: Paint<bool>)
    requires Exact(PayloadLength, m) && Interpret(m) == Some(c)
    ensures Painted(Bytes(m)) == [c]
  {
    hide Interpret, Exact, Painted;
    PaintedAll([m], [c]);
    BytesOfSnoc([], m);
    assert [] + [m] == [m] && BytesOf([]) + Bytes(m) == Bytes(m);
  }

  lemma Quadrant(px: nat, py: nat)
    requires px < 16 && py < 16
    ensures var q := (px / 8 + py / 8 * 2) % 4;
      8 * (q % 2) == Floor8(Low8(px)) && 8 * (q / 2 % 2) == Floor8(Low8(py))
  {
    hide Floor8, Low8;
    Half(px);
    Half(py);
  }

  lemma Half(n: nat)
    requires n < 16
    ensures n / 8 <= 1 && 8 * (n / 8) == Floor8(Low8(n))
  {
  }

  lemma MapInterpreted(g: Geometry, x: uint, y: uint, data: seq<byte>)
    requires Panel(g) && InLogical(g, x, y) && |data| == 8
    ensures Exact(PayloadLength, MapMsg(g, x, y, data))
    ensures Interpret(MapMsg(g, x, y, data)) == Some(TilePaint(g, x, y, TileOf(data)))
  {
    hide TileOf, MapOf, Turn, OutputCb, Floor8, Low8;
    var (px, py) := OutputCb(g, x, y);
    InRange(g, x, y);
    Quadrant(px, py);
    TileOfMapOf(Turn(g.rotation, TileOf(data)));
  }

  /** A tile painted at once or LED by LED. */
  lemma TileShown(g: Geometry, x: uint, y: uint, tile: seq<bool>, frame: Frame<bool>)
    requires Panel(g) && |tile| == 64
    ensures Show(frame, [TilePaint(g, x, y, tile)]) == Show(frame, TileDots(g, x, y, tile))
  {
    hide TilePaint, TileDots, After;
    var c, ds := TilePaint(g, x, y, tile), TileDots(g, x, y, tile);
    forall p | p in frame
      ensures AfterAll([c], p, frame[p]) == AfterAll(ds, p, frame[p])
    {
      TileDrawn(g, x, y, tile, p, frame[p]);
    }
    SameFrame(frame, [c], ds);
  }

  /**
   * The nine bytes of `led_map` show the picture of 64 `led_set` calls over the logical tile that
   * holds the offset, for every rotation, panel size and offset on the panel.
   */
  lemma MapPaintsTheSame(g: Geometry, x: uint, y: uint, data: seq<byte>, frame: Frame<bool>)
    requires Panel(g) && InLogical(g, x, y) && |data| == 8
    ensures Show(frame, Painted(Bytes(MapMsg(g, x, y, data)))) ==
            Show(frame, Painted(BytesOf(MapSets(g, x, y, TileOf(data)))))
  {
    hide Painted, Bytes, BytesOf, Show, MapMsg, MapSets, Interpret, Exact, TilePaint, TileDots, TileOf;
    MapInterpreted(g, x, y, data);
    PaintedOne(MapMsg(g, x, y, data), TilePaint(g, x, y, TileOf(data)));
    MapSetsPaint(g, x, y, TileOf(data));
    TileShown(g, x, y, TileOf(data), frame);
  }

  // ---- lines --------------------------------------------------------------

  /** The line of the device that shows vs on logical row (or column) a. */
  function LinePicture(g: Geometry, row: bool, a: uint, vs: seq<bool>): Paint<bool> {
    var shown := if Reverses(g, row) then Reversed(vs) else vs;
    if Across(g, row) then HLine(0, LineAddress(g, row, a) % 16, shown) else VLine(LineAddress(g, row, a) % 16, 0, shown)
  }

  /** The bits a message shows, were it not for reversal: eight for a short line, sixteen for a long one. */
  function ShownBits(g: Geometry, big: bool, row: bool, count: nat, data: seq<byte>): (vs: seq<bool>)
    requires |data| >= 1 && (count > 1 ==> |data| >= 2)
  {
    if LineLength(g, row) <= 8 then BitsOf(data[0])
    else if count <= 1 then BitsOf(data[0]) + BitsOf(0)
    else if big then BitsOf(data[1]) + BitsOf(data[0])
    else BitsOf(data[0]) + BitsOf(data[1])
  }

  lemma ReversedPair(d0: byte, d1: byte)
    ensures BitsOf(ReverseByte(d1)) + BitsOf(ReverseByte(d0)) == Reversed(BitsOf(d0) + BitsOf(d1))
  {
    hide BitsOf, ReverseByte;
    ReverseByteBits(d0);
    ReverseByteBits(d1);
    BitsOfLength(d0);
    BitsOfLength(d1);
  }

  lemma Line16Interpreted(g: Geometry, big: bool, row: bool, a: uint, d0: byte, d1: byte)
    ensures Exact(PayloadLength, Line16Msg(g, big, row, a, d0, d1))
    ensures Interpret(Line16Msg(g, big, row, a, d0, d1)) ==
      Some(LinePicture(g, row, a, if big then BitsOf(d1) + BitsOf(d0) else BitsOf(d0) + BitsOf(d1)))
  {
    hide BitsOf, ReverseByte, LineAddress, Across, Reverses;
    ReversedPair(d0, d1);
    ReversedPair(d1, d0);
  }

  lemma Line8Interpreted(g: Geometry, row: bool, a: uint, d: byte)
    ensures Exact(PayloadLength, Line8Msg(g, row, a, d))
    ensures Interpret(Line8Msg(g, row, a, d)) == Some(LinePicture(g, row, a, BitsOf(d)))
  {
    hide BitsOf, ReverseByte, LineAddress, Across, Reverses;
    ReverseByteBits(d);
  }

  lemma LineInterpreted(g: Geometry, big: bool, row: bool, a: uint, count: nat, data: seq<byte>)
    requires |data| >= 1 && (count > 1 ==> |data| >= 2)
    ensures Exact(PayloadLength, LineMsg(g, big, row, a, count, data))
    ensures Interpret(LineMsg(g, big, row, a, count, data)) ==
      Some(LinePicture(g, row, a, ShownBits(g, big, row, count, data)))
  {
    hide Interpret, Exact, LinePicture, Line8Msg, Line16Msg, BitsOf, LineLength;
    Line8Interpreted(g, row, a, data[0]);
    var (d0, d1) := Widened(big, data[0]);
    Line16Interpreted(g, big, row, a, d0, d1);
    if count > 1 {
      Line16Interpreted(g, big, row, a, data[0], data[1]);
    }
  }

  predicate OnLine(g: Geometry, row: bool, a: uint) { if row then a < GetRows(g) else a < GetCols(g) }

  /** The dots of a whole logical row (or column). */
  function LineDots(g: Geometry, row: bool, a: uint, vs: seq<bool>): (ds: seq<Paint<bool>>)
    requires |vs| <= 16
    ensures |ds| == |vs|
  {
    seq(|vs|, i requires 0 <= i < |vs| => if row then DotAt(g, i, a, vs[i]) else DotAt(g, a, i, vs[i]))
  }

  lemma LineDotAt(g: Geometry, row: bool, a: uint, i: nat, v: bool, vs: seq<bool>)
    requires Panel(g) && OnLine(g, row, a) && |vs| == LineLength(g, row) && i < |vs|
    ensures (if row then DotAt(g, i, a, v) else DotAt(g, a, i, v)) ==
      DotOnLine(LinePicture(g, row, a, vs), |vs|, Reverses(g, row), i, v)
  {
    hide Reversed, OutputCb, DotAt, LineAddress, Along;
    var x, y := if row then i else a, if row then a else i;
    InRange(g, x, y);
    LineAcross(g, row, a, i);
    LineAlong(g, row, a, i);
    var (px, py) := OutputCb(g, x, y);
    SmallMod(if Across(g, row) then py else px, 16);
  }

  /** Rotating (a, a) gives the address of the physical line. */
  lemma LineAcross(g: Geometry, row: bool, a: uint, i: uint)
    requires Panel(g) && OnLine(g, row, a) && i < LineLength(g, row)
    ensures var (px, py) := OutputCb(g, if row then i else a, if row then a else i);
      LineAddress(g, row, a) == if Across(g, row) then py else px
  {
    hide Wrap;
  }

  /** LED i of the logical line is LED i of the physical one, from one end or the other. */
  lemma LineAlong(g: Geometry, row: bool, a: uint, i: uint)
    requires Panel(g) && OnLine(g, row, a) && i < LineLength(g, row)
    ensures var (px, py) := OutputCb(g, if row then i else a, if row then a else i);
      Along(LineLength(g, row), Reverses(g, row), i) == if Across(g, row) then px else py
  {
    hide Wrap;
    Reflect(LineLength(g, row), i);
  }

  /** A whole line painted at once or LED by LED. */
  lemma LineShown(g: Geometry, row: bool, a: uint, vs: seq<bool>, frame: Frame<bool>)
    requires Panel(g) && OnLine(g, row, a) && |vs| == LineLength(g, row)
    ensures Show(frame, [LinePicture(g, row, a, vs)]) == Show(frame, LineDots(g, row, a, vs))
  {
    hide DotAt, After, DotOnLine, LineAddress, Reversed;
    var n, c, ds := |vs|, LinePicture(g, row, a, vs), LineDots(g, row, a, vs);
    forall i | 0 <= i < n
      ensures ds[i] == DotOnLine(c, n, Reverses(g, row), i, vs[i])
    {
      LineDotAt(g, row, a, i, vs[i], vs);
    }
    forall p | p in frame
      ensures AfterAll([c], p, frame[p]) == AfterAll(ds, p, frame[p])
    {
      LineDrawn(c, ds, n, Reverses(g, row), vs, p, frame[p]);
    }
    SameFrame(frame, [c], ds);
  }

  /** Bit i of the data, zero beyond the data given; at most two bytes are used. */
  function ExtendedBits(n: nat, count: nat, data: seq<byte>): (vs: seq<bool>)
    requires |data| >= 1 && (count > 1 ==> |data| >= 2)
    ensures |vs| == n
  {
    seq(n, i requires 0 <= i < n =>
      if i < 8 then Bit(data[0], i) else if i < 16 && count > 1 then Bit(data[1], i - 8) else false)
  }

  /** One `led_set` for each LED of a logical row (or column). */
  function LineSets(g: Geometry, row: bool, a: uint, vs: seq<bool>): (ms: seq<Msg>)
    requires |vs| <= 16
    ensures |ms| == |vs|
  {
    seq(|vs|, i requires 0 <= i < |vs| => if row then SetMsg(g, i, a, vs[i]) else SetMsg(g, a, i, vs[i]))
  }

  lemma LineSetsPaint(g: Geometry, row: bool, a: uint, vs: seq<bool>)
    requires Panel(g) && OnLine(g, row, a) && |vs| == LineLength(g, row)
    ensures Painted(BytesOf(LineSets(g, row, a, vs))) == LineDots(g, row, a, vs)
  {
    hide Interpret, Exact, SetMsg, DotAt, Painted, BytesOf;
    var ms, ds := LineSets(g, row, a, vs), LineDots(g, row, a, vs);
    forall i | 0 <= i < |vs|
      ensures Exact(PayloadLength, ms[i]) && Interpret(ms[i]) == Some(ds[i])
    {
      SetInterpreted(g, if row then i else a, if row then a else i, vs[i]);
    }
    PaintedAll(ms, ds);
  }

  /** Whether the build keeps the two data bytes of a long line in order. */
  predicate InOrder(g: Geometry, big: bool, row: bool, count: nat, data: seq<byte>)
    requires count > 1 ==> |data| >= 2
  {
    big && LineLength(g, row) > 8 && count > 1 ==> data[0] == data[1]
  }

  lemma ZeroBits()
    ensures forall i :: 0 <= i < 8 ==> !Bit(0, i)
  {
    var v := SomeBv(0);
  }

  lemma ShownInOrder(g: Geometry, big: bool, row: bool, count: nat, data: seq<byte>)
    requires Panel(g) && |data| >= 1 && (count > 1 ==> |data| >= 2)
    requires InOrder(g, big, row, count, data)
    ensures ShownBits(g, big, row, count, data) == ExtendedBits(LineLength(g, row), count, data)
  {
    hide Bit;
    ZeroBits();
  }

  /**
   * A row or column command chooses the form that fits the physical line and paints LED i of the
   * logical line with bit i of the zero-extended data, unless the build exchanges the bytes.
   */
  lemma LinePaintsTheSame(g: Geometry, big: bool, row: bool, a: uint, count: nat, data: seq<byte>, frame: Frame<bool>)
    requires Panel(g) && OnLine(g, row, a) && |data| >= 1 && (count > 1 ==> |data| >= 2)
    requires InOrder(g, big, row, count, data)
    ensures Show(frame, Painted(Bytes(LineMsg(g, big, row, a, count, data)))) ==
            Show(frame, Painted(BytesOf(LineSets(g, row, a, ExtendedBits(LineLength(g, row), count, data)))))
  {
    hide Painted, Bytes, BytesOf, Show, LineMsg, LineSets, LineDots, LinePicture, Interpret, Exact, ExtendedBits, ShownBits;
    var vs := ExtendedBits(LineLength(g, row), count, data);
    ShownInOrder(g, big, row, count, data);
    LineInterpreted(g, big, row, a, count, data);
    PaintedOne(LineMsg(g, big, row, a, count, data), LinePicture(g, row, a, vs));
    LineSetsPaint(g, row, a, vs);
    LineShown(g, row, a, vs, frame);
  }

  /** A frame with every LED of the panel in it. */
  predicate Full(g: Geometry, frame: Frame<bool>)
    requires g.cols >= 0 && g.rows >= 0
  {
    forall x: nat, y: nat :: x < g.cols && y < g.rows ==> Point(x, y) in frame
  }

  /** Different values along a line look different. */
  lemma LinesDiffer(g: Geometry, row: bool, a: uint, vs: seq<bool>, ws: seq<bool>, i: nat, frame: Frame<bool>)
    requires Panel(g) && OnLine(g, row, a) && |vs| == |ws| == LineLength(g, row) && Full(g, frame)
    requires i < |vs| && vs[i] != ws[i]
    ensures Show(frame, [LinePicture(g, row, a, vs)]) != Show(frame, [LinePicture(g, row, a, ws)])
  {
    hide LineAddress, OutputCb, After, Show, LinePicture, Along, DotAt;
    var (px, py) := OutputCb(g, if row then i else a, if row then a else i);
    InRange(g, if row then i else a, if row then a else i);
    LineAcross(g, row, a, i);
    LineAlong(g, row, a, i);
    SmallMod(if Across(g, row) then py else px, 16);
    var p := Point(px, py);
    LinePoint(g, row, a, vs, i, p, frame[p]);
    LinePoint(g, row, a, ws, i, p, frame[p]);
    ShowOne(frame, LinePicture(g, row, a, vs), p);
    ShowOne(frame, LinePicture(g, row, a, ws), p);
  }

  lemma LinePoint(g: Geometry, row: bool, a: uint, vs: seq<bool>, i: nat, p: Point, v: bool)
    requires i < |vs|
    requires var at := Along(|vs|, Reverses(g, row), i);
      p == if Across(g, row) then Point(at, LineAddress(g, row, a) % 16) else Point(LineAddress(g, row, a) % 16, at)
    ensures After(LinePicture(g, row, a, vs), p, v) == vs[i]
  {
    hide LineAddress, Across, Reverses;
  }

  lemma BytesDiffer(d0: byte, d1: byte) returns (i: nat)
    requires d0 != d1
    ensures i < 8 && Bit(d0, i) != Bit(d1, i)
  {
    ByteOfBitsOf(d0);
    ByteOfBitsOf(d1);
    i :| 0 <= i < 8 && BitsOf(d0)[i] != BitsOf(d1)[i];
  }

  /**
   * The row and column commands are right exactly when the build keeps the data bytes in order.
   * A big-endian build that is given two different bytes for a line of sixteen draws them exchanged.
   */
  lemma LineIsRightIff(g: Geometry, big: bool, row: bool, a: uint, count: nat, data: seq<byte>, frame: Frame<bool>)
    requires Panel(g) && OnLine(g, row, a) && |data| >= 1 && (count > 1 ==> |data| >= 2) && Full(g, frame)
    ensures
      Show(frame, Painted(Bytes(LineMsg(g, big, row, a, count, data)))) ==
      Show(frame, Painted(BytesOf(LineSets(g, row, a, ExtendedBits(LineLength(g, row), count, data)))))
      <==> InOrder(g, big, row, count, data)
  {
    hide Painted, Bytes, BytesOf, Show, LineMsg, LineSets, LineDots, LinePicture, Interpret, Exact, Bit, Full;
    if InOrder(g, big, row, count, data) {
      LinePaintsTheSame(g, big, row, a, count, data, frame);
    } else {
      var vs := ExtendedBits(LineLength(g, row), count, data);
      var ws := ShownBits(g, big, row, count, data);
      LineInterpreted(g, big, row, a, count, data);
      PaintedOne(LineMsg(g, big, row, a, count, data), LinePicture(g, row, a, ws));
      LineSetsPaint(g, row, a, vs);
      LineShown(g, row, a, vs, frame);
      var i := BytesDiffer(data[0], data[1]);
      assert vs[i] == Bit(data[0], i) && ws[i] == Bit(data[1], i);
      LinesDiffer(g, row, a, vs, ws, i, frame);
    }
  }

  // ---- level maps and lines -----------------------------------------------

  /** The level map shows the reduced picture turned twice. */
  lemma LevelMapTurnsTwice(g: Geometry, x: uint, y: uint, levels: seq<byte>)
    requires Panel(g) && InLogical(g, x, y) && |levels| == 64
    ensures var (px, py) := OutputCb(g, x, y);
      Painted(Bytes(LevelMapMsg(g, x, y, levels))) ==
      [Tile(Floor8(Low8(px)), Floor8(Low8(py)), Turn(Compose(g.rotation, g.rotation), Lit(levels)))]
  {
    hide Painted, Bytes, Interpret, Exact, MapMsg, Masks, Lit, TileOf, Turn, OutputCb, Floor8, Low8;
    var masks := Masks(Turn(g.rotation, levels));
    MapInterpreted(g, x, y, masks);
    MasksTile(Turn(g.rotation, levels));
    LitTurn(g.rotation, levels);
    TurnTurn(g.rotation, g.rotation, Lit(levels));
    PaintedOne(MapMsg(g, x, y, masks), TilePaint(g, x, y, TileOf(masks)));
  }

  /** Different tiles look different. */
  lemma TilesDiffer(g: Geometry, x: uint, y: uint, t: seq<bool>, u: seq<bool>, frame: Frame<bool>)
    requires Panel(g) && InLogical(g, x, y) && |t| == |u| == 64 && Full(g, frame)
    ensures var (px, py) := OutputCb(g, x, y);
      var (tx, ty) := (Floor8(Low8(px)), Floor8(Low8(py)));
      Show(frame, [Tile(tx, ty, t)]) == Show(frame, [Tile(tx, ty, u)]) <==> t == u
  {
    var (px, py) := OutputCb(g, x, y);
    InRange(g, x, y);
    TileOnPanel(g.cols, px);
    TileOnPanel(g.rows, py);
    var tx, ty := Floor8(Low8(px)), Floor8(Low8(py));
    if t != u {
      var i :| 0 <= i < 64 && t[i] != u[i];
      var p := Point(tx + i % 8, ty + i / 8);
      TilePoint(tx, ty, t, i, frame);
      TilePoint(tx, ty, u, i, frame);
    }
  }

  lemma TileOnPanel(n: int, x: uint)
    requires n in {8, 16} && x < n
    ensures Floor8(Low8(x)) + 8 <= n
  {
  }

  lemma TilePoint(tx: nat, ty: nat, t: seq<bool>, i: nat, frame: Frame<bool>)
    requires |t| == 64 && i < 64 && Point(tx + i % 8, ty + i / 8) in frame
    ensures Show(frame, [Tile(tx, ty, t)])[Point(tx + i % 8, ty + i / 8)] == t[i]
  {
    ShowOne(frame, Tile(tx, ty, t), Point(tx + i % 8, ty + i / 8));
  }

  ghost predicate LevelMapRight(g: Geometry, x: uint, y: uint, levels: seq<byte>, frame: Frame<bool>)
    requires |levels| == 64
  {
    Show(frame, Painted(Bytes(LevelMapMsg(g, x, y, levels)))) ==
    Show(frame, Painted(BytesOf(MapSets(g, x, y, Lit(levels)))))
  }

  /**
   * The comment in `led_level_map` expects one rotation. There are two, so the level map agrees
   * with one `led_level_set` per LED, whatever the levels, exactly when nothing is rotated.
   */
  lemma LevelMapIsRightIff(g: Geometry, x: uint, y: uint, frame: Frame<bool>)
    requires Panel(g) && InLogical(g, x, y) && Full(g, frame)
    ensures (forall levels :: |levels| == 64 ==> LevelMapRight(g, x, y, levels, frame)) <==> g.rotation == R0
  {
    hide Painted, Bytes, BytesOf, Show, Turn, Lit, Full, OutputCb, TileDots, MapSets, LevelMapMsg;
    var (px, py) := OutputCb(g, x, y);
    var (tx, ty) := (Floor8(Low8(px)), Floor8(Low8(py)));
    forall levels | |levels| == 64
      ensures LevelMapRight(g, x, y, levels, frame) <==>
              Turn(Compose(g.rotation, g.rotation), Lit(levels)) == Turn(g.rotation, Lit(levels))
    {
      LevelMapTurnsTwice(g, x, y, levels);
      MapSetsPaint(g, x, y, Lit(levels));
      TileShown(g, x, y, Lit(levels), frame);
      TilesDiffer(g, x, y, Turn(Compose(g.rotation, g.rotation), Lit(levels)), Turn(g.rotation, Lit(levels)), frame);
    }
    TurnsDiffer(Compose(g.rotation, g.rotation), g.rotation);
    assert |MarkedLevels()| == 64;
  }

  /** Level lines show, LED by LED, whether the level is in the brighter half. */
  lemma LevelLineBits(levels: seq<byte>)
    requires |levels| % 8 == 0
    ensures LineBits(LineMasks(levels)) == Lit(levels)
  {
    hide Bit, ByteOf;
    var masks := LineMasks(levels);
    forall i | 0 <= i < |levels|
      ensures LineBits(masks)[i] == Lit(levels)[i]
    {
      var k, c := i / 8, i % 8;
      var chunk := levels[8 * k..8 * k + 8];
      BitsOfByteOf(Lit(chunk));
      assert Bit(masks[k], c) == BitsOf(masks[k])[c] == Lit(chunk)[c];
      assert chunk[c] == levels[i];
    }
  }

  /** What each LED of a line of n should show: bright or not, and off beyond the whole groups of levels. */
  function ExtendedLevels(n: nat, levels: seq<byte>): (vs: seq<bool>)
    ensures |vs| == n
  {
    seq(n, i requires 0 <= i < n => i < |levels| / 8 * 8 && levels[i] > 7)
  }

  lemma LevelLineExtends(n: nat, levels: seq<byte>)
    requires n <= 16 && 1 <= |levels| / 8
    ensures ExtendedBits(n, |levels| / 8, LineMasks(levels)) == ExtendedLevels(n, levels)
  {
    hide Bit, ByteOf;
    var whole := levels[..|levels| / 8 * 8];
    var masks := LineMasks(levels);
    assert masks == LineMasks(whole) by {
      assert forall k :: 0 <= k < |masks| ==> whole[8 * k..8 * k + 8] == levels[8 * k..8 * k + 8];
    }
    LevelLineBits(whole);
    forall i | 0 <= i < n
      ensures ExtendedBits(n, |levels| / 8, masks)[i] == ExtendedLevels(n, levels)[i]
    {
      if i < |whole| {
        assert LineBits(masks)[i] == Bit(masks[i / 8], i % 8) == (levels[i] > 7);
      }
    }
  }

  /** A level row or column lights the LEDs that one `led_level_set` per LED would light. */
  lemma LevelLinePaintsTheSame(g: Geometry, big: bool, row: bool, a: uint, levels: seq<byte>, frame: Frame<bool>)
    requires Panel(g) && OnLine(g, row, a) && 1 <= |levels| / 8 <= 16
    requires InOrder(g, big, row, |levels| / 8, LineMasks(levels))
    ensures Show(frame, Painted(Bytes(LineMsg(g, big, row, a, |levels| / 8, LineMasks(levels))))) ==
            Show(frame, Painted(BytesOf(LineSets(g, row, a, ExtendedLevels(LineLength(g, row), levels)))))
  {
    hide Painted, Bytes, BytesOf, Show, LineMsg, LineSets, ExtendedBits, ExtendedLevels, InOrder;
    LevelLineExtends(LineLength(g, row), levels);
    LinePaintsTheSame(g, big, row, a, |levels| / 8, LineMasks(levels), frame);
  }

  /** Whether the build keeps the two masks of a long line in order. */
  predicate LevelsInOrder(g: Geometry, big: bool, row: bool, levels: seq<byte>) {
    big && LineLength(g, row) > 8 && |levels| / 8 > 1 ==> Lit(levels[..8]) == Lit(levels[8..16])
  }

  lemma LevelsOrder(g: Geometry, big: bool, row: bool, levels: seq<byte>)
    requires 1 <= |levels| / 8
    ensures InOrder(g, big, row, |levels| / 8, LineMasks(levels)) <==> LevelsInOrder(g, big, row, levels)
  {
    hide ByteOf, Lit;
    if |levels| / 8 > 1 {
      BitsOfByteOf(Lit(levels[..8]));
      BitsOfByteOf(Lit(levels[8..16]));
    }
  }

  /** A level row or column agrees with one `led_level_set` per LED exactly when the build keeps its masks in order. */
  lemma LevelLineIsRightIff(g: Geometry, big: bool, row: bool, a: uint, levels: seq<byte>, frame: Frame<bool>)
    requires Panel(g) && OnLine(g, row, a) && 1 <= |levels| / 8 <= 16 && Full(g, frame)
    ensures
      Show(frame, Painted(Bytes(LineMsg(g, big, row, a, |levels| / 8, LineMasks(levels))))) ==
      Show(frame, Painted(BytesOf(LineSets(g, row, a, ExtendedLevels(LineLength(g, row), levels)))))
      <==> LevelsInOrder(g, big, row, levels)
  {
    hide Painted, Bytes, BytesOf, Show, LineMsg, LineSets, ExtendedBits, ExtendedLevels, InOrder, LevelsInOrder, Full;
    LevelLineExtends(LineLength(g, row), levels);
    LineIsRightIff(g, big, row, a, |levels| / 8, LineMasks(levels), frame);
    LevelsOrder(g, big, row, levels);
  }

  // ---- input --------------------------------------------------------------

  const BUTTON_DOWN := 0x00
  const BUTTON_UP := 0x10
  const TILT := 0xD0

  /** The event a two-byte button message stands for. */
  function ButtonEvent(g: Geometry, b0: byte, b1: byte): Option<Event> {
    var (x, y) := InputCb(g, b1 / 16, b1 % 16);
    if b0 == BUTTON_DOWN then Some(ButtonDown(x, y))
    else if b0 == BUTTON_UP then Some(ButtonUp(x, y))
    else None
  }

  /** The first bytes of messages that there are events for. */
  predicate EventByte(b0: byte) { b0 in {BUTTON_DOWN, BUTTON_UP, TILT, TILT + 1} }

  class Input {
    const port: Port
    var tiltX: int
    var tiltY: int

    constructor (port: Port)
      ensures this.port == port && tiltX == 0 && tiltY == 0
    {
      this.port, tiltX, tiltY := port, 0, 0;
    }

    /**
     * `next_event`. The test for a short read compares a signed count with an unsigned size, which
     * a failed read passes; the bytes looked at are then zeros, or whatever part had arrived.
     */
    method NextEvent(g: Geometry) returns (ret: int, e: Option<Event>, ghost read: int, ghost taken: nat)
      modifies this`tiltX, this`tiltY, port`answers, port`clock, port`log, port`input
      ensures taken <= 2 && taken <= |old(port.input)| && port.input == old(port.input)[taken..]
      ensures Got(read, taken, port.answers) == ReadTwo(old(port.answers), old(port.input))
      ensures ret == Returned(EventByte, old(port.answers), old(port.input))
      ensures 0 <= read < 2 ==> ret == read && e == None
      ensures 0 <= read < 2 ==> tiltX == old(tiltX) && tiltY == old(tiltY)
      ensures !(0 <= read < 2) ==>
        var b0, b1 := Arrived(old(port.input), taken, 0), Arrived(old(port.input), taken, 1);
        && tiltX == (if b0 == TILT then b1 else old(tiltX)) && tiltY == (if b0 == TILT + 1 then b1 else old(tiltY))
        && e == (if b0 == TILT || b0 == TILT + 1 then Some(Event.Tilt(0, tiltX, tiltY, 0)) else ButtonEvent(g, b0, b1))
        && ret == (if e.Some? then 1 else 0)
      ensures read == -1 && taken == 0 ==> ret == 1 && e == ButtonEvent(g, BUTTON_DOWN, 0)
    {
      hide Reading, Arriving;
      var buf := new byte[2](_ => 0);
      var n;
      n, taken := port.Read(buf, 0, 2);
      read := n;
      if 0 <= n < 2 {
        return n, None, read, taken;
      }
      var b0, b1 := buf[0], buf[1];
      assert b0 == buf[..][0] && b1 == buf[..][1];
      if b0 == BUTTON_DOWN || b0 == BUTTON_UP {
        var (x, y) := InputCb(g, b1 / 16, b1 % 16);
        ret, e := 1, Some(if b0 == BUTTON_DOWN then ButtonDown(x, y) else ButtonUp(x, y));
      } else if b0 == TILT || b0 == TILT + 1 {
        if b0 == TILT {
          tiltX := b1;
        } else {
          tiltY := b1;
        }
        ret, e := 1, Some(Tilt(0, tiltX, tiltY, 0));
      } else {
        ret, e := 0, None;
      }
    }
  }

  /**
   * A result of 1 means that a whole message with an event was taken, exactly unless the read stopped
   * halfway, or failed at once, or failed halfway through what looks like a message with an event.
   */
  lemma EventTakenIff(script: seq<Answer>, stream: seq<byte>)
    ensures (Returned(EventByte, script, stream) == 1 <==> TookEvent(EventByte, script, stream)) <==>
      && !StopsHalfway(script, stream) && !FailsAtOnce(script)
      && !(FailsHalfway(script, stream) && stream[0] in {0x00, 0x10, 0xD0, 0xD1})
  {
    hide StopsHalfway, FailsAtOnce, FailsHalfway, Returned, TookEvent;
    FailsOnce(script, stream);
    ReturnedIsRightIff(EventByte, script, stream);
  }

  /** A schedule on which a failed read is reported as a press, and one on which half a message has no event but result 1. */
  lemma FalsePress(g: Geometry, stream: seq<byte>)
    requires stream != []
    ensures var script := [Answer(Broken, 0, 0)];
      && ReadTwo(script, stream) == Got(-1, 0, []) && Returned(EventByte, script, stream) == 1
      && ButtonEvent(g, BUTTON_DOWN, 0) == Some(ButtonDown(InputCb(g, 0, 0).0, InputCb(g, 0, 0).1))
    ensures var script := [Answer(Fine, 1, 0)];
      ReadTwo(script, stream) == Got(1, 1, []) && Returned(EventByte, script, stream) == 1
  {
    hide InputCb, ReadTwo, Returned;
    FailedRead(EventByte, stream);
    HalfMessage(EventByte, stream);
  }

  /**
   * Both kinds of button message carry the column in the high nybble and the row in the low one, and
   * lighting the coordinates that are reported lights the LED under the button.
   */
  lemma PressAddressesLed(g: Geometry, px: uint, py: uint)
    requires Panel(g) && InPhysical(g, px, py)
    ensures var down, up := ButtonEvent(g, 0x00, px * 16 + py), ButtonEvent(g, 0x10, px * 16 + py);
      && down.Some? && down.value.ButtonDown? && up.Some? && up.value.ButtonUp?
      && up.value.x == down.value.x && up.value.y == down.value.y
      && InLogical(g, down.value.x, down.value.y)
      && Interpret(SetMsg(g, down.value.x, down.value.y, true)) == Some(Dot(px, py, true))
  {
    hide OutputCb, InputCb, SetMsg, Interpret, DotAt;
    OutputAfterInput(g, px, py);
    var (x, y) := InputCb(g, px, py);
    assert (px * 16 + py) / 16 == px && (px * 16 + py) % 16 == py;
    SetInterpreted(g, x, y, true);
    InRange(g, x, y);
  }

  /** The bytes of the messages for LEDs and lines, unrotated. */
  lemma OnTheWire(rows: int, cols: int, x: uint, y: uint, d: byte, e: byte)
    requires Panel(Geometry(rows, cols, R0)) && x < 16 && y < 16
    ensures var g := Geometry(rows, cols, R0);
      && Bytes(SetMsg(g, x, y, true)) == [0x20, x * 16 + y]
      && Bytes(SetMsg(g, x, y, false)) == [0x30, x * 16 + y]
      && Bytes(Line8Msg(g, true, y, d)) == [0x40 + y, d]
      && Bytes(Line8Msg(g, false, x, d)) == [0x50 + x, d]
      && Bytes(Line16Msg(g, false, true, y, d, e)) == [0x60 + y, d, e]
      && Bytes(Line16Msg(g, false, false, x, d, e)) == [0x70 + x, d, e]
  {
    hide Or;
    OrNibble(x, y);
  }

  /** The bytes of a map at the quadrant (i, j), unrotated. */
  lemma MapOnTheWire(rows: int, cols: int, i: uint, j: uint, data: seq<byte>)
    requires Panel(Geometry(rows, cols, R0)) && i < 2 && j < 2 && |data| == 8
    ensures Bytes(MapMsg(Geometry(rows, cols, R0), 8 * i, 8 * j, data)) == [0x80 + i + 2 * j] + data
  {
    hide TurnMap, Or;
    TurnMapTwice(R0, R0, data);
    assert MapMsg(Geometry(rows, cols, R0), 8 * i, 8 * j, data) == Msg(LED_FRAME, i + 2 * j, data);
  }
}
