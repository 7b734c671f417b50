/** Framing of the mext protocol: one header byte, then as many payload bytes as a table says. */
module MextWire {
  import opened Bits
  import opened Framing
  import opened Platform

  // Subsystems.
  const SS_SYSTEM := 0
  const SS_LED_GRID := 1
  const SS_KEY_GRID := 2
  const SS_ENCODER := 5
  const SS_TILT := 8
  const SS_LED_RING := 9

  // System commands, outgoing.
  const CMD_SYSTEM_QUERY := 0x0
  const CMD_SYSTEM_GET_ID := 0x1
  const CMD_SYSTEM_GET_GRIDSZ := 0x5

  // System commands, incoming.
  const CMD_SYSTEM_QUERY_RESPONSE := 0x0
  const CMD_SYSTEM_ID := 0x1
  const CMD_SYSTEM_GRID_OFFSET := 0x2
  const CMD_SYSTEM_GRIDSZ := 0x3
  const CMD_SYSTEM_ADDR := 0x4
  const CMD_SYSTEM_VERSION := 0xF

  // LED grid commands.
  const CMD_LED_OFF := 0x0
  const CMD_LED_ON := 0x1
  const CMD_LED_ALL_OFF := 0x2
  const CMD_LED_ALL_ON := 0x3
  const CMD_LED_MAP := 0x4
  const CMD_LED_ROW := 0x5
  const CMD_LED_COLUMN := 0x6
  const CMD_LED_LEVEL_SET := 0x8
  const CMD_LED_LEVEL_ALL := 0x9
  const CMD_LED_LEVEL_MAP := 0xA
  const CMD_LED_LEVEL_ROW := 0xB
  const CMD_LED_LEVEL_COLUMN := 0xC

  // Key, encoder and tilt commands, incoming.
  const CMD_KEY_UP := 0x0
  const CMD_KEY_DOWN := 0x1
  const CMD_ENCODER_DELTA := 0x0
  const CMD_ENCODER_SWITCH_UP := 0x1
  const CMD_ENCODER_SWITCH_DOWN := 0x2
  const CMD_TILT_STATES := 0x0
  const CMD_TILT := 0x1

  /** Payload bytes of a message to the device. */
  function OutgoingLength(addr: nat, cmd: nat): (n: nat)
    ensures n <= 64
  {
    if addr == SS_SYSTEM then
      (if cmd == 2 then 32 else if cmd == 4 then 3 else if cmd == 6 || cmd == 8 then 2 else 0)
    else if addr == SS_LED_GRID then
      (match cmd
       case 0 => 2 case 1 => 2 case 4 => 10 case 5 => 3 case 6 => 3 case 7 => 1 case 8 => 3
       case 9 => 1 case 10 => 34 case 11 => 6 case 12 => 6 case _ => 0)
    else if addr == SS_LED_RING then
      (match cmd case 0 => 3 case 1 => 2 case 2 => 33 case 3 => 4 case 4 => 2 case _ => 0)
    else if addr == SS_TILT then
      (if cmd == 1 || cmd == 2 then 1 else 0)
    else 0
  }

  /** Payload bytes of a message from the device. */
  function IncomingLength(addr: nat, cmd: nat): (n: nat)
    ensures n <= 64
  {
    if addr == SS_SYSTEM then
      (match cmd case 0 => 2 case 1 => 32 case 2 => 3 case 3 => 2 case 4 => 2 case 15 => 8 case _ => 0)
    else if addr == SS_KEY_GRID then
      (if cmd == 0 || cmd == 1 then 2 else 0)
    else if addr == SS_ENCODER then
      (match cmd case 0 => 2 case 1 => 1 case 2 => 1 case _ => 0)
    else if addr == SS_TILT then
      (match cmd case 0 => 1 case 1 => 7 case _ => 0)
    else 0
  }

  /** What `mext_write_msg` puts on the wire; the payload buffer may be longer than what is sent. */
  function Wire(m: Msg): seq<byte>
    requires OutgoingLength(m.addr, m.cmd) <= |m.payload|
  {
    [Header(m)] + m.payload[..OutgoingLength(m.addr, m.cmd)]
  }

  method WriteMsg(port: Port, m: Msg) returns (ret: int)
    requires Nibbles(m) && OutgoingLength(m.addr, m.cmd) <= |m.payload|
    modifies port`answers, port`clock, port`log, port`sent, port`lost
    ensures -1 <= ret <= |Wire(m)|
    ensures port.sent == old(port.sent) + Wire(m)[..Moved(ret)]
    ensures port.lost == old(port.lost) + |Wire(m)| - Moved(ret)
    ensures port.clock >= old(port.clock) && |port.answers| <= |old(port.answers)|
    ensures Wrote(old(port.answers), old(port.lost), port.answers, port.lost, 1, |Wire(m)|)
    ensures port.log == old(port.log) + [Writes(old(port.clock), Wire(m))]
    ensures port.clock + Delay(port.answers) == old(port.clock) + Delay(old(port.answers))
    ensures old(port.answers) == [] ==> ret == |Wire(m)| && port.answers == []
    ensures old(port.answers) != [] ==>
      var a := old(port.answers)[0];
      port.answers == old(port.answers)[1..] && ret == if a.outcome == Fine then Min(a.count, |Wire(m)|) else -1
  {
    ret := port.Write(Wire(m));
  }

  // ---- any sequence of writes ---------------------------------------------

  predicate Sendable(m: Msg) { Nibbles(m) && OutgoingLength(m.addr, m.cmd) <= |m.payload| }

  /** The message as it arrives: the payload cut to the length the table gives. */
  function Trimmed(m: Msg): Msg
    requires Sendable(m)
  {
    m.(payload := m.payload[..OutgoingLength(m.addr, m.cmd)])
  }

  function WireOf(ms: seq<Msg>): seq<byte>
    requires forall i :: 0 <= i < |ms| ==> Sendable(ms[i])
  {
    if ms == [] then [] else
      assert Sendable(ms[0]);
      Wire(ms[0]) + WireOf(ms[1..])
  }

  function TrimmedAll(ms: seq<Msg>): (ts: seq<Msg>)
    requires forall i :: 0 <= i < |ms| ==> Sendable(ms[i])
    ensures |ts| == |ms|
  {
    seq(|ms|, i requires 0 <= i < |ms| => Trimmed(ms[i]))
  }

  lemma WireOne(m: Msg)
    requires Sendable(m)
    ensures Wire(m) == Bytes(Trimmed(m))
  {
    hide OutgoingLength;
  }

  lemma {:induction false} WireIsBytes(ms: seq<Msg>)
    requires forall i :: 0 <= i < |ms| ==> Sendable(ms[i])
    ensures WireOf(ms) == BytesOf(TrimmedAll(ms))
  {
    hide OutgoingLength, Wire, Trimmed, Bytes;
    if ms != [] {
      WireIsBytes(ms[1..]);
      WireOne(ms[0]);
      assert TrimmedAll(ms)[1..] == TrimmedAll(ms[1..]);
    }
  }

  /**
   * The outputs of any sequence of writes, run together, are split back into the same list of
   * subsystems, commands and payloads, with nothing left over.
   */
  lemma WritesAreSplit(ms: seq<Msg>)
    requires forall i :: 0 <= i < |ms| ==> Sendable(ms[i])
    ensures Cut(OutgoingLength, WireOf(ms)) == Pieces(TrimmedAll(ms), [])
  {
    WireIsBytes(ms);
    CutBytesOf(OutgoingLength, TrimmedAll(ms), []);
    assert BytesOf(TrimmedAll(ms)) + [] == WireOf(ms);
  }

  /** Hence no two different lists of messages share a byte stream. */
  lemma WritesAreUnique(ms: seq<Msg>, ns: seq<Msg>)
    requires forall i :: 0 <= i < |ms| ==> Sendable(ms[i])
    requires forall i :: 0 <= i < |ns| ==> Sendable(ns[i])
    ensures WireOf(ms) == WireOf(ns) <==> TrimmedAll(ms) == TrimmedAll(ns)
  {
    WritesAreSplit(ms);
    WritesAreSplit(ns);
    WireIsBytes(ms);
    WireIsBytes(ns);
  }
}
