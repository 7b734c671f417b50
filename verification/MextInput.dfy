/** Reading mext messages: framing from the port, dispatch to handlers, and the events they produce. */
module MextInput {
  import opened Bits
  import opened Rotation
  import opened Framing
  import opened Devices
  import opened MextWire
  import opened Events
  import opened Platform

  /** The responses that the handshake waits for. */
  datatype Response = NeedQuery | NeedId | NeedGridSize

  /** The part of the device handle that incoming messages change. */
  datatype State = State(g: Geometry, need: set<Response>, id: seq<byte>, friendly: seq<byte>)

  // ---- what each message does ---------------------------------------------

  /** The characters of a C string: those before the first NUL. */
  function CString(s: seq<byte>): (r: seq<byte>)
    ensures r <= s && 0 !in r && (|r| < |s| ==> s[|r|] == 0)
  {
    if s == [] || s[0] == 0 then [] else [s[0]] + CString(s[1..])
  }

  function Signed8(b: byte): int { if b < 128 then b else b - 256 }

  function Signed16(lo: byte, hi: byte): int { 256 * Signed8(hi) + lo }

  /** The payload part of a message buffer. */
  const PAYLOAD_SIZE := 66

  type Payload = p: seq<byte> | |p| == PAYLOAD_SIZE witness seq(PAYLOAD_SIZE, _ => 0)

  function Blank(): Payload { seq(PAYLOAD_SIZE, _ => 0) }

  function OnSystem(st: State, cmd: nat, p: Payload): State {
    if cmd == CMD_SYSTEM_QUERY_RESPONSE then st.(need := st.need - {NeedQuery})
    else if cmd == CMD_SYSTEM_ID then
      st.(id := CString(p[..32]), friendly := CString(p[..32]), need := st.need - {NeedId})
    else if cmd == CMD_SYSTEM_GRIDSZ then
      st.(g := st.g.(cols := p[0], rows := p[1]), need := st.need - {NeedGridSize})
    else st
  }

  function OnKey(st: State, cmd: nat, p: Payload): Event {
    var (x, y) := InputCb(st.g, p[0], p[1]);
    if cmd == CMD_KEY_DOWN then ButtonDown(x, y) else ButtonUp(x, y)
  }

  function OnEncoder(cmd: nat, p: Payload): Option<Event> {
    if cmd == CMD_ENCODER_DELTA then Some(EncoderDelta(p[0], Signed8(p[1])))
    else if cmd == CMD_ENCODER_SWITCH_DOWN then Some(EncoderKeyDown(p[0]))
    else if cmd == CMD_ENCODER_SWITCH_UP then Some(EncoderKeyUp(p[0]))
    else None
  }

  function OnTilt(cmd: nat, p: Payload): Option<Event> {
    if cmd == CMD_TILT then
      Some(Tilt(p[0], Signed16(p[1], p[2]), Signed16(p[3], p[4]), Signed16(p[5], p[6])))
    else None
  }

  /** The handler table: what a message does to the state, and the event it passes on, if any. */
  function Dispatch(st: State, addr: nat, cmd: nat, p: Payload): (State, Option<Event>) {
    if addr == SS_SYSTEM then (OnSystem(st, cmd, p), None)
    else if addr == SS_KEY_GRID then (st, Some(OnKey(st, cmd, p)))
    else if addr == SS_ENCODER then (st, OnEncoder(cmd, p))
    else if addr == SS_TILT then (st, OnTilt(cmd, p))
    else (st, None)
  }

  // ---- one call of next_event, as a function of the bytes it takes ---------

  datatype Outcome = Outcome(st: State, event: Option<Event>, rest: seq<byte>)

  predicate WholeMessage(s: seq<byte>) {
    s != [] && 1 + IncomingLength(s[0] / 16, s[0] % 16) <= |s|
  }

  /** A stream of whole messages, with nothing left over. */
  predicate Whole(s: seq<byte>) { Cut(IncomingLength, s).rest == [] }

  lemma WholeGoesOn(s: seq<byte>)
    requires Whole(s)
    ensures s != [] ==> WholeMessage(s) && Whole(s[1 + IncomingLength(s[0] / 16, s[0] % 16)..])
  {
    hide IncomingLength;
  }

  /**
   * Takes whole messages off s until one yields an event. The payload buffer keeps what earlier
   * messages of the same call left in it.
   */
  function Pump(st: State, p: Payload, s: seq<byte>): Outcome
    decreases |s|
  {
    if !WholeMessage(s) then Outcome(st, None, s)
    else
      var addr, cmd := s[0] / 16, s[0] % 16;
      var n := IncomingLength(addr, cmd);
      var p' := Splice(p, 0, s[1..1 + n]);
      var (st', e) := Dispatch(st, addr, cmd, p');
      if e.Some? then Outcome(st', e, s[1 + n..]) else Pump(st', p', s[1 + n..])
  }

  // ---- the same, as a function of the port's schedule ----------------------

  /** The result of reading a message, the bytes taken off the stream, and the schedule left. */
  datatype GotMsg = GotMsg(ret: int, taken: nat, script: seq<Answer>)

  /** A header, then the payload that goes with it. */
  function ReadingMsg(script: seq<Answer>, stream: seq<byte>): (g: GotMsg)
    ensures g.taken <= |stream| && g.ret <= g.taken && g.ret >= -1
    ensures |g.script| <= |script| && (script != [] ==> |g.script| < |script|)
    ensures g.ret > 0 ==> WholeMessage(stream) && g.ret == g.taken == 1 + IncomingLength(stream[0] / 16, stream[0] % 16)
    ensures g.ret <= 0 ==> !WholeMessage(stream[..g.taken]) && (g.taken == 0 || g.ret == -1)
  {
    ArrivingBounds(script, |stream|, 1, 0);
    var h := Arriving(script, |stream|, 1, 0);
    if h.ret <= 0 then GotMsg(h.ret, h.taken, h.script)
    else
      var n := IncomingLength(stream[0] / 16, stream[0] % 16);
      if n == 0 then GotMsg(1, 1, h.script)
      else
        ArrivingBounds(h.script, |stream| - 1, n, 0);
        var b := Arriving(h.script, |stream| - 1, n, 0);
        GotMsg(if b.ret == n then 1 + n else -1, 1 + b.taken, b.script)
  }

  /**
   * What one call returns, the state and the event, the bytes it takes, how many of these are those of
   * a message it tears, and the schedule it leaves.
   */
  datatype Called = Called(ret: int, st: State, event: Option<Event>, taken: nat, torn: nat, script: seq<Answer>)

  function Calling(st: State, p: Payload, script: seq<Answer>, stream: seq<byte>): (c: Called)
    ensures c.taken <= |stream| && |c.script| <= |script| && (script != [] ==> |c.script| < |script|)
    ensures c.ret in {-1, 0, 1} && (c.ret == 1 <==> c.event.Some?) && (c.ret == 1 ==> c.taken > 0)
    ensures c.torn <= c.taken && (c.ret >= 0 ==> c.torn == 0)
    decreases |stream|
  {
    var g := ReadingMsg(script, stream);
    if g.ret <= 0 then Called(g.ret, st, None, g.taken, g.taken, g.script)
    else
      var p' := Splice(p, 0, stream[1..g.taken]);
      var (st', e) := Dispatch(st, stream[0] / 16, stream[0] % 16, p');
      if e.Some? then Called(1, st', e, g.taken, 0, g.script)
      else Later(g.taken, Calling(st', p', g.script, stream[g.taken..]))
  }

  function Later(n: nat, c: Called): Called { c.(taken := n + c.taken) }

  // ---- the C functions ----------------------------------------------------

  class Mext {
    const port: Port
    var rows: int
    var cols: int
    var rotation: Rotation
    var need: set<Response>
    var id: seq<byte>
    var friendly: seq<byte>

    /** `monome_protocol_new`: an unopened device that needs every response. */
    constructor (port: Port)
      ensures this.port == port
      ensures St() == State(Geometry(0, 0, R0), {NeedQuery, NeedId, NeedGridSize}, [], [])
    {
      this.port := port;
      rows, cols, rotation := 0, 0, R0;
      need := {NeedQuery, NeedId, NeedGridSize};
      id, friendly := [], [];
    }

    function St(): State
      reads this
    {
      State(Geometry(rows, cols, rotation), need, id, friendly)
    }

    method HandlerSystem(cmd: nat, p: seq<byte>)
      requires |p| == PAYLOAD_SIZE
      modifies this`rows, this`cols, this`need, this`id, this`friendly
      ensures St() == OnSystem(old(St()), cmd, p)
    {
      if cmd == CMD_SYSTEM_QUERY_RESPONSE {
        need := need - {NeedQuery};
      } else if cmd == CMD_SYSTEM_ID {
        id := CString(p[..32]);
        friendly := id;
        need := need - {NeedId};
      } else if cmd == CMD_SYSTEM_GRIDSZ {
        cols := p[0];
        rows := p[1];
        need := need - {NeedGridSize};
      }
    }

    method HandlerKeyGrid(cmd: nat, p: seq<byte>) returns (e: Option<Event>)
      requires |p| == PAYLOAD_SIZE
      ensures e == Some(OnKey(St(), cmd, p))
    {
      var (x, y) := InputCb(Geometry(rows, cols, rotation), p[0], p[1]);
      e := Some(if cmd == CMD_KEY_DOWN then ButtonDown(x, y) else ButtonUp(x, y));
    }

    /** Calls the subsystem's handler. */
    method Handle(addr: nat, cmd: nat, p: seq<byte>) returns (e: Option<Event>)
      requires |p| == PAYLOAD_SIZE
      modifies this`rows, this`cols, this`need, this`id, this`friendly
      ensures (St(), e) == Dispatch(old(St()), addr, cmd, p)
    {
      e := None;
      if addr == SS_SYSTEM {
        HandlerSystem(cmd, p);
      } else if addr == SS_KEY_GRID {
        e := HandlerKeyGrid(cmd, p);
      } else if addr == SS_ENCODER {
        e := OnEncoder(cmd, p);
      } else if addr == SS_TILT {
        e := OnTilt(cmd, p);
      }
    }

    /**
     * `mext_read_msg`. A positive result means a whole message was taken off the stream. Otherwise
     * nothing was, or (with result -1) a header and part of its payload were.
     */
    method ReadMsg(payload: array<byte>) returns (ret: int, addr: nat, cmd: nat, ghost taken: nat)
      requires payload.Length == PAYLOAD_SIZE
      modifies port`answers, port`clock, port`log, port`input, payload
      ensures taken <= |old(port.input)| && port.input == old(port.input)[taken..]
      ensures GotMsg(ret, taken, port.answers) == ReadingMsg(old(port.answers), old(port.input))
      ensures ret > 0 ==>
        var s := old(port.input);
        addr == s[0] / 16 && cmd == s[0] % 16 && payload[..] == Splice(old(payload[..]), 0, s[1..taken])
      ensures OnlyReads(old(port.log), port.log) && |old(port.log)| < |port.log|
      ensures if ret >= 0 then !LastBroken(port.log) else taken == 0 ==> LastBroken(port.log)
      ensures port.clock >= old(port.clock)
      ensures ret > 0 || taken == 0 ==> port.clock + Delay(port.answers) == old(port.clock) + Delay(old(port.answers))
    {
      hide Splice, OnlyReads, Delay, Arriving, IncomingLength, LastBroken;
      addr, cmd := 0, 0;
      var header := new byte[1];
      ghost var s, blank := port.input, header[..];
      ret, taken := port.Read(header, 0, 1);
      if ret <= 0 {
        return;
      }
      SpliceReads(blank, 0, s[..1]);
      assert header[0] == header[..][0] == s[0];
      addr, cmd := header[0] / 16, header[0] % 16;
      var n := IncomingLength(addr, cmd);
      if n == 0 {
        SpliceNothing(payload[..], 0);
        assert s[1..1] == [];
        return 1, addr, cmd, 1;
      }
      ghost var more, mid := 0, port.log;
      var r;
      r, more := port.Read(payload, 0, n);
      MoreReads(old(port.log), mid, port.log);
      TakenAfterHeader(s, more);
      taken := 1 + more;
      if r != n {
        ret := -1;
        return;
      }
      ret := 1 + n;
    }

    /** One turn of the loop of `mext_next_event`: reads a message and handles it. */
    method HandleNext(payload: array<byte>) returns (ret: int, e: Option<Event>, ghost taken: nat)
      requires payload.Length == PAYLOAD_SIZE
      modifies this`rows, this`cols, this`need, this`id, this`friendly
      modifies port`answers, port`clock, port`log, port`input, payload
      ensures taken <= |old(port.input)| && port.input == old(port.input)[taken..]
      ensures GotMsg(ret, taken, port.answers) == ReadingMsg(old(port.answers), old(port.input))
      ensures ret <= 0 ==> St() == old(St()) && e == None
      ensures ret > 0 ==>
        var s := old(port.input);
        && payload[..] == Splice(old(payload[..]), 0, s[1..taken])
        && (St(), e) == Dispatch(old(St()), s[0] / 16, s[0] % 16, payload[..])
      ensures OnlyReads(old(port.log), port.log) && |old(port.log)| < |port.log|
      ensures if ret >= 0 then !LastBroken(port.log) else taken == 0 ==> LastBroken(port.log)
      ensures port.clock >= old(port.clock)
      ensures ret > 0 || taken == 0 ==> port.clock + Delay(port.answers) == old(port.clock) + Delay(old(port.answers))
    {
      hide Splice, Dispatch, OnlyReads, LastBroken, Delay;
      var addr, cmd;
      ret, addr, cmd, taken := ReadMsg(payload);
      e := None;
      if ret > 0 {
        e := Handle(addr, cmd, payload[..]);
      }
    }

    /** `mext_next_event`. */
    method NextEvent() returns (ret: int, e: Option<Event>, ghost taken: nat, ghost torn: nat)
      modifies this`rows, this`cols, this`need, this`id, this`friendly
      modifies port`answers, port`clock, port`log, port`input
      ensures taken <= |old(port.input)| && port.input == old(port.input)[taken..]
      ensures Called(ret, St(), e, taken, torn, port.answers) == Calling(old(St()), Blank(), old(port.answers), old(port.input))
      ensures var o := Pump(old(St()), Blank(), old(port.input)[..taken]);
        St() == o.st && e == o.event && |o.rest| == torn && (torn > 0 ==> ret < 0)
      ensures OnlyReads(old(port.log), port.log) && |old(port.log)| < |port.log|
      ensures if ret >= 0 then !LastBroken(port.log) else torn == 0 ==> LastBroken(port.log)
      ensures port.clock >= old(port.clock)
      ensures ret >= 0 ==> port.clock + Delay(port.answers) == old(port.clock) + Delay(old(port.answers))
    {
      hide Splice, Dispatch, Pump, OnlyReads, LastBroken, Delay, Calling, ReadingMsg, Blank, Later;
      var payload := new byte[PAYLOAD_SIZE](_ => 0);
      assert payload[..] == Blank();
      taken := 0;
      ghost var st0, s, script := St(), port.input, port.answers;
      NoReads(port.log);
      LaterNothing(st0, Blank(), script, s);
      while true
        invariant taken <= |s| && port.input == s[taken..]
        invariant Calling(st0, Blank(), script, s) == Later(taken, Calling(St(), payload[..], port.answers, port.input))
        invariant OnlyReads(old(port.log), port.log) && |old(port.log)| <= |port.log|
        invariant port.clock >= old(port.clock)
        invariant port.clock + Delay(port.answers) == old(port.clock) + Delay(old(port.answers))
        decreases |port.input|
      {
        ghost var st, p, answers, log0 := St(), payload[..], port.answers, port.log;
        ghost var more;
        ret, e, more := HandleNext(payload);
        MoreReads(old(port.log), log0, port.log);
        CallingStep(st, p, answers, s[taken..], taken);
        TakenSoFar(s, taken, more);
        taken := taken + more;
        if ret <= 0 || e.Some? {
          CallingPumps(st0, Blank(), script, s);
          torn := if ret > 0 then 0 else more;
          ret := if ret > 0 then 1 else ret;
          return;
        }
      }
    }
  }

  lemma TakenAfterHeader(s: seq<byte>, more: nat)
    requires 1 + more <= |s|
    ensures s[1..][..more] == s[1..1 + more] && s[1..][more..] == s[1 + more..]
  {
  }

  lemma TakenSoFar(s: seq<byte>, taken: nat, more: nat)
    requires taken + more <= |s|
    ensures s[..taken + more] == s[..taken] + s[taken..][..more] && s[taken..][more..] == s[taken + more..]
  {
  }

  lemma LaterNothing(st: State, p: Payload, script: seq<Answer>, stream: seq<byte>)
    ensures var c := Calling(st, p, script, stream);
      Later(0, c) == c
  {
    hide Calling;
  }

  /** One turn of the loop, when n bytes were taken before it. */
  lemma CallingStep(st: State, p: Payload, script: seq<Answer>, stream: seq<byte>, n: nat)
    ensures var g := ReadingMsg(script, stream);
      Later(n, Calling(st, p, script, stream)) ==
      if g.ret <= 0 then Called(g.ret, st, None, n + g.taken, g.taken, g.script)
      else
        var p' := Splice(p, 0, stream[1..g.taken]);
        var (st', e) := Dispatch(st, stream[0] / 16, stream[0] % 16, p');
        if e.Some? then Called(1, st', e, n + g.taken, 0, g.script)
        else Later(n + g.taken, Calling(st', p', g.script, stream[g.taken..]))
  {
    hide ReadingMsg, Splice, Dispatch;
  }

  /** Whatever the schedule, a call does to the state what the bytes it takes say, on a message boundary unless it fails. */
  lemma {:induction false} CallingPumps(st: State, p: Payload, script: seq<Answer>, stream: seq<byte>)
    ensures var c := Calling(st, p, script, stream);
      var o := Pump(st, p, stream[..c.taken]);
      c.st == o.st && c.event == o.event && |o.rest| == c.torn
    decreases |stream|
  {
    hide Splice, Dispatch, Pump, ReadingMsg, WholeMessage, IncomingLength;
    var c, g := Calling(st, p, script, stream), ReadingMsg(script, stream);
    if g.ret <= 0 {
      PumpStops(st, p, stream[..g.taken]);
    } else {
      var m, t := stream[..g.taken], stream[g.taken..];
      MessageAlone(stream, g.taken);
      var p' := Splice(p, 0, stream[1..g.taken]);
      var (st', e) := Dispatch(st, stream[0] / 16, stream[0] % 16, p');
      if e.Some? {
        PumpStep(st, p, m, []);
        assert m + [] == m;
      } else {
        CallingPumps(st', p', g.script, t);
        var d := Calling(st', p', g.script, t);
        TakenSoFar(stream, g.taken, d.taken);
        PumpStep(st, p, m, t[..d.taken]);
      }
    }
  }

  lemma MessageAlone(stream: seq<byte>, n: nat)
    requires WholeMessage(stream) && n == 1 + IncomingLength(stream[0] / 16, stream[0] % 16)
    ensures WholeMessage(stream[..n]) && stream[..n][0] == stream[0] && stream[..n][1..] == stream[1..n]
  {
  }

  lemma PumpStops(st: State, p: Payload, s: seq<byte>)
    requires !WholeMessage(s)
    ensures Pump(st, p, s) == Outcome(st, None, s)
  {
  }

  /** Pumping a stream that starts with one whole message handles that message first. */
  lemma PumpStep(st: State, p: Payload, m: seq<byte>, t: seq<byte>)
    requires WholeMessage(m) && |m| == 1 + IncomingLength(m[0] / 16, m[0] % 16)
    ensures var p' := Splice(p, 0, m[1..]);
      var (st', e) := Dispatch(st, m[0] / 16, m[0] % 16, p');
      Pump(st, p, m + t) == if e.Some? then Outcome(st', e, t) else Pump(st', p', t)
  {
    hide Splice, Dispatch;
    var s := m + t;
    assert s[0] == m[0] && s[1..|m|] == m[1..] && s[|m|..] == t;
  }

  // ---- key-grid messages that are neither up nor down ---------------------

  /** The event of some key-grid message with this command depends on what the buffer held before it. */
  ghost predicate UsesOldBuffer(cmd: nat) {
    exists st: State, p: Payload, q: Payload, payload: seq<byte> :: DiffersOn(cmd, st, p, q, payload)
  }

  ghost predicate DiffersOn(cmd: nat, st: State, p: Payload, q: Payload, payload: seq<byte>) {
    && |payload| == IncomingLength(SS_KEY_GRID, cmd)
    && Dispatch(st, SS_KEY_GRID, cmd, Splice(p, 0, payload)).1 != Dispatch(st, SS_KEY_GRID, cmd, Splice(q, 0, payload)).1
  }

  /** That is so exactly for the commands that are neither up nor down. */
  lemma KeyUsesOldBufferIff(cmd: nat)
    ensures UsesOldBuffer(cmd) <==> cmd != CMD_KEY_UP && cmd != CMD_KEY_DOWN
  {
    if cmd == CMD_KEY_UP || cmd == CMD_KEY_DOWN {
      forall st: State, p: Payload, q: Payload, payload: seq<byte>
        ensures !DiffersOn(cmd, st, p, q, payload)
      {
        if |payload| == 2 {
          SameKey(st, cmd, p, q, payload);
        }
      }
    } else {
      var st, p, q := State(Geometry(8, 8, R0), {}, [], []), Blank(), Blank()[0 := 1];
      SpliceNothing(p, 0);
      SpliceNothing(q, 0);
      assert OnKey(st, cmd, p) == ButtonUp(0, 0) && OnKey(st, cmd, q) == ButtonUp(1, 0);
      assert DiffersOn(cmd, st, p, q, []);
    }
  }

  lemma SameKey(st: State, cmd: nat, p: Payload, q: Payload, payload: seq<byte>)
    requires |payload| == 2
    ensures OnKey(st, cmd, Splice(p, 0, payload)) == OnKey(st, cmd, Splice(q, 0, payload))
  {
    hide InputCb;
    SpliceReads(p, 0, payload);
    SpliceReads(q, 0, payload);
    assert Splice(p, 0, payload)[..2] == Splice(q, 0, payload)[..2];
    assert Splice(p, 0, payload)[0] == Splice(p, 0, payload)[..2][0] && Splice(p, 0, payload)[1] == Splice(p, 0, payload)[..2][1];
    assert Splice(q, 0, payload)[0] == Splice(q, 0, payload)[..2][0] && Splice(q, 0, payload)[1] == Splice(q, 0, payload)[..2][1];
  }

  /** After a size message in the same call, such a message is reported as a release at the size. */
  lemma StaleKey()
    ensures var st := State(Geometry(0, 0, R0), {}, [], []);
      Pump(st, Blank(), [0x03, 16, 8, 0x2F]).event == Some(ButtonUp(16, 8))
  {
    var st := State(Geometry(0, 0, R0), {}, [], []);
    var size, key: seq<byte> := [0x03, 16, 8], [0x2F];
    assert size + key == [0x03, 16, 8, 0x2F] && size[1..] == [16, 8] && key[1..] == [];
    var p := Splice(Blank(), 0, [16, 8]);
    SpliceReads(Blank(), 0, [16, 8]);
    assert p[0] == p[0..2][0] && p[1] == p[0..2][1];
    PumpStep(st, Blank(), size, key);
    SpliceNothing(p, 0);
    PumpStep(st.(g := Geometry(8, 16, R0), need := {}), p, key, []);
    assert key + [] == key;
  }
}
