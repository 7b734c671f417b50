/**
 * What a device's stream of messages means to the application, defined on the messages themselves,
 * and the proof that repeated calls of `mext_next_event` deliver exactly that.
 */
module MextStream {
  import opened Bits
  import opened Rotation
  import opened Framing
  import opened Devices
  import opened MextWire
  import opened Events
  import opened Platform
  import opened MextInput
  import opened MextCalls

  /** The messages a device may send. */
  datatype Incoming =
    | QueryResponse(subsystem: byte, count: byte)
    | Id(name: seq<byte>)
    | GridOffset(n: byte, ox: byte, oy: byte)
    | GridSize(cols: byte, rows: byte)
    | Address(a0: byte, a1: byte)
    | Version(text: seq<byte>)
    | Key(down: bool, x: byte, y: byte)
    | Turn(encoder: byte, delta: int)
    | Switch(encoder: byte, down: bool)
    | TiltStates(states: byte)
    | Tilted(sensor: byte, tx: int, ty: int, tz: int)
    | Ignored(addr: nat, cmd: nat)

  /** Field widths; a header without a table entry may come from any subsystem but the key grid. */
  predicate WellFormed(m: Incoming) {
    match m
    case Id(name) => |name| == 32
    case Version(text) => |text| == 8
    case Turn(_, delta) => -128 <= delta < 128
    case Tilted(_, tx, ty, tz) => -0x8000 <= tx < 0x8000 && -0x8000 <= ty < 0x8000 && -0x8000 <= tz < 0x8000
    case Ignored(addr, cmd) => addr < 16 && cmd < 16 && IncomingLength(addr, cmd) == 0 && addr != SS_KEY_GRID
    case _ => true
  }

  /** What a message means: how it changes the state, and the event it stands for. */
  function Meaning(st: State, m: Incoming): (State, Option<Event>) {
    match m
    case QueryResponse(_, _) => (st.(need := st.need - {NeedQuery}), None)
    case Id(name) => (st.(id := CString(name), friendly := CString(name), need := st.need - {NeedId}), None)
    case GridSize(cols, rows) => (st.(g := Geometry(rows, cols, st.g.rotation), need := st.need - {NeedGridSize}), None)
    case Key(down, x, y) =>
      var (lx, ly) := InputCb(st.g, x, y);
      (st, Some(if down then ButtonDown(lx, ly) else ButtonUp(lx, ly)))
    case Turn(encoder, delta) => (st, Some(EncoderDelta(encoder, delta)))
    case Switch(encoder, down) => (st, Some(if down then EncoderKeyDown(encoder) else EncoderKeyUp(encoder)))
    case Tilted(sensor, tx, ty, tz) => (st, Some(Tilt(sensor, tx, ty, tz)))
    case _ => (st, None)
  }

  /** The events of a list of messages, in order, each seen with the state left by those before it. */
  function EventsOf(st: State, ms: seq<Incoming>): seq<Event>
    decreases |ms|
  {
    if ms == [] then []
    else
      var (st', e) := Meaning(st, ms[0]);
      (match e case Some(v) => [v] case None => []) + EventsOf(st', ms[1..])
  }

  function StateAfter(st: State, ms: seq<Incoming>): State
    decreases |ms|
  {
    if ms == [] then st else StateAfter(Meaning(st, ms[0]).0, ms[1..])
  }

  // ---- the bytes of a message ---------------------------------------------

  function Unsigned8(n: int): byte
    requires -128 <= n < 128
  {
    if n < 0 then n + 256 else n
  }

  /** A 16-bit field, least significant byte first. */
  function Field16(n: int): (s: seq<byte>)
    requires -0x8000 <= n < 0x8000
    ensures |s| == 2
  {
    var u := if n < 0 then n + 0x10000 else n;
    [u % 256, u / 256]
  }

  function Encode(m: Incoming): Msg
    requires WellFormed(m)
  {
    match m
    case QueryResponse(subsystem, count) => Msg(SS_SYSTEM, CMD_SYSTEM_QUERY_RESPONSE, [subsystem, count])
    case Id(name) => Msg(SS_SYSTEM, CMD_SYSTEM_ID, name)
    case GridOffset(n, ox, oy) => Msg(SS_SYSTEM, CMD_SYSTEM_GRID_OFFSET, [n, ox, oy])
    case GridSize(cols, rows) => Msg(SS_SYSTEM, CMD_SYSTEM_GRIDSZ, [cols, rows])
    case Address(a0, a1) => Msg(SS_SYSTEM, CMD_SYSTEM_ADDR, [a0, a1])
    case Version(text) => Msg(SS_SYSTEM, CMD_SYSTEM_VERSION, text)
    case Key(down, x, y) => Msg(SS_KEY_GRID, if down then CMD_KEY_DOWN else CMD_KEY_UP, [x, y])
    case Turn(encoder, delta) => Msg(SS_ENCODER, CMD_ENCODER_DELTA, [encoder, Unsigned8(delta)])
    case Switch(encoder, down) =>
      Msg(SS_ENCODER, if down then CMD_ENCODER_SWITCH_DOWN else CMD_ENCODER_SWITCH_UP, [encoder])
    case TiltStates(states) => Msg(SS_TILT, CMD_TILT_STATES, [states])
    case Tilted(sensor, tx, ty, tz) => Msg(SS_TILT, CMD_TILT, [sensor] + Field16(tx) + Field16(ty) + Field16(tz))
    case Ignored(addr, cmd) => Msg(addr, cmd, [])
  }

  predicate AllWellFormed(ms: seq<Incoming>) {
    forall i :: 0 <= i < |ms| ==> WellFormed(ms[i])
  }

  function EncodeAll(ms: seq<Incoming>): seq<byte>
    requires AllWellFormed(ms)
  {
    if ms == [] then []
    else
      assert WellFormed(ms[0]);
      Bytes(Encode(ms[0])) + EncodeAll(ms[1..])
  }

  /** The bytes of the messages. */
  lemma OnTheWire(a: byte, b: byte, c: byte, name: seq<byte>, text: seq<byte>, x: int, y: int, z: int)
    requires |name| == 32 && |text| == 8
    requires -0x8000 <= x < 0x8000 && -0x8000 <= y < 0x8000 && -0x8000 <= z < 0x8000
    ensures Bytes(Encode(QueryResponse(a, b))) == [0x00, a, b] && Bytes(Encode(Id(name))) == [0x01] + name
    ensures Bytes(Encode(GridOffset(a, b, c))) == [0x02, a, b, c] && Bytes(Encode(GridSize(a, b))) == [0x03, a, b]
    ensures Bytes(Encode(Address(a, b))) == [0x04, a, b] && Bytes(Encode(Version(text))) == [0x0F] + text
    ensures Bytes(Encode(Key(false, a, b))) == [0x20, a, b] && Bytes(Encode(Key(true, a, b))) == [0x21, a, b]
    ensures Bytes(Encode(Turn(a, 1))) == [0x50, a, 0x01] && Bytes(Encode(Turn(a, -1))) == [0x50, a, 0xFF]
    ensures Bytes(Encode(Switch(a, false))) == [0x51, a] && Bytes(Encode(Switch(a, true))) == [0x52, a]
    ensures Bytes(Encode(TiltStates(a))) == [0x80, a]
    ensures Bytes(Encode(Tilted(a, x, y, z))) == [0x81, a] + Field16(x) + Field16(y) + Field16(z)
    ensures Field16(1) == [0x01, 0x00] && Field16(256) == [0x00, 0x01] && Field16(-1) == [0xFF, 0xFF]
  {
  }

  lemma EncodeFits(m: Incoming)
    requires WellFormed(m)
    ensures Exact(IncomingLength, Encode(m))
  {
  }

  lemma Signed8Inverse(n: int)
    requires -128 <= n < 128
    ensures Signed8(Unsigned8(n)) == n
  {
  }

  lemma Signed16Inverse(n: int)
    requires -0x8000 <= n < 0x8000
    ensures Signed16(Field16(n)[0], Field16(n)[1]) == n
  {
  }

  lemma TiltFields(sensor: byte, tx: int, ty: int, tz: int, p: seq<byte>)
    requires -0x8000 <= tx < 0x8000 && -0x8000 <= ty < 0x8000 && -0x8000 <= tz < 0x8000
    requires |p| >= 7 && p[..7] == [sensor] + Field16(tx) + Field16(ty) + Field16(tz)
    ensures p[0] == sensor && Signed16(p[1], p[2]) == tx && Signed16(p[3], p[4]) == ty && Signed16(p[5], p[6]) == tz
  {
    hide Signed16;
    Signed16Inverse(tx);
    Signed16Inverse(ty);
    Signed16Inverse(tz);
    var q := p[..7];
    assert p[0] == q[0] && p[1] == q[1] && p[2] == q[2] && p[3] == q[3] && p[4] == q[4] && p[5] == q[5] && p[6] == q[6];
  }

  /** Handling the bytes of a message, whatever was in the payload buffer, does what it means. */
  lemma DispatchMeans(st: State, m: Incoming, p: Payload)
    requires WellFormed(m)
    ensures var e := Encode(m);
      Dispatch(st, e.addr, e.cmd, Splice(p, 0, e.payload)) == Meaning(st, m)
  {
    hide InputCb, Signed8, Signed16, Unsigned8, Field16, CString, Splice;
    var w := Encode(m);
    SpliceReads(p, 0, w.payload);
    assert Splice(p, 0, w.payload)[..|w.payload|] == w.payload;
    if m.Turn? {
      Signed8Inverse(m.delta);
    } else if m.Tilted? {
      TiltFields(m.sensor, m.tx, m.ty, m.tz, Splice(p, 0, w.payload));
    }
  }

  /** Pumping a stream that starts with a well-formed message. */
  lemma PumpMessage(st: State, p: Payload, m: Incoming, t: seq<byte>)
    requires WellFormed(m)
    ensures var p' := Splice(p, 0, Encode(m).payload);
      var (st', e) := Meaning(st, m);
      Pump(st, p, Bytes(Encode(m)) + t) == if e.Some? then Outcome(st', e, t) else Pump(st', p', t)
  {
    hide Pump, Splice, Dispatch, Meaning, Encode, Header;
    var w := Encode(m);
    EncodeFits(m);
    HeaderNibbles(w);
    assert Bytes(w)[1..] == w.payload;
    PumpStep(st, p, Bytes(w), t);
    DispatchMeans(st, m, p);
  }

  // ---- one call -----------------------------------------------------------

  /** What one call should do: run through messages up to and including the first that has an event. */
  function Next(st: State, ms: seq<Incoming>): (State, Option<Event>, seq<Incoming>)
    decreases |ms|
  {
    if ms == [] then (st, None, [])
    else
      var (st', e) := Meaning(st, ms[0]);
      if e.Some? then (st', e, ms[1..]) else Next(st', ms[1..])
  }

  lemma {:induction false} NextWellFormed(st: State, ms: seq<Incoming>)
    requires AllWellFormed(ms)
    ensures AllWellFormed(Next(st, ms).2)
    ensures Next(st, ms).1.Some? ==> |Next(st, ms).2| < |ms|
    ensures Next(st, ms).1.None? ==> Next(st, ms).2 == []
    decreases |ms|
  {
    if ms != [] {
      NextWellFormed(Meaning(st, ms[0]).0, ms[1..]);
    }
  }

  /** One call does it, whatever the payload buffer holds. */
  lemma {:induction false} PumpIsNext(st: State, p: Payload, ms: seq<Incoming>)
    requires AllWellFormed(ms)
    ensures AllWellFormed(Next(st, ms).2)
    ensures Pump(st, p, EncodeAll(ms)) ==
      Outcome(Next(st, ms).0, Next(st, ms).1, EncodeAll(Next(st, ms).2))
    decreases |ms|
  {
    hide Pump, Meaning, Encode, Splice;
    NextWellFormed(st, ms);
    if ms == [] {
      PumpStops(st, p, []);
    } else {
      assert WellFormed(ms[0]);
      PumpMessage(st, p, ms[0], EncodeAll(ms[1..]));
      var (st', e) := Meaning(st, ms[0]);
      if e.None? {
        EncodeFits(ms[0]);
        PumpIsNext(st', Splice(p, 0, Encode(ms[0]).payload), ms[1..]);
      }
    }
  }

  // ---- call after call ----------------------------------------------------

  datatype Polled = Polled(st: State, events: seq<Event>, rest: seq<byte>)

  /** A call that returns an event has taken something off the stream. */
  lemma {:induction false} PumpShrinks(st: State, p: Payload, s: seq<byte>)
    ensures |Pump(st, p, s).rest| <= |s|
    ensures Pump(st, p, s).event.Some? ==> |Pump(st, p, s).rest| < |s|
    decreases |s|
  {
    hide Dispatch, Splice;
    if WholeMessage(s) {
      var addr, cmd := s[0] / 16, s[0] % 16;
      var n := IncomingLength(addr, cmd);
      var p' := Splice(p, 0, s[1..1 + n]);
      PumpShrinks(Dispatch(st, addr, cmd, p').0, p', s[1 + n..]);
    }
  }

  /** Calls until one returns no event; every call starts with a blank payload buffer. */
  function Poll(st: State, s: seq<byte>): Polled
    decreases |s|
  {
    PumpShrinks(st, Blank(), s);
    var o := Pump(st, Blank(), s);
    match o.event
    case None => Polled(o.st, [], o.rest)
    case Some(e) =>
      var p := Poll(o.st, o.rest);
      p.(events := [e] + p.events)
  }

  /** Splitting the meaning of a list of messages after its first event. */
  lemma {:induction false} NextSplits(st: State, ms: seq<Incoming>)
    ensures var (st', e, rest) := Next(st, ms);
      && EventsOf(st, ms) == (match e case Some(v) => [v] + EventsOf(st', rest) case None => [])
      && StateAfter(st, ms) == StateAfter(st', rest)
    decreases |ms|
  {
    if ms != [] {
      NextSplits(Meaning(st, ms[0]).0, ms[1..]);
    }
  }

  /**
   * For every interleaving of well-formed messages, repeated calls return exactly their events in
   * order, leave the state all of them make together, and consume every byte.
   */
  lemma {:induction false} PollDeliversAll(st: State, ms: seq<Incoming>)
    requires AllWellFormed(ms)
    ensures Poll(st, EncodeAll(ms)) == Polled(StateAfter(st, ms), EventsOf(st, ms), [])
    decreases |ms|
  {
    hide Pump, Meaning, Encode;
    PumpIsNext(st, Blank(), ms);
    NextSplits(st, ms);
    NextWellFormed(st, ms);
    var (st', e, rest) := Next(st, ms);
    if e.Some? {
      PollDeliversAll(st', rest);
    }
  }

  /** Keys are reported in the grid as the last size message before them left it. */
  lemma KeysUseLatestSize(st: State, ms: seq<Incoming>, cols: byte, rows: byte, down: bool, x: byte, y: byte)
    requires 0 < cols && 0 < rows && x < cols && y < rows
    ensures var g := Geometry(rows, cols, st.g.rotation);
      var (lx, ly) := InputCb(g, x, y);
      && InLogical(g, lx, ly) && OutputCb(g, lx, ly) == (x, y)
      && EventsOf(st, [GridSize(cols, rows), Key(down, x, y)] + ms) ==
         [if down then ButtonDown(lx, ly) else ButtonUp(lx, ly)]
         + EventsOf(st.(g := g, need := st.need - {NeedGridSize}), ms)
  {
    hide InputCb, OutputCb;
    var g := Geometry(rows, cols, st.g.rotation);
    OutputAfterInput(g, x, y);
    var all := [GridSize(cols, rows), Key(down, x, y)] + ms;
    assert all[1..] == [Key(down, x, y)] + ms && all[1..][1..] == ms;
  }

  /** What a polling loop does: the events, the last result, the state, the bytes taken, and the schedule left. */
  datatype Polls = Polls(events: seq<Event>, ret: int, st: State, taken: nat, torn: nat, script: seq<Answer>)

  /** Calls until one returns no event. */
  function Polling(st: State, script: seq<Answer>, stream: seq<byte>): (r: Polls)
    ensures r.taken <= |stream|
    decreases |stream|
  {
    var c := Calling(st, Blank(), script, stream);
    if c.ret != 1 then Polls([], c.ret, c.st, c.taken, c.torn, c.script)
    else Preceded([c.event.value], c.taken, Polling(c.st, c.script, stream[c.taken..]))
  }

  function Preceded(events: seq<Event>, taken: nat, r: Polls): Polls {
    r.(events := events + r.events, taken := taken + r.taken)
  }

  lemma PrecededTwice(a: seq<Event>, n: nat, b: seq<Event>, k: nat, r: Polls)
    ensures Preceded(a, n, Preceded(b, k, r)) == Preceded(a + b, n + k, r)
    ensures Preceded([], 0, r) == r
  {
    assert a + (b + r.events) == (a + b) + r.events;
  }

  /**
   * An application's polling loop. Unless a message was torn by the port, which ends the loop with
   * -1, the events collected are those of the bytes consumed, and nothing is left half read.
   */
  method PollAll(m: Mext) returns (events: seq<Event>, ret: int, ghost taken: nat)
    modifies m`rows, m`cols, m`need, m`id, m`friendly
    modifies m.port`answers, m.port`clock, m.port`log, m.port`input
    ensures taken <= |old(m.port.input)| && m.port.input == old(m.port.input)[taken..]
    ensures ret == 0 || ret == -1
    ensures var r := Polling(old(m.St()), old(m.port.answers), old(m.port.input));
      r == Polls(events, ret, m.St(), taken, r.torn, m.port.answers)
    ensures ret == 0 ==> Poll(old(m.St()), old(m.port.input)[..taken]) == Polled(m.St(), events, [])
    ensures ret == 0 ==> forall ms :: AllWellFormed(ms) && EncodeAll(ms) == old(m.port.input)[..taken] ==>
      events == EventsOf(old(m.St()), ms) && m.St() == StateAfter(old(m.St()), ms)
    ensures Unhurried(old(m.port.answers), old(m.port.input)) ==> ret == 0 && taken == |old(m.port.input)|
  {
    hide Pump, Poll, Polling, Calling, Blank, EventsOf, StateAfter, EncodeAll, OnlyReads, Unhurried, Preceded;
    events, taken := [], 0;
    ghost var s, st0, script0 := m.port.input, m.St(), m.port.answers;
    var e;
    ghost var more: nat, torn: nat;
    PrecededTwice([], 0, [], 0, Polling(st0, script0, s));
    ghost var st, script := st0, script0;
    assert s[0..] == s;
    ret, e, more, torn := m.NextEvent();
    while ret == 1
      invariant taken + more <= |s| && m.port.input == s[taken + more..]
      invariant Called(ret, m.St(), e, more, torn, m.port.answers) == Calling(st, Blank(), script, s[taken..])
      invariant Polling(st0, script0, s) == Preceded(events, taken, Polling(st, script, s[taken..]))
      decreases |m.port.input|, ret
    {
      PollingStep(st, script, s[taken..]);
      PrecededTwice(events, taken, [e.value], more, Polling(m.St(), m.port.answers, m.port.input));
      assert s[taken..][more..] == s[taken + more..];
      events, taken, st, script := events + [e.value], taken + more, m.St(), m.port.answers;
      ret, e, more, torn := m.NextEvent();
      assert s[taken..][more..] == s[taken + more..];
    }
    PollingStep(st, script, s[taken..]);
    PrecededOnce(events, taken, Polling(st, script, s[taken..]));
    taken := taken + more;
    PollingPolls(st0, script0, s);
    if Unhurried(script0, s) {
      UnhurriedPolling(st0, script0, s);
    }
    forall ms | AllWellFormed(ms) && EncodeAll(ms) == s[..taken]
      ensures Poll(st0, s[..taken]) == Polled(StateAfter(st0, ms), EventsOf(st0, ms), [])
    {
      PollDeliversAll(st0, ms);
    }
  }

  lemma PrecededOnce(events: seq<Event>, taken: nat, r: Polls)
    ensures r.events == [] ==> Preceded(events, taken, r) == r.(events := events, taken := taken + r.taken)
  {
    assert events + [] == events;
  }

  lemma PollingStep(st: State, script: seq<Answer>, stream: seq<byte>)
    ensures var c := Calling(st, Blank(), script, stream);
      Polling(st, script, stream) ==
      if c.ret != 1 then Polls([], c.ret, c.st, c.taken, c.torn, c.script)
      else Preceded([c.event.value], c.taken, Polling(c.st, c.script, stream[c.taken..]))
  {
    hide Calling, Blank, Preceded;
  }

  /** The loop collects the events of the bytes it takes, whatever the schedule. */
  lemma {:induction false} PollingPolls(st: State, script: seq<Answer>, stream: seq<byte>)
    ensures var r := Polling(st, script, stream);
      && r.ret in {-1, 0} && (r.ret == 0 ==> r.torn == 0)
      && (r.torn == 0 ==> Poll(st, stream[..r.taken]) == Polled(r.st, r.events, []))
    decreases |stream|
  {
    hide Pump, Calling, Blank, Poll;
    var c := Calling(st, Blank(), script, stream);
    CallingPumps(st, Blank(), script, stream);
    if c.ret == 1 {
      var t := stream[c.taken..];
      PollingPolls(c.st, c.script, t);
      var r := Polling(c.st, c.script, t);
      assert stream[..c.taken + r.taken] == stream[..c.taken] + t[..r.taken];
      PollOnce(st, stream[..c.taken], t[..r.taken]);
    } else {
      PollNone(st, stream[..c.taken]);
    }
  }

  lemma PollNone(st: State, s: seq<byte>)
    ensures var o := Pump(st, Blank(), s);
      o.event.None? ==> Poll(st, s) == Polled(o.st, [], o.rest)
  {
    hide Pump, Blank;
  }

  lemma PollOnce(st: State, m: seq<byte>, t: seq<byte>)
    requires Pump(st, Blank(), m).event.Some? && Pump(st, Blank(), m).rest == []
    ensures var o := Pump(st, Blank(), m);
      Poll(st, m + t) == After([o.event.value], Poll(o.st, t))
  {
    hide Pump, Blank;
    PumpExtends(st, Blank(), m, t);
    assert [] + t == t;
  }

  function After(events: seq<Event>, p: Polled): Polled { p.(events := events + p.events) }

  /** A call that found its event does not look at what follows. */
  lemma {:induction false} PumpExtends(st: State, p: Payload, m: seq<byte>, t: seq<byte>)
    requires Pump(st, p, m).event.Some?
    ensures var o := Pump(st, p, m);
      Pump(st, p, m + t) == o.(rest := o.rest + t)
    decreases |m|
  {
    hide Dispatch, Splice;
    assert WholeMessage(m) && WholeMessage(m + t);
    var addr, cmd := m[0] / 16, m[0] % 16;
    var n := IncomingLength(addr, cmd);
    assert (m + t)[0] == m[0] && (m + t)[1..1 + n] == m[1..1 + n] && (m + t)[1 + n..] == m[1 + n..] + t;
    var p' := Splice(p, 0, m[1..1 + n]);
    var (st', e) := Dispatch(st, addr, cmd, p');
    if e.None? {
      PumpExtends(st', p', m[1 + n..], t);
    }
  }

  /** Over a schedule with answers enough, it takes everything. */
  lemma {:induction false} UnhurriedPolling(st: State, script: seq<Answer>, stream: seq<byte>)
    requires Unhurried(script, stream)
    ensures var r := Polling(st, script, stream);
      r.ret == 0 && r.taken == |stream|
    decreases |stream|
  {
    hide Pump, Calling, Blank, Unhurried;
    var c := Calling(st, Blank(), script, stream);
    UnhurriedCall(st, Blank(), script, stream);
    if c.ret == 1 {
      UnhurriedPolling(c.st, c.script, stream[c.taken..]);
    } else {
      PumpReachesEnd(st, Blank(), script, stream);
    }
  }

  /** Where only whole messages are to be read, a call without an event reads them all. */
  lemma PumpReachesEnd(st: State, p: Payload, script: seq<Answer>, stream: seq<byte>)
    requires Unhurried(script, stream)
    ensures Pump(st, p, stream).event.None? ==> Pump(st, p, stream).rest == []
  {
    hide Pump, Ample;
    PumpAllOf(st, p, stream);
  }

  lemma {:induction false} PumpAllOf(st: State, p: Payload, s: seq<byte>)
    requires Whole(s)
    ensures Pump(st, p, s).event.None? ==> Pump(st, p, s).rest == []
    decreases |s|
  {
    hide Dispatch, Splice, Whole, IncomingLength;
    WholeGoesOn(s);
    if s != [] {
      var addr, cmd := s[0] / 16, s[0] % 16;
      var n := IncomingLength(addr, cmd);
      var p' := Splice(p, 0, s[1..1 + n]);
      PumpAllOf(Dispatch(st, addr, cmd, p').0, p', s[1 + n..]);
    }
  }

  /** Encoded messages are whole messages. */
  lemma {:induction false} EncodedWhole(ms: seq<Incoming>)
    requires AllWellFormed(ms)
    ensures Whole(EncodeAll(ms))
  {
    hide Encode, IncomingLength, Bytes;
    if ms != [] {
      assert WellFormed(ms[0]);
      EncodeFits(ms[0]);
      EncodedWhole(ms[1..]);
      hide Cut;
      CutOne(IncomingLength, Encode(ms[0]), EncodeAll(ms[1..]));
    }
  }

  /**
   * An application that polls a prompt port gets the events of all the messages that the device
   * has sent, in order, however their bytes were cut and however often signals interrupted.
   */
  method PollMessages(m: Mext, ghost ms: seq<Incoming>) returns (events: seq<Event>, ret: int)
    requires AllWellFormed(ms) && m.port.input == EncodeAll(ms) && Ample(m.port.answers, |m.port.input|)
    modifies m`rows, m`cols, m`need, m`id, m`friendly
    modifies m.port`answers, m.port`clock, m.port`log, m.port`input
    ensures ret == 0 && m.port.input == []
    ensures events == EventsOf(old(m.St()), ms) && m.St() == StateAfter(old(m.St()), ms)
  {
    hide EncodeAll, EventsOf, StateAfter, Ample, Whole, Polling;
    EncodedWhole(ms);
    ghost var s := m.port.input;
    ghost var taken;
    events, ret, taken := PollAll(m);
    assert s[..taken] == s;
  }

  // ---- through idle and failed polls ---------------------------------------

  /** What many calls do: the events, the state, the bytes taken, whether a message was torn, and the schedule left. */
  datatype Served = Served(events: seq<Event>, st: State, taken: nat, torn: bool, script: seq<Answer>)

  /** Some number of calls, whatever they return. */
  function Serving(calls: nat, st: State, script: seq<Answer>, stream: seq<byte>): (r: Served)
    ensures r.taken <= |stream|
  {
    if calls == 0 then Served([], st, 0, false, script)
    else
      var r := Serving(calls - 1, st, script, stream);
      var c := Calling(r.st, Blank(), r.script, stream[r.taken..]);
      Served(r.events + (match c.event case Some(e) => [e] case None => []), c.st, r.taken + c.taken, r.torn || c.torn > 0, c.script)
  }

  /** Messages, and the first bytes of them that are whole messages themselves. */
  lemma {:induction false} WholePrefix(ms: seq<Incoming>, took: seq<byte>) returns (j: nat)
    requires AllWellFormed(ms) && took <= EncodeAll(ms) && Whole(took)
    ensures j <= |ms| && took == EncodeAll(ms[..j])
    ensures EncodeAll(ms)[|took|..] == EncodeAll(ms[j..])
    decreases |ms|
  {
    hide Whole, Encode, IncomingLength;
    if took == [] {
      j := 0;
    } else {
      WholeGoesOn(took);
      assert WellFormed(ms[0]);
      var w := Encode(ms[0]);
      EncodeFits(ms[0]);
      HeaderNibbles(w);
      assert took[0] == Header(w);
      assert |Bytes(w)| == 1 + IncomingLength(took[0] / 16, took[0] % 16);
      var rest := took[|Bytes(w)|..];
      var k := WholePrefix(ms[1..], rest);
      j := k + 1;
      assert ms[..j][0] == ms[0] && ms[..j][1..] == ms[1..][..k];
      assert ms[1..][k..] == ms[j..];
    }
  }

  lemma {:induction false} EventsConcat(st: State, a: seq<Incoming>, b: seq<Incoming>)
    ensures EventsOf(st, a + b) == EventsOf(st, a) + EventsOf(StateAfter(st, a), b)
    ensures StateAfter(st, a + b) == StateAfter(StateAfter(st, a), b)
    decreases |a|
  {
    hide Meaning;
    if a == [] {
      assert a + b == b;
    } else {
      assert (a + b)[1..] == a[1..] + b;
      EventsConcat(Meaning(st, a[0]).0, a[1..], b);
    }
  }

  /** One call that tears nothing, over messages: it takes some of them, and returns their event if they have one. */
  lemma OneServed(st: State, script: seq<Answer>, ms: seq<Incoming>) returns (j: nat)
    requires AllWellFormed(ms) && Calling(st, Blank(), script, EncodeAll(ms)).torn == 0
    ensures var c := Calling(st, Blank(), script, EncodeAll(ms));
      && j <= |ms| && EncodeAll(ms)[c.taken..] == EncodeAll(ms[j..])
      && EventsOf(st, ms[..j]) == (match c.event case Some(e) => [e] case None => [])
      && StateAfter(st, ms[..j]) == c.st
  {
    hide Calling, Pump, Blank, Whole, EventsOf, StateAfter, EncodeAll, Poll;
    var c := Calling(st, Blank(), script, EncodeAll(ms));
    var took := EncodeAll(ms)[..c.taken];
    CallingPumps(st, Blank(), script, EncodeAll(ms));
    TakesWhole(st, script, EncodeAll(ms));
    j := WholePrefix(ms, took);
    PollDeliversAll(st, ms[..j]);
    if c.event.Some? {
      PollOnce(st, took, []);
      PollNothing(c.st);
      assert took + [] == took && [c.event.value] + [] == [c.event.value];
    } else {
      PollNone(st, took);
    }
  }

  lemma PollNothing(st: State)
    ensures Poll(st, []) == Polled(st, [], [])
  {
    hide Pump;
    PumpStops(st, Blank(), []);
  }

  /**
   * On every schedule, as long as no message was torn, repeated calls have delivered exactly the
   * events of some first messages, in order, and the state they leave, and the other messages are
   * still to be read; polls that find nothing, or fail, do no harm.
   */
  lemma {:induction false} ServedInOrder(calls: nat, st: State, script: seq<Answer>, ms: seq<Incoming>) returns (j: nat)
    requires AllWellFormed(ms) && !Serving(calls, st, script, EncodeAll(ms)).torn
    ensures var r := Serving(calls, st, script, EncodeAll(ms));
      && j <= |ms| && EncodeAll(ms)[r.taken..] == EncodeAll(ms[j..])
      && r.events == EventsOf(st, ms[..j]) && r.st == StateAfter(st, ms[..j])
  {
    hide Calling, Blank, EventsOf, StateAfter, EncodeAll;
    if calls == 0 {
      j := 0;
      NoEvents(st);
      assert ms[..0] == [] && ms[0..] == ms && EncodeAll(ms)[0..] == EncodeAll(ms);
    } else {
      var i := ServedInOrder(calls - 1, st, script, ms);
      var r := Serving(calls - 1, st, script, EncodeAll(ms));
      var k := OneServed(r.st, r.script, ms[i..]);
      var c := Calling(r.st, Blank(), r.script, EncodeAll(ms[i..]));
      j := i + k;
      CutTwice(ms, i, k);
      CutTwice(EncodeAll(ms), r.taken, c.taken);
      EventsConcat(st, ms[..i], ms[i..][..k]);
    }
  }

  /** What is left of a sequence after two cuts, and what was cut off. */
  lemma CutTwice<T>(s: seq<T>, i: nat, k: nat)
    requires i <= |s| && k <= |s[i..]|
    ensures s[..i + k] == s[..i] + s[i..][..k] && s[i..][k..] == s[i + k..]
  {
  }

  lemma NoEvents(st: State)
    ensures EventsOf(st, []) == [] && StateAfter(st, []) == st
  {
  }

  /** Before the end of the stream, calls that tear nothing use at most two answers to a byte, and each call one. */
  lemma {:induction false} ServingSpends(calls: nat, st: State, script: seq<Answer>, stream: seq<byte>)
    ensures var r := Serving(calls, st, script, stream);
      && (!r.torn && r.taken < |stream| ==> Bringing(r.script) + 2 * r.taken >= Bringing(script))
      && |r.script| + calls <= |script| + (if r.script == [] then calls else 0)
  {
    hide Calling, Blank, Bringing;
    if calls > 0 {
      ServingSpends(calls - 1, st, script, stream);
      var r := Serving(calls - 1, st, script, stream);
      CallSpends(r.st, Blank(), r.script, stream[r.taken..]);
    }
  }

  /** If no message is torn and the schedule has answers enough, calling often enough reads everything. */
  lemma ServedAll(calls: nat, st: State, script: seq<Answer>, stream: seq<byte>)
    requires calls >= |script| && Bringing(script) >= 2 * |stream|
    ensures var r := Serving(calls, st, script, stream);
      !r.torn ==> r.taken == |stream|
  {
    hide Serving;
    ServingSpends(calls, st, script, stream);
  }

  /**
   * An application that calls again and again, whatever is returned. On every schedule that tears no
   * message it gets the events of the messages in order, and all of them if it calls often enough
   * and the schedule has two answers to a byte.
   */
  method PollThrough(m: Mext, calls: nat, ghost ms: seq<Incoming>) returns (events: seq<Event>, ghost torn: bool)
    requires AllWellFormed(ms) && m.port.input == EncodeAll(ms)
    modifies m`rows, m`cols, m`need, m`id, m`friendly
    modifies m.port`answers, m.port`clock, m.port`log, m.port`input
    ensures var r := Serving(calls, old(m.St()), old(m.port.answers), old(m.port.input));
      && r == Served(events, m.St(), r.taken, torn, m.port.answers) && m.port.input == old(m.port.input)[r.taken..]
    ensures !torn ==> exists j :: 0 <= j <= |ms| && ServedUpTo(old(m.St()), ms, j, events, m.St(), m.port.input)
    ensures !torn && calls >= |old(m.port.answers)| && Bringing(old(m.port.answers)) >= 2 * |old(m.port.input)| ==>
      m.port.input == [] && events == EventsOf(old(m.St()), ms) && m.St() == StateAfter(old(m.St()), ms)
  {
    hide Calling, Blank, EventsOf, StateAfter, EncodeAll, Pump, OnlyReads, Bringing;
    ghost var st0, script0, s, taken: nat := m.St(), m.port.answers, m.port.input, 0;
    events, torn := [], false;
    for i := 0 to calls
      invariant taken <= |s| && m.port.input == s[taken..]
      invariant Serving(i, st0, script0, s) == Served(events, m.St(), taken, torn, m.port.answers)
    {
      var ret, e;
      ghost var more, left;
      ret, e, more, left := m.NextEvent();
      if e.Some? {
        events := events + [e.value];
      }
      assert s[taken..][more..] == s[taken + more..];
      taken, torn := taken + more, torn || left > 0;
    }
    if !torn {
      var j := ServedInOrder(calls, st0, script0, ms);
      assert ServedUpTo(st0, ms, j, events, m.St(), m.port.input);
      if calls >= |script0| && Bringing(script0) >= 2 * |s| {
        ServedAll(calls, st0, script0, s);
        EncodedNothing(ms[j..]);
        assert ms[..|ms|] == ms;
      }
    }
  }

  ghost predicate ServedUpTo(st: State, ms: seq<Incoming>, j: nat, events: seq<Event>, st': State, input: seq<byte>)
    requires j <= |ms| && AllWellFormed(ms)
  {
    events == EventsOf(st, ms[..j]) && st' == StateAfter(st, ms[..j]) && input == EncodeAll(ms[j..])
  }

  lemma EncodedNothing(ms: seq<Incoming>)
    requires AllWellFormed(ms) && EncodeAll(ms) == []
    ensures ms == []
  {
    hide Encode;
  }
}
