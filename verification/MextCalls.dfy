/** What calls of `mext_next_event` take off the stream, schedule by schedule. */
module MextCalls {
  import opened Bits
  import opened Rotation
  import opened Framing
  import opened Devices
  import opened MextWire
  import opened MextInput
  import opened Platform

  // ---- one message --------------------------------------------------------

  /** The payload of a message that starts a stream. */
  function PayloadLength(stream: seq<byte>): nat
    requires stream != []
  {
    IncomingLength(stream[0] / 16, stream[0] % 16)
  }

  /**
   * A message is read exactly if its header comes, and then its payload comes in full; it is torn
   * exactly if the header comes and the payload does not; and it is left alone if the header does not come.
   */
  lemma MessageReadIff(script: seq<Answer>, stream: seq<byte>)
    requires stream != []
    ensures var g, n := ReadingMsg(script, stream), PayloadLength(stream);
      var header := Fills(script, |stream|, 1);
      var payload := header && (n == 0 || Fills(Arriving(script, |stream|, 1, 0).script, |stream| - 1, n));
      && (g.ret > 0 <==> payload)
      && (g.ret == -1 && g.taken > 0 <==> header && !payload)
      && (g.taken == 0 <==> !header)
  {
    hide Fills, Arriving;
    FillsIff(script, |stream|, 1, 0);
    ArrivingBounds(script, |stream|, 1, 0);
    if Fills(script, |stream|, 1) && PayloadLength(stream) > 0 {
      FillsIff(Arriving(script, |stream|, 1, 0).script, |stream| - 1, PayloadLength(stream), 0);
      ArrivingBounds(Arriving(script, |stream|, 1, 0).script, |stream| - 1, PayloadLength(stream), 0);
    }
  }

  /** A key message whose last byte is late is torn, and that byte is read as a header by the next call. */
  lemma TornKey()
    ensures var stream: seq<byte> := [0x21, 3, 0x52];
      && ReadingMsg([Answer(Fine, 1, 0), Answer(Fine, 1, 0), Answer(WouldBlock, 0, 25)], stream) == GotMsg(-1, 2, [])
      && stream[2..][0] / 16 == SS_ENCODER
  {
    var script := [Answer(Fine, 1, 0), Answer(Fine, 1, 0), Answer(WouldBlock, 0, 25)];
    assert Uninterrupted(script) == script;
    assert Arriving(script, 3, 1, 0) == Reading(script[1..], 2, 0, 1) == Got(1, 1, script[1..]);
    var two := script[1..];
    assert Uninterrupted(two) == two && Uninterrupted(two[1..]) == two[1..] && two[1..][1..] == [];
    assert Reading(two[1..], 1, 1, 1) == Got(1, 1, []);
    assert Arriving(two, 2, 2, 0) == Got(1, 1, []);
  }

  // ---- one call -----------------------------------------------------------

  /** Pumping that reaches no event leaves what framing leaves, and leaves nothing only of whole messages. */
  lemma {:induction false} PumpCuts(st: State, p: Payload, s: seq<byte>)
    ensures var o, rest := Pump(st, p, s), Cut(IncomingLength, s).rest;
      && (o.event.None? ==> o.rest == rest)
      && (o.rest == [] ==> rest == [])
    decreases |s|
  {
    hide Dispatch, Splice, IncomingLength;
    if WholeMessage(s) {
      var addr, cmd := s[0] / 16, s[0] % 16;
      var n := IncomingLength(addr, cmd);
      var p' := Splice(p, 0, s[1..1 + n]);
      PumpCuts(Dispatch(st, addr, cmd, p').0, p', s[1 + n..]);
    }
  }

  /** A call that does not fail takes whole messages. */
  lemma TakesWhole(st: State, script: seq<Answer>, stream: seq<byte>)
    ensures var c := Calling(st, Blank(), script, stream);
      c.torn == 0 ==> Whole(stream[..c.taken])
  {
    hide Calling, Pump, Cut, Blank;
    CallingPumps(st, Blank(), script, stream);
    PumpCuts(st, Blank(), stream[..Calling(st, Blank(), script, stream).taken]);
  }

  /** A call that tears nothing, and does not reach the end of the stream, uses at most two answers to a byte. */
  lemma {:induction false} CallSpends(st: State, p: Payload, script: seq<Answer>, stream: seq<byte>)
    ensures var c := Calling(st, p, script, stream);
      c.torn == 0 && c.taken < |stream| ==> Bringing(c.script) + 2 * c.taken >= Bringing(script)
    decreases |stream|
  {
    hide Dispatch, Splice, Bringing, ReadingMsg;
    var g := ReadingMsg(script, stream);
    MessageSpends(script, stream);
    if g.ret > 0 {
      var p' := Splice(p, 0, stream[1..g.taken]);
      var (st', e) := Dispatch(st, stream[0] / 16, stream[0] % 16, p');
      if e.None? {
        CallSpends(st', p', g.script, stream[g.taken..]);
      }
    }
  }

  lemma MessageSpends(script: seq<Answer>, stream: seq<byte>)
    ensures var g := ReadingMsg(script, stream);
      && (g.ret > 0 ==> Bringing(g.script) + 2 * g.taken >= Bringing(script))
      && (g.taken == 0 && stream != [] ==> Bringing(g.script) == Bringing(script))
  {
    hide Arriving, Bringing;
    ArrivingBounds(script, |stream|, 1, 0);
    ReadSpends(script, |stream|, 1, 0);
    var h := Arriving(script, |stream|, 1, 0);
    if h.ret > 0 && PayloadLength(stream) > 0 {
      ArrivingBounds(h.script, |stream| - 1, PayloadLength(stream), 0);
      ReadSpends(h.script, |stream| - 1, PayloadLength(stream), 0);
    }
  }

  // ---- responses ----------------------------------------------------------

  /** The command of the system message that is the response. */
  function ResponseCmd(n: Response): nat {
    match n
    case NeedQuery => CMD_SYSTEM_QUERY_RESPONSE
    case NeedId => CMD_SYSTEM_ID
    case NeedGridSize => CMD_SYSTEM_GRIDSZ
  }

  predicate IsResponse(m: Msg, n: Response) { m.addr == SS_SYSTEM && m.cmd == ResponseCmd(n) }

  /** What is still needed after a message. */
  function NeedAfter(need: set<Response>, m: Msg): set<Response> { set n | n in need && !IsResponse(m, n) }

  /** The response is among the whole messages of some bytes. */
  predicate Heard(s: seq<byte>, n: Response) {
    exists i :: 0 <= i < |Cut(IncomingLength, s).msgs| && IsResponse(Cut(IncomingLength, s).msgs[i], n)
  }

  /** What is still needed after some bytes. */
  function Unheard(need: set<Response>, s: seq<byte>): (rest: set<Response>)
    ensures forall n :: n in rest <==> n in need && !Heard(s, n)
  {
    set n | n in need && !Heard(s, n)
  }

  lemma HeardNothing(need: set<Response>)
    ensures Unheard(need, []) == need
  {
  }

  /** Bytes after whole messages. */
  lemma HeardMore(need: set<Response>, s: seq<byte>, t: seq<byte>)
    requires Whole(s)
    ensures Unheard(need, s + t) == Unheard(Unheard(need, s), t)
    ensures Cut(IncomingLength, s + t).rest == Cut(IncomingLength, t).rest
  {
    hide Cut, IsResponse, IncomingLength;
    CutConcat(IncomingLength, s, t);
    assert [] + t == t;
    var f, h := Cut(IncomingLength, s).msgs, Cut(IncomingLength, t).msgs;
    forall n
      ensures Heard(s + t, n) <==> Heard(s, n) || Heard(t, n)
    {
      if i :| 0 <= i < |f| && IsResponse(f[i], n) {
        assert IsResponse((f + h)[i], n);
      }
      if i :| 0 <= i < |h| && IsResponse(h[i], n) {
        assert IsResponse((f + h)[|f| + i], n);
      }
    }
  }

  /** Of the first message of a stream, and of the others. */
  lemma HeardFirst(need: set<Response>, s: seq<byte>)
    requires WholeMessage(s)
    ensures var n := IncomingLength(s[0] / 16, s[0] % 16);
      Unheard(need, s) == Unheard(NeedAfter(need, Msg(s[0] / 16, s[0] % 16, s[1..1 + n])), s[1 + n..])
  {
    hide IsResponse, IncomingLength;
    var n := IncomingLength(s[0] / 16, s[0] % 16);
    var m, ms := Msg(s[0] / 16, s[0] % 16, s[1..1 + n]), Cut(IncomingLength, s[1 + n..]).msgs;
    assert Cut(IncomingLength, s).msgs == [m] + ms;
    forall k
      ensures Heard(s, k) <==> IsResponse(m, k) || Heard(s[1 + n..], k)
    {
      assert IsResponse(([m] + ms)[0], k) <==> IsResponse(m, k);
      if i :| 0 <= i < |ms| && IsResponse(ms[i], k) {
        assert IsResponse(([m] + ms)[1 + i], k);
      }
    }
  }

  lemma DispatchNeeds(st: State, addr: nat, cmd: nat, payload: seq<byte>, p: Payload)
    ensures Dispatch(st, addr, cmd, p).0.need == NeedAfter(st.need, Msg(addr, cmd, payload))
  {
    hide OnKey, OnEncoder, OnTilt, CString;
  }

  /** Pumping clears exactly the responses among the messages it handles. */
  lemma {:induction false} PumpClears(st: State, p: Payload, s: seq<byte>)
    ensures var o := Pump(st, p, s);
      o.event.None? || o.rest == [] ==> o.st.need == Unheard(st.need, s)
    decreases |s|
  {
    hide Dispatch, Splice, IncomingLength, Unheard, NeedAfter, Cut;
    if WholeMessage(s) {
      var addr, cmd := s[0] / 16, s[0] % 16;
      var n := IncomingLength(addr, cmd);
      var p' := Splice(p, 0, s[1..1 + n]);
      var (st', e) := Dispatch(st, addr, cmd, p');
      DispatchNeeds(st, addr, cmd, s[1..1 + n], p');
      HeardFirst(st.need, s);
      HeardNothing(st'.need);
      PumpClears(st', p', s[1 + n..]);
    } else {
      HeardTorn(st.need, s);
    }
  }

  lemma HeardTorn(need: set<Response>, s: seq<byte>)
    requires !WholeMessage(s)
    ensures Unheard(need, s) == need
  {
    NoMessage(IncomingLength, s);
  }

  /** What a call does to what is needed: it clears the responses among the bytes it takes, and no other. */
  lemma CallClears(st: State, script: seq<Answer>, stream: seq<byte>)
    ensures var c := Calling(st, Blank(), script, stream);
      && c.st.need == Unheard(st.need, stream[..c.taken])
      && (c.torn == 0 <==> Whole(stream[..c.taken]))
  {
    hide Calling, Pump, Blank, Unheard, Cut, IncomingLength;
    var c := Calling(st, Blank(), script, stream);
    CallingPumps(st, Blank(), script, stream);
    PumpClears(st, Blank(), stream[..c.taken]);
    PumpCuts(st, Blank(), stream[..c.taken]);
  }

  // ---- the state that bytes leave -----------------------------------------

  /**
   * What a message teaches the library, by its header and payload alone: a query response (0x00), an id
   * (0x01) or a grid size (0x03) from the system; any other leaves everything as it is.
   */
  function Learn(st: State, m: Msg): State {
    if m.addr != 0x0 then st
    else if m.cmd == 0x0 then st.(need := st.need - {NeedQuery})
    else if m.cmd == 0x1 then
      st.(id := CString(m.payload), friendly := CString(m.payload), need := st.need - {NeedId})
    else if m.cmd == 0x3 && |m.payload| == 2 then
      st.(g := Geometry(m.payload[1], m.payload[0], st.g.rotation), need := st.need - {NeedGridSize})
    else st
  }

  function Learned(st: State, ms: seq<Msg>): State
    decreases |ms|
  {
    if ms == [] then st else Learned(Learn(st, ms[0]), ms[1..])
  }

  /** The state after the whole messages among some bytes. */
  function After(st: State, s: seq<byte>): State { Learned(st, Cut(IncomingLength, s).msgs) }

  lemma {:induction false} LearnedConcat(st: State, a: seq<Msg>, b: seq<Msg>)
    ensures Learned(st, a + b) == Learned(Learned(st, a), b)
    decreases |a|
  {
    hide Learn;
    if a == [] {
      assert a + b == b;
    } else {
      assert (a + b)[1..] == a[1..] + b;
      LearnedConcat(Learn(st, a[0]), a[1..], b);
    }
  }

  lemma AfterNothing(st: State)
    ensures After(st, []) == st
  {
  }

  lemma AfterMore(st: State, s: seq<byte>, t: seq<byte>)
    requires Whole(s)
    ensures After(st, s + t) == After(After(st, s), t)
  {
    hide Cut, Learned, IncomingLength;
    CutConcat(IncomingLength, s, t);
    assert [] + t == t;
    LearnedConcat(st, Cut(IncomingLength, s).msgs, Cut(IncomingLength, t).msgs);
  }

  lemma AfterFirst(st: State, s: seq<byte>)
    requires WholeMessage(s)
    ensures var n := IncomingLength(s[0] / 16, s[0] % 16);
      After(st, s) == After(Learn(st, Msg(s[0] / 16, s[0] % 16, s[1..1 + n])), s[1 + n..])
  {
    hide Learn, IncomingLength;
    var n := IncomingLength(s[0] / 16, s[0] % 16);
    var m, ms := Msg(s[0] / 16, s[0] % 16, s[1..1 + n]), Cut(IncomingLength, s[1 + n..]).msgs;
    assert Cut(IncomingLength, s).msgs == [m] + ms;
    assert ([m] + ms)[1..] == ms;
  }

  lemma AfterTorn(st: State, s: seq<byte>)
    requires !WholeMessage(s)
    ensures After(st, s) == st
  {
    NoMessage(IncomingLength, s);
  }

  /** Dispatching a message, whatever was in the buffer, teaches what its payload says. */
  lemma DispatchLearns(st: State, addr: nat, cmd: nat, payload: seq<byte>, p: Payload)
    requires |payload| == IncomingLength(addr, cmd)
    ensures Dispatch(st, addr, cmd, Splice(p, 0, payload)).0 == Learn(st, Msg(addr, cmd, payload))
  {
    hide OnKey, OnEncoder, OnTilt, CString, Splice;
    var q := Splice(p, 0, payload);
    SpliceReads(p, 0, payload);
    assert q[..|payload|] == payload;
    if |payload| == 2 {
      assert q[0] == q[..2][0] && q[1] == q[..2][1];
    }
  }

  lemma {:induction false} PumpLearns(st: State, p: Payload, s: seq<byte>)
    ensures var o := Pump(st, p, s);
      o.event.None? || o.rest == [] ==> o.st == After(st, s)
    decreases |s|
  {
    hide Dispatch, Splice, IncomingLength, After, Learn;
    if WholeMessage(s) {
      var addr, cmd := s[0] / 16, s[0] % 16;
      var n := IncomingLength(addr, cmd);
      var p' := Splice(p, 0, s[1..1 + n]);
      var (st', e) := Dispatch(st, addr, cmd, p');
      DispatchLearns(st, addr, cmd, s[1..1 + n], p);
      AfterFirst(st, s);
      AfterNothing(st');
      PumpLearns(st', p', s[1 + n..]);
    } else {
      AfterTorn(st, s);
    }
  }

  /** What a call does to the state: it learns from the whole messages it takes, and nothing else. */
  lemma CallLearns(st: State, script: seq<Answer>, stream: seq<byte>)
    ensures var c := Calling(st, Blank(), script, stream);
      c.st == After(st, stream[..c.taken])
  {
    hide Calling, Pump, Blank, After;
    CallingPumps(st, Blank(), script, stream);
    PumpLearns(st, Blank(), stream[..Calling(st, Blank(), script, stream).taken]);
  }

  // ---- prompt schedules ---------------------------------------------------

  /** Whole messages are to be read, and the schedule is prompt and has answers enough to read them. */
  ghost predicate Unhurried(script: seq<Answer>, stream: seq<byte>) { Ample(script, |stream|) && Whole(stream) }

  lemma MessageRead(script: seq<Answer>, stream: seq<byte>)
    requires Unhurried(script, stream)
    ensures var g := ReadingMsg(script, stream);
      && (if stream == [] then g.ret == g.taken == 0 else g.ret > 0)
      && Ample(g.script, |stream| - g.taken) && (Calm(script) ==> Calm(g.script))
      && Whole(stream[g.taken..])
      && (stream != [] ==> Supply(g.script) + 2 * g.taken >= Supply(script))
  {
    hide Arriving, Calm, Supply, Whole, IncomingLength;
    WholeGoesOn(stream);
    AmpleRead(script, |stream|, 1);
    if stream != [] && PayloadLength(stream) > 0 {
      AmpleRead(Arriving(script, |stream|, 1, 0).script, |stream| - 1, PayloadLength(stream));
    }
  }

  /**
   * Under such a schedule a call pumps the stream to its first event or its end, and leaves the rest
   * for as good a schedule.
   */
  lemma {:induction false} UnhurriedCall(st: State, p: Payload, script: seq<Answer>, stream: seq<byte>)
    requires Unhurried(script, stream)
    ensures var c := Calling(st, p, script, stream);
      && c.ret >= 0 && Pump(st, p, stream) == Outcome(c.st, c.event, stream[c.taken..])
      && Unhurried(c.script, stream[c.taken..]) && (Calm(script) ==> Calm(c.script))
      && (c.taken < |stream| ==> Supply(c.script) + 2 * c.taken >= Supply(script))
    decreases |stream|
  {
    hide Pump, Dispatch, Splice, Supply, Calm, ReadingMsg, Ample, Whole, IncomingLength;
    MessageRead(script, stream);
    var g := ReadingMsg(script, stream);
    if g.ret <= 0 {
      PumpStops(st, p, []);
    } else {
      var t := stream[g.taken..];
      var p' := Splice(p, 0, stream[1..g.taken]);
      var (st', e) := Dispatch(st, stream[0] / 16, stream[0] % 16, p');
      var m := stream[..g.taken];
      assert stream == m + t && m[1..] == stream[1..g.taken];
      PumpStep(st, p, m, t);
      if e.None? {
        UnhurriedCall(st', p', g.script, t);
        var d := Calling(st', p', g.script, t);
        assert t[d.taken..] == stream[g.taken + d.taken..];
      }
    }
  }
}
