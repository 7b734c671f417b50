/**
 * The mext handshake: three queries, one retry for those still unanswered, and a deadline. A run is
 * a sequence of steps of a transition system, and the log of the port is exactly the calls of the
 * steps; the facts about all runs are proved of that log.
 */
module MextOpen {
  import opened Bits
  import opened Rotation
  import opened Devices
  import opened Framing
  import opened MextWire
  import opened MextInput
  import opened MextCalls
  import MextStream
  import opened Platform

  const HANDSHAKE_TIMEOUT := 1000
  const HANDSHAKE_RETRY := 250
  const HANDSHAKE_WAIT_SLICE := 25

  /** The bytes of the queries for the given responses, in the order they are sent. */
  function Queries(need: set<Response>): seq<byte> {
    (if NeedQuery in need then [CMD_SYSTEM_QUERY] else [])
    + (if NeedId in need then [CMD_SYSTEM_GET_ID] else [])
    + (if NeedGridSize in need then [CMD_SYSTEM_GET_GRIDSZ] else [])
  }

  // ---- runs ---------------------------------------------------------------

  /**
   * One turn of the loop: the time it read off the clock, what was still needed then, its calls to
   * send queries, to wait, and to read and handle messages, the bytes that those read, and when it ended.
   */
  datatype Turn = Turn(now: nat, need: set<Response>, sends: seq<Call>, waits: seq<Call>, fetches: seq<Call>, took: seq<byte>, end: nat)

  datatype Ending = Cleared | NotOpened | WriteFailed | TimedOut | WaitFailed | ReadFailed

  /**
   * A whole run: the time it read off the clock first, what was needed, the calls to send the first
   * queries, when the loop was entered, its turns, and why and when it ended.
   */
  datatype Run = Run(start: nat, need: set<Response>, first: seq<Call>, entered: nat, turns: seq<Turn>, ending: Ending, ended: nat)

  function Calls(t: Turn): seq<Call> { [Tells(t.now)] + t.sends + t.waits + t.fetches }

  function CallsOf(turns: seq<Turn>): seq<Call> {
    if turns == [] then [] else CallsOf(turns[..|turns| - 1]) + Calls(turns[|turns| - 1])
  }

  /** Every byte that some turns took off the stream, in order. */
  function TookOf(turns: seq<Turn>): seq<byte> {
    if turns == [] then [] else TookOf(turns[..|turns| - 1]) + turns[|turns| - 1].took
  }

  /** Every call of a run, in order. */
  function LogOf(r: Run): seq<Call> {
    if r.ending == NotOpened then []
    else [Tells(r.start)] + r.first + CallsOf(r.turns) + (if r.ending == TimedOut then [Tells(r.ended)] else [])
  }

  /** What some calls asked to be written. */
  function Asks(cs: seq<Call>): seq<byte> {
    if cs == [] then []
    else Asks(cs[..|cs| - 1]) + (if cs[|cs| - 1].Writes? then cs[|cs| - 1].data else [])
  }

  /**
   * When the turn after these begins, what is needed then, which is what was needed before them but for
   * the responses among the bytes they took, and whether the queries were sent again.
   */
  function Head(entered: nat, turns: seq<Turn>): nat { if turns == [] then entered else turns[|turns| - 1].end }

  function Pending(need: set<Response>, turns: seq<Turn>): set<Response> {
    if turns == [] then need else Unheard(turns[|turns| - 1].need, turns[|turns| - 1].took)
  }

  predicate Retried(turns: seq<Turn>) {
    turns != [] && (Retried(turns[..|turns| - 1]) || turns[|turns| - 1].sends != [])
  }

  /** How long the code waits: a slice, but not past the deadline, nor past a retry still to come. */
  function WaitFor(start: nat, now: nat, retried: bool): int {
    var deadline, retryAt := start + HANDSHAKE_TIMEOUT, start + HANDSHAKE_RETRY;
    var wait := if deadline - now < HANDSHAKE_WAIT_SLICE then deadline - now else HANDSHAKE_WAIT_SLICE;
    if !retried && retryAt > now && retryAt - now < wait then retryAt - now else wait
  }

  ghost predicate OnlyWrites(cs: seq<Call>) {
    forall i :: 0 <= i < |cs| ==> cs[i].Writes?
  }

  /** Calls that send the queries for need, the first of them at once; all of the queries, or up to one that failed. */
  ghost predicate Sending(cs: seq<Call>, need: set<Response>, at: nat, all: bool) {
    && OnlyWrites(cs) && Asks(cs) <= Queries(need) && (all ==> Asks(cs) == Queries(need))
    && (cs == [] ==> Asks(cs) == Queries(need))
    && (cs != [] ==> cs[0].at == at)
  }

  /** A step from the head of the loop, at time head, with just need pending. */
  ghost predicate Step(start: nat, head: nat, need: set<Response>, retried: bool, t: Turn) {
    && t.now == head && t.now < start + HANDSHAKE_TIMEOUT && t.now <= t.end
    && t.need != {} && t.need == need
    && (if !retried && t.now >= start + HANDSHAKE_RETRY then Sending(t.sends, t.need, t.now, t.waits != []) else t.sends == [])
    && (if t.waits == [] then t.sends != [] && t.fetches == []
        else |t.waits| == 1 && t.waits[0].Waits? && t.waits[0].msec == WaitFor(start, t.now, retried || t.sends != [])
             && (t.fetches != [] <==> t.waits[0].status == 0))
    && ReadTrace(t.fetches) && (t.fetches == [] ==> t.took == [])
  }

  /** Step after step; all turns but the last went on to wait. */
  ghost predicate Steps(start: nat, need: set<Response>, entered: nat, turns: seq<Turn>) {
    turns != [] ==>
      var init := turns[..|turns| - 1];
      && Steps(start, need, entered, init) && Waited(init)
      && Step(start, Head(entered, init), Pending(need, init), Retried(init), turns[|turns| - 1])
  }

  predicate Waited(turns: seq<Turn>) {
    turns != [] ==>
      var t := turns[|turns| - 1];
      t.waits != [] && !WaitFailedIn(t) && !ReadFailedIn(t)
  }

  /** Reading failed, or tore a message. */
  predicate ReadFailedIn(t: Turn) { LastBroken(t.fetches) || !Whole(t.took) }

  predicate WaitFailedIn(t: Turn) { t.waits != [] && t.waits[0].Waits? && t.waits[0].status < 0 }

  ghost predicate Legal(r: Run) {
    && r.start <= r.entered && r.ended == Head(r.entered, r.turns)
    && if r.ending == NotOpened then r.turns == [] && r.first == []
       else
         && Sending(r.first, r.need, r.start, r.turns != [] || r.ending != WriteFailed)
         && Steps(r.start, r.need, r.entered, r.turns)
         && (r.turns != [] ==> (r.ending == WriteFailed <==> r.turns[|r.turns| - 1].waits == []))
         && (r.ending == WriteFailed ==> Asks(LogOf(r)) != [])
         && (r.ending == TimedOut ==> r.ended >= r.start + HANDSHAKE_TIMEOUT)
         && (r.ending == WaitFailed || r.ending == ReadFailed ==> r.turns != [])
         && (r.turns != [] ==> (r.ending == WaitFailed <==> WaitFailedIn(r.turns[|r.turns| - 1])))
         && (r.turns != [] ==> (r.ending == ReadFailed <==> ReadFailedIn(r.turns[|r.turns| - 1])))
  }

  /** What the system took of what a run asked it to write: all of it, or all but the query that failed. */
  function Accepted(r: Run): seq<byte> {
    var asked := Asks(LogOf(r));
    if r.ending == WriteFailed && asked != [] then asked[..|asked| - 1] else asked
  }

  // ---- the C functions ----------------------------------------------------

  /** A schedule of good answers without signals, of which there are at least n. */
  predicate Ready(script: seq<Answer>, n: nat) { Prompt(script) && Calm(script) && Supply(script) >= n }

  /** Writes succeed n times: either nothing is answered any more, or enough is. */
  predicate Willing(script: seq<Answer>, n: nat) { script == [] || Ready(script, n) }

  /** From one schedule and time to another, by at most n answers, in the time that they take. */
  ghost predicate Spent(script0: seq<Answer>, clock0: nat, script: seq<Answer>, clock: nat, n: nat) {
    && clock >= clock0 && |script| <= |script0|
    && clock + Delay(script) == clock0 + Delay(script0)
    && (script0 == [] ==> script == [])
    && (Ready(script0, 0) ==> Ready(script, 0) && Supply(script) + n >= Supply(script0))
  }

  lemma SpentNothing(script: seq<Answer>, clock: nat)
    ensures Spent(script, clock, script, clock, 0)
  {
  }

  lemma SpentMore(script0: seq<Answer>, clock0: nat, script1: seq<Answer>, clock1: nat, n: nat,
                  script2: seq<Answer>, clock2: nat, k: nat)
    requires Spent(script0, clock0, script1, clock1, n) && Spent(script1, clock1, script2, clock2, k)
    ensures Spent(script0, clock0, script2, clock2, n + k)
  {
    hide Delay, Supply, Prompt, Calm;
  }

  lemma StillWilling(script0: seq<Answer>, clock0: nat, script: seq<Answer>, clock: nat, n: nat, k: nat)
    requires Spent(script0, clock0, script, clock, n) && Willing(script0, n + k)
    ensures Willing(script, k)
  {
    hide Delay, Supply, Prompt, Calm;
  }

  /** `mext_simple_cmd`: a system message without payload. */
  method SimpleCmd(port: Port, cmd: byte) returns (ret: int)
    requires cmd < 16 && OutgoingLength(SS_SYSTEM, cmd) == 0
    modifies port`answers, port`clock, port`log, port`sent, port`lost
    ensures port.sent == old(port.sent) + (if ret == 1 then [cmd] else [])
    ensures port.log == old(port.log) + [Writes(old(port.clock), [cmd])]
    ensures Spent(old(port.answers), old(port.clock), port.answers, port.clock, 1)
    ensures Willing(old(port.answers), 1) ==> ret == 1
  {
    hide Delay, Supply, Prompt, Calm;
    ghost var script := port.answers;
    assert Wire(Msg(SS_SYSTEM, cmd, [])) == [cmd];
    ret := WriteMsg(port, Msg(SS_SYSTEM, cmd, []));
    if Ready(script, 0) {
      NextIsGoodOrNone(script);
    }
  }

  lemma NextIsGoodOrNone(script: seq<Answer>)
    requires Ready(script, 0)
    ensures script != [] ==>
      script[0].outcome == Fine && script[0].count > 0 && Ready(script[1..], 0) && Supply(script[1..]) + 1 == Supply(script)
    ensures Supply(script) > 0 ==> script != []
  {
  }

  /** Where a port was. */
  datatype From = From(log: seq<Call>, sent: seq<byte>, answers: seq<Answer>, clock: nat)

  /** Some queries were sent in a row from there, and all of them taken. */
  ghost predicate Asked(port: Port, from: From, cs: seq<Call>)
    reads port
  {
    && port.log == from.log + cs && port.sent == from.sent + Asks(cs)
    && OnlyWrites(cs) && (if cs == [] then port.clock == from.clock else cs[0].at == from.clock)
  }

  function Which(k: nat): Response { if k == 0 then NeedQuery else if k == 1 then NeedId else NeedGridSize }

  function QueryByte(n: Response): (cmd: byte)
    ensures cmd < 16 && OutgoingLength(SS_SYSTEM, cmd) == 0
  {
    match n
    case NeedQuery => CMD_SYSTEM_QUERY
    case NeedId => CMD_SYSTEM_GET_ID
    case NeedGridSize => CMD_SYSTEM_GET_GRIDSZ
  }

  /** The queries among the first k of the three. */
  function Part(need: set<Response>, k: nat): seq<byte> {
    if k == 0 then [] else Part(need, k - 1) + (if Which(k - 1) in need then [QueryByte(Which(k - 1))] else [])
  }

  lemma PartOf(need: set<Response>, k: nat)
    requires k <= 3
    ensures Part(need, k) <= Queries(need) && Part(need, 3) == Queries(need)
    ensures k < 3 && Which(k) in need ==> Part(need, k) + [QueryByte(Which(k))] <= Queries(need)
  {
    assert Part(need, 1) == Part(need, 0) + (if NeedQuery in need then [CMD_SYSTEM_QUERY] else []);
    assert Part(need, 2) == Part(need, 1) + (if NeedId in need then [CMD_SYSTEM_GET_ID] else []);
    assert Part(need, 3) == Part(need, 2) + (if NeedGridSize in need then [CMD_SYSTEM_GET_GRIDSZ] else []);
  }

  /** `mext_query_pending`: sends the queries for what is needed, up to the first that cannot be sent. */
  method QueryPending(m: Mext) returns (ret: int, ghost cs: seq<Call>)
    modifies m.port`answers, m.port`clock, m.port`log, m.port`sent, m.port`lost
    ensures ret == 0 || ret == -1
    ensures m.port.log == old(m.port.log) + cs && Sending(cs, m.need, old(m.port.clock), ret == 0)
    ensures ret == 0 ==> m.port.sent == old(m.port.sent) + Asks(cs)
    ensures ret != 0 ==> Asks(cs) != [] && m.port.sent == old(m.port.sent) + Asks(cs)[..|Asks(cs)| - 1]
    ensures Spent(old(m.port.answers), old(m.port.clock), m.port.answers, m.port.clock, 3)
    ensures Willing(old(m.port.answers), 3) ==> ret == 0
  {
    hide Spent, Willing, Asks, Asked, Part, Queries, Which;
    ghost var from := From(m.port.log, m.port.sent, m.port.answers, m.port.clock);
    cs := [];
    AskedNothing(m.port, m.need);
    SpentNothing(from.answers, from.clock);
    var ok;
    ok, cs := AskFor(m, 0, from, cs);
    if !ok {
      PartOf(m.need, 0);
      SpentAtMost(from.answers, from.clock, m.port.answers, m.port.clock, 1, 3);
      return -1, cs;
    }
    ok, cs := AskFor(m, 1, from, cs);
    if !ok {
      PartOf(m.need, 1);
      SpentAtMost(from.answers, from.clock, m.port.answers, m.port.clock, 2, 3);
      return -1, cs;
    }
    ok, cs := AskFor(m, 2, from, cs);
    if !ok {
      PartOf(m.need, 2);
      return -1, cs;
    }
    PartOf(m.need, 3);
    AskedAll(m.port, from, cs);
    ret := 0;
  }

  /** Sends the k-th query, if it is for something needed. */
  method AskFor(m: Mext, k: nat, ghost from: From, ghost cs: seq<Call>) returns (ok: bool, ghost cs': seq<Call>)
    requires k < 3 && Asked(m.port, from, cs) && Asks(cs) == Part(m.need, k)
    requires Spent(from.answers, from.clock, m.port.answers, m.port.clock, k)
    modifies m.port`answers, m.port`clock, m.port`log, m.port`sent, m.port`lost
    ensures ok ==> Asked(m.port, from, cs') && Asks(cs') == Part(m.need, k + 1)
    ensures !ok ==>
      && m.port.log == from.log + cs' && OnlyWrites(cs') && cs' != [] && cs'[0].at == from.clock
      && Which(k) in m.need && Asks(cs') == Part(m.need, k) + [QueryByte(Which(k))]
      && m.port.sent == from.sent + Part(m.need, k)
    ensures Spent(from.answers, from.clock, m.port.answers, m.port.clock, k + 1)
    ensures Willing(from.answers, 3) ==> ok
  {
    hide Spent, Willing, Asks, Which;
    cs' := cs;
    ok := true;
    if Which(k) in m.need {
      ghost var script, clock := m.port.answers, m.port.clock;
      var ret := SimpleCmd(m.port, QueryByte(Which(k)));
      ok := ret == 1;
      cs' := cs + [Writes(clock, [QueryByte(Which(k))])];
      AsksSnoc(cs, Writes(clock, [QueryByte(Which(k))]));
      SpentMore(from.answers, from.clock, script, clock, k, m.port.answers, m.port.clock, 1);
      if Willing(from.answers, 3) {
        WillingLess(from.answers, 3, k + 1);
        StillWilling(from.answers, from.clock, script, clock, k, 1);
      }
    } else {
      SpentAtMost(from.answers, from.clock, m.port.answers, m.port.clock, k, k + 1);
    }
  }

  lemma AskedNothing(port: Port, need: set<Response>)
    ensures Asked(port, From(port.log, port.sent, port.answers, port.clock), [])
    ensures Asks([]) == Part(need, 0) == []
  {
  }

  lemma AskedAll(port: Port, from: From, cs: seq<Call>)
    requires Asked(port, from, cs)
    ensures port.log == from.log + cs && port.sent == from.sent + Asks(cs)
    ensures OnlyWrites(cs) && (cs != [] ==> cs[0].at == from.clock)
  {
  }

  lemma SpentAtMost(script0: seq<Answer>, clock0: nat, script: seq<Answer>, clock: nat, n: nat, k: nat)
    requires Spent(script0, clock0, script, clock, n) && n <= k
    ensures Spent(script0, clock0, script, clock, k)
  {
  }

  lemma WillingLess(script: seq<Answer>, n: nat, k: nat)
    requires Willing(script, n) && k <= n
    ensures Willing(script, k)
  {
  }

  lemma AsksSnoc(cs: seq<Call>, c: Call)
    ensures Asks(cs + [c]) == Asks(cs) + (if c.Writes? then c.data else [])
  {
    assert (cs + [c])[..|cs|] == cs;
  }

  // ---- a device that responds ---------------------------------------------

  /** Where a port is: the answers to come, the time, and the bytes to be read. */
  datatype Here = Here(answers: seq<Answer>, clock: nat, input: seq<byte>)

  /**
   * The messages that are to be read clear all that is needed, and a calm schedule has answers
   * enough, and time enough before the deadline, to read them, wait for each, and retry.
   */
  ghost predicate Responding(start: nat, h: Here, st: State, retried: bool) {
    && Ready(h.answers, if h.input == [] then 0 else 3 * |h.input| + (if retried then 0 else 3))
    && h.clock + Delay(h.answers) < start + HANDSHAKE_TIMEOUT
    && Whole(h.input) && MextStream.Poll(st, h.input).st.need == {}
  }

  lemma RespondingSent(start: nat, h: Here, h1: Here, st: State)
    requires Responding(start, h, st, false) && Spent(h.answers, h.clock, h1.answers, h1.clock, 3) && h1.input == h.input
    ensures Responding(start, h1, st, true)
  {
    hide Delay, Supply, Prompt, Calm, Whole, MextStream.Poll;
  }

  lemma RespondingWaits(start: nat, h: Here, st: State, retried: bool)
    requires Responding(start, h, st, retried) && h.input != []
    ensures h.answers != [] && Uninterrupted(h.answers) == h.answers && h.answers[0].outcome == Fine
    ensures Delay(h.answers) == h.answers[0].delay + Delay(h.answers[1..])
    ensures !retried ==> Willing(h.answers, 3)
    ensures Unhurried(h.answers[1..], h.input)
  {
    hide Whole, MextStream.Poll;
    NextIsGood(h.answers);
  }

  lemma RespondingEnds(start: nat, h: Here, st: State, retried: bool)
    requires Responding(start, h, st, retried) && st.need != {}
    ensures h.input != [] && h.clock < start + HANDSHAKE_TIMEOUT
  {
    hide Whole;
    if h.input == [] {
      PumpStops(st, Blank(), []);
    }
  }

  lemma RespondingReads(start: nat, h: Here, now: Here, st: State, retried: bool)
    requires Responding(start, h, st, retried) && h.input != [] && h.answers != [] && Unhurried(h.answers[1..], h.input)
    requires var c := Calling(st, Blank(), h.answers[1..], h.input);
      && now.answers == c.script && now.input == h.input[c.taken..]
      && (c.ret >= 0 ==> now.clock + Delay(now.answers) == h.clock + Delay(h.answers))
    ensures var c := Calling(st, Blank(), h.answers[1..], h.input);
      c.ret >= 0 && Responding(start, now, c.st, retried)
  {
    hide Pump, Prompt, Calling, Whole, Delay, Blank;
    NextIsGoodOrNone(h.answers);
    UnhurriedCall(st, Blank(), h.answers[1..], h.input);
    MextStream.PumpShrinks(st, Blank(), h.input);
    MextStream.PumpReachesEnd(st, Blank(), h.answers[1..], h.input);
    var c := Calling(st, Blank(), h.answers[1..], h.input);
    if c.event.None? {
      PumpStops(c.st, Blank(), []);
    }
  }

  // ---- the loop -----------------------------------------------------------

  /**
   * The wait, and the handling of what it brings: a call of `mext_next_event` under the schedule that
   * the wait left, if there is something to read.
   */
  method WaitAndRead(m: Mext, wait: nat, ghost start: nat, ghost retried: bool)
    returns (failure: Option<Ending>, ghost status: int, ghost fetches: seq<Call>, ghost took: seq<byte>)
    requires wait > 0
    modifies m`rows, m`cols, m`need, m`id, m`friendly
    modifies m.port`answers, m.port`clock, m.port`log, m.port`input
    ensures m.port.log == old(m.port.log) + [Waits(old(m.port.clock), wait, status)] + fetches && ReadTrace(fetches)
    ensures old(m.port.input) == took + m.port.input && m.need == Unheard(old(m.need), took)
    ensures m.St() == After(old(m.St()), took)
    ensures (fetches != [] <==> status == 0) && (fetches == [] ==> took == [])
    ensures failure.None? || failure.value in {WaitFailed, ReadFailed}
    ensures failure == Some(WaitFailed) <==> status < 0
    ensures failure == Some(ReadFailed) <==> LastBroken(fetches) || !Whole(took)
    ensures status == 0 ==>
      var s := Uninterrupted(old(m.port.answers));
      && s != [] && |took| == Calling(old(m.St()), Blank(), s[1..], old(m.port.input)).taken
      && m.port.answers == Calling(old(m.St()), Blank(), s[1..], old(m.port.input)).script
    ensures m.port.clock >= old(m.port.clock) && |m.port.answers| <= |old(m.port.answers)|
    ensures failure.None? && |m.port.answers| == |old(m.port.answers)| ==> m.port.clock > old(m.port.clock)
    ensures old(m.port.answers) == [] ==>
      failure.None? && m.port.answers == [] && took == [] && m.port.clock == old(m.port.clock) + wait
    ensures old(m.port.input) != []
            && Responding(start, Here(old(m.port.answers), old(m.port.clock), old(m.port.input)), old(m.St()), retried) ==>
      failure.None? && Responding(start, Here(m.port.answers, m.port.clock, m.port.input), m.St(), retried)
  {
    hide Pump, Blank, Calling, Responding, Unhurried, OnlyReads, LastBroken, Delay, Unheard, Whole, After;
    ghost var h, st := Here(m.port.answers, m.port.clock, m.port.input), m.St();
    ghost var responding := h.input != [] && Responding(start, h, st, retried);
    if responding {
      RespondingWaits(start, h, st, retried);
    }
    DelayNothing();
    HeardNothing(st.need);
    AfterNothing(st);
    NothingRead();
    var ready := m.port.WaitForInput(wait);
    status := ready;
    failure := None;
    fetches, took := [], [];
    if ready < 0 {
      failure := Some(WaitFailed);
    } else if ready == 0 {
      ghost var answers, log1 := m.port.answers, m.port.log;
      var read, e;
      ghost var taken, torn;
      read, e, taken, torn := m.NextEvent();
      CallClears(st, answers, h.input);
      CallLearns(st, answers, h.input);
      took := h.input[..taken];
      FetchesAre(log1, m.port.log);
      fetches := m.port.log[|log1|..];
      LastIsLast(log1, m.port.log);
      if read < 0 {
        failure := Some(ReadFailed);
      }
      if responding {
        RespondingReads(start, h, Here(m.port.answers, m.port.clock, m.port.input), st, retried);
      }
    }
  }

  lemma NothingRead()
    ensures Whole([]) && !LastBroken([])
  {
  }

  lemma LastIsLast(was: seq<Call>, log: seq<Call>)
    requires |was| < |log|
    ensures LastBroken(log[|was|..]) <==> LastBroken(log)
  {
  }

  lemma DelayStep(script: seq<Answer>)
    ensures script != [] ==> Delay(script) == script[0].delay + Delay(script[1..])
  {
  }

  lemma DelayNothing()
    ensures Delay([]) == 0
  {
  }

  /** The body of the loop in `mext_open` from the retry on, at time now. */
  method OneTurn(m: Mext, ghost start: nat, deadline: nat, retryAt: nat, retried: bool, now: nat)
    returns (failure: Option<Ending>, ghost t: Turn)
    requires deadline == start + HANDSHAKE_TIMEOUT && retryAt == start + HANDSHAKE_RETRY
    requires now == m.port.clock < deadline && m.need != {}
    modifies m`rows, m`cols, m`need, m`id, m`friendly
    modifies m.port`answers, m.port`clock, m.port`log, m.port`sent, m.port`lost, m.port`input
    ensures m.port.log == old(m.port.log) + t.sends + t.waits + t.fetches
    ensures t.now == now && t.end == m.port.clock && t.need == old(m.need)
    ensures Step(start, now, old(m.need), retried, t)
    ensures failure.Some? ==> failure.value in {WriteFailed, WaitFailed, ReadFailed}
    ensures failure == Some(WriteFailed) <==> t.waits == []
    ensures failure == Some(WaitFailed) <==> t.waits != [] && t.waits[0].status < 0
    ensures failure == Some(ReadFailed) <==> ReadFailedIn(t)
    ensures old(m.port.input) == t.took + m.port.input && m.need == Unheard(t.need, t.took)
    ensures m.St() == After(old(m.St()), t.took)
    ensures t.waits != [] ==> m.port.sent == old(m.port.sent) + Asks(t.sends)
    ensures t.waits == [] ==>
      Asks(t.sends) != [] && m.port.sent == old(m.port.sent) + Asks(t.sends)[..|Asks(t.sends)| - 1]
    ensures failure.None? ==>
      |m.port.answers| < |old(m.port.answers)|
      || (|m.port.answers| == |old(m.port.answers)| && m.port.clock > old(m.port.clock))
    ensures old(m.port.answers) == [] ==>
      failure.None? && m.port.answers == [] && m.need == old(m.need) && t.end == t.now + t.waits[0].msec
    ensures Responding(start, Here(old(m.port.answers), old(m.port.clock), old(m.port.input)), old(m.St()), retried) ==>
      && failure.None?
      && Responding(start, Here(m.port.answers, m.port.clock, m.port.input), m.St(), retried || t.sends != [])
  {
    hide Queries, Asks, Spent, Willing, Responding, Unheard, Whole, LastBroken, Calling, After;
    HeardNothing(m.need);
    AfterNothing(m.St());
    NothingRead();
    ghost var h, need := Here(m.port.answers, m.port.clock, m.port.input), m.need;
    ghost var responding := Responding(start, h, m.St(), retried);
    if responding {
      RespondingEnds(start, h, m.St(), retried);
      RespondingWaits(start, h, m.St(), retried);
    }
    WillingNever(h.answers, 3);
    ghost var sends: seq<Call> := [];
    AskedNothing(m.port, m.need);
    var retried' := retried;
    if !retried && now >= retryAt {
      var status;
      status, sends := QueryPending(m);
      SpentBounds(h.answers, h.clock, m.port.answers, m.port.clock, 3);
      if status < 0 {
        t := Turn(now, need, sends, [], [], [], m.port.clock);
        return Some(WriteFailed), t;
      }
      QueriesSome(need);
      retried' := true;
      if responding {
        RespondingSent(start, h, Here(m.port.answers, m.port.clock, m.port.input), m.St());
      }
    }
    var wait := HANDSHAKE_WAIT_SLICE;
    if deadline - now < wait {
      wait := deadline - now;
    }
    if !retried' && retryAt > now && retryAt - now < wait {
      wait := retryAt - now;
    }
    ghost var at, result, fetches, took := m.port.clock, 0, [], [];
    failure, result, fetches, took := WaitAndRead(m, wait, start, retried');
    t := Turn(now, need, sends, [Waits(at, wait, result)], fetches, took, m.port.clock);
  }

  lemma WillingNever(script: seq<Answer>, n: nat)
    ensures script == [] ==> Willing(script, n)
  {
  }

  lemma SpentBounds(script0: seq<Answer>, clock0: nat, script: seq<Answer>, clock: nat, n: nat)
    requires Spent(script0, clock0, script, clock, n)
    ensures clock >= clock0 && |script| <= |script0|
    ensures script0 == [] ==> script == [] && clock == clock0
  {
  }

  lemma QueriesSome(need: set<Response>)
    requires need != {}
    ensures Queries(need) != []
  {
    var n :| n in need;
    match n case NeedQuery => case NeedId => case NeedGridSize =>
  }

  lemma FetchesAre(was: seq<Call>, log: seq<Call>)
    requires OnlyReads(was, log) || was == log
    ensures was <= log && log == was + log[|was|..] && ReadTrace(log[|was|..])
  {
  }

  // ---- the record grows ---------------------------------------------------

  lemma NoTurns(start: nat, need: set<Response>, entered: nat)
    ensures Steps(start, need, entered, []) && Waited([]) && CallsOf([]) == [] && !Retried([]) && Asks([]) == []
    ensures TookOf([]) == [] && Pending(need, []) == need
  {
  }

  lemma MoreTurns(start: nat, need: set<Response>, entered: nat, turns: seq<Turn>, t: Turn)
    requires Steps(start, need, entered, turns) && Waited(turns)
    requires Step(start, Head(entered, turns), Pending(need, turns), Retried(turns), t)
    ensures Steps(start, need, entered, turns + [t])
    ensures Retried(turns + [t]) <==> Retried(turns) || t.now >= start + HANDSHAKE_RETRY
    ensures t.sends != [] <==> !Retried(turns) && t.now >= start + HANDSHAKE_RETRY
    ensures Waited(turns + [t]) <==> t.waits != [] && !WaitFailedIn(t) && !ReadFailedIn(t)
    ensures Pending(need, turns + [t]) == Unheard(t.need, t.took) && TookOf(turns + [t]) == TookOf(turns) + t.took
    ensures t.waits != [] ==> t.waits[0].Waits?
    ensures CallsOf(turns + [t]) == CallsOf(turns) + Calls(t)
    ensures Asks(CallsOf(turns + [t])) == Asks(CallsOf(turns)) + Asks(t.sends)
  {
    hide Asks, Sending;
    assert (turns + [t])[..|turns|] == turns;
    SendsIff(start, Head(entered, turns), Pending(need, turns), Retried(turns), t);
    AsksConcat(CallsOf(turns), Calls(t));
    AsksTurn(start, Head(entered, turns), Pending(need, turns), Retried(turns), t);
  }

  /** A turn sends something exactly when it is time for the retry. */
  lemma SendsIff(start: nat, head: nat, need: set<Response>, retried: bool, t: Turn)
    requires Step(start, head, need, retried, t)
    ensures t.sends != [] <==> !retried && t.now >= start + HANDSHAKE_RETRY
  {
    hide Queries;
    QueriesSome(t.need);
  }

  lemma {:induction false} AsksConcat(cs: seq<Call>, ds: seq<Call>)
    ensures Asks(cs + ds) == Asks(cs) + Asks(ds)
  {
    if ds == [] {
      assert cs + ds == cs;
    } else {
      var n := |ds| - 1;
      assert (cs + ds)[..|cs + ds| - 1] == cs + ds[..n];
      AsksConcat(cs, ds[..n]);
    }
  }

  lemma {:induction false} AsksNone(cs: seq<Call>)
    requires forall i :: 0 <= i < |cs| ==> !cs[i].Writes?
    ensures Asks(cs) == []
  {
    if cs != [] {
      AsksNone(cs[..|cs| - 1]);
    }
  }

  /** Only its queries are written in a turn. */
  lemma AsksTurn(start: nat, head: nat, need: set<Response>, retried: bool, t: Turn)
    requires Step(start, head, need, retried, t)
    ensures Asks(Calls(t)) == Asks(t.sends)
  {
    hide Sending, Asks;
    var told := [Tells(t.now)];
    forall i | 0 <= i < |t.fetches|
      ensures !t.fetches[i].Writes?
    {
      assert OfRead(t.fetches, i);
    }
    AsksNone(told);
    AsksNone(t.waits);
    AsksNone(t.fetches);
    AsksConcat(told, t.sends);
    AsksConcat(told + t.sends, t.waits);
    AsksConcat(told + t.sends + t.waits, t.fetches);
  }

  /** What a run that was opened asked to be written. */
  lemma AsksOfRun(r: Run)
    requires r.ending != NotOpened
    ensures Asks(LogOf(r)) == Asks(r.first) + Asks(CallsOf(r.turns))
  {
    hide Asks, CallsOf;
    var told, last := [Tells(r.start)], if r.ending == TimedOut then [Tells(r.ended)] else [];
    AsksNone(told);
    AsksNone(last);
    AsksConcat(told, r.first);
    AsksConcat(told + r.first, CallsOf(r.turns));
    AsksConcat(told + r.first + CallsOf(r.turns), last);
  }

  lemma NeverOpened(now: nat, need: set<Response>)
    ensures var r := Run(now, need, [], now, [], NotOpened, now);
      Legal(r) && LogOf(r) == [] && Accepted(r) == []
  {
  }

  /** The first queries could not all be sent. */
  lemma EndsAtOnce(r: Run)
    requires r.ending == WriteFailed && r.turns == [] && r.start <= r.entered == r.ended
    requires Sending(r.first, r.need, r.start, false) && Asks(r.first) != []
    ensures Legal(r) && LogOf(r) == [Tells(r.start)] + r.first
    ensures Accepted(r) == Asks(r.first)[..|Asks(r.first)| - 1]
  {
    hide Asks;
    AsksOfRun(r);
    NoTurns(r.start, r.need, r.entered);
  }

  /** The loop ended at its head. */
  lemma EndsAtHead(r: Run)
    requires r.start <= r.entered && r.ended == Head(r.entered, r.turns)
    requires Sending(r.first, r.need, r.start, true) && Steps(r.start, r.need, r.entered, r.turns) && Waited(r.turns)
    requires r.ending == Cleared || (r.ending == TimedOut && r.ended >= r.start + HANDSHAKE_TIMEOUT)
    ensures Legal(r) && Accepted(r) == Asks(r.first) + Asks(CallsOf(r.turns))
  {
    hide Asks, Sending, Steps;
    AsksOfRun(r);
  }

  /** The loop ended in its last turn. */
  lemma EndsInTurn(r: Run, turns: seq<Turn>, t: Turn)
    requires r.turns == turns + [t] && r.start <= r.entered && r.ended == t.end
    requires Sending(r.first, r.need, r.start, true) && Steps(r.start, r.need, r.entered, r.turns)
    requires r.ending in {WriteFailed, WaitFailed, ReadFailed} && (r.ending == WriteFailed <==> t.waits == [])
    requires r.ending == WaitFailed <==> WaitFailedIn(t)
    requires r.ending == ReadFailed <==> ReadFailedIn(t)
    requires Asks(CallsOf(r.turns)) == Asks(CallsOf(turns)) + Asks(t.sends) && (t.waits == [] ==> Asks(t.sends) != [])
    ensures Legal(r)
    ensures Accepted(r) == Asks(r.first) + Asks(CallsOf(turns))
                           + if t.waits == [] then Asks(t.sends)[..|Asks(t.sends)| - 1] else Asks(t.sends)
  {
    hide Asks, Sending, Steps;
    AsksOfRun(r);
  }

  // ---- a device that never answers ----------------------------------------

  /** Every turn took exactly as long as the wait it asked for. */
  ghost predicate Punctual(turns: seq<Turn>) {
    forall i :: 0 <= i < |turns| ==> turns[i].waits != [] && turns[i].waits[0].Waits? && turns[i].end == turns[i].now + turns[i].waits[0].msec
  }

  /** If nothing was going to answer, nothing has changed but the clock, exactly as planned. */
  ghost predicate Silent(script: seq<Answer>, answers: seq<Answer>, need0: set<Response>, need: set<Response>, turns: seq<Turn>) {
    script == [] ==> answers == [] && need == need0 && Punctual(turns)
  }

  lemma SilentAtOnce(script: seq<Answer>, need0: set<Response>)
    ensures Silent(script, script, need0, need0, [])
  {
  }

  lemma SilentNext(script: seq<Answer>, answers: seq<Answer>, answers': seq<Answer>, need0: set<Response>, need: set<Response>,
                   need': set<Response>, turns: seq<Turn>, t: Turn)
    requires Silent(script, answers, need0, need, turns) && t.waits != [] && t.waits[0].Waits?
    requires answers == [] ==> answers' == [] && need' == need && t.end == t.now + t.waits[0].msec
    ensures Silent(script, answers', need0, need', turns + [t])
  {
  }

  /** A device that never answers is waited for, exactly as planned, until the deadline. */
  ghost predicate Unanswered(script: seq<Answer>, r: Run) {
    script == [] ==> Punctual(r.turns) && r.ending == (if r.need == {} then Cleared else TimedOut)
  }

  lemma Answered(script: seq<Answer>, r: Run)
    requires script != []
    ensures Unanswered(script, r)
  {
  }

  lemma UnansweredLater(script: seq<Answer>, answers: seq<Answer>, r: Run)
    requires Unanswered(answers, r) && (script == [] ==> answers == [])
    ensures Unanswered(script, r)
  {
  }

  lemma SilentFails(script: seq<Answer>, answers: seq<Answer>, need0: set<Response>, need: set<Response>, turns: seq<Turn>, r: Run)
    requires Silent(script, answers, need0, need, turns) && answers != []
    ensures Unanswered(script, r)
  {
  }

  lemma SilentEnds(script: seq<Answer>, answers: seq<Answer>, need: set<Response>, r: Run)
    requires Silent(script, answers, r.need, need, r.turns) && r.ending == if need == {} then Cleared else TimedOut
    ensures Unanswered(script, r)
  {
  }

  // ---- mext_open ----------------------------------------------------------

  /** The loop of `mext_open`, entered after the first queries were sent. */
  method Await(m: Mext, start: nat, ghost log0: seq<Call>, ghost was: seq<byte>, ghost first: seq<Call>)
    returns (ending: Ending, ghost r: Run)
    requires start <= m.port.clock && Sending(first, m.need, start, true)
    requires m.port.log == log0 + [Tells(start)] + first && m.port.sent == was + Asks(first)
    modifies m`rows, m`cols, m`need, m`id, m`friendly
    modifies m.port`answers, m.port`clock, m.port`log, m.port`sent, m.port`lost, m.port`input
    ensures Legal(r) && r.ending == ending != NotOpened
    ensures m.port.log == log0 + LogOf(r) && m.port.sent == was + Accepted(r)
    ensures r.start == start && r.need == old(m.need) && r.first == first
    ensures r.entered == old(m.port.clock) && r.ended == m.port.clock
    ensures ending == Cleared ==> m.need == {}
    ensures ending == TimedOut ==> m.need != {}
    ensures old(m.port.input) == TookOf(r.turns) + m.port.input && m.need == Pending(r.need, r.turns)
    ensures m.St() == After(old(m.St()), TookOf(r.turns))
    ensures Unanswered(old(m.port.answers), r)
    ensures Responding(start, Here(old(m.port.answers), old(m.port.clock), old(m.port.input)), old(m.St()), false) ==>
      ending == Cleared
  {
    hide Asks, Sending, Step, Steps, Calls, CallsOf, TookOf, LogOf, Pending, Retried, Waited, ReadFailedIn, Silent, Unanswered, Responding, Legal, Accepted, Unheard, After;
    ghost var need0, script, entered, turns: seq<Turn> := m.need, m.port.answers, m.port.clock, [];
    ghost var log1, sent1, input, st0 := m.port.log, m.port.sent, m.port.input, m.St();
    AfterNothing(st0);
    var deadline, retryAt := start + HANDSHAKE_TIMEOUT, start + HANDSHAKE_RETRY;
    var retried := false;
    ghost var responding := Responding(start, Here(m.port.answers, m.port.clock, m.port.input), m.St(), false);
    NoTurns(start, need0, entered);
    assert log1 + [] == log1 && sent1 + [] == sent1;
    SilentAtOnce(script, need0);
    while m.need != {}
      invariant Steps(start, need0, entered, turns) && Waited(turns)
      invariant m.port.clock == Head(entered, turns) && (retried <==> Retried(turns))
      invariant m.need == Pending(need0, turns) && input == TookOf(turns) + m.port.input
      invariant m.St() == After(st0, TookOf(turns))
      invariant m.port.log == log1 + CallsOf(turns)
      invariant m.port.sent == sent1 + Asks(CallsOf(turns))
      invariant Silent(script, m.port.answers, need0, m.need, turns)
      invariant responding ==> Responding(start, Here(m.port.answers, m.port.clock, m.port.input), m.St(), retried)
      decreases |m.port.answers|, deadline - m.port.clock
    {
      if responding {
        RespondingEnds(start, Here(m.port.answers, m.port.clock, m.port.input), m.St(), retried);
      }
      var now := m.port.Monotonic();
      if now >= deadline {
        ending := TimedOut;
        r := Run(start, need0, first, entered, turns, ending, now);
        EndsAtHead(r);
        LoggedAtHead(log0, was, r);
        SilentEnds(script, m.port.answers, m.need, r);
        return;
      }
      ghost var answers, need, t := m.port.answers, m.need, Turn(0, {}, [], [], [], [], 0);
      var failure;
      failure, t := OneTurn(m, start, deadline, retryAt, retried, now);
      ghost var left := m.port.input;
      MoreTurns(start, need0, entered, turns, t);
      TookMore(turns, t, left);
      LearnedMore(start, need0, entered, turns, st0, t.took);
      LoggedMore(log1, sent1, turns, t);
      if failure.Some? {
        ending := failure.value;
        r := Run(start, need0, first, entered, turns + [t], ending, t.end);
        EndsInTurn(r, turns, t);
        LoggedInTurn(log0, was, r, turns, t);
        SilentFails(script, answers, need0, need, turns, r);
        return;
      }
      SilentNext(script, answers, m.port.answers, need0, need, m.need, turns, t);
      retried := retried || now >= retryAt;
      turns := turns + [t];
    }
    ending := Cleared;
    r := Run(start, need0, first, entered, turns, ending, m.port.clock);
    EndsAtHead(r);
    LoggedAtHead(log0, was, r);
    SilentEnds(script, m.port.answers, m.need, r);
  }

  lemma LearnedMore(start: nat, need: set<Response>, entered: nat, turns: seq<Turn>, st: State, took: seq<byte>)
    requires Steps(start, need, entered, turns) && Waited(turns)
    ensures After(st, TookOf(turns) + took) == After(After(st, TookOf(turns)), took)
  {
    hide Steps, Waited, TookOf, After, Whole;
    PendingIsUnheard(start, need, entered, turns);
    AfterMore(st, TookOf(turns), took);
  }

  lemma TookMore(turns: seq<Turn>, t: Turn, left: seq<byte>)
    ensures TookOf(turns) + (t.took + left) == (TookOf(turns) + t.took) + left
  {
    hide TookOf;
  }

  lemma LoggedMore(log: seq<Call>, sent: seq<byte>, turns: seq<Turn>, t: Turn)
    ensures log + CallsOf(turns) + [Tells(t.now)] + t.sends + t.waits + t.fetches == log + (CallsOf(turns) + Calls(t))
    ensures forall s: seq<byte> :: sent + Asks(CallsOf(turns)) + s == sent + (Asks(CallsOf(turns)) + s)
  {
    hide Asks, CallsOf;
    var cs := CallsOf(turns);
    assert cs + Calls(t) == cs + [Tells(t.now)] + t.sends + t.waits + t.fetches;
    forall s: seq<byte>
      ensures sent + Asks(cs) + s == sent + (Asks(cs) + s)
    {
    }
  }

  lemma LoggedAtHead(log: seq<Call>, was: seq<byte>, r: Run)
    requires r.ending == Cleared || r.ending == TimedOut
    ensures var l := log + [Tells(r.start)] + r.first + CallsOf(r.turns);
      log + LogOf(r) == if r.ending == TimedOut then l + [Tells(r.ended)] else l
    ensures was + (Asks(r.first) + Asks(CallsOf(r.turns))) == was + Asks(r.first) + Asks(CallsOf(r.turns))
  {
    hide Asks, CallsOf;
  }

  lemma LoggedInTurn(log: seq<Call>, was: seq<byte>, r: Run, turns: seq<Turn>, t: Turn)
    requires r.turns == turns + [t] && r.ending in {WriteFailed, WaitFailed, ReadFailed}
    requires CallsOf(r.turns) == CallsOf(turns) + Calls(t)
    requires t.waits == [] ==> Asks(t.sends) != []
    requires Accepted(r) == Asks(r.first) + Asks(CallsOf(turns))
                            + if t.waits == [] then Asks(t.sends)[..|Asks(t.sends)| - 1] else Asks(t.sends)
    ensures log + LogOf(r) == log + [Tells(r.start)] + r.first + (CallsOf(turns) + Calls(t))
    ensures was + Accepted(r) == was + Asks(r.first) + Asks(CallsOf(turns))
                                 + if t.waits == [] then Asks(t.sends)[..|Asks(t.sends)| - 1] else Asks(t.sends)
  {
    hide Asks, CallsOf, Calls, Accepted;
  }

  /** The responses come in time, from a port whose schedule has an answer more for opening it. */
  ghost predicate Responds(script: seq<Answer>, input: seq<byte>, st: State) {
    && Ready(script, 3 * |input| + 7) && Delay(script) < HANDSHAKE_TIMEOUT
    && Whole(input) && MextStream.Poll(st, input).st.need == {}
  }

  lemma RespondsOpened(script: seq<Answer>, input: seq<byte>, st: State)
    requires Responds(script, input, st)
    ensures script != [] && script[0].outcome == Fine && Delay(script[1..]) < HANDSHAKE_TIMEOUT
    ensures Willing(script[1..], 3) && Ready(script[1..], 3 * |input| + 6)
  {
    hide Whole, MextStream.Poll;
    NextIsGood(script);
  }

  lemma RespondsQueried(start: nat, script: seq<Answer>, input: seq<byte>, st: State, h: Here)
    requires Responds(script, input, st) && h.input == input
    requires Spent(script[1..], start, h.answers, h.clock, 3)
    ensures Responding(start, h, st, false)
  {
    hide Whole, Prompt, Calm, Supply, MextStream.Poll;
    RespondsOpened(script, input, st);
  }

  /**
   * `mext_open`. The log of the port is that of a legal run, so that what is proved of legal runs is
   * proved of what the port was asked; the device is sent what the log asked to be written, but for
   * a query that failed.
   */
  method Open(m: Mext, mapFriendly: seq<byte>) returns (ret: int, ghost r: Run)
    modifies m`rows, m`cols, m`need, m`id, m`friendly
    modifies m.port`answers, m.port`clock, m.port`log, m.port`sent, m.port`lost, m.port`input, m.port`opens, m.port`closes
    ensures ret == 0 || ret == -1
    ensures Legal(r) && r.need == old(m.need) && r.ended == m.port.clock
    ensures m.port.log == old(m.port.log) + LogOf(r)
    ensures m.port.sent == old(m.port.sent) + Accepted(r)
    ensures ret == 0 <==> r.ending == Cleared
    ensures r.ending == Cleared ==> m.need == {}
    ensures r.ending == TimedOut ==> m.need != {}
    ensures old(m.port.input) == TookOf(r.turns) + m.port.input && m.need == Unheard(old(m.need), TookOf(r.turns))
    ensures m.St() == if r.ending == NotOpened then old(m.St())
                      else After(old(m.St()).(friendly := mapFriendly), TookOf(r.turns))
    ensures r.ending != NotOpened ==> forall ms :: MextStream.AllWellFormed(ms) && MextStream.EncodeAll(ms) == TookOf(r.turns) ==>
      m.St() == MextStream.StateAfter(old(m.St()).(friendly := mapFriendly), ms)
    ensures ret == 0 ==> forall n :: n in old(m.need) ==> Heard(TookOf(r.turns), n)
    ensures m.port.opens == old(m.port.opens) + (if r.ending == NotOpened then 0 else 1)
    ensures m.port.closes == old(m.port.closes) + (if r.ending == NotOpened || r.ending == Cleared then 0 else 1)
    ensures r.ending == NotOpened <==> old(m.port.answers) != [] && old(m.port.answers)[0].outcome != Fine
    ensures r.start == old(m.port.clock) + if old(m.port.answers) == [] then 0 else old(m.port.answers)[0].delay
    ensures Unanswered(old(m.port.answers), r)
    ensures old(m.port.answers) == [] ==> r.entered == r.start
    ensures Responds(old(m.port.answers), old(m.port.input), old(m.St()).(friendly := mapFriendly)) ==> ret == 0
  {
    hide Queries, Asks, Legal, Accepted, Unanswered, Responding, Responds, Spent, Willing, Delay, LogOf, TookOf, Pending, Unheard, After, MextStream.StateAfter, MextStream.EncodeAll;
    TakenMeans(m.St().(friendly := mapFriendly));
    AfterNothing(m.St().(friendly := mapFriendly));
    NoTurns(m.port.clock, m.need, m.port.clock);
    HeardNothing(m.need);
    assert [] + m.port.input == m.port.input;
    ghost var log0, was, need0, script, st := m.port.log, m.port.sent, m.need, m.port.answers, m.St().(friendly := mapFriendly);
    ghost var responds := Responds(script, m.port.input, st);
    if responds {
      RespondsOpened(script, m.port.input, st);
    }
    DelayStep(script);
    DelayNothing();
    var failed := m.port.Open();
    if failed != 0 {
      r := Run(m.port.clock, need0, [], m.port.clock, [], NotOpened, m.port.clock);
      NeverOpened(m.port.clock, need0);
      Answered(script, r);
      return -1, r;
    }
    m.friendly := mapFriendly;
    var start := m.port.Monotonic();
    ghost var answers, first := m.port.answers, [];
    WillingNever(answers, 3);
    var status;
    status, first := QueryPending(m);
    SpentBounds(answers, start, m.port.answers, m.port.clock, 3);
    if status < 0 {
      m.port.Close();
      r := Run(start, need0, first, m.port.clock, [], WriteFailed, m.port.clock);
      EndsAtOnce(r);
      Answered(script, r);
      return -1, r;
    }
    if responds {
      RespondsQueried(start, script, m.port.input, st, Here(m.port.answers, m.port.clock, m.port.input));
    }
    answers := m.port.answers;
    var ending;
    ending, r := Await(m, start, log0, was, first);
    UnansweredLater(script, answers, r);
    NeedIsUnheard(r);
    if ending != Cleared {
      m.port.Close();
      return -1, r;
    }
    ret := 0;
  }

  // ---- facts about every run ----------------------------------------------

  /** What is needed after some turns is what was needed before, but for the responses among the bytes they took. */
  lemma {:induction false} PendingIsUnheard(start: nat, need: set<Response>, entered: nat, turns: seq<Turn>)
    requires Steps(start, need, entered, turns)
    ensures Pending(need, turns) == Unheard(need, TookOf(turns))
    ensures Waited(turns) ==> Whole(TookOf(turns))
    decreases |turns|
  {
    hide Unheard, Whole, Sending;
    if turns == [] {
      HeardNothing(need);
      NothingRead();
    } else {
      var init, t := turns[..|turns| - 1], turns[|turns| - 1];
      PendingIsUnheard(start, need, entered, init);
      WholeMore(need, TookOf(init), t.took);
    }
  }

  lemma WholeMore(need: set<Response>, s: seq<byte>, t: seq<byte>)
    requires Whole(s)
    ensures Unheard(need, s + t) == Unheard(Unheard(need, s), t) && (Whole(t) ==> Whole(s + t))
  {
    hide Unheard, Cut;
    HeardMore(need, s, t);
  }

  lemma NeedIsUnheard(r: Run)
    requires Legal(r) && r.ending != NotOpened
    ensures Pending(r.need, r.turns) == Unheard(r.need, TookOf(r.turns))
  {
    hide Pending, Unheard, TookOf, Steps;
    PendingIsUnheard(r.start, r.need, r.entered, r.turns);
  }

  lemma WaitBounds(start: nat, now: nat, retried: bool)
    requires now < start + HANDSHAKE_TIMEOUT
    ensures var wait := WaitFor(start, now, retried);
      && 1 <= wait <= 25 && now + wait <= start + 1000
      && (!retried && now < start + 250 ==> now + wait <= start + 250)
      && (wait == 25 || now + wait == start + 1000 || (!retried && now + wait == start + 250))
  {
  }

  /** Every turn of a legal run is a step from where the turns before it ended. */
  lemma {:induction false} StepAt(start: nat, need: set<Response>, entered: nat, turns: seq<Turn>, i: nat)
    requires Steps(start, need, entered, turns) && i < |turns|
    ensures Step(start, Head(entered, turns[..i]), Pending(need, turns[..i]), Retried(turns[..i]), turns[i])
    ensures i + 1 < |turns| ==> turns[i].waits != []
    ensures Steps(start, need, entered, turns[..i])
    decreases |turns|
  {
    hide Step, Retried;
    var init := turns[..|turns| - 1];
    if i < |init| {
      StepAt(start, need, entered, init, i);
      assert init[..i] == turns[..i];
    }
  }

  lemma {:induction false} RetriedSince(turns: seq<Turn>, i: nat)
    requires i < |turns| && turns[i].sends != []
    ensures Retried(turns)
  {
    if i + 1 < |turns| {
      RetriedSince(turns[..|turns| - 1], i);
    }
  }

  /** Only one turn sends. */
  lemma OneRetryTurn(r: Run, i: nat, j: nat)
    requires Legal(r) && r.ending != NotOpened && i < j < |r.turns| && r.turns[i].sends != []
    ensures r.turns[j].sends == []
  {
    hide Steps, Sending, Retried;
    StepAt(r.start, r.need, r.entered, r.turns, j);
    RetriedSince(r.turns[..j], i);
  }

  /** The calls of turn i come after those of the turns before it, and before all others. */
  lemma {:induction false} CallsPrefix(turns: seq<Turn>, i: nat)
    requires i < |turns|
    ensures CallsOf(turns[..i]) + Calls(turns[i]) <= CallsOf(turns)
    decreases |turns|
  {
    hide Calls;
    var init := turns[..|turns| - 1];
    if i < |init| {
      CallsPrefix(init, i);
      assert init[..i] == turns[..i];
    } else {
      assert turns[..i] == init;
    }
  }

  /** The turn that a call belongs to. */
  lemma {:induction false} CallIn(turns: seq<Turn>, k: nat) returns (i: nat)
    requires k < |CallsOf(turns)|
    ensures i < |turns| && |CallsOf(turns[..i])| <= k < |CallsOf(turns[..i])| + |Calls(turns[i])|
    decreases |turns|
  {
    hide Calls;
    var init := turns[..|turns| - 1];
    if k < |CallsOf(init)| {
      i := CallIn(init, k);
      assert init[..i] == turns[..i];
    } else {
      i := |turns| - 1;
    }
  }

  /** Where the turns begin in the log of a run. */
  function Loop(r: Run): nat { 1 + |r.first| }

  /** The place of a turn's calls in the log: base is where they begin. */
  lemma TurnInLog(r: Run, i: nat) returns (base: nat)
    requires Legal(r) && r.ending != NotOpened && i < |r.turns|
    ensures base == Loop(r) + |CallsOf(r.turns[..i])| && base + |Calls(r.turns[i])| <= |LogOf(r)|
    ensures LogOf(r)[Loop(r)..base] == CallsOf(r.turns[..i])
    ensures forall o :: 0 <= o < |Calls(r.turns[i])| ==> LogOf(r)[base + o] == Calls(r.turns[i])[o]
  {
    hide Legal, Calls, CallsOf;
    CallsPrefix(r.turns, i);
    base := Loop(r) + |CallsOf(r.turns[..i])|;
    Inside(LogOf(r), [Tells(r.start)] + r.first, CallsOf(r.turns), if r.ending == TimedOut then [Tells(r.ended)] else [],
           CallsOf(r.turns[..i]), Calls(r.turns[i]));
  }

  lemma Inside<T>(l: seq<T>, a: seq<T>, cs: seq<T>, d: seq<T>, p: seq<T>, q: seq<T>)
    requires l == a + cs + d && p + q <= cs
    ensures |a| + |p| + |q| <= |l| && l[|a|..|a| + |p|] == p
    ensures forall o :: 0 <= o < |q| ==> l[|a| + |p| + o] == q[o]
  {
    assert forall k :: 0 <= k < |p + q| ==> l[|a| + k] == cs[k] == (p + q)[k];
    forall o | 0 <= o < |q|
      ensures l[|a| + |p| + o] == q[o]
    {
      assert l[|a| + (|p| + o)] == (p + q)[|p| + o];
    }
  }

  /** A wait or a write in the log, after the first queries, belongs to a turn. */
  lemma LocatedInTurn(r: Run, k: nat) returns (i: nat, base: nat)
    requires Legal(r) && r.ending != NotOpened && Loop(r) <= k < |LogOf(r)| && !LogOf(r)[k].Tells?
    ensures i < |r.turns| && base == Loop(r) + |CallsOf(r.turns[..i])|
    ensures base <= k < base + |Calls(r.turns[i])| <= |LogOf(r)|
    ensures LogOf(r)[Loop(r)..base] == CallsOf(r.turns[..i])
    ensures forall o :: 0 <= o < |Calls(r.turns[i])| ==> LogOf(r)[base + o] == Calls(r.turns[i])[o]
  {
    hide Legal, Calls, CallsOf;
    i := CallIn(r.turns, k - Loop(r));
    base := TurnInLog(r, i);
  }

  /** If the queries were sent again, there is a write to show for it. */
  lemma {:induction false} RetriedShows(start: nat, need: set<Response>, entered: nat, turns: seq<Turn>) returns (k: nat)
    requires Steps(start, need, entered, turns) && Retried(turns)
    ensures k < |CallsOf(turns)| && CallsOf(turns)[k].Writes?
    decreases |turns|
  {
    var init, t := turns[..|turns| - 1], turns[|turns| - 1];
    if Retried(init) {
      k := RetriedShows(start, need, entered, init);
    } else {
      k := |CallsOf(init)| + 1;
      SendsAreWrites(start, need, entered, turns);
      assert Calls(t)[1] == t.sends[0];
    }
  }

  lemma SendsAreWrites(start: nat, need: set<Response>, entered: nat, turns: seq<Turn>)
    requires Steps(start, need, entered, turns) && turns != []
    ensures OnlyWrites(turns[|turns| - 1].sends)
  {
  }

  lemma FirstAreWrites(r: Run, k: nat)
    requires Legal(r) && k < Loop(r) && k < |LogOf(r)|
    ensures if k == 0 then LogOf(r)[k] == Tells(r.start) else LogOf(r)[k].Writes?
  {
    hide Steps, Asks, CallsOf;
  }

  lemma OpenedIfLogged(r: Run)
    requires LogOf(r) != []
    ensures r.ending != NotOpened
  {
  }

  lemma StepInRun(r: Run, i: nat)
    requires Legal(r) && r.ending != NotOpened && i < |r.turns|
    ensures Step(r.start, Head(r.entered, r.turns[..i]), Pending(r.need, r.turns[..i]), Retried(r.turns[..i]), r.turns[i])
  {
    hide Steps, Step;
    StepAt(r.start, r.need, r.entered, r.turns, i);
  }

  /** A wait in a turn. */
  lemma WaitInTurn(start: nat, head: nat, need: set<Response>, retried: bool, t: Turn, o: nat)
    requires Step(start, head, need, retried, t) && o < |Calls(t)| && Calls(t)[o].Waits?
    ensures o > 0 && Calls(t)[0] == Tells(t.now)
    ensures var msec := Calls(t)[o].msec;
      && 1 <= msec <= 25
      && (if Calls(t)[o - 1].Reads? then msec == 25
          else
            && (forall q :: 0 < q < o ==> Calls(t)[q].Writes?)
            && t.now + msec <= start + 1000
            && (!retried && o == 1 ==> t.now + msec <= start + 250)
            && (msec == 25 || t.now + msec == start + 1000 || (!retried && o == 1 && t.now + msec == start + 250)))
  {
    hide Asks, Queries;
    InCalls(t, 0);
    InCalls(t, o);
    InCalls(t, o - 1);
    SendsIff(start, head, need, retried, t);
    WaitBounds(start, t.now, retried || t.sends != []);
    if o == 1 + |t.sends| {
      forall q | 0 < q < o ensures Calls(t)[q].Writes? {
        InCalls(t, q);
      }
    } else if o > 1 + |t.sends| {
      assert OfRead(t.fetches, o - 1 - |t.sends| - |t.waits|);
    }
  }

  lemma SendsOnlyWrites(r: Run, i: nat)
    requires Legal(r) && r.ending != NotOpened && i < |r.turns|
    ensures OnlyWrites(r.turns[i].sends)
    ensures r.turns[i].sends != [] ==> r.turns[i].sends[0].at == r.turns[i].now
  {
    hide Steps;
    StepAt(r.start, r.need, r.entered, r.turns, i);
  }

  /** The parts of a turn's calls. */
  lemma InCalls(t: Turn, o: nat)
    requires o < |Calls(t)|
    ensures Calls(t)[o] ==
      if o == 0 then Tells(t.now)
      else if o < 1 + |t.sends| then t.sends[o - 1]
      else if o < 1 + |t.sends| + |t.waits| then t.waits[o - 1 - |t.sends|]
      else t.fetches[o - 1 - |t.sends| - |t.waits|]
  {
  }

  lemma ShownInLog(l: seq<Call>, from: nat, to: nat, q: nat)
    requires from <= to <= |l| && q < |l[from..to]|
    ensures l[from..to][q] == l[from + q]
  {
  }

  lemma WriteIsSend(t: Turn, o: nat)
    requires ReadTrace(t.fetches) && (t.waits == [] || (|t.waits| == 1 && t.waits[0].Waits?))
    requires o < |Calls(t)| && Calls(t)[o].Writes?
    ensures 0 < o <= |t.sends|
  {
    forall i | 0 <= i < |t.fetches| ensures !t.fetches[i].Writes? {
      assert OfRead(t.fetches, i);
    }
    InCalls(t, o);
  }

  /** And a second query in the log shows that there was. */
  lemma {:induction false} WriteShowsRetry(start: nat, need: set<Response>, entered: nat, turns: seq<Turn>, k: nat)
    requires Steps(start, need, entered, turns) && k < |CallsOf(turns)| && CallsOf(turns)[k].Writes?
    ensures Retried(turns)
    decreases |turns|
  {
    hide Calls, Sending, Pending;
    var init, t := turns[..|turns| - 1], turns[|turns| - 1];
    if k < |CallsOf(init)| {
      WriteShowsRetry(start, need, entered, init, k);
    } else {
      WriteIsSend(t, k - |CallsOf(init)|);
    }
  }

  lemma RetriedIfShown(r: Run, i: nat, base: nat, q: nat)
    requires Legal(r) && r.ending != NotOpened && i < |r.turns| && Loop(r) <= q < base <= |LogOf(r)|
    requires LogOf(r)[Loop(r)..base] == CallsOf(r.turns[..i]) && LogOf(r)[q].Writes?
    ensures Retried(r.turns[..i])
  {
    hide LogOf, CallsOf, Retried, Sending, Step;
    StepAt(r.start, r.need, r.entered, r.turns, i);
    ShownInLog(LogOf(r), Loop(r), base, q - Loop(r));
    WriteShowsRetry(r.start, r.need, r.entered, r.turns[..i], q - Loop(r));
  }

  /** As long as the log shows no second query, there was none. */
  lemma NotRetriedYet(r: Run, i: nat, base: nat, k: nat)
    requires Legal(r) && r.ending != NotOpened && i < |r.turns| && Loop(r) <= base < k < |LogOf(r)|
    requires LogOf(r)[Loop(r)..base] == CallsOf(r.turns[..i])
    requires forall q :: Loop(r) <= q < k ==> !LogOf(r)[q].Writes?
    ensures !Retried(r.turns[..i])
  {
    hide LogOf, CallsOf, Retried, Sending, Step;
    StepAt(r.start, r.need, r.entered, r.turns, i);
    if Retried(r.turns[..i]) {
      var q := RetriedShows(r.start, r.need, r.entered, r.turns[..i]);
      ShownInLog(LogOf(r), Loop(r), base, q);
    }
  }

  /**
   * Every wait in the log lasts 1 to 25 ms. It is made by a read directly after another, or else
   * follows a reading of the clock, with at most queries between, and is not planned past the
   * deadline, nor, as long as no query was sent again, past the time for that; and it is 25 ms unless
   * it is planned up to one of these.
   */
  lemma WaitsArePlanned(r: Run, k: nat) returns (j: nat)
    requires Legal(r) && k < |LogOf(r)| && LogOf(r)[k].Waits?
    ensures var l := LogOf(r);
      && 1 <= l[k].msec <= 25
      && (if k > 0 && l[k - 1].Reads? then l[k].msec == 25
          else
            && j < k && l[j].Tells? && (forall q :: j < q < k ==> l[q].Writes?)
            && l[j].at + l[k].msec <= r.start + 1000
            && ((forall q :: Loop(r) <= q < k ==> !l[q].Writes?) ==> l[j].at + l[k].msec <= r.start + 250)
            && (l[k].msec == 25 || l[j].at + l[k].msec == r.start + 1000
                || ((forall q :: Loop(r) <= q < k ==> !l[q].Writes?) && l[j].at + l[k].msec == r.start + 250)))
  {
    hide Legal, Steps, Step, Calls, CallsOf, Retried, LogOf;
    var l := LogOf(r);
    j := 0;
    OpenedIfLogged(r);
    if k < Loop(r) {
      FirstAreWrites(r, k);
    }
    var i, base := LocatedInTurn(r, k);
    var t := r.turns[i];
    StepInRun(r, i);
    WaitInTurn(r.start, Head(r.entered, r.turns[..i]), Pending(r.need, r.turns[..i]), Retried(r.turns[..i]), t, k - base);
    j := base;
    assert l[base + (k - base)] == Calls(t)[k - base] && l[base + (k - base - 1)] == Calls(t)[k - base - 1];
    assert l[base + 0] == Calls(t)[0];
    if !l[k - 1].Reads? {
      forall q | base < q < k ensures l[q].Writes? {
        assert l[base + (q - base)] == Calls(t)[q - base];
      }
      if forall q :: Loop(r) <= q < k ==> !l[q].Writes? {
        NotRetriedYet(r, i, base, k);
        assert k == base + 1;
      }
      if !Retried(r.turns[..i]) && k == base + 1 {
        forall q | Loop(r) <= q < k ensures !l[q].Writes? {
          if q < base && l[q].Writes? {
            RetriedIfShown(r, i, base, q);
          }
        }
      }
    }
  }

  /** The wait that a turn asked for; none if it could not send the queries. */
  function Planned(t: Turn): nat { if t.waits != [] && t.waits[0].Waits? then t.waits[0].msec else 0 }

  /** Neither the first queries nor any turn took more than e longer than the wait it asked for. */
  predicate OnTime(r: Run, e: nat) {
    && r.entered <= r.start + e
    && (forall i :: 0 <= i < |r.turns| ==> r.turns[i].end <= r.turns[i].now + Planned(r.turns[i]) + e)
  }

  lemma PlannedInBounds(start: nat, head: nat, need: set<Response>, retried: bool, t: Turn)
    requires Step(start, head, need, retried, t)
    ensures t.now + Planned(t) <= start + HANDSHAKE_TIMEOUT
    ensures !retried && t.sends == [] ==> t.now + Planned(t) <= start + HANDSHAKE_RETRY
  {
    hide Sending;
    SendsIff(start, head, need, retried, t);
    WaitBounds(start, t.now, retried || t.sends != []);
  }

  /** A run that is never late by more than e is over by the deadline plus e. */
  lemma EndsByDeadline(r: Run, e: nat)
    requires Legal(r) && OnTime(r, e)
    ensures r.ended <= r.start + 1000 + e
    ensures r.ending == TimedOut ==> r.start + 1000 <= r.ended
  {
    hide Steps, Step, Planned;
    if r.turns != [] {
      var i := |r.turns| - 1;
      StepInRun(r, i);
      PlannedInBounds(r.start, Head(r.entered, r.turns[..i]), Pending(r.need, r.turns[..i]), Retried(r.turns[..i]), r.turns[i]);
    }
  }

  /** As long as nothing was sent again, it is not later than the time for that, plus e. */
  lemma BeforeRetry(r: Run, e: nat, n: nat)
    requires Legal(r) && r.ending != NotOpened && OnTime(r, e) && n <= |r.turns|
    ensures !Retried(r.turns[..n]) ==> Head(r.entered, r.turns[..n]) <= r.start + HANDSHAKE_RETRY + e
  {
    hide Steps, Step, Planned, Sending;
    if n > 0 {
      var i := n - 1;
      assert r.turns[..n][..i] == r.turns[..i];
      StepInRun(r, i);
      PlannedInBounds(r.start, Head(r.entered, r.turns[..i]), Pending(r.need, r.turns[..i]), Retried(r.turns[..i]), r.turns[i]);
    }
  }

  /** A write in the log after the first queries is one of a turn's. */
  lemma WriteInTurn(r: Run, k: nat) returns (i: nat, base: nat)
    requires Legal(r) && Loop(r) <= k < |LogOf(r)| && LogOf(r)[k].Writes?
    ensures r.ending != NotOpened && i < |r.turns| && base == Loop(r) + |CallsOf(r.turns[..i])|
    ensures base < k <= base + |r.turns[i].sends| < |LogOf(r)| && r.turns[i].sends != []
    ensures LogOf(r)[base] == Tells(r.turns[i].now) && LogOf(r)[base + 1].Writes? && LogOf(r)[base + 1].at == r.turns[i].now
    ensures forall q :: base < q <= k ==> LogOf(r)[q].Writes?
  {
    hide Legal, Steps, Sending, CallsOf, Retried, LogOf;
    OpenedIfLogged(r);
    i, base := LocatedInTurn(r, k);
    var t, l := r.turns[i], LogOf(r);
    StepInRun(r, i);
    SendsOnlyWrites(r, i);
    assert l[base + (k - base)] == Calls(t)[k - base];
    WriteIsSend(t, k - base);
    assert l[base + 0] == Calls(t)[0] && l[base + 1] == Calls(t)[1];
    InCalls(t, 0);
    InCalls(t, 1);
    forall q | base < q <= k ensures l[q].Writes? {
      assert l[base + (q - base)] == Calls(t)[q - base];
      InCalls(t, q - base);
    }
  }

  /**
   * A query in the log after the first ones follows a reading of the clock between 250 and 250 + e ms
   * after the start, at which the first of them is sent: with exact waits at exactly 250.
   */
  lemma RetryOnTime(r: Run, e: nat, k: nat) returns (j: nat)
    requires Legal(r) && OnTime(r, e)
    requires Loop(r) <= k < |LogOf(r)| && LogOf(r)[k].Writes?
    ensures var l := LogOf(r);
      && Loop(r) <= j < k && l[j].Tells? && (forall q :: j < q <= k ==> l[q].Writes?)
      && r.start + 250 <= l[j].at == l[j + 1].at <= r.start + 250 + e
  {
    hide Steps, Sending, CallsOf, Retried, LogOf, Planned;
    var i, base := WriteInTurn(r, k);
    StepInRun(r, i);
    SendsIff(r.start, Head(r.entered, r.turns[..i]), Pending(r.need, r.turns[..i]), Retried(r.turns[..i]), r.turns[i]);
    BeforeRetry(r, e, i);
    j := base;
  }

  /** Queries in the log after the first ones are all sent in a row: there is one retry. */
  lemma OneRetry(r: Run, j: nat, k: nat)
    requires Legal(r) && Loop(r) <= j <= k < |LogOf(r)| && LogOf(r)[j].Writes? && LogOf(r)[k].Writes?
    ensures forall q :: j <= q <= k ==> LogOf(r)[q].Writes?
  {
    hide Legal, CallsOf, Retried, LogOf;
    var i1, base1 := WriteInTurn(r, j);
    var i2, base2 := WriteInTurn(r, k);
    if i1 < i2 {
      OneRetryTurn(r, i1, i2);
    } else if i2 < i1 {
      OneRetryTurn(r, i2, i1);
    }
  }

  /** A run that times out has sent its queries again, unless it was late by three quarters of a second. */
  lemma TimeoutRetried(r: Run, e: nat) returns (k: nat)
    requires Legal(r) && OnTime(r, e) && e < 750 && r.ending == TimedOut
    ensures Loop(r) <= k < |LogOf(r)| && LogOf(r)[k].Writes?
  {
    hide Steps, Retried, CallsOf, Planned;
    assert r.turns[..|r.turns|] == r.turns;
    if !Retried(r.turns) {
      BeforeRetry(r, e, |r.turns|);
    }
    k := RetriedShows(r.start, r.need, r.entered, r.turns);
    assert LogOf(r)[Loop(r) + k] == CallsOf(r.turns)[k];
    k := Loop(r) + k;
  }

  /**
   * A device that never answers is given up on after exactly 1000 ms, having been asked again after
   * exactly 250.
   */
  lemma SilentDevice(r: Run) returns (k: nat)
    requires Legal(r) && Unanswered([], r) && r.need != {} && r.entered == r.start
    ensures r.ending == TimedOut && r.ended == r.start + 1000
    ensures Loop(r) <= k < |LogOf(r)| && LogOf(r)[k].Writes? && LogOf(r)[k].at == r.start + 250
  {
    hide Legal, LogOf;
    assert OnTime(r, 0);
    EndsByDeadline(r, 0);
    k := TimeoutRetried(r, 0);
    var j := RetryOnTime(r, 0, k);
    k := j + 1;
  }

  // ---- the queries --------------------------------------------------------

  /** The turn that sent the queries again, if there was one. */
  function Retry(turns: seq<Turn>): Option<Turn> {
    if turns == [] then None
    else if turns[|turns| - 1].sends != [] then Some(turns[|turns| - 1])
    else Retry(turns[..|turns| - 1])
  }

  /** The bytes taken before that turn, or all of them. */
  function TookBeforeRetry(turns: seq<Turn>): seq<byte> {
    if turns == [] then []
    else if turns[|turns| - 1].sends != [] then TookOf(turns[..|turns| - 1])
    else if Retry(turns[..|turns| - 1]).Some? then TookBeforeRetry(turns[..|turns| - 1])
    else TookOf(turns)
  }

  /** What the turns ask to be written is what that turn asks: what the bytes before it have not answered. */
  lemma {:induction false} AsksOfTurns(start: nat, need: set<Response>, entered: nat, turns: seq<Turn>)
    requires Steps(start, need, entered, turns)
    ensures Retried(turns) <==> Retry(turns).Some?
    ensures Asks(CallsOf(turns)) == match Retry(turns) case None => [] case Some(t) => Asks(t.sends)
    ensures Retry(turns).Some? ==>
      var t := Retry(turns).value;
      && t.need == Unheard(need, TookBeforeRetry(turns)) && Asks(t.sends) <= Queries(t.need)
      && (t in turns) && (t.waits != [] ==> Asks(t.sends) == Queries(t.need))
    decreases |turns|
  {
    hide Asks, Queries, Calls, Unheard, Pending, TookOf, Sending;
    if turns == [] {
      NoTurns(start, need, entered);
    } else {
      var init, t := turns[..|turns| - 1], turns[|turns| - 1];
      AsksOfTurns(start, need, entered, init);
      PendingIsUnheard(start, need, entered, init);
      if t.sends != [] {
        SendsAsk(start, Head(entered, init), Pending(need, init), Retried(init), t);
      }
      SendsIff(start, Head(entered, init), Pending(need, init), Retried(init), t);
      AsksTurn(start, Head(entered, init), Pending(need, init), Retried(init), t);
      AsksConcat(CallsOf(init), Calls(t));
      if t.sends == [] {
        AsksNone(t.sends);
      }
    }
  }

  lemma SendsAsk(start: nat, head: nat, need: set<Response>, retried: bool, t: Turn)
    requires Step(start, head, need, retried, t) && t.sends != []
    ensures Asks(t.sends) <= Queries(t.need) && (t.waits != [] ==> Asks(t.sends) == Queries(t.need))
  {
  }

  /** The queries for everything, and for each response alone, as bytes on the wire. */
  lemma QueriesOnTheWire()
    ensures Queries({NeedQuery, NeedId, NeedGridSize}) == [0x00, 0x01, 0x05]
    ensures Queries({NeedQuery}) == [0x00] && Queries({NeedId}) == [0x01] && Queries({NeedGridSize}) == [0x05]
    ensures Queries({NeedId, NeedGridSize}) == [0x01, 0x05]
    ensures Queries({NeedQuery, NeedGridSize}) == [0x00, 0x05] && Queries({NeedQuery, NeedId}) == [0x00, 0x01]
  {
  }

  lemma QueriesOnce(need: set<Response>, n: Response)
    ensures multiset(Queries(need))[QueryByte(n)] == if n in need then 1 else 0
  {
  }

  lemma PrefixCounts(s: seq<byte>, q: seq<byte>, b: byte)
    requires s <= q
    ensures multiset(s)[b] <= multiset(q)[b]
  {
    assert q == s + q[|s|..];
  }

  /**
   * Each query is asked for once, and again exactly if there was a retry and its response was not
   * among the bytes taken before it; unless a write failed, when it may be one time less. The device
   * is sent no more than what was asked for.
   */
  lemma QueryCount(r: Run, n: Response)
    requires Legal(r)
    ensures var times := multiset(Asks(LogOf(r)))[QueryByte(n)];
      var due := if n !in r.need then 0 else if Retry(r.turns).Some? && !Heard(TookBeforeRetry(r.turns), n) then 2 else 1;
      && multiset(Accepted(r))[QueryByte(n)] <= times <= due
      && (r.ending in {Cleared, TimedOut, WaitFailed, ReadFailed} ==> times == due)
  {
    hide Asks, Queries, Steps, CallsOf, Retry, QueryByte, Heard, TookBeforeRetry;
    if r.ending == NotOpened {
      NeverOpened(r.start, r.need);
    } else {
      AsksOfRun(r);
      AsksOfTurns(r.start, r.need, r.entered, r.turns);
      PrefixCounts(Accepted(r), Asks(LogOf(r)), QueryByte(n));
      PrefixCounts(Asks(r.first), Queries(r.need), QueryByte(n));
      QueriesOnce(r.need, n);
      if Retry(r.turns).Some? {
        var t := Retry(r.turns).value;
        PrefixCounts(Asks(t.sends), Queries(t.need), QueryByte(n));
        QueriesOnce(t.need, n);
        if r.ending != WriteFailed {
          RetryWaited(r);
        }
      }
    }
  }

  /** Unless the run ended for want of a write, the turn that retried went on to wait. */
  lemma RetryWaited(r: Run)
    requires Legal(r) && r.ending != NotOpened && r.ending != WriteFailed && Retry(r.turns).Some?
    ensures Retry(r.turns).value.waits != []
  {
    hide Steps, Asks, CallsOf, Sending;
    var i := RetryIsTurn(r.turns);
    if i + 1 < |r.turns| {
      StepAt(r.start, r.need, r.entered, r.turns, i);
    }
  }

  lemma {:induction false} RetryIsTurn(turns: seq<Turn>) returns (i: nat)
    requires Retry(turns).Some?
    ensures i < |turns| && turns[i] == Retry(turns).value && turns[i].sends != []
  {
    if turns[|turns| - 1].sends != [] {
      i := |turns| - 1;
    } else {
      i := RetryIsTurn(turns[..|turns| - 1]);
    }
  }

  lemma StepStarts(start: nat, head: nat, need: set<Response>, retried: bool, t: Turn)
    requires Step(start, head, need, retried, t)
    ensures t.now == head < start + HANDSHAKE_TIMEOUT
  {
  }

  lemma TurnStarts(r: Run, i: nat)
    requires Legal(r) && r.ending != NotOpened && i < |r.turns|
    ensures r.start <= r.entered && r.turns[i].now < r.start + HANDSHAKE_TIMEOUT
    ensures r.turns[i].now == if i == 0 then r.entered else r.turns[i - 1].end
  {
    hide Sending, Step, Steps, Retried, Pending;
    StepInRun(r, i);
    StepStarts(r.start, Head(r.entered, r.turns[..i]), Pending(r.need, r.turns[..i]), Retried(r.turns[..i]), r.turns[i]);
  }

  /** Clock progress bounds the number of turns: if every turn takes time there are at most 1000. */
  lemma {:induction false} TurnsTakeTime(r: Run, i: nat)
    requires Legal(r) && r.ending != NotOpened && i < |r.turns|
    requires forall j :: 0 <= j < |r.turns| ==> r.turns[j].now < r.turns[j].end
    ensures r.start + i <= r.turns[i].now && i < 1000
  {
    hide Legal;
    TurnStarts(r, i);
    if i > 0 {
      TurnsTakeTime(r, i - 1);
    }
  }

  // ---- a device that answers ----------------------------------------------

  /** The three responses among some messages clear everything that can be needed. */
  lemma {:induction false} ResponsesClear(st: State, ms: seq<MextStream.Incoming>, n: Response)
    requires n !in st.need || exists m <- ms :: Clears(m, n)
    ensures n !in MextStream.StateAfter(st, ms).need
    decreases |ms|
  {
    if ms != [] {
      var st' := MextStream.Meaning(st, ms[0]).0;
      assert st'.need <= st.need && (Clears(ms[0], n) ==> n !in st'.need);
      if n in st'.need {
        var m :| m in ms && Clears(m, n);
        assert m in ms[1..];
      }
      ResponsesClear(st', ms[1..], n);
    }
  }

  predicate Clears(m: MextStream.Incoming, n: Response) {
    match n case NeedQuery => m.QueryResponse? case NeedId => m.Id? case NeedGridSize => m.GridSize?
  }

  /** What well-formed messages teach is what they mean. */
  lemma {:induction false} LearnsMeaning(st: State, ms: seq<MextStream.Incoming>)
    requires MextStream.AllWellFormed(ms)
    ensures After(st, MextStream.EncodeAll(ms)) == MextStream.StateAfter(st, ms)
    decreases |ms|
  {
    hide After, Bytes, MextStream.Meaning;
    if ms == [] {
      AfterNothing(st);
    } else {
      assert MextStream.WellFormed(ms[0]);
      LearnsFirst(st, ms[0], MextStream.EncodeAll(ms[1..]));
      LearnsMeaning(MextStream.Meaning(st, ms[0]).0, ms[1..]);
    }
  }

  lemma TakenMeans(st: State)
    ensures forall ms :: MextStream.AllWellFormed(ms) ==>
      After(st, MextStream.EncodeAll(ms)) == MextStream.StateAfter(st, ms)
  {
    hide *;
    forall ms | MextStream.AllWellFormed(ms)
      ensures After(st, MextStream.EncodeAll(ms)) == MextStream.StateAfter(st, ms)
    {
      LearnsMeaning(st, ms);
    }
  }

  lemma LearnsFirst(st: State, m: MextStream.Incoming, rest: seq<byte>)
    requires MextStream.WellFormed(m)
    ensures After(st, Bytes(MextStream.Encode(m)) + rest) == After(MextStream.Meaning(st, m).0, rest)
  {
    hide MextStream.Encode, MextStream.Meaning, Learn, Learned;
    var w := MextStream.Encode(m);
    MextStream.EncodeFits(m);
    CutOne(IncomingLength, w, rest);
    var ms := Cut(IncomingLength, rest).msgs;
    LearnedFirst(st, w, ms);
    LearnsOne(st, m);
  }

  lemma LearnedFirst(st: State, w: Msg, ms: seq<Msg>)
    ensures Learned(st, [w] + ms) == Learned(Learn(st, w), ms)
  {
    hide Learn;
    assert ([w] + ms)[1..] == ms;
  }

  lemma LearnsOne(st: State, m: MextStream.Incoming)
    requires MextStream.WellFormed(m)
    ensures Learn(st, MextStream.Encode(m)) == MextStream.Meaning(st, m).0
  {
    hide CString, InputCb, MextStream.Unsigned8, MextStream.Field16;
  }

  /** The size after some messages is that of the last size message among them. */
  lemma {:induction false} LastSizeCounts(st: State, ms: seq<MextStream.Incoming>, k: nat)
    requires k < |ms| && ms[k].GridSize? && forall i :: k < i < |ms| ==> !ms[i].GridSize?
    ensures var g := MextStream.StateAfter(st, ms).g;
      g.cols == ms[k].cols && g.rows == ms[k].rows && g.rotation == st.g.rotation
    decreases |ms|
  {
    hide CString, InputCb;
    var st' := MextStream.Meaning(st, ms[0]).0;
    if k > 0 {
      LastSizeCounts(st', ms[1..], k - 1);
    } else {
      NoSizeKeeps(st', ms[1..]);
    }
  }

  lemma {:induction false} NoSizeKeeps(st: State, ms: seq<MextStream.Incoming>)
    requires forall i :: 0 <= i < |ms| ==> !ms[i].GridSize?
    ensures MextStream.StateAfter(st, ms).g == st.g
    decreases |ms|
  {
    hide CString, InputCb;
    if ms != [] {
      NoSizeKeeps(MextStream.Meaning(st, ms[0]).0, ms[1..]);
    }
  }

  /** What a run took was the first of some messages. */
  ghost predicate TookFirst(took: seq<byte>, ms: seq<MextStream.Incoming>, j: nat)
    requires MextStream.AllWellFormed(ms)
  {
    j <= |ms| && took == MextStream.EncodeAll(ms[..j])
  }

  /** The size message that comes last among the first j. */
  predicate LastSize(ms: seq<MextStream.Incoming>, j: nat, k: nat) {
    k < j <= |ms| && ms[k].GridSize? && forall i :: k < i < j ==> !ms[i].GridSize?
  }

  /**
   * A device whose three responses come, among any other messages and in any order, is opened: the
   * schedule has no signals or errors, answers enough, and takes less than a second altogether. The
   * state is that of the messages taken, and the size that of the last size message among them.
   */
  method OpenResponding(m: Mext, mapFriendly: seq<byte>, ghost ms: seq<MextStream.Incoming>) returns (ret: int, ghost r: Run)
    requires MextStream.AllWellFormed(ms) && m.port.input == MextStream.EncodeAll(ms)
    requires forall n :: n in m.need ==> exists i <- ms :: Clears(i, n)
    requires Ready(m.port.answers, 3 * |m.port.input| + 7) && Delay(m.port.answers) < HANDSHAKE_TIMEOUT
    modifies m`rows, m`cols, m`need, m`id, m`friendly
    modifies m.port`answers, m.port`clock, m.port`log, m.port`sent, m.port`lost, m.port`input, m.port`opens, m.port`closes
    ensures ret == 0 && m.need == {} && r.ending == Cleared
    ensures exists j :: TookFirst(TookOf(r.turns), ms, j)
    ensures forall j: nat :: TookFirst(TookOf(r.turns), ms, j) ==>
      && m.St() == MextStream.StateAfter(old(m.St()).(friendly := mapFriendly), ms[..j])
      && (forall k: nat :: LastSize(ms, j, k) ==> m.cols == ms[k].cols && m.rows == ms[k].rows)
  {
    hide MextStream.EncodeAll, MextStream.Poll, MextStream.StateAfter, Legal, Ready, Whole, Clears, After, TookOf;
    ghost var st := m.St().(friendly := mapFriendly);
    MextStream.EncodedWhole(ms);
    MextStream.PollDeliversAll(st, ms);
    forall n | n in MextStream.StateAfter(st, ms).need
      ensures false
    {
      ResponsesClear(st, ms, n);
    }
    ghost var input := m.port.input;
    ret, r := Open(m, mapFriendly);
    TookWhole(r);
    assert TookOf(r.turns) <= input;
    var j0 := MextStream.WholePrefix(ms, TookOf(r.turns));
    assert TookFirst(TookOf(r.turns), ms, j0);
    forall j: nat | TookFirst(TookOf(r.turns), ms, j)
      ensures m.St() == MextStream.StateAfter(st, ms[..j])
      ensures forall k: nat :: LastSize(ms, j, k) ==> m.cols == ms[k].cols && m.rows == ms[k].rows
    {
      LearnsMeaning(st, ms[..j]);
      forall k: nat | LastSize(ms, j, k)
        ensures m.cols == ms[k].cols && m.rows == ms[k].rows
      {
        LastSizeCounts(st, ms[..j], k);
      }
    }
  }

  /** A run that succeeds has taken whole messages. */
  lemma TookWhole(r: Run)
    requires Legal(r) && r.ending == Cleared
    ensures Whole(TookOf(r.turns))
  {
    hide Steps, TookOf, Sending, Unheard, Whole, Pending;
    PendingIsUnheard(r.start, r.need, r.entered, r.turns);
  }
}
