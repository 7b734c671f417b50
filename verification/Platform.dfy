/**
 * The serial port as the library sees it: system calls answered by an operating system whose
 * behaviour is a script chosen by nobody in particular, over a finite stream of device bytes.
 */
module Platform {
  import opened Bits

  datatype Outcome = Fine | Interrupted | WouldBlock | Broken

  /**
   * How the system answers one call: what happened, how many bytes it moved at most, and how
   * many milliseconds passed meanwhile.
   */
  datatype Answer = Answer(outcome: Outcome, count: nat, delay: nat)

  const READ_TIMEOUT := 25

  /** How many bytes a call with this result moved. */
  function Moved(ret: int): nat { if ret < 0 then 0 else ret }

  /** Byte i of a zeroed buffer into which the first bytes of a stream were read. */
  function Arrived(stream: seq<byte>, taken: nat, i: nat): byte
    requires taken <= |stream|
  {
    if i < taken then stream[i] else 0
  }

  function Min(a: nat, b: nat): nat { if a < b then a else b }

  /** The script from the first answer on that is not an interruption by a signal. */
  function Uninterrupted(script: seq<Answer>): (rest: seq<Answer>)
    ensures |rest| <= |script|
    ensures rest != [] ==> rest[0].outcome != Interrupted
  {
    if script != [] && script[0].outcome == Interrupted then Uninterrupted(script[1..]) else script
  }

  /** The result of a read, how many bytes it took off the stream, and the script it leaves. */
  datatype Got = Got(ret: int, taken: nat, script: seq<Answer>)

  /** One turn of the read loop, from the read on: what `Reading` says, with bytes already got. */
  function Arriving(script: seq<Answer>, available: nat, left: nat, got: nat): Got
    requires left > 0
    decreases |script|, 0
  {
    var s := Uninterrupted(script);
    if s == [] then Got(0, got, [])
    else if s[0].outcome == WouldBlock then Got(0, got, s[1..])
    else if s[0].outcome == Broken then Got(-1, got, s[1..])
    else
      var n := Min(s[0].count, Min(left, available));
      if n == 0 then Got(got, got, s[1..]) else Reading(s[1..], available - n, left - n, got + n)
  }

  /** What the read loop does once it has got some bytes and would like more: it waits first. */
  function Reading(script: seq<Answer>, available: nat, left: nat, got: nat): Got
    decreases |script|, 1
  {
    if left == 0 then Got(got, got, script)
    else
      var s := Uninterrupted(script);
      if s == [] then Got(got, got, [])
      else if s[0].outcome == WouldBlock then Got(got, got, s[1..])
      else if s[0].outcome == Broken then Got(-1, got, s[1..])
      else Arriving(s[1..], available, left, got)
  }

  lemma {:induction false} ArrivingBounds(script: seq<Answer>, available: nat, left: nat, got: nat)
    requires left > 0
    ensures var g := Arriving(script, available, left, got);
      && got <= g.taken <= got + left && g.taken <= got + available
      && g.ret <= g.taken && (g.ret > 0 ==> g.ret == g.taken) && (g.taken == got + left ==> g.ret == g.taken) && g.ret >= -1
      && |g.script| <= |script| && (script != [] ==> |g.script| < |script|)
    decreases |script|
  {
    var s := Uninterrupted(script);
    if s != [] && s[0].outcome == Fine {
      var n, t := Min(s[0].count, Min(left, available)), Uninterrupted(s[1..]);
      if 0 < n < left && t != [] && t[0].outcome == Fine {
        ArrivingBounds(t[1..], available - n, left - n, got + n);
      }
    }
  }

  /** What a turn of the read loop brings: bytes, or the end of the loop, with what there is, with 0, or with -1. */
  datatype Part = Portion(n: nat) | Over | Refusal | Failure

  function Brought(part: Part): nat { if part.Portion? then part.n else 0 }

  /** One turn, and the script it leaves: the wait, unless it is the first turn, and the read. */
  function Next(script: seq<Answer>, available: nat, left: nat, first: bool): (next: (Part, seq<Answer>))
    requires left > 0
    ensures Brought(next.0) <= left && Brought(next.0) <= available && (next.0.Portion? ==> next.0.n > 0)
  {
    var w := Uninterrupted(script);
    if !first && (w == [] || w[0].outcome == WouldBlock) then (Over, if w == [] then [] else w[1..])
    else if !first && w[0].outcome == Broken then (Failure, w[1..])
    else
      var s := if first then w else Uninterrupted(w[1..]);
      if s == [] then (Refusal, [])
      else if s[0].outcome == WouldBlock then (Refusal, s[1..])
      else if s[0].outcome == Broken then (Failure, s[1..])
      else
        var n := Min(s[0].count, Min(left, available));
        (if n == 0 then Over else Portion(n), s[1..])
  }

  /** What the loop goes on to do, with some bytes already got. */
  function Going(script: seq<Answer>, available: nat, left: nat, got: nat): Got {
    if got == 0 && left > 0 then Arriving(script, available, left, got) else Reading(script, available, left, got)
  }

  lemma GoingFirst(script: seq<Answer>, available: nat, left: nat)
    requires left > 0
    ensures Going(script, available, left, 0) == Arriving(script, available, left, 0)
  {
  }

  lemma GoingDone(script: seq<Answer>, available: nat, got: nat)
    ensures Going(script, available, 0, got) == Got(got, got, script)
  {
  }

  lemma NextGoes(script: seq<Answer>, available: nat, left: nat, got: nat)
    requires left > 0
    ensures var (part, s) := Next(script, available, left, got == 0);
      Going(script, available, left, got) ==
      match part
      case Over => Got(got, got, s)
      case Refusal => Got(0, got, s)
      case Failure => Got(-1, got, s)
      case Portion(n) => Going(s, available - n, left - n, got + n)
  {
    hide Uninterrupted;
    var w := Uninterrupted(script);
    if got > 0 && w != [] && w[0].outcome == Fine {
      assert Reading(script, available, left, got) == Arriving(w[1..], available, left, got);
    }
  }

  /** Bytes of a stream put into a buffer in two portions. */
  lemma TakesMore(buf: seq<byte>, off: nat, stream: seq<byte>, taken: nat, n: nat)
    requires taken + n <= |stream| && off + taken + n <= |buf|
    ensures Splice(Splice(buf, off, stream[..taken]), off + taken, stream[taken..][..n]) == Splice(buf, off, stream[..taken + n])
    ensures stream[taken..][n..] == stream[taken + n..]
  {
    SpliceTwice(buf, off, stream[..taken], stream[taken..][..n]);
    assert stream[..taken] + stream[taken..][..n] == stream[..taken + n];
  }

  // ---- what the library asks of the system --------------------------------

  /** A call, the time when it was made, and what it asked for; of a read or a wait also how it ended. `Tells` reads the clock. */
  datatype Call =
    | Tells(at: nat)
    | Writes(at: nat, data: seq<byte>)
    | Reads(at: nat, nbyte: nat, outcome: Outcome)
    | Waits(at: nat, msec: nat, status: int)

  predicate OfRead(cs: seq<Call>, i: nat)
    requires i < |cs|
  {
    cs[i].Reads? || (cs[i].Waits? && cs[i].msec == READ_TIMEOUT && i > 0 && cs[i - 1].Reads?)
  }

  /** Reads, and waits of 25 ms directly after them. */
  ghost predicate ReadTrace(cs: seq<Call>) {
    forall i :: 0 <= i < |cs| ==> OfRead(cs, i)
  }

  /** The last call was a read that failed. */
  predicate LastBroken(log: seq<Call>) { log != [] && log[|log| - 1].Reads? && log[|log| - 1].outcome == Broken }

  /** The log grew by reads and their waits only. */
  ghost predicate OnlyReads(was: seq<Call>, log: seq<Call>) {
    was <= log && ReadTrace(log[|was|..])
  }

  lemma NoReads(log: seq<Call>)
    ensures OnlyReads(log, log)
  {
  }

  lemma MoreReads(was: seq<Call>, mid: seq<Call>, log: seq<Call>)
    requires OnlyReads(was, mid) && OnlyReads(mid, log)
    ensures OnlyReads(was, log)
  {
    var a, b, c := mid[|was|..], log[|mid|..], log[|was|..];
    assert c == a + b;
    forall i | 0 <= i < |c|
      ensures OfRead(c, i)
    {
      if i < |a| {
        assert OfRead(a, i) && c[i] == a[i];
      } else {
        assert OfRead(b, i - |a|) && c[i] == b[i - |a|];
      }
    }
  }

  /** A read, or a wait directly after one. */
  lemma OneMore(was: seq<Call>, log: seq<Call>, call: Call)
    requires OnlyReads(was, log)
    requires call.Reads? || (call.Waits? && call.msec == READ_TIMEOUT && |was| < |log| && log[|log| - 1].Reads?)
    ensures OnlyReads(was, log + [call])
  {
    var a, c := log[|was|..], (log + [call])[|was|..];
    assert c == a + [call];
    forall i | 0 <= i < |c|
      ensures OfRead(c, i)
    {
      if i < |a| {
        assert OfRead(a, i) && c[i] == a[i];
      }
    }
  }

  /** The time the answers take altogether. */
  function Delay(script: seq<Answer>): nat {
    if script == [] then 0 else script[0].delay + Delay(script[1..])
  }

  class Port {
    /** Answers to the coming system calls. Once they run out, nothing more happens but time passing. */
    var answers: seq<Answer>
    /** The bytes of the device's stream that have not been read yet. */
    var input: seq<byte>
    /** Everything the device has been sent. */
    var sent: seq<byte>
    /** How many bytes of messages the system did not accept. */
    var lost: nat
    /** The monotonic clock, in milliseconds. */
    var clock: nat
    /** Every call made, in order. */
    var log: seq<Call>
    /** How often the descriptor was opened and closed. */
    var opens: nat
    var closes: nat

    constructor (answers: seq<Answer>, input: seq<byte>, clock: nat)
      ensures this.answers == answers && this.input == input && this.clock == clock
      ensures sent == [] && lost == 0 && log == [] && opens == 0 && closes == 0
    {
      this.answers, this.input, this.clock := answers, input, clock;
      sent, lost, log, opens, closes := [], 0, [], 0, 0;
    }

    /** Takes the next answer of the script, if there is one; time passes accordingly. */
    method NextAnswer() returns (scripted: bool, a: Answer)
      modifies this`answers, this`clock
      ensures scripted <==> old(answers) != []
      ensures scripted ==> a == old(answers)[0] && answers == old(answers)[1..] && clock == old(clock) + a.delay
      ensures !scripted ==> answers == [] && clock == old(clock)
    {
      if answers == [] {
        scripted, a := false, Answer(WouldBlock, 0, 0);
      } else {
        scripted, a := true, answers[0];
        answers, clock := answers[1..], clock + a.delay;
      }
    }

    /** `monome_platform_monotonic_milliseconds`. */
    method Monotonic() returns (now: nat)
      modifies this`log
      ensures now == clock && log == old(log) + [Tells(now)]
    {
      log := log + [Tells(clock)];
      now := clock;
    }

    /** `monome_platform_open`: 0, or 1 with nothing left open. */
    method Open() returns (status: int)
      modifies this`answers, this`clock, this`opens
      ensures status == 0 || status == 1
      ensures opens == old(opens) + (if status == 0 then 1 else 0)
      ensures clock >= old(clock) && |answers| <= |old(answers)|
      ensures clock + Delay(answers) == old(clock) + Delay(old(answers))
      ensures old(answers) == [] ==> status == 0 && answers == []
      ensures old(answers) != [] ==>
        answers == old(answers)[1..] && status == if old(answers)[0].outcome == Fine then 0 else 1
    {
      var scripted, a := NextAnswer();
      if scripted && a.outcome != Fine {
        status := 1;
      } else {
        status := 0;
        opens := opens + 1;
      }
    }

    /** `monome_platform_close`. */
    method Close()
      modifies this`closes
      ensures closes == old(closes) + 1
    {
      closes := closes + 1;
    }

    /** `write`, once: takes all bytes unless the script says otherwise. */
    method Write(buf: seq<byte>) returns (ret: int)
      modifies this`answers, this`clock, this`sent, this`lost, this`log
      ensures -1 <= ret <= |buf|
      ensures sent == old(sent) + buf[..Moved(ret)]
      ensures lost == old(lost) + |buf| - Moved(ret)
      ensures Wrote(old(answers), old(lost), answers, lost, 1, |buf|)
      ensures log == old(log) + [Writes(old(clock), buf)]
      ensures clock >= old(clock) && |answers| <= |old(answers)|
      ensures clock + Delay(answers) == old(clock) + Delay(old(answers))
      ensures old(answers) == [] ==> ret == |buf| && answers == []
      ensures old(answers) != [] ==>
        var a := old(answers)[0];
        answers == old(answers)[1..] && ret == if a.outcome == Fine then Min(a.count, |buf|) else -1
    {
      log := log + [Writes(clock, buf)];
      var scripted, a := NextAnswer();
      var n := if scripted then Min(a.count, |buf|) else |buf|;
      if scripted && a.outcome != Fine {
        ret, n := -1, 0;
      } else {
        ret := n;
      }
      sent, lost := sent + buf[..n], lost + |buf| - n;
      assert Lost(old(answers), 1, |buf|) == Lost(old(answers), 0, |buf|) + Refused(old(answers), 0, |buf|);
    }

    /** `read`, once. */
    method SysRead(buf: array<byte>, off: nat, nbyte: nat) returns (bytes: int, errno: Outcome)
      requires off + nbyte <= buf.Length
      modifies this`answers, this`clock, this`input, this`log, buf
      ensures -1 <= bytes <= nbyte && bytes <= |old(input)|
      ensures bytes < 0 <==> errno != Fine
      ensures input == old(input)[Moved(bytes)..]
      ensures buf[..] == Splice(old(buf[..]), off, old(input)[..Moved(bytes)])
      ensures log == old(log) + [Reads(old(clock), nbyte, errno)]
      ensures clock >= old(clock) && |answers| <= |old(answers)|
      ensures clock + Delay(answers) == old(clock) + Delay(old(answers))
      ensures old(answers) == [] ==> errno == WouldBlock && answers == []
      ensures old(answers) != [] ==>
        var a := old(answers)[0];
        && answers == old(answers)[1..] && errno == a.outcome
        && (errno == Fine ==> bytes == Min(a.count, Min(nbyte, |old(input)|)))
    {
      var began := clock;
      var scripted, a := NextAnswer();
      if !scripted || a.outcome != Fine {
        bytes, errno := -1, if scripted then a.outcome else WouldBlock;
        SpliceNothing(buf[..], off);
      } else {
        var n := Min(a.count, Min(nbyte, |input|));
        CopyInto(buf, off, input[..n]);
        input := input[n..];
        bytes, errno := n, Fine;
      }
      log := log + [Reads(began, nbyte, errno)];
    }

    /**
     * `monome_platform_wait_for_input`: 0 when there is something to read, 1 on timeout, -1 on
     * error. A timeout takes at least the time asked for; waiting for no time at all succeeds.
     */
    method WaitForInput(msec: nat) returns (status: int)
      modifies this`answers, this`clock, this`log
      ensures status in {-1, 0, 1}
      ensures log == old(log) + [Waits(old(clock), msec, status)]
      ensures clock >= old(clock)
      ensures |answers| <= |old(answers)|
      ensures status != 1 && msec > 0 ==> |answers| < |old(answers)|
      ensures status == 1 ==> clock >= old(clock) + msec
      ensures clock + Delay(answers) == old(clock) + Delay(old(answers)) + (if status == 1 then msec else 0)
      ensures msec == 0 ==> status == 0
      ensures msec > 0 ==>
        var s := Uninterrupted(old(answers));
        && answers == (if s == [] then [] else s[1..])
        && status == (if s == [] || s[0].outcome == WouldBlock then 1 else if s[0].outcome == Broken then -1 else 0)
    {
      if msec == 0 {
        log := log + [Waits(clock, msec, 0)];
        return 0;
      }
      var began := clock;
      var scripted, a := NextAnswer();
      while scripted && a.outcome == Interrupted
        invariant log == old(log)
        invariant clock >= old(clock)
        invariant |answers| <= |old(answers)|
        invariant clock + Delay(answers) == old(clock) + Delay(old(answers))
        invariant scripted ==> |answers| < |old(answers)|
        invariant Uninterrupted(old(answers)) == Uninterrupted(if scripted then [a] + answers else [])
        invariant !scripted ==> answers == []
        decreases |answers|, if scripted then 1 else 0
      {
        scripted, a := NextAnswer();
      }
      if scripted && a.outcome == Broken {
        status := -1;
      } else if scripted && a.outcome == Fine {
        status := 0;
      } else {
        clock := clock + msec;
        status := 1;
      }
      log := log + [Waits(began, msec, status)];
    }

    /** `read`, tried again for as long as signals interrupt it. */
    method ReadUninterrupted(buf: array<byte>, off: nat, nbyte: nat) returns (bytes: int, errno: Outcome)
      requires off + nbyte <= buf.Length
      modifies this`answers, this`clock, this`input, this`log, buf
      ensures -1 <= bytes <= nbyte && bytes <= |old(input)|
      ensures bytes < 0 <==> errno != Fine
      ensures input == old(input)[Moved(bytes)..]
      ensures buf[..] == Splice(old(buf[..]), off, old(input)[..Moved(bytes)])
      ensures OnlyReads(old(log), log)
      ensures |old(log)| < |log| && log[|log| - 1].Reads? && log[|log| - 1].outcome == errno
      ensures clock >= old(clock)
      ensures clock + Delay(answers) == old(clock) + Delay(old(answers))
      ensures var s := Uninterrupted(old(answers));
        if s == [] then errno == WouldBlock && answers == []
        else
          && answers == s[1..] && errno == s[0].outcome
          && (errno == Fine ==> bytes == Min(s[0].count, Min(nbyte, |old(input)|)))
    {
      hide Splice, OnlyReads;
      ghost var was, log0, at := answers, log, clock;
      NoReads(log);
      bytes, errno := SysRead(buf, off, nbyte);
      OneMore(old(log), log0, Reads(at, nbyte, errno));
      while errno == Interrupted
        invariant was == [] ==> errno == WouldBlock && answers == []
        invariant was != [] ==>
          && answers == was[1..] && errno == was[0].outcome
          && (errno == Fine ==> bytes == Min(was[0].count, Min(nbyte, |old(input)|)))
        invariant Uninterrupted(was) == Uninterrupted(old(answers))
        invariant -1 <= bytes <= nbyte && bytes <= |old(input)|
        invariant bytes < 0 <==> errno != Fine
        invariant input == old(input)[Moved(bytes)..]
        invariant buf[..] == Splice(old(buf[..]), off, old(input)[..Moved(bytes)])
        invariant OnlyReads(old(log), log)
        invariant |old(log)| < |log| && log[|log| - 1].Reads? && log[|log| - 1].outcome == errno
        invariant clock >= old(clock)
        invariant clock + Delay(answers) == old(clock) + Delay(old(answers))
        decreases |answers|, if errno == Interrupted then 1 else 0
      {
        SpliceNothing(old(buf[..]), off);
        was, log0, at := answers, log, clock;
        bytes, errno := SysRead(buf, off, nbyte);
        OneMore(old(log), log0, Reads(at, nbyte, errno));
      }
    }

    /** One turn of the loop of `monome_platform_read`: a wait, unless it is the first, and a read. */
    method NextPart(buf: array<byte>, off: nat, nbyte: nat, first: bool) returns (part: Part)
      requires 0 < nbyte && off + nbyte <= buf.Length
      requires !first ==> log != [] && log[|log| - 1].Reads?
      modifies this`answers, this`clock, this`input, this`log, buf
      ensures (part, answers) == Next(old(answers), |old(input)|, nbyte, first)
      ensures input == old(input)[Brought(part)..]
      ensures buf[..] == Splice(old(buf[..]), off, old(input)[..Brought(part)])
      ensures |old(log)| < |log| && (OnlyReads(old(log), log) || !first)
      ensures forall was :: OnlyReads(was, old(log)) && (first || |was| < |old(log)|) ==> OnlyReads(was, log)
      ensures part.Portion? ==> log[|log| - 1].Reads?
      ensures part == Failure && first ==> LastBroken(log)
      ensures part != Failure ==> !LastBroken(log)
      ensures clock >= old(clock)
      ensures first || part.Portion? ==> clock + Delay(answers) == old(clock) + Delay(old(answers))
    {
      hide Splice, OnlyReads, Delay, Uninterrupted;
      SpliceNothing(buf[..], off);
      ghost var log0, began := log, clock;
      if !first {
        var err := WaitForInput(READ_TIMEOUT);
        forall was | OnlyReads(was, log0) && |was| < |log0| ensures OnlyReads(was, log) {
          OneMore(was, log0, Waits(began, READ_TIMEOUT, err));
        }
        if err > 0 {
          return Over;
        }
        if err < 0 {
          return Failure;
        }
      }
      ghost var log1 := log;
      var bytes, errno := ReadUninterrupted(buf, off, nbyte);
      forall was | OnlyReads(was, log1) ensures OnlyReads(was, log) {
        MoreReads(was, log1, log);
      }
      if bytes < 0 {
        part := if errno == WouldBlock then Refusal else Failure;
      } else if bytes == 0 {
        part := Over;
      } else {
        part := Portion(bytes);
      }
    }

    /**
     * `monome_platform_read`: reads until nbyte bytes have come, waiting up to 25 ms before each
     * further read. A positive result counts the bytes stored; a result of 0 or -1 does not say
     * whether bytes were taken from the stream before it.
     */
    method Read(buf: array<byte>, off: nat, nbyte: nat) returns (ret: int, ghost taken: nat)
      requires 0 < nbyte && off + nbyte <= buf.Length
      modifies this`answers, this`clock, this`input, this`log, buf
      ensures taken <= nbyte && taken <= |old(input)|
      ensures input == old(input)[taken..]
      ensures buf[..] == Splice(old(buf[..]), off, old(input)[..taken])
      ensures Got(ret, taken, answers) == Arriving(old(answers), |old(input)|, nbyte, 0)
      ensures (ret == -1 || ret == 0 || ret == taken) && (taken == nbyte ==> ret == taken)
      ensures |answers| <= |old(answers)| && (old(answers) != [] ==> |answers| < |old(answers)|)
      ensures OnlyReads(old(log), log) && |old(log)| < |log|
      ensures if ret >= 0 then !LastBroken(log) else taken == 0 ==> LastBroken(log)
      ensures clock >= old(clock)
      ensures taken == 0 || taken == nbyte ==> clock + Delay(answers) == old(clock) + Delay(old(answers))
    {
      hide Splice, Next, OnlyReads, LastBroken, Delay, Arriving, Reading, Going;
      GoingFirst(answers, |input|, nbyte);
      ArrivingBounds(answers, |input|, nbyte, 0);
      ret, taken := 0, 0;
      var left, at := nbyte, off;
      var first := true;
      SpliceNothing(buf[..], off);
      NoReads(log);
      while left > 0
        invariant taken == ret == at - off == nbyte - left
        invariant 0 <= left <= nbyte && taken <= |old(input)|
        invariant input == old(input)[taken..]
        invariant buf[..] == Splice(old(buf[..]), off, old(input)[..taken])
        invariant OnlyReads(old(log), log) && |old(log)| <= |log|
        invariant first <==> taken == 0
        invariant !first ==> |old(log)| < |log| && log[|log| - 1].Reads? && !LastBroken(log)
        invariant clock >= old(clock)
        invariant clock + Delay(answers) == old(clock) + Delay(old(answers))
        invariant Arriving(old(answers), |old(input)|, nbyte, 0) == Going(answers, |input|, left, taken)
        decreases left
      {
        NextGoes(answers, |input|, left, taken);
        var part := NextPart(buf, at, left, first);
        TakesMore(old(buf[..]), off, old(input), taken, Brought(part));
        first := false;
        match part
        case Over =>
          return;
        case Refusal =>
          ret := 0;
          return;
        case Failure =>
          ret := -1;
          return;
        case Portion(n) =>
          ret, at, left, taken := ret + n, at + n, left - n, taken + n;
      }
      GoingDone(answers, |input|, taken);
    }
  }

  // ---- facts about every schedule -----------------------------------------

  /**
   * From a read on, nothing goes wrong: no call is answered with an error, and no read after the
   * first byte is refused or left unanswered. Waits may time out.
   */
  predicate Smooth(script: seq<Answer>, available: nat, left: nat, first: bool)
    decreases |script|
  {
    var s := Uninterrupted(script);
    if s == [] || s[0].outcome == WouldBlock then first
    else if s[0].outcome == Broken then false
    else
      var n := Min(s[0].count, Min(left, available));
      n == 0 || n == left || SmoothWait(s[1..], available - n, left - n)
  }

  /** The same from a wait on. */
  predicate SmoothWait(script: seq<Answer>, available: nat, left: nat)
    decreases |script|
  {
    var s := Uninterrupted(script);
    if s == [] || s[0].outcome == WouldBlock then true
    else if s[0].outcome == Broken then false
    else Smooth(s[1..], available, left, false)
  }

  /** The result counts the bytes taken exactly when nothing goes wrong. */
  lemma {:induction false} ReadCountsIff(script: seq<Answer>, available: nat, left: nat, got: nat)
    requires left > 0
    ensures var g := Arriving(script, available, left, got);
      g.ret == g.taken <==> Smooth(script, available, left, got == 0)
    decreases |script|
  {
    hide Uninterrupted;
    var s := Uninterrupted(script);
    if s != [] && s[0].outcome == Fine {
      var n := Min(s[0].count, Min(left, available));
      var t := Uninterrupted(s[1..]);
      if 0 < n < left && t != [] && t[0].outcome == Fine {
        ReadCountsIff(t[1..], available - n, left - n, got + n);
      }
    }
  }

  /** Every answer is good or an interruption, and those to reads bring at least a byte. */
  predicate Prompt(script: seq<Answer>) {
    forall i :: 0 <= i < |script| ==> script[i].outcome == Interrupted || (script[i].outcome == Fine && script[i].count > 0)
  }

  /** How many answers are good. */
  function Supply(script: seq<Answer>): nat {
    if script == [] then 0 else (if script[0].outcome == Fine then 1 else 0) + Supply(script[1..])
  }

  lemma {:induction false} PromptGoesOn(script: seq<Answer>)
    requires Prompt(script)
    ensures Prompt(Uninterrupted(script)) && Supply(Uninterrupted(script)) == Supply(script)
    ensures Supply(script) > 0 ==>
      var s := Uninterrupted(script);
      s != [] && s[0].outcome == Fine && s[0].count > 0 && Prompt(s[1..]) && Supply(s[1..]) == Supply(script) - 1
  {
    if script != [] && script[0].outcome == Interrupted {
      PromptGoesOn(script[1..]);
    }
  }

  /**
   * However the bytes are cut into partial reads, and however often signals interrupt, a read of
   * bytes that are there gets them all, and leaves a prompt schedule.
   */
  lemma {:induction false} ReadCompletes(script: seq<Answer>, available: nat, left: nat, got: nat)
    requires Prompt(script) && 0 < left <= available && Supply(script) >= 2 * left
    ensures var g := Arriving(script, available, left, got);
      g.ret == g.taken == got + left && Prompt(g.script) && Supply(g.script) >= Supply(script) - 2 * left
    decreases left
  {
    hide Uninterrupted, Prompt, Supply;
    PromptGoesOn(script);
    var s := Uninterrupted(script);
    var n := Min(s[0].count, Min(left, available));
    if n < left {
      PromptGoesOn(s[1..]);
      var t := Uninterrupted(s[1..]);
      ReadCompletes(t[1..], available - n, left - n, got + n);
    }
  }

  /** A prompt schedule with answers enough to read n bytes one by one. */
  predicate Ample(script: seq<Answer>, n: nat) { Prompt(script) && Supply(script) >= 2 * n }

  /** No signals. */
  predicate Calm(script: seq<Answer>) {
    forall i :: 0 <= i < |script| ==> script[i].outcome != Interrupted
  }

  /** The next answer of a calm, prompt schedule that still has one. */
  lemma NextIsGood(script: seq<Answer>)
    requires Prompt(script) && Calm(script) && Supply(script) > 0
    ensures script != [] && script[0].outcome == Fine && script[0].count > 0 && Uninterrupted(script) == script
    ensures Prompt(script[1..]) && Calm(script[1..]) && Supply(script[1..]) == Supply(script) - 1
  {
  }

  lemma {:induction false} StaysCalm(script: seq<Answer>, available: nat, left: nat, got: nat)
    requires Calm(script) && left > 0
    ensures Calm(Arriving(script, available, left, got).script)
    decreases |script|
  {
    assert Uninterrupted(script) == script;
    if script != [] && script[0].outcome == Fine {
      var n, t := Min(script[0].count, Min(left, available)), script[1..];
      assert Uninterrupted(t) == t;
      if 0 < n < left && t != [] && t[0].outcome == Fine {
        StaysCalm(t[1..], available - n, left - n, got + n);
      }
    }
  }

  /** An ample schedule reads what is there, stays ample for the rest, and reads nothing at the end. */
  lemma AmpleRead(script: seq<Answer>, available: nat, nbyte: nat)
    requires Ample(script, available) && nbyte > 0
    ensures var g := Arriving(script, available, nbyte, 0);
      && (nbyte <= available ==>
            g.ret == g.taken == nbyte && Ample(g.script, available - nbyte) && Supply(g.script) + 2 * nbyte >= Supply(script))
      && (available == 0 ==> g.ret == g.taken == 0 && Ample(g.script, 0))
      && (Calm(script) ==> Calm(g.script))
  {
    if nbyte <= available {
      ReadCompletes(script, available, nbyte, 0);
    } else {
      PromptGoesOn(script);
    }
    if Calm(script) {
      StaysCalm(script, available, nbyte, 0);
    }
  }

  /** A read that is refused after a wait said that there is something reports nothing, and a byte is gone. */
  lemma BytesCanBeLost()
    ensures Arriving([Answer(Fine, 1, 0), Answer(Fine, 0, 0), Answer(WouldBlock, 0, 0)], 2, 2, 0) == Got(0, 1, [])
  {
    var three := [Answer(Fine, 1, 0), Answer(Fine, 0, 0), Answer(WouldBlock, 0, 0)];
    assert Uninterrupted(three) == three;
    var two := three[1..];
    assert Uninterrupted(two) == two && two[1..][1..] == [];
    assert Uninterrupted(two[1..]) == two[1..];
    assert Reading(two, 1, 1, 1) == Got(0, 1, []);
  }

  // ---- reads that get everything ------------------------------------------

  /**
   * From a read on, all of left bytes arrive: every read brings something, and every wait between
   * them finds the port ready in time.
   */
  predicate Fills(script: seq<Answer>, available: nat, left: nat)
    decreases |script|
  {
    var s := Uninterrupted(script);
    && s != [] && s[0].outcome == Fine
    && var n := Min(s[0].count, Min(left, available));
       && n > 0
       && (n == left
           || (var t := Uninterrupted(s[1..]); t != [] && t[0].outcome == Fine && Fills(t[1..], available - n, left - n)))
  }

  /** A read returns its full length exactly then. */
  lemma {:induction false} FillsIff(script: seq<Answer>, available: nat, left: nat, got: nat)
    requires left > 0
    ensures var g := Arriving(script, available, left, got);
      && (g.ret == got + left <==> Fills(script, available, left))
      && (g.taken == got + left <==> Fills(script, available, left))
    decreases |script|
  {
    hide Uninterrupted;
    var s := Uninterrupted(script);
    if s != [] && s[0].outcome == Fine {
      var n, t := Min(s[0].count, Min(left, available)), Uninterrupted(s[1..]);
      if 0 < n < left && t != [] && t[0].outcome == Fine {
        FillsIff(t[1..], available - n, left - n, got + n);
      }
    }
  }

  /** How many answers bring something to a read that can have it. */
  function Bringing(script: seq<Answer>): nat {
    if script == [] then 0
    else (if script[0].outcome == Fine && script[0].count > 0 then 1 else 0) + Bringing(script[1..])
  }

  lemma {:induction false} SkipsNothingBrought(script: seq<Answer>)
    ensures Bringing(Uninterrupted(script)) == Bringing(script)
  {
    if script != [] && script[0].outcome == Interrupted {
      SkipsNothingBrought(script[1..]);
    }
  }

  lemma BringingFirst(script: seq<Answer>)
    requires script != [] && script[0].outcome == Fine
    ensures Bringing(script[1..]) <= Bringing(script) <= 1 + Bringing(script[1..])
    ensures script[0].count == 0 ==> Bringing(script) == Bringing(script[1..])
  {
  }

  lemma BringingNothing(script: seq<Answer>)
    ensures script == [] ==> Bringing(script) == 0
    ensures script != [] && script[0].outcome != Fine ==> Bringing(script) == Bringing(script[1..])
  {
  }

  /** A read that gets everything uses at most two such answers to a byte; one that gets nothing, of bytes there, none. */
  lemma {:induction false} ReadSpends(script: seq<Answer>, available: nat, left: nat, got: nat)
    requires left > 0
    ensures var g := Arriving(script, available, left, got);
      && (g.taken == got + left ==> Bringing(g.script) + 2 * left > Bringing(script))
      && (g.taken == got && available > 0 ==> Bringing(g.script) == Bringing(script))
    decreases |script|
  {
    hide Uninterrupted, Bringing;
    SkipsNothingBrought(script);
    ArrivingBounds(script, available, left, got);
    var s := Uninterrupted(script);
    BringingNothing(s);
    if s != [] && s[0].outcome == Fine {
      BringingFirst(s);
      var n, t := Min(s[0].count, Min(left, available)), Uninterrupted(s[1..]);
      SkipsNothingBrought(s[1..]);
      if 0 < n < left && t != [] && t[0].outcome == Fine {
        BringingFirst(t);
        ArrivingBounds(t[1..], available - n, left - n, got + n);
        ReadSpends(t[1..], available - n, left - n, got + n);
      }
    }
  }

  // ---- writes -------------------------------------------------------------

  /** The script after n answers. */
  function Drop(script: seq<Answer>, n: nat): seq<Answer> { if n <= |script| then script[n..] else [] }

  /** How much of a write of the given size the k-th answer refuses; without an answer, nothing. */
  function Refused(script: seq<Answer>, k: nat, size: nat): nat {
    if k >= |script| then 0
    else if script[k].outcome == Fine then size - Min(script[k].count, size) else size
  }

  /** How much of n writes of the given size is refused. */
  function Lost(script: seq<Answer>, n: nat, size: nat): nat {
    if n == 0 then 0 else Lost(script, n - 1, size) + Refused(script, n - 1, size)
  }

  /** How many of n writes of the given size are not taken whole. */
  function Failures(script: seq<Answer>, n: nat, size: nat): nat {
    if n == 0 then 0 else Failures(script, n - 1, size) + (if Refused(script, n - 1, size) > 0 then 1 else 0)
  }

  /** What n writes of the given size do to the script and to the count of lost bytes. */
  predicate Wrote(script0: seq<Answer>, lost0: nat, script: seq<Answer>, lost: nat, n: nat, size: nat) {
    lost == lost0 + Lost(script0, n, size) && script == Drop(script0, n)
  }

  lemma WroteNothing(script: seq<Answer>, lost: nat, size: nat)
    ensures Wrote(script, lost, script, lost, 0, size) && Failures(script, 0, size) == 0
  {
  }

  lemma WroteMore(script0: seq<Answer>, lost0: nat, script1: seq<Answer>, lost1: nat, n: nat, script2: seq<Answer>, lost2: nat, size: nat)
    requires Wrote(script0, lost0, script1, lost1, n, size) && Wrote(script1, lost1, script2, lost2, 1, size)
    ensures Wrote(script0, lost0, script2, lost2, n + 1, size)
    ensures Failures(script0, n + 1, size) == Failures(script0, n, size) + (if lost2 == lost1 then 0 else 1)
  {
    assert Lost(script1, 1, size) == Lost(script1, 0, size) + Refused(script1, 0, size);
    assert Lost(script0, n + 1, size) == Lost(script0, n, size) + Refused(script0, n, size);
  }

  /** Nothing is lost exactly if each write is taken whole. */
  lemma {:induction false} NothingLostIff(script: seq<Answer>, n: nat, size: nat)
    requires size > 0
    ensures Lost(script, n, size) == 0 <==>
      forall k :: 0 <= k < n && k < |script| ==> script[k].outcome == Fine && script[k].count >= size
  {
    if n > 0 {
      NothingLostIff(script, n - 1, size);
    }
  }
}
