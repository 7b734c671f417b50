/**
 * What `next_event` of the two older protocols makes of a read. Messages are two bytes long. A read
 * that brings fewer is handed on as the result; but the comparison takes a failed read, -1, for a
 * large number, so that it is looked at as if it had brought a message.
 */
module Inputs {
  import opened Bits
  import opened Platform

  /** The read's effect, for a stream and the schedule of the port. */
  function ReadTwo(script: seq<Answer>, stream: seq<byte>): (g: Got)
    ensures g.taken <= |stream| && g.taken <= 2
  {
    ArrivingBounds(script, |stream|, 2, 0);
    Arriving(script, |stream|, 2, 0)
  }

  /** The result of `next_event`, if isEvent says which first bytes it has an event for. */
  function Returned(isEvent: byte -> bool, script: seq<Answer>, stream: seq<byte>): int {
    var g := ReadTwo(script, stream);
    if 0 <= g.ret < 2 then g.ret else if isEvent(Arrived(stream, g.taken, 0)) then 1 else 0
  }

  /** A whole message was taken, and there is an event for it. */
  predicate TookEvent(isEvent: byte -> bool, script: seq<Answer>, stream: seq<byte>) {
    ReadTwo(script, stream).taken == 2 && isEvent(stream[0])
  }

  /** How many bytes the first read brings, if it brings any. */
  function FirstRead(script: seq<Answer>, stream: seq<byte>): nat {
    var s := Uninterrupted(script);
    if s != [] && s[0].outcome == Fine then Min(s[0].count, Min(2, |stream|)) else 0
  }

  /** The first read brings one byte; then the wait times out, or the second read finds nothing more. */
  predicate StopsHalfway(script: seq<Answer>, stream: seq<byte>) {
    && FirstRead(script, stream) == 1
    && var w := Uninterrupted(Uninterrupted(script)[1..]);
       if w == [] || w[0].outcome == WouldBlock then true
       else
         && w[0].outcome == Fine
         && var t := Uninterrupted(w[1..]);
            t != [] && t[0].outcome == Fine && (t[0].count == 0 || |stream| == 1)
  }

  /** The first read fails. */
  predicate FailsAtOnce(script: seq<Answer>) {
    var s := Uninterrupted(script);
    s != [] && s[0].outcome == Broken
  }

  /** The first read brings one byte; then the wait or the second read fails. */
  predicate FailsHalfway(script: seq<Answer>, stream: seq<byte>) {
    && FirstRead(script, stream) == 1
    && var w := Uninterrupted(Uninterrupted(script)[1..]);
       && w != []
       && (w[0].outcome == Broken
           || (w[0].outcome == Fine && var t := Uninterrupted(w[1..]); t != [] && t[0].outcome == Broken))
  }

  /** How the read goes on after its first byte. */
  lemma SecondRead(script: seq<Answer>, available: nat)
    ensures var g := Reading(script, available, 1, 1);
      var w := Uninterrupted(script);
      if w == [] || w[0].outcome == WouldBlock then g.ret == g.taken == 1
      else if w[0].outcome == Broken then g.ret == -1 && g.taken == 1
      else
        var t := Uninterrupted(w[1..]);
        if t == [] || t[0].outcome == WouldBlock then g.ret == 0 && g.taken == 1
        else if t[0].outcome == Broken then g.ret == -1 && g.taken == 1
        else if t[0].count == 0 || available == 0 then g.ret == g.taken == 1
        else g.ret == g.taken == 2
  {
    hide Uninterrupted;
    var w := Uninterrupted(script);
    if w != [] && w[0].outcome == Fine {
      assert Reading(script, available, 1, 1) == Arriving(w[1..], available, 1, 1);
      var t := Uninterrupted(w[1..]);
      if t != [] && t[0].outcome == Fine && t[0].count > 0 && available > 0 {
        assert Arriving(w[1..], available, 1, 1) == Reading(t[1..], available - 1, 0, 2) == Got(2, 2, t[1..]);
      }
    }
  }

  lemma Halves(script: seq<Answer>, stream: seq<byte>)
    ensures var g := ReadTwo(script, stream);
      && (g.ret == 1 <==> StopsHalfway(script, stream))
      && (g.ret == -1 <==> FailsAtOnce(script) || FailsHalfway(script, stream))
      && (g.ret == 2 <==> g.taken == 2)
      && (FailsAtOnce(script) ==> g.taken == 0) && (FailsHalfway(script, stream) ==> g.taken == 1)
      && g.ret in {-1, 0, 1, 2}
  {
    hide Uninterrupted, Reading;
    var s := Uninterrupted(script);
    if FirstRead(script, stream) == 1 {
      assert ReadTwo(script, stream) == Reading(s[1..], |stream| - 1, 1, 1);
      SecondRead(s[1..], |stream| - 1);
    } else if FirstRead(script, stream) == 2 {
      ReadEnough(s[1..], |stream| - 2);
      assert ReadTwo(script, stream) == Reading(s[1..], |stream| - 2, 0, 2);
    }
  }

  lemma ReadEnough(script: seq<Answer>, available: nat)
    ensures Reading(script, available, 0, 2) == Got(2, 2, script)
  {
  }

  /**
   * A result of 1 means that a whole message with an event was taken, exactly on those schedules that
   * neither stop halfway nor fail where the first byte, or a zero in its place, looks like an event.
   */
  lemma ReturnedIsRightIff(isEvent: byte -> bool, script: seq<Answer>, stream: seq<byte>)
    ensures (Returned(isEvent, script, stream) == 1 <==> TookEvent(isEvent, script, stream)) <==>
      && !StopsHalfway(script, stream)
      && !(FailsAtOnce(script) && isEvent(0))
      && !(FailsHalfway(script, stream) && isEvent(stream[0]))
  {
    hide StopsHalfway, FailsAtOnce, FailsHalfway, ReadTwo;
    Halves(script, stream);
    FailsOnce(script, stream);
  }

  lemma FailsOnce(script: seq<Answer>, stream: seq<byte>)
    ensures FailsHalfway(script, stream) ==> !FailsAtOnce(script) && stream != []
  {
  }

  /** A single failed read is taken for a message of zeros. */
  lemma FailedRead(isEvent: byte -> bool, stream: seq<byte>)
    requires isEvent(0)
    ensures var script := [Answer(Broken, 0, 0)];
      Returned(isEvent, script, stream) == 1 && ReadTwo(script, stream) == Got(-1, 0, [])
  {
    assert Uninterrupted([Answer(Broken, 0, 0)]) == [Answer(Broken, 0, 0)];
  }

  /** Half a message is reported as if it were an event. */
  lemma HalfMessage(isEvent: byte -> bool, stream: seq<byte>)
    requires stream != []
    ensures var script := [Answer(Fine, 1, 0)];
      Returned(isEvent, script, stream) == 1 && ReadTwo(script, stream) == Got(1, 1, [])
  {
    assert Uninterrupted([Answer(Fine, 1, 0)]) == [Answer(Fine, 1, 0)];
    assert Reading([], |stream| - 1, 1, 1) == Got(1, 1, []);
  }
}
