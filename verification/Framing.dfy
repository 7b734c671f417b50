/**
 * Messages in a byte stream. In every serial protocol a message is one header byte followed by as
 * many payload bytes as a table gives for the header's two nibbles.
 */
module Framing {
  import opened Bits

  /**
   * A framed message. The header has two nibbles: subsystem and command in mext, opcode and
   * address in the older protocols.
   */
  datatype Msg = Msg(addr: nat, cmd: nat, payload: seq<byte>)

  predicate Nibbles(m: Msg) { m.addr < 16 && m.cmd < 16 }

  function Header(m: Msg): byte { (m.addr % 16) * 16 + m.cmd % 16 }

  /** The messages a length table cuts a byte stream into, and what is left over at the end. */
  datatype Pieces = Pieces(msgs: seq<Msg>, rest: seq<byte>)

  function Cut(length: (nat, nat) -> nat, s: seq<byte>): Pieces
    decreases |s|
  {
    if s == [] then Pieces([], [])
    else
      var addr, cmd := s[0] / 16, s[0] % 16;
      var n := length(addr, cmd);
      if |s| < 1 + n then Pieces([], s)
      else
        var f := Cut(length, s[1 + n..]);
        f.(msgs := [Msg(addr, cmd, s[1..1 + n])] + f.msgs)
  }

  /** A message with exactly the payload that is sent. */
  predicate Exact(length: (nat, nat) -> nat, m: Msg) {
    Nibbles(m) && |m.payload| == length(m.addr, m.cmd)
  }

  function Bytes(m: Msg): seq<byte> { [Header(m)] + m.payload }

  function BytesOf(ms: seq<Msg>): seq<byte> {
    if ms == [] then [] else Bytes(ms[0]) + BytesOf(ms[1..])
  }

  lemma BytesOfConcat(ms: seq<Msg>, ns: seq<Msg>)
    ensures BytesOf(ms + ns) == BytesOf(ms) + BytesOf(ns)
  {
    if ms == [] {
      assert ms + ns == ns;
    } else {
      assert (ms + ns)[1..] == ms[1..] + ns;
      BytesOfConcat(ms[1..], ns);
    }
  }

  lemma HeaderNibbles(m: Msg)
    requires Nibbles(m)
    ensures Header(m) / 16 == m.addr && Header(m) % 16 == m.cmd
  {
  }

  /** Cutting a stream that starts with a whole message takes that message off first. */
  lemma CutOne(length: (nat, nat) -> nat, m: Msg, tail: seq<byte>)
    requires Exact(length, m)
    ensures Cut(length, Bytes(m) + tail) == Pieces([m] + Cut(length, tail).msgs, Cut(length, tail).rest)
  {
    hide Header;
    HeaderNibbles(m);
    var s, n := Bytes(m) + tail, |m.payload|;
    assert s[0] == Header(m) && s[1..1 + n] == m.payload && s[1 + n..] == tail;
  }

  /** Cutting the concatenation of messages and a tail gives back the messages, then cuts the tail. */
  lemma {:induction false} CutBytesOf(length: (nat, nat) -> nat, ms: seq<Msg>, tail: seq<byte>)
    requires forall i :: 0 <= i < |ms| ==> Exact(length, ms[i])
    ensures Cut(length, BytesOf(ms) + tail) == Pieces(ms + Cut(length, tail).msgs, Cut(length, tail).rest)
  {
    hide Cut, Bytes;
    if ms == [] {
      assert BytesOf(ms) + tail == tail;
      assert ms + Cut(length, tail).msgs == Cut(length, tail).msgs;
    } else {
      assert BytesOf(ms) + tail == Bytes(ms[0]) + (BytesOf(ms[1..]) + tail);
      CutOne(length, ms[0], BytesOf(ms[1..]) + tail);
      CutBytesOf(length, ms[1..], tail);
      assert [ms[0]] + (ms[1..] + Cut(length, tail).msgs) == ms + Cut(length, tail).msgs;
    }
  }

  /** A stream that starts with a whole message is that message's bytes and the rest. */
  lemma FirstMessage(length: (nat, nat) -> nat, s: seq<byte>) returns (m: Msg, tail: seq<byte>)
    requires s != [] && 1 + length(s[0] / 16, s[0] % 16) <= |s|
    ensures Exact(length, m) && s == Bytes(m) + tail && |tail| < |s|
  {
    var h := s[0];
    var n := length(h / 16, h % 16);
    m, tail := Msg(h / 16, h % 16, s[1..1 + n]), s[1 + n..];
    assert Header(m) == h;
  }

  lemma NoMessage(length: (nat, nat) -> nat, s: seq<byte>)
    requires s == [] || |s| < 1 + length(s[0] / 16, s[0] % 16)
    ensures Cut(length, s) == Pieces([], s)
  {
  }

  /** Every stream is the concatenation of the messages cut from it and the rest. */
  lemma {:induction false} CutIsLossless(length: (nat, nat) -> nat, s: seq<byte>)
    ensures var f := Cut(length, s);
      && s == BytesOf(f.msgs) + f.rest
      && (forall i :: 0 <= i < |f.msgs| ==> Exact(length, f.msgs[i]))
    decreases |s|
  {
    hide Cut, Bytes;
    if s == [] || |s| < 1 + length(s[0] / 16, s[0] % 16) {
      NoMessage(length, s);
      assert BytesOf([]) + s == s;
    } else {
      var m, tail := FirstMessage(length, s);
      CutOne(length, m, tail);
      CutIsLossless(length, tail);
      var ms := Cut(length, tail).msgs;
      assert ([m] + ms)[1..] == ms;
      assert Bytes(m) + (BytesOf(ms) + Cut(length, tail).rest) == BytesOf([m] + ms) + Cut(length, tail).rest;
    }
  }

  /** A stream may be cut in two parts anywhere, if what the first part leaves is put before the second. */
  lemma CutConcat(length: (nat, nat) -> nat, s: seq<byte>, t: seq<byte>)
    ensures var f := Cut(length, s);
      var h := Cut(length, f.rest + t);
      Cut(length, s + t) == Pieces(f.msgs + h.msgs, h.rest)
  {
    hide Cut, BytesOf, Exact;
    var f := Cut(length, s);
    CutIsLossless(length, s);
    CutBytesOf(length, f.msgs, f.rest + t);
    assert BytesOf(f.msgs) + (f.rest + t) == s + t;
  }

  lemma BytesSize(m: Msg)
    ensures |Bytes(m)| == 1 + |m.payload|
  {
  }

  lemma BytesOfSnoc(ms: seq<Msg>, m: Msg)
    ensures BytesOf(ms + [m]) == BytesOf(ms) + Bytes(m)
  {
    BytesOfConcat(ms, [m]);
    assert BytesOf([m]) == Bytes(m) + BytesOf([]);
  }
}
