/** A device that reads framed messages and paints what those it understands say. */
module Devices {
  import opened Bits
  import opened Rotation
  import opened Display
  import opened Framing

  datatype Option<T> = None | Some(value: T)

  /** The painting commands among some messages, in order. */
  function Paints<V>(interpret: Msg -> Option<Paint<V>>, ms: seq<Msg>): seq<Paint<V>> {
    if ms == [] then []
    else
      (match interpret(ms[0]) case Some(c) => [c] case None => []) + Paints(interpret, ms[1..])
  }

  /** The painting commands a device reads from a byte stream. */
  function DevicePaints<V>(length: (nat, nat) -> nat, interpret: Msg -> Option<Paint<V>>, s: seq<byte>): seq<Paint<V>> {
    Paints(interpret, Cut(length, s).msgs)
  }

  lemma {:induction false} PaintsOfAll<V>(interpret: Msg -> Option<Paint<V>>, ms: seq<Msg>, cs: seq<Paint<V>>)
    requires |ms| == |cs|
    requires forall i :: 0 <= i < |ms| ==> interpret(ms[i]) == Some(cs[i])
    ensures Paints(interpret, ms) == cs
  {
    if ms != [] {
      PaintsOfAll(interpret, ms[1..], cs[1..]);
    }
  }

  /** What the device paints for messages that are framed and understood one by one. */
  lemma DevicePaintsAll<V>(length: (nat, nat) -> nat, interpret: Msg -> Option<Paint<V>>, ms: seq<Msg>, cs: seq<Paint<V>>)
    requires |ms| == |cs|
    requires forall i :: 0 <= i < |ms| ==> Exact(length, ms[i]) && interpret(ms[i]) == Some(cs[i])
    ensures DevicePaints(length, interpret, BytesOf(ms)) == cs
  {
    CutBytesOf(length, ms, []);
    assert BytesOf(ms) + [] == BytesOf(ms);
    assert ms + [] == ms;
    PaintsOfAll(interpret, ms, cs);
  }

  /** The bits of some data bytes, in the order they are drawn along a line. */
  function LineBits(data: seq<byte>): (vs: seq<bool>)
    ensures |vs| == 8 * |data|
  {
    seq(8 * |data|, i requires 0 <= i < 8 * |data| => Bit(data[i / 8], i % 8))
  }

  lemma LineBitsChunk(data: seq<byte>, k: nat)
    requires k < |data|
    ensures LineBits(data)[8 * k..8 * k + 8] == BitsOf(data[k])
  {
    hide Bit;
    forall i | 0 <= i < 8
      ensures LineBits(data)[8 * k + i] == BitsOf(data[k])[i]
    {
      Digits(k, i);
    }
  }
}
