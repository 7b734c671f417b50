/** Brightness levels: rotating a tile of them, and reducing them to on/off bits. */
module Levels {
  import opened Bits
  import opened Rotation

  /** `reduce_level_to_bit` for each of a run of levels. */
  function Lit(levels: seq<byte>): (bits: seq<bool>)
    ensures |bits| == |levels|
  {
    seq(|levels|, i requires 0 <= i < |levels| => levels[i] > 7)
  }

  lemma SetBit(v: bv8, i: nat, j: nat)
    requires i < 8 && j < 8
    ensures BvBit(v | ((1 as bv8) << i), j) == (BvBit(v, j) || j == i)
  {
  }

  /** `reduce_levels_to_bitmask`: bit i of the result says whether level i is in the brighter half. */
  method ReduceLevelsToBitmask(levels: seq<byte>) returns (mask: byte)
    requires |levels| == 8
    ensures forall i :: 0 <= i < 8 ==> Bit(mask, i) == (levels[i] > 7)
    ensures BitsOf(mask) == Lit(levels)
    ensures mask == ByteOf(Lit(levels))
  {
    hide BvBit;
    var v: bv8 := 0;
    NoBits();
    for i := 0 to 8
      invariant forall j :: 0 <= j < 8 ==> BvBit(v, j) == (j < i && levels[j] > 7)
    {
      if levels[i] > 7 {
        var w := v | ((1 as bv8) << i);
        forall j | 0 <= j < 8
          ensures BvBit(w, j) == (BvBit(v, j) || j == i)
        {
          SetBit(v, i, j);
        }
        v := w;
      }
    }
    mask := v as int;
    BvRoundTrip(v);
    ByteOfBitsOf(mask);
    assert BitsOf(mask) == Lit(levels);
    assert forall i :: 0 <= i < 8 ==> BitsOf(mask)[i] == Bit(mask, i);
  }

  lemma NoBits()
    ensures forall j :: 0 <= j < 8 ==> !BvBit(0, j)
  {
  }

  /**
   * `level_map_cb`: writes the turned tile to a buffer. The index arithmetic is that of the
   * four callbacks; the 180-degree one runs over the destination backwards.
   */
  method RotateLevels(rot: Rotation, dst: array<byte>, off: nat, src: seq<byte>)
    requires |src| == 64 && off + 64 <= dst.Length
    modifies dst
    ensures dst[..] == old(dst[..off]) + Turn(rot, src) + old(dst[off + 64..])
  {
    hide Turn;
    ghost var t := Turn(rot, src);
    var i := 0;
    if rot == R180 {
      while i < 64
        invariant 0 <= i <= 64
        invariant forall k :: 0 <= k < off || off + 64 <= k < dst.Length ==> dst[k] == old(dst[k])
        invariant forall k :: off + 64 - i <= k < off + 64 ==> dst[k] == t[k - off]
      {
        dst[off + 63 - i] := src[i];
        TurnIndex(rot, src, 63 - i);
        i := i + 1;
      }
    } else {
      while i < 64
        invariant 0 <= i <= 64
        invariant forall k :: 0 <= k < off || off + 64 <= k < dst.Length ==> dst[k] == old(dst[k])
        invariant forall k :: off <= k < off + i ==> dst[k] == t[k - off]
      {
        dst[off + i] :=
          if rot == R90 then src[(7 - i / 8) + (i % 8) * 8]
          else if rot == R270 then src[i / 8 + (7 - i % 8) * 8]
          else src[i];
        TurnIndex(rot, src, i);
        i := i + 1;
      }
    }
    assert dst[..][off..off + 64] == t;
    Spliced(old(dst[..]), off, t, dst[..]);
  }

  /** The index arithmetic of the callbacks. */
  lemma TurnIndex<V>(rot: Rotation, src: seq<V>, i: nat)
    requires |src| == 64 && i < 64
    ensures Turn(rot, src)[i] == match rot
      case R0 => src[i]
      case R90 => src[(7 - i / 8) + (i % 8) * 8]
      case R180 => src[63 - i]
      case R270 => src[i / 8 + (7 - i % 8) * 8]
  {
  }

  lemma LitTurn(rot: Rotation, levels: seq<byte>)
    requires |levels| == 64
    ensures Lit(Turn(rot, levels)) == Turn(rot, Lit(levels))
  {
  }

  /** Eight masks, each reduced from a row of eight levels. */
  function Masks(levels: seq<byte>): (m: seq<byte>)
    requires |levels| == 64
    ensures |m| == 8
  {
    seq(8, r requires 0 <= r < 8 => ByteOf(Lit(levels[8 * r..8 * r + 8])))
  }

  lemma MasksTile(levels: seq<byte>)
    requires |levels| == 64
    ensures Masks(levels) == MapOf(Lit(levels))
    ensures TileOf(Masks(levels)) == Lit(levels)
  {
    forall r | 0 <= r < 8
      ensures Masks(levels)[r] == MapOf(Lit(levels))[r]
    {
      assert Lit(levels[8 * r..8 * r + 8]) == Lit(levels)[8 * r..8 * r + 8];
    }
    TileOfMapOf(Lit(levels));
  }

  /** Turns a tile of levels into a buffer, then reduces its rows one by one. */
  method TurnedMasks(rot: Rotation, data: seq<byte>) returns (masks: seq<byte>)
    requires |data| == 64
    ensures masks == Masks(Turn(rot, data))
  {
    hide Turn, Lit, ByteOf;
    var levels := new byte[64];
    RotateLevels(rot, levels, 0, data);
    assert levels[..] == Turn(rot, data);
    masks := [];
    for i := 0 to 8
      invariant levels[..] == Turn(rot, data)
      invariant masks == Masks(Turn(rot, data))[..i]
    {
      var mask := ReduceLevelsToBitmask(levels[..][8 * i..8 * i + 8]);
      masks := masks + [mask];
    }
  }

  /** Thresholding commutes with rotation: the bytes are the same whichever is done first. */
  lemma ThresholdCommutes(rot: Rotation, levels: seq<byte>)
    requires |levels| == 64
    ensures TurnMap(rot, Masks(levels)) == Masks(Turn(rot, levels))
  {
    MasksTile(levels);
    MasksTile(Turn(rot, levels));
    LitTurn(rot, levels);
  }

  /** The levels that reduce to the picture with a single mark. */
  function MarkedLevels(): (levels: seq<byte>)
    ensures |levels| == 64 && Lit(levels) == Marked()
  {
    var levels: seq<byte> := seq<byte>(64, i => if i == 1 then 15 else 0);
    assert Lit(levels) == Marked();
    levels
  }
}
