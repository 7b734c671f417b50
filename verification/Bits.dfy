/** Bytes as they travel on the wire, and the bits inside them. */
module Bits {

  /** A `uint8_t`: an address, a header, a level, or eight LEDs. */
  type byte = x: int | 0 <= x < 256

  /** A `uint_t`, which wraps at 2^32. */
  const UINT_RANGE := 0x1_0000_0000
  type uint = x: int | 0 <= x < UINT_RANGE

  function Wrap(n: int): uint { n % UINT_RANGE }

  lemma WrapSmall(n: uint)
    ensures Wrap(n) == n
  {
  }

  lemma WrapAdd(a: int, b: int)
    ensures Wrap(Wrap(a) + b) == Wrap(a + b)
  {
    var q := a / UINT_RANGE;
    assert a + b == UINT_RANGE * q + (Wrap(a) + b);
    WrapShift(Wrap(a) + b, q);
  }

  lemma WrapShift(n: int, q: int)
    ensures Wrap(n + UINT_RANGE * q) == Wrap(n)
  {
    var d, r := n / UINT_RANGE, n % UINT_RANGE;
    assert n + UINT_RANGE * q == UINT_RANGE * (d + q) + r;
  }

  function Low8(n: int): byte { n % 256 }

  /** The start of the aligned group of eight that n lies in. */
  function Floor8(n: nat): (r: nat)
    ensures r <= n
  {
    n - n % 8
  }

  predicate BvBit(v: bv8, c: nat)
    requires c < 8
  {
    if c == 0 then v & 1 != 0
    else if c == 1 then v & 2 != 0
    else if c == 2 then v & 4 != 0
    else if c == 3 then v & 8 != 0
    else if c == 4 then v & 16 != 0
    else if c == 5 then v & 32 != 0
    else if c == 6 then v & 64 != 0
    else v & 128 != 0
  }

  /** Bit c of a byte; bit 0 is the least significant. */
  predicate Bit(b: byte, c: nat)
    requires c < 8
  {
    BvBit(b as bv8, c)
  }

  function FromBits(p0: bool, p1: bool, p2: bool, p3: bool, p4: bool, p5: bool, p6: bool, p7: bool): bv8 {
    (if p0 then 1 else 0) | (if p1 then 2 else 0) | (if p2 then 4 else 0) | (if p3 then 8 else 0) |
    (if p4 then 16 else 0) | (if p5 then 32 else 0) | (if p6 then 64 else 0) | (if p7 then 128 else 0)
  }

  /** The eight bits of a byte, least significant first. */
  function BitsOf(b: byte): seq<bool> {
    seq(8, c requires 0 <= c < 8 => Bit(b, c))
  }

  /** The byte with the given eight bits. */
  function ByteOf(v: seq<bool>): byte
    requires |v| == 8
  {
    FromBits(v[0], v[1], v[2], v[3], v[4], v[5], v[6], v[7]) as int
  }

  lemma BitsOfLength(d: byte)
    ensures |BitsOf(d)| == 8
  {
  }

  lemma BvRoundTrip(v: bv8)
    ensures (v as int) as bv8 == v
  {
  }

  lemma FromBitsBit(p: seq<bool>, c: nat)
    requires |p| == 8 && c < 8
    ensures BvBit(FromBits(p[0], p[1], p[2], p[3], p[4], p[5], p[6], p[7]), c) == p[c]
  {
  }

  lemma BitsOfByteOf(v: seq<bool>)
    requires |v| == 8
    ensures BitsOf(ByteOf(v)) == v
  {
    BvRoundTrip(FromBits(v[0], v[1], v[2], v[3], v[4], v[5], v[6], v[7]));
    forall c | 0 <= c < 8
      ensures BitsOf(ByteOf(v))[c] == v[c]
    {
      FromBitsBit(v, c);
    }
  }

  lemma FromBvBits(v: bv8)
    ensures FromBits(BvBit(v, 0), BvBit(v, 1), BvBit(v, 2), BvBit(v, 3),
                     BvBit(v, 4), BvBit(v, 5), BvBit(v, 6), BvBit(v, 7)) == v
  {
  }

  lemma BvSuccessor(v: bv8)
    requires v != 255
    ensures (v + 1) as int == v as int + 1
  {
  }

  /** Every byte is the value of some bit-vector, reached by counting up to it. */
  lemma {:induction false} SomeBv(b: byte) returns (v: bv8)
    ensures v as int == b
  {
    if b == 0 {
      v := 0;
    } else {
      v := SomeBv(b - 1);
      BvSuccessor(v);
      v := v + 1;
    }
  }

  lemma IntRoundTrip(b: byte)
    ensures (b as bv8) as int == b
  {
    var v := SomeBv(b);
    BvRoundTrip(v);
  }

  /** A byte is determined by its bits. */
  lemma ByteOfBitsOf(b: byte)
    ensures ByteOf(BitsOf(b)) == b
  {
    var v := b as bv8;
    FromBvBits(v);
    IntRoundTrip(b);
  }

  /** `REVERSE_BYTE`: two multiplications spread the bits out, a third one gathers them in reverse. */
  function ReverseBv(x: bv8): bv8 {
    var v := x as bv32;
    (((((v * 0x0802) & 0x22110) | ((v * 0x8020) & 0x88440)) * 0x10101 >> 16) & 0xFF) as bv8
  }

  function ReverseByte(b: byte): byte {
    ReverseBv(b as bv8) as int
  }

  function Reversed<V>(s: seq<V>): (r: seq<V>)
    ensures |r| == |s|
  {
    seq(|s|, i requires 0 <= i < |s| => s[|s| - 1 - i])
  }

  lemma ReverseBvBit(v: bv8, c: nat)
    requires c < 8
    ensures BvBit(ReverseBv(v), c) == BvBit(v, 7 - c)
  {
  }

  lemma ReverseByteBits(b: byte)
    ensures BitsOf(ReverseByte(b)) == Reversed(BitsOf(b))
  {
    BvRoundTrip(ReverseBv(b as bv8));
    forall c | 0 <= c < 8
      ensures BitsOf(ReverseByte(b))[c] == Reversed(BitsOf(b))[c]
    {
      ReverseBvBit(b as bv8, c);
    }
  }

  /** Bitwise or of two naturals. */
  function Or(a: nat, b: nat): nat
    decreases a + b
  {
    if a == 0 then b
    else if b == 0 then a
    else 2 * Or(a / 2, b / 2) + (if a % 2 == 1 || b % 2 == 1 then 1 else 0)
  }

  lemma OrDouble(a: nat, b: nat)
    ensures Or(2 * a, b) == 2 * Or(a, b / 2) + b % 2
  {
  }

  /** Or with fewer than 2^k in the low k bits of a multiple of 2^k is addition. */
  lemma {:induction false} OrDisjoint(hi: nat, lo: nat, k: nat)
    requires lo < Pow2(k)
    ensures Or(hi * Pow2(k), lo) == hi * Pow2(k) + lo
    decreases k
  {
    if k > 0 {
      var a, b := hi * Pow2(k - 1), lo / 2;
      assert hi * Pow2(k) == 2 * a;
      OrDouble(a, lo);
      OrDisjoint(hi, b, k - 1);
    }
  }

  function Pow2(k: nat): (p: nat)
    ensures p > 0
  {
    if k == 0 then 1 else 2 * Pow2(k - 1)
  }

  lemma OrNibble(hi: nat, lo: nat)
    requires lo < 16
    ensures Or(hi * 16, lo) == hi * 16 + lo
  {
    assert Pow2(4) == 16;
    OrDisjoint(hi, lo, 4);
  }

  // ---- buffers ------------------------------------------------------------

  /** A buffer with the bytes from off on overwritten by d. */
  function Splice<V>(s: seq<V>, off: nat, d: seq<V>): (r: seq<V>)
    requires off + |d| <= |s|
    ensures |r| == |s|
  {
    s[..off] + d + s[off + |d|..]
  }

  lemma SpliceNothing<V>(s: seq<V>, off: nat)
    requires off <= |s|
    ensures Splice(s, off, []) == s
  {
  }

  lemma SpliceTwice<V>(s: seq<V>, off: nat, a: seq<V>, b: seq<V>)
    requires off + |a| + |b| <= |s|
    ensures Splice(Splice(s, off, a), off + |a|, b) == Splice(s, off, a + b)
  {
    var t := Splice(s, off, a);
    assert t[..off + |a|] == s[..off] + a;
    assert t[off + |a| + |b|..] == s[off + |a| + |b|..];
  }

  lemma SpliceReads<V>(s: seq<V>, off: nat, d: seq<V>)
    requires off + |d| <= |s|
    ensures Splice(s, off, d)[off..off + |d|] == d
    ensures Splice(s, off, d)[..off] == s[..off]
  {
  }

  lemma Spliced<V>(s: seq<V>, off: nat, d: seq<V>, t: seq<V>)
    requires off + |d| <= |s| == |t|
    requires t[..off] == s[..off] && t[off..off + |d|] == d && t[off + |d|..] == s[off + |d|..]
    ensures t == Splice(s, off, d)
  {
    assert t == t[..off] + t[off..off + |d|] + t[off + |d|..];
  }

  /** `memcpy` into a buffer. */
  method CopyInto(buf: array<byte>, off: nat, d: seq<byte>)
    requires off + |d| <= buf.Length
    modifies buf
    ensures buf[..] == Splice(old(buf[..]), off, d)
  {
    for i := 0 to |d|
      invariant forall k :: 0 <= k < off || off + i <= k < buf.Length ==> buf[k] == old(buf[k])
      invariant forall k :: off <= k < off + i ==> buf[k] == d[k - off]
    {
      buf[off + i] := d[i];
    }
    assert buf[..][off..off + |d|] == d;
    Spliced(old(buf[..]), off, d, buf[..]);
  }
}
