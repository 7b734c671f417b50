/**
 * The in-place rotation of an 8x8 bit matrix held in eight bytes, as word-parallel
 * swap networks, for every word size and byte order the library is built for.
 */
module MapCallbacks {
  import opened Bits
  import opened Rotation

  /** The word size and byte order the library was compiled for. */
  datatype Arch = Lp64(bigEndian: bool) | Words32(bigEndian: bool)

  /** Eight consecutive bytes of memory. */
  datatype Rows = Rows(r0: bv8, r1: bv8, r2: bv8, r3: bv8, r4: bv8, r5: bv8, r6: bv8, r7: bv8)

  // ---- words in memory ----------------------------------------------------

  function Load64(big: bool, m: Rows): bv64 {
    if big then
      ((m.r0 as bv64) << 56) | ((m.r1 as bv64) << 48) | ((m.r2 as bv64) << 40) | ((m.r3 as bv64) << 32) |
      ((m.r4 as bv64) << 24) | ((m.r5 as bv64) << 16) | ((m.r6 as bv64) << 8) | (m.r7 as bv64)
    else
      (m.r0 as bv64) | ((m.r1 as bv64) << 8) | ((m.r2 as bv64) << 16) | ((m.r3 as bv64) << 24) |
      ((m.r4 as bv64) << 32) | ((m.r5 as bv64) << 40) | ((m.r6 as bv64) << 48) | ((m.r7 as bv64) << 56)
  }

  function Store64(big: bool, x: bv64): Rows {
    if big then
      Rows((x >> 56) as bv8, ((x >> 48) & 0xFF) as bv8, ((x >> 40) & 0xFF) as bv8, ((x >> 32) & 0xFF) as bv8,
           ((x >> 24) & 0xFF) as bv8, ((x >> 16) & 0xFF) as bv8, ((x >> 8) & 0xFF) as bv8, (x & 0xFF) as bv8)
    else
      Rows((x & 0xFF) as bv8, ((x >> 8) & 0xFF) as bv8, ((x >> 16) & 0xFF) as bv8, ((x >> 24) & 0xFF) as bv8,
           ((x >> 32) & 0xFF) as bv8, ((x >> 40) & 0xFF) as bv8, ((x >> 48) & 0xFF) as bv8, (x >> 56) as bv8)
  }

  function Load32(big: bool, a: bv8, b: bv8, c: bv8, d: bv8): bv32 {
    if big then ((a as bv32) << 24) | ((b as bv32) << 16) | ((c as bv32) << 8) | (d as bv32)
    else (a as bv32) | ((b as bv32) << 8) | ((c as bv32) << 16) | ((d as bv32) << 24)
  }

  /** Two 32-bit words stored one after the other. */
  function Store32(big: bool, x: bv32, y: bv32): Rows {
    if big then
      Rows((x >> 24) as bv8, ((x >> 16) & 0xFF) as bv8, ((x >> 8) & 0xFF) as bv8, (x & 0xFF) as bv8,
           (y >> 24) as bv8, ((y >> 16) & 0xFF) as bv8, ((y >> 8) & 0xFF) as bv8, (y & 0xFF) as bv8)
    else
      Rows((x & 0xFF) as bv8, ((x >> 8) & 0xFF) as bv8, ((x >> 16) & 0xFF) as bv8, (x >> 24) as bv8,
           (y & 0xFF) as bv8, ((y >> 8) & 0xFF) as bv8, ((y >> 16) & 0xFF) as bv8, (y >> 24) as bv8)
  }

  // ---- the swap networks --------------------------------------------------

  function SwapsWide64(x: bv64): bv64 {
    var t := (x ^ (x << 8)) & 0xFF00FF00FF00FF00;
    var x := x ^ t ^ (t >> 8);
    var t := (x ^ (x << 9)) & 0xAA00AA00AA00AA00;
    var x := x ^ t ^ (t >> 9);

    var t := (x ^ (x << 16)) & 0xFFFF0000FFFF0000;
    var x := x ^ t ^ (t >> 16);
    var t := (x ^ (x << 18)) & 0xCCCC0000CCCC0000;
    var x := x ^ t ^ (t >> 18);

    var t := (x ^ (x << 32)) & 0xFFFFFFFF00000000;
    var x := x ^ t ^ (t >> 32);
    var t := (x ^ (x << 36)) & 0xF0F0F0F000000000;
    x ^ t ^ (t >> 36)
  }

  function SwapsNarrow64(x: bv64): bv64 {
    var t := (x ^ (x << 8)) & 0xFF00FF00FF00FF00;
    var x := x ^ t ^ (t >> 8);
    var t := (x ^ (x << 7)) & 0x5500550055005500;
    var x := x ^ t ^ (t >> 7);

    var t := (x ^ (x << 16)) & 0xFFFF0000FFFF0000;
    var x := x ^ t ^ (t >> 16);
    var t := (x ^ (x << 14)) & 0x3333000033330000;
    var x := x ^ t ^ (t >> 14);

    var t := (x ^ (x << 32)) & 0xFFFFFFFF00000000;
    var x := x ^ t ^ (t >> 32);
    var t := (x ^ (x << 28)) & 0x0F0F0F0F00000000;
    x ^ t ^ (t >> 28)
  }

  function SwapsWide32(x: bv32): bv32 {
    var t := (x ^ (x << 8)) & 0xFF00FF00;
    var x := x ^ t ^ (t >> 8);
    var t := (x ^ (x << 9)) & 0xAA00AA00;
    var x := x ^ t ^ (t >> 9);

    var t := (x ^ (x << 16)) & 0xFFFF0000;
    var x := x ^ t ^ (t >> 16);
    var t := (x ^ (x << 18)) & 0xCCCC0000;
    x ^ t ^ (t >> 18)
  }

  function SwapsNarrow32(x: bv32): bv32 {
    var t := (x ^ (x << 8)) & 0xFF00FF00;
    var x := x ^ t ^ (t >> 8);
    var t := (x ^ (x << 7)) & 0x55005500;
    var x := x ^ t ^ (t >> 7);

    var t := (x ^ (x << 16)) & 0xFFFF0000;
    var x := x ^ t ^ (t >> 16);
    var t := (x ^ (x << 14)) & 0x33330000;
    x ^ t ^ (t >> 14)
  }

  function Reverse64(x: bv64): bv64 {
    var x := (x >> 32) | (x << 32);
    var x := ((x & 0xFFFF0000FFFF0000) >> 16) | ((x & 0x0000FFFF0000FFFF) << 16);
    var x := ((x & 0xFF00FF00FF00FF00) >> 8) | ((x & 0x00FF00FF00FF00FF) << 8);
    var x := ((x & 0xF0F0F0F0F0F0F0F0) >> 4) | ((x & 0x0F0F0F0F0F0F0F0F) << 4);
    var x := ((x & 0xCCCCCCCCCCCCCCCC) >> 2) | ((x & 0x3333333333333333) << 2);
    ((x & 0xAAAAAAAAAAAAAAAA) >> 1) | ((x & 0x5555555555555555) << 1)
  }

  function Reverse32(x: bv32): bv32 {
    var x := (x >> 16) | (x << 16);
    var x := ((x & 0xFF00FF00) >> 8) | ((x & 0x00FF00FF) << 8);
    var x := ((x & 0xF0F0F0F0) >> 4) | ((x & 0x0F0F0F0F) << 4);
    var x := ((x & 0xCCCCCCCC) >> 2) | ((x & 0x33333333) << 2);
    ((x & 0xAAAAAAAA) >> 1) | ((x & 0x55555555) << 1)
  }

  // ---- the three callbacks on eight bytes ---------------------------------

  /** The words stored back by the 32-bit builds, each half from both inputs. */
  function R90First(x: bv32, y: bv32): bv32 { ((x & 0xF0F0F0F0) >> 4) | (y & 0xF0F0F0F0) }
  function R90Second(x: bv32, y: bv32): bv32 { (x & 0x0F0F0F0F) | ((y & 0x0F0F0F0F) << 4) }
  function R270First(x: bv32, y: bv32): bv32 { ((x & 0x0F0F0F0F) << 4) | (y & 0x0F0F0F0F) }
  function R270Second(x: bv32, y: bv32): bv32 { (x & 0xF0F0F0F0) | ((y & 0xF0F0F0F0) >> 4) }

  function R90Lp64(big: bool, m: Rows): Rows {
    Store64(big, if big then SwapsNarrow64(Load64(big, m)) else SwapsWide64(Load64(big, m)))
  }

  function R90Words32(big: bool, m: Rows): Rows {
    var x := Load32(big, m.r0, m.r1, m.r2, m.r3);
    var y := Load32(big, m.r4, m.r5, m.r6, m.r7);
    var x := if big then SwapsNarrow32(x) else SwapsWide32(x);
    var y := if big then SwapsNarrow32(y) else SwapsWide32(y);
    Store32(big, R90First(x, y), R90Second(x, y))
  }

  function R180Lp64(big: bool, m: Rows): Rows {
    Store64(big, Reverse64(Load64(big, m)))
  }

  function R180Words32(big: bool, m: Rows): Rows {
    var x := Reverse32(Load32(big, m.r0, m.r1, m.r2, m.r3));
    var y := Reverse32(Load32(big, m.r4, m.r5, m.r6, m.r7));
    Store32(big, y, x)
  }

  function R270Lp64(big: bool, m: Rows): Rows {
    Store64(big, if big then SwapsWide64(Load64(big, m)) else SwapsNarrow64(Load64(big, m)))
  }

  function R270Words32(big: bool, m: Rows): Rows {
    var x := Load32(big, m.r0, m.r1, m.r2, m.r3);
    var y := Load32(big, m.r4, m.r5, m.r6, m.r7);
    var x := if big then SwapsWide32(x) else SwapsNarrow32(x);
    var y := if big then SwapsWide32(y) else SwapsNarrow32(y);
    Store32(big, R270First(x, y), R270Second(x, y))
  }

  function MapCb(rot: Rotation, arch: Arch, m: Rows): Rows {
    match (rot, arch)
    case (R0, _) => m
    case (R90, Lp64(big)) => R90Lp64(big, m)
    case (R90, Words32(big)) => R90Words32(big, m)
    case (R180, Lp64(big)) => R180Lp64(big, m)
    case (R180, Words32(big)) => R180Words32(big, m)
    case (R270, Lp64(big)) => R270Lp64(big, m)
    case (R270, Words32(big)) => R270Words32(big, m)
  }

  // ---- byte order ---------------------------------------------------------

  function ByteSwap64(x: bv64): bv64 {
    ((x >> 56) & 0xFF) | ((x >> 40) & 0xFF00) | ((x >> 24) & 0xFF0000) | ((x >> 8) & 0xFF000000) |
    ((x << 8) & 0xFF00000000) | ((x << 24) & 0xFF0000000000) | ((x << 40) & 0xFF000000000000) | (x << 56)
  }

  function ByteSwap32(x: bv32): bv32 {
    ((x >> 24) & 0xFF) | ((x >> 8) & 0xFF00) | ((x << 8) & 0xFF0000) | (x << 24)
  }

  function Join(x: bv32, y: bv32): bv64 { (x as bv64) | ((y as bv64) << 32) }

  function First(x: bv64): bv32 { (x & 0xFFFFFFFF) as bv32 }
  function Second(x: bv64): bv32 { (x >> 32) as bv32 }

  lemma LoadBig64(m: Rows)
    ensures Load64(true, m) == ByteSwap64(Load64(false, m))
  {
  }

  lemma StoreBig64(x: bv64)
    ensures Store64(true, x) == Store64(false, ByteSwap64(x))
  {
  }

  lemma LoadBig32(a: bv8, b: bv8, c: bv8, d: bv8)
    ensures Load32(true, a, b, c, d) == ByteSwap32(Load32(false, a, b, c, d))
  {
  }

  lemma StoreBig32(x: bv32, y: bv32)
    ensures Store32(true, x, y) == Store32(false, ByteSwap32(x), ByteSwap32(y))
  {
  }

  lemma LoadFirst(m: Rows)
    ensures First(Load64(false, m)) == Load32(false, m.r0, m.r1, m.r2, m.r3)
  {
  }

  lemma LoadSecond(m: Rows)
    ensures Second(Load64(false, m)) == Load32(false, m.r4, m.r5, m.r6, m.r7)
  {
  }

  lemma StoreHalves(x: bv32, y: bv32)
    ensures Store32(false, x, y) == Store64(false, Join(x, y))
  {
  }

  lemma WideBig64(x: bv64)
    ensures ByteSwap64(SwapsWide64(ByteSwap64(x))) == SwapsNarrow64(x)
  {
  }

  lemma NarrowBig64(x: bv64)
    ensures ByteSwap64(SwapsNarrow64(ByteSwap64(x))) == SwapsWide64(x)
  {
  }

  lemma ReverseBig64(x: bv64)
    ensures ByteSwap64(Reverse64(ByteSwap64(x))) == Reverse64(x)
  {
  }

  lemma WideBig32(x: bv32)
    ensures ByteSwap32(SwapsWide32(ByteSwap32(x))) == SwapsNarrow32(x)
  {
  }

  lemma NarrowBig32(x: bv32)
    ensures ByteSwap32(SwapsNarrow32(ByteSwap32(x))) == SwapsWide32(x)
  {
  }

  lemma ReverseBig32(x: bv32)
    ensures ByteSwap32(Reverse32(ByteSwap32(x))) == Reverse32(x)
  {
  }

  lemma MergeBig90(x: bv32, y: bv32)
    ensures ByteSwap32(R90First(ByteSwap32(x), ByteSwap32(y))) == R90First(x, y)
    ensures ByteSwap32(R90Second(ByteSwap32(x), ByteSwap32(y))) == R90Second(x, y)
  {
  }

  lemma MergeBig270(x: bv32, y: bv32)
    ensures ByteSwap32(R270First(ByteSwap32(x), ByteSwap32(y))) == R270First(x, y)
    ensures ByteSwap32(R270Second(ByteSwap32(x), ByteSwap32(y))) == R270Second(x, y)
  {
  }

  lemma ByteSwap32Twice(x: bv32)
    ensures ByteSwap32(ByteSwap32(x)) == x
  {
  }

  lemma WideHalves(x: bv64)
    ensures var (f, s) := (SwapsWide32(First(x)), SwapsWide32(Second(x)));
      Join(R90First(f, s), R90Second(f, s)) == SwapsWide64(x)
  {
  }

  lemma NarrowHalves(x: bv64)
    ensures var (f, s) := (SwapsNarrow32(First(x)), SwapsNarrow32(Second(x)));
      Join(R270First(f, s), R270Second(f, s)) == SwapsNarrow64(x)
  {
  }

  lemma ReverseHalves(x: bv64)
    ensures Join(Reverse32(Second(x)), Reverse32(First(x))) == Reverse64(x)
  {
  }

  // ---- every build computes the same bytes --------------------------------

  lemma AgreesBig64(m: Rows)
    ensures R90Lp64(true, m) == R90Lp64(false, m)
    ensures R180Lp64(true, m) == R180Lp64(false, m)
    ensures R270Lp64(true, m) == R270Lp64(false, m)
  {
    LoadBig64(m);
    var x := Load64(false, m);
    WideBig64(x);
    NarrowBig64(x);
    ReverseBig64(x);
    StoreBig64(SwapsNarrow64(ByteSwap64(x)));
    StoreBig64(SwapsWide64(ByteSwap64(x)));
    StoreBig64(Reverse64(ByteSwap64(x)));
  }

  lemma AgreesWords32(m: Rows)
    ensures R90Words32(false, m) == R90Lp64(false, m)
    ensures R180Words32(false, m) == R180Lp64(false, m)
    ensures R270Words32(false, m) == R270Lp64(false, m)
  {
    var w := Load64(false, m);
    var x, y := First(w), Second(w);
    LoadFirst(m);
    LoadSecond(m);
    WideHalves(w);
    NarrowHalves(w);
    ReverseHalves(w);
    StoreHalves(R90First(SwapsWide32(x), SwapsWide32(y)), R90Second(SwapsWide32(x), SwapsWide32(y)));
    StoreHalves(R270First(SwapsNarrow32(x), SwapsNarrow32(y)), R270Second(SwapsNarrow32(x), SwapsNarrow32(y)));
    StoreHalves(Reverse32(y), Reverse32(x));
  }

  lemma AgreesBig32(m: Rows)
    ensures R90Words32(true, m) == R90Words32(false, m)
    ensures R180Words32(true, m) == R180Words32(false, m)
    ensures R270Words32(true, m) == R270Words32(false, m)
  {
    LoadBig32(m.r0, m.r1, m.r2, m.r3);
    LoadBig32(m.r4, m.r5, m.r6, m.r7);
    var x, y := Load32(false, m.r0, m.r1, m.r2, m.r3), Load32(false, m.r4, m.r5, m.r6, m.r7);
    Big32R90(x, y);
    Big32R180(x, y);
    Big32R270(x, y);
  }

  lemma Big32R90(x: bv32, y: bv32)
    ensures var (f, s) := (SwapsNarrow32(ByteSwap32(x)), SwapsNarrow32(ByteSwap32(y)));
      Store32(true, R90First(f, s), R90Second(f, s)) ==
      Store32(false, R90First(SwapsWide32(x), SwapsWide32(y)), R90Second(SwapsWide32(x), SwapsWide32(y)))
  {
    var f, s := SwapsWide32(x), SwapsWide32(y);
    NarrowBig32(x);
    NarrowBig32(y);
    ByteSwap32Twice(SwapsNarrow32(ByteSwap32(x)));
    ByteSwap32Twice(SwapsNarrow32(ByteSwap32(y)));
    MergeBig90(f, s);
    StoreBig32(R90First(ByteSwap32(f), ByteSwap32(s)), R90Second(ByteSwap32(f), ByteSwap32(s)));
  }

  lemma Big32R180(x: bv32, y: bv32)
    ensures Store32(true, Reverse32(ByteSwap32(y)), Reverse32(ByteSwap32(x))) == Store32(false, Reverse32(y), Reverse32(x))
  {
    ReverseBig32(x);
    ReverseBig32(y);
    StoreBig32(Reverse32(ByteSwap32(y)), Reverse32(ByteSwap32(x)));
  }

  lemma Big32R270(x: bv32, y: bv32)
    ensures var (f, s) := (SwapsWide32(ByteSwap32(x)), SwapsWide32(ByteSwap32(y)));
      Store32(true, R270First(f, s), R270Second(f, s)) ==
      Store32(false, R270First(SwapsNarrow32(x), SwapsNarrow32(y)), R270Second(SwapsNarrow32(x), SwapsNarrow32(y)))
  {
    var f, s := SwapsNarrow32(x), SwapsNarrow32(y);
    WideBig32(x);
    WideBig32(y);
    ByteSwap32Twice(SwapsWide32(ByteSwap32(x)));
    ByteSwap32Twice(SwapsWide32(ByteSwap32(y)));
    MergeBig270(f, s);
    StoreBig32(R270First(ByteSwap32(f), ByteSwap32(s)), R270Second(ByteSwap32(f), ByteSwap32(s)));
  }

  // ---- what that is -------------------------------------------------------

  // Column k of the matrix, read from the first row to the last, for each k.

  function Gather0(m: Rows): bv8 {
    (m.r0 & 1) | ((m.r1 << 1) & 2) | ((m.r2 << 2) & 4) | ((m.r3 << 3) & 8) |
    ((m.r4 << 4) & 16) | ((m.r5 << 5) & 32) | ((m.r6 << 6) & 64) | ((m.r7 << 7) & 128)
  }

  function Gather1(m: Rows): bv8 {
    ((m.r0 >> 1) & 1) | (m.r1 & 2) | ((m.r2 << 1) & 4) | ((m.r3 << 2) & 8) |
    ((m.r4 << 3) & 16) | ((m.r5 << 4) & 32) | ((m.r6 << 5) & 64) | ((m.r7 << 6) & 128)
  }

  function Gather2(m: Rows): bv8 {
    ((m.r0 >> 2) & 1) | ((m.r1 >> 1) & 2) | (m.r2 & 4) | ((m.r3 << 1) & 8) |
    ((m.r4 << 2) & 16) | ((m.r5 << 3) & 32) | ((m.r6 << 4) & 64) | ((m.r7 << 5) & 128)
  }

  function Gather3(m: Rows): bv8 {
    ((m.r0 >> 3) & 1) | ((m.r1 >> 2) & 2) | ((m.r2 >> 1) & 4) | (m.r3 & 8) |
    ((m.r4 << 1) & 16) | ((m.r5 << 2) & 32) | ((m.r6 << 3) & 64) | ((m.r7 << 4) & 128)
  }

  function Gather4(m: Rows): bv8 {
    ((m.r0 >> 4) & 1) | ((m.r1 >> 3) & 2) | ((m.r2 >> 2) & 4) | ((m.r3 >> 1) & 8) |
    (m.r4 & 16) | ((m.r5 << 1) & 32) | ((m.r6 << 2) & 64) | ((m.r7 << 3) & 128)
  }

  function Gather5(m: Rows): bv8 {
    ((m.r0 >> 5) & 1) | ((m.r1 >> 4) & 2) | ((m.r2 >> 3) & 4) | ((m.r3 >> 2) & 8) |
    ((m.r4 >> 1) & 16) | (m.r5 & 32) | ((m.r6 << 1) & 64) | ((m.r7 << 2) & 128)
  }

  function Gather6(m: Rows): bv8 {
    ((m.r0 >> 6) & 1) | ((m.r1 >> 5) & 2) | ((m.r2 >> 4) & 4) | ((m.r3 >> 3) & 8) |
    ((m.r4 >> 2) & 16) | ((m.r5 >> 1) & 32) | (m.r6 & 64) | ((m.r7 << 1) & 128)
  }

  function Gather7(m: Rows): bv8 {
    ((m.r0 >> 7) & 1) | ((m.r1 >> 6) & 2) | ((m.r2 >> 5) & 4) | ((m.r3 >> 4) & 8) |
    ((m.r4 >> 3) & 16) | ((m.r5 >> 2) & 32) | ((m.r6 >> 1) & 64) | (m.r7 & 128)
  }

  /** A byte read backwards. */
  function Mirror(v: bv8): bv8 {
    ((v >> 7) & 1) | ((v >> 5) & 2) | ((v >> 3) & 4) | ((v >> 1) & 8) |
    ((v << 1) & 16) | ((v << 3) & 32) | ((v << 5) & 64) | (v << 7)
  }

  lemma R90Gathers(m: Rows)
    ensures R90Lp64(false, m) ==
      Rows(Gather7(m), Gather6(m), Gather5(m), Gather4(m), Gather3(m), Gather2(m), Gather1(m), Gather0(m))
  {
  }

  lemma R180Mirrors(m: Rows)
    ensures R180Lp64(false, m) ==
      Rows(Mirror(m.r7), Mirror(m.r6), Mirror(m.r5), Mirror(m.r4),
           Mirror(m.r3), Mirror(m.r2), Mirror(m.r1), Mirror(m.r0))
  {
  }

  lemma R270Gathers(m: Rows)
    ensures R270Lp64(false, m) ==
      Rows(Mirror(Gather0(m)), Mirror(Gather1(m)), Mirror(Gather2(m)), Mirror(Gather3(m)),
           Mirror(Gather4(m)), Mirror(Gather5(m)), Mirror(Gather6(m)), Mirror(Gather7(m)))
  {
  }

  // ---- in terms of tiles --------------------------------------------------

  function ToRows(d: seq<byte>): Rows
    requires |d| == 8
  {
    Rows(d[0] as bv8, d[1] as bv8, d[2] as bv8, d[3] as bv8, d[4] as bv8, d[5] as bv8, d[6] as bv8, d[7] as bv8)
  }

  function Row(m: Rows, r: nat): bv8
    requires r < 8
  {
    if r == 0 then m.r0 else if r == 1 then m.r1 else if r == 2 then m.r2 else if r == 3 then m.r3
    else if r == 4 then m.r4 else if r == 5 then m.r5 else if r == 6 then m.r6 else m.r7
  }

  function FromRows(m: Rows): (d: seq<byte>)
    ensures |d| == 8
  {
    seq(8, r requires 0 <= r < 8 => Row(m, r) as int)
  }

  lemma MapCbAgrees(rot: Rotation, arch: Arch, m: Rows)
    ensures MapCb(rot, arch, m) == MapCb(rot, Lp64(false), m)
  {
    hide R90Lp64, R90Words32, R180Lp64, R180Words32, R270Lp64, R270Words32;
    AgreesBig64(m);
    AgreesWords32(m);
    AgreesBig32(m);
  }

  lemma Gather0Bit(m: Rows, c: nat)
    requires c < 8
    ensures BvBit(Gather0(m), c) == BvBit(Row(m, c), 0)
  {
  }

  lemma Gather1Bit(m: Rows, c: nat)
    requires c < 8
    ensures BvBit(Gather1(m), c) == BvBit(Row(m, c), 1)
  {
  }

  lemma Gather2Bit(m: Rows, c: nat)
    requires c < 8
    ensures BvBit(Gather2(m), c) == BvBit(Row(m, c), 2)
  {
  }

  lemma Gather3Bit(m: Rows, c: nat)
    requires c < 8
    ensures BvBit(Gather3(m), c) == BvBit(Row(m, c), 3)
  {
  }

  lemma Gather4Bit(m: Rows, c: nat)
    requires c < 8
    ensures BvBit(Gather4(m), c) == BvBit(Row(m, c), 4)
  {
  }

  lemma Gather5Bit(m: Rows, c: nat)
    requires c < 8
    ensures BvBit(Gather5(m), c) == BvBit(Row(m, c), 5)
  {
  }

  lemma Gather6Bit(m: Rows, c: nat)
    requires c < 8
    ensures BvBit(Gather6(m), c) == BvBit(Row(m, c), 6)
  {
  }

  lemma Gather7Bit(m: Rows, c: nat)
    requires c < 8
    ensures BvBit(Gather7(m), c) == BvBit(Row(m, c), 7)
  {
  }

  /** Column k of the matrix. */
  function Gather(m: Rows, k: nat): bv8
    requires k < 8
  {
    if k == 0 then Gather0(m) else if k == 1 then Gather1(m) else if k == 2 then Gather2(m) else if k == 3 then Gather3(m)
    else if k == 4 then Gather4(m) else if k == 5 then Gather5(m) else if k == 6 then Gather6(m) else Gather7(m)
  }

  lemma GatherBit(m: Rows, k: nat, c: nat)
    requires k < 8 && c < 8
    ensures BvBit(Gather(m, k), c) == BvBit(Row(m, c), k)
  {
    hide BvBit, Row, Gather0, Gather1, Gather2, Gather3, Gather4, Gather5, Gather6, Gather7;
    if k == 0 { Gather0Bit(m, c); }
    else if k == 1 { Gather1Bit(m, c); }
    else if k == 2 { Gather2Bit(m, c); }
    else if k == 3 { Gather3Bit(m, c); }
    else if k == 4 { Gather4Bit(m, c); }
    else if k == 5 { Gather5Bit(m, c); }
    else if k == 6 { Gather6Bit(m, c); }
    else { Gather7Bit(m, c); }
  }

  lemma MirrorBit(v: bv8, c: nat)
    requires c < 8
    ensures BvBit(Mirror(v), c) == BvBit(v, 7 - c)
  {
  }

  lemma R90Row(m: Rows, r: nat)
    requires r < 8
    ensures Row(R90Lp64(false, m), r) == Gather(m, 7 - r)
  {
    hide R90Lp64, Gather0, Gather1, Gather2, Gather3, Gather4, Gather5, Gather6, Gather7;
    R90Gathers(m);
  }

  lemma R180Row(m: Rows, r: nat)
    requires r < 8
    ensures Row(R180Lp64(false, m), r) == Mirror(Row(m, 7 - r))
  {
    hide R180Lp64, Mirror;
    R180Mirrors(m);
  }

  lemma R270Row(m: Rows, r: nat)
    requires r < 8
    ensures Row(R270Lp64(false, m), r) == Mirror(Gather(m, r))
  {
    hide R270Lp64, Mirror, Gather0, Gather1, Gather2, Gather3, Gather4, Gather5, Gather6, Gather7;
    R270Gathers(m);
  }

  /** Bit c of row r of the result is the bit of the argument that the rotation says. */
  lemma MapCbBit(rot: Rotation, m: Rows, r: nat, c: nat)
    requires r < 8 && c < 8
    ensures BvBit(Row(MapCb(rot, Lp64(false), m), r), c) == BvBit(Row(m, SourceRow(rot, r, c)), SourceCol(rot, r, c))
  {
    hide BvBit, Gather, Mirror, Row, R90Lp64, R180Lp64, R270Lp64;
    match rot
    case R0 =>
    case R90 =>
      R90Row(m, r);
      GatherBit(m, 7 - r, c);
    case R180 =>
      R180Row(m, r);
      MirrorBit(Row(m, 7 - r), c);
    case R270 =>
      R270Row(m, r);
      MirrorBit(Gather(m, r), c);
      GatherBit(m, r, 7 - c);
  }

  lemma BitOfRow(m: Rows, r: nat, c: nat)
    requires r < 8 && c < 8
    ensures TileOf(FromRows(m))[8 * r + c] == BvBit(Row(m, r), c)
  {
    hide BvBit, Row;
    Digits(r, c);
    BvRoundTrip(Row(m, r));
  }

  lemma FromToRows(d: seq<byte>)
    requires |d| == 8
    ensures FromRows(ToRows(d)) == d
  {
    forall i | 0 <= i < 8
      ensures FromRows(ToRows(d))[i] == d[i]
    {
      IntRoundTrip(d[i]);
    }
  }

  lemma MapCbTile(rot: Rotation, m: Rows, r: nat, c: nat)
    requires r < 8 && c < 8
    ensures TileOf(FromRows(MapCb(rot, Lp64(false), m)))[8 * r + c] == TileOf(FromRows(m))[Source(rot, r, c)]
  {
    hide MapCb, FromRows, BvBit, Row, TileOf;
    MapCbBit(rot, m, r, c);
    BitOfRow(MapCb(rot, Lp64(false), m), r, c);
    BitOfRow(m, SourceRow(rot, r, c), SourceCol(rot, r, c));
  }

  /** The word-parallel networks compute exactly the turned map, on every build. */
  lemma MapCbTurns(rot: Rotation, arch: Arch, d: seq<byte>)
    requires |d| == 8
    ensures FromRows(MapCb(rot, arch, ToRows(d))) == TurnMap(rot, d)
  {
    hide MapCb, ToRows, FromRows, TileOf, MapOf, Source;
    var m := ToRows(d);
    var m' := MapCb(rot, Lp64(false), m);
    MapCbAgrees(rot, arch, m);
    FromToRows(d);
    forall i | 0 <= i < 64
      ensures TileOf(FromRows(m'))[i] == Turn(rot, TileOf(d))[i]
    {
      MapCbTile(rot, m, i / 8, i % 8);
    }
    assert TileOf(FromRows(m')) == Turn(rot, TileOf(d));
    MapOfTileOf(FromRows(m'));
  }

  /** On any build, turning by 90 degrees twice is turning by 180, and by 90 and 270 is not turning at all. */
  lemma MapCbTwice(rot1: Rotation, rot2: Rotation, arch: Arch, d: seq<byte>)
    requires |d| == 8
    ensures FromRows(MapCb(rot2, arch, ToRows(FromRows(MapCb(rot1, arch, ToRows(d)))))) ==
            FromRows(MapCb(Compose(rot1, rot2), arch, ToRows(d)))
  {
    hide MapCb, ToRows, FromRows, TurnMap, Compose;
    MapCbTurns(rot1, arch, d);
    MapCbTurns(rot2, arch, TurnMap(rot1, d));
    MapCbTurns(Compose(rot1, rot2), arch, d);
    TurnMapTwice(rot1, rot2, d);
  }

  /** `map_cb`: rotates eight bytes of a buffer in place. */
  method RotateMap(rot: Rotation, arch: Arch, data: array<byte>, off: nat)
    requires off + 8 <= data.Length
    modifies data
    ensures data[..] == old(data[..off]) + TurnMap(rot, old(data[off..off + 8])) + old(data[off + 8..])
  {
    hide MapCb, TurnMap, ToRows, Row;
    var d := data[off..off + 8];
    var m := MapCb(rot, arch, ToRows(d));
    MapCbTurns(rot, arch, d);
    for r := 0 to 8
      invariant data[..off] == old(data[..off])
      invariant data[off..off + r] == TurnMap(rot, d)[..r]
      invariant data[off + r..] == old(data[off + r..])
    {
      data[off + r] := Row(m, r) as int;
      assert FromRows(m)[r] == Row(m, r) as int;
    }
    assert data[..] == data[..off] + data[off..off + 8] + data[off + 8..];
  }
}
