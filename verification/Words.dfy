/**
 * Machine words as numbers.
 *
 * The header and the NAME are words that the code masks, shifts and compares, while the rest of
 * the project counts in numbers. Each word is the number its two halves spell, and comparing
 * words is comparing numbers.
 */
module Words {

  /** `p` and `q` are below `bound` and compare as told. */
  ghost predicate Ordered(lt: bool, gt: bool, eq: bool, p: nat, q: nat, bound: nat) {
    p < bound && q < bound && (p < q <==> lt) && (q < p <==> gt) && (p == q <==> eq)
  }

  /** A number from its high and low digit. */
  function Glue(base: nat, p: nat, q: nat): nat {
    base * p + q
  }

  lemma HigherDigitWins(base: nat, p: nat, q: nat, r: nat, s: nat)
    requires p < q && r < base
    ensures Glue(base, p, r) < Glue(base, q, s)
  {
    assert base * (p + 1) <= base * q;
  }

  /** Two-digit numbers compare by the high digit first. */
  lemma DigitsOrder(lt: bool, gt: bool, eq: bool, hlt: bool, hgt: bool, heq: bool, llt: bool, lgt: bool, leq: bool,
                    base: nat, p: nat, q: nat, r: nat, s: nat)
    requires Ordered(hlt, hgt, heq, p, q, base) && Ordered(llt, lgt, leq, r, s, base)
    requires !(lt && gt) && !(lt && eq) && !(gt && eq)
    requires hlt || (heq && llt) ==> lt
    requires hgt || (heq && lgt) ==> gt
    requires heq && leq ==> eq
    ensures Ordered(lt, gt, eq, Glue(base, p, r), Glue(base, q, s), Glue(base, base, 0))
  {
    HigherDigitWins(base, p, base, r, 0);
    HigherDigitWins(base, q, base, s, 0);
    if p < q { HigherDigitWins(base, p, q, r, s); }
    if q < p { HigherDigitWins(base, q, p, s, r); }
  }

  function Unsigned8(x: bv8): (r: nat)
    ensures r < 0x100
  {
    x as nat
  }

  lemma Successor8(x: bv8)
    requires x != 0xFF
    ensures Unsigned8(x + 1) == Unsigned8(x) + 1
  {
  }

  /** The byte that spells `x`. */
  function Octet8(x: nat): (w: bv8)
    requires x < 0x100
    ensures Unsigned8(w) == x
  {
    if x == 0 then 0
    else
      Successor8(Octet8(x - 1));
      Octet8(x - 1) + 1
  }

  ghost predicate Reads8(x: bv8, y: bv8, p: nat, q: nat) {
    Ordered(x < y, y < x, x == y, p, q, 0x100)
  }

  lemma Order8(x: bv8, y: bv8)
    ensures Reads8(x, y, Unsigned8(x), Unsigned8(y))
  {
  }

  // ---------------------------------------------------------------- 16 bits

  function Unsigned16(x: bv16): nat {
    Glue(0x100, Unsigned8((x >> 8) as bv8), Unsigned8((x & 0xFF) as bv8))
  }

  /** The numbers `p` and `q` compare as the words `x` and `y` do. */
  ghost predicate Reads16(x: bv16, y: bv16, p: nat, q: nat) {
    Ordered(x < y, y < x, x == y, p, q, 0x1_0000)
  }

  lemma HighHalf16(x: bv16, y: bv16)
    ensures (x >> 8) as bv8 < (y >> 8) as bv8 ==> x < y
  {
  }

  lemma LowHalf16(x: bv16, y: bv16)
    ensures (x >> 8) as bv8 == (y >> 8) as bv8 && (x & 0xFF) as bv8 < (y & 0xFF) as bv8 ==> x < y
  {
  }

  lemma BothHalves16(x: bv16, y: bv16)
    ensures (x >> 8) as bv8 == (y >> 8) as bv8 && (x & 0xFF) as bv8 == (y & 0xFF) as bv8 ==> x == y
  {
  }

  lemma Strict16(x: bv16, y: bv16)
    ensures x < y ==> !(y < x) && x != y
  {
  }

  lemma HalvesRead16(x: bv16, y: bv16, p: nat, q: nat, r: nat, s: nat)
    requires Reads8((x >> 8) as bv8, (y >> 8) as bv8, p, q)
    requires Reads8((x & 0xFF) as bv8, (y & 0xFF) as bv8, r, s)
    ensures Reads16(x, y, Glue(0x100, p, r), Glue(0x100, q, s))
  {
    HighHalf16(x, y);
    HighHalf16(y, x);
    LowHalf16(x, y);
    LowHalf16(y, x);
    BothHalves16(x, y);
    Strict16(x, y);
    Strict16(y, x);
    DigitsOrder(x < y, y < x, x == y,
                (x >> 8) as bv8 < (y >> 8) as bv8, (y >> 8) as bv8 < (x >> 8) as bv8,
                (x >> 8) as bv8 == (y >> 8) as bv8,
                (x & 0xFF) as bv8 < (y & 0xFF) as bv8, (y & 0xFF) as bv8 < (x & 0xFF) as bv8,
                (x & 0xFF) as bv8 == (y & 0xFF) as bv8,
                0x100, p, q, r, s);
  }

  lemma Order16(x: bv16, y: bv16)
    ensures Reads16(x, y, Unsigned16(x), Unsigned16(y))
  {
    Order8((x >> 8) as bv8, (y >> 8) as bv8);
    Order8((x & 0xFF) as bv8, (y & 0xFF) as bv8);
    HalvesRead16(x, y, Unsigned8((x >> 8) as bv8), Unsigned8((y >> 8) as bv8), Unsigned8((x & 0xFF) as bv8),
        Unsigned8((y & 0xFF) as bv8));
  }

  // ---------------------------------------------------------------- 32 bits

  function Unsigned32(x: bv32): nat {
    Glue(0x1_0000, Unsigned16((x >> 16) as bv16), Unsigned16((x & 0xFFFF) as bv16))
  }

  /** The numbers `p` and `q` compare as the words `x` and `y` do. */
  ghost predicate Reads32(x: bv32, y: bv32, p: nat, q: nat) {
    Ordered(x < y, y < x, x == y, p, q, 0x1_0000_0000)
  }

  lemma HighHalf32(x: bv32, y: bv32)
    ensures (x >> 16) as bv16 < (y >> 16) as bv16 ==> x < y
  {
  }

  lemma LowHalf32(x: bv32, y: bv32)
    ensures (x >> 16) as bv16 == (y >> 16) as bv16 && (x & 0xFFFF) as bv16 < (y & 0xFFFF) as bv16 ==> x < y
  {
  }

  lemma BothHalves32(x: bv32, y: bv32)
    ensures (x >> 16) as bv16 == (y >> 16) as bv16 && (x & 0xFFFF) as bv16 == (y & 0xFFFF) as bv16 ==> x == y
  {
  }

  lemma Strict32(x: bv32, y: bv32)
    ensures x < y ==> !(y < x) && x != y
  {
  }

  lemma HalvesRead32(x: bv32, y: bv32, p: nat, q: nat, r: nat, s: nat)
    requires Reads16((x >> 16) as bv16, (y >> 16) as bv16, p, q)
    requires Reads16((x & 0xFFFF) as bv16, (y & 0xFFFF) as bv16, r, s)
    ensures Reads32(x, y, Glue(0x1_0000, p, r), Glue(0x1_0000, q, s))
  {
    HighHalf32(x, y);
    HighHalf32(y, x);
    LowHalf32(x, y);
    LowHalf32(y, x);
    BothHalves32(x, y);
    Strict32(x, y);
    Strict32(y, x);
    DigitsOrder(x < y, y < x, x == y,
                (x >> 16) as bv16 < (y >> 16) as bv16, (y >> 16) as bv16 < (x >> 16) as bv16,
                (x >> 16) as bv16 == (y >> 16) as bv16,
                (x & 0xFFFF) as bv16 < (y & 0xFFFF) as bv16, (y & 0xFFFF) as bv16 < (x & 0xFFFF) as bv16,
                (x & 0xFFFF) as bv16 == (y & 0xFFFF) as bv16,
                0x1_0000, p, q, r, s);
  }

  lemma Order32(x: bv32, y: bv32)
    ensures Reads32(x, y, Unsigned32(x), Unsigned32(y))
  {
    Order16((x >> 16) as bv16, (y >> 16) as bv16);
    Order16((x & 0xFFFF) as bv16, (y & 0xFFFF) as bv16);
    HalvesRead32(x, y, Unsigned16((x >> 16) as bv16), Unsigned16((y >> 16) as bv16),
        Unsigned16((x & 0xFFFF) as bv16), Unsigned16((y & 0xFFFF) as bv16));
  }

  // ---------------------------------------------------------------- 64 bits

  function Unsigned64(x: bv64): nat {
    Glue(0x1_0000_0000, Unsigned32((x >> 32) as bv32), Unsigned32((x & 0xFFFF_FFFF) as bv32))
  }

  /** The numbers `p` and `q` compare as the words `x` and `y` do. */
  ghost predicate Reads64(x: bv64, y: bv64, p: nat, q: nat) {
    Ordered(x < y, y < x, x == y, p, q, 0x1_0000_0000_0000_0000)
  }

  lemma HighHalf64(x: bv64, y: bv64)
    ensures (x >> 32) as bv32 < (y >> 32) as bv32 ==> x < y
  {
  }

  lemma LowHalf64(x: bv64, y: bv64)
    ensures (x >> 32) as bv32 == (y >> 32) as bv32 && (x & 0xFFFF_FFFF) as bv32 < (y & 0xFFFF_FFFF) as bv32 ==> x < y
  {
  }

  lemma BothHalves64(x: bv64, y: bv64)
    ensures (x >> 32) as bv32 == (y >> 32) as bv32 && (x & 0xFFFF_FFFF) as bv32 == (y & 0xFFFF_FFFF) as bv32 ==> x == y
  {
  }

  lemma Strict64(x: bv64, y: bv64)
    ensures x < y ==> !(y < x) && x != y
  {
  }

  lemma HalvesRead64(x: bv64, y: bv64, p: nat, q: nat, r: nat, s: nat)
    requires Reads32((x >> 32) as bv32, (y >> 32) as bv32, p, q)
    requires Reads32((x & 0xFFFF_FFFF) as bv32, (y & 0xFFFF_FFFF) as bv32, r, s)
    ensures Reads64(x, y, Glue(0x1_0000_0000, p, r), Glue(0x1_0000_0000, q, s))
  {
    HighHalf64(x, y);
    HighHalf64(y, x);
    LowHalf64(x, y);
    LowHalf64(y, x);
    BothHalves64(x, y);
    Strict64(x, y);
    Strict64(y, x);
    DigitsOrder(x < y, y < x, x == y,
                (x >> 32) as bv32 < (y >> 32) as bv32, (y >> 32) as bv32 < (x >> 32) as bv32,
                (x >> 32) as bv32 == (y >> 32) as bv32,
                (x & 0xFFFF_FFFF) as bv32 < (y & 0xFFFF_FFFF) as bv32,
                (y & 0xFFFF_FFFF) as bv32 < (x & 0xFFFF_FFFF) as bv32,
                (x & 0xFFFF_FFFF) as bv32 == (y & 0xFFFF_FFFF) as bv32,
                0x1_0000_0000, p, q, r, s);
  }

  lemma Order64(x: bv64, y: bv64)
    ensures Reads64(x, y, Unsigned64(x), Unsigned64(y))
  {
    Order32((x >> 32) as bv32, (y >> 32) as bv32);
    Order32((x & 0xFFFF_FFFF) as bv32, (y & 0xFFFF_FFFF) as bv32);
    HalvesRead64(x, y, Unsigned32((x >> 32) as bv32), Unsigned32((y >> 32) as bv32),
        Unsigned32((x & 0xFFFF_FFFF) as bv32), Unsigned32((y & 0xFFFF_FFFF) as bv32));
  }
}
