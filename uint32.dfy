/** Unsigned 32-bit integers as the C sources use them (`uint32_t`, `UL` constants). */
module Uint32 {
  const MODULUS: int := 0x1_0000_0000

  /** The values of a `uint32_t`. */
  type U32 = x: int | 0 <= x < 0x1_0000_0000

  /** Reduction modulo 2^32: what C's unsigned arithmetic does with an out-of-range result. */
  function Wrap(x: int): (r: U32)
    ensures 0 <= x < MODULUS ==> r == x
    ensures -MODULUS <= x < 0 ==> r == x + MODULUS
  {
    x % MODULUS
  }

  /** Truncating division by a positive divisor never grows the dividend. */
  lemma DivShrinks(x: nat, d: nat)
    requires d > 0
    ensures x / d <= x
  {
    var q := x / d;
    var k: nat := d - 1;
    assert q * k >= 0;
    assert q * d == q * k + q;
    assert x == q * d + x % d;
  }

  /** A divisor no larger than the dividend gives a quotient of at least 1. */
  lemma DivAtLeastOne(x: nat, d: nat)
    requires 0 < d <= x
    ensures x / d >= 1
  {
    var q := x / d;
    assert x == q * d + x % d;
    assert x % d < d;
    assert q * d > 0;
  }

  /** A divisor larger than the dividend gives quotient 0. */
  lemma DivZero(x: nat, d: nat)
    requires x < d
    ensures x / d == 0
  {
  }

  /** A byte-sized value as a 32-bit word. */
  function Widen(n: nat): bv32
    requires n < 0x100
  {
    (n as bv8) as bv32
  }

  /** Widening keeps a value below 32 (the widest PLL field). */
  lemma SmallToBv(n: nat)
    requires n < 32
    ensures Widen(n) as nat == n
  {
    ByteValue(n);
    ZeroExtend(n as bv8);
  }

  /** A value below 32 survives the trip through a byte. */
  lemma ByteValue(n: nat)
    requires n < 32
    ensures (n as bv8) as nat == n
  {
  }

  /** Zero extension to 32 bits keeps the value. */
  lemma ZeroExtend(b: bv8)
    ensures (b as bv32) as nat == b as nat
  {
  }
}
