/**
  Java's 64-bit `long` arithmetic on unbounded integers: a long is an integer
  in [LONG_MIN, LONG_MAX], its bit pattern is that integer modulo 2^64, and
  `<<` and `|` act on the bit pattern and read the result back as a signed
  number, as the JVM does.
*/
module JavaLong {
  import opened Strings

  function Pow2(k: nat): (p: nat)
    ensures p >= 1
  {
    if k == 0 then 1 else 2 * Pow2(k - 1)
  }

  const TWO_64: nat := 0x1_0000_0000_0000_0000

  predicate IsLong(x: int) { LONG_MIN <= x <= LONG_MAX }

  /** The two's-complement bit pattern of x, read as an unsigned number. */
  function Bits(x: int): (u: nat)
    ensures u < TWO_64
  {
    x % TWO_64
  }

  /** The long whose bit pattern is u. */
  function FromBits(u: nat): (x: int)
    requires u < TWO_64
    ensures IsLong(x) && Bits(x) == u
    ensures x >= 0 <==> u <= LONG_MAX
  {
    if u <= LONG_MAX then u else u - TWO_64
  }

  /** Bitwise or of two non-negative numbers, bit by bit from the lowest. */
  function OrNat(a: nat, b: nat): nat
    decreases a + b
  {
    if a == 0 then b
    else if b == 0 then a
    else 2 * OrNat(a / 2, b / 2) + (if a % 2 == 1 || b % 2 == 1 then 1 else 0)
  }

  lemma OrNatZero(x: nat)
    ensures OrNat(x, 0) == x
  {}

  /** One bit position: or-ing two numbers is or-ing their higher bits and their lowest bit. */
  lemma OrNatStep(p: nat, q: nat, r: nat)
    requires r < 2
    ensures OrNat(2 * p, 2 * q + r) == 2 * OrNat(p, q) + r
  {
    if p != 0 && 2 * q + r == 0 {
      OrNatZero(p);
      OrNatZero(2 * p);
    }
  }

  /** x shifted left by k bits, one doubling at a time. */
  function Shl(x: nat, k: nat): nat
  {
    if k == 0 then x else 2 * Shl(x, k - 1)
  }

  lemma {:induction false} ShlIsProduct(x: nat, k: nat)
    ensures Shl(x, k) == x * Pow2(k)
  {
    if k > 0 {
      ShlIsProduct(x, k - 1);
      assert x * (2 * Pow2(k - 1)) == 2 * (x * Pow2(k - 1));
    }
  }

  lemma {:induction false} OrNatShl(x: nat, y: nat, b: nat, k: nat)
    requires b < Pow2(k)
    ensures OrNat(Shl(x, k), Shl(y, k) + b) == Shl(OrNat(x, y), k) + b
  {
    if k > 0 {
      OrNatShl(x, y, b / 2, k - 1);
      OrNatStep(Shl(x, k - 1), Shl(y, k - 1) + b / 2, b % 2);
    }
  }

  /** Or-ing with a number whose low k bits are clear leaves those k bits of the other operand as they are. */
  lemma OrNatShifted(x: nat, y: nat, b: nat, k: nat)
    requires b < Pow2(k)
    ensures OrNat(x * Pow2(k), y * Pow2(k) + b) == OrNat(x, y) * Pow2(k) + b
  {
    ShlIsProduct(x, k);
    ShlIsProduct(y, k);
    ShlIsProduct(OrNat(x, y), k);
    OrNatShl(x, y, b, k);
  }

  /** Or never sets a bit above the highest bit of its operands. */
  lemma {:induction false} OrNatBound(a: nat, b: nat, k: nat)
    requires a < Pow2(k) && b < Pow2(k)
    ensures OrNat(a, b) < Pow2(k)
    decreases k
  {
    if a != 0 && b != 0 {
      assert k > 0;
      OrNatBound(a / 2, b / 2, k - 1);
    }
  }

  lemma {:induction false} Pow2Add(a: nat, b: nat)
    ensures Pow2(a + b) == Pow2(a) * Pow2(b)
  {
    if a > 0 {
      Pow2Add(a - 1, b);
    }
  }

  lemma Pow2Of32()
    ensures Pow2(32) == 0x1_0000_0000
  {
    assert Pow2(8) == 0x100;
    Pow2Add(8, 8);
    Pow2Add(16, 16);
  }

  lemma Pow2Of64()
    ensures Pow2(64) == TWO_64
  {
    Pow2Of32();
    Pow2Add(32, 32);
  }

  /** Java's `x << n` on a long, for a shift distance below 64. */
  function ShiftLeft(x: int, n: nat): (r: int)
    requires n < 64
    ensures IsLong(r)
  {
    FromBits(Bits(x) * Pow2(n) % TWO_64)
  }

  /** Java's `a | b` on two longs. */
  function BitOr(a: int, b: int): (r: int)
    ensures IsLong(r)
  {
    Pow2Of64();
    OrNatBound(Bits(a), Bits(b), 64);
    FromBits(OrNat(Bits(a), Bits(b)))
  }

  /** A shift that keeps a non-negative value within the long range is a multiplication. */
  lemma ShiftLeftExact(x: int, n: nat)
    requires n < 64 && 0 <= x && x * Pow2(n) <= LONG_MAX
    ensures ShiftLeft(x, n) == x * Pow2(n)
  {
    assert Bits(x) == x;
    assert Bits(x) * Pow2(n) % TWO_64 == x * Pow2(n);
  }

  /** Or-ing two shifted values with low bits b is or-ing the unshifted ones, shifted, with b below. */
  lemma BitOrShifted(x: nat, y: nat, b: nat, k: nat)
    requires b < Pow2(k)
    requires x * Pow2(k) <= LONG_MAX && y * Pow2(k) + b <= LONG_MAX && OrNat(x, y) * Pow2(k) + b <= LONG_MAX
    ensures BitOr(x * Pow2(k), y * Pow2(k) + b) == OrNat(x, y) * Pow2(k) + b
  {
    NonNegativeProduct(x, Pow2(k));
    NonNegativeProduct(y, Pow2(k));
    BitsOfLong(x * Pow2(k));
    BitsOfLong(y * Pow2(k) + b);
    OrNatShifted(x, y, b, k);
  }

  /** Or-ing in a value that fits the clear low k bits is an addition. */
  lemma BitOrDisjoint(x: int, b: int, k: nat)
    requires 0 <= x && 0 <= b < Pow2(k) && x * Pow2(k) + b <= LONG_MAX
    ensures BitOr(x * Pow2(k), b) == x * Pow2(k) + b
  {
    NonNegativeProduct(x, Pow2(k));
    OrNatZero(x);
    assert 0 * Pow2(k) + b == b;
    BitOrShifted(x, 0, b, k);
  }

  /** Setting the lowest bit of an even number adds one. */
  lemma OrNatEvenOne(x: nat)
    requires x % 2 == 0
    ensures OrNat(x, 1) == x + 1
  {
    if x != 0 {
      OrNatStep(x / 2, 0, 1);
      OrNatZero(x / 2);
    }
  }

  lemma NonNegativeProduct(a: int, b: int)
    requires 0 <= a && 0 <= b
    ensures 0 <= a * b
  {}

  lemma BitsOfLong(n: int)
    requires 0 <= n <= LONG_MAX
    ensures Bits(n) == n
  {}

  /** Long.intValue: the low 32 bits, read as a signed int. */
  function IntValue(x: int): (r: int)
    ensures -0x8000_0000 <= r < 0x8000_0000
    ensures -0x8000_0000 <= x < 0x8000_0000 ==> r == x
  {
    (x + 0x8000_0000) % 0x1_0000_0000 - 0x8000_0000
  }
}
