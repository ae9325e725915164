/** Bit operations on unsigned bit patterns, and what they are as arithmetic. */
module Bits {

  function Pow2(k: nat): (p: nat)
    ensures p > 0
  {
    if k == 0 then 1 else 2 * Pow2(k - 1)
  }

  function And(a: nat, b: nat): nat
  {
    if a == 0 || b == 0 then 0
    else 2 * And(a / 2, b / 2) + (if a % 2 == 1 && b % 2 == 1 then 1 else 0)
  }

  function Or(a: nat, b: nat): nat
    decreases a + b
  {
    if a == 0 && b == 0 then 0
    else 2 * Or(a / 2, b / 2) + (if a % 2 == 1 || b % 2 == 1 then 1 else 0)
  }

  const U32: nat := 0x1_0000_0000

  /** `x << k` on 32 bits. */
  function Shl32(x: nat, k: nat): nat
  {
    if k == 0 then x else 2 * Shl32(x, k - 1) % U32
  }

  /** `x >> k` of an unsigned pattern. */
  function Shr(x: nat, k: nat): nat
  {
    if k == 0 then x else Shr(x, k - 1) / 2
  }

  /** The top `bits` bits of a number of `width` bits. */
  function TopBits(x: nat, width: nat, bits: nat): int
    requires bits <= width
  {
    x / Pow2(width - bits)
  }

  // ---------------------------------------------------------------------------
  // Arithmetic meaning
  // ---------------------------------------------------------------------------

  lemma {:induction false} Pow2Grows(k: nat, n: nat)
    requires k <= n
    ensures Pow2(k) <= Pow2(n)
  {
    if k < n { Pow2Grows(k, n - 1); }
  }

  lemma DivUnique(x: int, n: int, q: int)
    requires n > 0 && q * n <= x < q * n + n
    ensures x / n == q
  {
    var d := x / n - q;
    assert (x / n) * n <= x < (x / n) * n + n;
    assert d * n == (x / n) * n - q * n;
    assert -n < d * n < n;
    SmallMultiple(d, n);
  }

  lemma SmallMultiple(d: int, n: int)
    requires -n < d * n < n
    ensures d == 0
  {
  }

  lemma HalveQuotient(x: nat, p: nat)
    requires p > 0
    ensures x / p / 2 == x / (2 * p)
  {
    var q, r := x / p, x % p;
    var h, e := q / 2, q % 2;
    assert x == q * p + r;
    assert q * p == (2 * h + e) * p == h * (2 * p) + e * p;
    assert e * p <= p by { Scale(e, 1, p); }
    DivUnique(x, 2 * p, h);
  }

  lemma HalveRemainder(x: nat, p: nat)
    requires p > 0
    ensures x % (2 * p) == 2 * (x / 2 % p) + x % 2
  {
    var q, r := x / 2 / p, x / 2 % p;
    assert x / 2 == q * p + r;
    assert q * (2 * p) == 2 * (q * p);
    DivUnique(x, 2 * p, q);
  }

  /** Shifting right divides. */
  lemma {:induction false} ShrIsDivision(x: nat, k: nat)
    ensures Shr(x, k) == x / Pow2(k)
  {
    if k > 0 {
      ShrIsDivision(x, k - 1);
      HalveQuotient(x, Pow2(k - 1));
    }
  }

  lemma TopBitsShift(x: nat, width: nat, bits: nat)
    requires bits <= width
    ensures TopBits(x, width, bits) == Shr(x, width - bits)
  {
    ShrIsDivision(x, width - bits);
  }

  lemma {:induction false} ShrHalve(x: nat, k: nat)
    ensures Shr(x / 2, k) == Shr(x, k) / 2
  {
    if k > 0 { ShrHalve(x, k - 1); }
  }

  /** A shift of a sum of high and low parts keeps the high part. */
  lemma {:induction false} ShrSplit(high: nat, low: nat, k: nat)
    requires low < Pow2(k)
    ensures Shr(high * Pow2(k) + low, k) == high
  {
    ShrIsDivision(high * Pow2(k) + low, k);
    DivUnique(high * Pow2(k) + low, Pow2(k), high);
  }

  /** A shift within the low byte keeps what is above it. */
  lemma {:induction false} ShrByte(high: nat, low: nat, k: nat)
    requires k <= 8
    ensures Shr(high * 256 + low, k) == high * Pow2(8 - k) + Shr(low, k)
  {
    if k == 0 {
      assert Pow2(8) == 256;
    } else {
      ShrByte(high, low, k - 1);
      assert high * Pow2(9 - k) == 2 * (high * Pow2(8 - k));
    }
  }

  lemma {:induction false} ShrShr(x: nat, i: nat, j: nat)
    ensures Shr(Shr(x, i), j) == Shr(x, i + j)
  {
    if j > 0 { ShrShr(x, i, j - 1); }
  }

  // ---------------------------------------------------------------------------
  // Masks
  // ---------------------------------------------------------------------------

  lemma {:induction false} AndAllOnes(x: nat, n: nat)
    requires x < Pow2(n)
    ensures And(x, Pow2(n) - 1) == x
  {
    if x > 0 {
      AndAllOnes(x / 2, n - 1);
    }
  }

  /** The mask of the high `n - k` ones of `n` bits. */
  function HighMask(n: nat, k: nat): nat
    requires k <= n
  {
    Pow2Grows(k, n);
    Pow2(n) - Pow2(k)
  }

  lemma AndEven(x: nat, m: nat)
    ensures And(x, 2 * m) == 2 * And(x / 2, m)
  {
    assert 2 * m / 2 == m && 2 * m % 2 == 0;
  }

  /** Two numbers agree under a mask of high ones exactly when their high parts agree. */
  lemma {:induction false} SameUnderMask(x: nat, y: nat, n: nat, k: nat)
    requires k <= n && x < Pow2(n) && y < Pow2(n)
    ensures And(x, HighMask(n, k)) == And(y, HighMask(n, k)) <==> Shr(x, k) == Shr(y, k)
  {
    if k == 0 {
      AndAllOnes(x, n);
      AndAllOnes(y, n);
    } else {
      SameUnderMask(x / 2, y / 2, n - 1, k - 1);
      AndEven(x, HighMask(n - 1, k - 1));
      AndEven(y, HighMask(n - 1, k - 1));
      ShrHalve(x, k - 1);
      ShrHalve(y, k - 1);
    }
  }

  lemma Pow2Values()
    ensures Pow2(8) == 256 && Pow2(16) == 65536 && Pow2(24) == 0x100_0000 && Pow2(32) == U32
  {
  }

  /** `(0xffffffff << k) >>> 0`. */
  lemma {:induction false} ShiftedOnes(k: nat)
    requires k < 32
    ensures Shl32(U32 - 1, k) == HighMask(32, k)
  {
    Pow2Values();
    Pow2Grows(k, 31);
    if k > 0 {
      ShiftedOnes(k - 1);
      assert Pow2(k) == 2 * Pow2(k - 1);
    }
  }

  /** `(0xff << k) & 0xff`. */
  lemma ShiftedByteOnes(k: nat)
    requires k < 8
    ensures And(Shl32(0xff, k), 0xff) == HighMask(8, k)
  {
    ShiftInto(0xff, k);
    LowByte(0xff * Pow2(k));
    Pow2Grows(k, 7);
    DivUnique(0xff * Pow2(k), 256, Pow2(k) - 1);
  }

  /** `x & 0xff`. */
  lemma LowByte(x: nat)
    ensures And(x, 0xff) == x % 256
  {
    LowBits(x, 8);
    LowIsRemainder(x, 8);
    assert Pow2(8) == 256;
  }

  lemma {:induction false} LowIsRemainder(x: nat, k: nat)
    ensures Low(x, k) == x % Pow2(k)
  {
    if k > 0 {
      LowIsRemainder(x / 2, k - 1);
      HalveRemainder(x, Pow2(k - 1));
    }
  }

  /** The low `k` bits, one by one. */
  function Low(x: nat, k: nat): nat
  {
    if k == 0 then 0 else 2 * Low(x / 2, k - 1) + x % 2
  }

  lemma {:induction false} LowBits(x: nat, k: nat)
    ensures And(x, Pow2(k) - 1) == Low(x, k)
  {
    if k > 0 {
      LowBits(x / 2, k - 1);
      LowZero(k);
      LowZero(k - 1);
    }
  }

  lemma {:induction false} LowZero(k: nat)
    ensures Low(0, k) == 0
  {
    if k > 0 { LowZero(k - 1); }
  }

  // ---------------------------------------------------------------------------
  // Joining fields
  // ---------------------------------------------------------------------------

  lemma {:induction false} LowOfMultiple(a: nat, k: nat)
    ensures Low(a * Pow2(k), k) == 0
  {
    if k > 0 {
      LowOfMultiple(a, k - 1);
      assert a * Pow2(k) == 2 * (a * Pow2(k - 1));
    }
  }

  lemma DoubleProduct(a: nat, p: nat)
    ensures a * (2 * p) == 2 * (a * p)
  {
  }

  lemma ByteTimes(a: nat, p: nat)
    requires a < 256 && p <= 0x100_0000
    ensures 0 <= a * p < U32
  {
    Scale(a, 255, p);
  }

  lemma {:induction false} ShiftInto(a: nat, k: nat)
    requires k <= 24 && a < 256
    ensures Shl32(a, k) == a * Pow2(k) < U32
  {
    Pow2Grows(k, 24);
    Pow2Values();
    ByteTimes(a, Pow2(k));
    if k > 0 {
      ShiftInto(a, k - 1);
      DoubleProduct(a, Pow2(k - 1));
    }
  }

  lemma Scale(a: nat, b: nat, p: nat)
    requires a <= b
    ensures a * p <= b * p
  {
  }

  lemma {:induction false} OrZero(a: nat)
    ensures Or(a, 0) == a
  {
    if a > 0 { OrZero(a / 2); }
  }

  /** Bits that do not overlap add up. */
  lemma {:induction false} OrDisjoint(x: nat, b: nat, k: nat)
    requires Low(x, k) == 0 && b < Pow2(k)
    ensures Or(x, b) == x + b
  {
    if k == 0 {
      OrZero(x);
    } else if x != 0 || b != 0 {
      OrDisjoint(x / 2, b / 2, k - 1);
    }
  }
}
