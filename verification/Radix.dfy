/** Numbers as digit lists, most significant first. */
module Radix {
  import opened Bits

  function Horner(ds: seq<nat>, base: nat): nat
  {
    if ds == [] then 0 else Horner(ds[..|ds|-1], base) * base + ds[|ds|-1]
  }

  function Power(base: nat, k: nat): nat
  {
    if k == 0 then 1 else Power(base, k - 1) * base
  }

  predicate DigitsBelow(ds: seq<nat>, base: nat)
  {
    forall i | 0 <= i < |ds| :: ds[i] < base
  }

  lemma SameDigits(h: nat, d: nat, k: nat, e: nat, base: nat)
    requires d < base && e < base && h * base + d == k * base + e
    ensures h == k && d == e
  {
    assert (h - k) * base == h * base - k * base;
    SmallMultiple(h - k, base);
  }

  /** Digit lists of one length are equal exactly when their numbers are. */
  lemma {:induction false} HornerInjective(a: seq<nat>, b: seq<nat>, base: nat)
    requires |a| == |b| && DigitsBelow(a, base) && DigitsBelow(b, base)
    ensures Horner(a, base) == Horner(b, base) <==> a == b
  {
    if a != [] && Horner(a, base) == Horner(b, base) {
      var n := |a| - 1;
      SameDigits(Horner(a[..n], base), a[n], Horner(b[..n], base), b[n], base);
      HornerInjective(a[..n], b[..n], base);
      assert a == a[..n] + [a[n]] && b == b[..n] + [b[n]];
    }
  }

  lemma {:induction false} HornerConcat(a: seq<nat>, b: seq<nat>, base: nat)
    ensures Horner(a + b, base) == Horner(a, base) * Power(base, |b|) + Horner(b, base)
  {
    if b == [] {
      assert a + b == a;
    } else {
      var init, d := b[..|b|-1], b[|b|-1];
      assert (a + b)[..|a + b|-1] == a + init;
      HornerConcat(a, init, base);
      Distribute(Horner(a, base), Power(base, |init|), Horner(init, base), base);
    }
  }

  lemma Distribute(x: nat, p: nat, y: nat, base: nat)
    ensures (x * p + y) * base == x * (p * base) + y * base
  {
  }

  lemma {:induction false} HornerZeros(n: nat, base: nat)
    ensures Horner(seq(n, _ => 0), base) == 0
  {
    if n > 0 {
      assert seq(n, _ => 0)[..n-1] == seq(n - 1, _ => 0);
      HornerZeros(n - 1, base);
    }
  }

  lemma {:induction false} PowerAdd(base: nat, i: nat, j: nat)
    ensures Power(base, i) * Power(base, j) == Power(base, i + j)
  {
    if j > 0 {
      PowerAdd(base, i, j - 1);
      assert Power(base, i) * (Power(base, j - 1) * base) == Power(base, i) * Power(base, j - 1) * base;
    }
  }

  /** High digits, zeros, low digits. */
  lemma HornerGap(a: seq<nat>, n: nat, b: seq<nat>, base: nat)
    ensures Horner(a + seq(n, _ => 0) + b, base) == Horner(a, base) * Power(base, n + |b|) + Horner(b, base)
  {
    var zeros := seq(n, _ => 0);
    HornerZeros(n, base);
    HornerConcat(a, zeros, base);
    HornerConcat(a + zeros, b, base);
    Regroup(Horner(a, base), Power(base, n), Power(base, |b|));
    PowerAdd(base, n, |b|);
  }

  lemma Regroup(x: nat, p: nat, q: nat)
    ensures x * p * q == x * (p * q)
  {
  }

  lemma HornerPush(ds: seq<nat>, d: nat, base: nat)
    ensures Horner(ds + [d], base) == Horner(ds, base) * base + d
  {
    assert (ds + [d])[..|ds|] == ds;
  }

  lemma HornerTwo(a: nat, b: nat, base: nat)
    ensures Horner([a, b], base) == a * base + b
  {
    HornerPush([], a, base);
    HornerPush([a], b, base);
    assert [] + [a] == [a] && [a] + [b] == [a, b];
  }

  lemma HornerFour(a: nat, b: nat, c: nat, d: nat, base: nat)
    ensures Horner([a, b, c, d], base) == ((a * base + b) * base + c) * base + d
  {
    HornerTwo(a, b, base);
    HornerPush([a, b], c, base);
    HornerPush([a, b, c], d, base);
    assert [a, b] + [c] == [a, b, c] && [a, b, c] + [d] == [a, b, c, d];
  }
}
