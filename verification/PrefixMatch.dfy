/** Prefix matching: the byte loop and the 32-bit mask against numeric prefix equality. */
module PrefixMatch {
  import opened Bits
  import opened Radix

  lemma {:induction false} ShrPrefix(a: seq<nat>, i: nat)
    requires i <= |a| && DigitsBelow(a, 256)
    ensures Shr(Horner(a, 256), 8 * (|a| - i)) == Horner(a[..i], 256)
    decreases |a|
  {
    if i == |a| {
      assert a[..i] == a;
    } else {
      var init, d := a[..|a|-1], a[|a|-1];
      ShrPrefix(init, i);
      assert init[..i] == a[..i];
      ByteShifted(Horner(init, 256), d);
      ShrShr(Horner(a, 256), 8, 8 * (|init| - i));
    }
  }

  lemma ByteShifted(h: nat, d: nat)
    requires d < 256
    ensures Shr(h * 256 + d, 8) == h
  {
    assert Pow2(8) == 256;
    ShrSplit(h, d, 8);
  }

  predicate SamePrefix(v: nat, w: nat, width: nat, bits: nat)
    requires bits <= width
  {
    TopBits(v, width, bits) == TopBits(w, width, bits)
  }

  lemma ShorterPrefix(v: nat, w: nat, width: nat, bits: nat, fewer: nat)
    requires fewer <= bits <= width && SamePrefix(v, w, width, bits)
    ensures SamePrefix(v, w, width, fewer)
  {
    TopBitsShift(v, width, bits);
    TopBitsShift(w, width, bits);
    TopBitsShift(v, width, fewer);
    TopBitsShift(w, width, fewer);
    ShrShr(v, width - bits, bits - fewer);
    ShrShr(w, width - bits, bits - fewer);
  }

  predicate Bytes16(a: seq<nat>) { |a| == 16 && DigitsBelow(a, 256) }

  /** On whole bytes, prefixes agree exactly when the leading bytes' numbers do. */
  lemma WholeBytes(a: seq<nat>, b: seq<nat>, i: nat)
    requires Bytes16(a) && Bytes16(b) && i <= 16
    ensures SamePrefix(Horner(a, 256), Horner(b, 256), 128, 8 * i) <==> Horner(a[..i], 256) == Horner(b[..i], 256)
  {
    ShrPrefix(a, i);
    ShrPrefix(b, i);
    TopBitsShift(Horner(a, 256), 128, 8 * i);
    TopBitsShift(Horner(b, 256), 128, 8 * i);
  }

  lemma HornerNext(a: seq<nat>, i: nat)
    requires i < |a|
    ensures Horner(a[..i+1], 256) == Horner(a[..i], 256) * 256 + a[i]
  {
    assert a[..i+1][..i] == a[..i];
  }

  /** One more byte. */
  lemma NextByte(a: seq<nat>, b: seq<nat>, i: nat)
    requires Bytes16(a) && Bytes16(b) && i < 16 && Horner(a[..i], 256) == Horner(b[..i], 256)
    ensures Horner(a[..i+1], 256) == Horner(b[..i+1], 256) <==> a[i] == b[i]
  {
    HornerNext(a, i);
    HornerNext(b, i);
  }

  lemma PartShift(a: seq<nat>, i: nat, r: nat)
    requires Bytes16(a) && i < 16 && 0 < r < 8
    ensures TopBits(Horner(a, 256), 128, 8 * i + r) == Horner(a[..i], 256) * Pow2(r) + Shr(a[i], 8 - r)
  {
    ShrPrefix(a, i + 1);
    HornerNext(a, i);
    ShrShr(Horner(a, 256), 8 * (16 - (i + 1)), 8 - r);
    TopBitsShift(Horner(a, 256), 128, 8 * i + r);
    ShrByte(Horner(a[..i], 256), a[i], 8 - r);
  }

  /** A partial byte under its mask. */
  lemma PartByte(a: seq<nat>, b: seq<nat>, i: nat, r: nat)
    requires Bytes16(a) && Bytes16(b) && i < 16 && 0 < r < 8 && Horner(a[..i], 256) == Horner(b[..i], 256)
    ensures SamePrefix(Horner(a, 256), Horner(b, 256), 128, 8 * i + r)
      <==> And(a[i], And(Shl32(0xff, 8 - r), 0xff)) == And(b[i], And(Shl32(0xff, 8 - r), 0xff))
  {
    PartShift(a, i, r);
    PartShift(b, i, r);
    ShiftedByteOnes(8 - r);
    assert Pow2(8) == 256;
    SameUnderMask(a[i], b[i], 8, 8 - r);
  }

  lemma Below128(a: seq<nat>)
    requires Bytes16(a)
    ensures TopBits(Horner(a, 256), 128, 0) == 0
  {
    ShrPrefix(a, 0);
    TopBitsShift(Horner(a, 256), 128, 0);
    assert a[..0] == [];
  }

  method MatchBytes(a: seq<nat>, b: seq<nat>, bits: nat) returns (ok: bool)
    requires Bytes16(a) && Bytes16(b) && bits <= 128
    ensures ok == SamePrefix(Horner(a, 256), Horner(b, 256), 128, bits)
  {
    ghost var v, w := Horner(a, 256), Horner(b, 256);
    if bits == 0 {
      Below128(a);
      Below128(b);
      return true;
    }
    var remaining := bits;
    WholeBytes(a, b, 0);
    for i := 0 to 16
      invariant remaining > 0 ==> remaining == bits - 8 * i && Horner(a[..i], 256) == Horner(b[..i], 256)
      invariant remaining <= 0 ==> SamePrefix(v, w, 128, bits)
    {
      if remaining <= 0 { break; }
      if remaining >= 8 {
        NextByte(a, b, i);
        WholeBytes(a, b, i + 1);
        if a[i] != b[i] {
          if SamePrefix(v, w, 128, bits) { ShorterPrefix(v, w, 128, bits, 8 * (i + 1)); }
          return false;
        }
        remaining := remaining - 8;
      } else {
        PartByte(a, b, i, remaining);
        var mask := And(Shl32(0xff, 8 - remaining), 0xff);
        if And(a[i], mask) != And(b[i], mask) { return false; }
        remaining := 0;
      }
    }
    return true;
  }

  method MatchWords(v: nat, w: nat, bits: nat) returns (ok: bool)
    requires v < U32 && w < U32 && bits <= 32
    ensures ok == SamePrefix(v, w, 32, bits)
  {
    Pow2Values();
    if bits == 0 {
      DivUnique(v, Pow2(32), 0);
      DivUnique(w, Pow2(32), 0);
      return true;
    }
    var mask := Shl32(0xffff_ffff, 32 - bits);
    ShiftedOnes(32 - bits);
    SameUnderMask(v, w, 32, 32 - bits);
    TopBitsShift(v, 32, bits);
    TopBitsShift(w, 32, bits);
    return And(v, mask) == And(w, mask);
  }
}
