/**
 Blocks whose base is an IPv4-mapped address: read on 32 bits for IPv4 and mapped addresses, and
 on 128 bits for native ones.
 */
module MappedBlocks {
  import opened Options
  import opened JsText
  import opened Hex
  import opened Bits
  import opened IpText
  import opened IpNormal
  import opened IpSpelling
  import opened IpTrust
  import opened PrefixMatch
  import opened Cidr
  import Decimal

  /** An IPv6 address of 128 bits. */
  predicate Wide(a: Address) { a.V6? && a.number < Pow2(128) }

  /** Numeric prefix equality on 128 bits. */
  predicate InWideBlock(ip: Address, base: Address, bits: nat)
    requires ip.V6? && base.V6?
  {
    bits <= 128 && SamePrefix(ip.number, base.number, 128, bits)
  }

  // ---------------------------------------------------------------------------
  // Mapped numbers and prefixes
  // ---------------------------------------------------------------------------

  lemma Pow32()
    ensures Pow2(31) == 0x8000_0000 && Pow2(32) == U32 && Pow2(33) == 0x2_0000_0000
  {
    assert Pow2(8) == 256;
    assert Pow2(16) == 65536;
    assert Pow2(24) == 0x100_0000;
  }

  /** The top 96 bits tell a mapped address. */
  lemma MappedByPrefix(n: nat)
    ensures TopBits(n, 128, 96) == 0xffff <==> MAPPED_BASE <= n < MAPPED_BASE + U32
  {
    Pow32();
  }

  lemma LongPrefixIsMapped(v: nat, w: nat, bits: nat)
    requires 96 <= bits <= 128 && SamePrefix(v, w, 128, bits) && MAPPED_BASE <= v < MAPPED_BASE + U32
    ensures MAPPED_BASE <= w < MAPPED_BASE + U32
  {
    ShorterPrefix(v, w, 128, bits, 96);
    MappedByPrefix(v);
    MappedByPrefix(w);
  }

  lemma MappedShareBits(v: nat, w: nat, bits: nat)
    requires bits <= 96 && MAPPED_BASE <= v < MAPPED_BASE + U32 && MAPPED_BASE <= w < MAPPED_BASE + U32
    ensures SamePrefix(v, w, 128, bits)
  {
    MappedByPrefix(v);
    MappedByPrefix(w);
    ShorterPrefix(v, w, 128, 96, bits);
  }

  /** The native address with the bit before the low 32 turned off. */
  lemma NativeNeighbour(v: nat, bits: nat)
    requires bits <= 95 && MAPPED_BASE <= v < MAPPED_BASE + U32
    ensures v - U32 >= 0 && SamePrefix(v - U32, v, 128, bits)
  {
    Pow32();
    var w: nat := v - U32;
    assert TopBits(v, 128, 95) == 0x7fff && TopBits(w, 128, 95) == 0x7fff;
    ShorterPrefix(w, v, 128, 95, bits);
  }

  lemma NoBits(v: nat, w: nat, width: nat)
    requires v < Pow2(width) && w < Pow2(width)
    ensures SamePrefix(v, w, width, 0)
  {
    DivUnique(v, Pow2(width), 0);
    DivUnique(w, Pow2(width), 0);
  }

  /** The number with its top bit of 32 turned over. */
  function Flipped(n: nat): (m: nat)
    requires n < U32
    ensures m < U32
  {
    (n + 0x8000_0000) % U32
  }

  lemma FlippedDiffers(n: nat, bits: nat)
    requires n < U32 && 0 < bits <= 32
    ensures !SamePrefix(Flipped(n), n, 32, bits)
  {
    Pow32();
    assert TopBits(n, 32, 1) == if n < 0x8000_0000 then 0 else 1;
    assert TopBits(Flipped(n), 32, 1) == if Flipped(n) < 0x8000_0000 then 0 else 1;
    if SamePrefix(Flipped(n), n, 32, bits) { ShorterPrefix(Flipped(n), n, 32, bits, 1); }
  }

  // ---------------------------------------------------------------------------
  // Which blocks are read on 128 bits throughout
  // ---------------------------------------------------------------------------

  predicate ReadsWide(ip: Address, base: Address, bits: nat)
  {
    Wide(ip) && Wide(base) ==> (InBlock(ip, base, bits) <==> InWideBlock(ip, base, bits))
  }

  /** For every IPv6 address, membership is prefix equality on 128 bits. */
  ghost predicate ReadWideThroughout(base: Address, bits: nat)
  {
    forall ip :: ReadsWide(ip, base, bits)
  }

  lemma MappedNumber32(a: Address)
    requires Wide(a) && V4View(a).Some?
    ensures V4View(a).value < U32 && a.number == MAPPED_BASE + V4View(a).value
  {
  }

  lemma WideAtZero(ip: Address, base: Address)
    requires Wide(base)
    ensures ReadsWide(ip, base, 0)
  {
    if Wide(ip) {
      NoBits(ip.number, base.number, 128);
      if V4View(ip).Some? && V4View(base).Some? {
        Pow32();
        NoBits(V4View(ip).value, V4View(base).value, 32);
      }
    }
  }

  lemma ShortMappedDisagrees(base: Address, bits: nat)
    requires Wide(base) && V4View(base).Some? && 0 < bits <= 32
    ensures exists ip :: !ReadsWide(ip, base, bits)
  {
    MappedNumber32(base);
    var n := V4View(base).value;
    var ip := V6(MAPPED_BASE + Flipped(n));
    WideMapped(Flipped(n));
    MappedShareBits(ip.number, base.number, bits);
    FlippedDiffers(n, bits);
    assert !ReadsWide(ip, base, bits);
  }

  lemma {:induction false} WideMapped(n: nat)
    requires n < U32
    ensures Wide(V6(MAPPED_BASE + n)) && V4View(V6(MAPPED_BASE + n)) == Some(n)
  {
    Pow32();
    assert Pow2(48) == 0x1_0000_0000_0000 by { assert Pow2(40) == 0x100_0000_0000; }
    Pow2Grows(48, 128);
  }

  lemma LongMappedDisagrees(base: Address, bits: nat)
    requires Wide(base) && V4View(base).Some? && 32 < bits <= 128
    ensures !ReadsWide(base, base, bits)
  {
  }

  /**
   A block is read on 128 bits for every IPv6 address exactly when its base is not mapped, or no
   bit is compared, or there are more than 128.
   */
  lemma WideExactlyWhen(base: Address, bits: nat)
    requires Wide(base)
    ensures ReadWideThroughout(base, bits) <==> V4View(base).None? || bits == 0 || bits > 128
  {
    if V4View(base).None? || bits > 128 {
    } else if bits == 0 {
      forall ip ensures ReadsWide(ip, base, bits) {
        WideAtZero(ip, base);
      }
    } else if bits <= 32 {
      ShortMappedDisagrees(base, bits);
    } else {
      LongMappedDisagrees(base, bits);
    }
  }

  /** A mapped base admits some native address exactly for lengths below 96. */
  lemma NativeExactlyWhen(base: Address, bits: nat)
    requires Wide(base) && V4View(base).Some?
    ensures (exists ip :: Wide(ip) && V4View(ip).None? && InBlock(ip, base, bits)) <==> bits < 96
  {
    MappedNumber32(base);
    if bits < 96 {
      NativeNeighbour(base.number, bits);
      var ip := V6(base.number - U32);
      assert Wide(ip) && V4View(ip).None? && InBlock(ip, base, bits);
    } else {
      forall ip | Wide(ip) && V4View(ip).None? ensures !InBlock(ip, base, bits) {
        if InBlock(ip, base, bits) { LongPrefixIsMapped(base.number, ip.number, bits); }
      }
    }
  }

  /** A mapped base admits some IPv4 or mapped address exactly for lengths up to 32. */
  lemma Ipv4ExactlyWhen(base: Address, bits: nat)
    requires V4View(base).Some?
    ensures (exists ip :: V4View(ip).Some? && InBlock(ip, base, bits)) <==> bits <= 32
  {
    if bits <= 32 {
      assert V4View(base).Some? && InBlock(base, base, bits);
    }
  }

  // ---------------------------------------------------------------------------
  // A mapped block as text
  // ---------------------------------------------------------------------------

  lemma LoopbackKey()
    ensures KeyOf("::1", V6(1))
  {
    var t := ShortForm([], ["1"]);
    assert Join(["1"], ":") == "1" && Text(t) == "::1";
    assert CheckGroup("1") && HexValue("1") == 1;
    FilledIsReadable(["1"]);
    assert GroupValues(["1"]) == [1] && GroupValues([]) == [];
    assert [1][..0] == [];
    assert AddressOf(t) == V6(1);
    SpelledKey(t);
  }

  lemma SlashCut(base: string, bits: string)
    requires '/' !in base
    ensures var raw := base + "/" + bits;
      IndexOf(raw, "/") == |base| && raw[..|base|] == base && raw[|base|+1..] == bits
  {
    IndexOfFirst(base, '/', bits);
    assert ['/'] == "/";
  }

  /** A base and a length, joined by a slash, are read back. */
  lemma BlockOf(base: string, bits: string)
    requires '/' !in base && Trimmed(base) && Trimmed(bits) && bits != "" && Decimal.AllDigits(bits)
    requires NormalizeIp(base).Some?
    ensures BlockText(base + "/" + bits) == Some((NormalizeIp(base).value, Decimal.DigitsValue(bits)))
  {
    SlashCut(base, bits);
  }

  lemma MappedTextPlain(q: string)
    requires IsIpv4(q)
    ensures '/' !in "::ffff:" + q && Trimmed("::ffff:" + q)
  {
    QuadChars(q);
    var base := "::ffff:" + q;
    assert !QuadChar('/') && base[0] == ':' && base[|base|-1] == q[|q|-1];
  }

  lemma Eight()
    ensures Trimmed("8") && Decimal.AllDigits("8") && Decimal.DigitsValue("8") == 8
  {
    assert "8"[..0] == "";
  }

  /** The text of the block. */
  function MappedBlock(q: string): string { "::ffff:" + q + "/" + "8" }

  lemma MappedBlockText(q: string)
    requires IsIpv4(q)
    ensures NormalizeIp("::ffff:" + q).Some?
    ensures BlockText(MappedBlock(q)) == Some((NormalizeIp("::ffff:" + q).value, 8))
  {
    MappedKeyOf(q);
    MappedTextPlain(q);
    Eight();
    BlockOf("::ffff:" + q, "8");
  }

  lemma MappedBlockTrimmed(q: string)
    ensures Trim(MappedBlock(q)) == MappedBlock(q) != "" && '/' in MappedBlock(q)
  {
    var raw := MappedBlock(q);
    assert raw[|raw|-1] == '8' && raw[0] == ':' && raw[|raw|-2] == '/';
  }

  lemma BlockPatternTrusts(raw: string, base: string, bits: nat, ip: Address)
    requires Trim(raw) == raw != "" && '/' in raw && BlockText(raw) == Some((base, bits))
    requires Canonical(base) && InBlock(ip, KeyAddress(base), bits)
    ensures PatternTrusts(raw, ip)
  {
  }

  lemma MappedBlockContains(q: string)
    requires IsIpv4(q)
    ensures PatternTrusts(MappedBlock(q), V6(1))
  {
    MappedBlockText(q);
    MappedBlockTrimmed(q);
    BothKeys(q);
    LoopbackInBlock(Ipv4ToInt(q));
    BlockPatternTrusts(MappedBlock(q), NormalizeIp("::ffff:" + q).value, 8, V6(1));
  }

  /** A mapped block of length 8 trusts the IPv6 loopback address, which is no IPv4 address. */
  lemma MappedBlockTrustsLoopback(q: string)
    requires IsIpv4(q)
    ensures Trusted("::1", [MappedBlock(q)])
  {
    LoopbackKey();
    MappedBlockContains(q);
    assert PatternTrusts([MappedBlock(q)][0], V6(1));
  }

  lemma LoopbackInBlock(n: nat)
    requires n < U32
    ensures V4View(V6(1)).None? && InBlock(V6(1), MappedAddress(n), 8)
  {
    Pow32();
    assert Pow2(48) == 0x1_0000_0000_0000 by { assert Pow2(40) == 0x100_0000_0000; }
    Pow2Grows(48, 120);
    DivUnique(1, Pow2(120), 0);
    DivUnique(MAPPED_BASE + n, Pow2(120), 0);
  }
}
