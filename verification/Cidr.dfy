/** CIDR blocks and trusted lists over normal-form addresses. */
module Cidr {
  import opened Options
  import opened JsText
  import opened Hex
  import opened Radix
  import opened Bits
  import opened IpText
  import opened IpNormal
  import opened IpSpelling
  import opened IpTrust
  import opened PrefixMatch
  import Decimal

  // ---------------------------------------------------------------------------
  // What a block contains
  // ---------------------------------------------------------------------------

  /** IPv4 numbers are compared on 32 bits, mapped ones included; the rest on 128. */
  predicate InBlock(ip: Address, base: Address, bits: nat)
  {
    var v, w := V4View(ip), V4View(base);
    if v.Some? && w.Some? then bits <= 32 && SamePrefix(v.value, w.value, 32, bits)
    else ip.V6? && base.V6? && bits <= 128 && SamePrefix(ip.number, base.number, 128, bits)
  }

  /** `base/bits`, both parts trimmed; `None` when it is not a readable block. */
  function BlockText(cidr: string): Option<(string, nat)>
  {
    var slash := IndexOf(cidr, "/");
    if slash == -1 then None
    else
      var baseRaw, bitsRaw := Trim(cidr[..slash]), Trim(cidr[slash+1..]);
      if bitsRaw == "" || !Decimal.AllDigits(bitsRaw) then None
      else
        var base := NormalizeIp(baseRaw);
        if base.None? then None else Some((base.value, Decimal.DigitsValue(bitsRaw)))
  }

  lemma BlockBase(cidr: string)
    requires BlockText(cidr).Some?
    ensures Canonical(BlockText(cidr).value.0)
  {
    var slash := IndexOf(cidr, "/");
    NormalizedIsCanonical(Trim(cidr[..slash]));
  }

  ghost predicate CidrContains(cidr: string, ip: Address)
  {
    var block := BlockText(cidr);
    block.Some? && (BlockBase(cidr); InBlock(ip, KeyAddress(block.value.0), block.value.1))
  }

  // ---------------------------------------------------------------------------
  // Matching
  // ---------------------------------------------------------------------------

  lemma TwoMore(out: seq<nat>, n: nat)
    requires DigitsBelow(out, 256) && n < 65536
    ensures DigitsBelow(out + [n / 256, n % 256], 256)
    ensures Horner(out + [n / 256, n % 256], 256) == Horner(out, 256) * 65536 + n
  {
    HornerPush(out, n / 256, 256);
    HornerPush(out + [n / 256], n % 256, 256);
    assert out + [n / 256] + [n % 256] == out + [n / 256, n % 256];
  }

  lemma GroupStep(gs: seq<nat>, i: nat)
    requires i < |gs|
    ensures Horner(gs[..i+1], 65536) == Horner(gs[..i], 65536) * 65536 + gs[i]
  {
    assert gs[..i+1][..i] == gs[..i];
  }

  method Ipv6ToBytes(expanded: string) returns (out: seq<nat>)
    requires Canonical(expanded) && ':' in expanded
    ensures Bytes16(out) && V6(Horner(out, 256)) == KeyAddress(expanded)
  {
    ColonKey(expanded);
    ghost var gs := Numbers(expanded);
    var groups := Split(expanded, ":");
    out := [];
    for i := 0 to |groups|
      invariant |out| == 2 * i && DigitsBelow(out, 256)
      invariant Horner(out, 256) == Horner(gs[..i], 65536)
    {
      Fixed4Value(gs[i]);
      assert groups[i] == Fixed(gs[i], 4);
      var n := HexValue(groups[i]);
      GroupBytes(n);
      TwoMore(out, n);
      GroupStep(gs, i);
      out := out + [And(Shr(n, 8), 255), And(n, 255)];
    }
    assert gs[..8] == gs;
  }

  lemma ColonFamily(k: string)
    requires Canonical(k)
    ensures ':' in k <==> KeyAddress(k).V6?
  {
    if IsIpv4(k) { QuadHasNoColon(k); } else { KeyGroups(k); }
  }

  /** `isIpv4(k) ? k : ipv4FromMapped(k)`. */
  function OwnQuad(k: string): Option<string>
    requires Canonical(k)
  {
    if IsIpv4(k) then Some(k) else Ipv4FromMapped(k)
  }

  lemma OwnQuadView(k: string)
    requires Canonical(k)
    ensures OwnQuad(k).Some? <==> V4View(KeyAddress(k)).Some?
    ensures OwnQuad(k).Some? ==>
      IsIpv4(OwnQuad(k).value) && Ipv4ToInt(OwnQuad(k).value) == V4View(KeyAddress(k)).value < U32
  {
    MappedView(k);
    if OwnQuad(k).Some? { Ipv4ToIntIsNumber(OwnQuad(k).value); }
  }

  /** Matching a block is numeric prefix equality. */
  method MatchCidr(normIp: string, cidr: string) returns (ok: bool)
    requires Canonical(normIp)
    ensures ok == CidrContains(cidr, KeyAddress(normIp))
  {
    var slash := IndexOf(cidr, "/");
    if slash == -1 { return false; }
    var baseRaw, bitsRaw := Trim(cidr[..slash]), Trim(cidr[slash+1..]);
    if bitsRaw == "" || !Decimal.AllDigits(bitsRaw) { return false; }
    var bits := Decimal.DigitsValue(bitsRaw);
    var base := NormalizeIp(baseRaw);
    if base.None? { return false; }
    BlockBase(cidr);
    ok := MatchBase(normIp, base.value, bits);
  }

  method MatchBase(normIp: string, base: string, bits: nat) returns (ok: bool)
    requires Canonical(normIp) && Canonical(base)
    ensures ok == InBlock(KeyAddress(normIp), KeyAddress(base), bits)
  {
    OwnQuadView(normIp);
    OwnQuadView(base);
    ColonFamily(normIp);
    ColonFamily(base);
    var ipV4, baseV4 := OwnQuad(normIp), OwnQuad(base);
    if ipV4.Some? && baseV4.Some? {
      if bits > 32 { return false; }
      ok := MatchWords(Ipv4ToInt(ipV4.value), Ipv4ToInt(baseV4.value), bits);
      return;
    }
    if ':' in normIp && ':' in base {
      if bits > 128 { return false; }
      var ipBytes := Ipv6ToBytes(normIp);
      var baseBytes := Ipv6ToBytes(base);
      ok := MatchBytes(ipBytes, baseBytes, bits);
      return;
    }
    return false;
  }

  // ---------------------------------------------------------------------------
  // Trusted lists
  // ---------------------------------------------------------------------------

  /** The same host, however its IPv4 address is written. */
  predicate SameHost(a: Address, b: Address)
  {
    a == b || (V4View(a).Some? && V4View(a) == V4View(b))
  }

  ghost predicate PatternTrusts(raw: string, ip: Address)
  {
    var pattern := Trim(raw);
    if pattern == "" then false
    else if '/' in pattern then CidrContains(pattern, ip)
    else
      var p := NormalizeIp(pattern);
      p.Some? && (NormalizedIsCanonical(pattern); SameHost(KeyAddress(p.value), ip))
  }

  ghost predicate ListTrusts(patterns: seq<string>, ip: Address)
  {
    exists i :: 0 <= i < |patterns| && PatternTrusts(patterns[i], ip)
  }

  ghost predicate Trusted(ip: string, patterns: seq<string>)
  {
    NormalizeIp(ip).Some? && (NormalizedIsCanonical(ip); ListTrusts(patterns, KeyAddress(NormalizeIp(ip).value)))
  }

  lemma QuadByNumber(p: string, q: string)
    requires IsIpv4(p) && IsIpv4(q)
    ensures p == q <==> Horner(QuadOf(p), 256) == Horner(QuadOf(q), 256)
  {
    HornerInjective(QuadOf(p), QuadOf(q), 256);
    QuadIsItsText(p);
    QuadIsItsText(q);
  }

  /** The three textual comparisons decide whether two keys name the same host. */
  lemma ExactMatch(p: string, norm: string)
    requires Canonical(p) && Canonical(norm)
    ensures SameHost(KeyAddress(p), KeyAddress(norm)) <==>
      p == norm || Ipv4FromMapped(norm) == Some(p) || Ipv4FromMapped(p) == Some(norm)
  {
    DenotesUnique(p, norm, KeyAddress(p), KeyAddress(norm));
    MappedView(p);
    MappedView(norm);
    if Ipv4FromMapped(norm).Some? && IsIpv4(p) { QuadByNumber(p, Ipv4FromMapped(norm).value); }
    if Ipv4FromMapped(p).Some? && IsIpv4(norm) { QuadByNumber(norm, Ipv4FromMapped(p).value); }
  }

  method MatchExact(norm: string, p: string) returns (hit: bool)
    requires Canonical(norm) && Canonical(p)
    ensures hit == SameHost(KeyAddress(p), KeyAddress(norm))
  {
    ExactMatch(p, norm);
    if p == norm { return true; }
    if Ipv4FromMapped(norm) == Some(p) { return true; }
    if Ipv4FromMapped(p) == Some(norm) { return true; }
    return false;
  }

  method MatchPattern(norm: string, raw: string) returns (hit: bool)
    requires Canonical(norm)
    ensures hit == PatternTrusts(raw, KeyAddress(norm))
  {
    var pattern := Trim(raw);
    if pattern == "" { return false; }
    if '/' in pattern {
      hit := MatchCidr(norm, pattern);
    } else {
      var p := NormalizeIp(pattern);
      if p.None? { return false; }
      NormalizedIsCanonical(pattern);
      hit := MatchExact(norm, p.value);
    }
  }

  lemma ListTrustsNext(patterns: seq<string>, i: nat, ip: Address)
    requires i < |patterns| && !PatternTrusts(patterns[i], ip) && !ListTrusts(patterns[..i], ip)
    ensures !ListTrusts(patterns[..i+1], ip)
  {
    var before, now := patterns[..i], patterns[..i+1];
    forall j | 0 <= j < |now| ensures !PatternTrusts(now[j], ip) {
      assert now[j] == if j < i then before[j] else patterns[i];
    }
  }

  lemma ListTrustsEarly(patterns: seq<string>, i: nat, ip: Address)
    requires i < |patterns| && PatternTrusts(patterns[i], ip)
    ensures ListTrusts(patterns, ip)
  {
  }

  method MatchAny(norm: string, patterns: seq<string>, ghost ip: Address) returns (hit: bool)
    requires Canonical(norm) && ip == KeyAddress(norm)
    ensures hit == ListTrusts(patterns, ip)
  {
    for i := 0 to |patterns|
      invariant !ListTrusts(patterns[..i], ip)
    {
      hit := MatchPattern(norm, patterns[i]);
      if hit {
        ListTrustsEarly(patterns, i, ip);
        return;
      }
      ListTrustsNext(patterns, i, ip);
    }
    assert patterns[..|patterns|] == patterns;
    hit := false;
  }

  method IpMatchesTrusted(ip: string, patterns: seq<string>) returns (ok: bool)
    ensures ok == Trusted(ip, patterns)
  {
    var norm := NormalizeIp(ip);
    if norm.None? { return false; }
    NormalizedIsCanonical(ip);
    ok := MatchAny(norm.value, patterns, KeyAddress(norm.value));
  }

  // ---------------------------------------------------------------------------
  // A quad and its mapped form
  // ---------------------------------------------------------------------------

  function MappedAddress(n: nat): Address { V6(MAPPED_BASE + n) }

  /** A block whose base is a native IPv6 address. */
  ghost predicate NativeBlock(raw: string)
  {
    var block := BlockText(Trim(raw));
    '/' in Trim(raw) && block.Some? && (BlockBase(Trim(raw)); V4View(KeyAddress(block.value.0)).None?)
  }

  lemma InBlockBoth(base: Address, bits: nat, n: nat)
    requires n < U32
    ensures V4View(base).Some? ==> InBlock(MappedAddress(n), base, bits) == InBlock(V4(n), base, bits)
    ensures V4View(base).None? ==> !InBlock(V4(n), base, bits)
  {
    assert V4View(MappedAddress(n)) == V4View(V4(n)) == Some(n);
  }

  lemma SameHostBoth(a: Address, n: nat)
    requires n < U32
    ensures SameHost(a, MappedAddress(n)) == SameHost(a, V4(n))
  {
    assert V4View(MappedAddress(n)) == V4View(V4(n)) == Some(n);
  }

  lemma PatternBothForms(raw: string, n: nat)
    requires n < U32
    ensures PatternTrusts(raw, MappedAddress(n)) <==>
      PatternTrusts(raw, V4(n)) || (NativeBlock(raw) && CidrContains(Trim(raw), MappedAddress(n)))
    ensures NativeBlock(raw) ==> !PatternTrusts(raw, V4(n))
  {
    var pattern := Trim(raw);
    if '/' in pattern {
      var block := BlockText(pattern);
      if block.Some? {
        BlockBase(pattern);
        InBlockBoth(KeyAddress(block.value.0), block.value.1, n);
      }
    } else {
      var p := NormalizeIp(pattern);
      if p.Some? {
        NormalizedIsCanonical(pattern);
        SameHostBoth(KeyAddress(p.value), n);
      }
    }
  }

  /**
   A dotted quad and its mapped spelling get the same answer, except where a block with a
   native IPv6 base contains the mapped address.
   */
  lemma MappedInterchangeable(q: string, patterns: seq<string>)
    requires IsIpv4(q)
    ensures Trusted("::ffff:" + q, patterns) <==>
      Trusted(q, patterns) ||
      exists i :: 0 <= i < |patterns| && NativeBlock(patterns[i])
        && CidrContains(Trim(patterns[i]), MappedAddress(Ipv4ToInt(q)))
  {
    var n := Ipv4ToInt(q);
    BothKeys(q);
    ListBothForms(patterns, n);
  }

  lemma ListBothForms(patterns: seq<string>, n: nat)
    requires n < U32
    ensures ListTrusts(patterns, MappedAddress(n)) <==>
      ListTrusts(patterns, V4(n)) ||
      exists i :: 0 <= i < |patterns| && NativeBlock(patterns[i]) && CidrContains(Trim(patterns[i]), MappedAddress(n))
  {
    forall i | 0 <= i < |patterns|
      ensures PatternTrusts(patterns[i], MappedAddress(n)) <==>
        PatternTrusts(patterns[i], V4(n))
          || (NativeBlock(patterns[i]) && CidrContains(Trim(patterns[i]), MappedAddress(n)))
    {
      PatternBothForms(patterns[i], n);
    }
  }

  ghost predicate KeyOf(s: string, a: Address)
  {
    NormalizeIp(s).Some? && Canonical(NormalizeIp(s).value) && KeyAddress(NormalizeIp(s).value) == a
  }

  lemma SpelledKey(t: Spelling)
    requires WellFormed(t)
    ensures KeyOf(Text(t), AddressOf(t))
  {
    NormalizeKeepsAddress(t);
    NormalizedIsCanonical(Text(t));
    var k := NormalizeIp(Text(t)).value;
    DenotesUnique(k, k, KeyAddress(k), AddressOf(t));
  }

  lemma QuadKey(q: string)
    requires IsIpv4(q)
    ensures KeyOf(q, V4(Horner(QuadOf(q), 256)))
  {
    QuadIsItsText(q);
    SpelledKey(QuadForm(QuadOf(q)));
  }

  lemma MappedKeyOf(q: string)
    requires IsIpv4(q)
    ensures KeyOf("::ffff:" + q, MappedAddress(Horner(QuadOf(q), 256)))
  {
    QuadIsItsText(q);
    assert Lower("::ffff:") == "::ffff:";
    SpelledKey(MappedForm("::ffff:", QuadOf(q)));
  }

  /** The addresses of the two spellings. */
  lemma BothKeys(q: string)
    requires IsIpv4(q)
    ensures Ipv4ToInt(q) < U32 && KeyOf(q, V4(Ipv4ToInt(q))) && KeyOf("::ffff:" + q, MappedAddress(Ipv4ToInt(q)))
  {
    Ipv4ToIntIsNumber(q);
    QuadKey(q);
    MappedKeyOf(q);
  }

  // ---------------------------------------------------------------------------
  // Throttle keys
  // ---------------------------------------------------------------------------

  /** The quad where there is one, else the key. */
  function DisplayIp(norm: string): string
    requires Canonical(norm)
  {
    if IsIpv4(norm) then norm
    else
      var v4 := Ipv4FromMapped(norm);
      if v4.Some? then v4.value else norm
  }

  lemma DisplayNumber(norm: string)
    requires Canonical(norm)
    ensures if V4View(KeyAddress(norm)).Some?
            then IsIpv4(DisplayIp(norm)) && Horner(QuadOf(DisplayIp(norm)), 256) == V4View(KeyAddress(norm)).value
            else DisplayIp(norm) == norm && !IsIpv4(norm)
  {
    MappedView(norm);
  }

  /** Two keys are displayed alike exactly when they name the same host. */
  lemma DisplayOneHost(a: string, b: string)
    requires Canonical(a) && Canonical(b)
    ensures DisplayIp(a) == DisplayIp(b) <==> SameHost(KeyAddress(a), KeyAddress(b))
  {
    DisplayNumber(a);
    DisplayNumber(b);
    DenotesUnique(a, b, KeyAddress(a), KeyAddress(b));
    if V4View(KeyAddress(a)).Some? && V4View(KeyAddress(b)).Some? {
      QuadByNumber(DisplayIp(a), DisplayIp(b));
    }
  }
}
