/** Matching an address against trusted addresses and CIDR blocks. */
module IpTrust {
  import opened Options
  import opened JsText
  import opened Hex
  import opened Radix
  import opened Bits
  import opened IpText
  import opened IpNormal
  import opened IpSpelling
  import opened PrefixMatch

  // ---------------------------------------------------------------------------
  // The address a key denotes
  // ---------------------------------------------------------------------------

  /** The numbers of a colon key. */
  lemma KeyGroups(k: string)
    requires Canonical(k) && !IsIpv4(k)
    ensures IsIpv6(k) && Hextets(Numbers(k)) && k == Key6(Numbers(k))
    ensures ':' in k && Split(k, ":") == KeyParts(Numbers(k))
  {
    var gs :| Hextets(gs) && k == Key6(gs);
    KeyAccepted(gs);
    KeyText(gs);
    IndexOfAbsentOnly(k);
  }

  lemma IndexOfAbsentOnly(k: string)
    requires |Split(k, ":")| > 1
    ensures ':' in k
  {
    IncludesChar(k, ':');
  }

  lemma QuadHasNoColon(k: string)
    requires IsIpv4(k)
    ensures ':' !in k
  {
    QuadChars(k);
    assert !QuadChar(':');
  }

  ghost function KeyAddress(k: string): (a: Address)
    requires Canonical(k)
    ensures Denotes(k, a)
    ensures a.V4? <==> IsIpv4(k)
  {
    if IsIpv4(k) then
      QuadIsItsText(k);
      V4(Horner(QuadOf(k), 256))
    else
      KeyGroups(k);
      V6(Horner(Numbers(k), 65536))
  }

  /** The IPv4 number of an address: its own, or the one mapped into ::ffff:0:0/96. */
  function V4View(a: Address): Option<nat>
  {
    match a
    case V4(n) => Some(n)
    case V6(n) => if MAPPED_BASE <= n < MAPPED_BASE + U32 then Some(n - MAPPED_BASE) else None
  }

  // ---------------------------------------------------------------------------
  // Mapped addresses
  // ---------------------------------------------------------------------------

  function StartsWith(s: string, prefix: string): bool { |s| >= |prefix| && s[..|prefix|] == prefix }

  lemma ColonKey(k: string)
    requires Canonical(k) && ':' in k
    ensures !IsIpv4(k) && IsIpv6(k) && Hextets(Numbers(k)) && k == Key6(Numbers(k))
      && Split(k, ":") == KeyParts(Numbers(k))
  {
    if IsIpv4(k) { QuadHasNoColon(k); }
    KeyGroups(k);
  }

  function Ipv4FromMapped(norm: string): Option<string>
    requires Canonical(norm)
  {
    if ':' !in norm then if IsIpv4(norm) then Some(norm) else None
    else if !StartsWith(norm, MAPPED_PREFIX) then None
    else
      ColonKey(norm);
      var parts := Split(norm, ":");
      var hi, lo := parts[6], parts[7];
      if hi == "" || lo == "" then None
      else
        var h, l := HexValue(hi), HexValue(lo);
        Some(QuadText([And(Shr(h, 8), 255), And(h, 255), And(Shr(l, 8), 255), And(l, 255)]))
  }

  const MAPPED_HEAD: seq<nat> := [0, 0, 0, 0, 0, 0xffff]

  lemma HeadParts()
    ensures KeyParts(MAPPED_HEAD) == ["0000", "0000", "0000", "0000", "0000", "ffff"]
  {
    PrefixDigits();
  }

  lemma KeyHead(gs: seq<nat>)
    requires Hextets(gs)
    ensures Key6(gs) == Join(KeyParts(gs[..6]), ":") + ":" + Join(KeyParts(gs[6..]), ":")
    ensures |Join(KeyParts(gs[..6]), ":")| == 29
  {
    assert KeyParts(gs) == KeyParts(gs[..6]) + KeyParts(gs[6..]);
    JoinConcat(KeyParts(gs[..6]), KeyParts(gs[6..]), ":");
    JoinedLength(KeyParts(gs[..6]));
  }

  lemma SameParts(gs: seq<nat>, hs: seq<nat>)
    requires |gs| == |hs| > 0 && DigitsBelow(gs, 65536) && DigitsBelow(hs, 65536)
    requires Join(KeyParts(gs), ":") == Join(KeyParts(hs), ":")
    ensures gs == hs
  {
    KeyPartsFilled(gs);
    KeyPartsFilled(hs);
    FilledParts(KeyParts(gs));
    FilledParts(KeyParts(hs));
    forall i | 0 <= i < |gs| ensures gs[i] == hs[i] {
      assert KeyParts(gs)[i] == KeyParts(hs)[i];
      Fixed4Value(gs[i]);
      Fixed4Value(hs[i]);
    }
  }

  /** The text prefix of a mapped key is its first six groups. */
  lemma PrefixIsHead(gs: seq<nat>)
    requires Hextets(gs)
    ensures StartsWith(Key6(gs), MAPPED_PREFIX) <==> gs[..6] == MAPPED_HEAD
  {
    KeyHead(gs);
    HeadParts();
    PrefixText();
    var head := Join(KeyParts(gs[..6]), ":");
    assert |MAPPED_PREFIX| == 30;
    assert Key6(gs)[..30] == head + ":";
    if head + ":" == MAPPED_PREFIX {
      assert head == (head + ":")[..29] == (Join(KeyParts(MAPPED_HEAD), ":") + ":")[..29] ==
        Join(KeyParts(MAPPED_HEAD), ":");
      SameParts(gs[..6], MAPPED_HEAD);
    }
  }

  /** The four bytes of the last two groups. */
  function LowQuad(gs: seq<nat>): (q: seq<nat>)
    requires Hextets(gs)
    ensures Quad(q)
  {
    [gs[6] / 256, gs[6] % 256, gs[7] / 256, gs[7] % 256]
  }

  lemma GroupBytes(n: nat)
    requires n < 65536
    ensures And(Shr(n, 8), 255) == n / 256 && And(n, 255) == n % 256
  {
    ShrIsDivision(n, 8);
    assert Pow2(8) == 256;
    LowByte(n / 256);
    LowByte(n);
  }

  lemma MappedQuad(gs: seq<nat>)
    requires Hextets(gs)
    ensures Canonical(Key6(gs))
    ensures Ipv4FromMapped(Key6(gs)) == if gs[..6] == MAPPED_HEAD then Some(QuadText(LowQuad(gs))) else None
  {
    var k := Key6(gs);
    assert Canonical(k);
    KeyAccepted(gs);
    KeyGroups(k);
    PrefixIsHead(gs);
    GroupBytes(gs[6]);
    GroupBytes(gs[7]);
    Fixed4Value(gs[6]);
    Fixed4Value(gs[7]);
    assert KeyParts(gs)[6] == Fixed(gs[6], 4) && KeyParts(gs)[7] == Fixed(gs[7], 4);
  }

  lemma LowNumber(gs: seq<nat>)
    requires Hextets(gs)
    ensures Horner(gs, 65536) == Horner(gs[..6], 65536) * U32 + Horner(LowQuad(gs), 256)
    ensures Horner(LowQuad(gs), 256) < U32
  {
    var q := LowQuad(gs);
    assert gs == gs[..6] + [gs[6], gs[7]];
    HornerConcat(gs[..6], [gs[6], gs[7]], 65536);
    HornerTwo(gs[6], gs[7], 65536);
    HornerFour(q[0], q[1], q[2], q[3], 256);
    assert Power(65536, 2) == U32;
  }

  lemma ViewOfGroups(gs: seq<nat>)
    requires Hextets(gs)
    ensures V4View(V6(Horner(gs, 65536))) == if gs[..6] == MAPPED_HEAD then Some(Horner(LowQuad(gs), 256)) else None
  {
    LowNumber(gs);
    MappedHead();
    HornerInjective(gs[..6], MAPPED_HEAD, 65536);
  }

  /** The quad found in a key, as text, is the key's IPv4 number. */
  lemma MappedView(k: string)
    requires Canonical(k)
    ensures Ipv4FromMapped(k).Some? <==> V4View(KeyAddress(k)).Some?
    ensures Ipv4FromMapped(k).Some? ==>
      IsIpv4(Ipv4FromMapped(k).value) && Horner(QuadOf(Ipv4FromMapped(k).value), 256) == V4View(KeyAddress(k)).value
  {
    if IsIpv4(k) {
      QuadHasNoColon(k);
    } else {
      KeyGroups(k);
      MappedQuad(Numbers(k));
      ViewOfGroups(Numbers(k));
      QuadRoundTrip(LowQuad(Numbers(k)));
    }
  }

  lemma MappedParts(n: seq<nat>)
    requires Quad(n) && Hextets(MappedNumbers(n))
    ensures MappedNumbers(n)[..6] == MAPPED_HEAD && LowQuad(MappedNumbers(n)) == n
  {
  }

  lemma MappedExpanded(q: string)
    requires IsIpv4(q)
    ensures var s := "::ffff:" + q;
      IsIpv6(s) && Hextets(MappedNumbers(QuadOf(q))) && ExpandIpv6(s) == Key6(MappedNumbers(QuadOf(q)))
  {
    QuadIsItsText(q);
    assert Lower("::ffff:") == "::ffff:";
    MappedAccepted("::ffff:", QuadOf(q));
    ExpandIsKey("::ffff:" + q);
  }

  /** Mapping a quad into IPv6 and taking it out again. */
  lemma MappedRoundTrip(q: string)
    requires IsIpv4(q)
    ensures Canonical(ExpandIpv6("::ffff:" + q)) && Ipv4FromMapped(ExpandIpv6("::ffff:" + q)) == Some(q)
  {
    MappedExpanded(q);
    var gs := MappedNumbers(QuadOf(q));
    MappedParts(QuadOf(q));
    MappedQuad(gs);
    QuadIsItsText(q);
  }

  // ---------------------------------------------------------------------------
  // Numbers of keys
  // ---------------------------------------------------------------------------

  function Ipv4ToInt(ip: string): nat
    requires IsIpv4(ip)
  {
    var q := QuadOf(ip);
    Or(Or(Or(Shl32(q[0], 24), Shl32(q[1], 16)), Shl32(q[2], 8)), q[3])
  }

  lemma Ipv4ToIntIsNumber(ip: string)
    requires IsIpv4(ip)
    ensures Ipv4ToInt(ip) == Horner(QuadOf(ip), 256) < U32
  {
    var q := QuadOf(ip);
    var a, b, c, d := q[0], q[1], q[2], q[3];
    assert q == [a, b, c, d];
    HornerFour(a, b, c, d, 256);
    FourBytes(a, b, c, d);
  }

  lemma TopBytes(a: nat, b: nat)
    requires a < 256 && b < 256
    ensures Or(Shl32(a, 24), Shl32(b, 16)) == (256 * a + b) * 65536
  {
    Pow2Values();
    ShiftInto(a, 24);
    ShiftInto(b, 16);
    LowOfMultiple(a, 24);
    OrDisjoint(a * 0x100_0000, b * 65536, 24);
  }

  lemma MiddleByte(x: nat, c: nat)
    requires c < 256
    ensures Or(x * 65536, Shl32(c, 8)) == (256 * x + c) * 256
  {
    Pow2Values();
    ShiftInto(c, 8);
    LowOfMultiple(x, 16);
    OrDisjoint(x * 65536, c * 256, 16);
  }

  lemma LastByte(x: nat, d: nat)
    requires d < 256
    ensures Or(x * 256, d) == 256 * x + d
  {
    Pow2Values();
    LowOfMultiple(x, 8);
    OrDisjoint(x * 256, d, 8);
  }

  lemma FourBytes(a: nat, b: nat, c: nat, d: nat)
    requires a < 256 && b < 256 && c < 256 && d < 256
    ensures Or(Or(Or(Shl32(a, 24), Shl32(b, 16)), Shl32(c, 8)), d) == ((a * 256 + b) * 256 + c) * 256 + d
  {
    TopBytes(a, b);
    MiddleByte(256 * a + b, c);
    LastByte(256 * (256 * a + b) + c, d);
  }
}
