/**
 What a trusted list trusts, told by the addresses that its patterns and the client spell.
 */
module TrustedLists {
  import opened Options
  import opened JsText
  import opened Hex
  import opened Bits
  import opened IpText
  import opened IpNormal
  import opened IpSpelling
  import opened IpTrust
  import opened PrefixMatch
  import opened Cidr
  import opened MappedBlocks
  import Decimal

  // ---------------------------------------------------------------------------
  // One pattern
  // ---------------------------------------------------------------------------

  lemma OneOfOne(raw: string, ip: Address)
    ensures ListTrusts([raw], ip) <==> PatternTrusts(raw, ip)
  {
    assert [raw][0] == raw;
    if PatternTrusts(raw, ip) { ListTrustsEarly([raw], 0, ip); }
  }

  /** The two have one number: as IPv4 where both have such a view, or as they are. */
  predicate OneAddress(a: Address, b: Address)
  {
    a == b || (V4View(a).Some? && V4View(b).Some? && V4View(a).value == V4View(b).value)
  }

  /** A plain pattern trusts exactly the address it reads as. */
  lemma PlainPattern(ip: string, raw: string, a: Address, b: Address)
    requires KeyOf(ip, a) && KeyOf(Trim(raw), b) && '/' !in Trim(raw)
    ensures Trusted(ip, [raw]) <==> OneAddress(a, b)
  {
    OneOfOne(raw, a);
    EmptyUnread();
  }

  lemma EmptyUnread()
    ensures NormalizeIp("").None?
  {
  }

  /** A plain pattern that is no address trusts nobody, and neither does an empty one. */
  lemma UnreadPattern(ip: string, raw: string)
    requires '/' !in Trim(raw) && NormalizeIp(Trim(raw)).None?
    ensures !Trusted(ip, [raw])
  {
    if NormalizeIp(ip).Some? {
      NormalizedIsCanonical(ip);
      OneOfOne(raw, KeyAddress(NormalizeIp(ip).value));
    }
  }

  /** A client without a readable address is not trusted. */
  lemma UnreadClient(ip: string, patterns: seq<string>)
    requires NormalizeIp(ip).None?
    ensures !Trusted(ip, patterns)
  {
  }

  lemma NoSlash(t: Spelling)
    requires WellFormed(t)
    ensures '/' !in Text(t) && Text(t) != ""
  {
    SpelledCore(t);
    match t
    case QuadForm(q) => QuadNoSlash(q);
    case FullForm(groups) =>
      FullRead(groups);
      NotSlash();
    case ShortForm(left, right) =>
      ShortRead(left, right);
      NotSlash();
    case MappedForm(prefix, q) =>
      QuadNoSlash(q);
      assert forall i | 0 <= i < 7 :: Lower(prefix)[i] == "::ffff:"[i];
  }

  lemma NotSlash()
    ensures !KeyChar('/')
  {
  }

  lemma QuadNoSlash(q: seq<nat>)
    requires Quad(q)
    ensures '/' !in QuadText(q)
  {
    QuadRoundTrip(q);
    QuadChars(QuadText(q));
    assert !QuadChar('/');
  }

  /** A spelled pattern, however padded, trusts a spelled client exactly when they spell one address. */
  lemma SpelledPattern(s: Spelling, t: Spelling, raw: string)
    requires WellFormed(s) && WellFormed(t) && Trim(raw) == Text(s)
    ensures Trusted(Text(t), [raw]) <==> OneAddress(AddressOf(t), AddressOf(s))
  {
    SpelledKey(s);
    SpelledKey(t);
    NoSlash(s);
    PlainPattern(Text(t), raw, AddressOf(t), AddressOf(s));
  }

  // ---------------------------------------------------------------------------
  // A block
  // ---------------------------------------------------------------------------

  /** The two agree in the leading bits: of 32 where both have an IPv4 view, else of 128 where both are IPv6. */
  predicate Agree(a: Address, b: Address, bits: nat)
  {
    if V4View(a).Some? && V4View(b).Some? then
      bits <= 32 && V4View(a).value / Pow2(32 - bits) == V4View(b).value / Pow2(32 - bits)
    else a.V6? && b.V6? && bits <= 128 && a.number / Pow2(128 - bits) == b.number / Pow2(128 - bits)
  }

  lemma BlockAgrees(ip: string, raw: string, a: Address, b: Address, base: string, bits: nat)
    requires KeyOf(ip, a) && Trim(raw) != "" && '/' in Trim(raw) && BlockText(Trim(raw)) == Some((base, bits))
    requires Canonical(base) && KeyAddress(base) == b
    ensures Trusted(ip, [raw]) <==> Agree(a, b, bits)
  {
    OneOfOne(raw, a);
    BlockPattern(raw, a, base, bits);
    AgreeInBlock(a, b, bits);
  }

  lemma BlockPattern(raw: string, a: Address, base: string, bits: nat)
    requires Trim(raw) != "" && '/' in Trim(raw) && BlockText(Trim(raw)) == Some((base, bits)) && Canonical(base)
    ensures PatternTrusts(raw, a) <==> InBlock(a, KeyAddress(base), bits)
  {
  }

  lemma AgreeInBlock(a: Address, b: Address, bits: nat)
    ensures InBlock(a, b, bits) <==> Agree(a, b, bits)
  {
  }

  lemma SpelledBlockText(s: Spelling, base: string, ds: string)
    requires WellFormed(s) && '/' !in base && Trim(base) == Text(s) && Trim(ds) != "" && Decimal.AllDigits(Trim(ds))
    ensures NormalizeIp(Text(s)).Some?
    ensures BlockText(base + "/" + ds) == Some((NormalizeIp(Text(s)).value, Decimal.DigitsValue(Trim(ds))))
  {
    SpelledKey(s);
    SlashCut(base, ds);
  }

  /**
   A spelled block, however padded, trusts exactly the spelled clients that agree with its base in
   as many leading bits.
   */
  lemma SpelledBlock(s: Spelling, t: Spelling, raw: string, base: string, ds: string)
    requires WellFormed(s) && WellFormed(t) && Trim(raw) == base + "/" + ds
    requires '/' !in base && Trim(base) == Text(s) && Trim(ds) != "" && Decimal.AllDigits(Trim(ds))
    ensures Trusted(Text(t), [raw]) <==> Agree(AddressOf(t), AddressOf(s), Decimal.DigitsValue(Trim(ds)))
  {
    SpelledKey(s);
    SpelledKey(t);
    SpelledBlockText(s, base, ds);
    assert (base + "/" + ds)[|base|] == '/';
    BlockAgrees(Text(t), raw, AddressOf(t), AddressOf(s), NormalizeIp(Text(s)).value, Decimal.DigitsValue(Trim(ds)));
  }

  /** A slash without a readable address before it or a number after it trusts nobody. */
  lemma UnreadBlock(ip: string, raw: string, base: string, ds: string)
    requires Trim(raw) == base + "/" + ds && '/' !in base
    requires NormalizeIp(Trim(base)).None? || Trim(ds) == "" || !Decimal.AllDigits(Trim(ds))
    ensures !Trusted(ip, [raw])
  {
    SlashCut(base, ds);
    assert (base + "/" + ds)[|base|] == '/';
    if NormalizeIp(ip).Some? {
      NormalizedIsCanonical(ip);
      OneOfOne(raw, KeyAddress(NormalizeIp(ip).value));
    }
  }

  // ---------------------------------------------------------------------------
  // A list
  // ---------------------------------------------------------------------------

  /** A list trusts exactly whom one of its patterns trusts alone. */
  lemma ListIsAny(ip: string, patterns: seq<string>)
    ensures Trusted(ip, patterns) <==> exists i :: 0 <= i < |patterns| && Trusted(ip, [patterns[i]])
  {
    if NormalizeIp(ip).Some? {
      NormalizedIsCanonical(ip);
      var a := KeyAddress(NormalizeIp(ip).value);
      forall i | 0 <= i < |patterns| ensures Trusted(ip, [patterns[i]]) <==> PatternTrusts(patterns[i], a) {
        OneOfOne(patterns[i], a);
      }
    }
  }
}
