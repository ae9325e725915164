/**
 The normal form of an address: eight 16-bit numbers printed at fixed width, or a dotted
 quad. What is accepted is brought to it, and it is kept as it is.
 */
module IpNormal {
  import opened Options
  import opened JsText
  import opened Hex
  import opened Radix
  import opened Bits
  import opened IpText

  // ---------------------------------------------------------------------------
  // Joined groups
  // ---------------------------------------------------------------------------

  predicate Readable(groups: seq<string>)
  {
    forall i | 0 <= i < |groups| :: AllHex(groups[i]) && |groups[i]| <= 4
  }

  predicate Filled(groups: seq<string>)
  {
    forall i | 0 <= i < |groups| :: CheckGroup(groups[i])
  }

  predicate KeyChar(c: char) { IsHex(c) || c == ':' }

  predicate AllKeyChars(s: string) { forall i | 0 <= i < |s| :: KeyChar(s[i]) }

  lemma {:induction false} JoinedChars(groups: seq<string>)
    requires Readable(groups)
    ensures AllKeyChars(Join(groups, ":"))
  {
    if |groups| > 1 {
      JoinedChars(groups[1..]);
    }
  }

  lemma NotKeyChars()
    ensures !KeyChar('.') && !KeyChar('%') && !KeyChar('[') && !KeyChar(']') && !IsHex(':')
    ensures forall c :: KeyChar(c) ==> !IsSpace(c)
  {
  }

  /** Filled groups, joined, hold no `::` and have a digit at either end. */
  lemma {:induction false} JoinedNoDouble(groups: seq<string>, j: int)
    requires |groups| > 0 && Filled(groups)
    ensures var s := Join(groups, ":"); s != "" && s[0] != ':' && s[|s|-1] != ':' && !OccursAt(s, "::", j)
  {
    var s, g := Join(groups, ":"), groups[0];
    assert CheckGroup(g);
    if |groups| == 1 {
      PairAt(s, j);
    } else {
      var rest := Join(groups[1..], ":");
      JoinedNoDouble(groups[1..], j - |g| - 1);
      PairAt(s, j);
      PairAt(rest, j - |g| - 1);
      assert s == g + ":" + rest;
    }
  }

  /** Groups without a colon, of which only the outer two may be empty. */
  predicate EdgesOpen(groups: seq<string>)
  {
    && (forall i | 0 <= i < |groups| :: StrayGroup(groups[i]))
    && (forall i | 0 < i < |groups| - 1 :: groups[i] != "")
  }

  /** Such groups, joined, hold no `::`. */
  lemma {:induction false} OpenNoDouble(groups: seq<string>, j: int)
    requires |groups| > 0 && EdgesOpen(groups)
    ensures !OccursAt(Join(groups, ":"), "::", j)
  {
    var s, g := Join(groups, ":"), groups[0];
    assert StrayGroup(g) && !IsHex(':');
    PairAt(s, j);
    if |groups| > 1 {
      var rest := Join(groups[1..], ":");
      OpenRest(groups);
      OpenNoDouble(groups[1..], j - |g| - 1);
      PairAt(rest, j - |g| - 1);
      assert s == g + ":" + rest;
    }
  }

  lemma OpenRest(groups: seq<string>)
    requires |groups| > 1 && EdgesOpen(groups)
    ensures EdgesOpen(groups[1..])
    ensures var rest := Join(groups[1..], ":"); rest != "" ==> rest[0] != ':'
  {
    assert StrayGroup(groups[1]) && !IsHex(':');
  }

  lemma PairAt(s: string, j: int)
    ensures OccursAt(s, "::", j) <==> 0 <= j <= |s| - 2 && s[j] == ':' && s[j+1] == ':'
  {
    if 0 <= j <= |s| - 2 {
      assert s[j..j+2] == [s[j], s[j+1]];
      assert "::" == [':', ':'];
    }
  }

  lemma JoinedOneHalf(groups: seq<string>)
    requires |groups| > 0 && Filled(groups)
    ensures Split(Join(groups, ":"), "::") == [Join(groups, ":")]
  {
    JoinedNoDouble(groups, IndexOf(Join(groups, ":"), "::"));
  }

  lemma FilledParts(groups: seq<string>)
    requires |groups| > 0 && Readable(groups)
    ensures Split(Join(groups, ":"), ":") == groups
  {
    forall g | g in groups ensures ':' !in g {
      assert !IsHex(':');
    }
    SplitOfJoin(groups, ':');
  }

  // ---------------------------------------------------------------------------
  // The numbers of an accepted text
  // ---------------------------------------------------------------------------

  function GroupValues(groups: seq<string>): (gs: seq<nat>)
    requires Readable(groups)
    ensures |gs| == |groups|
  {
    seq(|groups|, i requires 0 <= i < |groups| => HexValue(groups[i]))
  }

  lemma GroupValuesBelow(groups: seq<string>)
    requires Readable(groups)
    ensures DigitsBelow(GroupValues(groups), 65536)
  {
    forall i | 0 <= i < |groups| ensures GroupValues(groups)[i] < 65536 {
      ShortHexValue(groups[i]);
    }
  }

  lemma PaddedIsKey(groups: seq<string>)
    requires Readable(groups)
    ensures Padded(LowerAll(groups)) == KeyParts(GroupValues(groups))
  {
    forall i | 0 <= i < |groups| ensures Padded(LowerAll(groups))[i] == KeyParts(GroupValues(groups))[i] {
      PadIsFixed(groups[i], 4);
    }
  }

  lemma LowerSide(half: string)
    ensures Side(Lower(half)) == LowerAll(Side(half))
  {
    if half != "" {
      LowerSplit(half, ":");
    }
  }

  lemma LowerConcat(left: seq<string>, n: int, right: seq<string>)
    ensures LowerAll(left + Fill(n) + right) == LowerAll(left) + Fill(n) + LowerAll(right)
  {
    assert Lower("0") == "0";
  }

  lemma LowerGroups(s: string)
    ensures Groups(Lower(s)) == LowerAll(Groups(s))
  {
    var halves := Split(s, "::");
    LowerSplit(s, "::");
    assert |Split(Lower(s), "::")| == |halves|;
    if |halves| == 1 {
      LowerSplit(halves[0], ":");
    } else {
      LowerSide(halves[0]);
      LowerSide(halves[1]);
      var left, right := Side(halves[0]), Side(halves[1]);
      LowerConcat(left, 8 - |left| - |right|, right);
    }
  }

  /** An accepted text without a quad has eight groups of at most four digits. */
  lemma AcceptedGroups(s: string)
    requires IsIpv6(s) && !IsMapped(s)
    ensures |Groups(s)| == 8 && Readable(Groups(s))
  {
    var halves := Split(s, "::");
    if |halves| == 2 {
      var left, right := Side(halves[0]), Side(halves[1]);
      forall i | 0 <= i < 8 ensures AllHex(Groups(s)[i]) && |Groups(s)[i]| <= 4 {
        if i < |left| { assert StrayGroup(left[i]); }
        else if i >= 8 - |right| { assert StrayGroup(right[i - (8 - |right|)]); }
      }
    } else {
      var groups := Split(halves[0], ":");
      forall i | 0 <= i < 8 ensures AllHex(groups[i]) && |groups[i]| <= 4 {
        assert CheckGroup(groups[i]);
      }
    }
  }

  /** The eight numbers an accepted text stands for; a stray empty group is 0. */
  function Numbers(s: string): seq<nat>
    requires IsIpv6(s)
  {
    if IsMapped(s) then
      var q := QuadOf(s[7..]);
      MappedNumbers(q)
    else
      AcceptedGroups(s);
      GroupValues(Groups(s))
  }

  function MappedNumbers(q: seq<nat>): seq<nat>
    requires |q| == 4
  {
    [0, 0, 0, 0, 0, 0xffff, 256 * q[0] + q[1], 256 * q[2] + q[3]]
  }

  lemma LowerQuad(x: string)
    requires IsIpv4(x) || IsIpv4(Lower(x))
    ensures Lower(x) == x
  {
    var y := if IsIpv4(x) then x else Lower(x);
    QuadChars(y);
    forall i | 0 <= i < |x| ensures Lower(x)[i] == x[i] {
      assert y[i] in y;
    }
  }

  lemma LowerMapped(s: string)
    ensures IsMapped(Lower(s)) == IsMapped(s)
    ensures IsMapped(s) ==> Lower(s)[7..] == s[7..]
  {
    if |s| >= 7 {
      LowerCut(s, 7, 7);
      assert Lower(Lower(s[..7])) == Lower(s[..7]);
      if IsIpv4(s[7..]) || IsIpv4(Lower(s[7..])) {
        LowerQuad(s[7..]);
      }
    }
  }

  lemma {:induction false} JoinConcat(a: seq<string>, b: seq<string>, sep: string)
    requires |a| > 0 && |b| > 0
    ensures Join(a + b, sep) == Join(a, sep) + sep + Join(b, sep)
  {
    assert (a + b)[1..] == a[1..] + b;
    if |a| > 1 {
      JoinConcat(a[1..], b, sep);
      assert a[0] + sep + (Join(a[1..], sep) + sep + Join(b, sep)) ==
        a[0] + sep + Join(a[1..], sep) + sep + Join(b, sep);
    }
  }

  function ZeroGroup(s: string): string { "0000" + ":" + s }

  lemma PrefixJoined()
    ensures Join(["0000", "0000", "0000", "0000", "0000", "ffff"], ":")
      == ZeroGroup(ZeroGroup(ZeroGroup(ZeroGroup(ZeroGroup("ffff")))))
  {
    var one := ["ffff"];
    assert Join(one, ":") == "ffff";
    JoinPrepend("0000", one, ":");
    JoinPrepend("0000", ["0000"] + one, ":");
    JoinPrepend("0000", ["0000"] + (["0000"] + one), ":");
    JoinPrepend("0000", ["0000"] + (["0000"] + (["0000"] + one)), ":");
    JoinPrepend("0000", ["0000"] + (["0000"] + (["0000"] + (["0000"] + one))), ":");
    assert ["0000"] + (["0000"] + (["0000"] + (["0000"] + (["0000"] + one)))) ==
      ["0000", "0000", "0000", "0000", "0000", "ffff"];
  }

  lemma TwoGroups()
    ensures ZeroGroup(ZeroGroup("ffff")) == "0000:0000:ffff"
  {
    assert ZeroGroup("ffff") == "0000:ffff";
  }

  lemma PrefixLetters()
    ensures ZeroGroup(ZeroGroup(ZeroGroup(ZeroGroup(ZeroGroup("ffff"))))) == "0000:0000:0000:0000:0000:ffff"
  {
    TwoGroups();
    FourGroups();
    assert ZeroGroup("0000:0000:0000:0000:ffff") == "0000:0000:0000:0000:0000:ffff";
  }

  lemma FourGroups()
    ensures ZeroGroup(ZeroGroup("0000:0000:ffff")) == "0000:0000:0000:0000:ffff"
  {
    assert ZeroGroup("0000:0000:ffff") == "0000:0000:0000:ffff";
  }

  lemma PrefixText()
    ensures Join(["0000", "0000", "0000", "0000", "0000", "ffff"], ":") + ":" == MAPPED_PREFIX
  {
    PrefixJoined();
    PrefixLetters();
  }

  lemma PrefixDigits()
    ensures Fixed(0, 4) == "0000" && Fixed(0xffff, 4) == "ffff"
  {
  }

  lemma MappedKey(h: nat, l: nat)
    requires h < 65536 && l < 65536
    ensures Key6([0, 0, 0, 0, 0, 0xffff, h, l]) == MAPPED_PREFIX + Fixed(h, 4) + ":" + Fixed(l, 4)
  {
    PrefixText();
    PrefixDigits();
    var head := ["0000", "0000", "0000", "0000", "0000", "ffff"];
    var tail := [Fixed(h, 4), Fixed(l, 4)];
    assert KeyParts([0, 0, 0, 0, 0, 0xffff, h, l]) == head + tail;
    JoinConcat(head, tail, ":");
    assert tail[1..] == [Fixed(l, 4)];
    assert Join(tail, ":") == Fixed(h, 4) + ":" + Fixed(l, 4);
  }

  lemma TwoBytes(a: nat, b: nat)
    requires a < 256 && b < 256
    ensures Or(Shl32(a, 8), b) == 256 * a + b < 65536
  {
    Pow2Values();
    ShiftInto(a, 8);
    LowOfMultiple(a, 8);
    OrDisjoint(a * Pow2(8), b, 8);
  }

  lemma BytePairText(a: nat, b: nat)
    requires a < 256 && b < 256
    ensures 256 * a + b < 65536 && BytePair(a, b) == Fixed(256 * a + b, 4)
  {
    TwoBytes(a, b);
    PaddedHexText(256 * a + b);
  }

  lemma MappedQuadKey(q: seq<nat>)
    requires Quad(q)
    ensures Hextets(MappedNumbers(q))
    ensures MAPPED_PREFIX + BytePair(q[0], q[1]) + ":" + BytePair(q[2], q[3]) == Key6(MappedNumbers(q))
  {
    BytePairText(q[0], q[1]);
    BytePairText(q[2], q[3]);
    MappedKey(256 * q[0] + q[1], 256 * q[2] + q[3]);
  }

  lemma MappedExpands(s: string)
    requires IsMapped(s)
    ensures Hextets(Numbers(s)) && ExpandIpv6(s) == Key6(Numbers(s))
  {
    LowerMapped(s);
    MappedQuadKey(QuadOf(s[7..]));
  }

  /** Expanding prints the eight numbers at fixed width. */
  lemma ExpandIsKey(s: string)
    requires IsIpv6(s)
    ensures Hextets(Numbers(s)) && ExpandIpv6(s) == Key6(Numbers(s))
  {
    if IsMapped(s) {
      MappedExpands(s);
    } else {
      AcceptedGroups(s);
      GroupValuesBelow(Groups(s));
      LowerMapped(s);
      LowerGroups(s);
      PaddedIsKey(Groups(s));
    }
  }

  // ---------------------------------------------------------------------------
  // Normal forms are accepted and kept
  // ---------------------------------------------------------------------------

  lemma KeyPartsFilled(gs: seq<nat>)
    ensures Filled(KeyParts(gs)) && Readable(KeyParts(gs))
  {
  }

  lemma KeyText(gs: seq<nat>)
    requires Hextets(gs)
    ensures AllKeyChars(Key6(gs)) && Split(Key6(gs), "::") == [Key6(gs)] && Split(Key6(gs), ":") == KeyParts(gs)
    ensures Key6(gs) != "" && Key6(gs)[0] != ':'
  {
    KeyPartsFilled(gs);
    JoinedChars(KeyParts(gs));
    JoinedOneHalf(KeyParts(gs));
    FilledParts(KeyParts(gs));
    JoinedNoDouble(KeyParts(gs), 0);
  }

  lemma {:induction false} JoinedLength(parts: seq<string>)
    requires |parts| > 0 && forall i | 0 <= i < |parts| :: |parts[i]| == 4
    ensures |Join(parts, ":")| == 5 * |parts| - 1
  {
    if |parts| > 1 { JoinedLength(parts[1..]); }
  }

  lemma KeyValues(gs: seq<nat>)
    requires Hextets(gs)
    ensures Readable(KeyParts(gs)) && GroupValues(KeyParts(gs)) == gs
  {
    KeyPartsFilled(gs);
    forall i | 0 <= i < 8 ensures GroupValues(KeyParts(gs))[i] == gs[i] {
      Fixed4Value(gs[i]);
    }
  }

  lemma NoDot(s: string)
    requires AllKeyChars(s)
    ensures '.' !in s && '%' !in s && !IsIpv4(s) && !IsMapped(s)
  {
    NotKeyChars();
    NoDotNoQuad(s);
    if |s| >= 7 { NoDotNoQuad(s[7..]); }
  }

  /** The fixed-width text is accepted and stands for its own numbers. */
  lemma KeyAccepted(gs: seq<nat>)
    requires Hextets(gs)
    ensures IsIpv6(Key6(gs)) && !IsIpv4(Key6(gs)) && Numbers(Key6(gs)) == gs
  {
    KeyText(gs);
    KeyPartsFilled(gs);
    NoDot(Key6(gs));
    KeyValues(gs);
  }

  lemma Undecorated(s: string)
    requires 0 < |s| <= 45 && !IsSpace(s[0]) && !IsSpace(s[|s|-1]) && s[0] != '[' && '%' !in s
    ensures NormalizeIp(s) == if IsIpv4(s) then Some(s) else if IsIpv6(s) then Some(ExpandIpv6(s)) else None
  {
    IndexOfAbsent(s, '%');
  }

  lemma QuadKept(s: string)
    requires IsIpv4(s)
    ensures NormalizeIp(s) == Some(s)
  {
    QuadChars(s);
    assert !QuadChar('%') && !QuadChar('[');
    Undecorated(s);
  }

  lemma KeyKept(gs: seq<nat>)
    requires Hextets(gs)
    ensures NormalizeIp(Key6(gs)) == Some(Key6(gs))
  {
    var k := Key6(gs);
    KeyText(gs);
    KeyAccepted(gs);
    ExpandIsKey(k);
    JoinedLength(KeyParts(gs));
    NotKeyChars();
    NoDot(k);
    assert KeyChar(k[0]) && KeyChar(k[|k|-1]);
    Undecorated(k);
  }

  /** Everything accepted comes out as a dotted quad or as eight lower-case four-digit groups. */
  lemma NormalizedIsCanonical(raw: string)
    requires NormalizeIp(raw).Some?
    ensures Canonical(NormalizeIp(raw).value)
  {
    var core := Unzoned(Unbracketed(Trim(raw)));
    if !IsIpv4(core) {
      ExpandIsKey(core);
    }
  }

  lemma CanonicalKept(k: string)
    requires Canonical(k)
    ensures NormalizeIp(k) == Some(k)
  {
    if IsIpv4(k) {
      QuadKept(k);
    } else {
      var gs :| Hextets(gs) && k == Key6(gs);
      KeyKept(gs);
    }
  }

  /** Normalising twice is normalising once. */
  lemma NormalizeIdempotent(raw: string)
    requires NormalizeIp(raw).Some?
    ensures NormalizeIp(NormalizeIp(raw).value) == NormalizeIp(raw)
  {
    NormalizedIsCanonical(raw);
    CanonicalKept(NormalizeIp(raw).value);
  }
}
