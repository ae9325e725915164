/**
 The spellings of an address, after section 2.2 of RFC 4291, with the number each stands for;
 and that normalising keeps the number, so two spellings of one address give one key.
 */
module IpSpelling {
  import opened Options
  import opened JsText
  import opened Hex
  import opened Radix
  import opened IpText
  import opened IpNormal

  datatype Spelling =
    | QuadForm(quad: seq<nat>)
    | FullForm(groups: seq<string>)
    | ShortForm(left: seq<string>, right: seq<string>)  // `::` between, for one or more zero groups
    | MappedForm(prefix: string, quad: seq<nat>)

  datatype Address = V4(number: nat) | V6(number: nat)

  predicate WellFormed(t: Spelling)
  {
    match t
    case QuadForm(quad) => Quad(quad)
    case FullForm(groups) => |groups| == 8 && Filled(groups)
    case ShortForm(left, right) => Filled(left) && Filled(right) && |left| + |right| <= 7
    case MappedForm(prefix, quad) => |prefix| == 7 && Lower(prefix) == "::ffff:" && Quad(quad)
  }

  function Text(t: Spelling): string
  {
    match t
    case QuadForm(quad) => QuadText(quad)
    case FullForm(groups) => Join(groups, ":")
    case ShortForm(left, right) => Join(left, ":") + "::" + Join(right, ":")
    case MappedForm(prefix, quad) => prefix + QuadText(quad)
  }

  const MAPPED_BASE: nat := 0xffff * 0x1_0000_0000

  lemma FilledIsReadable(groups: seq<string>)
    requires Filled(groups)
    ensures Readable(groups)
  {
    forall i | 0 <= i < |groups| ensures AllHex(groups[i]) && |groups[i]| <= 4 {
      assert CheckGroup(groups[i]);
    }
  }

  /** The value of a run of groups, most significant first. */
  function GroupsNumber(groups: seq<string>): nat
    requires Filled(groups)
  {
    FilledIsReadable(groups);
    Horner(GroupValues(groups), 65536)
  }

  function AddressOf(t: Spelling): Address
    requires WellFormed(t)
  {
    match t
    case QuadForm(quad) => V4(Horner(quad, 256))
    case FullForm(groups) => V6(GroupsNumber(groups))
    case ShortForm(left, right) => V6(GroupsNumber(left) * Power(65536, 8 - |left|) + GroupsNumber(right))
    case MappedForm(_, quad) => V6(MAPPED_BASE + Horner(quad, 256))
  }

  /** The key is the normal form of that address. */
  ghost predicate Denotes(k: string, a: Address)
  {
    match a
    case V4(n) => exists q :: Quad(q) && k == QuadText(q) && Horner(q, 256) == n
    case V6(n) => exists gs :: Hextets(gs) && k == Key6(gs) && Horner(gs, 65536) == n
  }

  // ---------------------------------------------------------------------------
  // Keys and addresses are in bijection
  // ---------------------------------------------------------------------------

  lemma KeyInjective(gs: seq<nat>, hs: seq<nat>)
    requires Hextets(gs) && Hextets(hs) && Key6(gs) == Key6(hs)
    ensures gs == hs
  {
    KeyText(gs);
    KeyText(hs);
    KeyValues(gs);
    KeyValues(hs);
  }

  lemma QuadInjective(q: seq<nat>, r: seq<nat>)
    requires Quad(q) && Quad(r) && QuadText(q) == QuadText(r)
    ensures q == r
  {
    QuadRoundTrip(q);
    QuadRoundTrip(r);
  }

  /** Two keys are equal exactly when the addresses they denote are. */
  lemma DenotesUnique(k: string, l: string, a: Address, b: Address)
    requires Denotes(k, a) && Denotes(l, b)
    ensures k == l <==> a == b
  {
    match (a, b)
    case (V4(m), V4(n)) =>
      var q :| Quad(q) && k == QuadText(q) && Horner(q, 256) == m;
      var r :| Quad(r) && l == QuadText(r) && Horner(r, 256) == n;
      HornerInjective(q, r, 256);
      if k == l { QuadInjective(q, r); }
    case (V6(m), V6(n)) =>
      var gs :| Hextets(gs) && k == Key6(gs) && Horner(gs, 65536) == m;
      var hs :| Hextets(hs) && l == Key6(hs) && Horner(hs, 65536) == n;
      HornerInjective(gs, hs, 65536);
      if k == l { KeyInjective(gs, hs); }
    case (V4(m), V6(n)) => FamiliesDiffer(k, l, m, n);
    case (V6(m), V4(n)) => FamiliesDiffer(l, k, n, m);
  }

  lemma FamiliesDiffer(k: string, l: string, m: nat, n: nat)
    requires Denotes(k, V4(m)) && Denotes(l, V6(n))
    ensures k != l
  {
    var q :| Quad(q) && k == QuadText(q);
    var gs :| Hextets(gs) && l == Key6(gs);
    QuadRoundTrip(q);
    KeyAccepted(gs);
  }

  // ---------------------------------------------------------------------------
  // Reading a spelling
  // ---------------------------------------------------------------------------

  lemma JoinedAtMost(groups: seq<string>)
    requires Filled(groups)
    ensures |Join(groups, ":")| <= 5 * |groups|
  {
    if |groups| > 0 { JoinedLengthAtMost(groups); }
  }

  lemma {:induction false} JoinedLengthAtMost(groups: seq<string>)
    requires |groups| > 0 && Filled(groups)
    ensures |Join(groups, ":")| <= 5 * |groups| - 1
  {
    assert CheckGroup(groups[0]);
    if |groups| > 1 { JoinedLengthAtMost(groups[1..]); }
  }

  lemma ShortIndex(a: string, b: string, j: int)
    requires a != "" ==> a[|a|-1] != ':'
    requires j == IndexOf(a + "::" + b, "::") && !OccursAt(a, "::", j)
    ensures j == |a|
  {
    var s := a + "::" + b;
    assert OccursAt(s, "::", |a|);
    PairAt(s, j);
    PairAt(a, j);
  }

  lemma JoinedSplitOnce(groups: seq<string>)
    requires Filled(groups)
    ensures Split(Join(groups, ":"), "::") == [Join(groups, ":")]
    ensures Side(Join(groups, ":")) == groups
  {
    if groups != [] {
      FilledIsReadable(groups);
      JoinedOneHalf(groups);
      FilledParts(groups);
      JoinedNoDouble(groups, 0);
    }
  }

  lemma ShortHalves(left: seq<string>, right: seq<string>)
    requires Filled(left) && Filled(right)
    ensures Split(Join(left, ":") + "::" + Join(right, ":"), "::") == [Join(left, ":"), Join(right, ":")]
  {
    var a, b := Join(left, ":"), Join(right, ":");
    var s := a + "::" + b;
    var j := IndexOf(s, "::");
    if left != [] { JoinedNoDouble(left, j); } else { PairAt(a, j); }
    ShortIndex(a, b, j);
    assert s[..|a|] == a && s[|a|+2..] == b;
    JoinedSplitOnce(right);
  }

  lemma ShortGroups(left: seq<string>, right: seq<string>)
    requires Filled(left) && Filled(right) && |left| + |right| <= 7
    ensures Groups(Text(ShortForm(left, right))) == left + Fill(8 - |left| - |right|) + right
  {
    ShortHalves(left, right);
    JoinedSplitOnce(left);
    JoinedSplitOnce(right);
  }

  lemma FillValues(n: nat)
    ensures Readable(Fill(n)) && GroupValues(Fill(n)) == seq(n, _ => 0)
  {
    assert HexValue("0") == 0;
  }

  lemma ValuesConcat(a: seq<string>, b: seq<string>)
    requires Readable(a) && Readable(b)
    ensures Readable(a + b) && GroupValues(a + b) == GroupValues(a) + GroupValues(b)
  {
  }

  lemma GapValues(left: seq<string>, n: nat, right: seq<string>)
    requires Readable(left) && Readable(right)
    ensures Readable(left + Fill(n) + right)
    ensures GroupValues(left + Fill(n) + right) == GroupValues(left) + seq(n, _ => 0) + GroupValues(right)
  {
    FillValues(n);
    ValuesConcat(left, Fill(n));
    ValuesConcat(left + Fill(n), right);
  }

  lemma GapNumber(all: seq<nat>, a: seq<nat>, n: nat, b: seq<nat>, size: nat)
    requires all == a + seq(n, _ => 0) + b && size == |b|
    ensures Horner(all, 65536) == Horner(a, 65536) * Power(65536, n + size) + Horner(b, 65536)
  {
    HornerGap(a, n, b, 65536);
  }

  lemma ReadableNumber(left: seq<string>, n: nat, right: seq<string>, a: seq<nat>, b: seq<nat>)
    requires Readable(left) && Readable(right) && a == GroupValues(left) && b == GroupValues(right)
    ensures Readable(left + Fill(n) + right)
    ensures Horner(GroupValues(left + Fill(n) + right), 65536)
      == Horner(a, 65536) * Power(65536, n + |right|) + Horner(b, 65536)
  {
    GapValues(left, n, right);
    GapNumber(GroupValues(left + Fill(n) + right), a, n, b, |right|);
  }

  /** Left groups on top, right groups below, zeros between. */
  lemma ShortNumber(left: seq<string>, n: nat, right: seq<string>)
    requires Filled(left) && Filled(right)
    ensures Readable(left + Fill(n) + right)
    ensures Horner(GroupValues(left + Fill(n) + right), 65536)
      == GroupsNumber(left) * Power(65536, n + |right|) + GroupsNumber(right)
  {
    FilledIsReadable(left);
    FilledIsReadable(right);
    ReadableNumber(left, n, right, GroupValues(left), GroupValues(right));
  }

  lemma ColonText(s: string)
    requires AllKeyChars(s) && 0 < |s| <= 45 && IsIpv6(s)
    ensures NormalizeIp(s) == Some(Key6(Numbers(s))) && Hextets(Numbers(s))
  {
    NotKeyChars();
    NoDot(s);
    assert KeyChar(s[0]) && KeyChar(s[|s|-1]);
    Undecorated(s);
    ExpandIsKey(s);
  }

  lemma FullRead(groups: seq<string>)
    requires |groups| == 8 && Filled(groups)
    ensures var s := Join(groups, ":");
      AllKeyChars(s) && 0 < |s| <= 45 && IsIpv6(s) && !IsMapped(s) && Groups(s) == groups
  {
    FilledIsReadable(groups);
    JoinedChars(groups);
    JoinedLengthAtMost(groups);
    JoinedNoDouble(groups, 0);
    JoinedOneHalf(groups);
    FilledParts(groups);
    NoDot(Join(groups, ":"));
  }

  lemma ShortRead(left: seq<string>, right: seq<string>)
    requires Filled(left) && Filled(right) && |left| + |right| <= 7
    ensures var s := Text(ShortForm(left, right)); AllKeyChars(s) && 0 < |s| <= 45 && IsIpv6(s) && !IsMapped(s)
  {
    FilledIsReadable(left);
    FilledIsReadable(right);
    JoinedChars(left);
    JoinedChars(right);
    JoinedAtMost(left);
    JoinedAtMost(right);
    NoDot(Text(ShortForm(left, right)));
    ShortHalves(left, right);
    JoinedSplitOnce(left);
    JoinedSplitOnce(right);
    forall i | 0 <= i < |left| ensures StrayGroup(left[i]) { assert CheckGroup(left[i]); }
    forall i | 0 <= i < |right| ensures StrayGroup(right[i]) { assert CheckGroup(right[i]); }
  }

  lemma MappedChars(prefix: string)
    requires |prefix| == 7 && Lower(prefix) == "::ffff:"
    ensures prefix[0] == ':' && '%' !in prefix
  {
    forall i | 0 <= i < 7 ensures prefix[i] != '%' && (i == 0 ==> prefix[i] == ':') {
      LowerColon(prefix[i]);
      assert Lower(prefix)[i] == "::ffff:"[i];
      assert "::ffff:"[i] == ':' || "::ffff:"[i] == 'f';
    }
  }

  lemma MappedAccepted(prefix: string, q: seq<nat>)
    requires |prefix| == 7 && Lower(prefix) == "::ffff:" && Quad(q)
    ensures var s := prefix + QuadText(q);
      IsMapped(s) && s[7..] == QuadText(q) && IsIpv6(s) && Numbers(s) == MappedNumbers(q)
  {
    var s := prefix + QuadText(q);
    assert s[..7] == prefix && s[7..] == QuadText(q);
    QuadRoundTrip(q);
  }

  lemma ColonNoQuad(s: string)
    requires s != "" && s[0] == ':'
    ensures !IsIpv4(s)
  {
    if IsIpv4(s) {
      QuadChars(s);
    }
  }

  lemma MappedEnds(prefix: string, q: seq<nat>)
    requires |prefix| == 7 && Lower(prefix) == "::ffff:" && Quad(q)
    ensures var s := prefix + QuadText(q);
      0 < |s| <= 45 && !IsSpace(s[0]) && !IsSpace(s[|s|-1]) && s[0] != '[' && '%' !in s && !IsIpv4(s)
  {
    MappedChars(prefix);
    QuadRoundTrip(q);
    QuadChars(QuadText(q));
    assert !QuadChar('%');
    ColonNoQuad(prefix + QuadText(q));
  }

  lemma MappedRead(prefix: string, q: seq<nat>)
    requires |prefix| == 7 && Lower(prefix) == "::ffff:" && Quad(q)
    ensures NormalizeIp(prefix + QuadText(q)) == Some(Key6(MappedNumbers(q))) && Hextets(MappedNumbers(q))
  {
    MappedAccepted(prefix, q);
    MappedEnds(prefix, q);
    ExpandIsKey(prefix + QuadText(q));
    Undecorated(prefix + QuadText(q));
  }

  lemma MappedNumber(q: seq<nat>)
    requires Quad(q)
    ensures Horner(MappedNumbers(q), 65536) == MAPPED_BASE + Horner(q, 256)
  {
    var a, b, c, d := q[0], q[1], q[2], q[3];
    assert q == [a, b, c, d];
    HornerFour(a, b, c, d, 256);
    var m := [0, 0, 0, 0, 0, 0xffff];
    var h, l := 256 * a + b, 256 * c + d;
    assert MappedNumbers(q) == m + [h, l];
    HornerConcat(m, [h, l], 65536);
    HornerTwo(h, l, 65536);
    MappedHead();
    assert Power(65536, 2) == 0x1_0000_0000;
  }

  lemma MappedHead()
    ensures Horner([0, 0, 0, 0, 0, 0xffff], 65536) == 0xffff
  {
    var m := [0, 0, 0, 0, 0, 0xffff];
    assert m[..5] == seq(5, _ => 0);
    HornerZeros(5, 65536);
  }

  lemma QuadKeeps(q: seq<nat>)
    requires Quad(q)
    ensures NormalizeIp(QuadText(q)) == Some(QuadText(q)) && Denotes(QuadText(q), V4(Horner(q, 256)))
  {
    QuadRoundTrip(q);
    QuadKept(QuadText(q));
  }

  lemma ColonDenotes(s: string, groups: seq<string>)
    requires AllKeyChars(s) && 0 < |s| <= 45 && IsIpv6(s) && !IsMapped(s) && Groups(s) == groups && Readable(groups)
    ensures NormalizeIp(s).Some? && Denotes(NormalizeIp(s).value, V6(Horner(GroupValues(groups), 65536)))
  {
    ColonText(s);
  }

  lemma FullKeeps(groups: seq<string>)
    requires |groups| == 8 && Filled(groups)
    ensures var s := Join(groups, ":"); NormalizeIp(s).Some? && Denotes(NormalizeIp(s).value, V6(GroupsNumber(groups)))
  {
    FullRead(groups);
    FilledIsReadable(groups);
    ColonDenotes(Join(groups, ":"), groups);
  }

  lemma ShortAddress(left: seq<string>, n: nat, right: seq<string>)
    requires WellFormed(ShortForm(left, right)) && |left| + n + |right| == 8
    ensures Readable(left + Fill(n) + right)
    ensures AddressOf(ShortForm(left, right)) == V6(Horner(GroupValues(left + Fill(n) + right), 65536))
  {
    ShortNumber(left, n, right);
    assert 8 - |left| == n + |right|;
  }

  lemma ShortKeeps(left: seq<string>, right: seq<string>)
    requires WellFormed(ShortForm(left, right))
    ensures var s := Text(ShortForm(left, right));
      NormalizeIp(s).Some? && Denotes(NormalizeIp(s).value, AddressOf(ShortForm(left, right)))
  {
    ShortRead(left, right);
    ShortGroups(left, right);
    ShortAddress(left, 8 - |left| - |right|, right);
    ColonDenotes(Text(ShortForm(left, right)), left + Fill(8 - |left| - |right|) + right);
  }

  /** Normalising a well-formed spelling keeps the address it stands for. */
  lemma NormalizeKeepsAddress(t: Spelling)
    requires WellFormed(t)
    ensures NormalizeIp(Text(t)).Some? && Denotes(NormalizeIp(Text(t)).value, AddressOf(t))
  {
    match t
    case QuadForm(q) => QuadKeeps(q);
    case FullForm(groups) => FullKeeps(groups);
    case ShortForm(left, right) => ShortKeeps(left, right);
    case MappedForm(prefix, q) =>
      MappedRead(prefix, q);
      MappedNumber(q);
  }

  /** Two well-formed spellings get one key exactly when they spell one address. */
  lemma OneKeyPerAddress(t: Spelling, u: Spelling)
    requires WellFormed(t) && WellFormed(u)
    ensures NormalizeIp(Text(t)) == NormalizeIp(Text(u)) <==> AddressOf(t) == AddressOf(u)
  {
    NormalizeKeepsAddress(t);
    NormalizeKeepsAddress(u);
    DenotesUnique(NormalizeIp(Text(t)).value, NormalizeIp(Text(u)).value, AddressOf(t), AddressOf(u));
  }

  // ---------------------------------------------------------------------------
  // Brackets and zone
  // ---------------------------------------------------------------------------

  predicate PlainCore(s: string)
  {
    0 < |s| <= 45 && !IsSpace(s[0]) && !IsSpace(s[|s|-1]) && s[0] != '[' && '%' !in s
  }

  lemma ColonCore(s: string)
    requires AllKeyChars(s) && 0 < |s| <= 45
    ensures PlainCore(s)
  {
    NotKeyChars();
    NoDot(s);
    assert KeyChar(s[0]) && KeyChar(s[|s|-1]);
  }

  lemma QuadCore(q: seq<nat>)
    requires Quad(q)
    ensures PlainCore(QuadText(q))
  {
    QuadRoundTrip(q);
    QuadChars(QuadText(q));
    assert !QuadChar('%');
  }

  lemma SpelledCore(t: Spelling)
    requires WellFormed(t)
    ensures PlainCore(Text(t))
  {
    match t
    case QuadForm(q) => QuadCore(q);
    case FullForm(groups) =>
      FullRead(groups);
      ColonCore(Text(t));
    case ShortForm(left, right) =>
      ShortRead(left, right);
      ColonCore(Text(t));
    case MappedForm(prefix, q) => MappedEnds(prefix, q);
  }

  function Decorated(core: string, zone: Option<string>, bracketed: bool): string
  {
    var inner := if zone.Some? then core + "%" + zone.value else core;
    if bracketed then "[" + inner + "]" else inner
  }

  lemma ZoneDropped(core: string, zone: Option<string>)
    requires '%' !in core
    ensures Unzoned(Decorated(core, zone, false)) == core
  {
    if zone.Some? {
      IndexOfFirst(core, '%', zone.value);
    } else {
      IndexOfAbsent(core, '%');
    }
  }

  lemma BracketsDropped(core: string, zone: Option<string>, bracketed: bool)
    requires core != "" && core[0] != '['
    ensures Unbracketed(Decorated(core, zone, bracketed)) == Decorated(core, zone, false)
    ensures Decorated(core, zone, bracketed)[0] == if bracketed then '[' else core[0]
  {
    var inner := Decorated(core, zone, false);
    assert inner[0] == core[0];
    if bracketed {
      assert ("[" + inner + "]")[1..|inner|+1] == inner;
    }
  }

  lemma ReadThrough(s: string, core: string)
    requires 0 < |s| <= 45 && Trimmed(s) && Unzoned(Unbracketed(s)) == core
    ensures NormalizeIp(s) == if IsIpv4(core) then Some(core) else if IsIpv6(core) then Some(ExpandIpv6(core)) else None
  {
  }

  /** Brackets and a zone around a well-formed spelling do not change its key. */
  lemma DecorationDropped(t: Spelling, zone: Option<string>, bracketed: bool)
    requires WellFormed(t)
    requires var s := Decorated(Text(t), zone, bracketed); 0 < |s| <= 45 && !IsSpace(s[|s|-1])
    ensures NormalizeIp(Decorated(Text(t), zone, bracketed)) == NormalizeIp(Text(t))
  {
    SpelledCore(t);
    Undecorated(Text(t));
    ZoneDropped(Text(t), zone);
    BracketsDropped(Text(t), zone, bracketed);
    ReadThrough(Decorated(Text(t), zone, bracketed), Text(t));
  }

  // ---------------------------------------------------------------------------
  // What else is accepted
  // ---------------------------------------------------------------------------

  /** Groups left of the `::`, of which the first of several may be empty. */
  predicate OpenLeft(groups: seq<string>)
  {
    && (forall i | 0 <= i < |groups| :: StrayGroup(groups[i]))
    && (forall i | 0 <= i < |groups| :: groups[i] == "" ==> i == 0 && |groups| > 1)
  }

  /** Groups right of the `::`, of which the outer ones of several may be empty. */
  predicate OpenRight(groups: seq<string>)
  {
    && (forall i | 0 <= i < |groups| :: StrayGroup(groups[i]))
    && (forall i | 0 <= i < |groups| :: groups[i] == "" ==> (i == 0 || i == |groups| - 1) && |groups| > 1)
  }

  /**
   A shortened text with a stray empty group: before everything, after everything, or right of
   the `::`, as in ":1::", "::1:" and ":::1".
   */
  predicate Stray(t: Spelling)
  {
    && t.ShortForm? && OpenLeft(t.left) && OpenRight(t.right) && |t.left| + |t.right| <= 7
    && !(Filled(t.left) && Filled(t.right))
  }

  lemma SideJoins(half: string)
    ensures Join(Side(half), ":") == half
  {
    if half != "" { JoinOfSplit(half, ":"); }
  }

  /** An empty group inside makes a `::`. */
  lemma InnerGapDoubles(groups: seq<string>, i: nat)
    requires 0 < i < |groups| - 1 && groups[i] == ""
    ensures OccursAt(Join(groups, ":"), "::", |Join(groups[..i], ":")|)
  {
    var a, b := groups[..i], groups[i..];
    assert groups == a + b && b[0] == "";
    JoinConcat(a, b, ":");
    var rest := Join(b[1..], ":");
    assert Join(b, ":") == "" + ":" + rest;
    assert Join(groups, ":") == Join(a, ":") + ":" + (":" + rest);
    PairAt(Join(groups, ":"), |Join(a, ":")|);
  }

  /** An empty last group leaves a colon at the end. */
  lemma LastGapEnds(groups: seq<string>)
    requires |groups| > 1 && groups[|groups|-1] == ""
    ensures var s := Join(groups, ":"); s != "" && s[|s|-1] == ':'
  {
    var a, b := groups[..|groups|-1], groups[|groups|-1..];
    assert groups == a + b && b == [""];
    JoinConcat(a, b, ":");
  }

  /** A half without `::` has no empty group inside. */
  lemma HalfIsOpen(half: string)
    requires forall i | 0 <= i < |Side(half)| :: StrayGroup(Side(half)[i])
    requires forall j :: !OccursAt(half, "::", j)
    ensures OpenRight(Side(half))
  {
    var groups := Side(half);
    SideJoins(half);
    forall i | 0 <= i < |groups| && groups[i] == "" ensures (i == 0 || i == |groups| - 1) && |groups| > 1 {
      if 0 < i < |groups| - 1 { InnerGapDoubles(groups, i); }
    }
  }

  /** The left half does not end in a colon either: the `::` is the first. */
  lemma LeftIsOpen(half: string)
    requires OpenRight(Side(half)) && (half != "" ==> half[|half|-1] != ':')
    ensures OpenLeft(Side(half))
  {
    var groups := Side(half);
    SideJoins(half);
    if |groups| > 1 && groups[|groups|-1] == "" { LastGapEnds(groups); }
  }

  /** Where a text is cut at its first `::`, what lies before has none and ends in no colon. */
  lemma FirstCut(s: string, a: string, b: string)
    requires s == a + "::" + b && IndexOf(s, "::") == |a|
    ensures forall j :: !OccursAt(a, "::", j)
    ensures a != "" ==> a[|a|-1] != ':'
  {
    forall j ensures !OccursAt(a, "::", j) {
      PairAt(a, j);
      PairAt(s, j);
    }
    PairAt(s, |a| - 1);
  }

  lemma TwoHalves(s: string)
    requires |Split(s, "::")| == 2
    ensures var h := Split(s, "::");
      && s == h[0] + "::" + h[1] && IndexOf(s, "::") == |h[0]| && forall j :: !OccursAt(h[1], "::", j)
  {
    var h, i := Split(s, "::"), IndexOf(s, "::");
    assert h == [s[..i]] + Split(s[i+2..], "::");
    assert IndexOf(s[i+2..], "::") == -1;
    assert h[1] == s[i+2..];
  }

  /** Every accepted core is a well-formed spelling, or a shortened one with a stray empty group. */
  lemma AcceptedIsSpelled(s: string) returns (t: Spelling)
    requires IsIpv4(s) || IsIpv6(s)
    ensures Text(t) == s && (WellFormed(t) || Stray(t))
  {
    if IsIpv4(s) {
      QuadIsItsText(s);
      t := QuadForm(QuadOf(s));
    } else if IsMapped(s) {
      QuadIsItsText(s[7..]);
      t := MappedForm(s[..7], QuadOf(s[7..]));
    } else {
      t := ColonSpelled(s);
    }
  }

  lemma ColonSpelled(s: string) returns (t: Spelling)
    requires IsIpv6(s) && !IsMapped(s)
    ensures Text(t) == s && (WellFormed(t) || Stray(t))
  {
    var halves := Split(s, "::");
    if |halves| == 1 {
      JoinOfSplit(s, "::");
      JoinOfSplit(halves[0], ":");
      t := FullForm(Split(halves[0], ":"));
    } else {
      TwoHalves(s);
      FirstCut(s, halves[0], halves[1]);
      HalfIsOpen(halves[0]);
      LeftIsOpen(halves[0]);
      HalfIsOpen(halves[1]);
      SideJoins(halves[0]);
      SideJoins(halves[1]);
      t := ShortForm(Side(halves[0]), Side(halves[1]));
    }
  }

  /** Open groups are read back from their text. */
  lemma OpenSide(groups: seq<string>)
    requires OpenRight(groups)
    ensures Side(Join(groups, ":")) == groups && AllKeyChars(Join(groups, ":"))
    ensures forall j :: !OccursAt(Join(groups, ":"), "::", j)
  {
    assert Readable(groups);
    JoinedChars(groups);
    if groups != [] {
      FilledParts(groups);
      forall j ensures !OccursAt(Join(groups, ":"), "::", j) { OpenNoDouble(groups, j); }
    }
  }

  lemma {:induction false} JoinEnds(groups: seq<string>)
    requires groups != [] && CheckGroup(groups[|groups|-1])
    ensures var s := Join(groups, ":"); s != "" && s[|s|-1] != ':'
  {
    assert !IsHex(':');
    if |groups| > 1 { JoinEnds(groups[1..]); }
  }

  lemma CutHalves(a: string, b: string)
    requires a != "" ==> a[|a|-1] != ':'
    requires forall j :: !OccursAt(a, "::", j)
    requires forall j :: !OccursAt(b, "::", j)
    ensures Split(a + "::" + b, "::") == [a, b]
  {
    var s := a + "::" + b;
    ShortIndex(a, b, IndexOf(s, "::"));
    assert s[..|a|] == a && s[|a|+2..] == b;
    assert Split(b, "::") == [b];
  }

  lemma OpenHalves(left: seq<string>, right: seq<string>)
    requires OpenLeft(left) && OpenRight(right)
    ensures Split(Join(left, ":") + "::" + Join(right, ":"), "::") == [Join(left, ":"), Join(right, ":")]
    ensures Side(Join(left, ":")) == left && Side(Join(right, ":")) == right
    ensures AllKeyChars(Join(left, ":")) && AllKeyChars(Join(right, ":"))
  {
    OpenSide(left);
    OpenSide(right);
    if left != [] { JoinEnds(left); }
    CutHalves(Join(left, ":"), Join(right, ":"));
  }

  lemma StrayAccepted(left: seq<string>, right: seq<string>)
    requires OpenLeft(left) && OpenRight(right) && |left| + |right| <= 7
    ensures IsIpv6(Text(ShortForm(left, right)))
  {
    OpenHalves(left, right);
    NoDot(Text(ShortForm(left, right)));
  }

  lemma SpelledAccepted(t: Spelling)
    requires WellFormed(t) || Stray(t)
    ensures IsIpv4(Text(t)) || IsIpv6(Text(t))
  {
    match t
    case QuadForm(q) => QuadRoundTrip(q);
    case FullForm(groups) => FullRead(groups);
    case ShortForm(left, right) => if Stray(t) { StrayAccepted(left, right); } else { ShortRead(left, right); }
    case MappedForm(prefix, q) => MappedAccepted(prefix, q);
  }

  /** The accepted cores are exactly the texts of well-formed spellings and of stray ones. */
  lemma AcceptedExactlyWhen(s: string)
    ensures IsIpv4(s) || IsIpv6(s) <==> exists t :: Text(t) == s && (WellFormed(t) || Stray(t))
  {
    if IsIpv4(s) || IsIpv6(s) {
      var t := AcceptedIsSpelled(s);
    }
    forall t | Text(t) == s && (WellFormed(t) || Stray(t)) ensures IsIpv4(s) || IsIpv6(s) {
      SpelledAccepted(t);
    }
  }

  /** Stray texts are accepted: three colons, for one. */
  lemma StrayExample()
    ensures Stray(ShortForm([], ["", "1"])) && Text(ShortForm([], ["", "1"])) == ":::1" && IsIpv6(":::1")
  {
    assert ["", "1"][1..] == ["1"];
    assert "" + ":" + "1" == ":1";
    StrayAccepted([], ["", "1"]);
  }

  /** A text of more than 45 characters, trimmed, is no address, and neither is a blank one. */
  lemma LongRejected(raw: string)
    requires |Trim(raw)| > 45 || Trim(raw) == ""
    ensures NormalizeIp(raw) == None
  {
  }

  lemma BracketsBack(s: string) returns (bracketed: bool)
    ensures s == if bracketed then "[" + Unbracketed(s) + "]" else Unbracketed(s)
  {
    bracketed := Unbracketed(s) != s;
  }

  lemma ZoneBack(u: string) returns (zone: Option<string>)
    ensures u == Decorated(Unzoned(u), zone, false)
  {
    var i := IndexOf(u, "%");
    if i == -1 {
      zone := None;
    } else {
      zone := Some(u[i+1..]);
      CutText(u, "%", i);
    }
  }

  lemma CoreRead(raw: string, core: string)
    requires NormalizeIp(raw).Some? && core == Unzoned(Unbracketed(Trim(raw)))
    ensures 0 < |Trim(raw)| <= 45 && (IsIpv4(core) || IsIpv6(core))
    ensures NormalizeIp(raw) == Some(if IsIpv4(core) then core else ExpandIpv6(core))
  {
  }

  /** Every accepted text is, trimmed, a core that is accepted, with a zone or brackets around it or without. */
  lemma AcceptedIsDecorated(raw: string) returns (core: string, zone: Option<string>, bracketed: bool)
    requires NormalizeIp(raw).Some?
    ensures Trim(raw) == Decorated(core, zone, bracketed) && 0 < |Trim(raw)| <= 45
    ensures IsIpv4(core) || IsIpv6(core)
    ensures NormalizeIp(raw) == Some(if IsIpv4(core) then core else ExpandIpv6(core))
  {
    bracketed := BracketsBack(Trim(raw));
    core := Unzoned(Unbracketed(Trim(raw)));
    zone := ZoneBack(Unbracketed(Trim(raw)));
    CoreRead(raw, core);
  }
}
