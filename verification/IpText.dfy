/** Internet addresses as text: which texts are accepted, and the form they are kept in. */
module IpText {
  import opened Options
  import opened JsText
  import opened Hex
  import opened Radix
  import opened Bits
  import Decimal

  // ---------------------------------------------------------------------------
  // Dotted quads
  // ---------------------------------------------------------------------------

  predicate IsQuadPart(p: string)
  {
    && 0 < |p| <= 3 && Decimal.AllDigits(p)
    && !(|p| > 1 && p[0] == '0')
    && Decimal.DigitsValue(p) <= 255
  }

  predicate IsIpv4(s: string)
  {
    var parts := Split(s, ".");
    |parts| == 4 && forall i | 0 <= i < 4 :: IsQuadPart(parts[i])
  }

  method CheckIpv4(s: string) returns (ok: bool)
    ensures ok == IsIpv4(s)
  {
    var parts := Split(s, ".");
    if |parts| != 4 { return false; }
    for i := 0 to |parts|
      invariant forall j | 0 <= j < i :: IsQuadPart(parts[j])
    {
      var p := parts[i];
      if |p| == 0 || |p| > 3 { return false; }
      if !Decimal.AllDigits(p) { return false; }
      if |p| > 1 && p[0] == '0' { return false; }
      if Decimal.DigitsValue(p) > 255 { return false; }
    }
    return true;
  }

  /** The four numbers of an accepted quad. */
  function QuadOf(s: string): (q: seq<nat>)
    requires IsIpv4(s)
    ensures |q| == 4 && DigitsBelow(q, 256)
  {
    var parts := Split(s, ".");
    seq(4, i requires 0 <= i < 4 => Decimal.DigitsValue(parts[i]))
  }

  predicate Quad(q: seq<nat>) { |q| == 4 && DigitsBelow(q, 256) }

  function QuadParts(q: seq<nat>): (parts: seq<string>)
    ensures |parts| == |q|
  {
    seq(|q|, i requires 0 <= i < |q| => Decimal.NatText(q[i]))
  }

  function QuadText(q: seq<nat>): string { Join(QuadParts(q), ".") }

  lemma QuadPartText(p: string)
    requires IsQuadPart(p)
    ensures Decimal.NatText(Decimal.DigitsValue(p)) == p
  {
    Decimal.PlainIsNatText(p);
  }

  lemma {:induction false} NatTextLength(n: nat)
    requires n < 256
    ensures |Decimal.NatText(n)| <= 3
  {
    assert n / 10 / 10 < 10;
    assert |Decimal.NatText(n / 10 / 10)| == 1;
    assert |Decimal.NatText(n / 10)| <= 2;
  }

  lemma TextQuadPart(n: nat)
    requires n < 256
    ensures IsQuadPart(Decimal.NatText(n)) && Decimal.DigitsValue(Decimal.NatText(n)) == n
    ensures '.' !in Decimal.NatText(n)
  {
    NatTextLength(n);
    Decimal.NatTextPlain(n);
    Decimal.NatTextValue(n);
    assert !Decimal.IsDigit('.');
  }

  /** Printing four numbers and reading them back. */
  lemma QuadRoundTrip(q: seq<nat>)
    requires Quad(q)
    ensures IsIpv4(QuadText(q)) && QuadOf(QuadText(q)) == q
    ensures Split(QuadText(q), ".") == QuadParts(q)
  {
    var parts := QuadParts(q);
    forall i | 0 <= i < 4 ensures IsQuadPart(parts[i]) && Decimal.DigitsValue(parts[i]) == q[i] && '.' !in parts[i] {
      TextQuadPart(q[i]);
    }
    SplitOfJoin(parts, '.');
  }

  /** An accepted quad has one spelling. */
  lemma QuadIsItsText(s: string)
    requires IsIpv4(s)
    ensures QuadText(QuadOf(s)) == s
  {
    var parts := Split(s, ".");
    forall i | 0 <= i < 4 ensures Decimal.NatText(Decimal.DigitsValue(parts[i])) == parts[i] {
      QuadPartText(parts[i]);
    }
    assert QuadParts(QuadOf(s)) == parts;
    JoinOfSplit(s, ".");
  }

  predicate QuadChar(c: char) { Decimal.IsDigit(c) || c == '.' }

  lemma QuadChars(s: string)
    requires IsIpv4(s)
    ensures 7 <= |s| <= 15 && Decimal.IsDigit(s[0]) && Decimal.IsDigit(s[|s|-1])
    ensures forall c | c in s :: QuadChar(c)
  {
    var p := Split(s, ".");
    JoinOfSplit(s, ".");
    JoinFour(p);
    assert s == p[0] + "." + (p[1] + "." + (p[2] + "." + p[3]));
    assert s[0] == p[0][0] && s[|s|-1] == p[3][|p[3]|-1];
    forall c | c in s ensures QuadChar(c) {
      FourHold(p, c);
    }
  }

  lemma JoinFour(p: seq<string>)
    requires |p| == 4
    ensures Join(p, ".") == p[0] + "." + (p[1] + "." + (p[2] + "." + p[3]))
  {
    assert p[1..][0] == p[1] && p[1..][1..] == p[2..] && p[2..][1..] == p[3..];
    assert Join(p[3..], ".") == p[3];
    assert Join(p[2..], ".") == p[2] + "." + p[3];
    assert Join(p[1..], ".") == p[1] + "." + (p[2] + "." + p[3]);
  }

  lemma FourHold(p: seq<string>, c: char)
    requires |p| == 4 && forall i | 0 <= i < 4 :: IsQuadPart(p[i])
    requires c in p[0] + "." + (p[1] + "." + (p[2] + "." + p[3]))
    ensures QuadChar(c)
  {
    assert c in p[0] || c == '.' || c in p[1] || c in p[2] || c in p[3];
    assert IsQuadPart(p[0]) && IsQuadPart(p[1]) && IsQuadPart(p[2]) && IsQuadPart(p[3]);
  }

  lemma NoDotNoQuad(s: string)
    requires '.' !in s
    ensures !IsIpv4(s)
  {
    IndexOfAbsent(s, '.');
  }

  // ---------------------------------------------------------------------------
  // IPv6
  // ---------------------------------------------------------------------------

  /** `^::ffff:(d+.d+.d+.d+)$` in either case, with a valid quad behind the prefix. */
  predicate IsMapped(s: string)
  {
    |s| >= 7 && Lower(s[..7]) == "::ffff:" && IsIpv4(s[7..])
  }

  predicate CheckGroup(g: string) { 1 <= |g| <= 4 && AllHex(g) }

  /** The groups on one side of `::`; an empty side has none. */
  function Side(half: string): seq<string>
  {
    if half == "" then [] else Split(half, ":")
  }

  predicate StrayGroup(g: string) { g == "" || CheckGroup(g) }

  predicate IsIpv6(s: string)
  {
    if IsMapped(s) then true
    else if '.' in s then false
    else
      var halves := Split(s, "::");
      if |halves| > 2 then false
      else if |halves| == 1 then
        var groups := Split(halves[0], ":");
        |groups| == 8 && forall i | 0 <= i < |groups| :: CheckGroup(groups[i])
      else
        var left, right := Side(halves[0]), Side(halves[1]);
        && (forall i | 0 <= i < |left| :: StrayGroup(left[i]))
        && (forall i | 0 <= i < |right| :: StrayGroup(right[i]))
        && |left| + |right| <= 7
  }

  function Fill(n: int): seq<string> { seq(Max(0, n), _ => "0") }

  /** The groups of a text without an embedded quad, `::` filled in. */
  function Groups(s: string): seq<string>
  {
    var halves := Split(s, "::");
    if |halves| == 1 then Split(halves[0], ":")
    else
      var left, right := Side(halves[0]), Side(halves[1]);
      left + Fill(8 - |left| - |right|) + right
  }

  function Padded(groups: seq<string>): seq<string>
  {
    seq(|groups|, i requires 0 <= i < |groups| => PadStart(groups[i], 4, '0'))
  }

  const MAPPED_PREFIX := "0000:0000:0000:0000:0000:ffff:"

  /** Two bytes as one group. */
  function BytePair(a: nat, b: nat): string
    requires a < 256 && b < 256
  {
    PadStart(HexText(Or(Shl32(a, 8), b)), 4, '0')
  }

  function ExpandIpv6(s: string): string
  {
    var lower := Lower(s);
    if IsMapped(lower) then
      var q := QuadOf(lower[7..]);
      MAPPED_PREFIX + BytePair(q[0], q[1]) + ":" + BytePair(q[2], q[3])
    else
      Join(Padded(Groups(lower)), ":")
  }

  function Unbracketed(s: string): string
  {
    if |s| >= 2 && s[0] == '[' && s[|s|-1] == ']' then s[1..|s|-1] else s
  }

  function Unzoned(s: string): string
  {
    var zone := IndexOf(s, "%");
    if zone != -1 then s[..zone] else s
  }

  /** Trims, drops brackets and zone, then accepts a quad as it is and expands the rest. */
  function NormalizeIp(raw: string): Option<string>
  {
    var s := Trim(raw);
    if |s| == 0 || |s| > 45 then None
    else
      var core := Unzoned(Unbracketed(s));
      if IsIpv4(core) then Some(core)
      else if IsIpv6(core) then Some(ExpandIpv6(core))
      else None
  }

  // ---------------------------------------------------------------------------
  // The form every accepted text is brought to
  // ---------------------------------------------------------------------------

  /** Eight 16-bit groups. */
  predicate Hextets(gs: seq<nat>) { |gs| == 8 && DigitsBelow(gs, 65536) }

  function KeyParts(gs: seq<nat>): (parts: seq<string>)
    ensures |parts| == |gs|
  {
    seq(|gs|, i requires 0 <= i < |gs| => Fixed(gs[i], 4))
  }

  /** Eight lower-case four-digit groups. */
  function Key6(gs: seq<nat>): string { Join(KeyParts(gs), ":") }

  /** A dotted quad, or eight lower-case four-digit groups. */
  ghost predicate Canonical(k: string)
  {
    IsIpv4(k) || exists gs :: Hextets(gs) && k == Key6(gs)
  }

  lemma LowerColon(c: char)
    ensures (LowerChar(c) == ':') == (c == ':') && (LowerChar(c) == '.') == (c == '.')
      && (LowerChar(c) == '%') == (c == '%')
  {
  }

  /** One or more colons. */
  predicate Colons(sep: string) { sep != "" && forall i | 0 <= i < |sep| :: sep[i] == ':' }

  lemma LowerOccurs(s: string, sep: string, j: int)
    requires Colons(sep)
    ensures OccursAt(Lower(s), sep, j) == OccursAt(s, sep, j)
  {
    if 0 <= j <= |s| - |sep| {
      var a, b := Lower(s)[j..j+|sep|], s[j..j+|sep|];
      assert forall i | 0 <= i < |sep| :: a[i] == LowerChar(b[i]);
      if a == sep {
        forall i | 0 <= i < |sep| ensures b[i] == sep[i] { LowerColon(b[i]); }
      }
    }
  }

  lemma LowerIndex(s: string, sep: string)
    requires Colons(sep)
    ensures IndexOf(Lower(s), sep) == IndexOf(s, sep)
  {
    var i, j := IndexOf(s, sep), IndexOf(Lower(s), sep);
    LowerOccurs(s, sep, i);
    LowerOccurs(s, sep, j);
  }

  function LowerAll(parts: seq<string>): (r: seq<string>)
    ensures |r| == |parts|
  {
    seq(|parts|, i requires 0 <= i < |parts| => Lower(parts[i]))
  }

  lemma LowerCut(s: string, i: nat, j: nat)
    requires i <= j <= |s|
    ensures Lower(s)[..i] == Lower(s[..i]) && Lower(s)[j..] == Lower(s[j..])
  {
  }

  lemma LowerAllFirst(a: string, rest: seq<string>)
    ensures LowerAll([a] + rest) == [Lower(a)] + LowerAll(rest)
  {
  }

  /** `s` is cut into these two at its first separator. */
  predicate CutAt(s: string, sep: string, head: string, rest: string)
    requires sep != ""
  {
    IndexOf(s, sep) != -1 && head == s[..IndexOf(s, sep)] && rest == s[IndexOf(s, sep)+|sep|..]
  }

  lemma SplitFirst(s: string, sep: string, head: string, rest: string)
    requires sep != "" && CutAt(s, sep, head, rest)
    ensures Split(s, sep) == [head] + Split(rest, sep)
  {
  }

  lemma LowerCutAt(s: string, sep: string, head: string, rest: string)
    requires Colons(sep) && CutAt(s, sep, head, rest)
    ensures CutAt(Lower(s), sep, Lower(head), Lower(rest))
  {
    LowerIndex(s, sep);
    LowerCut(s, IndexOf(s, sep), IndexOf(s, sep) + |sep|);
  }

  lemma LowerSplitStep(s: string, sep: string, head: string, rest: string)
    requires Colons(sep) && CutAt(s, sep, head, rest)
    requires Split(Lower(rest), sep) == LowerAll(Split(rest, sep))
    ensures Split(Lower(s), sep) == LowerAll(Split(s, sep))
  {
    SplitFirst(s, sep, head, rest);
    LowerCutAt(s, sep, head, rest);
    SplitFirst(Lower(s), sep, Lower(head), Lower(rest));
    LowerAllFirst(head, Split(rest, sep));
  }

  lemma LowerUnsplit(s: string, sep: string)
    requires Colons(sep) && IndexOf(s, sep) == -1
    ensures Split(Lower(s), sep) == LowerAll(Split(s, sep))
  {
    LowerIndex(s, sep);
    assert LowerAll([s]) == [Lower(s)];
  }

  lemma {:induction false} LowerSplit(s: string, sep: string)
    requires Colons(sep)
    ensures Split(Lower(s), sep) == LowerAll(Split(s, sep))
    decreases |s|
  {
    var i := IndexOf(s, sep);
    if i == -1 {
      LowerUnsplit(s, sep);
    } else {
      LowerSplit(s[i+|sep|..], sep);
      LowerSplitStep(s, sep, s[..i], s[i+|sep|..]);
    }
  }
}
