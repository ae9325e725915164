/** The JavaScript string operations the modelled files use, over code points. */
module JsText {

  // ---------------------------------------------------------------------------
  // trim
  // ---------------------------------------------------------------------------

  /** WhiteSpace and LineTerminator of ECMA-262 sections 12.2 and 12.3. */
  predicate IsSpace(c: char)
  {
    || '\U{0009}' <= c <= '\U{000D}' || c == '\U{0020}' || c == '\U{00A0}' || c == '\U{1680}'
    || '\U{2000}' <= c <= '\U{200A}' || c == '\U{2028}' || c == '\U{2029}'
    || c == '\U{202F}' || c == '\U{205F}' || c == '\U{3000}' || c == '\U{FEFF}'
  }

  /** No white space at either end. */
  predicate Trimmed(s: string)
  {
    s == "" || (!IsSpace(s[0]) && !IsSpace(s[|s|-1]))
  }

  function TrimStart(s: string): (t: string)
    ensures |t| <= |s|
  {
    if s != "" && IsSpace(s[0]) then TrimStart(s[1..]) else s
  }

  function TrimEnd(s: string): (t: string)
    ensures |t| <= |s|
  {
    if s != "" && IsSpace(s[|s|-1]) then TrimEnd(s[..|s|-1]) else s
  }

  lemma {:induction false} TrimStartCut(s: string)
    ensures var t := TrimStart(s); (t == "" || !IsSpace(t[0])) && t == s[|s|-|t|..]
  {
    if s != "" && IsSpace(s[0]) { TrimStartCut(s[1..]); }
  }

  lemma {:induction false} TrimEndCut(s: string)
    ensures var t := TrimEnd(s); (t == "" || !IsSpace(t[|t|-1])) && t == s[..|t|]
  {
    if s != "" && IsSpace(s[|s|-1]) { TrimEndCut(s[..|s|-1]); }
  }

  function Trim(s: string): (t: string)
    ensures Trimmed(t)
    ensures Trimmed(s) ==> t == s
    ensures |t| <= |s|
  {
    TrimStartCut(s);
    TrimEndCut(TrimStart(s));
    TrimEnd(TrimStart(s))
  }

  lemma {:induction false} TrimStartSpaces(s: string)
    ensures forall j | 0 <= j < |s| - |TrimStart(s)| :: IsSpace(s[j])
  {
    if s != "" && IsSpace(s[0]) {
      TrimStartSpaces(s[1..]);
      assert forall j | 1 <= j < |s| - |TrimStart(s)| :: s[j] == s[1..][j-1];
    }
  }

  lemma {:induction false} TrimEndSpaces(s: string)
    ensures forall j | |TrimEnd(s)| <= j < |s| :: IsSpace(s[j])
  {
    if s != "" && IsSpace(s[|s|-1]) { TrimEndSpaces(s[..|s|-1]); }
  }

  /** What trimming takes off at either end is white space. */
  lemma TrimCut(s: string) returns (i: nat)
    ensures i + |Trim(s)| <= |s| && Trim(s) == s[i..i+|Trim(s)|]
    ensures forall j | 0 <= j < i || i + |Trim(s)| <= j < |s| :: IsSpace(s[j])
  {
    var a := TrimStart(s);
    i := |s| - |a|;
    TrimStartCut(s);
    TrimEndCut(a);
    TrimStartSpaces(s);
    TrimEndSpaces(a);
    assert forall j | i <= j < |s| :: s[j] == a[j-i];
  }

  lemma TrimChars(s: string)
    ensures forall c | c in Trim(s) :: c in s
  {
    var a := TrimStart(s);
    TrimStartCut(s);
    TrimEndCut(a);
    assert forall i | 0 <= i < |Trim(s)| :: Trim(s)[i] == a[i] == s[|s|-|a|+i];
  }

  // ---------------------------------------------------------------------------
  // indexOf, split, join
  // ---------------------------------------------------------------------------

  /** `sep` stands in `s` at `j`. */
  predicate OccursAt(s: string, sep: string, j: int)
  {
    0 <= j <= |s| - |sep| && s[j..j+|sep|] == sep
  }

  lemma OccursBehind(s: string, sep: string, j: int)
    requires sep != "" && |s| >= |sep| && s[..|sep|] != sep
    ensures OccursAt(s, sep, j) <==> OccursAt(s[1..], sep, j - 1)
  {
    if 1 <= j <= |s| - |sep| { assert s[1..][j-1..j-1+|sep|] == s[j..j+|sep|]; }
  }

  lemma AllOccurBehind(s: string, sep: string)
    requires sep != "" && |s| >= |sep| && s[..|sep|] != sep
    ensures forall j :: OccursAt(s, sep, j) <==> OccursAt(s[1..], sep, j - 1)
  {
    forall j ensures OccursAt(s, sep, j) <==> OccursAt(s[1..], sep, j - 1) { OccursBehind(s, sep, j); }
  }

  /** First place where `sep` occurs, or -1. */
  function IndexOf(s: string, sep: string): (i: int)
    requires sep != ""
    ensures i == -1 || OccursAt(s, sep, i)
    ensures forall j | OccursAt(s, sep, j) :: 0 <= i <= j
  {
    if |s| < |sep| then -1
    else if s[..|sep|] == sep then 0
    else
      var r := IndexOf(s[1..], sep);
      AllOccurBehind(s, sep);
      assert OccursAt(s, sep, r + 1) <==> OccursAt(s[1..], sep, r + 1 - 1);
      if r == -1 then -1 else r + 1
  }

  predicate Includes(s: string, sep: string)
    requires sep != ""
  {
    IndexOf(s, sep) != -1
  }

  lemma IncludesChar(s: string, c: char)
    ensures Includes(s, [c]) <==> c in s
  {
    var i := IndexOf(s, [c]);
    if i != -1 {
      assert s[i] == s[i..i+1][0];
    }
    if c in s {
      var j :| 0 <= j < |s| && s[j] == c;
      assert OccursAt(s, [c], j);
    }
  }

  /** `s.split(sep)`: non-overlapping separators, left to right. */
  function Split(s: string, sep: string): (parts: seq<string>)
    requires sep != ""
    ensures |parts| > 0
    decreases |s|
  {
    var i := IndexOf(s, sep);
    if i == -1 then [s] else [s[..i]] + Split(s[i+|sep|..], sep)
  }

  function Join(parts: seq<string>, sep: string): (s: string)
  {
    if parts == [] then ""
    else if |parts| == 1 then parts[0]
    else parts[0] + sep + Join(parts[1..], sep)
  }

  lemma JoinPrepend(first: string, rest: seq<string>, sep: string)
    requires rest != []
    ensures Join([first] + rest, sep) == first + sep + Join(rest, sep)
  {
    assert ([first] + rest)[1..] == rest;
  }

  /** A text around the first place of the separator. */
  lemma CutText(s: string, sep: string, i: int)
    requires sep != "" && OccursAt(s, sep, i)
    ensures s == s[..i] + sep + s[i+|sep|..]
  {
    assert s == s[..i] + s[i..i+|sep|] + s[i+|sep|..];
  }

  lemma {:induction false} JoinOfSplit(s: string, sep: string)
    requires sep != ""
    ensures Join(Split(s, sep), sep) == s
    decreases |s|
  {
    var i := IndexOf(s, sep);
    if i != -1 {
      CutText(s, sep, i);
      JoinOfSplit(s[i+|sep|..], sep);
      JoinPrepend(s[..i], Split(s[i+|sep|..], sep), sep);
    }
  }

  /** The first separator of `a + [c] + rest` is the shown one when `a` has no `c`. */
  lemma IndexOfFirst(a: string, c: char, rest: string)
    requires c !in a
    ensures IndexOf(a + [c] + rest, [c]) == |a|
  {
    var s := a + [c] + rest;
    assert OccursAt(s, [c], |a|);
    var i := IndexOf(s, [c]);
    assert s[i] == s[i..i+1][0] == c;
  }

  lemma IndexOfAbsent(s: string, c: char)
    requires c !in s
    ensures IndexOf(s, [c]) == -1
  {
    IncludesChar(s, c);
  }

  lemma {:induction false} SplitOfJoin(parts: seq<string>, c: char)
    requires |parts| > 0
    requires forall p | p in parts :: c !in p
    ensures Split(Join(parts, [c]), [c]) == parts
  {
    var s := Join(parts, [c]);
    if |parts| == 1 {
      assert parts[0] in parts;
      IndexOfAbsent(s, c);
    } else {
      var rest := Join(parts[1..], [c]);
      assert parts[0] in parts;
      assert s == parts[0] + [c] + rest;
      IndexOfFirst(parts[0], c, rest);
      assert s[|parts[0]|+1..] == rest && s[..|parts[0]|] == parts[0];
      SplitOfJoin(parts[1..], c);
    }
  }

  /** No part of a split on a character holds that character; parts only hold what the text holds. */
  lemma {:induction false} SplitParts(s: string, c: char)
    ensures forall p | p in Split(s, [c]) :: c !in p && forall d | d in p :: d in s
    decreases |s|
  {
    var i := IndexOf(s, [c]);
    if i == -1 {
      IncludesChar(s, c);
    } else {
      SplitParts(s[i+1..], c);
      forall j | 0 <= j < i ensures s[j] != c {
        assert s[j] == c ==> OccursAt(s, [c], j);
      }
      forall p | p in Split(s, [c]) ensures c !in p && forall d | d in p :: d in s {
        if p != s[..i] {
          assert p in Split(s[i+1..], [c]);
        }
      }
    }
  }

  /** Splitting a text at a shown separator. */
  lemma SplitAt(a: string, c: char, rest: string)
    requires c !in a
    ensures Split(a + [c] + rest, [c]) == [a] + Split(rest, [c])
  {
    IndexOfFirst(a, c, rest);
    var s := a + [c] + rest;
    assert s[..|a|] == a && s[|a|+1..] == rest;
  }

  /** Two texts cut at their first `c` agree exactly when both pieces do. */
  lemma CutUnique(a: string, b: string, c: char, r: string, t: string)
    requires c !in a && c !in b
    requires a + [c] + r == b + [c] + t
    ensures a == b && r == t
  {
    IndexOfFirst(a, c, r);
    IndexOfFirst(b, c, t);
    var s := a + [c] + r;
    assert s[..|a|] == a && s[|a|+1..] == r;
    assert s[..|b|] == b && s[|b|+1..] == t;
  }

  // ---------------------------------------------------------------------------
  // Case and padding
  // ---------------------------------------------------------------------------

  function LowerChar(c: char): char
  {
    if 'A' <= c <= 'Z' then (c as int + 32) as char else c
  }

  /** `toLowerCase` on ASCII; other code points are left alone. */
  function Lower(s: string): (t: string)
    ensures |t| == |s|
    ensures forall i | 0 <= i < |s| :: t[i] == LowerChar(s[i])
  {
    seq(|s|, i requires 0 <= i < |s| => LowerChar(s[i]))
  }

  function Repeat(c: char, n: nat): (s: string)
    ensures |s| == n && forall i | 0 <= i < n :: s[i] == c
  {
    seq(n, _ => c)
  }

  function PadStart(s: string, n: nat, c: char): (t: string)
    ensures |t| == (if |s| >= n then |s| else n)
  {
    if |s| >= n then s else Repeat(c, n - |s|) + s
  }

  /** Padding reaches the last character last. */
  lemma PadLast(init: string, c: char, width: nat)
    requires |init| < width
    ensures PadStart(init + [c], width, '0') == PadStart(init, width - 1, '0') + [c]
  {
  }

  function PadEnd(s: string, n: nat, c: char): (t: string)
    ensures |t| == (if |s| >= n then |s| else n)
  {
    if |s| >= n then s else s + Repeat(c, n - |s|)
  }
}
