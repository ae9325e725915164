/** Hexadecimal text, as `toString(16)` and `padStart` print it and `parseInt(s, 16)` reads it. */
module Hex {
  import opened Options
  import opened JsText
  import opened Radix

  predicate IsHex(c: char) { '0' <= c <= '9' || 'a' <= c <= 'f' || 'A' <= c <= 'F' }

  predicate AllHex(s: string) { forall i | 0 <= i < |s| :: IsHex(s[i]) }

  function HexDigit(c: char): (d: nat)
    requires IsHex(c)
    ensures d < 16
  {
    if c <= '9' then c as int - '0' as int
    else if c <= 'F' then c as int - 'A' as int + 10
    else c as int - 'a' as int + 10
  }

  function HexChar(d: nat): (c: char)
    requires d < 16
    ensures IsHex(c) && HexDigit(c) == d && LowerChar(c) == c
  {
    if d < 10 then ('0' as int + d) as char else ('a' as int + d - 10) as char
  }

  /** The number a run of hex digits spells, either case; the empty run spells 0. */
  function HexValue(s: string): nat
    requires AllHex(s)
  {
    if s == "" then 0 else 16 * HexValue(s[..|s|-1]) + HexDigit(s[|s|-1])
  }

  function HexText(n: nat): (s: string)
    ensures |s| > 0 && AllHex(s)
  {
    if n < 16 then [HexChar(n)] else HexText(n / 16) + [HexChar(n % 16)]
  }

  /** `width` lower-case digits. */
  function Fixed(n: nat, width: nat): (s: string)
    ensures |s| == width && AllHex(s)
  {
    if width == 0 then "" else Fixed(n / 16, width - 1) + [HexChar(n % 16)]
  }

  lemma LowerHex(c: char)
    requires IsHex(c)
    ensures LowerChar(c) == HexChar(HexDigit(c))
  {
  }

  lemma {:induction false} FixedZero(width: nat)
    ensures Fixed(0, width) == Repeat('0', width)
  {
    if width > 0 {
      FixedZero(width - 1);
      assert Repeat('0', width - 1) + ['0'] == Repeat('0', width);
    }
  }

  lemma FixedLast(h: nat, d: nat, width: nat)
    requires width > 0 && d < 16
    ensures Fixed(16 * h + d, width) == Fixed(h, width - 1) + [HexChar(d)]
  {
  }

  lemma PadLowerLast(init: string, c: char, width: nat)
    requires |init| < width
    ensures PadStart(Lower(init + [c]), width, '0') == PadStart(Lower(init), width - 1, '0') + [LowerChar(c)]
  {
    assert Lower(init + [c]) == Lower(init) + [LowerChar(c)];
    PadLast(Lower(init), LowerChar(c), width);
  }

  lemma HexValueLast(init: string, c: char)
    requires AllHex(init) && IsHex(c)
    ensures AllHex(init + [c]) && HexValue(init + [c]) == 16 * HexValue(init) + HexDigit(c)
  {
    assert (init + [c])[..|init|] == init;
  }

  lemma PadStep(init: string, c: char, width: nat)
    requires AllHex(init) && IsHex(c) && |init| < width
    requires PadStart(Lower(init), width - 1, '0') == Fixed(HexValue(init), width - 1)
    ensures AllHex(init + [c]) && PadStart(Lower(init + [c]), width, '0') == Fixed(HexValue(init + [c]), width)
  {
    HexValueLast(init, c);
    LowerHex(c);
    PadLowerLast(init, c, width);
    FixedLast(HexValue(init), HexDigit(c), width);
  }

  /** Padding a short lower-cased group is printing its value at that width. */
  lemma {:induction false} PadIsFixed(g: string, width: nat)
    requires AllHex(g) && |g| <= width
    ensures PadStart(Lower(g), width, '0') == Fixed(HexValue(g), width)
  {
    if g == "" {
      FixedZero(width);
      assert PadStart(Lower(g), width, '0') == Repeat('0', width);
    } else {
      PadIsFixed(g[..|g|-1], width - 1);
      PadStep(g[..|g|-1], g[|g|-1], width);
      InitAndLast(g);
    }
  }

  lemma {:induction false} HexTextValue(n: nat)
    ensures HexValue(HexText(n)) == n
    ensures Lower(HexText(n)) == HexText(n)
  {
    if n >= 16 {
      HexTextValue(n / 16);
      assert HexText(n)[..|HexText(n)|-1] == HexText(n / 16);
    }
  }

  lemma {:induction false} HexTextLength(n: nat, k: nat)
    requires k > 0 && n < Power(16, k)
    ensures |HexText(n)| <= k
  {
    if n >= 16 {
      assert k > 1;
      assert n / 16 < Power(16, k - 1);
      HexTextLength(n / 16, k - 1);
    }
  }

  /** Printing a short number and padding it is printing it at that width. */
  lemma PaddedHexText(n: nat)
    requires n < 65536
    ensures PadStart(HexText(n), 4, '0') == Fixed(n, 4)
  {
    HexTextValue(n);
    assert Power(16, 4) == 65536;
    HexTextLength(n, 4);
    PadIsFixed(HexText(n), 4);
  }

  lemma {:induction false} FixedValue(n: nat, width: nat)
    requires n < Power(16, width)
    ensures HexValue(Fixed(n, width)) == n
  {
    if width > 0 {
      assert n / 16 < Power(16, width - 1);
      FixedValue(n / 16, width - 1);
      assert Fixed(n, width)[..width-1] == Fixed(n / 16, width - 1);
    }
  }

  lemma Fixed4Value(n: nat)
    requires n < 65536
    ensures HexValue(Fixed(n, 4)) == n
  {
    assert Power(16, 4) == 65536;
    FixedValue(n, 4);
  }

  lemma {:induction false} HexValueBound(s: string)
    requires AllHex(s)
    ensures HexValue(s) < Power(16, |s|)
  {
    if s != "" { HexValueBound(s[..|s|-1]); }
  }

  lemma ShortHexValue(s: string)
    requires AllHex(s) && |s| <= 4
    ensures HexValue(s) < 65536
  {
    HexValueBound(s);
    assert Power(16, 0) == 1 && Power(16, 1) == 16 && Power(16, 2) == 256 && Power(16, 3) == 4096
      && Power(16, 4) == 65536;
  }
}
