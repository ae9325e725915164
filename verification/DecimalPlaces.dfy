/** Fixed-width decimal text: padding, cutting and stripping zeros, and what they do to the value. */
module DecimalPlaces {
  import opened Decimal
  import opened JsText

  function Pow10(k: nat): (p: nat)
    ensures p > 0
  {
    if k == 0 then 1 else 10 * Pow10(k - 1)
  }

  lemma Pow10Values()
    ensures Pow10(0) == 1 && Pow10(1) == 10 && Pow10(2) == 100 && Pow10(3) == 1000
    ensures Pow10(4) == 10_000 && Pow10(5) == 100_000 && Pow10(6) == 1_000_000
  {
  }

  /** Exactly `width` digits. */
  function Fixed(n: nat, width: nat): (s: string)
    ensures |s| == width && AllDigits(s)
  {
    if width == 0 then "" else Fixed(n / 10, width - 1) + [DigitChar(n % 10)]
  }

  lemma DigitsValueLast(init: string, c: char)
    requires AllDigits(init) && IsDigit(c)
    ensures AllDigits(init + [c]) && DigitsValue(init + [c]) == 10 * DigitsValue(init) + DigitValue(c)
  {
    assert (init + [c])[..|init|] == init;
  }

  lemma {:induction false} FixedValue(n: nat, width: nat)
    requires n < Pow10(width)
    ensures DigitsValue(Fixed(n, width)) == n
  {
    if width > 0 {
      FixedValue(n / 10, width - 1);
      DigitsValueLast(Fixed(n / 10, width - 1), DigitChar(n % 10));
    }
  }

  lemma {:induction false} FixedZero(width: nat)
    ensures Fixed(0, width) == Repeat('0', width)
  {
    if width > 0 {
      FixedZero(width - 1);
      assert Repeat('0', width - 1) + ['0'] == Repeat('0', width);
    }
  }

  /** Padding a number's own text is printing it at that width. */
  lemma {:induction false} PadIsFixed(n: nat, width: nat)
    requires width > 0 && n < Pow10(width)
    ensures |NatText(n)| <= width && PadStart(NatText(n), width, '0') == Fixed(n, width)
  {
    if n < 10 {
      FixedZero(width - 1);
      PadLast("", DigitChar(n), width);
      assert "" + [DigitChar(n)] == NatText(n);
    } else {
      PadIsFixed(n / 10, width - 1);
      PadLast(NatText(n / 10), DigitChar(n % 10), width);
    }
  }

  function DropDigits(n: nat, k: nat): nat
  {
    if k == 0 then n else DropDigits(n / 10, k - 1)
  }

  /** Cutting digits off the end drops them from the number. */
  lemma {:induction false} FixedPrefix(n: nat, width: nat, k: nat)
    requires k <= width
    ensures Fixed(n, width)[..k] == Fixed(DropDigits(n, width - k), k)
    decreases width
  {
    if k < width {
      FixedPrefix(n / 10, width - 1, k);
      assert Fixed(n, width)[..k] == Fixed(n / 10, width - 1)[..k];
    }
  }

  lemma TimesTen(d: nat, p: nat)
    ensures d * (10 * p) == 10 * (d * p)
  {
  }

  lemma {:induction false} DropDigitsBounds(n: nat, k: nat)
    ensures DropDigits(n, k) * Pow10(k) <= n < DropDigits(n, k) * Pow10(k) + Pow10(k)
  {
    if k > 0 {
      DropDigitsBounds(n / 10, k - 1);
      TimesTen(DropDigits(n, k), Pow10(k - 1));
    }
  }

  lemma {:induction false} DropDigitsBelow(n: nat, k: nat, width: nat)
    requires k <= width && n < Pow10(width)
    ensures DropDigits(n, k) < Pow10(width - k)
  {
    if k > 0 {
      DropDigitsBelow(n / 10, k - 1, width - 1);
    }
  }

  /** Zeros at the end multiply. */
  lemma {:induction false} TrailingZeros(s: string, n: nat)
    requires AllDigits(s)
    ensures AllDigits(s + Repeat('0', n)) && DigitsValue(s + Repeat('0', n)) == DigitsValue(s) * Pow10(n)
  {
    if n == 0 {
      assert s + Repeat('0', 0) == s;
    } else {
      TrailingZeros(s, n - 1);
      assert s + Repeat('0', n) == (s + Repeat('0', n - 1)) + ['0'];
      DigitsValueLast(s + Repeat('0', n - 1), '0');
      TimesTen(DigitsValue(s), Pow10(n - 1));
    }
  }

  /** `replace(/^0+(?=[0-9])/, "")`. */
  function StripLeading(s: string): (t: string)
    requires AllDigits(s)
    ensures AllDigits(t) && |t| <= |s|
    ensures s != "" ==> t != ""
  {
    if |s| > 1 && s[0] == '0' then StripLeading(s[1..]) else s
  }

  lemma {:induction false} LeadingZero(s: string)
    requires AllDigits(s) && s != "" && s[0] == '0'
    ensures DigitsValue(s[1..]) == DigitsValue(s)
  {
    var n := |s| - 1;
    if n == 0 {
      assert s[..0] == "" && DigitsValue(s) == 0;
    } else {
      LeadingZero(s[..n]);
      assert s[1..] == s[..n][1..] + [s[n]];
      DigitsValueLast(s[..n][1..], s[n]);
    }
  }

  lemma {:induction false} StripLeadingValue(s: string)
    requires AllDigits(s)
    ensures DigitsValue(StripLeading(s)) == DigitsValue(s)
    ensures s != "" ==> Plain(StripLeading(s))
    ensures Plain(s) ==> StripLeading(s) == s
  {
    if |s| > 1 && s[0] == '0' {
      LeadingZero(s);
      StripLeadingValue(s[1..]);
    }
  }

  /** `replace(/0+$/, "")`. */
  function StripTrailing(s: string): (t: string)
    ensures |t| <= |s| && t == s[..|t|]
    ensures t == "" || t[|t|-1] != '0'
  {
    if s != "" && s[|s|-1] == '0' then StripTrailing(s[..|s|-1]) else s
  }

  /** Padding a stripped text back to its width restores it. */
  lemma {:induction false} StripPad(s: string)
    ensures PadEnd(StripTrailing(s), |s|, '0') == s
  {
    if s != "" && s[|s|-1] == '0' {
      StripPad(s[..|s|-1]);
      PadMore(StripTrailing(s), |s|);
      assert s == s[..|s|-1] + ['0'];
    }
  }

  lemma PadMore(t: string, width: nat)
    requires |t| < width
    ensures PadEnd(t, width, '0') == PadEnd(t, width - 1, '0') + ['0']
  {
    assert Repeat('0', width - |t|) == Repeat('0', width - 1 - |t|) + ['0'];
  }

  /** Padding to a width multiplies by the missing places. */
  lemma PadEndValue(s: string, width: nat)
    requires AllDigits(s) && |s| <= width
    ensures AllDigits(PadEnd(s, width, '0')) && |PadEnd(s, width, '0')| == width
    ensures DigitsValue(PadEnd(s, width, '0')) == DigitsValue(s) * Pow10(width - |s|)
  {
    TrailingZeros(s, width - |s|);
    assert s + Repeat('0', width - |s|) == PadEnd(s, width, '0');
  }

  lemma {:induction false} DigitsBound(s: string)
    requires AllDigits(s)
    ensures DigitsValue(s) < Pow10(|s|)
  {
    if s != "" { DigitsBound(s[..|s|-1]); }
  }

  lemma {:induction false} FixedOfValue(s: string)
    requires AllDigits(s)
    ensures Fixed(DigitsValue(s), |s|) == s
  {
    if s != "" {
      FixedOfValue(s[..|s|-1]);
      assert s == s[..|s|-1] + [s[|s|-1]];
    }
  }
}
