/** Decimal text of integers, as `String(n)` prints it and `parseInt(s, 10)` reads it. */
module Decimal {
  import opened Options

  predicate IsDigit(c: char) { '0' <= c <= '9' }

  predicate AllDigits(s: string) { forall i | 0 <= i < |s| :: IsDigit(s[i]) }

  function DigitValue(c: char): (d: nat)
    requires IsDigit(c)
    ensures d < 10
  {
    c as int - '0' as int
  }

  function DigitChar(d: nat): (c: char)
    requires d < 10
    ensures IsDigit(c) && DigitValue(c) == d
  {
    ('0' as int + d) as char
  }

  function NatText(n: nat): (s: string)
    ensures |s| > 0 && AllDigits(s)
  {
    if n < 10 then [DigitChar(n)] else NatText(n / 10) + [DigitChar(n % 10)]
  }

  function IntText(n: int): (s: string)
    ensures |s| > 0
  {
    if n < 0 then "-" + NatText(-n) else NatText(n)
  }

  /** The number a run of digits spells; the empty run spells 0. */
  function DigitsValue(s: string): nat
    requires AllDigits(s)
  {
    if s == "" then 0 else 10 * DigitsValue(s[..|s|-1]) + DigitValue(s[|s|-1])
  }

  lemma {:induction false} NatTextValue(n: nat)
    ensures DigitsValue(NatText(n)) == n
  {
    if n >= 10 {
      NatTextValue(n / 10);
      assert NatText(n)[..|NatText(n)|-1] == NatText(n / 10);
    }
  }

  lemma NatTextInjective(m: nat, n: nat)
    requires NatText(m) == NatText(n)
    ensures m == n
  {
    NatTextValue(m);
    NatTextValue(n);
  }

  lemma IntTextInjective(m: int, n: int)
    requires IntText(m) == IntText(n)
    ensures m == n
  {
    if m < 0 && n < 0 {
      assert NatText(-m) == IntText(m)[1..] == IntText(n)[1..] == NatText(-n);
      NatTextInjective(-m, -n);
    } else if m >= 0 && n >= 0 {
      NatTextInjective(m, n);
    } else {
      assert NatText(if m < 0 then n else m)[0] != '-';
    }
  }

  /** No superfluous leading zero. */
  predicate Plain(s: string) { |s| > 0 && AllDigits(s) && (s[0] == '0' ==> |s| == 1) }

  lemma {:induction false} NatTextPlain(n: nat)
    ensures Plain(NatText(n))
    ensures NatText(n) == "0" <==> n == 0
  {
    if n >= 10 {
      NatTextPlain(n / 10);
      assert NatText(n)[0] == NatText(n / 10)[0];
    } else {
      assert NatText(n)[0] == DigitChar(n);
    }
  }

  lemma NatTextPush(n: nat, c: char)
    requires n > 0 && IsDigit(c)
    ensures NatText(10 * n + DigitValue(c)) == NatText(n) + [c]
  {
    assert DigitChar(DigitValue(c)) == c;
  }

  lemma {:induction false} PlainIsNatText(s: string)
    requires Plain(s)
    ensures NatText(DigitsValue(s)) == s
  {
    var n := |s| - 1;
    InitAndLast(s);
    if n == 0 {
      assert s[..0] == "" && DigitsValue(s) == DigitValue(s[0]);
    } else {
      PlainIsNatText(s[..n]);
      PlainPositive(s[..n]);
      NatTextPush(DigitsValue(s[..n]), s[n]);
    }
  }

  lemma {:induction false} PlainPositive(s: string)
    requires Plain(s) && s[0] != '0'
    ensures DigitsValue(s) > 0
  {
    var n := |s| - 1;
    if n == 0 {
      assert s[..0] == "";
    } else {
      PlainPositive(s[..n]);
    }
  }
}
