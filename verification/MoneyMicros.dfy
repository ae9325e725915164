/**
 The money codec: decimal text of major units to and from integer micros. Every double
 operation of the parser goes through a rounding, of which only that it is monotone and keeps
 integers up to 2^53 is used. Negative zero is 0.
 */
module MoneyMicros {
  import opened Options
  import opened JsText
  import opened Decimal
  import opened DecimalPlaces

  const MICROS_PER_MAJOR: nat := 1_000_000
  const MICROS_FRACTIONAL_DIGITS: nat := 6
  const MAX_SAFE: nat := 9_007_199_254_740_991

  datatype MoneyError =
    | EmptyInput | NegativeNotAllowed | MissingDigits | MultiplePoints | NonNumeric | TooManyPlaces | NotSafe

  /** What a double makes of a non-negative integer. */
  ghost predicate Rounding(round: nat -> nat)
  {
    && (forall n: nat | n <= MAX_SAFE + 1 :: round(n) == n)
    && (forall m: nat, n: nat | m <= n :: round(m) <= round(n))
  }

  function IntPart(rest: string): string
  {
    var dot := IndexOf(rest, ".");
    if dot == -1 then rest else rest[..dot]
  }

  function FracPart(rest: string): string
  {
    var dot := IndexOf(rest, ".");
    if dot == -1 then "" else rest[dot+1..]
  }

  /** The value of checked digits. */
  function DigitsToMicros(intPart: string, fracPart: string, round: nat -> nat): Result<nat, MoneyError>
    requires AllDigits(intPart) && AllDigits(fracPart) && |fracPart| <= MICROS_FRACTIONAL_DIGITS
  {
    PadEndValue(fracPart, MICROS_FRACTIONAL_DIGITS);
    var fracPadded := PadEnd(fracPart, MICROS_FRACTIONAL_DIGITS, '0');
    var intTrim := StripLeading(intPart);
    var whole := round(round(DigitsValue(intTrim)) * MICROS_PER_MAJOR);
    var frac := DigitsValue(fracPadded);
    var value := round(whole + frac);
    if value > MAX_SAFE then Err(NotSafe) else Ok(value)
  }

  /** Reads what is left of a number after its sign. */
  function ParseUnsigned(rest: string, round: nat -> nat): Result<nat, MoneyError>
  {
    if rest == "" then Err(MissingDigits)
    else
      var rawInt, fracPart := IntPart(rest), FracPart(rest);
      if IndexOf(fracPart, ".") != -1 then Err(MultiplePoints)
      else
        var intPart := if rawInt == "" then "0" else rawInt;
        if !AllDigits(intPart) || !AllDigits(fracPart) then Err(NonNumeric)
        else if |fracPart| > MICROS_FRACTIONAL_DIGITS then Err(TooManyPlaces)
        else DigitsToMicros(intPart, fracPart, round)
  }

  function ParseMajorToMicros(input: string, allowNegative: bool, round: nat -> nat): Result<int, MoneyError>
  {
    ParseTrimmed(Trim(input), allowNegative, round)
  }

  function ParseTrimmed(s: string, allowNegative: bool, round: nat -> nat): Result<int, MoneyError>
  {
    if s == "" then Err(EmptyInput)
    else
      var signed := s[0] == '-' || s[0] == '+';
      var negative := s[0] == '-';
      var rest := if signed then s[1..] else s;
      if negative && !allowNegative then Err(NegativeNotAllowed)
      else WithSign(negative, ParseUnsigned(rest, round))
  }

  function WithSign(negative: bool, r: Result<nat, MoneyError>): Result<int, MoneyError>
  {
    match r
    case Err(e) => Err(e)
    case Ok(value) => Ok(if negative then 0 - value else value)
  }

  function FormatMicrosToMajor(micros: int): Result<string, MoneyError>
  {
    if micros > MAX_SAFE || micros < 0 - MAX_SAFE then Err(NotSafe)
    else
      var sign := if micros < 0 then "-" else "";
      var abs: nat := if micros < 0 then 0 - micros else micros;
      Ok(sign + MajorText(abs))
  }

  function MajorText(abs: nat): string
  {
    var whole, frac := abs / MICROS_PER_MAJOR, abs % MICROS_PER_MAJOR;
    if frac == 0 then NatText(whole)
    else
      var fracStr := StripTrailing(PadStart(NatText(frac), MICROS_FRACTIONAL_DIGITS, '0'));
      NatText(whole) + "." + fracStr
  }

  // ---------------------------------------------------------------------------
  // The grammar
  // ---------------------------------------------------------------------------

  /** An unsigned amount as written: digits, then perhaps a point and more digits; not empty. */
  datatype Amount = Amount(whole: string, point: bool, frac: string)
  {
    predicate WellFormed()
    {
      AllDigits(whole) && AllDigits(frac) && (!point ==> frac == "" && whole != "")
    }

    function Text(): string { if point then whole + "." + frac else whole }

    /** Its exact value in micros, for at most six places. */
    function Micros(): nat
      requires WellFormed() && |frac| <= MICROS_FRACTIONAL_DIGITS
    {
      DigitsValue(whole) * MICROS_PER_MAJOR + DigitsValue(frac) * Pow10(MICROS_FRACTIONAL_DIGITS - |frac|)
    }
  }

  lemma DigitsHaveNoPoint(s: string)
    requires AllDigits(s)
    ensures IndexOf(s, ".") == -1
  {
    assert !IsDigit('.');
    IndexOfAbsent(s, '.');
  }

  /** Where the parser cuts a grammatical text. */
  lemma AmountCut(a: Amount)
    requires a.WellFormed()
    ensures IndexOf(a.Text(), ".") == if a.point then |a.whole| else -1
    ensures IndexOf(a.frac, ".") == -1
    ensures a.point ==> a.Text()[..|a.whole|] == a.whole && a.Text()[|a.whole|+1..] == a.frac
    ensures a.Text() != ""
  {
    DigitsHaveNoPoint(a.whole);
    DigitsHaveNoPoint(a.frac);
    if a.point {
      assert !IsDigit('.');
      IndexOfFirst(a.whole, '.', a.frac);
    }
  }

  /** Within the safe range no operation rounds; beyond it none comes back below. */
  lemma RoundedValue(round: nat -> nat, whole: nat, frac: nat)
    requires Rounding(round) && frac < MICROS_PER_MAJOR
    ensures var exact := whole * MICROS_PER_MAJOR + frac;
      var value := round(round(round(whole) * MICROS_PER_MAJOR) + frac);
      if exact <= MAX_SAFE then value == exact else value > MAX_SAFE
  {
    var exact := whole * MICROS_PER_MAJOR + frac;
    var product := round(whole) * MICROS_PER_MAJOR;
    if exact > MAX_SAFE {
      if whole <= MAX_SAFE + 1 {
        if product > MAX_SAFE + 1 { assert round(product) >= round(MAX_SAFE + 1); }
        assert round(product) + frac >= MAX_SAFE + 1;
      } else {
        assert round(whole) >= round(MAX_SAFE + 1);
        assert product >= MAX_SAFE + 1;
        assert round(product) >= round(MAX_SAFE + 1);
      }
      assert round(round(product) + frac) >= round(MAX_SAFE + 1);
    }
  }

  lemma WholePart(a: Amount)
    requires a.WellFormed()
    ensures var intPart := if a.whole == "" then "0" else a.whole;
      AllDigits(intPart) && DigitsValue(StripLeading(intPart)) == DigitsValue(a.whole)
  {
    var intPart := if a.whole == "" then "0" else a.whole;
    StripLeadingValue(intPart);
    assert a.whole == "" ==> intPart[..0] == "" && DigitsValue("0") == 0;
  }

  lemma PaddedFrac(a: Amount)
    requires a.WellFormed() && |a.frac| <= MICROS_FRACTIONAL_DIGITS
    ensures AllDigits(PadEnd(a.frac, MICROS_FRACTIONAL_DIGITS, '0'))
    ensures DigitsValue(PadEnd(a.frac, MICROS_FRACTIONAL_DIGITS, '0')) ==
      DigitsValue(a.frac) * Pow10(MICROS_FRACTIONAL_DIGITS - |a.frac|)
    ensures DigitsValue(PadEnd(a.frac, MICROS_FRACTIONAL_DIGITS, '0')) < MICROS_PER_MAJOR
  {
    PadEndValue(a.frac, MICROS_FRACTIONAL_DIGITS);
    DigitsBound(PadEnd(a.frac, MICROS_FRACTIONAL_DIGITS, '0'));
    Pow10Values();
  }

  /** The outcome on a grammatical unsigned amount: exact, or an error that says which bound it is past. */
  function Outcome(a: Amount): Result<nat, MoneyError>
    requires a.WellFormed()
  {
    if |a.frac| > MICROS_FRACTIONAL_DIGITS then Err(TooManyPlaces)
    else if a.Micros() > MAX_SAFE then Err(NotSafe)
    else Ok(a.Micros())
  }

  lemma DigitsExact(a: Amount, round: nat -> nat)
    requires a.WellFormed() && |a.frac| <= MICROS_FRACTIONAL_DIGITS && Rounding(round)
    requires AllDigits(if a.whole == "" then "0" else a.whole)
    ensures DigitsToMicros(if a.whole == "" then "0" else a.whole, a.frac, round) == Outcome(a)
  {
    WholePart(a);
    PaddedFrac(a);
    RoundedValue(round, DigitsValue(a.whole), DigitsValue(PadEnd(a.frac, MICROS_FRACTIONAL_DIGITS, '0')));
  }

  lemma AmountParts(a: Amount)
    requires a.WellFormed()
    ensures a.Text() != "" && IntPart(a.Text()) == a.whole && FracPart(a.Text()) == a.frac && IndexOf(a.frac, ".") == -1
  {
    AmountCut(a);
  }

  lemma UnsignedExact(a: Amount, round: nat -> nat)
    requires a.WellFormed() && Rounding(round)
    ensures ParseUnsigned(a.Text(), round) == Outcome(a)
  {
    AmountParts(a);
    assert AllDigits("0");
    if |a.frac| <= MICROS_FRACTIONAL_DIGITS { DigitsExact(a, round); }
  }

  lemma CutParts(rest: string)
    ensures rest == if IndexOf(rest, ".") != -1 then IntPart(rest) + "." + FracPart(rest) else IntPart(rest)
    ensures IndexOf(rest, ".") == -1 ==> FracPart(rest) == ""
  {
    var dot := IndexOf(rest, ".");
    if dot != -1 {
      assert rest[dot] == rest[dot..dot+1][0];
      assert rest == rest[..dot] + [rest[dot]] + rest[dot+1..];
    }
  }

  /** Only grammatical texts get as far as a value or a bound. */
  lemma UnsignedGrammar(rest: string, round: nat -> nat) returns (a: Amount)
    requires var r := ParseUnsigned(rest, round); r.Ok? || r.error == TooManyPlaces || r.error == NotSafe
    ensures a.WellFormed() && a.Text() == rest
  {
    a := Amount(IntPart(rest), IndexOf(rest, ".") != -1, FracPart(rest));
    CutParts(rest);
  }

  datatype Sign = Unsigned | Plus | Minus

  function SignText(g: Sign): string
  {
    match g
    case Unsigned => ""
    case Plus => "+"
    case Minus => "-"
  }

  function Signed(g: Sign, n: nat): int { if g == Minus then 0 - n else n }

  /** The outcome on a grammatical text. */
  function SignedOutcome(g: Sign, a: Amount, allowNegative: bool): Result<int, MoneyError>
    requires a.WellFormed()
  {
    if g == Minus && !allowNegative then Err(NegativeNotAllowed) else WithSign(g == Minus, Outcome(a))
  }

  predicate AmountChar(c: char) { IsDigit(c) || c == '.' }

  lemma AmountEnds(a: Amount)
    requires a.WellFormed()
    ensures var t := a.Text(); t != "" && AmountChar(t[0]) && AmountChar(t[|t|-1])
  {
    AmountCut(a);
  }

  lemma SignBefore(g: Sign, t: string)
    requires t != "" && AmountChar(t[0]) && AmountChar(t[|t|-1])
    ensures var s := SignText(g) + t;
      && s != "" && (s[0] == '-' <==> g == Minus) && (s[0] == '+' <==> g == Plus)
      && (g != Unsigned ==> s[1..] == t) && Trimmed(s)
  {
  }

  lemma SignedCut(g: Sign, a: Amount)
    requires a.WellFormed()
    ensures var s := SignText(g) + a.Text();
      && s != "" && (s[0] == '-' <==> g == Minus) && (s[0] == '+' <==> g == Plus)
      && (g != Unsigned ==> s[1..] == a.Text()) && Trimmed(s)
  {
    AmountEnds(a);
    SignBefore(g, a.Text());
  }

  lemma SignRead(s: string, g: Sign, rest: string, allowNegative: bool, round: nat -> nat)
    requires s != "" && (s[0] == '-' <==> g == Minus) && (s[0] == '+' <==> g == Plus)
    requires rest == if g == Unsigned then s else s[1..]
    ensures ParseTrimmed(s, allowNegative, round) ==
      if g == Minus && !allowNegative then Err(NegativeNotAllowed) else WithSign(g == Minus, ParseUnsigned(rest, round))
  {
  }

  lemma TrimmedExact(g: Sign, a: Amount, allowNegative: bool, round: nat -> nat)
    requires a.WellFormed() && Rounding(round)
    ensures ParseTrimmed(SignText(g) + a.Text(), allowNegative, round) == SignedOutcome(g, a, allowNegative)
  {
    SignedCut(g, a);
    assert g == Unsigned ==> SignText(g) + a.Text() == a.Text();
    SignRead(SignText(g) + a.Text(), g, a.Text(), allowNegative, round);
    UnsignedExact(a, round);
  }

  /**
   Parsing is exact: a grammatical text with at most six places gives its true value exactly
   when that is a safe integer, whatever the rounding does above 2^53.
   */
  lemma ParseExact(g: Sign, a: Amount, allowNegative: bool, round: nat -> nat)
    requires a.WellFormed() && Rounding(round)
    ensures ParseMajorToMicros(SignText(g) + a.Text(), allowNegative, round) == SignedOutcome(g, a, allowNegative)
  {
    SignedCut(g, a);
    TrimmedExact(g, a, allowNegative, round);
  }

  function SignOf(s: string): Sign
    requires s != ""
  {
    if s[0] == '-' then Minus else if s[0] == '+' then Plus else Unsigned
  }

  function Rest(s: string): (r: string)
    requires s != ""
    ensures SignText(SignOf(s)) + r == s
  {
    if s[0] == '-' || s[0] == '+' then
      assert s == [s[0]] + s[1..];
      s[1..]
    else s
  }

  lemma ParseParts(input: string, allowNegative: bool, round: nat -> nat)
    requires ParseMajorToMicros(input, allowNegative, round).Ok?
    ensures var s := Trim(input); s != "" && ParseUnsigned(Rest(s), round).Ok? && (SignOf(s) == Minus ==> allowNegative)
  {
  }

  /** And only grammatical texts, trimmed, give a value. */
  lemma ParseGrammar(input: string, allowNegative: bool, round: nat -> nat) returns (g: Sign, a: Amount)
    requires ParseMajorToMicros(input, allowNegative, round).Ok?
    ensures a.WellFormed() && SignText(g) + a.Text() == Trim(input) && (g == Minus ==> allowNegative)
  {
    ParseParts(input, allowNegative, round);
    g := SignOf(Trim(input));
    a := UnsignedGrammar(Rest(Trim(input)), round);
  }

  // ---------------------------------------------------------------------------
  // Printing
  // ---------------------------------------------------------------------------

  /** What the printer writes, as an amount. */
  function Printed(abs: nat): (a: Amount)
  {
    var whole, frac := abs / MICROS_PER_MAJOR, abs % MICROS_PER_MAJOR;
    if frac == 0 then Amount(NatText(whole), false, "")
    else Amount(NatText(whole), true, StripTrailing(Fixed(frac, 6)))
  }

  lemma PrintedText(abs: nat)
    ensures Printed(abs).WellFormed() && Printed(abs).Text() == MajorText(abs)
  {
    var frac := abs % MICROS_PER_MAJOR;
    Pow10Values();
    if frac != 0 {
      PadIsFixed(frac, 6);
      var t := StripTrailing(Fixed(frac, 6));
      assert AllDigits(t) by { assert t == Fixed(frac, 6)[..|t|]; }
    }
  }

  lemma StrippedFraction(frac: nat)
    requires frac < MICROS_PER_MAJOR
    ensures var t := StripTrailing(Fixed(frac, 6));
      |t| <= 6 && AllDigits(t) && DigitsValue(t) * Pow10(6 - |t|) == frac && (frac > 0 ==> t != "")
  {
    Pow10Values();
    var s := Fixed(frac, 6);
    var t := StripTrailing(s);
    assert AllDigits(t) by { assert t == s[..|t|]; }
    StripPad(s);
    PadEndValue(t, 6);
    FixedValue(frac, 6);
  }

  lemma PrintedMicros(abs: nat)
    ensures Printed(abs).WellFormed() && |Printed(abs).frac| <= 6 && Printed(abs).Micros() == abs
  {
    PrintedText(abs);
    var whole, frac := abs / MICROS_PER_MAJOR, abs % MICROS_PER_MAJOR;
    NatTextValue(whole);
    if frac != 0 { StrippedFraction(frac); }
  }

  lemma FormatSigned(g: Sign, n: nat)
    requires g != Plus && n <= MAX_SAFE && (g == Minus ==> n > 0)
    ensures FormatMicrosToMajor(Signed(g, n)) == Ok(SignText(g) + MajorText(n))
  {
  }

  lemma FormatPrints(g: Sign, n: nat)
    requires g != Plus && n <= MAX_SAFE && (g == Minus ==> n > 0)
    ensures Printed(n).WellFormed() && FormatMicrosToMajor(Signed(g, n)) == Ok(SignText(g) + Printed(n).Text())
  {
    PrintedText(n);
    FormatSigned(g, n);
  }

  lemma PrintedParses(g: Sign, n: nat, round: nat -> nat)
    requires n <= MAX_SAFE && Rounding(round) && Printed(n).WellFormed()
    ensures ParseMajorToMicros(SignText(g) + Printed(n).Text(), true, round) == Ok(Signed(g, n))
  {
    ParseExact(g, Printed(n), true, round);
    PrintedOutcome(g, n);
  }

  lemma PrintedOutcome(g: Sign, n: nat)
    requires n <= MAX_SAFE
    ensures Printed(n).WellFormed() && SignedOutcome(g, Printed(n), true) == Ok(Signed(g, n))
  {
    PrintedMicros(n);
  }

  /** Printing a safe amount and parsing it gives it back. */
  lemma MoneyRoundTrip(micros: int, round: nat -> nat)
    requires 0 - MAX_SAFE <= micros <= MAX_SAFE && Rounding(round)
    ensures FormatMicrosToMajor(micros).Ok?
    ensures ParseMajorToMicros(FormatMicrosToMajor(micros).value, true, round) == Ok(micros)
  {
    var abs: nat := if micros < 0 then 0 - micros else micros;
    var g := if micros < 0 then Minus else Unsigned;
    assert Signed(g, abs) == micros;
    FormatPrints(g, abs);
    PrintedParses(g, abs, round);
  }

  function SameNumber(n: nat): nat { n }

  /** Different amounts print differently. */
  lemma FormatInjective(m: int, n: int)
    requires FormatMicrosToMajor(m).Ok? && FormatMicrosToMajor(m) == FormatMicrosToMajor(n)
    ensures m == n
  {
    MoneyRoundTrip(m, SameNumber);
    MoneyRoundTrip(n, SameNumber);
  }

  /** No superfluous zero, sign or point. */
  predicate Spelled(g: Sign, a: Amount)
  {
    && a.WellFormed() && Plain(a.whole) && |a.frac| <= 6
    && (if a.point then a.frac != "" && a.frac[|a.frac|-1] != '0' else a.frac == "")
    && g != Plus && (g == Minus ==> a.point || a.whole != "0")
  }

  /** The printer writes the canonical spelling. */
  lemma FormatIsSpelled(micros: int) returns (g: Sign, a: Amount)
    requires FormatMicrosToMajor(micros).Ok?
    ensures Spelled(g, a) && FormatMicrosToMajor(micros).value == SignText(g) + a.Text()
  {
    var abs: nat := if micros < 0 then 0 - micros else micros;
    g := if micros < 0 then Minus else Unsigned;
    a := Printed(abs);
    PrintedText(abs);
    NatTextPlain(abs / MICROS_PER_MAJOR);
    if abs % MICROS_PER_MAJOR != 0 {
      StrippedFraction(abs % MICROS_PER_MAJOR);
    }
  }

  lemma StripOne(t: string)
    ensures StripTrailing(t + ['0']) == StripTrailing(t)
  {
    assert (t + ['0'])[..|t|] == t;
  }

  lemma {:induction false} StripOnce(t: string, n: nat)
    requires t == "" || t[|t|-1] != '0'
    ensures StripTrailing(t + Repeat('0', n)) == t
  {
    if n == 0 {
      assert t + Repeat('0', 0) == t;
    } else {
      StripOnce(t, n - 1);
      StripOne(t + Repeat('0', n - 1));
      assert t + Repeat('0', n) == (t + Repeat('0', n - 1)) + ['0'];
    }
  }

  lemma SpelledFraction(t: string)
    requires AllDigits(t) && 0 < |t| <= 6 && t[|t|-1] != '0'
    ensures var f := DigitsValue(t) * Pow10(6 - |t|);
      0 < f < MICROS_PER_MAJOR && StripTrailing(Fixed(f, 6)) == t
  {
    var s := PadEnd(t, 6, '0');
    PadEndValue(t, 6);
    DigitsBound(s);
    Pow10Values();
    FixedOfValue(s);
    StripOnce(t, 6 - |t|);
    Positive(t, Pow10(6 - |t|));
  }

  lemma Positive(t: string, p: nat)
    requires AllDigits(t) && t != "" && t[|t|-1] != '0' && p > 0
    ensures DigitsValue(t) * p > 0
  {
    assert DigitsValue(t) > 0;
  }

  lemma MajorParts(w: nat, f: nat)
    requires f < MICROS_PER_MAJOR
    ensures (w * MICROS_PER_MAJOR + f) / MICROS_PER_MAJOR == w && (w * MICROS_PER_MAJOR + f) % MICROS_PER_MAJOR == f
  {
  }

  lemma PrintedParts(w: nat, f: nat)
    requires f < MICROS_PER_MAJOR
    ensures Printed(w * MICROS_PER_MAJOR + f) ==
      if f == 0 then Amount(NatText(w), false, "") else Amount(NatText(w), true, StripTrailing(Fixed(f, 6)))
  {
    MajorParts(w, f);
  }

  lemma SpelledWhole(a: Amount)
    requires Plain(a.whole) && !a.point && a.frac == ""
    ensures a.WellFormed() && Printed(a.Micros()) == a && (a.whole != "0" ==> a.Micros() > 0)
  {
    PlainIsNatText(a.whole);
    NatTextPlain(DigitsValue(a.whole));
    PrintedParts(DigitsValue(a.whole), 0);
  }

  lemma SpelledPoint(a: Amount)
    requires Plain(a.whole) && a.point && AllDigits(a.frac) && 0 < |a.frac| <= 6 && a.frac[|a.frac|-1] != '0'
    ensures a.WellFormed() && Printed(a.Micros()) == a && a.Micros() > 0
  {
    PlainIsNatText(a.whole);
    SpelledFraction(a.frac);
    PrintedParts(DigitsValue(a.whole), DigitsValue(a.frac) * Pow10(6 - |a.frac|));
  }

  lemma SpelledIsPrinted(g: Sign, a: Amount)
    requires Spelled(g, a)
    ensures Printed(a.Micros()) == a && (g == Minus ==> a.Micros() > 0)
  {
    if a.point { SpelledPoint(a); } else { SpelledWhole(a); }
  }

  /** A canonical spelling of a safe amount is what the printer writes for it. */
  lemma SpelledIsKept(g: Sign, a: Amount, round: nat -> nat)
    requires Spelled(g, a) && a.Micros() <= MAX_SAFE && Rounding(round)
    ensures var r := ParseMajorToMicros(SignText(g) + a.Text(), true, round);
      r.Ok? && FormatMicrosToMajor(r.value) == Ok(SignText(g) + a.Text())
  {
    ParseExact(g, a, true, round);
    SpelledIsPrinted(g, a);
    PrintedText(a.Micros());
    FormatSigned(g, a.Micros());
  }

  // ---------------------------------------------------------------------------
  // Minor units
  // ---------------------------------------------------------------------------

  function MicrosPerMinor(exponent: int): Option<nat>
  {
    if exponent < 0 || exponent > 6 then None else Some(Pow10(MICROS_FRACTIONAL_DIGITS - exponent))
  }

  function MinorToMicros(minor: int, exponent: int): Option<int>
  {
    var m := MicrosPerMinor(exponent);
    if m.None? then None else Some(minor * m.value)
  }

  lemma Pow10Parts(k: nat)
    requires k <= 6
    ensures Pow10(6 - k) * Pow10(k) == 1_000_000
  {
    Pow10Values();
  }

  lemma ScaledBack(minor: int, p: int, q: int)
    requires p * q == 1_000_000
    ensures minor * p * q == minor * 1_000_000
  {
    assert minor * p * q == minor * (p * q);
  }

  /** Minor units convert for exponents from 0 to 6 only; a million micros make one major unit of them. */
  lemma MinorConversion(minor: int, exponent: int)
    ensures MinorToMicros(minor, exponent).Some? <==> 0 <= exponent <= 6
    ensures 0 <= exponent <= 6 ==> MinorToMicros(minor, exponent).value * Pow10(exponent) == minor * 1_000_000
  {
    if 0 <= exponent <= 6 {
      Pow10Parts(exponent);
      ScaledBack(minor, Pow10(6 - exponent), Pow10(exponent));
    }
  }
}
