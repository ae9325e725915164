/** Display of micros: adaptive and fixed precision, thousands grouping, column precision. */
module MoneyDisplay {
  import opened Options
  import opened JsText
  import opened Decimal
  import opened DecimalPlaces
  import opened MoneyMicros
  import Bits

  // ---------------------------------------------------------------------------
  // Currencies
  // ---------------------------------------------------------------------------

  const ZERO_DECIMAL := {"BIF", "CLP", "DJF", "GNF", "ISK", "JPY", "KMF", "KRW", "PYG",
                         "RWF", "UGX", "UYI", "VND", "VUV", "XAF", "XOF", "XPF"}
  const THREE_DECIMAL := {"BHD", "IQD", "JOD", "KWD", "LYD", "OMR", "TND"}
  const FOUR_DECIMAL := {"CLF", "UYW"}

  function UpperChar(c: char): char
  {
    if 'a' <= c <= 'z' then (c as int - 32) as char else c
  }

  /** `toUpperCase` on ASCII; other code points are left alone. */
  function Upper(s: string): (t: string)
    ensures Lower(t) == Lower(s) && forall c | c in t :: !('a' <= c <= 'z')
  {
    seq(|s|, i requires 0 <= i < |s| => UpperChar(s[i]))
  }

  function CurrencyExponent(currency: string): (exp: nat)
    ensures exp == 0 || exp == 2 || exp == 3 || exp == 4
    ensures (exp == 0 <==> Upper(currency) in ZERO_DECIMAL) && (exp == 3 <==> Upper(currency) in THREE_DECIMAL)
    ensures exp == 4 <==> Upper(currency) in FOUR_DECIMAL
  {
    var code := Upper(currency);
    if code in ZERO_DECIMAL then 0
    else if code in THREE_DECIMAL then 3
    else if code in FOUR_DECIMAL then 4
    else 2
  }

  function CurrencySymbol(code: string): (symbol: string)
    ensures symbol == "$" <==> code in {"AUD", "CAD", "HKD", "NZD", "SGD", "USD"}
    ensures (symbol == "\U{20ac}" <==> code == "EUR") && (symbol == "\U{00a3}" <==> code == "GBP")
    ensures (symbol == "\U{00a5}" <==> code == "JPY") && (symbol == "\U{20b9}" <==> code == "INR")
    ensures symbol == "\U{20a9}" <==> code == "KRW"
    ensures symbol == "" || symbol in {"$", "\U{20ac}", "\U{00a3}", "\U{00a5}", "\U{20b9}", "\U{20a9}"}
  {
    if code in {"USD", "AUD", "CAD", "NZD", "HKD", "SGD"} then "$"
    else if code == "EUR" then "\U{20ac}"
    else if code == "GBP" then "\U{00a3}"
    else if code == "JPY" then "\U{00a5}"
    else if code == "INR" then "\U{20b9}"
    else if code == "KRW" then "\U{20a9}"
    else ""
  }

  // ---------------------------------------------------------------------------
  // Grouping
  // ---------------------------------------------------------------------------

  /** A comma before every run of digits whose length is a positive multiple of three, except in front. */
  function GroupThousands(s: string): string
  {
    if |s| <= 3 then s else GroupThousands(s[..|s|-3]) + "," + s[|s|-3..]
  }

  /** The text without its commas. */
  function Ungrouped(s: string): string
  {
    if s == "" then "" else Ungrouped(s[..|s|-1]) + (if s[|s|-1] == ',' then "" else [s[|s|-1]])
  }

  lemma {:induction false} UngroupedConcat(a: string, b: string)
    ensures Ungrouped(a + b) == Ungrouped(a) + Ungrouped(b)
  {
    if b == "" {
      assert a + b == a;
    } else {
      assert (a + b)[..|a + b|-1] == a + b[..|b|-1];
      UngroupedConcat(a, b[..|b|-1]);
    }
  }

  lemma {:induction false} UngroupedPlain(s: string)
    requires ',' !in s
    ensures Ungrouped(s) == s
  {
    if s != "" {
      UngroupedPlain(s[..|s|-1]);
      assert s == s[..|s|-1] + [s[|s|-1]];
      assert s[|s|-1] in s;
    }
  }

  lemma DigitsHaveNoComma(s: string)
    requires AllDigits(s)
    ensures ',' !in s
  {
    assert !IsDigit(',');
  }

  lemma CommaGone(grouped: string)
    ensures Ungrouped(grouped + ",") == Ungrouped(grouped)
  {
    assert (grouped + ",")[..|grouped|] == grouped;
  }

  lemma UngroupStep(grouped: string, tail: string)
    requires AllDigits(tail)
    ensures Ungrouped(grouped + "," + tail) == Ungrouped(grouped) + tail
  {
    DigitsHaveNoComma(tail);
    UngroupedPlain(tail);
    UngroupedConcat(grouped + ",", tail);
    CommaGone(grouped);
  }

  /** Dropping the commas gives back the digits. */
  lemma {:induction false} UngroupThousands(s: string)
    requires AllDigits(s)
    ensures Ungrouped(GroupThousands(s)) == s
  {
    if |s| <= 3 {
      DigitsHaveNoComma(s);
      UngroupedPlain(s);
    } else {
      var head, tail := s[..|s|-3], s[|s|-3..];
      UngroupThousands(head);
      UngroupStep(GroupThousands(head), tail);
      assert s == head + tail;
    }
  }

  lemma {:induction false} GroupedLength(s: string)
    requires AllDigits(s)
    ensures |GroupThousands(s)| % 4 != 0 || s == ""
    ensures |GroupThousands(s)| >= |s|
  {
    if |s| > 3 { GroupedLength(s[..|s|-3]); }
  }

  /** Commas stand at every fourth place from the right, and nowhere else. */
  lemma {:induction false} CommaPlaces(s: string, i: nat)
    requires AllDigits(s) && i < |GroupThousands(s)|
    ensures GroupThousands(s)[i] == ',' <==> i > 0 && (|GroupThousands(s)| - i) % 4 == 0
  {
    GroupedLength(s);
    assert !IsDigit(',');
    if |s| > 3 {
      var head, tail := GroupThousands(s[..|s|-3]), s[|s|-3..];
      GroupedLength(s[..|s|-3]);
      if i < |head| {
        CommaPlaces(s[..|s|-3], i);
      } else {
        assert i > |head| ==> GroupThousands(s)[i] == tail[i - |head| - 1];
      }
    }
  }

  // ---------------------------------------------------------------------------
  // Formatting
  // ---------------------------------------------------------------------------

  function Abs(n: int): nat { if n < 0 then 0 - n else n }

  /** Grouped whole part and the first `places` fractional digits. */
  function Body(micros: nat, places: nat): string
    requires places <= 6
  {
    var whole := GroupThousands(NatText(micros / MICROS_PER_MAJOR));
    if places == 0 then whole
    else whole + "." + PadStart(NatText(micros % MICROS_PER_MAJOR), 6, '0')[..places]
  }

  function AdaptiveBody(abs: nat, exp: nat): string
    requires exp <= 6
  {
    var minorMicros := Pow10(6 - exp);
    if abs != 0 && abs < minorMicros then MajorText(abs) else Body(abs, exp)
  }

  function FormatMicros(amountMicros: int, currency: string): string
  {
    var sign := if amountMicros < 0 then "-" else "";
    var code := Upper(currency);
    sign + CurrencySymbol(code) + AdaptiveBody(Abs(amountMicros), CurrencyExponent(code)) + " " + code
  }

  /** `floor((abs + step / 2) / step) * step`, over exact numbers. */
  function Rounded(abs: nat, places: nat): nat
    requires places <= 6
  {
    var step := Pow10(6 - places);
    RoundsUp(abs, step);
    (2 * abs + step) / (2 * step) * step
  }

  function Places(decimals: int): (dp: nat)
    ensures dp <= 6
  {
    Min(6, Max(0, decimals))
  }

  function FormatMicrosFixed(amountMicros: int, currency: string, decimals: int): string
  {
    var dp := Places(decimals);
    var code := Upper(currency);
    var sign := if amountMicros < 0 then "-" else "";
    sign + CurrencySymbol(code) + Body(Rounded(Abs(amountMicros), dp), dp) + " " + code
  }

  lemma RoundsUp(abs: nat, step: nat)
    requires step > 0
    ensures var q := (2 * abs + step) / (2 * step);
      q >= 0 && q * step >= 0 && 2 * (q * step) <= 2 * abs + step < 2 * (q * step) + 2 * step
  {
    var x, n := 2 * abs + step, 2 * step;
    var q := x / n;
    assert q * n <= x < q * n + n;
    assert q * n == 2 * (q * step);
    assert q < 0 ==> q * n <= 0 - n;
  }

  /** Least precision, from the currency's own up to four places, at which no non-zero amount is below one step. */
  method ColumnDecimals(amounts: seq<int>, currency: string) returns (dp: nat)
    ensures CurrencyExponent(currency) <= dp <= 4
    ensures forall i | 0 <= i < |amounts| :: amounts[i] == 0 || dp == 4 || Abs(amounts[i]) >= Pow10(6 - dp)
    ensures dp == CurrencyExponent(currency) ||
      exists i :: 0 <= i < |amounts| && amounts[i] != 0 && Abs(amounts[i]) < Pow10(7 - dp)
  {
    var base := CurrencyExponent(currency);
    dp := base;
    for k := 0 to |amounts|
      invariant base <= dp <= 4
      invariant forall i | 0 <= i < k :: amounts[i] == 0 || dp == 4 || Abs(amounts[i]) >= Pow10(6 - dp)
      invariant dp == base || exists i :: 0 <= i < k && amounts[i] != 0 && Abs(amounts[i]) < Pow10(7 - dp)
    {
      var abs := Abs(amounts[k]);
      if abs == 0 { continue; }
      while dp < 4 && abs < Pow10(6 - dp)
        invariant base <= dp <= 4
        invariant forall i | 0 <= i < k :: amounts[i] == 0 || dp == 4 || Abs(amounts[i]) >= Pow10(6 - dp)
        invariant dp == base || exists i :: 0 <= i <= k && amounts[i] != 0 && Abs(amounts[i]) < Pow10(7 - dp)
      {
        assert Pow10(6 - dp) == 10 * Pow10(5 - dp);
        dp := dp + 1;
      }
    }
  }

  // ---------------------------------------------------------------------------
  // What the text shows
  // ---------------------------------------------------------------------------

  /** Without its commas the text is an amount of that many micros. */
  ghost predicate Shows(body: string, micros: nat)
  {
    exists a: Amount ::
      a.WellFormed() && |a.frac| <= MICROS_FRACTIONAL_DIGITS && Ungrouped(body) == a.Text() && a.Micros() == micros
  }

  lemma TextDetermines(a: Amount, b: Amount)
    requires a.WellFormed() && b.WellFormed() && a.Text() == b.Text()
    ensures a == b
  {
    AmountCut(a);
    AmountCut(b);
  }

  /** A text shows one amount. */
  lemma ShowsOne(body: string, m: nat, n: nat)
    requires Shows(body, m) && Shows(body, n)
    ensures m == n
  {
    var a: Amount :| a.WellFormed() && |a.frac| <= MICROS_FRACTIONAL_DIGITS && Ungrouped(body) == a.Text()
      && a.Micros() == m;
    var b: Amount :| b.WellFormed() && |b.frac| <= MICROS_FRACTIONAL_DIGITS && Ungrouped(body) == b.Text()
      && b.Micros() == n;
    TextDetermines(a, b);
  }

  lemma UngroupedBody(whole: string, frac: string)
    requires AllDigits(whole) && AllDigits(frac)
    ensures Ungrouped(GroupThousands(whole) + "." + frac) == whole + "." + frac
  {
    UngroupThousands(whole);
    DigitsHaveNoComma(frac);
    UngroupedPlain(frac);
    UngroupedPlain(".");
    UngroupedConcat(GroupThousands(whole) + ".", frac);
    UngroupedConcat(GroupThousands(whole), ".");
  }

  /** The fraction digits that are kept, and what they are worth. */
  lemma KeptFraction(frac: nat, places: nat)
    requires frac < MICROS_PER_MAJOR && places <= 6
    ensures var text := PadStart(NatText(frac), 6, '0')[..places];
      && AllDigits(text) && DigitsValue(text) == DropDigits(frac, 6 - places)
      && DropDigits(frac, 6 - places) * Pow10(6 - places) <=
        frac < DropDigits(frac, 6 - places) * Pow10(6 - places) + Pow10(6 - places)
  {
    Pow10Values();
    PadIsFixed(frac, 6);
    FixedPrefix(frac, 6, places);
    DropDigitsBelow(frac, 6 - places, 6);
    FixedValue(DropDigits(frac, 6 - places), places);
    DropDigitsBounds(frac, 6 - places);
  }

  /** What a body writes, as an amount. */
  function BodyAmount(micros: nat, places: nat): Amount
    requires places <= 6
  {
    Amount(NatText(micros / MICROS_PER_MAJOR), places > 0,
           PadStart(NatText(micros % MICROS_PER_MAJOR), 6, '0')[..places])
  }

  lemma BodyText(micros: nat, places: nat)
    requires places <= 6
    ensures BodyAmount(micros, places).WellFormed()
      && Ungrouped(Body(micros, places)) == BodyAmount(micros, places).Text()
  {
    var w, f := micros / MICROS_PER_MAJOR, micros % MICROS_PER_MAJOR;
    KeptFraction(f, places);
    if places == 0 {
      UngroupThousands(NatText(w));
    } else {
      UngroupedBody(NatText(w), PadStart(NatText(f), 6, '0')[..places]);
    }
  }

  /** The body shows the amount cut down to its places. */
  lemma BodyShows(micros: nat, places: nat) returns (shown: nat)
    requires places <= 6
    ensures Shows(Body(micros, places), shown) && shown <= micros < shown + Pow10(6 - places)
    ensures micros % Pow10(6 - places) == 0 ==> shown == micros
  {
    BodyText(micros, places);
    shown := BodyAmount(micros, places).Micros();
    BodyMicros(micros, places);
  }

  lemma BodyMicros(micros: nat, places: nat)
    requires places <= 6 && BodyAmount(micros, places).WellFormed()
    ensures var shown := BodyAmount(micros, places).Micros();
      shown <= micros < shown + Pow10(6 - places) && (micros % Pow10(6 - places) == 0 ==> shown == micros)
  {
    var w, f := micros / MICROS_PER_MAJOR, micros % MICROS_PER_MAJOR;
    KeptFraction(f, places);
    NatTextValue(w);
    if micros % Pow10(6 - places) == 0 { CutMultiple(micros, w, DropDigits(f, 6 - places), places); }
  }

  lemma StepsInMajor(places: nat)
    requires places <= 6
    ensures Pow10(places) * Pow10(6 - places) == MICROS_PER_MAJOR
  {
    Pow10Values();
    assert places == 0 || places == 1 || places == 2 || places == 3 || places == 4 || places == 5 || places == 6;
  }

  lemma CutMultiple(micros: nat, w: nat, kept: nat, places: nat)
    requires places <= 6 && micros % Pow10(6 - places) == 0
    requires w * MICROS_PER_MAJOR + kept * Pow10(6 - places) <=
      micros < w * MICROS_PER_MAJOR + kept * Pow10(6 - places) + Pow10(6 - places)
    ensures w * MICROS_PER_MAJOR + kept * Pow10(6 - places) == micros
  {
    var step := Pow10(6 - places);
    StepsInMajor(places);
    var m := w * Pow10(places) + kept;
    assert w * MICROS_PER_MAJOR == w * (Pow10(places) * step) == w * Pow10(places) * step;
    assert m * step == w * Pow10(places) * step + kept * step;
    Bits.DivUnique(micros, step, m);
  }

  // ---------------------------------------------------------------------------
  // Display bounds
  // ---------------------------------------------------------------------------

  lemma MajorShows(abs: nat)
    ensures Shows(MajorText(abs), abs)
  {
    PrintedText(abs);
    PrintedMicros(abs);
    var a := Printed(abs);
    DigitsHaveNoComma(a.whole);
    DigitsHaveNoComma(a.frac);
    UngroupedPlain(a.Text());
  }

  /** A display text: sign, symbol, body, currency code. */
  function Display(amountMicros: int, currency: string, body: string): string
  {
    (if amountMicros < 0 then "-" else "") + CurrencySymbol(Upper(currency)) + body + " " + Upper(currency)
  }

  /**
   The adaptive display never shows a non-zero amount as zero, never shows more than there is,
   leaves out less than one minor unit, and leaves out nothing below one minor unit.
   */
  lemma AdaptiveBounds(amountMicros: int, currency: string) returns (body: string, shown: nat)
    ensures FormatMicros(amountMicros, currency) == Display(amountMicros, currency, body) && Shows(body, shown)
    ensures var minor := Pow10(6 - CurrencyExponent(Upper(currency)));
      && shown <= Abs(amountMicros) < shown + minor
      && (Abs(amountMicros) < minor ==> shown == Abs(amountMicros))
      && (shown == 0 <==> amountMicros == 0)
  {
    var abs, exp := Abs(amountMicros), CurrencyExponent(Upper(currency));
    body := AdaptiveBody(abs, exp);
    if abs != 0 && abs < Pow10(6 - exp) {
      MajorShows(abs);
      shown := abs;
    } else {
      shown := BodyShows(abs, exp);
    }
  }

  /** Grouped digits, and after a point exactly so many digits, without a point for none. */
  predicate GroupedWith(body: string, whole: string, frac: string, places: nat)
  {
    && AllDigits(whole) && AllDigits(frac) && |frac| == places
    && body == GroupThousands(whole) + (if places == 0 then "" else "." + frac)
  }

  lemma BodyPlaces(micros: nat, places: nat) returns (whole: string, frac: string)
    requires places <= 6
    ensures GroupedWith(Body(micros, places), whole, frac, places)
  {
    KeptFraction(micros % MICROS_PER_MAJOR, places);
    PadIsFixed(micros % MICROS_PER_MAJOR, 6);
    whole, frac := NatText(micros / MICROS_PER_MAJOR), PadStart(NatText(micros % MICROS_PER_MAJOR), 6, '0')[..places];
    if places == 0 { assert GroupThousands(whole) + "" == GroupThousands(whole); }
  }

  /** From one minor unit on, the adaptive display is grouped and has the currency's own places. */
  lemma AdaptivePlaces(amountMicros: int, currency: string) returns (body: string, whole: string, frac: string)
    requires amountMicros == 0 || Abs(amountMicros) >= Pow10(6 - CurrencyExponent(Upper(currency)))
    ensures FormatMicros(amountMicros, currency) == Display(amountMicros, currency, body)
    ensures GroupedWith(body, whole, frac, CurrencyExponent(Upper(currency)))
  {
    body := Body(Abs(amountMicros), CurrencyExponent(Upper(currency)));
    whole, frac := BodyPlaces(Abs(amountMicros), CurrencyExponent(Upper(currency)));
  }

  /** The fixed display is grouped and has the asked places, between none and six. */
  lemma FixedPlaces(amountMicros: int, currency: string, decimals: int)
    returns (body: string, whole: string, frac: string)
    ensures FormatMicrosFixed(amountMicros, currency, decimals) == Display(amountMicros, currency, body)
    ensures GroupedWith(body, whole, frac, if decimals < 0 then 0 else if decimals > 6 then 6 else decimals)
  {
    var dp := Places(decimals);
    FixedText(amountMicros, currency, decimals);
    body := Body(Rounded(Abs(amountMicros), dp), dp);
    whole, frac := BodyPlaces(Rounded(Abs(amountMicros), dp), dp);
  }

  lemma WholeSteps(n: nat, step: nat)
    requires step > 0
    ensures n * step >= 0 && (n * step) % step == 0
  {
    Bits.DivUnique(n * step, step, n);
  }

  lemma MultipleShows(m: nat, exp: nat)
    requires exp <= 6 && m % Pow10(6 - exp) == 0
    ensures Shows(AdaptiveBody(m, exp), m)
  {
    if m != 0 && m < Pow10(6 - exp) {
      MajorShows(m);
    } else {
      var shown := BodyShows(m, exp);
    }
  }

  lemma StepsOf(minor: int, step: nat)
    requires step > 0
    ensures Abs(minor * step) == Abs(minor) * step && (minor * step < 0 <==> minor < 0)
  {
  }

  /** A whole number of minor units, of either sign, displays exactly. */
  lemma MinorUnitsShowExactly(minor: int, currency: string, micros: int)
    requires MinorToMicros(minor, CurrencyExponent(Upper(currency))) == Some(micros)
    ensures var body := AdaptiveBody(Abs(micros), CurrencyExponent(Upper(currency)));
      && FormatMicros(micros, currency) == Display(micros, currency, body) && Shows(body, Abs(micros))
      && (micros < 0 <==> minor < 0)
  {
    var exp := CurrencyExponent(Upper(currency));
    StepsOf(minor, Pow10(6 - exp));
    MinorUnitsShow(Abs(minor), exp, Abs(micros));
  }

  /** The same for any exponent the conversion accepts. */
  lemma MinorUnitsShow(minor: nat, exp: nat, micros: nat)
    requires exp <= 6 && MinorToMicros(minor, exp) == Some(micros)
    ensures Shows(AdaptiveBody(micros, exp), micros)
  {
    WholeSteps(minor, Pow10(6 - exp));
    MultipleShows(micros, exp);
  }

  lemma RoundedMultiple(abs: nat, places: nat)
    requires places <= 6
    ensures Rounded(abs, places) % Pow10(6 - places) == 0
  {
    var step := Pow10(6 - places);
    RoundsUp(abs, step);
    var q := (2 * abs + step) / (2 * step);
    Bits.DivUnique(q * step, step, q);
  }

  lemma RoundedNear(abs: nat, places: nat)
    requires places <= 6
    ensures 2 * abs - Pow10(6 - places) < 2 * Rounded(abs, places) <= 2 * abs + Pow10(6 - places)
  {
    RoundsUp(abs, Pow10(6 - places));
  }

  lemma FixedText(amountMicros: int, currency: string, decimals: int)
    ensures FormatMicrosFixed(amountMicros, currency, decimals) ==
      Display(amountMicros, currency, Body(Rounded(Abs(amountMicros), Places(decimals)), Places(decimals)))
  {
  }

  /**
   The fixed display shows the multiple of the step nearest to the amount, halves away from
   zero.
   */
  lemma FixedBounds(amountMicros: int, currency: string, decimals: int) returns (body: string, shown: nat)
    ensures FormatMicrosFixed(amountMicros, currency, decimals) == Display(amountMicros, currency, body)
      && Shows(body, shown)
    ensures var step := Pow10(6 - Places(decimals));
      shown % step == 0 && 2 * Abs(amountMicros) - step < 2 * shown <= 2 * Abs(amountMicros) + step
    ensures shown == Rounded(Abs(amountMicros), Places(decimals))
  {
    FixedText(amountMicros, currency, decimals);
    body, shown := RoundedShows(Abs(amountMicros), Places(decimals));
    RoundedNear(Abs(amountMicros), Places(decimals));
    RoundedMultiple(Abs(amountMicros), Places(decimals));
  }

  lemma RoundedShows(abs: nat, places: nat) returns (body: string, shown: nat)
    requires places <= 6
    ensures body == Body(Rounded(abs, places), places) && Shows(body, shown) && shown == Rounded(abs, places)
  {
    RoundedMultiple(abs, places);
    body := Body(Rounded(abs, places), places);
    shown := BodyShows(Rounded(abs, places), places);
  }

  /** A larger amount never shows smaller at one precision. */
  lemma FixedMonotone(a: nat, b: nat, places: nat)
    requires places <= 6 && a <= b
    ensures Rounded(a, places) <= Rounded(b, places)
  {
    var step := Pow10(6 - places);
    RoundsUp(a, step);
    RoundsUp(b, step);
    Quotients(2 * a + step, 2 * b + step, 2 * step);
    Bits.Scale((2 * a + step) / (2 * step), (2 * b + step) / (2 * step), step);
  }

  lemma BelowOne(d: int, n: nat)
    requires d * n < n
    ensures d <= 0
  {
  }

  lemma Quotients(x: nat, y: nat, n: nat)
    requires n > 0 && x <= y
    ensures 0 <= x / n <= y / n
  {
    var p, q := x / n, y / n;
    assert p * n <= x < p * n + n;
    assert q * n <= y < q * n + n;
    assert (p - q) * n == p * n - q * n;
    BelowOne(p - q, n);
    assert (0 - p) * n == 0 - p * n;
    BelowOne(0 - p, n);
  }

  lemma NoSmallMultiple(n: nat, step: nat)
    requires n < step && n % step == 0
    ensures n == 0
  {
    Bits.DivUnique(n, step, 0);
  }

  /** The fixed display shows zero exactly below half a step. */
  lemma FixedZeroExactlyWhen(abs: nat, places: nat)
    requires places <= 6
    ensures Rounded(abs, places) == 0 <==> 2 * abs < Pow10(6 - places)
  {
    RoundedNear(abs, places);
    RoundedMultiple(abs, places);
    if Rounded(abs, places) < Pow10(6 - places) { NoSmallMultiple(Rounded(abs, places), Pow10(6 - places)); }
  }

  /** At the column's precision every amount of at least 100 micros shows as non-zero. */
  lemma ColumnShowsAll(amounts: seq<int>, dp: nat, i: nat)
    requires dp <= 4 && i < |amounts|
    requires forall i | 0 <= i < |amounts| :: amounts[i] == 0 || dp == 4 || Abs(amounts[i]) >= Pow10(6 - dp)
    requires Abs(amounts[i]) >= 100
    ensures Rounded(Abs(amounts[i]), dp) > 0
  {
    Pow10Values();
    FixedZeroExactlyWhen(Abs(amounts[i]), dp);
  }
}
