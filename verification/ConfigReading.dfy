/** What a raw value of the operator document or the environment says for a field, and what a field allows. */
module ConfigReading {
  import opened Options
  import opened JsText
  import opened ConfigFields
  import opened ConfigResolve
  import Decimal

  predicate FlagWord(t: string, b: bool)
  {
    if b then t == "true" || t == "y" || t == "yes" || t == "on" || t == "1"
    else t == "false" || t == "n" || t == "no" || t == "off" || t == "0"
  }

  predicate SaysFlag(raw: Json, b: bool)
  {
    match raw
    case Bool(c) => c == b
    case Num(n) => b == (n != 0)
    case Str(s) => FlagWord(Lower(Trim(s)), b)
    case _ => false
  }

  predicate SaysNumber(raw: Json, n: int)
  {
    match raw
    case Num(k) => k == n && 0 - 0x1f_ffff_ffff_ffff <= n <= 0x1f_ffff_ffff_ffff
    case Str(s) => Trim(s) != "" && Decimal.AllDigits(Trim(s)) && n == Decimal.DigitsValue(Trim(s))
    case _ => false
  }

  predicate SaysText(raw: Json, s: string)
  {
    match raw
    case Str(t) => s == t
    case Num(n) => s == Decimal.IntText(n)
    case Bool(b) => s == if b then "true" else "false"
    case _ => false
  }

  /** The trimmed parts that are not empty, in order. */
  function PartsThatSay(parts: seq<string>): seq<string>
  {
    if parts == [] then []
    else (if Trim(parts[0]) == "" then [] else [Trim(parts[0])]) + PartsThatSay(parts[1..])
  }

  /** The texts that are not empty, in order. */
  function ItemsThatSay(items: seq<Json>): seq<string>
  {
    if items == [] then []
    else
      (match items[0]
       case Str(s) => if s == "" then [] else [s]
       case Num(n) => [Decimal.IntText(n)]
       case Bool(b) => [if b then "true" else "false"]
       case _ => [])
      + ItemsThatSay(items[1..])
  }

  predicate SaysItems(raw: Json, items: seq<string>)
  {
    match raw
    case Str(s) => items == PartsThatSay(Split(s, ","))
    case Arr(all) => items == ItemsThatSay(all)
    case _ => false
  }

  /** The raw value says this for a field of that kind. */
  predicate Says(kind: Kind, raw: Json, v: Value)
  {
    match kind
    case BooleanKind => v.BoolV? && SaysFlag(raw, v.b)
    case IntegerKind => v.IntV? && SaysNumber(raw, v.n)
    case ListKind => v.ListV? && SaysItems(raw, v.items)
    case TextKind => v.StrV? && SaysText(raw, v.s)
  }

  predicate NameChar(c: char) { c in "_-" || '0' <= c <= '9' || 'A' <= c <= 'Z' || 'a' <= c <= 'z' }

  /** The value is within the bounds of the field. */
  predicate InBounds(key: Key, v: Value)
  {
    match FieldOf(key).validation
    case Anything => true
    case Range(min, max) => v.IntV? ==> min <= v.n <= max
    case DbName(max) => v.StrV? ==> 1 <= |v.s| <= max && forall c | c in v.s :: NameChar(c)
    case OneOf(choices) => v.StrV? ==> v.s in choices
  }

  // ---------------------------------------------------------------------------
  // Coercion says what the raw value says
  // ---------------------------------------------------------------------------

  lemma TrueWords(t: string)
    ensures IsOneOf(t, TRUE_WORDS) <==> FlagWord(t, true)
  {
  }

  lemma FalseWords(t: string)
    ensures IsOneOf(t, FALSE_WORDS) <==> FlagWord(t, false)
  {
  }

  lemma WordsApart(t: string)
    ensures !(FlagWord(t, true) && FlagWord(t, false))
  {
    assert FlagWord(t, true) ==> |t| != |"false"| && (t[0] == 't' || t[0] == 'y' || t == "on" || t == "1");
  }

  lemma WordSaid(t: string, b: bool)
    ensures BooleanText(t) == Some(b) <==> FlagWord(t, b)
  {
    TrueWords(t);
    FalseWords(t);
    WordsApart(t);
  }

  lemma FlagSaid(raw: Json, b: bool)
    ensures AsBoolean(raw) == Some(b) <==> SaysFlag(raw, b)
  {
    if raw.Str? { WordSaid(Lower(Trim(raw.s)), b); }
  }

  lemma NumberSaid(raw: Json, n: int)
    ensures AsInteger(raw) == Some(n) <==> SaysNumber(raw, n)
  {
  }

  lemma TextSaid(raw: Json, s: string)
    ensures AsString(raw) == Some(s) <==> SaysText(raw, s)
  {
  }

  lemma {:induction false} PartsConcat(a: seq<string>, b: seq<string>)
    ensures TrimmedParts(a + b) == TrimmedParts(a) + TrimmedParts(b)
  {
    if b == [] {
      assert a + b == a;
    } else {
      assert (a + b)[..|a + b|-1] == a + b[..|b|-1];
      PartsConcat(a, b[..|b|-1]);
    }
  }

  lemma {:induction false} PartsSaid(parts: seq<string>)
    ensures TrimmedParts(parts) == PartsThatSay(parts)
  {
    if parts != [] {
      assert parts == [parts[0]] + parts[1..] && [parts[0]][..0] == [];
      PartsConcat([parts[0]], parts[1..]);
      PartsSaid(parts[1..]);
    }
  }

  lemma {:induction false} ItemsConcat(a: seq<Json>, b: seq<Json>)
    ensures TextItems(a + b) == TextItems(a) + TextItems(b)
  {
    if b == [] {
      assert a + b == a;
    } else {
      assert (a + b)[..|a + b|-1] == a + b[..|b|-1];
      ItemsConcat(a, b[..|b|-1]);
    }
  }

  lemma IntTextFilled(n: int)
    ensures Decimal.IntText(n) != ""
  {
    if n >= 0 { Decimal.NatTextPlain(n); }
  }

  lemma OneItemSaid(item: Json)
    ensures TextItems([item]) == ItemsThatSay([item])
  {
    assert [item][..0] == [];
    if item.Num? { IntTextFilled(item.n); }
  }

  lemma {:induction false} ItemsSaid(items: seq<Json>)
    ensures TextItems(items) == ItemsThatSay(items)
  {
    if items != [] {
      assert items == [items[0]] + items[1..];
      ItemsConcat([items[0]], items[1..]);
      OneItemSaid(items[0]);
      ItemsSaid(items[1..]);
    }
  }

  lemma ItemsAreSaid(raw: Json, items: seq<string>)
    ensures AsStringArray(raw) == Some(items) <==> SaysItems(raw, items)
  {
    match raw
    case Str(s) => PartsSaid(Split(s, ","));
    case Arr(all) => ItemsSaid(all);
    case _ =>
  }

  /** Coercing gives exactly what the raw value says. */
  lemma CoercedIsSaid(key: Key, raw: Json, v: Value)
    requires !Blank(raw)
    ensures Coerce(key, raw).value == Some(v) <==> Says(FieldOf(key).kind, raw, v)
  {
    var kind := FieldOf(key).kind;
    CoercedByKind(key, raw);
    ByKindIsSaid(kind, raw, v);
  }

  /** The value that coercing gives, by kind alone. */
  function ByKind(kind: Kind, raw: Json): Option<Value>
  {
    match kind
    case BooleanKind => var b := AsBoolean(raw); if b.None? then None else Some(BoolV(b.value))
    case IntegerKind => var n := AsInteger(raw); if n.None? then None else Some(IntV(n.value))
    case ListKind => var items := AsStringArray(raw); if items.None? then None else Some(ListV(items.value))
    case TextKind => var s := AsString(raw); if s.None? then None else Some(StrV(s.value))
  }

  lemma CoercedByKind(key: Key, raw: Json)
    requires !Blank(raw)
    ensures Coerce(key, raw).value == ByKind(FieldOf(key).kind, raw)
  {
  }

  lemma ByKindIsSaid(kind: Kind, raw: Json, v: Value)
    ensures ByKind(kind, raw) == Some(v) <==> Says(kind, raw, v)
  {
    match kind
    case BooleanKind => if v.BoolV? { FlagSaid(raw, v.b); }
    case IntegerKind => if v.IntV? { NumberSaid(raw, v.n); }
    case ListKind => if v.ListV? { ItemsAreSaid(raw, v.items); }
    case TextKind => if v.StrV? { TextSaid(raw, v.s); }
  }

  lemma NamesAlike(s: string)
    ensures (forall i | 0 <= i < |s| :: DbNameChar(s[i])) <==> forall c | c in s :: NameChar(c)
  {
    assert forall c :: NameChar(c) <==> DbNameChar(c);
    if forall c | c in s :: NameChar(c) {
      forall i | 0 <= i < |s| ensures DbNameChar(s[i]) { assert s[i] in s; }
    }
  }

  lemma NameIssues(key: Key, s: string)
    requires FieldOf(key).validation.DbName?
    ensures TextIssues(key, s) == [] <==> InBounds(key, StrV(s))
  {
    NamesAlike(s);
  }

  /** A text raises no issue exactly when it is within the bounds. */
  lemma TextBounds(key: Key, s: string)
    requires FieldOf(key).kind == TextKind
    ensures TextIssues(key, s) == [] <==> InBounds(key, StrV(s))
  {
    if FieldOf(key).validation.DbName? { NameIssues(key, s); }
  }

  /** Nor does a number. */
  lemma NumberBounds(key: Key, n: int)
    ensures RangeIssues(key, n, FieldOf(key).validation) == [] <==> InBounds(key, IntV(n))
  {
  }
}
