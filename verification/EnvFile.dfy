/** The env file: `KEY=value` lines, printed and parsed back. */
module EnvFile {
  import opened Options
  import opened JsText

  datatype Entry = Entry(key: string, value: string)

  predicate Letter(c: char) { 'A' <= c <= 'Z' || 'a' <= c <= 'z' || c == '_' }

  /** `^[A-Za-z_][A-Za-z0-9_]*$`. */
  predicate Identifier(s: string)
  {
    s != "" && Letter(s[0]) && forall i | 0 <= i < |s| :: Letter(s[i]) || '0' <= s[i] <= '9'
  }

  /** Not empty, of letters, digits and underscores, and not starting with a digit. */
  lemma IdentifierExactly(s: string)
    ensures Identifier(s) <==>
      && s != "" && !('0' <= s[0] <= '9')
      && forall c | c in s :: c == '_' || '0' <= c <= '9' || 'A' <= c <= 'Z' || 'a' <= c <= 'z'
  {
    assert forall i | 0 <= i < |s| :: s[i] in s;
    if Identifier(s) {
      forall c | c in s ensures c == '_' || '0' <= c <= '9' || 'A' <= c <= 'Z' || 'a' <= c <= 'z' {
        var i :| 0 <= i < |s| && s[i] == c;
      }
    }
  }

  /** Starts and ends with one kind of quote; a single quote character does both. */
  predicate Quoted(s: string)
  {
    s != "" && (s[0] == '"' || s[0] == '\'') && s[|s|-1] == s[0]
  }

  function Unquoted(s: string): (t: string)
    ensures |t| <= |s| && (Quoted(s) ==> |t| < |s|) && (!Quoted(s) ==> t == s)
    ensures forall c | c in t :: c in s
  {
    if !Quoted(s) then s
    else if |s| == 1 then ""
    else s[1..|s|-1]
  }

  function ParseLine(line: string): Option<Entry> { ParseTrimmed(Trim(line)) }

  function ParseTrimmed(trimmed: string): Option<Entry>
  {
    if trimmed == "" || trimmed[0] == '#' then None
    else
      var eq := IndexOf(trimmed, "=");
      if eq <= 0 then None
      else
        var key := Trim(trimmed[..eq]);
        if !Identifier(key) then None
        else Some(Entry(key, Unquoted(Trim(trimmed[eq+1..]))))
  }

  /** Assigning a text to this property of an object leaves the object as it was. */
  const PROTO := "__proto__"

  function Assign(out: map<string, string>, e: Option<Entry>): map<string, string>
  {
    if e.None? || e.value.key == PROTO then out else out[e.value.key := e.value.value]
  }

  /** The entries read, later ones overriding earlier ones of the same key. */
  function Collect(found: seq<Option<Entry>>): map<string, string>
  {
    if found == [] then map[] else Assign(Collect(found[..|found|-1]), found[|found|-1])
  }

  lemma CollectNext(found: seq<Option<Entry>>, i: nat)
    requires i < |found|
    ensures Collect(found[..i+1]) == Assign(Collect(found[..i]), found[i])
  {
    assert found[..i+1][..i] == found[..i];
  }

  function Reads(lines: seq<string>): (r: seq<Option<Entry>>)
    ensures |r| == |lines|
  {
    seq(|lines|, i requires 0 <= i < |lines| => ParseLine(lines[i]))
  }

  function Parsed(content: string): map<string, string> { Collect(Reads(Split(content, "\n"))) }

  method ParseEnvFile(content: string) returns (out: map<string, string>)
    ensures out == Parsed(content)
  {
    var lines := Split(content, "\n");
    out := ReadLines(lines);
  }

  method ReadLines(lines: seq<string>) returns (out: map<string, string>)
    ensures out == Collect(Reads(lines))
  {
    out := map[];
    ghost var found := Reads(lines);
    for i := 0 to |lines|
      invariant out == Collect(found[..i])
    {
      CollectNext(found, i);
      out := Assign(out, ParseLine(lines[i]));
    }
    assert found[..|lines|] == found;
  }

  function Line(e: Entry): string { e.key + "=" + e.value }

  function Lines(es: seq<Entry>): seq<string>
  {
    seq(|es|, i requires 0 <= i < |es| => Line(es[i]))
  }

  function PrintEnvFile(es: seq<Entry>): string { Join(Lines(es), "\n") + "\n" }

  // ---------------------------------------------------------------------------
  // One line
  // ---------------------------------------------------------------------------

  lemma {:induction false} TrimEndAfter(head: string, v: string)
    requires head != "" && !IsSpace(head[|head|-1])
    ensures TrimEnd(head + v) == head + TrimEnd(v)
  {
    if v == "" {
      assert head + v == head;
    } else if IsSpace(v[|v|-1]) {
      assert (head + v)[..|head + v|-1] == head + v[..|v|-1];
      TrimEndAfter(head, v[..|v|-1]);
    }
  }

  lemma IdentifierChars(key: string)
    requires Identifier(key)
    ensures '=' !in key && '\n' !in key && !IsSpace(key[0]) && key[0] != '#' && Trimmed(key)
  {
    assert !Letter('=') && !Letter('\n');
    assert Letter(key[|key|-1]) || '0' <= key[|key|-1] <= '9';
  }

  lemma LineTrimmed(key: string, v: string)
    requires Identifier(key)
    ensures Trim(key + "=" + v) == key + "=" + TrimEnd(v)
  {
    IdentifierChars(key);
    TrimEndAfter(key + "=", v);
    assert TrimStart(key + "=" + v) == key + "=" + v;
  }

  lemma LineCut(key: string, rest: string)
    requires Identifier(key)
    ensures var t := key + "=" + rest;
      IndexOf(t, "=") == |key| && t[..|key|] == key && t[|key|+1..] == rest && t[0] == key[0]
  {
    IdentifierChars(key);
    IndexOfFirst(key, '=', rest);
  }

  function ValueRead(v: string): string { Unquoted(Trim(TrimEnd(v))) }

  /** What a printed line with a proper key found as. */
  lemma LineRead(key: string, v: string)
    requires Identifier(key)
    ensures ParseLine(key + "=" + v) == Some(Entry(key, ValueRead(v)))
  {
    LineTrimmed(key, v);
    CutRead(key, TrimEnd(v));
  }

  lemma CutRead(key: string, rest: string)
    requires Identifier(key)
    ensures ParseTrimmed(key + "=" + rest) == Some(Entry(key, Unquoted(Trim(rest))))
  {
    IdentifierChars(key);
    LineCut(key, rest);
  }

  predicate PlainValue(v: string) { Trimmed(v) && !Quoted(v) }

  lemma KeptIf(x: string, v: string)
    requires |x| <= |v| && Trimmed(x) && (Trimmed(v) ==> x == v)
    ensures Unquoted(x) == v <==> PlainValue(v)
  {
  }

  lemma TrimEndKept(v: string)
    requires Trimmed(v)
    ensures TrimEnd(v) == v
  {
  }

  lemma ValueKept(v: string)
    ensures ValueRead(v) == v <==> PlainValue(v)
  {
    if Trimmed(v) { TrimEndKept(v); }
    KeptIf(Trim(TrimEnd(v)), v);
  }

  /** A line found back as it was printed exactly for an identifier key and a plain value. */
  lemma LineRoundTrip(e: Entry)
    ensures ParseLine(Line(e)) == Some(e) <==> Identifier(e.key) && PlainValue(e.value)
  {
    if Identifier(e.key) {
      LineRead(e.key, e.value);
      ValueKept(e.value);
    }
  }

  /** A value in quotes of either kind is read without them, whatever it holds. */
  lemma QuotedLine(key: string, v: string, quote: char)
    requires Identifier(key) && (quote == '"' || quote == '\'')
    ensures ParseLine(key + "=" + ([quote] + v + [quote])) == Some(Entry(key, v))
  {
    var text := [quote] + v + [quote];
    LineRead(key, text);
    assert text[0] == quote && text[|text|-1] == quote && text[1..|text|-1] == v;
    assert TrimEnd(text) == text;
  }

  /** A single quote character is both quotes, of nothing. */
  lemma LoneQuote(key: string, quote: char)
    requires Identifier(key) && (quote == '"' || quote == '\'')
    ensures ParseLine(key + "=" + [quote]) == Some(Entry(key, ""))
  {
    LineRead(key, [quote]);
    assert TrimEnd([quote]) == [quote];
  }

  // ---------------------------------------------------------------------------
  // The whole file
  // ---------------------------------------------------------------------------

  predicate DistinctKeys(es: seq<Entry>)
  {
    forall i, j | 0 <= i < j < |es| :: es[i].key != es[j].key
  }

  function MapOf(es: seq<Entry>): map<string, string>
  {
    if es == [] then map[] else MapOf(es[..|es|-1])[es[|es|-1].key := es[|es|-1].value]
  }

  predicate Storable(e: Entry)
  {
    Identifier(e.key) && e.key != PROTO && '\n' !in e.value && PlainValue(e.value)
  }

  /** Keys are proper and values hold no newline: each entry stays on its own line. */
  predicate OneLine(e: Entry)
  {
    Identifier(e.key) && e.key != PROTO && '\n' !in e.value
  }

  lemma {:induction false} JoinEnded(lines: seq<string>)
    requires |lines| > 0
    ensures Join(lines + [""], "\n") == Join(lines, "\n") + "\n"
  {
    if |lines| == 1 {
      assert lines + [""] == [lines[0], ""] && [lines[0], ""][1..] == [""];
    } else {
      assert (lines + [""])[1..] == lines[1..] + [""];
      JoinEnded(lines[1..]);
    }
  }

  lemma LineHasNoBreak(e: Entry)
    requires OneLine(e)
    ensures '\n' !in Line(e)
  {
    IdentifierChars(e.key);
  }

  lemma NoBreaks(es: seq<Entry>)
    requires forall i | 0 <= i < |es| :: OneLine(es[i])
    ensures forall l | l in Lines(es) + [""] :: '\n' !in l
  {
    forall l | l in Lines(es) + [""] ensures '\n' !in l {
      if l in Lines(es) {
        var i :| 0 <= i < |es| && Lines(es)[i] == l;
        LineHasNoBreak(es[i]);
      }
    }
  }

  lemma CollectNone(found: seq<Option<Entry>>)
    ensures Collect(found + [None]) == Collect(found)
  {
    assert (found + [None])[..|found|] == found;
  }

  lemma BlankLine(lines: seq<string>)
    ensures Reads(lines + [""]) == Reads(lines) + [None]
  {
    assert Trim("") == "";
  }

  /** Printed one-line entries are read line by line. */
  lemma FileLines(es: seq<Entry>)
    requires forall i | 0 <= i < |es| :: OneLine(es[i])
    ensures Parsed(PrintEnvFile(es)) == Collect(Reads(Lines(es)))
  {
    if es == [] {
      EmptyFile();
    } else {
      NoBreaks(es);
      JoinEnded(Lines(es));
      SplitOfJoin(Lines(es) + [""], '\n');
      BlankLine(Lines(es));
      CollectNone(Reads(Lines(es)));
    }
  }

  lemma EmptyFile()
    ensures Parsed(PrintEnvFile([])) == map[]
  {
    assert PrintEnvFile([]) == "" + ['\n'] + "";
    SplitAt("", '\n', "");
    IndexOfAbsent("", '\n');
    assert Split("\n", "\n") == [""] + [""];
    BlankLine([""]);
    BlankLine([]);
    assert [] + [""] == [""] && Reads([]) == [];
    var nothing: seq<Option<Entry>> := [];
    CollectNone(nothing + [None]);
    CollectNone(nothing);
  }

  /** What one-line entries read as. */
  function Readings(es: seq<Entry>): (r: seq<Entry>)
    ensures |r| == |es|
  {
    seq(|es|, i requires 0 <= i < |es| => Entry(es[i].key, ValueRead(es[i].value)))
  }

  function Somes(es: seq<Entry>): seq<Option<Entry>>
  {
    seq(|es|, i requires 0 <= i < |es| => Some(es[i]))
  }

  lemma ReadsOfLines(es: seq<Entry>)
    requires forall i | 0 <= i < |es| :: OneLine(es[i])
    ensures Reads(Lines(es)) == Somes(Readings(es))
  {
    forall i | 0 <= i < |es| ensures Reads(Lines(es))[i] == Somes(Readings(es))[i] {
      LineRead(es[i].key, es[i].value);
    }
  }

  lemma {:induction false} CollectSomes(es: seq<Entry>)
    requires forall i | 0 <= i < |es| :: es[i].key != PROTO
    ensures Collect(Somes(es)) == MapOf(es)
  {
    if es != [] {
      assert Somes(es)[..|es|-1] == Somes(es[..|es|-1]);
      CollectSomes(es[..|es|-1]);
    }
  }

  /** A file of one-line entries found as their readings. */
  lemma FileRead(es: seq<Entry>)
    requires forall i | 0 <= i < |es| :: OneLine(es[i])
    ensures Parsed(PrintEnvFile(es)) == MapOf(Readings(es))
  {
    FileLines(es);
    ReadsOfLines(es);
    CollectSomes(Readings(es));
  }

  lemma {:induction false} MapOfAt(es: seq<Entry>, i: nat)
    requires i < |es| && DistinctKeys(es)
    ensures es[i].key in MapOf(es) && MapOf(es)[es[i].key] == es[i].value
  {
    if i < |es| - 1 { MapOfAt(es[..|es|-1], i); }
  }

  lemma LineSound(line: string)
    requires '\n' !in line && ParseLine(line).Some?
    ensures SoundEntry(ParseLine(line).value)
  {
    var trimmed := Trim(line);
    var eq := IndexOf(trimmed, "=");
    TrimChars(line);
    TrimChars(trimmed[eq+1..]);
    assert forall c | c in trimmed[eq+1..] :: c in trimmed;
  }

  predicate SoundEntry(e: Entry) { Identifier(e.key) && '\n' !in e.value }

  lemma {:induction false} CollectSound(found: seq<Option<Entry>>, k: string)
    requires (forall i | 0 <= i < |found| :: found[i].Some? ==> SoundEntry(found[i].value)) && k in Collect(found)
    ensures SoundEntry(Entry(k, Collect(found)[k])) && k != PROTO
  {
    var last := found[|found|-1];
    if !(last.Some? && last.value.key != PROTO && last.value.key == k) {
      CollectSound(found[..|found|-1], k);
    }
  }

  /** What a file found as has proper keys and one-line values. */
  lemma FileSound(content: string, k: string)
    requires k in Parsed(content)
    ensures SoundEntry(Entry(k, Parsed(content)[k])) && k != PROTO
  {
    var lines := Split(content, "\n");
    SplitParts(content, '\n');
    forall i | 0 <= i < |lines| && Reads(lines)[i].Some? ensures SoundEntry(Reads(lines)[i].value) {
      assert lines[i] in lines;
      LineSound(lines[i]);
    }
    CollectSound(Reads(lines), k);
  }

  lemma RoundTripNeeds(es: seq<Entry>, i: nat)
    requires DistinctKeys(es) && i < |es| && Parsed(PrintEnvFile(es)) == MapOf(es)
    ensures OneLine(es[i])
  {
    MapOfAt(es, i);
    FileSound(PrintEnvFile(es), es[i].key);
  }

  lemma StorableReads(es: seq<Entry>)
    requires forall i | 0 <= i < |es| :: Storable(es[i])
    ensures Readings(es) == es
  {
    forall i | 0 <= i < |es| ensures Readings(es)[i] == es[i] {
      ValueKept(es[i].value);
    }
  }

  lemma ReadingsDistinct(es: seq<Entry>)
    requires DistinctKeys(es)
    ensures DistinctKeys(Readings(es))
  {
  }

  lemma SameMapSameValue(es: seq<Entry>, fs: seq<Entry>, i: nat)
    requires DistinctKeys(es) && DistinctKeys(fs) && i < |es| == |fs| && es[i].key == fs[i].key
      && MapOf(es) == MapOf(fs)
    ensures es[i].value == fs[i].value
  {
    MapOfAt(es, i);
    MapOfAt(fs, i);
  }

  lemma KeptStorable(e: Entry)
    requires OneLine(e) && ValueRead(e.value) == e.value
    ensures Storable(e)
  {
    ValueKept(e.value);
  }

  lemma SameMapStorable(es: seq<Entry>, i: nat)
    requires DistinctKeys(es) && i < |es| && OneLine(es[i]) && MapOf(es) == MapOf(Readings(es))
    ensures Storable(es[i])
  {
    ReadingsDistinct(es);
    SameMapSameValue(es, Readings(es), i);
    KeptStorable(es[i]);
  }

  lemma RoundTripOnlyIf(es: seq<Entry>)
    requires DistinctKeys(es) && Parsed(PrintEnvFile(es)) == MapOf(es)
    ensures forall i | 0 <= i < |es| :: Storable(es[i])
  {
    forall i | 0 <= i < |es| ensures OneLine(es[i]) {
      RoundTripNeeds(es, i);
    }
    FileRead(es);
    forall i | 0 <= i < |es| ensures Storable(es[i]) {
      SameMapStorable(es, i);
    }
  }

  /**
   Printing a record and parsing the file gives the record back exactly when every key is an
   identifier other than `__proto__` and every value has no newline, no outer white space, and
   does not start and end with the same quote.
   */
  lemma EnvFileRoundTripExactlyWhen(es: seq<Entry>)
    requires DistinctKeys(es)
    ensures Parsed(PrintEnvFile(es)) == MapOf(es) <==> forall i | 0 <= i < |es| :: Storable(es[i])
  {
    if Parsed(PrintEnvFile(es)) == MapOf(es) {
      RoundTripOnlyIf(es);
    }
    if forall i | 0 <= i < |es| :: Storable(es[i]) {
      FileRead(es);
      StorableReads(es);
    }
  }
}
