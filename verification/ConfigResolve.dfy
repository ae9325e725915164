/**
 Resolution of the operator document and the legacy environment into one configuration.
 `encode` is the percent-encoding of URI parts, a library call.
 */
module ConfigResolve {
  import opened Options
  import opened JsText
  import opened ConfigFields
  import Decimal

  /** A parsed YAML value; its numbers are integers here. */
  datatype Json =
    | Undefined | Null | Bool(b: bool) | Num(n: int) | Str(s: string) | Arr(items: seq<Json>)
    | Obj(fields: map<Seg, Json>)

  type LegacyEnv = map<Key, string>

  datatype ProxyMode = CaddyMode | DirectMode

  datatype Reason =
    | MustBeBoolean | MustBeInteger | MustBeList | MustBeString
    | BelowMin(min: int) | AboveMax(max: int)
    | TooLong(limit: nat) | PatternMismatch | NotAChoice
    | Required | WeakSecret

  datatype Issue = Issue(key: Key, reason: Reason)

  datatype Resolved = Resolved(
    mode: ProxyMode, values: map<Key, Value>,
    env: map<Key, string>, apiEnv: map<Key, string>, composeVars: map<Key, string>)

  const MAX_SAFE: int := 9_007_199_254_740_991

  // ---------------------------------------------------------------------------
  // Reading the document
  // ---------------------------------------------------------------------------

  function GetByPath(source: Json, path: Path): Json
    decreases |path|
  {
    if path == [] then source
    else if !source.Obj? then Undefined
    else GetByPath(if path[0] in source.fields then source.fields[path[0]] else Undefined, path[1..])
  }

  function AsString(v: Json): Option<string>
  {
    match v
    case Str(s) => Some(s)
    case Num(n) => Some(Decimal.IntText(n))
    case Bool(b) => Some(if b then "true" else "false")
    case _ => None
  }

  /** The parts between commas, trimmed, empty ones dropped. */
  function TrimmedParts(parts: seq<string>): seq<string>
  {
    if parts == [] then []
    else
      var part := Trim(parts[|parts|-1]);
      TrimmedParts(parts[..|parts|-1]) + (if part == "" then [] else [part])
  }

  function TextItems(items: seq<Json>): seq<string>
  {
    if items == [] then []
    else
      var s := AsString(items[|items|-1]);
      TextItems(items[..|items|-1]) + (if s.None? || s.value == "" then [] else [s.value])
  }

  function AsStringArray(v: Json): Option<seq<string>>
  {
    match v
    case Str(s) => Some(TrimmedParts(Split(s, ",")))
    case Arr(items) => Some(TextItems(items))
    case _ => None
  }

  const TRUE_WORDS: seq<string> := ["1", "true", "yes", "on", "y"]
  const FALSE_WORDS: seq<string> := ["0", "false", "no", "off", "n"]

  predicate IsOneOf(t: string, words: seq<string>)
    decreases |words|
  {
    words != [] && (t == words[0] || IsOneOf(t, words[1..]))
  }

  function BooleanText(t: string): Option<bool>
  {
    if IsOneOf(t, TRUE_WORDS) then Some(true)
    else if IsOneOf(t, FALSE_WORDS) then Some(false)
    else None
  }

  function AsBoolean(v: Json): Option<bool>
  {
    match v
    case Bool(b) => Some(b)
    case Num(n) => Some(n != 0)
    case Str(s) =>
      BooleanText(Lower(Trim(s)))
    case _ => None
  }

  /** Digits are read exactly; a double differs only beyond the safe range, which every bound excludes. */
  function AsInteger(v: Json): Option<int>
  {
    match v
    case Num(n) => if 0 - MAX_SAFE <= n <= MAX_SAFE then Some(n) else None
    case Str(s) =>
      var t := Trim(s);
      if t != "" && Decimal.AllDigits(t) then Some(Decimal.DigitsValue(t)) else None
    case _ => None
  }

  // ---------------------------------------------------------------------------
  // One field
  // ---------------------------------------------------------------------------

  function EnvJson(env: LegacyEnv, key: Key): Json { if key in env then Str(env[key]) else Undefined }

  predicate Blank(v: Json) { v == Undefined || v == Null || v == Str("") }

  /** The operator document first, then the legacy environment. */
  function RawFor(key: Key, operator: Json, env: LegacyEnv): Json
  {
    var path := FieldOf(key).path;
    var fromYaml := if path.Some? then GetByPath(operator, path.value) else Undefined;
    if !Blank(fromYaml) then fromYaml
    else if !Blank(EnvJson(env, key)) then EnvJson(env, key)
    else Undefined
  }

  datatype Coerced = Coerced(value: Option<Value>, issues: seq<Issue>)

  function RangeIssues(key: Key, n: int, v: Validation): seq<Issue>
  {
    if !v.Range? then []
    else
      (if n < v.min then [Issue(key, BelowMin(v.min))] else []) +
      (if n > v.max then [Issue(key, AboveMax(v.max))] else [])
  }

  function Coerce(key: Key, raw: Json): Coerced
  {
    if Blank(raw) then Coerced(None, [])
    else
      match FieldOf(key).kind
      case BooleanKind =>
        var b := AsBoolean(raw);
        if b.None? then Coerced(None, [Issue(key, MustBeBoolean)]) else Coerced(Some(BoolV(b.value)), [])
      case IntegerKind =>
        var n := AsInteger(raw);
        if n.None? then Coerced(None, [Issue(key, MustBeInteger)])
        else Coerced(Some(IntV(n.value)), RangeIssues(key, n.value, FieldOf(key).validation))
      case ListKind =>
        var items := AsStringArray(raw);
        if items.None? then Coerced(None, [Issue(key, MustBeList)]) else Coerced(Some(ListV(items.value)), [])
      case TextKind =>
        var s := AsString(raw);
        if s.None? then Coerced(None, [Issue(key, MustBeString)]) else Coerced(Some(StrV(s.value)), [])
  }

  predicate DbNameChar(c: char) { 'A' <= c <= 'Z' || 'a' <= c <= 'z' || '0' <= c <= '9' || c == '_' || c == '-' }

  /** Text bounds; the minimum length of the JWT secret is checked later, with its bypass. */
  function TextIssues(key: Key, s: string): seq<Issue>
  {
    match FieldOf(key).validation
    case DbName(max) =>
      (if |s| > max then [Issue(key, TooLong(max))] else []) +
      (if s == "" || exists i :: 0 <= i < |s| && !DbNameChar(s[i]) then [Issue(key, PatternMismatch)] else [])
    case OneOf(choices) => if s in choices then [] else [Issue(key, NotAChoice)]
    case _ => []
  }

  datatype Draft = Draft(values: map<Key, Value>, issues: seq<Issue>)

  function FieldRaw(key: Key, operator: Json, env: LegacyEnv, mode: ProxyMode): Json
  {
    var raw := RawFor(key, operator, env);
    if raw == Undefined && key == TRUST_PROXY then Bool(mode == CaddyMode) else raw
  }

  /** Takes a present raw value into the draft. */
  function Added(key: Key, raw: Json, d: Draft): Draft
  {
    var c := Coerce(key, raw);
    if c.value.None? then d.(issues := d.issues + c.issues)
    else
      var more := if c.value.value.StrV? then TextIssues(key, c.value.value.s) else [];
      Draft(d.values[key := c.value.value], d.issues + c.issues + more)
  }

  function ResolveRaw(key: Key, raw: Json, d: Draft): Draft
  {
    var field := FieldOf(key);
    if raw != Undefined then Added(key, raw, d)
    else if field.default.Some? then d.(values := d.values[key := field.default.value])
    else d
  }

  function ResolveField(key: Key, operator: Json, env: LegacyEnv, mode: ProxyMode, d: Draft): Draft
  {
    if FieldOf(key).derived then d else ResolveRaw(key, FieldRaw(key, operator, env, mode), d)
  }

  function ResolveFields(keys: seq<Key>, operator: Json, env: LegacyEnv, mode: ProxyMode): Draft
  {
    if keys == [] then Draft(map[], [])
    else ResolveField(keys[|keys|-1], operator, env, mode, ResolveFields(keys[..|keys|-1], operator, env, mode))
  }

  // ---------------------------------------------------------------------------
  // The whole configuration
  // ---------------------------------------------------------------------------

  function ModeOf(b: bool): ProxyMode { if b then CaddyMode else DirectMode }

  function ResolveMode(operator: Json, env: LegacyEnv): ProxyMode
  {
    var text := AsString(GetByPath(operator, [Proxy, Mode]));
    var mode := if text.Some? then Lower(Trim(text.value)) else "";
    if mode == "caddy" then CaddyMode
    else if mode == "direct" then DirectMode
    else
      var caddy := AsBoolean(GetByPath(operator, [Proxy, Caddy]));
      if caddy.Some? then ModeOf(caddy.value)
      else
        var legacy := AsBoolean(EnvJson(env, USE_CADDY));
        if legacy.Some? then ModeOf(legacy.value) else CaddyMode
  }

  function ValueText(v: Value): string
  {
    match v
    case StrV(s) => s
    case IntV(n) => Decimal.IntText(n)
    case BoolV(b) => if b then "true" else "false"
    case ListV(items) => Join(items, ",")
  }

  /** `asString` of a stored value, or nothing for a list or an absent one. */
  function StoredText(values: map<Key, Value>, key: Key): Option<string>
  {
    if key in values && !values[key].ListV? then Some(ValueText(values[key])) else None
  }

  predicate FieldMissing(values: map<Key, Value>, key: Key)
  {
    key !in values || values[key] == StrV("")
  }

  const REQUIRED: seq<Key> := [MONGO_USER, MONGO_PASS, DOMAIN, ADMIN_EMAIL, JWT_SECRET]

  function RequiredIssues(values: map<Key, Value>, keys: seq<Key>): seq<Issue>
  {
    if keys == [] then []
    else
      var last := keys[|keys|-1];
      RequiredIssues(values, keys[..|keys|-1]) + (if FieldMissing(values, last) then [Issue(last, Required)] else [])
  }

  function OrElse(t: Option<string>, other: string): string { if t.Some? then t.value else other }

  function MongoUri(values: map<Key, Value>, operator: Json, encode: string -> string): string
  {
    var override := OrElse(StoredText(values, MONGODB_URI), "");
    if override != "" then override
    else
      "mongodb://" + encode(OrElse(StoredText(values, MONGO_USER), "")) + ":" +
      encode(OrElse(StoredText(values, MONGO_PASS), "")) + "@" +
      OrElse(AsString(GetByPath(operator, [Database, Host])), "mongo") + ":27017/" +
      OrElse(StoredText(values, MONGODB_DB), "tokenpanel") + "?authSource=admin&directConnection=true"
  }

  predicate AllowsWeak(values: map<Key, Value>)
  {
    ALLOW_WEAK_JWT_SECRET in values && values[ALLOW_WEAK_JWT_SECRET] == BoolV(true)
  }

  function SecretIssues(values: map<Key, Value>): seq<Issue>
  {
    var jwt := OrElse(StoredText(values, JWT_SECRET), "");
    if 0 < |jwt| < MIN_JWT_SECRET_LEN && !AllowsWeak(values) then [Issue(JWT_SECRET, WeakSecret)] else []
  }

  function Completed(
    values: map<Key, Value>, operator: Json, mode: ProxyMode, encode: string -> string): map<Key, Value>
  {
    values[MONGO_USER_URI := StrV(encode(OrElse(StoredText(values, MONGO_USER), "")))]
          [MONGO_PASS_URI := StrV(encode(OrElse(StoredText(values, MONGO_PASS), "")))]
          [MONGODB_URI := StrV(MongoUri(values, operator, encode))]
          [USE_CADDY := BoolV(mode == CaddyMode)]
  }

  function Serialize(key: Key, value: Value): string
  {
    var field := FieldOf(key);
    if field.kind == BooleanKind then
      var b := value == BoolV(true) || value == StrV("true") || value == StrV("y");
      if field.yesNo then (if b then "y" else "n") else (if b then "true" else "false")
    else ValueText(value)
  }

  /** The serialized values of the fields in the given scopes. */
  function Rendered(keys: seq<Key>, values: map<Key, Value>, scopes: set<Scope>): map<Key, string>
  {
    if keys == [] then map[]
    else
      var last := keys[|keys|-1];
      var rest := Rendered(keys[..|keys|-1], values, scopes);
      if last in values && FieldOf(last).scope in scopes then rest[last := Serialize(last, values[last])] else rest
  }

  const ALL_SCOPES: set<Scope> := {ApiScope, DeployScope, SharedScope}
  const API_SCOPES: set<Scope> := {ApiScope, SharedScope}
  const COMPOSE_SCOPES: set<Scope> := {DeployScope, SharedScope}

  function AllIssues(d: Draft): seq<Issue>
  {
    d.issues + RequiredIssues(d.values, REQUIRED) + SecretIssues(d.values)
  }

  function RenderAll(values: map<Key, Value>, mode: ProxyMode): Resolved
  {
    Resolved(mode, values,
             Rendered(CONFIG_FIELDS, values, ALL_SCOPES),
             Rendered(CONFIG_FIELDS, values, API_SCOPES),
             Rendered(CONFIG_FIELDS, values, COMPOSE_SCOPES)[USE_CADDY := if mode == CaddyMode then "y" else "n"])
  }

  function OperatorOf(operator: Json): Json { if operator.Obj? then operator else Obj(map[]) }

  function Resolution(input: Json, env: LegacyEnv, encode: string -> string): Result<Resolved, seq<Issue>>
  {
    var operator := OperatorOf(input);
    var mode := ResolveMode(operator, env);
    var d := ResolveFields(CONFIG_FIELDS, operator, env, mode);
    if AllIssues(d) != [] then Err(AllIssues(d))
    else Ok(RenderAll(Completed(d.values, operator, mode, encode), mode))
  }

  method ReadFields(operator: Json, env: LegacyEnv, mode: ProxyMode)
    returns (values: map<Key, Value>, issues: seq<Issue>)
    ensures Draft(values, issues) == ResolveFields(CONFIG_FIELDS, operator, env, mode)
  {
    values, issues := map[], [];
    for i := 0 to |CONFIG_FIELDS|
      invariant Draft(values, issues) == ResolveFields(CONFIG_FIELDS[..i], operator, env, mode)
    {
      assert CONFIG_FIELDS[..i+1][..i] == CONFIG_FIELDS[..i];
      values, issues := ReadField(CONFIG_FIELDS[i], operator, env, mode, values, issues);
    }
    assert CONFIG_FIELDS[..|CONFIG_FIELDS|] == CONFIG_FIELDS;
  }

  method ReadField(key: Key, operator: Json, env: LegacyEnv, mode: ProxyMode, values: map<Key, Value>,
      issues: seq<Issue>)
    returns (newValues: map<Key, Value>, newIssues: seq<Issue>)
    ensures Draft(newValues, newIssues) == ResolveField(key, operator, env, mode, Draft(values, issues))
  {
    newValues, newIssues := values, issues;
    var field := FieldOf(key);
    if field.derived { return; }
    var raw := FieldRaw(key, operator, env, mode);
    if raw == Undefined {
      if field.default.Some? { newValues := values[key := field.default.value]; }
      return;
    }
    var c := Coerce(key, raw);
    newIssues := newIssues + c.issues;
    if c.value.None? { return; }
    if c.value.value.StrV? { newIssues := newIssues + TextIssues(key, c.value.value.s); }
    newValues := values[key := c.value.value];
  }

  method CheckRequired(values: map<Key, Value>) returns (issues: seq<Issue>)
    ensures issues == RequiredIssues(values, REQUIRED)
  {
    issues := [];
    for i := 0 to |REQUIRED|
      invariant issues == RequiredIssues(values, REQUIRED[..i])
    {
      assert REQUIRED[..i+1][..i] == REQUIRED[..i];
      if FieldMissing(values, REQUIRED[i]) { issues := issues + [Issue(REQUIRED[i], Required)]; }
    }
    assert REQUIRED[..|REQUIRED|] == REQUIRED;
  }

  method ResolveConfig(input: Json, env: LegacyEnv, encode: string -> string) returns (r: Result<Resolved, seq<Issue>>)
    ensures r == Resolution(input, env, encode)
  {
    var operator := OperatorOf(input);
    var mode := ResolveMode(operator, env);
    var values, issues := ReadFields(operator, env, mode);
    var missing := CheckRequired(values);
    issues := issues + missing + SecretIssues(values);
    if |issues| > 0 { return Err(issues); }
    var out := Render(Completed(values, operator, mode, encode), mode);
    return Ok(out);
  }

  method Render(values: map<Key, Value>, mode: ProxyMode) returns (r: Resolved)
    ensures r == RenderAll(values, mode)
  {
    var env: map<Key, string> := map[];
    var apiEnv: map<Key, string> := map[];
    var composeVars: map<Key, string> := map[];
    for i := 0 to |CONFIG_FIELDS|
      invariant env == Rendered(CONFIG_FIELDS[..i], values, ALL_SCOPES)
      invariant apiEnv == Rendered(CONFIG_FIELDS[..i], values, API_SCOPES)
      invariant composeVars == Rendered(CONFIG_FIELDS[..i], values, COMPOSE_SCOPES)
    {
      assert CONFIG_FIELDS[..i+1][..i] == CONFIG_FIELDS[..i];
      var key := CONFIG_FIELDS[i];
      if key !in values { continue; }
      var serialized := Serialize(key, values[key]);
      var scope := FieldOf(key).scope;
      env := env[key := serialized];
      if scope == ApiScope || scope == SharedScope { apiEnv := apiEnv[key := serialized]; }
      if scope == DeployScope || scope == SharedScope { composeVars := composeVars[key := serialized]; }
    }
    assert CONFIG_FIELDS[..|CONFIG_FIELDS|] == CONFIG_FIELDS;
    composeVars := composeVars[USE_CADDY := if mode == CaddyMode then "y" else "n"];
    r := Resolved(mode, values, env, apiEnv, composeVars);
  }
}
