/**
 The legacy environment as an operator document, and that resolving with it gives the
 deployment the environment alone gives.
 */
module ConfigMigration {
  import opened Options
  import opened JsText
  import opened ConfigFields
  import opened ConfigResolve

  // ---------------------------------------------------------------------------
  // Writing into a document
  // ---------------------------------------------------------------------------

  function Child(doc: Json, seg: Seg): Json
  {
    if doc.Obj? && seg in doc.fields then doc.fields[seg] else Undefined
  }

  function Fields(doc: Json): map<Seg, Json> { if doc.Obj? then doc.fields else map[] }

  /** Puts a value at a path, replacing whatever is not an object on the way. */
  function Put(doc: Json, path: Path, v: Json): (r: Json)
    requires path != []
    ensures r.Obj?
    decreases |path|
  {
    if |path| == 1 then Obj(Fields(doc)[path[0] := v])
    else Obj(Fields(doc)[path[0] := Put(Child(doc, path[0]), path[1..], v)])
  }

  function SetPath(doc: Json, path: Path, v: Json): Json
    requires path != []
  {
    if Blank(v) then doc else Put(doc, path, v)
  }

  /** Neither path leads through the other. */
  predicate Apart(p: Path, q: Path)
  {
    exists i :: 0 <= i < |p| && i < |q| && p[i] != q[i]
  }

  lemma {:induction false} PutThenGet(doc: Json, path: Path, v: Json)
    requires path != []
    ensures GetByPath(Put(doc, path, v), path) == v
    decreases |path|
  {
    if |path| == 1 {
      assert path[1..] == [];
    } else {
      PutThenGet(Child(doc, path[0]), path[1..], v);
    }
  }

  /** Writing at one path leaves every path apart from it as it was. */
  lemma {:induction false} PutElsewhere(doc: Json, p: Path, q: Path, v: Json)
    requires p != [] && Apart(p, q)
    ensures GetByPath(Put(doc, p, v), q) == GetByPath(doc, q)
    decreases |p|
  {
    var i :| 0 <= i < |p| && i < |q| && p[i] != q[i];
    if p[0] == q[0] {
      assert p[1..][i-1] != q[1..][i-1];
      PutElsewhere(Child(doc, p[0]), p[1..], q[1..], v);
      GetThrough(doc, q);
    }
  }

  lemma GetThrough(doc: Json, q: Path)
    requires |q| > 1
    ensures GetByPath(doc, q) == GetByPath(Child(doc, q[0]), q[1..])
  {
  }

  // ---------------------------------------------------------------------------
  // The migration
  // ---------------------------------------------------------------------------

  const MIGRATED_COUNT: nat := 19

  /** Where each goes: the proxy flag becomes the proxy mode, the rest go to their field's path. */
  function MigrationPath(key: Key): Path
  {
    match key
    case DOMAIN => [Domain]
    case ADMIN_EMAIL => [AdminEmail]
    case TZ => [Timezone]
    case MONGO_USER => [Database, User]
    case MONGO_PASS => [Database, Password]
    case MONGODB_DB => [Database, Name]
    case JWT_SECRET => [Api, JwtSecret]
    case USE_CADDY => [Proxy, Mode]
    case API_PORT => [Proxy, ApiPort]
    case TRUST_PROXY => [Proxy, TrustProxy]
    case TRUST_CLOUDFLARE => [Proxy, TrustCloudflare]
    case TRUSTED_PROXIES => [Proxy, TrustedProxies]
    case CORS_ORIGINS => [Api, CorsOrigins]
    case SMTP_HOST => [Smtp, Host]
    case SMTP_PORT => [Smtp, Port]
    case SMTP_USER => [Smtp, User]
    case SMTP_PASS => [Smtp, Pass]
    case SMTP_FROM => [Smtp, From]
    case CSP_CONNECT_SRC => [Csp, ConnectSrc]
    case _ => []
  }

  function StrItems(items: seq<string>): seq<Json>
  {
    seq(|items|, i requires 0 <= i < |items| => Str(items[i]))
  }

  function ModeSetting(env: LegacyEnv): Json
  {
    var useCaddy := AsBoolean(EnvJson(env, USE_CADDY));
    if useCaddy.Some? then Str(if useCaddy.value then "caddy" else "direct") else Undefined
  }

  function FlagSetting(env: LegacyEnv, key: Key): Json
  {
    var b := AsBoolean(EnvJson(env, key));
    if b.Some? then Bool(b.value) else Undefined
  }

  function NumberSetting(env: LegacyEnv, key: Key): Json
  {
    var n := AsInteger(EnvJson(env, key));
    if n.Some? then Num(n.value) else Undefined
  }

  function ItemsSetting(env: LegacyEnv, key: Key): Json
  {
    var items := AsStringArray(EnvJson(env, key));
    if items.Some? && |items.value| > 0 then Arr(StrItems(items.value)) else Undefined
  }

  /** What is carried over for a key: nothing when it is absent, empty or unreadable. */
  function MigratedJson(key: Key, env: LegacyEnv): Json
  {
    match FieldOf(key).kind
    case TextKind => if EnvJson(env, key) == Str("") then Undefined else EnvJson(env, key)
    case BooleanKind => if key == USE_CADDY then ModeSetting(env) else FlagSetting(env, key)
    case IntegerKind => NumberSetting(env, key)
    case ListKind => ItemsSetting(env, key)
  }

  lemma MigratedNotBlank(key: Key, env: LegacyEnv)
    ensures MigratedJson(key, env) == Undefined || !Blank(MigratedJson(key, env))
  {
  }

  /** A key's place in the order of the calls; past the end for keys that are not carried over. */
  function Place(key: Key): nat
  {
    match key
    case DOMAIN => 0
    case ADMIN_EMAIL => 1
    case TZ => 2
    case MONGO_USER => 3
    case MONGO_PASS => 4
    case MONGODB_DB => 5
    case JWT_SECRET => 6
    case USE_CADDY => 7
    case API_PORT => 8
    case TRUST_PROXY => 9
    case TRUST_CLOUDFLARE => 10
    case TRUSTED_PROXIES => 11
    case CORS_ORIGINS => 12
    case SMTP_HOST => 13
    case SMTP_PORT => 14
    case SMTP_USER => 15
    case SMTP_PASS => 16
    case SMTP_FROM => 17
    case CSP_CONNECT_SRC => 18
    case _ => MIGRATED_COUNT
  }

  lemma PlacesDiffer(j: Key, k: Key)
    requires Place(j) == Place(k) < MIGRATED_COUNT
    ensures j == k
  {
  }

  lemma PlaceHasPath(key: Key)
    ensures MigrationPath(key) != [] <==> Place(key) < MIGRATED_COUNT
  {
  }

  // ---------------------------------------------------------------------------
  // Which key owns a path
  // ---------------------------------------------------------------------------

  function Owner(p: Path): Option<Key>
  {
    if |p| == 1 then
      match p[0]
      case Domain => Some(DOMAIN)
      case AdminEmail => Some(ADMIN_EMAIL)
      case Timezone => Some(TZ)
      case _ => None
    else if |p| != 2 then None
    else
      match (p[0], p[1])
      case (Database, User) => Some(MONGO_USER)
      case (Database, Password) => Some(MONGO_PASS)
      case (Database, Name) => Some(MONGODB_DB)
      case (Api, JwtSecret) => Some(JWT_SECRET)
      case (Api, CorsOrigins) => Some(CORS_ORIGINS)
      case (Proxy, Mode) => Some(USE_CADDY)
      case (Proxy, ApiPort) => Some(API_PORT)
      case (Proxy, TrustProxy) => Some(TRUST_PROXY)
      case (Proxy, TrustCloudflare) => Some(TRUST_CLOUDFLARE)
      case (Proxy, TrustedProxies) => Some(TRUSTED_PROXIES)
      case (Smtp, Host) => Some(SMTP_HOST)
      case (Smtp, Port) => Some(SMTP_PORT)
      case (Smtp, User) => Some(SMTP_USER)
      case (Smtp, Pass) => Some(SMTP_PASS)
      case (Smtp, From) => Some(SMTP_FROM)
      case (Csp, ConnectSrc) => Some(CSP_CONNECT_SRC)
      case _ => None
  }

  lemma OwnerOfPath(k: Key)
    requires MigrationPath(k) != []
    ensures Owner(MigrationPath(k)) == Some(k)
  {
  }

  lemma PathOfOwner(p: Path)
    requires Owner(p).Some?
    ensures MigrationPath(Owner(p).value) == p
  {
  }

  /** How long a path into the document is, by its section. */
  function Depth(p: Path): nat
    requires p != []
  {
    match p[0]
    case Domain => 1
    case AdminEmail => 1
    case Timezone => 1
    case Api => if |p| > 1 && p[1] == Operational then 3 else 2
    case _ => 2
  }

  predicate Leaf(p: Path) { p != [] && |p| == Depth(p) }

  lemma LeavesApart(p: Path, q: Path)
    requires Leaf(p) && Leaf(q) && p != q
    ensures Apart(p, q)
  {
    if p[0] == q[0] {
      assert |p| > 1 && |q| > 1 ==> p[1] == q[1] ==> |p| == |q|;
      if |p| == |q| {
        var i :| 0 <= i < |p| && p[i] != q[i];
      }
    } else {
      assert p[0] != q[0];
    }
  }

  lemma MigrationLeaf(k: Key)
    requires MigrationPath(k) != []
    ensures Leaf(MigrationPath(k))
  {
  }

  lemma FieldLeaf(k: Key)
    ensures FieldOf(k).path.Some? ==> Leaf(FieldOf(k).path.value)
  {
  }

  /** Except for the proxy flag, a key is carried to the path its field is read from. */
  lemma FieldOwner(k: Key)
    requires MigrationPath(k) != [] && k != USE_CADDY
    ensures FieldOf(k).path == Some(MigrationPath(k))
  {
  }

  lemma FieldNotOwned(k: Key)
    requires MigrationPath(k) == [] || k == USE_CADDY
    ensures FieldOf(k).path.Some? ==> Owner(FieldOf(k).path.value) == None
  {
  }

  lemma SetAt(doc: Json, last: Key, v: Json, q: Path)
    requires MigrationPath(last) != [] && Leaf(q) && (v == Undefined || !Blank(v))
    ensures GetByPath(SetPath(doc, MigrationPath(last), v), q) ==
      if Owner(q) == Some(last) && v != Undefined then v else GetByPath(doc, q)
  {
    var p := MigrationPath(last);
    OwnerOfPath(last);
    MigrationLeaf(last);
    if Owner(q) == Some(last) {
      PathOfOwner(q);
      PutThenGet(doc, p, v);
    } else {
      LeavesApart(p, q);
      PutElsewhere(doc, p, q, v);
    }
  }

  /** What the document says at a leaf path, once the calls before `n` are made. */
  ghost predicate HoldsAt(doc: Json, env: LegacyEnv, n: nat, q: Path)
  {
    GetByPath(doc, q) ==
      if Owner(q).Some? && Place(Owner(q).value) < n then MigratedJson(Owner(q).value, env) else Undefined
  }

  /** The document says exactly what the first `n` calls carried over. */
  ghost predicate Holds(doc: Json, env: LegacyEnv, n: nat)
  {
    doc.Obj? && forall q | Leaf(q) :: HoldsAt(doc, env, n, q)
  }

  lemma StepHoldsAt(doc: Json, env: LegacyEnv, k: Key, n: nat, q: Path)
    requires Place(k) == n < MIGRATED_COUNT && Leaf(q) && HoldsAt(doc, env, n, q) && MigrationPath(k) != []
    ensures HoldsAt(SetPath(doc, MigrationPath(k), MigratedJson(k, env)), env, n + 1, q)
  {
    MigratedNotBlank(k, env);
    SetAt(doc, k, MigratedJson(k, env), q);
    if Owner(q).Some? && Place(Owner(q).value) == n { PlacesDiffer(Owner(q).value, k); }
  }

  /** One more call. */
  lemma StepHolds(doc: Json, env: LegacyEnv, k: Key, n: nat, path: Path, v: Json)
    requires Holds(doc, env, n) && Place(k) == n < MIGRATED_COUNT && path != [] && path == MigrationPath(k)
    requires v == MigratedJson(k, env) || (Blank(v) && MigratedJson(k, env) == Undefined)
    ensures Holds(SetPath(doc, path, v), env, n + 1)
  {
    var r := SetPath(doc, path, MigratedJson(k, env));
    assert SetPath(doc, path, v) == r;
    forall q | Leaf(q) ensures HoldsAt(r, env, n + 1, q) {
      StepHoldsAt(doc, env, k, n, q);
    }
  }

  // ---------------------------------------------------------------------------
  // The calls, in order
  // ---------------------------------------------------------------------------

  lemma TextStep(doc: Json, env: LegacyEnv, k: Key, n: nat, path: Path)
    requires Holds(doc, env, n) && Place(k) == n < MIGRATED_COUNT && path != [] && path == MigrationPath(k)
    requires FieldOf(k).kind == TextKind
    ensures Holds(SetPath(doc, path, EnvJson(env, k)), env, n + 1)
  {
    StepHolds(doc, env, k, n, path, EnvJson(env, k));
  }

  lemma ModeStep(doc: Json, env: LegacyEnv, n: nat)
    requires Holds(doc, env, n) && Place(USE_CADDY) == n
    ensures Holds(SetPath(doc, [Proxy, Mode], ModeSetting(env)), env, n + 1)
  {
    StepHolds(doc, env, USE_CADDY, n, [Proxy, Mode], ModeSetting(env));
  }

  lemma FlagStep(doc: Json, env: LegacyEnv, k: Key, n: nat, path: Path)
    requires Holds(doc, env, n) && Place(k) == n < MIGRATED_COUNT && path != [] && path == MigrationPath(k)
    requires FieldOf(k).kind == BooleanKind && k != USE_CADDY
    ensures Holds(SetPath(doc, path, FlagSetting(env, k)), env, n + 1)
  {
    StepHolds(doc, env, k, n, path, FlagSetting(env, k));
  }

  lemma NumberStep(doc: Json, env: LegacyEnv, k: Key, n: nat, path: Path)
    requires Holds(doc, env, n) && Place(k) == n < MIGRATED_COUNT && path != [] && path == MigrationPath(k)
    requires FieldOf(k).kind == IntegerKind
    ensures Holds(SetPath(doc, path, NumberSetting(env, k)), env, n + 1)
  {
    StepHolds(doc, env, k, n, path, NumberSetting(env, k));
  }

  lemma ItemsStep(doc: Json, env: LegacyEnv, k: Key, n: nat, path: Path)
    requires Holds(doc, env, n) && Place(k) == n < MIGRATED_COUNT && path != [] && path == MigrationPath(k)
    requires FieldOf(k).kind == ListKind
    ensures Holds(SetPath(doc, path, ItemsSetting(env, k)), env, n + 1)
  {
    StepHolds(doc, env, k, n, path, ItemsSetting(env, k));
  }

  lemma EmptyHolds(env: LegacyEnv)
    ensures Holds(Nothing(), env, 0)
  {
    forall q | Leaf(q) ensures HoldsAt(Nothing(), env, 0, q) {
      NothingAt(q);
    }
  }

  /** The operator document written from a legacy environment says exactly what each key carried over. */
  method MigrateLegacyEnv(env: LegacyEnv) returns (out: Json)
    ensures Holds(out, env, MIGRATED_COUNT)
  {
    out := Obj(map[]);
    EmptyHolds(env);
    out := MigrateSite(out, env);
    out := MigrateDatabase(out, env);
    out := MigrateProxy(out, env);
    out := MigrateTrust(out, env);
    out := MigrateMailServer(out, env);
    out := MigrateSender(out, env);
  }

  method MigrateSite(before: Json, env: LegacyEnv) returns (out: Json)
    requires Holds(before, env, 0)
    ensures Holds(out, env, 3)
  {
    TextStep(before, env, DOMAIN, 0, [Domain]);
    out := SetPath(before, [Domain], EnvJson(env, DOMAIN));
    TextStep(out, env, ADMIN_EMAIL, 1, [AdminEmail]);
    out := SetPath(out, [AdminEmail], EnvJson(env, ADMIN_EMAIL));
    TextStep(out, env, TZ, 2, [Timezone]);
    out := SetPath(out, [Timezone], EnvJson(env, TZ));
  }

  method MigrateDatabase(before: Json, env: LegacyEnv) returns (out: Json)
    requires Holds(before, env, 3)
    ensures Holds(out, env, 7)
  {
    TextStep(before, env, MONGO_USER, 3, [Database, User]);
    out := SetPath(before, [Database, User], EnvJson(env, MONGO_USER));
    TextStep(out, env, MONGO_PASS, 4, [Database, Password]);
    out := SetPath(out, [Database, Password], EnvJson(env, MONGO_PASS));
    TextStep(out, env, MONGODB_DB, 5, [Database, Name]);
    out := SetPath(out, [Database, Name], EnvJson(env, MONGODB_DB));
    TextStep(out, env, JWT_SECRET, 6, [Api, JwtSecret]);
    out := SetPath(out, [Api, JwtSecret], EnvJson(env, JWT_SECRET));
  }

  method MigrateProxy(before: Json, env: LegacyEnv) returns (out: Json)
    requires Holds(before, env, 7)
    ensures Holds(out, env, 10)
  {
    ModeStep(before, env, 7);
    out := SetPath(before, [Proxy, Mode], ModeSetting(env));
    NumberStep(out, env, API_PORT, 8, [Proxy, ApiPort]);
    out := SetPath(out, [Proxy, ApiPort], NumberSetting(env, API_PORT));
    FlagStep(out, env, TRUST_PROXY, 9, [Proxy, TrustProxy]);
    out := SetPath(out, [Proxy, TrustProxy], FlagSetting(env, TRUST_PROXY));
  }

  method MigrateTrust(before: Json, env: LegacyEnv) returns (out: Json)
    requires Holds(before, env, 10)
    ensures Holds(out, env, 13)
  {
    FlagStep(before, env, TRUST_CLOUDFLARE, 10, [Proxy, TrustCloudflare]);
    out := SetPath(before, [Proxy, TrustCloudflare], FlagSetting(env, TRUST_CLOUDFLARE));
    ItemsStep(out, env, TRUSTED_PROXIES, 11, [Proxy, TrustedProxies]);
    out := SetPath(out, [Proxy, TrustedProxies], ItemsSetting(env, TRUSTED_PROXIES));
    ItemsStep(out, env, CORS_ORIGINS, 12, [Api, CorsOrigins]);
    out := SetPath(out, [Api, CorsOrigins], ItemsSetting(env, CORS_ORIGINS));
  }

  method MigrateMailServer(before: Json, env: LegacyEnv) returns (out: Json)
    requires Holds(before, env, 13)
    ensures Holds(out, env, 16)
  {
    TextStep(before, env, SMTP_HOST, 13, [Smtp, Host]);
    out := SetPath(before, [Smtp, Host], EnvJson(env, SMTP_HOST));
    NumberStep(out, env, SMTP_PORT, 14, [Smtp, Port]);
    out := SetPath(out, [Smtp, Port], NumberSetting(env, SMTP_PORT));
    TextStep(out, env, SMTP_USER, 15, [Smtp, User]);
    out := SetPath(out, [Smtp, User], EnvJson(env, SMTP_USER));
  }

  method MigrateSender(before: Json, env: LegacyEnv) returns (out: Json)
    requires Holds(before, env, 16)
    ensures Holds(out, env, 19)
  {
    TextStep(before, env, SMTP_PASS, 16, [Smtp, Pass]);
    out := SetPath(before, [Smtp, Pass], EnvJson(env, SMTP_PASS));
    TextStep(out, env, SMTP_FROM, 17, [Smtp, From]);
    out := SetPath(out, [Smtp, From], EnvJson(env, SMTP_FROM));
    ItemsStep(out, env, CSP_CONNECT_SRC, 18, [Csp, ConnectSrc]);
    out := SetPath(out, [Csp, ConnectSrc], ItemsSetting(env, CSP_CONNECT_SRC));
  }

  // ---------------------------------------------------------------------------
  // Migration keeps the deployment
  // ---------------------------------------------------------------------------

  function Nothing(): Json { Obj(map[]) }

  predicate CarriedOver(key: Key) { Place(key) < MIGRATED_COUNT && key != USE_CADDY }

  /** Every field reads what was carried over for it, and nothing else. */
  lemma MigrationAt(doc: Json, env: LegacyEnv, key: Key)
    requires FieldOf(key).path.Some? && Holds(doc, env, MIGRATED_COUNT)
    ensures GetByPath(doc, FieldOf(key).path.value) ==
      if CarriedOver(key) then MigratedJson(key, env) else Undefined
  {
    FieldLeaf(key);
    assert HoldsAt(doc, env, MIGRATED_COUNT, FieldOf(key).path.value);
    PlaceHasPath(key);
    if CarriedOver(key) {
      FieldOwner(key);
      OwnerOfPath(key);
    } else {
      FieldNotOwned(key);
    }
  }

  /** Two readings of one field: the same value, or an issue in both. */
  predicate SameReading(a: Coerced, b: Coerced)
  {
    (a.issues == [] <==> b.issues == []) && (a.issues == [] ==> a.value == b.value)
  }

  lemma {:induction false} TextItemsOfStrs(items: seq<string>)
    requires forall s | s in items :: s != ""
    ensures TextItems(StrItems(items)) == items
  {
    if items != [] {
      var init := items[..|items|-1];
      assert StrItems(items)[..|items|-1] == StrItems(init);
      assert items[|items|-1] in items && forall s | s in init :: s in items;
      TextItemsOfStrs(init);
      assert items == init + [items[|items|-1]];
    }
  }

  lemma {:induction false} TrimmedPartsFilled(parts: seq<string>)
    ensures forall s | s in TrimmedParts(parts) :: s != ""
  {
    if parts != [] { TrimmedPartsFilled(parts[..|parts|-1]); }
  }

  lemma FlagReadsAlike(key: Key, s: string, b: bool)
    requires FieldOf(key).kind == BooleanKind && s != "" && AsBoolean(Str(s)) == Some(b)
    ensures SameReading(Coerce(key, Bool(b)), Coerce(key, Str(s)))
  {
  }

  lemma NumberReadsAlike(key: Key, s: string)
    requires FieldOf(key).kind == IntegerKind && AsInteger(Str(s)).Some?
    ensures SameReading(Coerce(key, Num(AsInteger(Str(s)).value)), Coerce(key, Str(s)))
  {
    IntegerRange(key);
  }

  lemma ListReadsAlike(key: Key, s: string)
    requires FieldOf(key).kind == ListKind && s != ""
    ensures SameReading(Coerce(key, Arr(StrItems(TrimmedParts(Split(s, ","))))), Coerce(key, Str(s)))
  {
    TrimmedPartsFilled(Split(s, ","));
    TextItemsOfStrs(TrimmedParts(Split(s, ",")));
  }

  lemma EmptyParts()
    ensures TrimmedParts(Split("", ",")) == []
  {
    IndexOfAbsent("", ',');
    assert Split("", ",") == [""];
    assert Trim("") == "";
    assert [""][..0] == [];
  }

  lemma {:induction false} NotOneOf(words: seq<string>)
    requires forall i | 0 <= i < |words| :: words[i] != ""
    ensures !IsOneOf("", words)
  {
    if words != [] { NotOneOf(words[1..]); }
  }

  lemma EmptyIsNoFlag()
    ensures BooleanText("") == None
  {
    NotOneOf(TRUE_WORDS);
    NotOneOf(FALSE_WORDS);
  }

  lemma EmptyReadsNothing()
    ensures AsBoolean(Str("")) == None && AsInteger(Str("")) == None && AsStringArray(Str("")) == Some([])
  {
    assert Trim("") == "";
    EmptyIsNoFlag();
    EmptyParts();
  }

  /** A carried value reads like the text it was read from. */
  lemma CarriedReadsAlike(key: Key, env: LegacyEnv)
    requires key != USE_CADDY && MigratedJson(key, env) != Undefined
    ensures !Blank(EnvJson(env, key))
      && SameReading(Coerce(key, MigratedJson(key, env)), Coerce(key, EnvJson(env, key)))
  {
    EmptyReadsNothing();
    var raw := EnvJson(env, key);
    match FieldOf(key).kind
    case TextKind =>
    case BooleanKind => FlagReadsAlike(key, raw.s, AsBoolean(raw).value);
    case IntegerKind => NumberReadsAlike(key, raw.s);
    case ListKind => ListReadsAlike(key, raw.s);
  }

  /** Every integer field has a bound within the safe range. */
  lemma IntegerRange(key: Key)
    requires FieldOf(key).kind == IntegerKind
    ensures FieldOf(key).validation.Range? && FieldOf(key).validation.max < MAX_SAFE
  {
  }

  lemma NothingAt(q: Path)
    requires q != []
    ensures GetByPath(Nothing(), q) == Undefined
  {
    assert GetByPath(Undefined, q[1..]) == Undefined;
  }

  /** A field reads either the carried value or what it reads without the document. */
  lemma RawBothWays(doc: Json, key: Key, env: LegacyEnv)
    requires Holds(doc, env, MIGRATED_COUNT)
    ensures RawFor(key, Nothing(), env) == if Blank(EnvJson(env, key)) then Undefined else EnvJson(env, key)
    ensures RawFor(key, doc, env) ==
      if CarriedOver(key) && FieldOf(key).path.Some? && MigratedJson(key, env) != Undefined then MigratedJson(key, env)
      else RawFor(key, Nothing(), env)
  {
    if FieldOf(key).path.Some? {
      FieldLeaf(key);
      NothingAt(FieldOf(key).path.value);
      MigrationAt(doc, env, key);
      MigratedNotBlank(key, env);
    }
  }

  /** Two drafts agree: both sound with the same values, or both with issues. */
  predicate SameDraft(a: Draft, b: Draft)
  {
    (a.issues == [] <==> b.issues == []) && (a.issues == [] ==> a.values == b.values)
  }

  predicate Carries(key: Key, env: LegacyEnv)
  {
    CarriedOver(key) && FieldOf(key).path.Some? && MigratedJson(key, env) != Undefined
  }

  lemma CarriedRaw(doc: Json, key: Key, env: LegacyEnv, mode: ProxyMode)
    requires Holds(doc, env, MIGRATED_COUNT) && Carries(key, env)
    ensures FieldRaw(key, doc, env, mode) == MigratedJson(key, env)
    ensures FieldRaw(key, Nothing(), env, mode) == EnvJson(env, key)
  {
    RawBothWays(doc, key, env);
    CarriedReadsAlike(key, env);
  }

  lemma OtherRaw(doc: Json, key: Key, env: LegacyEnv, mode: ProxyMode)
    requires Holds(doc, env, MIGRATED_COUNT) && !Carries(key, env)
    ensures FieldRaw(key, doc, env, mode) == FieldRaw(key, Nothing(), env, mode)
  {
    RawBothWays(doc, key, env);
  }

  lemma SameRawAgrees(key: Key, raw: Json, a: Draft, b: Draft)
    requires SameDraft(a, b)
    ensures SameDraft(ResolveRaw(key, raw, a), ResolveRaw(key, raw, b))
  {
  }

  lemma FieldAgrees(doc: Json, key: Key, env: LegacyEnv, mode: ProxyMode, a: Draft, b: Draft)
    requires SameDraft(a, b) && Holds(doc, env, MIGRATED_COUNT)
    ensures SameDraft(ResolveField(key, doc, env, mode, a), ResolveField(key, Nothing(), env, mode, b))
  {
    if Carries(key, env) {
      CarriedRaw(doc, key, env, mode);
      CarriedReadsAlike(key, env);
      ReadingAgrees(key, MigratedJson(key, env), EnvJson(env, key), a, b);
    } else {
      OtherRaw(doc, key, env, mode);
      SameRawAgrees(key, FieldRaw(key, Nothing(), env, mode), a, b);
    }
  }

  lemma ReadingAgrees(key: Key, x: Json, y: Json, a: Draft, b: Draft)
    requires SameDraft(a, b) && SameReading(Coerce(key, x), Coerce(key, y))
    ensures SameDraft(Added(key, x, a), Added(key, y, b))
  {
    NoneHasIssue(key, x);
    NoneHasIssue(key, y);
  }

  lemma NoneHasIssue(key: Key, x: Json)
    ensures Coerce(key, x).value.None? && !Blank(x) ==> Coerce(key, x).issues != []
  {
  }

  lemma {:induction false} FieldsAgree(doc: Json, keys: seq<Key>, env: LegacyEnv, mode: ProxyMode)
    requires Holds(doc, env, MIGRATED_COUNT)
    ensures SameDraft(ResolveFields(keys, doc, env, mode), ResolveFields(keys, Nothing(), env, mode))
  {
    if keys != [] {
      FieldsAgree(doc, keys[..|keys|-1], env, mode);
      FieldAgrees(doc, keys[|keys|-1], env, mode,
                  ResolveFields(keys[..|keys|-1], doc, env, mode),
                  ResolveFields(keys[..|keys|-1], Nothing(), env, mode));
    }
  }

  /** The mode the legacy flag asks for. */
  function LegacyMode(env: LegacyEnv): ProxyMode
  {
    var b := AsBoolean(EnvJson(env, USE_CADDY));
    if b.Some? then ModeOf(b.value) else CaddyMode
  }

  lemma ModeText(v: Json, b: bool)
    requires v == Str(if b then "caddy" else "direct")
    ensures AsString(v).Some? && Lower(Trim(AsString(v).value)) == if b then "caddy" else "direct"
  {
    assert Trimmed("caddy") && Trimmed("direct");
    assert Lower("caddy") == "caddy" && Lower("direct") == "direct";
  }

  lemma ModeByText(doc: Json, env: LegacyEnv, b: bool)
    requires GetByPath(doc, [Proxy, Mode]) == Str(if b then "caddy" else "direct")
    ensures ResolveMode(doc, env) == ModeOf(b)
  {
    ModeText(GetByPath(doc, [Proxy, Mode]), b);
    assert |"caddy"| != |"direct"|;
  }

  lemma ModeByFlag(doc: Json, env: LegacyEnv)
    requires GetByPath(doc, [Proxy, Mode]) == Undefined && GetByPath(doc, [Proxy, Caddy]) == Undefined
    ensures ResolveMode(doc, env) == LegacyMode(env)
  {
    assert |""| != |"caddy"| && |""| != |"direct"|;
  }

  lemma ModeJson(env: LegacyEnv, b: Option<bool>)
    requires AsBoolean(EnvJson(env, USE_CADDY)) == b
    ensures MigratedJson(USE_CADDY, env) == if b.Some? then Str(if b.value then "caddy" else "direct") else Undefined
  {
    assert FieldOf(USE_CADDY).kind == BooleanKind;
    assert MigratedJson(USE_CADDY, env) == ModeSetting(env);
  }

  lemma ModeReads(doc: Json, env: LegacyEnv)
    requires Holds(doc, env, MIGRATED_COUNT)
    ensures GetByPath(doc, [Proxy, Mode]) == MigratedJson(USE_CADDY, env)
  {
    assert Owner([Proxy, Mode]) == Some(USE_CADDY);
    assert HoldsAt(doc, env, MIGRATED_COUNT, [Proxy, Mode]);
  }

  lemma CaddyReads(doc: Json, env: LegacyEnv)
    requires Holds(doc, env, MIGRATED_COUNT)
    ensures GetByPath(doc, [Proxy, Caddy]) == Undefined
  {
    assert Owner([Proxy, Caddy]) == None;
    assert HoldsAt(doc, env, MIGRATED_COUNT, [Proxy, Caddy]);
  }

  lemma MigratedMode(doc: Json, env: LegacyEnv)
    requires Holds(doc, env, MIGRATED_COUNT)
    ensures ResolveMode(doc, env) == LegacyMode(env)
  {
    ModeReads(doc, env);
    CaddyReads(doc, env);
    var b := AsBoolean(EnvJson(env, USE_CADDY));
    ModeJson(env, b);
    if b.Some? {
      ModeByText(doc, env, b.value);
    } else {
      ModeByFlag(doc, env);
    }
  }

  lemma ModeAgrees(doc: Json, env: LegacyEnv)
    requires Holds(doc, env, MIGRATED_COUNT)
    ensures ResolveMode(doc, env) == ResolveMode(Nothing(), env)
  {
    NothingAt([Proxy, Mode]);
    NothingAt([Proxy, Caddy]);
    ModeByFlag(Nothing(), env);
    MigratedMode(doc, env);
  }

  lemma HostAgrees(doc: Json, env: LegacyEnv)
    requires Holds(doc, env, MIGRATED_COUNT)
    ensures GetByPath(doc, [Database, Host]) == GetByPath(Nothing(), [Database, Host])
  {
    NothingAt([Database, Host]);
    assert HoldsAt(doc, env, MIGRATED_COUNT, [Database, Host]);
  }

  lemma IssuesAgree(a: Draft, b: Draft)
    requires SameDraft(a, b)
    ensures AllIssues(a) == [] <==> AllIssues(b) == []
  {
  }

  /**
   Migration preserves meaning: with a document that says what the environment carries over, the
   resolution succeeds exactly when it does from the environment alone, and then it is the same.
   */
  lemma MigrationPreservesResolution(doc: Json, env: LegacyEnv, encode: string -> string)
    requires Holds(doc, env, MIGRATED_COUNT)
    ensures var with, without := Resolution(doc, env, encode), Resolution(Nothing(), env, encode);
      (with.Ok? <==> without.Ok?) && (with.Ok? ==> with == without)
  {
    ModeAgrees(doc, env);
    HostAgrees(doc, env);
    var mode := ResolveMode(Nothing(), env);
    FieldsAgree(doc, CONFIG_FIELDS, env, mode);
    var a := ResolveFields(CONFIG_FIELDS, doc, env, mode);
    var b := ResolveFields(CONFIG_FIELDS, Nothing(), env, mode);
    IssuesAgree(a, b);
    if AllIssues(a) == [] {
      assert MongoUri(a.values, doc, encode) == MongoUri(a.values, Nothing(), encode);
    }
  }

  // ---------------------------------------------------------------------------
  // Rendering a deployment
  // ---------------------------------------------------------------------------

  datatype RenderError = NoConfiguration | Invalid(issues: seq<Issue>)

  function Outcome(r: Result<Resolved, seq<Issue>>): Result<Resolved, RenderError>
  {
    match r
    case Ok(value) => Ok(value)
    case Err(issues) => Err(Invalid(issues))
  }

  function EnvOrNone(legacy: Option<LegacyEnv>): LegacyEnv { if legacy.Some? then legacy.value else map[] }

  /** Both fail, or both succeed with the same deployment. */
  predicate SameDeployment<E, F>(a: Result<Resolved, E>, b: Result<Resolved, F>)
  {
    (a.Ok? <==> b.Ok?) && (a.Ok? ==> a.value == b.value)
  }

  /**
   Resolves an operator document, or else the legacy environment migrated to one. The first
   rendering from the environment and every later one from the document it wrote give the
   deployment that the environment alone gives.
   */
  method RenderDeployment(
    operator: Option<Json>, legacy: Option<LegacyEnv>, writeOperator: bool, encode: string -> string)
    returns (r: Result<Resolved, RenderError>, written: Option<Json>)
    ensures operator.None? && legacy.None? <==> r == Err(NoConfiguration)
    ensures operator.Some? ==> r == Outcome(Resolution(operator.value, EnvOrNone(legacy), encode))
    ensures operator.None? && legacy.Some? ==> SameDeployment(r, Resolution(Nothing(), legacy.value, encode))
    ensures written.Some? <==> operator.None? && legacy.Some? && writeOperator
    ensures written.Some? ==> Holds(written.value, legacy.value, MIGRATED_COUNT)
    ensures written.Some? ==>
      SameDeployment(Resolution(written.value, legacy.value, encode), Resolution(Nothing(), legacy.value, encode))
  {
    written := None;
    var document;
    if operator.Some? {
      document := operator.value;
    } else if legacy.Some? {
      document := MigrateLegacyEnv(legacy.value);
      MigrationPreservesResolution(document, legacy.value, encode);
      if writeOperator { written := Some(document); }
    } else {
      return Err(NoConfiguration), None;
    }
    var resolved := ResolveConfig(document, EnvOrNone(legacy), encode);
    r := Outcome(resolved);
  }
}
