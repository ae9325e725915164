/**
 What resolving does with each field: where its value comes from, when resolving succeeds, what the
 connection text is, and that the printed environment reads back as the resolved values.
 */
module ConfigLaws {
  import opened Options
  import opened JsText
  import opened ConfigFields
  import opened ConfigResolve
  import opened ConfigReading
  import opened ConfigSound
  import ConfigMigration
  import Decimal

  // ---------------------------------------------------------------------------
  // Where a value comes from
  // ---------------------------------------------------------------------------

  predicate Given(raw: Json) { raw != Undefined && raw != Null && raw != Str("") }

  /** What is said for a field: by the document, or else by the environment; trust of a proxy follows the mode. */
  function Said(key: Key, doc: Json, env: LegacyEnv, mode: ProxyMode): Json
  {
    var there := if FieldOf(key).path.Some? then GetByPath(doc, FieldOf(key).path.value) else Undefined;
    if Given(there) then there
    else if key in env && env[key] != "" then Str(env[key])
    else if key == TRUST_PROXY then Bool(mode.CaddyMode?)
    else Undefined
  }

  lemma SaidIsRaw(key: Key, doc: Json, env: LegacyEnv, mode: ProxyMode)
    ensures FieldRaw(key, doc, env, mode) == Said(key, doc, env, mode)
    ensures Said(key, doc, env, mode) == Undefined || Given(Said(key, doc, env, mode))
  {
  }

  ghost predicate Readable(key: Key, raw: Json)
  {
    exists v :: Says(FieldOf(key).kind, raw, v)
  }

  /** Nothing is said, or something that the field allows. */
  ghost predicate Acceptable(key: Key, raw: Json)
  {
    raw == Undefined || exists v :: Says(FieldOf(key).kind, raw, v) && InBounds(key, v)
  }

  lemma SaysOne(kind: Kind, raw: Json, v: Value, w: Value)
    requires Says(kind, raw, v) && Says(kind, raw, w)
    ensures v == w
  {
  }

  lemma UnreadableHasIssue(key: Key, raw: Json)
    requires Given(raw) && Coerce(key, raw).value.None?
    ensures Coerce(key, raw).issues != [] && !Readable(key, raw)
  {
    if v :| Says(FieldOf(key).kind, raw, v) {
      CoercedIsSaid(key, raw, v);
    }
  }

  /** A value raises no issue exactly when it is within the bounds. */
  lemma ValueBounds(key: Key, raw: Json, v: Value)
    requires Given(raw) && Coerce(key, raw).value == Some(v)
    ensures Coerce(key, raw).issues == [] && (v.StrV? ==> TextIssues(key, v.s) == []) <==> InBounds(key, v)
  {
    match v
    case StrV(s) => TextValueBounds(key, raw, s);
    case IntV(n) => NumberValueBounds(key, raw, n);
    case _ => OtherValueBounds(key, raw, v);
  }

  lemma OtherValueBounds(key: Key, raw: Json, v: Value)
    requires Given(raw) && Coerce(key, raw).value == Some(v) && (v.BoolV? || v.ListV?)
    ensures Coerce(key, raw).issues == [] && InBounds(key, v)
  {
    CoercedByKind(key, raw);
    FlagsAndListsFree(key);
  }

  lemma TextValueBounds(key: Key, raw: Json, s: string)
    requires Given(raw) && Coerce(key, raw).value == Some(StrV(s))
    ensures Coerce(key, raw).issues == [] && (TextIssues(key, s) == [] <==> InBounds(key, StrV(s)))
  {
    TextBounds(key, s);
  }

  lemma NumberValueBounds(key: Key, raw: Json, n: int)
    requires Given(raw) && Coerce(key, raw).value == Some(IntV(n))
    ensures Coerce(key, raw).issues == [] <==> InBounds(key, IntV(n))
  {
    NumberBounds(key, n);
  }

  lemma AddedAccepts(key: Key, raw: Json, d: Draft)
    requires Given(raw)
    ensures Added(key, raw, d).issues == [] <==> d.issues == [] && Acceptable(key, raw)
  {
    var c := Coerce(key, raw);
    if c.value.None? {
      UnreadableHasIssue(key, raw);
    } else {
      CoercedIsSaid(key, raw, c.value.value);
      ValueBounds(key, raw, c.value.value);
      forall v | Says(FieldOf(key).kind, raw, v) ensures v == c.value.value {
        SaysOne(FieldOf(key).kind, raw, v, c.value.value);
      }
    }
  }

  lemma RawAccepts(key: Key, raw: Json, d: Draft)
    requires raw == Undefined || Given(raw)
    ensures ResolveRaw(key, raw, d).issues == [] <==> d.issues == [] && Acceptable(key, raw)
  {
    if raw != Undefined { AddedAccepts(key, raw, d); }
  }

  ghost predicate FieldOk(key: Key, raw: Json) { !FieldOf(key).derived ==> Acceptable(key, raw) }

  lemma StepAccepts(key: Key, raw: Json, d: Draft, after: Draft)
    requires raw == Undefined || Given(raw)
    requires after == if FieldOf(key).derived then d else ResolveRaw(key, raw, d)
    ensures after.issues == [] <==> d.issues == [] && FieldOk(key, raw)
  {
    RawAccepts(key, raw, d);
  }

  lemma FieldStep(key: Key, doc: Json, env: LegacyEnv, mode: ProxyMode, d: Draft, raw: Json)
    requires raw == Said(key, doc, env, mode)
    ensures ResolveField(key, doc, env, mode, d) == if FieldOf(key).derived then d else ResolveRaw(key, raw, d)
    ensures raw == Undefined || Given(raw)
  {
    SaidIsRaw(key, doc, env, mode);
  }

  lemma FieldAccepts(key: Key, doc: Json, env: LegacyEnv, mode: ProxyMode, d: Draft, raw: Json)
    requires raw == Said(key, doc, env, mode)
    ensures ResolveField(key, doc, env, mode, d).issues == [] <==> d.issues == [] && FieldOk(key, raw)
  {
    FieldStep(key, doc, env, mode, d, raw);
    StepAccepts(key, raw, d, ResolveField(key, doc, env, mode, d));
  }

  lemma {:induction false} FieldsAccept(keys: seq<Key>, doc: Json, env: LegacyEnv, mode: ProxyMode)
    ensures ResolveFields(keys, doc, env, mode).issues == [] <==>
      forall k | k in keys :: FieldOk(k, Said(k, doc, env, mode))
  {
    if keys != [] {
      var init, last := keys[..|keys|-1], keys[|keys|-1];
      FieldsAccept(init, doc, env, mode);
      FieldAccepts(last, doc, env, mode, ResolveFields(init, doc, env, mode), Said(last, doc, env, mode));
      assert forall k :: k in keys <==> k in init || k == last;
    }
  }

  /** The values hold what is said for the field, its default where nothing is, and nothing where that is none. */
  ghost predicate FromSource(values: map<Key, Value>, key: Key, raw: Json)
  {
    if raw == Undefined then
      (key in values <==> FieldOf(key).default.Some?) && (key in values ==> values[key] == FieldOf(key).default.value)
    else (key in values <==> Readable(key, raw)) && (key in values ==> Says(FieldOf(key).kind, raw, values[key]))
  }

  lemma AddedFrom(key: Key, raw: Json, d: Draft)
    requires Given(raw) && (key in d.values ==> FromSource(d.values, key, raw))
    ensures FromSource(Added(key, raw, d).values, key, raw)
  {
    var c := Coerce(key, raw);
    if c.value.None? {
      UnreadableHasIssue(key, raw);
    } else {
      CoercedIsSaid(key, raw, c.value.value);
    }
  }

  lemma RawFrom(key: Key, raw: Json, d: Draft)
    requires raw == Undefined || Given(raw)
    requires key in d.values ==> FromSource(d.values, key, raw)
    ensures FromSource(ResolveRaw(key, raw, d).values, key, raw)
  {
    if raw != Undefined { AddedFrom(key, raw, d); }
  }

  lemma RawElsewhere(key: Key, raw: Json, d: Draft, k: Key)
    requires k != key
    ensures k in ResolveRaw(key, raw, d).values <==> k in d.values
    ensures k in d.values ==> ResolveRaw(key, raw, d).values[k] == d.values[k]
  {
  }

  /** A field that is not derived is from its source, and a derived one is absent, among those read so far. */
  ghost predicate Placed(values: map<Key, Value>, keys: seq<Key>, k: Key, raw: Json)
  {
    if k in keys && !FieldOf(k).derived then FromSource(values, k, raw) else k !in values
  }

  lemma PlacedHere(init: seq<Key>, d: Draft, after: Draft, k: Key, raw: Json)
    requires Placed(d.values, init, k, raw) && (raw == Undefined || Given(raw))
    requires after == if FieldOf(k).derived then d else ResolveRaw(k, raw, d)
    ensures Placed(after.values, init + [k], k, raw)
  {
    assert k in init + [k];
    if !FieldOf(k).derived { RawFrom(k, raw, d); }
  }

  lemma PlacedStays(values: map<Key, Value>, after: map<Key, Value>, init: seq<Key>, last: Key, k: Key, raw: Json)
    requires Placed(values, init, k, raw) && last != k
    requires (k in after <==> k in values) && (k in values ==> after[k] == values[k])
    ensures Placed(after, init + [last], k, raw)
  {
    assert k in init + [last] <==> k in init;
  }

  lemma StepElsewhere(last: Key, d: Draft, after: Draft, k: Key, lastRaw: Json)
    requires k != last && after == if FieldOf(last).derived then d else ResolveRaw(last, lastRaw, d)
    ensures (k in after.values <==> k in d.values) && (k in d.values ==> after.values[k] == d.values[k])
  {
    if !FieldOf(last).derived { RawElsewhere(last, lastRaw, d, k); }
  }

  lemma PlacedNext(init: seq<Key>, last: Key, d: Draft, after: Draft, k: Key, raw: Json, lastRaw: Json)
    requires Placed(d.values, init, k, raw) && (last == k ==> lastRaw == raw)
    requires lastRaw == Undefined || Given(lastRaw)
    requires after == if FieldOf(last).derived then d else ResolveRaw(last, lastRaw, d)
    ensures Placed(after.values, init + [last], k, raw)
  {
    if last == k {
      PlacedHere(init, d, after, k, raw);
    } else {
      StepElsewhere(last, d, after, k, lastRaw);
      PlacedStays(d.values, after.values, init, last, k, raw);
    }
  }

  lemma NonePlaced(k: Key, raw: Json)
    ensures Placed(map[], [], k, raw)
  {
  }

  lemma {:induction false} ReadValuesFrom(
    keys: seq<Key>, doc: Json, env: LegacyEnv, mode: ProxyMode, k: Key, raw: Json)
    requires raw == Said(k, doc, env, mode)
    ensures Placed(ResolveFields(keys, doc, env, mode).values, keys, k, raw)
  {
    if keys == [] {
      NonePlaced(k, raw);
    } else {
      var init, last := keys[..|keys|-1], keys[|keys|-1];
      var d, lastRaw := ResolveFields(init, doc, env, mode), Said(last, doc, env, mode);
      assert keys == init + [last];
      ReadValuesFrom(init, doc, env, mode, k, raw);
      FieldStep(last, doc, env, mode, d, lastRaw);
      PlacedNext(init, last, d, ResolveField(last, doc, env, mode, d), k, raw, lastRaw);
    }
  }

  lemma ValuesFrom(keys: seq<Key>, doc: Json, env: LegacyEnv, mode: ProxyMode, k: Key)
    ensures Placed(ResolveFields(keys, doc, env, mode).values, keys, k, Said(k, doc, env, mode))
  {
    ReadValuesFrom(keys, doc, env, mode, k, Said(k, doc, env, mode));
  }

  lemma EveryField(k: Key)
    ensures k in CONFIG_FIELDS
  {
    match k
    case DOMAIN => assert CONFIG_FIELDS[0] == k;
    case ADMIN_EMAIL => assert CONFIG_FIELDS[1] == k;
    case MONGO_USER => assert CONFIG_FIELDS[2] == k;
    case MONGO_PASS => assert CONFIG_FIELDS[3] == k;
    case MONGO_USER_URI => assert CONFIG_FIELDS[4] == k;
    case MONGO_PASS_URI => assert CONFIG_FIELDS[5] == k;
    case MONGODB_DB => assert CONFIG_FIELDS[6] == k;
    case MONGODB_URI => assert CONFIG_FIELDS[7] == k;
    case USE_CADDY => assert CONFIG_FIELDS[8] == k;
    case API_PORT => assert CONFIG_FIELDS[9] == k;
    case TZ => assert CONFIG_FIELDS[10] == k;
    case NODE_ENV => assert CONFIG_FIELDS[11] == k;
    case PORT => assert CONFIG_FIELDS[12] == k;
    case JWT_SECRET => assert CONFIG_FIELDS[13] == k;
    case ALLOW_WEAK_JWT_SECRET => assert CONFIG_FIELDS[14] == k;
    case CORS_ORIGINS => assert CONFIG_FIELDS[15] == k;
    case TRUST_PROXY => assert CONFIG_FIELDS[16] == k;
    case TRUST_CLOUDFLARE => assert CONFIG_FIELDS[17] == k;
    case TRUSTED_PROXIES => assert CONFIG_FIELDS[18] == k;
    case SMTP_HOST => assert CONFIG_FIELDS[19] == k;
    case SMTP_PORT => assert CONFIG_FIELDS[20] == k;
    case SMTP_USER => assert CONFIG_FIELDS[21] == k;
    case SMTP_PASS => assert CONFIG_FIELDS[22] == k;
    case SMTP_FROM => assert CONFIG_FIELDS[23] == k;
    case CSP_CONNECT_SRC => assert CONFIG_FIELDS[24] == k;
    case SETTLEMENT_RECONCILE_INTERVAL_MS => assert CONFIG_FIELDS[25] == k;
    case SETTLEMENT_RECONCILE_BATCH_SIZE => assert CONFIG_FIELDS[26] == k;
    case SETTLEMENT_RECONCILE_INITIAL_DELAY_MS => assert CONFIG_FIELDS[27] == k;
    case PROVIDER_HTTP_TIMEOUT_MS => assert CONFIG_FIELDS[28] == k;
    case CATALOG_CACHE_TTL_MS => assert CONFIG_FIELDS[29] == k;
    case WORKER_CONCURRENCY => assert CONFIG_FIELDS[30] == k;
    case SHUTDOWN_TIMEOUT_MS => assert CONFIG_FIELDS[31] == k;
  }

  lemma CompletedFrom(values: map<Key, Value>, full: map<Key, Value>, k: Key, raw: Json)
    requires FromSource(values, k, raw)
    requires (k in full <==> k in values) && (k in full ==> full[k] == values[k])
    ensures FromSource(full, k, raw)
  {
  }

  lemma FieldFromSource(doc: Json, env: LegacyEnv, mode: ProxyMode, encode: string -> string, k: Key, raw: Json)
    requires !FieldOf(k).derived && k != USE_CADDY && raw == Said(k, doc, env, mode)
    ensures FromSource(Completed(ResolveFields(CONFIG_FIELDS, doc, env, mode).values, doc, mode, encode), k, raw)
  {
    EveryField(k);
    ReadValuesFrom(CONFIG_FIELDS, doc, env, mode, k, raw);
    KeptFromSource(ResolveFields(CONFIG_FIELDS, doc, env, mode).values, doc, mode, encode, k, raw);
  }

  lemma UriDerived(k: Key)
    ensures DerivedUri(k) ==> FieldOf(k).derived
  {
  }

  lemma KeptFromSource(
    values: map<Key, Value>, doc: Json, mode: ProxyMode, encode: string -> string, k: Key, raw: Json)
    requires !FieldOf(k).derived && k != USE_CADDY && FromSource(values, k, raw)
    ensures FromSource(Completed(values, doc, mode, encode), k, raw)
  {
    UriDerived(k);
    CompletedAt(values, doc, mode, encode, k);
    CompletedFrom(values, Completed(values, doc, mode, encode), k, raw);
  }

  /** What a successful resolution holds. */
  lemma ResolvedParts(input: Json, env: LegacyEnv, encode: string -> string, doc: Json, mode: ProxyMode)
    requires Resolution(input, env, encode).Ok? && doc == OperatorOf(input) && mode == ResolveMode(doc, env)
    ensures var r := Resolution(input, env, encode).value;
      var values := ResolveFields(CONFIG_FIELDS, doc, env, mode).values;
      r.mode == mode && r.values == Completed(values, doc, mode, encode) && r == RenderAll(r.values, mode)
  {
  }

  /**
   Every value of a resolved configuration is what is said for its field, the document before the
   environment, or else the default.
   */
  lemma ValuesFromSources(input: Json, env: LegacyEnv, encode: string -> string, k: Key)
    requires Resolution(input, env, encode).Ok? && !FieldOf(k).derived && k != USE_CADDY
    ensures var r := Resolution(input, env, encode).value;
      FromSource(r.values, k, Said(k, OperatorOf(input), env, r.mode))
  {
    var doc := OperatorOf(input);
    var mode := ResolveMode(doc, env);
    FieldFromSource(doc, env, mode, encode, k, Said(k, doc, env, mode));
    ResolvedParts(input, env, encode, doc, mode);
  }

  // ---------------------------------------------------------------------------
  // When resolving succeeds
  // ---------------------------------------------------------------------------

  lemma {:induction false} NoneMissing(values: map<Key, Value>, keys: seq<Key>)
    ensures RequiredIssues(values, keys) == [] <==> forall k | k in keys :: !FieldMissing(values, k)
  {
    if keys != [] {
      var init, last := keys[..|keys|-1], keys[|keys|-1];
      NoneMissing(values, init);
      assert forall k :: k in keys <==> k in init || k == last;
    }
  }

  predicate Needed(k: Key) { k in {DOMAIN, ADMIN_EMAIL, MONGO_USER, MONGO_PASS, JWT_SECRET} }

  lemma NeededAreRequired(k: Key)
    ensures k in REQUIRED <==> Needed(k)
  {
    assert REQUIRED[0] == MONGO_USER && REQUIRED[1] == MONGO_PASS && REQUIRED[2] == DOMAIN;
    assert REQUIRED[3] == ADMIN_EMAIL && REQUIRED[4] == JWT_SECRET;
  }

  lemma GivenTextFilled(raw: Json, s: string)
    requires Given(raw) && SaysText(raw, s)
    ensures s != ""
  {
    if raw.Num? { IntTextFilled(raw.n); }
  }

  /** A needed field is there exactly when something is said for it. */
  lemma MissingExactlyWhen(values: map<Key, Value>, k: Key, raw: Json)
    requires Needed(k) && FromSource(values, k, raw) && Acceptable(k, raw) && (raw == Undefined || Given(raw))
    ensures FieldMissing(values, k) <==> raw == Undefined
  {
    if raw != Undefined { GivenTextFilled(raw, values[k].s); }
  }

  /** The secret is long enough, or weak ones are allowed. */
  ghost predicate SecretHolds(secret: Json, weak: Json)
  {
    SaysFlag(weak, true) || forall s | SaysText(secret, s) :: |s| >= 32
  }

  lemma SecretExactlyWhen(values: map<Key, Value>, secret: Json, weak: Json)
    requires FromSource(values, JWT_SECRET, secret) && FromSource(values, ALLOW_WEAK_JWT_SECRET, weak)
    requires Given(secret) && (weak == Undefined || Given(weak))
    ensures SecretIssues(values) == [] <==> SecretHolds(secret, weak)
  {
    WeakExactlyWhen(values, weak);
    if JWT_SECRET in values {
      var s := values[JWT_SECRET].s;
      GivenTextFilled(secret, s);
      assert SaysText(secret, s);
      forall t | SaysText(secret, t) ensures t == s {
        SaysOne(TextKind, secret, StrV(t), StrV(s));
      }
    } else {
      forall t | SaysText(secret, t) ensures false {
        assert Says(FieldOf(JWT_SECRET).kind, secret, StrV(t));
      }
    }
  }

  lemma WeakExactlyWhen(values: map<Key, Value>, weak: Json)
    requires FromSource(values, ALLOW_WEAK_JWT_SECRET, weak)
    ensures AllowsWeak(values) <==> SaysFlag(weak, true)
  {
    if SaysFlag(weak, true) {
      assert Says(FieldOf(ALLOW_WEAK_JWT_SECRET).kind, weak, BoolV(true));
      SaysOne(BooleanKind, weak, values[ALLOW_WEAK_JWT_SECRET], BoolV(true));
    }
  }

  /**
   Resolving succeeds exactly when every field that is said anything is said something readable
   within its bounds, the five needed ones are said, and the secret has 32 characters or weak ones
   are allowed.
   */
  lemma ResolvesExactlyWhen(input: Json, env: LegacyEnv, encode: string -> string)
    ensures var doc := OperatorOf(input);
      var mode := ResolveMode(doc, env);
      Resolution(input, env, encode).Ok? <==>
        && (forall k | !FieldOf(k).derived :: Acceptable(k, Said(k, doc, env, mode)))
        && (forall k | Needed(k) :: Said(k, doc, env, mode) != Undefined)
        && SecretHolds(Said(JWT_SECRET, doc, env, mode), Said(ALLOW_WEAK_JWT_SECRET, doc, env, mode))
  {
    var doc := OperatorOf(input);
    var mode := ResolveMode(doc, env);
    var d := ResolveFields(CONFIG_FIELDS, doc, env, mode);
    AllAccepted(doc, env, mode);
    if d.issues == [] {
      RequiredExactlyWhen(doc, env, mode, d.values);
      if forall k | Needed(k) :: Said(k, doc, env, mode) != Undefined {
        SecretFrom(doc, env, mode, d.values, Said(JWT_SECRET, doc, env, mode),
                   Said(ALLOW_WEAK_JWT_SECRET, doc, env, mode));
      }
    }
  }

  lemma AllAccepted(doc: Json, env: LegacyEnv, mode: ProxyMode)
    ensures ResolveFields(CONFIG_FIELDS, doc, env, mode).issues == [] <==>
      forall k | !FieldOf(k).derived :: Acceptable(k, Said(k, doc, env, mode))
  {
    FieldsAccept(CONFIG_FIELDS, doc, env, mode);
    forall k ensures k in CONFIG_FIELDS { EveryField(k); }
  }

  lemma RequiredExactlyWhen(doc: Json, env: LegacyEnv, mode: ProxyMode, values: map<Key, Value>)
    requires values == ResolveFields(CONFIG_FIELDS, doc, env, mode).values
    requires forall k | !FieldOf(k).derived :: Acceptable(k, Said(k, doc, env, mode))
    ensures RequiredIssues(values, REQUIRED) == [] <==> forall k | Needed(k) :: Said(k, doc, env, mode) != Undefined
  {
    NoneMissing(values, REQUIRED);
    forall k ensures k in REQUIRED <==> Needed(k) { NeededAreRequired(k); }
    forall k | Needed(k) ensures FieldMissing(values, k) <==> Said(k, doc, env, mode) == Undefined {
      NeededFrom(doc, env, mode, values, k, Said(k, doc, env, mode));
    }
  }

  lemma ReadFrom(doc: Json, env: LegacyEnv, mode: ProxyMode, values: map<Key, Value>, k: Key, raw: Json)
    requires values == ResolveFields(CONFIG_FIELDS, doc, env, mode).values
    requires !FieldOf(k).derived && raw == Said(k, doc, env, mode)
    ensures FromSource(values, k, raw) && (raw == Undefined || Given(raw))
  {
    SaidIsRaw(k, doc, env, mode);
    EveryField(k);
    ValuesFrom(CONFIG_FIELDS, doc, env, mode, k);
  }

  lemma NeededFrom(doc: Json, env: LegacyEnv, mode: ProxyMode, values: map<Key, Value>, k: Key, raw: Json)
    requires values == ResolveFields(CONFIG_FIELDS, doc, env, mode).values
    requires Needed(k) && raw == Said(k, doc, env, mode) && Acceptable(k, raw)
    ensures FieldMissing(values, k) <==> raw == Undefined
  {
    ReadFrom(doc, env, mode, values, k, raw);
    MissingExactlyWhen(values, k, raw);
  }

  lemma SecretFrom(doc: Json, env: LegacyEnv, mode: ProxyMode, values: map<Key, Value>, secret: Json, weak: Json)
    requires values == ResolveFields(CONFIG_FIELDS, doc, env, mode).values && secret != Undefined
    requires secret == Said(JWT_SECRET, doc, env, mode) && weak == Said(ALLOW_WEAK_JWT_SECRET, doc, env, mode)
    ensures SecretIssues(values) == [] <==> SecretHolds(secret, weak)
  {
    ReadFrom(doc, env, mode, values, JWT_SECRET, secret);
    ReadFrom(doc, env, mode, values, ALLOW_WEAK_JWT_SECRET, weak);
    SecretExactlyWhen(values, secret, weak);
  }

  // ---------------------------------------------------------------------------
  // The proxy mode and the connection text
  // ---------------------------------------------------------------------------

  ghost predicate SaysMode(doc: Json, word: string)
  {
    exists s :: SaysText(GetByPath(doc, [Proxy, Mode]), s) && Lower(Trim(s)) == word
  }

  /** A readable mode decides, or else the document's flag, or else the environment's; with none it is Caddy. */
  lemma ModePrecedence(doc: Json, env: LegacyEnv)
    ensures var flag, legacy := GetByPath(doc, [Proxy, Caddy]), EnvJson(env, USE_CADDY);
      ResolveMode(doc, env).DirectMode? <==>
        SaysMode(doc, "direct") ||
        (!SaysMode(doc, "caddy") &&
         (SaysFlag(flag, false) || (!SaysFlag(flag, true) && SaysFlag(legacy, false))))
  {
    var raw, flag, legacy := GetByPath(doc, [Proxy, Mode]), GetByPath(doc, [Proxy, Caddy]), EnvJson(env, USE_CADDY);
    ModeSaid(raw);
    FlagSaid(flag, true);
    FlagSaid(flag, false);
    FlagSaid(legacy, true);
    FlagSaid(legacy, false);
    assert |"caddy"| != |"direct"|;
  }

  lemma ModeSaid(raw: Json)
    ensures forall s :: SaysText(raw, s) <==> AsString(raw) == Some(s)
  {
    forall s ensures SaysText(raw, s) <==> AsString(raw) == Some(s) { TextSaid(raw, s); }
  }

  /** The host that the document names, or the default one. */
  ghost predicate HostIs(doc: Json, host: string)
  {
    var raw := GetByPath(doc, [Database, Host]);
    SaysText(raw, host) || (host == "mongo" && forall s :: !SaysText(raw, s))
  }

  lemma HostOf(doc: Json)
    ensures HostIs(doc, OrElse(AsString(GetByPath(doc, [Database, Host])), "mongo"))
  {
    ModeSaid(GetByPath(doc, [Database, Host]));
  }

  function ConnectionText(user: string, pass: string, host: string, name: string, encode: string -> string): string
  {
    "mongodb://" + encode(user) + ":" + encode(pass) + "@" + host + ":27017/" + name +
    "?authSource=admin&directConnection=true"
  }

  lemma TextThere(values: map<Key, Value>, k: Key)
    requires AllFit(values) && FieldOf(k).kind == TextKind && k in values
    ensures values[k].StrV? && StoredText(values, k) == Some(values[k].s)
  {
    assert Fits(k, values[k]);
  }

  lemma UriOfParts(values: map<Key, Value>, doc: Json, mode: ProxyMode, encode: string -> string) returns (host: string)
    requires AllFit(values) && MONGO_USER in values && MONGO_PASS in values && MONGODB_DB in values
    requires MONGODB_URI !in values
    ensures HostIs(doc, host) && values[MONGO_USER].StrV? && values[MONGO_PASS].StrV? && values[MONGODB_DB].StrV?
    ensures Completed(values, doc, mode, encode)[MONGODB_URI] ==
      StrV(ConnectionText(values[MONGO_USER].s, values[MONGO_PASS].s, host, values[MONGODB_DB].s, encode))
  {
    TextThere(values, MONGO_USER);
    TextThere(values, MONGO_PASS);
    TextThere(values, MONGODB_DB);
    HostOf(doc);
    host := OrElse(AsString(GetByPath(doc, [Database, Host])), "mongo");
  }

  /**
   The connection text is always built from the user, the password, the host and the name, and the
   proxy flag is the mode.
   */
  lemma ConnectionBuilt(input: Json, env: LegacyEnv, encode: string -> string) returns (host: string)
    requires Resolution(input, env, encode).Ok?
    ensures var r := Resolution(input, env, encode).value;
      && HostIs(OperatorOf(input), host)
      && MONGO_USER in r.values && r.values[MONGO_USER].StrV?
      && MONGO_PASS in r.values && r.values[MONGO_PASS].StrV?
      && MONGODB_DB in r.values && r.values[MONGODB_DB].StrV?
      && MONGODB_URI in r.values && r.values[MONGODB_URI] == StrV(ConnectionText(
           r.values[MONGO_USER].s, r.values[MONGO_PASS].s, host, r.values[MONGODB_DB].s, encode))
      && USE_CADDY in r.values && r.values[USE_CADDY] == BoolV(r.mode.CaddyMode?)
  {
    var doc := OperatorOf(input);
    var mode := ResolveMode(doc, env);
    var values := ResolveFields(CONFIG_FIELDS, doc, env, mode).values;
    ResolvedParts(input, env, encode, doc, mode);
    PartsThere(input, env, encode, doc, mode, values);
    host := UriOfParts(values, doc, mode, encode);
    CompletedAt(values, doc, mode, encode, MONGO_USER);
    CompletedAt(values, doc, mode, encode, MONGO_PASS);
    CompletedAt(values, doc, mode, encode, MONGODB_DB);
  }

  lemma PartsThere(
    input: Json, env: LegacyEnv, encode: string -> string, doc: Json, mode: ProxyMode, values: map<Key, Value>)
    requires Resolution(input, env, encode).Ok? && doc == OperatorOf(input) && mode == ResolveMode(doc, env)
    requires values == ResolveFields(CONFIG_FIELDS, doc, env, mode).values
    ensures AllFit(values) && MONGO_USER in values && MONGO_PASS in values && MONGODB_DB in values
    ensures MONGODB_URI !in values
  {
    NoIssues(input, env, encode, doc, mode, values);
    NeededThere(values, MONGO_USER);
    NeededThere(values, MONGO_PASS);
    NameThere(doc, env, mode, values);
    UriNotRead(doc, env, mode);
  }

  lemma NoIssues(
    input: Json, env: LegacyEnv, encode: string -> string, doc: Json, mode: ProxyMode, values: map<Key, Value>)
    requires Resolution(input, env, encode).Ok? && doc == OperatorOf(input) && mode == ResolveMode(doc, env)
    requires values == ResolveFields(CONFIG_FIELDS, doc, env, mode).values
    ensures AllFit(values) && RequiredIssues(values, REQUIRED) == []
    ensures ResolveFields(CONFIG_FIELDS, doc, env, mode).issues == []
  {
    FieldsFit(CONFIG_FIELDS, doc, env, mode);
  }

  lemma NeededThere(values: map<Key, Value>, k: Key)
    requires AllFit(values) && RequiredIssues(values, REQUIRED) == [] && Needed(k)
    ensures k in values
  {
    NeededAreRequired(k);
    RequiredHeld(values, k);
  }

  lemma UriNotRead(doc: Json, env: LegacyEnv, mode: ProxyMode)
    ensures MONGODB_URI !in ResolveFields(CONFIG_FIELDS, doc, env, mode).values
  {
    UriDerived(MONGODB_URI);
    DerivedNotRead(CONFIG_FIELDS, doc, env, mode, MONGODB_URI);
  }

  lemma DerivedNotRead(keys: seq<Key>, doc: Json, env: LegacyEnv, mode: ProxyMode, k: Key)
    requires FieldOf(k).derived
    ensures k !in ResolveFields(keys, doc, env, mode).values
  {
    ValuesFrom(keys, doc, env, mode, k);
  }

  lemma NameThere(doc: Json, env: LegacyEnv, mode: ProxyMode, values: map<Key, Value>)
    requires values == ResolveFields(CONFIG_FIELDS, doc, env, mode).values
    requires ResolveFields(CONFIG_FIELDS, doc, env, mode).issues == []
    ensures MONGODB_DB in values
  {
    AllAccepted(doc, env, mode);
    var raw := Said(MONGODB_DB, doc, env, mode);
    assert Acceptable(MONGODB_DB, raw);
    ReadFrom(doc, env, mode, values, MONGODB_DB, raw);
  }

  // ---------------------------------------------------------------------------
  // The connection text cannot be overridden
  // ---------------------------------------------------------------------------

  const URI_PATH: Path := [Database, Uri]

  /** The document with a connection text of its own. */
  function Overridden(doc: Json, v: Json): (r: Json)
    ensures r.Obj?
  {
    ConfigMigration.Put(doc, URI_PATH, v)
  }

  lemma PathsApart(p: Path)
    requires |p| > 0 && (p[0] != Database || (|p| > 1 && p[1] != Uri))
    ensures ConfigMigration.Apart(URI_PATH, p)
  {
    var i := if p[0] != Database then 0 else 1;
    assert URI_PATH[i] != p[i];
  }

  lemma OverrideUnseen(doc: Json, v: Json, p: Path)
    requires |p| > 0 && (p[0] != Database || (|p| > 1 && p[1] != Uri))
    ensures GetByPath(Overridden(doc, v), p) == GetByPath(doc, p)
  {
    PathsApart(p);
    ConfigMigration.PutElsewhere(doc, URI_PATH, p, v);
  }

  lemma FieldPathsElsewhere(k: Key)
    requires !FieldOf(k).derived && FieldOf(k).path.Some?
    ensures var p := FieldOf(k).path.value; |p| > 0 && (p[0] != Database || (|p| > 1 && p[1] != Uri))
  {
  }

  lemma SamePathSameRaw(k: Key, a: Json, b: Json, env: LegacyEnv, mode: ProxyMode)
    requires FieldOf(k).path.Some? ==> GetByPath(a, FieldOf(k).path.value) == GetByPath(b, FieldOf(k).path.value)
    ensures FieldRaw(k, a, env, mode) == FieldRaw(k, b, env, mode)
  {
  }

  lemma SameSaid(doc: Json, v: Json, env: LegacyEnv, mode: ProxyMode, k: Key)
    requires !FieldOf(k).derived
    ensures FieldRaw(k, Overridden(doc, v), env, mode) == FieldRaw(k, doc, env, mode)
  {
    if FieldOf(k).path.Some? {
      FieldPathsElsewhere(k);
      OverrideUnseen(doc, v, FieldOf(k).path.value);
    }
    SamePathSameRaw(k, Overridden(doc, v), doc, env, mode);
  }

  lemma {:induction false} SameFields(keys: seq<Key>, doc: Json, v: Json, env: LegacyEnv, mode: ProxyMode)
    ensures ResolveFields(keys, Overridden(doc, v), env, mode) == ResolveFields(keys, doc, env, mode)
  {
    if keys != [] {
      SameFields(keys[..|keys|-1], doc, v, env, mode);
      if !FieldOf(keys[|keys|-1]).derived { SameSaid(doc, v, env, mode, keys[|keys|-1]); }
    }
  }

  lemma SameMode(doc: Json, v: Json, env: LegacyEnv)
    ensures ResolveMode(Overridden(doc, v), env) == ResolveMode(doc, env)
    ensures GetByPath(Overridden(doc, v), [Database, Host]) == GetByPath(doc, [Database, Host])
  {
    OverrideUnseen(doc, v, [Proxy, Mode]);
    OverrideUnseen(doc, v, [Proxy, Caddy]);
    OverrideUnseen(doc, v, [Database, Host]);
  }

  /** The document's own connection text is never read: whatever it says, the resolution is the same. */
  lemma UriOverrideIgnored(doc: Json, v: Json, env: LegacyEnv, encode: string -> string)
    requires doc.Obj?
    ensures Resolution(Overridden(doc, v), env, encode) == Resolution(doc, env, encode)
  {
    SameMode(doc, v, env);
    SameFields(CONFIG_FIELDS, doc, v, env, ResolveMode(doc, env));
  }

  // ---------------------------------------------------------------------------
  // The printed environment reads back
  // ---------------------------------------------------------------------------

  /** An item that survives the comma-separated list. */
  predicate PlainItem(item: string) { item != "" && Trimmed(item) && ',' !in item }

  /** A text that says the value, where a text can. */
  predicate PrintedAs(key: Key, v: Value, text: string)
  {
    match v
    case StrV(s) => text == s
    case IntV(n) => n >= 0 && text == Decimal.IntText(n)
    case BoolV(b) => text == if key == USE_CADDY then (if b then "y" else "n") else (if b then "true" else "false")
    case ListV(items) => text == Join(items, ",")
  }

  lemma SerializedIsPrinted(key: Key, v: Value)
    requires Fits(key, v) && (key == USE_CADDY ==> v.BoolV?)
    ensures PrintedAs(key, v, Serialize(key, v))
  {
    if key == USE_CADDY {
    } else {
      NoYes(key, v);
    }
  }

  /** Only the proxy flag may hold a text, and only integers have a range, which is not negative. */
  lemma NoYes(key: Key, v: Value)
    requires Fits(key, v) && key != USE_CADDY
    ensures FieldOf(key).kind == BooleanKind ==> v.BoolV? && !FieldOf(key).yesNo
    ensures v.IntV? ==> v.n >= 0
  {
  }

  predicate AllPlain(items: seq<string>) { forall i | 0 <= i < |items| :: PlainItem(items[i]) }

  lemma {:induction false} PlainStay(items: seq<string>)
    requires AllPlain(items)
    ensures PartsThatSay(items) == items
  {
    if items != [] {
      assert PlainItem(items[0]) && forall i | 0 <= i < |items[1..]| :: PlainItem(items[1..][i]);
      PlainStay(items[1..]);
    }
  }

  lemma {:induction false} SaidArePlain(parts: seq<string>)
    requires forall p | p in parts :: ',' !in p
    ensures AllPlain(PartsThatSay(parts))
  {
    if parts != [] {
      assert parts[0] in parts && forall p | p in parts[1..] :: p in parts;
      TrimChars(parts[0]);
      SaidArePlain(parts[1..]);
    }
  }

  lemma SplitEmpty()
    ensures PartsThatSay(Split("", ",")) == []
  {
    ConfigMigration.EmptyParts();
    PartsSaid(Split("", ","));
  }

  /** A list reads back exactly when its items are plain. */
  lemma ListSaysExactlyWhen(items: seq<string>)
    ensures SaysItems(Str(Join(items, ",")), items) <==> AllPlain(items)
  {
    var text := Join(items, ",");
    assert "," == [','];
    if AllPlain(items) {
      if items == [] {
        SplitEmpty();
      } else {
        forall p | p in items ensures ',' !in p {
          var i :| 0 <= i < |items| && items[i] == p;
          assert PlainItem(items[i]);
        }
        SplitOfJoin(items, ',');
        PlainStay(items);
      }
    }
    SplitParts(text, ',');
    SaidArePlain(Split(text, ","));
  }

  lemma NumberSays(n: int)
    requires n >= 0
    ensures SaysNumber(Str(Decimal.IntText(n)), n)
  {
    Decimal.NatTextPlain(n);
    Decimal.NatTextValue(n);
    DigitsTrimmed(Decimal.IntText(n));
  }

  lemma DigitsTrimmed(ds: string)
    requires ds != "" && Decimal.AllDigits(ds)
    ensures Trim(ds) == ds
  {
    assert Decimal.IsDigit(ds[0]) && Decimal.IsDigit(ds[|ds|-1]);
  }

  lemma TrueSays()
    ensures SaysFlag(Str("true"), true) && SaysFlag(Str("y"), true)
  {
    assert Lower("true") == "true" && Lower("y") == "y";
  }

  lemma FalseSays()
    ensures SaysFlag(Str("false"), false) && SaysFlag(Str("n"), false)
  {
    assert Lower("false") == "false" && Lower("n") == "n";
  }

  lemma FlagSays(b: bool)
    ensures SaysFlag(Str(if b then "true" else "false"), b) && SaysFlag(Str(if b then "y" else "n"), b)
  {
    if b { TrueSays(); } else { FalseSays(); }
  }

  /** What the text of a value says, read as the environment text of its field. */
  lemma PrintedSays(key: Key, v: Value, text: string)
    requires Fits(key, v) && (key == USE_CADDY ==> v.BoolV?) && PrintedAs(key, v, text)
    ensures Says(FieldOf(key).kind, Str(text), v) <==> (v.ListV? ==> AllPlain(v.items))
  {
    match v
    case StrV(s) =>
    case IntV(n) => NumberSays(n);
    case BoolV(b) => FlagSays(b);
    case ListV(items) => ListSaysExactlyWhen(items);
  }

  lemma UriFits(k: Key, v: Value)
    requires DerivedUri(k) && v.StrV?
    ensures Fits(k, v) && k != USE_CADDY
  {
  }

  lemma CompletedKinds(values: map<Key, Value>, doc: Json, mode: ProxyMode, encode: string -> string, k: Key)
    ensures var full := Completed(values, doc, mode, encode);
      && (DerivedUri(k) ==> k in full && full[k].StrV?)
      && (k == USE_CADDY ==> k in full && full[k].BoolV?)
  {
    var uri := StrV(MongoUri(values, doc, encode));
    var user, pass := OrElse(StoredText(values, MONGO_USER), ""), OrElse(StoredText(values, MONGO_PASS), "");
    FourKinds(values, StrV(encode(user)), StrV(encode(pass)), uri, BoolV(mode == CaddyMode), k);
  }

  lemma FourKinds(values: map<Key, Value>, user: Value, pass: Value, uri: Value, flag: Value, k: Key)
    requires user.StrV? && pass.StrV? && uri.StrV? && flag.BoolV?
    ensures var full := values[MONGO_USER_URI := user][MONGO_PASS_URI := pass][MONGODB_URI := uri][USE_CADDY := flag];
      && (DerivedUri(k) ==> k in full && full[k].StrV?)
      && (k == USE_CADDY ==> k in full && full[k].BoolV?)
  {
  }

  lemma ResolvedFits(input: Json, env: LegacyEnv, encode: string -> string, k: Key)
    requires Resolution(input, env, encode).Ok? && k in Resolution(input, env, encode).value.values
    ensures var v := Resolution(input, env, encode).value.values[k];
      Fits(k, v) && (k == USE_CADDY ==> v.BoolV?)
  {
    var doc := OperatorOf(input);
    var mode := ResolveMode(doc, env);
    ResolvedParts(input, env, encode, doc, mode);
    CompletedKinds(ResolveFields(CONFIG_FIELDS, doc, env, mode).values, doc, mode, encode, k);
    if DerivedUri(k) {
      UriFits(k, Resolution(input, env, encode).value.values[k]);
    } else {
      ResolvedIsSound(input, env, encode, k);
    }
  }

  /** The text prints the value, and says it where a text can. */
  predicate ReadsBack(key: Key, v: Value, text: string)
  {
    && PrintedAs(key, v, text)
    && (Says(FieldOf(key).kind, Str(text), v) <==> (v.ListV? ==> AllPlain(v.items)))
  }

  lemma SerializedReadsBack(key: Key, v: Value)
    requires Fits(key, v) && (key == USE_CADDY ==> v.BoolV?)
    ensures ReadsBack(key, v, Serialize(key, v))
  {
    SerializedIsPrinted(key, v);
    PrintedSays(key, v, Serialize(key, v));
  }

  lemma PrintedAll(input: Json, env: LegacyEnv, encode: string -> string, k: Key)
    requires Resolution(input, env, encode).Ok?
    ensures var r := Resolution(input, env, encode).value;
      (k in r.env <==> k in r.values) && (k in r.env ==> r.env[k] == Serialize(k, r.values[k]))
  {
    var doc := OperatorOf(input);
    ResolvedParts(input, env, encode, doc, ResolveMode(doc, env));
    RenderedAll(Resolution(input, env, encode).value.values, ResolveMode(doc, env), k);
  }

  lemma AnyScope(k: Key)
    ensures FieldOf(k).scope in ALL_SCOPES
  {
  }

  lemma RenderedAll(values: map<Key, Value>, mode: ProxyMode, k: Key)
    ensures var r := RenderAll(values, mode);
      (k in r.env <==> k in values) && (k in r.env ==> r.env[k] == Serialize(k, values[k]))
  {
    EveryField(k);
    AnyScope(k);
    RenderedAt(CONFIG_FIELDS, values, ALL_SCOPES, k);
  }

  /**
   The environment prints every resolved value, and the printed text, read as the environment text
   of its field, says that value again, except for a list with an item that is empty, padded or
   holds a comma.
   */
  lemma EnvReadsBack(input: Json, env: LegacyEnv, encode: string -> string, k: Key)
    requires Resolution(input, env, encode).Ok?
    ensures var r := Resolution(input, env, encode).value;
      (k in r.env <==> k in r.values) && (k in r.env ==> ReadsBack(k, r.values[k], r.env[k]))
  {
    PrintedAll(input, env, encode, k);
    var r := Resolution(input, env, encode).value;
    if k in r.values {
      ResolvedFits(input, env, encode, k);
      SerializedReadsBack(k, r.values[k]);
    }
  }

  /** The keys that the compose file sees, and those that it shares with the API. */
  predicate ForDeploy(k: Key)
  {
    k in {DOMAIN, ADMIN_EMAIL, MONGO_USER, MONGO_PASS, MONGO_USER_URI, MONGO_PASS_URI, USE_CADDY, API_PORT, TZ,
          SMTP_HOST, SMTP_PORT, SMTP_USER, SMTP_PASS, SMTP_FROM, CSP_CONNECT_SRC}
  }

  predicate ForBoth(k: Key) { k in {MONGODB_DB, TRUST_PROXY, TRUST_CLOUDFLARE, TRUSTED_PROXIES} }

  lemma ScopeOf(k: Key)
    ensures FieldOf(k).scope == if ForDeploy(k) then DeployScope else if ForBoth(k) then SharedScope else ApiScope
  {
  }

  /** The API never sees the credentials and addresses of the deployment, nor the compose file the API's secret. */
  lemma WhoSeesWhat(input: Json, env: LegacyEnv, encode: string -> string, k: Key)
    requires Resolution(input, env, encode).Ok?
    ensures var r := Resolution(input, env, encode).value;
      && (k in r.apiEnv <==> k in r.env && !ForDeploy(k)) && (k in r.apiEnv ==> r.apiEnv[k] == r.env[k])
      && (k in r.composeVars <==> k in r.env && (ForDeploy(k) || ForBoth(k)))
      && (k in r.composeVars ==> r.composeVars[k] == r.env[k])
  {
    var r := Resolution(input, env, encode).value;
    ScopeOf(k);
    ScopesSplit(r.values, r.mode, k);
    if k == USE_CADDY { ProxyFlagPrinted(input, env, encode); }
  }

  lemma ProxyFlagPrinted(input: Json, env: LegacyEnv, encode: string -> string)
    requires Resolution(input, env, encode).Ok?
    ensures var r := Resolution(input, env, encode).value;
      USE_CADDY in r.env && USE_CADDY in r.composeVars && r.composeVars[USE_CADDY] == r.env[USE_CADDY]
  {
    var host := ConnectionBuilt(input, env, encode);
    EnvReadsBack(input, env, encode, USE_CADDY);
  }

  // ---------------------------------------------------------------------------
  // What a migrated document says
  // ---------------------------------------------------------------------------

  /** The fields that a migration carries over, besides the proxy mode. */
  predicate Carried(k: Key)
  {
    k in {DOMAIN, ADMIN_EMAIL, TZ, MONGO_USER, MONGO_PASS, MONGODB_DB, JWT_SECRET, API_PORT, TRUST_PROXY,
          TRUST_CLOUDFLARE, TRUSTED_PROXIES, CORS_ORIGINS, SMTP_HOST, SMTP_PORT, SMTP_USER, SMTP_PASS, SMTP_FROM,
          CSP_CONNECT_SRC}
  }

  lemma CarriedPlace(k: Key)
    ensures ConfigMigration.CarriedOver(k) <==> Carried(k)
    ensures Carried(k) ==> FieldOf(k).path.Some?
  {
  }

  /** The value is said by the document as the environment says it; an empty list is not carried. */
  lemma JsonSays(k: Key, env: LegacyEnv, v: Value)
    requires Carried(k)
    requires InBounds(k, v)
    ensures Says(FieldOf(k).kind, ConfigMigration.MigratedJson(k, env), v) <==>
      k in env && env[k] != "" && Says(FieldOf(k).kind, Str(env[k]), v) && (v.ListV? ==> v.items != [])
  {
    EmptySays(v);
    match FieldOf(k).kind
    case TextKind =>
    case BooleanKind => FlagCarried(k, env, v);
    case IntegerKind => NumberCarried(k, env, v);
    case ListKind => ListCarried(k, env, v);
  }

  lemma EmptySays(v: Value)
    ensures !Says(BooleanKind, Str(""), v) && !Says(IntegerKind, Str(""), v)
    ensures Says(ListKind, Str(""), v) ==> v.items == []
  {
    assert Lower(Trim("")) == "";
    SplitEmpty();
  }

  lemma FlagCarried(k: Key, env: LegacyEnv, v: Value)
    requires Carried(k) && FieldOf(k).kind == BooleanKind
    ensures Says(BooleanKind, ConfigMigration.MigratedJson(k, env), v) <==> Says(BooleanKind, EnvJson(env, k), v)
  {
    FlagSaid(EnvJson(env, k), true);
    FlagSaid(EnvJson(env, k), false);
  }

  lemma NumberCarried(k: Key, env: LegacyEnv, v: Value)
    requires Carried(k) && FieldOf(k).kind == IntegerKind && InBounds(k, v)
    ensures Says(IntegerKind, ConfigMigration.MigratedJson(k, env), v) <==> Says(IntegerKind, EnvJson(env, k), v)
  {
    ConfigMigration.IntegerRange(k);
    if v.IntV? { NumberSaid(EnvJson(env, k), v.n); }
  }

  lemma ListCarried(k: Key, env: LegacyEnv, v: Value)
    requires Carried(k) && FieldOf(k).kind == ListKind
    ensures Says(ListKind, ConfigMigration.MigratedJson(k, env), v) <==>
      Says(ListKind, EnvJson(env, k), v) && v.items != []
  {
    var text, raw := EnvJson(env, k), ConfigMigration.MigratedJson(k, env);
    if v.ListV? {
      ItemsAreSaid(text, v.items);
      ItemsAreSaid(raw, v.items);
    }
    if text.Str? {
      var items := TrimmedParts(Split(text.s, ","));
      ConfigMigration.TrimmedPartsFilled(Split(text.s, ","));
      ConfigMigration.TextItemsOfStrs(items);
    }
  }

  /**
   The migrated document says for each field carried over exactly what the environment says, within
   the bounds of the field.
   */
  lemma MigratedSays(doc: Json, env: LegacyEnv, k: Key, v: Value)
    requires ConfigMigration.Holds(doc, env, ConfigMigration.MIGRATED_COUNT) && Carried(k) && InBounds(k, v)
    ensures FieldOf(k).path.Some?
    ensures Says(FieldOf(k).kind, GetByPath(doc, FieldOf(k).path.value), v) <==>
      k in env && env[k] != "" && Says(FieldOf(k).kind, Str(env[k]), v) && (v.ListV? ==> v.items != [])
  {
    CarriedPlace(k);
    ConfigMigration.MigrationAt(doc, env, k);
    JsonSays(k, env, v);
  }

  /** And its proxy mode is the environment's flag. */
  lemma MigratedModeSays(doc: Json, env: LegacyEnv, b: bool)
    requires ConfigMigration.Holds(doc, env, ConfigMigration.MIGRATED_COUNT)
    ensures SaysMode(doc, if b then "caddy" else "direct") <==> SaysFlag(EnvJson(env, USE_CADDY), b)
  {
    ConfigMigration.ModeReads(doc, env);
    var flag := AsBoolean(EnvJson(env, USE_CADDY));
    ConfigMigration.ModeJson(env, flag);
    FlagSaid(EnvJson(env, USE_CADDY), true);
    FlagSaid(EnvJson(env, USE_CADDY), false);
    if flag.Some? { ModeWordSays(doc, flag.value); }
  }

  lemma ModeWordSays(doc: Json, b: bool)
    requires GetByPath(doc, [Proxy, Mode]) == Str(if b then "caddy" else "direct")
    ensures SaysMode(doc, if b then "caddy" else "direct") && !SaysMode(doc, if b then "direct" else "caddy")
  {
    var word := if b then "caddy" else "direct";
    ConfigMigration.ModeText(GetByPath(doc, [Proxy, Mode]), b);
    assert SaysText(GetByPath(doc, [Proxy, Mode]), word);
    assert |"caddy"| != |"direct"|;
  }
}
