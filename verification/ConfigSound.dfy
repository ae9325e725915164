/** What a successful resolution guarantees, and which keys each rendered environment holds. */
module ConfigSound {
  import opened Options
  import opened ConfigFields
  import opened ConfigResolve
  import opened ConfigReading

  /** The value fits its field's kind and bounds. */
  predicate Fits(key: Key, v: Value)
  {
    && InBounds(key, v)
    && match FieldOf(key).kind
       case IntegerKind => v.IntV?
       case BooleanKind => v.BoolV? || (key == USE_CADDY && v == StrV("y"))
       case ListKind => v.ListV?
       case TextKind => v.StrV?
  }

  ghost predicate AllFit(values: map<Key, Value>)
  {
    forall k | k in values :: Fits(k, values[k])
  }

  lemma ChoiceDefault()
    ensures InBounds(NODE_ENV, StrV("production"))
  {
    assert ["development", "test", "production"][2] == "production";
  }

  lemma NameDefault()
    ensures InBounds(MONGODB_DB, StrV("tokenpanel"))
  {
    assert forall c | c in "tokenpanel" :: 'a' <= c <= 'z';
  }

  /** Every default fits its own field. */
  lemma DefaultsFit(key: Key)
    requires FieldOf(key).default.Some?
    ensures Fits(key, FieldOf(key).default.value)
  {
    if key == NODE_ENV { ChoiceDefault(); }
    if key == MONGODB_DB { NameDefault(); }
  }

  lemma CoercedFits(key: Key, raw: Json)
    requires Coerce(key, raw).value.Some? && Coerce(key, raw).issues == []
    requires var v := Coerce(key, raw).value.value; v.StrV? ==> TextIssues(key, v.s) == []
    ensures Fits(key, Coerce(key, raw).value.value)
  {
    match Coerce(key, raw).value.value
    case StrV(s) => TextBounds(key, s);
    case IntV(n) => NumberBounds(key, n);
    case _ => FlagsAndListsFree(key);
  }

  lemma FlagsAndListsFree(key: Key)
    ensures FieldOf(key).kind == BooleanKind || FieldOf(key).kind == ListKind ==> FieldOf(key).validation.Anything?
  {
  }

  lemma PutFits(values: map<Key, Value>, key: Key, v: Value)
    requires AllFit(values) && Fits(key, v)
    ensures AllFit(values[key := v])
  {
  }

  lemma AddedFits(key: Key, raw: Json, d: Draft)
    requires AllFit(d.values) && Added(key, raw, d).issues == []
    ensures AllFit(Added(key, raw, d).values)
  {
    var c := Coerce(key, raw);
    if c.value.Some? {
      CoercedFits(key, raw);
      PutFits(d.values, key, c.value.value);
    }
  }

  lemma AddedIssues(key: Key, raw: Json, d: Draft)
    ensures Added(key, raw, d).issues == [] ==> d.issues == []
  {
  }

  lemma RawFits(key: Key, raw: Json, d: Draft)
    requires d.issues == [] ==> AllFit(d.values)
    ensures ResolveRaw(key, raw, d).issues == [] ==> AllFit(ResolveRaw(key, raw, d).values)
  {
    if raw != Undefined {
      AddedIssues(key, raw, d);
      if Added(key, raw, d).issues == [] { AddedFits(key, raw, d); }
    } else if FieldOf(key).default.Some? && d.issues == [] {
      DefaultsFit(key);
      PutFits(d.values, key, FieldOf(key).default.value);
    }
  }

  lemma {:induction false} FieldsFit(keys: seq<Key>, operator: Json, env: LegacyEnv, mode: ProxyMode)
    ensures ResolveFields(keys, operator, env, mode).issues == [] ==>
      AllFit(ResolveFields(keys, operator, env, mode).values)
  {
    if keys != [] {
      FieldsFit(keys[..|keys|-1], operator, env, mode);
      var last := keys[|keys|-1];
      RawFits(last, FieldRaw(last, operator, env, mode), ResolveFields(keys[..|keys|-1], operator, env, mode));
    }
  }

  lemma {:induction false} NoneRequired(values: map<Key, Value>, keys: seq<Key>, k: Key)
    requires RequiredIssues(values, keys) == [] && k in keys
    ensures !FieldMissing(values, k)
  {
    if k != keys[|keys|-1] {
      assert k in keys[..|keys|-1];
      NoneRequired(values, keys[..|keys|-1], k);
    }
  }

  predicate DerivedUri(k: Key) { k == MONGO_USER_URI || k == MONGO_PASS_URI || k == MONGODB_URI }

  /** Completing adds the URIs and the proxy flag, and leaves every other value alone. */
  lemma CompletedAt(values: map<Key, Value>, operator: Json, mode: ProxyMode, encode: string -> string, k: Key)
    requires !DerivedUri(k) && k != USE_CADDY
    ensures var full := Completed(values, operator, mode, encode);
      (k in full <==> k in values) && (k in full ==> full[k] == values[k])
  {
  }

  lemma RequiredHeld(values: map<Key, Value>, k: Key)
    requires AllFit(values) && RequiredIssues(values, REQUIRED) == [] && k in REQUIRED
    ensures k in values && values[k].StrV? && values[k].s != ""
  {
    NoneRequired(values, REQUIRED, k);
    RequiredText(k);
    assert Fits(k, values[k]);
  }

  lemma RequiredText(k: Key)
    requires k in REQUIRED
    ensures FieldOf(k).kind == TextKind
  {
  }

  /**
   A resolved configuration has every required field, non-empty, every value within its field's
   bounds, and a JWT secret that is long enough unless weak ones are allowed.
   */
  lemma ResolvedIsSound(input: Json, env: LegacyEnv, encode: string -> string, k: Key)
    requires Resolution(input, env, encode).Ok?
    ensures var values := Resolution(input, env, encode).value.values;
      && (k in REQUIRED ==> k in values && values[k].StrV? && values[k].s != "")
      && (k in values && !DerivedUri(k) ==> Fits(k, values[k]))
      && (k == JWT_SECRET ==> |values[k].s| >= MIN_JWT_SECRET_LEN || AllowsWeak(values))
  {
    var operator := OperatorOf(input);
    var mode := ResolveMode(operator, env);
    var d := ResolveFields(CONFIG_FIELDS, operator, env, mode);
    FieldsFit(CONFIG_FIELDS, operator, env, mode);
    CompletedSound(d.values, operator, mode, encode, k);
    assert REQUIRED[4] == JWT_SECRET;
  }

  lemma CompletedSound(values: map<Key, Value>, operator: Json, mode: ProxyMode, encode: string -> string, k: Key)
    requires AllFit(values) && RequiredIssues(values, REQUIRED) == [] && SecretIssues(values) == []
    ensures var full := Completed(values, operator, mode, encode);
      && (k in REQUIRED ==> k in full && full[k].StrV? && full[k].s != "")
      && (k in full && !DerivedUri(k) ==> Fits(k, full[k]))
      && (k == JWT_SECRET && k in REQUIRED ==> |full[k].s| >= MIN_JWT_SECRET_LEN || AllowsWeak(full))
  {
    if k in REQUIRED { RequiredHeld(values, k); }
    if !DerivedUri(k) && k != USE_CADDY { CompletedAt(values, operator, mode, encode, k); }
    CompletedAt(values, operator, mode, encode, ALLOW_WEAK_JWT_SECRET);
    if k in REQUIRED { RequiredPlain(k); }
  }

  lemma RequiredPlain(k: Key)
    requires k in REQUIRED
    ensures !DerivedUri(k) && k != USE_CADDY
  {
  }

  /** A rendered environment holds exactly the serialized values of the fields in its scopes. */
  lemma {:induction false} RenderedAt(keys: seq<Key>, values: map<Key, Value>, scopes: set<Scope>, k: Key)
    ensures k in Rendered(keys, values, scopes) <==> k in keys && k in values && FieldOf(k).scope in scopes
    ensures k in Rendered(keys, values, scopes) ==> Rendered(keys, values, scopes)[k] == Serialize(k, values[k])
  {
    if keys != [] {
      var init, last := keys[..|keys|-1], keys[|keys|-1];
      RenderedAt(init, values, scopes, k);
      assert k in keys <==> k in init || k == last;
    }
  }

  /**
   The API environment and the compose variables are the full environment cut down to their
   scopes, so a field of deploy scope never reaches the API, nor one of API scope the compose file.
   */
  lemma ScopesSplit(values: map<Key, Value>, mode: ProxyMode, k: Key)
    ensures var r := RenderAll(values, mode);
      && (k in r.apiEnv <==> k in r.env && FieldOf(k).scope != DeployScope)
      && (k in r.apiEnv ==> r.apiEnv[k] == r.env[k])
      && (k != USE_CADDY ==> (k in r.composeVars <==> k in r.env && FieldOf(k).scope != ApiScope))
      && (k != USE_CADDY && k in r.composeVars ==> r.composeVars[k] == r.env[k])
  {
    RenderedAt(CONFIG_FIELDS, values, ALL_SCOPES, k);
    RenderedAt(CONFIG_FIELDS, values, API_SCOPES, k);
    RenderedAt(CONFIG_FIELDS, values, COMPOSE_SCOPES, k);
  }
}
