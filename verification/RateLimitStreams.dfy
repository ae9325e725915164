/**
 Rule stream identity: the stable key of the counter stream a rule would write to, the
 config-time duplicate check, and the run-time collapse to one rule per stream.
 */
module RateLimitStreams {
  import opened Options
  import opened CounterStore
  import opened JsMap
  import opened JsText
  import opened RateLimits
  import Coalescing
  import Decimal

  datatype StreamScope = CustomerStream | ModelStream

  function StreamScopeOf(s: Scope): StreamScope { if s == ModelScope then ModelStream else CustomerStream }

  function ScopeText(s: StreamScope): (t: string)
    ensures '\0' !in t
  {
    match s
    case CustomerStream => "customer"
    case ModelStream => "model"
  }

  function NormalTarget(rule: Rule): string
  {
    if StreamScopeOf(rule.scope) == CustomerStream then "" else Lower(Trim(OrEmpty(rule.scopeTarget)))
  }

  function RateLimitStreamKey(rule: Rule): string
  {
    DimensionText(StoredDimension(rule.dimension)) + "\0" + (Decimal.NatText(rule.windowSeconds) + "\0" +
      (ScopeText(StreamScopeOf(rule.scope)) + "\0" + NormalTarget(rule)))
  }

  /** Stream keys are equal exactly when normalised dimension, window, scope and target are. */
  lemma StreamKeyInjective(a: Rule, b: Rule)
    ensures RateLimitStreamKey(a) == RateLimitStreamKey(b) <==>
      && StoredDimension(a.dimension) == StoredDimension(b.dimension) && a.windowSeconds == b.windowSeconds
      && StreamScopeOf(a.scope) == StreamScopeOf(b.scope) && NormalTarget(a) == NormalTarget(b)
  {
    if RateLimitStreamKey(a) == RateLimitStreamKey(b) {
      var a2 := ScopeText(StreamScopeOf(a.scope)) + "\0" + NormalTarget(a);
      var b2 := ScopeText(StreamScopeOf(b.scope)) + "\0" + NormalTarget(b);
      var a1 := Decimal.NatText(a.windowSeconds) + "\0" + a2;
      var b1 := Decimal.NatText(b.windowSeconds) + "\0" + b2;
      var da, db := StoredDimension(a.dimension), StoredDimension(b.dimension);
      CutUnique(DimensionText(da), DimensionText(db), '\0', a1, b1);
      Coalescing.DimensionTextInjective(da, db);
      Coalescing.DigitsHaveNoNul(Decimal.NatText(a.windowSeconds));
      Coalescing.DigitsHaveNoNul(Decimal.NatText(b.windowSeconds));
      CutUnique(Decimal.NatText(a.windowSeconds), Decimal.NatText(b.windowSeconds), '\0', a2, b2);
      Decimal.NatTextInjective(a.windowSeconds, b.windowSeconds);
      CutUnique(ScopeText(StreamScopeOf(a.scope)), ScopeText(StreamScopeOf(b.scope)), '\0', NormalTarget(a),
        NormalTarget(b));
      assert |ScopeText(CustomerStream)| != |ScopeText(ModelStream)|;
    }
  }

  // ---------------------------------------------------------------------------
  // Collapse
  // ---------------------------------------------------------------------------

  function Actives(rules: seq<Rule>): (r: seq<Rule>)
    ensures forall o :: o in r <==> o in rules && o.active
  {
    if rules == [] then []
    else
      assert forall o :: o in rules <==> o in rules[..|rules|-1] || o == rules[|rules|-1];
      Actives(rules[..|rules|-1]) + (if rules[|rules|-1].active then [rules[|rules|-1]] else [])
  }

  function CollapseStep(m: JsMap<string, Rule>, r: Rule): JsMap<string, Rule>
  {
    var key := RateLimitStreamKey(r);
    var prev := m.Get(key);
    if r.active && (prev.None? || r.capValue < prev.value.capValue) then m.Set(key, r) else m
  }

  function CollapseMap(rules: seq<Rule>): (m: JsMap<string, Rule>)
    ensures m.Valid()
  {
    if rules == [] then Empty() else CollapseStep(CollapseMap(rules[..|rules|-1]), rules[|rules|-1])
  }

  function Collapsed(rules: seq<Rule>): seq<Rule>
  {
    CollapseMap(rules).Values()
  }

  lemma CollapseNext(rules: seq<Rule>, i: nat)
    requires i < |rules|
    ensures CollapseMap(rules[..i+1]) == CollapseStep(CollapseMap(rules[..i]), rules[i])
  {
    assert rules[..i+1][..i] == rules[..i];
  }

  method CollapseRulesByStream(rules: seq<Rule>) returns (out: seq<Rule>)
    ensures out == Collapsed(rules)
  {
    var byStream: JsMap<string, Rule> := Empty();
    for i := 0 to |rules|
      invariant byStream == CollapseMap(rules[..i])
    {
      CollapseNext(rules, i);
      var r := rules[i];
      if !r.active { continue; }
      var key := RateLimitStreamKey(r);
      var prev := byStream.Get(key);
      if prev.None? || r.capValue < prev.value.capValue { byStream := byStream.Set(key, r); }
    }
    assert rules[..|rules|] == rules;
    out := byStream.Values();
  }

  /** `r` is the strictest active rule of its stream, and the first of those. */
  predicate Strictest(rules: seq<Rule>, i: nat)
    requires i < |rules|
  {
    && rules[i].active
    && (forall j | 0 <= j < |rules| && rules[j].active
      && RateLimitStreamKey(rules[j]) == RateLimitStreamKey(rules[i]) ::
          if j < i then rules[i].capValue < rules[j].capValue else rules[i].capValue <= rules[j].capValue)
  }

  /** The map holds, for the stream `k`, the first strictest rule of the list. */
  ghost predicate KeepsStrictest(m: JsMap<string, Rule>, rules: seq<Rule>, k: string)
  {
    if k in m.at then
      RateLimitStreamKey(m.at[k]) == k && exists i :: 0 <= i < |rules| && rules[i] == m.at[k] && Strictest(rules, i)
    else
      forall j | 0 <= j < |rules| && rules[j].active :: RateLimitStreamKey(rules[j]) != k
  }

  lemma StillStrictest(init: seq<Rule>, i: nat, r: Rule)
    requires i < |init| && Strictest(init, i)
    requires !(r.active && RateLimitStreamKey(r) == RateLimitStreamKey(init[i]) && r.capValue < init[i].capValue)
    ensures Strictest(init + [r], i)
  {
    assert forall j | 0 <= j < |init| :: (init + [r])[j] == init[j];
  }

  lemma NewStrictest(init: seq<Rule>, i: nat, r: Rule)
    requires i < |init| && Strictest(init, i) && r.active
    requires RateLimitStreamKey(r) == RateLimitStreamKey(init[i]) && r.capValue < init[i].capValue
    ensures Strictest(init + [r], |init|)
  {
    assert forall j | 0 <= j < |init| :: (init + [r])[j] == init[j];
  }

  lemma FirstOfStream(init: seq<Rule>, r: Rule)
    requires r.active && forall j | 0 <= j < |init| && init[j].active ::
      RateLimitStreamKey(init[j]) != RateLimitStreamKey(r)
    ensures Strictest(init + [r], |init|)
  {
    assert forall j | 0 <= j < |init| :: (init + [r])[j] == init[j];
  }

  /** What a step leaves at each key. */
  lemma StepLeaves(m: JsMap<string, Rule>, r: Rule, k: string)
    ensures var s := CollapseStep(m, r);
      if r.active && RateLimitStreamKey(r) == k && (k !in m.at || r.capValue < m.at[k].capValue) then
        k in s.at && s.at[k] == r
      else (k in s.at <==> k in m.at) && (k in m.at ==> s.at[k] == m.at[k])
  {
  }

  lemma CollapseStepAt(m: JsMap<string, Rule>, init: seq<Rule>, r: Rule, k: string)
    requires KeepsStrictest(m, init, k)
    ensures KeepsStrictest(CollapseStep(m, r), init + [r], k)
  {
    StepLeaves(m, r, k);
    if k in m.at {
      var i :| 0 <= i < |init| && init[i] == m.at[k] && Strictest(init, i);
      if r.active && RateLimitStreamKey(r) == k && r.capValue < m.at[k].capValue {
        NewStrictest(init, i, r);
        assert (init + [r])[|init|] == r;
      } else {
        StillStrictest(init, i, r);
        assert (init + [r])[i] == init[i];
      }
    } else {
      if r.active && RateLimitStreamKey(r) == k { FirstOfStream(init, r); }
      assert (init + [r])[|init|] == r;
    }
  }

  lemma CollapseMapLast(init: seq<Rule>, r: Rule)
    ensures CollapseMap(init + [r]) == CollapseStep(CollapseMap(init), r)
  {
    assert (init + [r])[..|init|] == init;
  }

  lemma KeepsStrictestLast(init: seq<Rule>, r: Rule, k: string)
    requires KeepsStrictest(CollapseMap(init), init, k)
    ensures KeepsStrictest(CollapseMap(init + [r]), init + [r], k)
  {
    CollapseMapLast(init, r);
    CollapseStepAt(CollapseMap(init), init, r, k);
  }

  lemma KeepsNothing(k: string)
    ensures KeepsStrictest(CollapseMap([]), [], k)
  {
  }

  lemma {:induction false} CollapseKeepsAt(rules: seq<Rule>, k: string)
    ensures KeepsStrictest(CollapseMap(rules), rules, k)
  {
    if rules == [] {
      KeepsNothing(k);
    } else {
      var init, r := rules[..|rules|-1], rules[|rules|-1];
      assert rules == init + [r];
      CollapseKeepsAt(init, k);
      KeepsStrictestLast(init, r, k);
    }
  }

  /** One rule per stream survives: its strictest, and among equals the earliest. */
  lemma CollapsedKeepsStrictest(rules: seq<Rule>, i: nat)
    requires i < |rules| && rules[i].active
    ensures rules[i] in Collapsed(rules) <== Strictest(rules, i)
    ensures exists j ::
      && 0 <= j < |rules| && Strictest(rules, j) && RateLimitStreamKey(rules[j]) == RateLimitStreamKey(rules[i])
      && rules[j].capValue <= rules[i].capValue && rules[j] in Collapsed(rules)
  {
    var k := RateLimitStreamKey(rules[i]);
    CollapseKeepsAt(rules, k);
    var m := CollapseMap(rules);
    var j :| 0 <= j < |rules| && rules[j] == m.at[k] && Strictest(rules, j);
    assert k in m.order;
    var o :| 0 <= o < |m.order| && m.order[o] == k;
    assert Collapsed(rules)[o] == rules[j];
    if Strictest(rules, i) {
      assert j == i;
    }
  }

  lemma CollapsedFrom(rules: seq<Rule>, o: nat)
    requires o < |Collapsed(rules)|
    ensures RateLimitStreamKey(Collapsed(rules)[o]) == CollapseMap(rules).order[o]
    ensures Collapsed(rules)[o] in rules && Collapsed(rules)[o].active
  {
    var k := CollapseMap(rules).order[o];
    assert k in CollapseMap(rules).order;
    CollapseKeepsAt(rules, k);
  }

  // ---------------------------------------------------------------------------
  // The config-time check
  // ---------------------------------------------------------------------------

  datatype DuplicateStream = DuplicateStream(
    streamKey: string, firstIndex: nat, secondIndex: nat, dimension: Dimension, windowSeconds: Pos)

  /** Two active rules at these places share a stream. */
  predicate Clash(rules: seq<Rule>, i: nat, j: nat)
  {
    i < j < |rules| && rules[i].active && rules[j].active
      && RateLimitStreamKey(rules[i]) == RateLimitStreamKey(rules[j])
  }

  ghost predicate Unique(rules: seq<Rule>)
  {
    forall i: nat, j: nat :: !Clash(rules, i, j)
  }

  /** `seen` indexes the keys of the active rules before `i`, and no two of those clash. */
  ghost predicate SeenUpTo(rules: seq<Rule>, seen: map<string, nat>, i: nat)
  {
    Indexed(rules, seen, i) && forall a: nat, b: nat | Clash(rules, a, b) :: i <= b
  }

  ghost predicate Indexed(rules: seq<Rule>, seen: map<string, nat>, i: nat)
  {
    && i <= |rules|
    && (forall k | k in seen :: seen[k] < i && rules[seen[k]].active && RateLimitStreamKey(rules[seen[k]]) == k)
    && (forall j | 0 <= j < i && rules[j].active :: RateLimitStreamKey(rules[j]) in seen)
  }

  lemma IndexedNext(rules: seq<Rule>, seen: map<string, nat>, i: nat, key: string)
    requires Indexed(rules, seen, i) && i < |rules| && rules[i].active && key == RateLimitStreamKey(rules[i])
    ensures Indexed(rules, seen[key := i], i + 1)
  {
  }

  lemma IndexedSkip(rules: seq<Rule>, seen: map<string, nat>, i: nat)
    requires Indexed(rules, seen, i) && i < |rules| && !rules[i].active
    ensures Indexed(rules, seen, i + 1)
  {
  }

  lemma SeenSkip(rules: seq<Rule>, seen: map<string, nat>, i: nat)
    requires SeenUpTo(rules, seen, i) && i < |rules| && !rules[i].active
    ensures SeenUpTo(rules, seen, i + 1)
  {
    IndexedSkip(rules, seen, i);
    assert forall a: nat, b: nat | Clash(rules, a, b) :: b != i;
  }

  lemma NoClashAt(rules: seq<Rule>, seen: map<string, nat>, i: nat, a: nat)
    requires i < |rules| && RateLimitStreamKey(rules[i]) !in seen
    requires forall j | 0 <= j < i && rules[j].active :: RateLimitStreamKey(rules[j]) in seen
    ensures !Clash(rules, a, i)
  {
    assert a < i && rules[a].active ==> RateLimitStreamKey(rules[a]) in seen;
  }

  lemma LaterThan(rules: seq<Rule>, seen: map<string, nat>, i: nat, a: nat, b: nat)
    requires i < |rules| && RateLimitStreamKey(rules[i]) !in seen && i <= b
    requires forall j | 0 <= j < i && rules[j].active :: RateLimitStreamKey(rules[j]) in seen
    ensures Clash(rules, a, b) ==> i + 1 <= b
  {
    NoClashAt(rules, seen, i, a);
    assert b == i || b >= i + 1;
  }

  lemma NoClashBefore(rules: seq<Rule>, seen: map<string, nat>, i: nat)
    requires SeenUpTo(rules, seen, i) && i < |rules| && RateLimitStreamKey(rules[i]) !in seen
    ensures forall a: nat, b: nat | Clash(rules, a, b) :: i + 1 <= b
  {
    forall a: nat, b: nat | Clash(rules, a, b) ensures i + 1 <= b {
      LaterThan(rules, seen, i, a, b);
    }
  }

  lemma SeenNext(rules: seq<Rule>, seen: map<string, nat>, i: nat, key: string)
    requires SeenUpTo(rules, seen, i) && i < |rules| && rules[i].active && key == RateLimitStreamKey(rules[i])
      && key !in seen
    ensures SeenUpTo(rules, seen[key := i], i + 1)
  {
    NoClashBefore(rules, seen, i);
    IndexedNext(rules, seen, i, key);
  }

  method FindDuplicateRateLimitStream(rules: seq<Rule>) returns (d: Option<DuplicateStream>)
    ensures d.None? <==> Unique(rules)
    ensures d.Some? ==>
      && Clash(rules, d.value.firstIndex, d.value.secondIndex)
      && (forall i: nat, j: nat | Clash(rules, i, j) :: d.value.secondIndex <= j)
      && d.value.streamKey == RateLimitStreamKey(rules[d.value.secondIndex])
      && d.value.dimension == rules[d.value.secondIndex].dimension
      && d.value.windowSeconds == rules[d.value.secondIndex].windowSeconds
  {
    var seen: map<string, nat> := map[];
    for i := 0 to |rules|
      invariant SeenUpTo(rules, seen, i)
    {
      var r := rules[i];
      if !r.active {
        SeenSkip(rules, seen, i);
        continue;
      }
      var key := RateLimitStreamKey(r);
      if key in seen {
        assert Clash(rules, seen[key], i);
        return Some(DuplicateStream(key, seen[key], i, r.dimension, r.windowSeconds));
      }
      SeenNext(rules, seen, i, key);
      seen := seen[key := i];
    }
    return None;
  }

  function StreamKeys(rules: seq<Rule>): (keys: seq<string>)
    ensures |keys| == |rules|
  {
    seq(|rules|, i requires 0 <= i < |rules| => RateLimitStreamKey(rules[i]))
  }

  lemma StreamKeysPush(init: seq<Rule>, r: Rule)
    ensures StreamKeys(init + [r]) == StreamKeys(init) + [RateLimitStreamKey(r)]
  {
  }

  lemma ListingPush(m: JsMap<string, Rule>, init: seq<Rule>, r: Rule, k: string)
    requires m.Lists(StreamKeys(init), init) && k == RateLimitStreamKey(r) && k !in StreamKeys(init)
    ensures k !in m.at && m.Set(k, r).Lists(StreamKeys(init + [r]), init + [r])
  {
    StreamKeysPush(init, r);
    m.ListsPush(StreamKeys(init), init, k, r);
  }

  lemma ListingStep(m: JsMap<string, Rule>, init: seq<Rule>, r: Rule)
    requires m.Lists(StreamKeys(init), init)
    requires r.active ==> forall i | 0 <= i < |init| :: RateLimitStreamKey(init[i]) != RateLimitStreamKey(r)
    ensures var all := if r.active then init + [r] else init; CollapseStep(m, r).Lists(StreamKeys(all), all)
  {
    if r.active {
      ListingPush(m, init, r, RateLimitStreamKey(r));
    }
  }

  lemma UniqueInit(rules: seq<Rule>)
    requires rules != [] && Unique(rules)
    ensures Unique(rules[..|rules|-1])
    ensures forall o | o in rules[..|rules|-1] && o.active && rules[|rules|-1].active ::
      RateLimitStreamKey(o) != RateLimitStreamKey(rules[|rules|-1])
  {
    var init := rules[..|rules|-1];
    forall i: nat, j: nat ensures !Clash(init, i, j) {
      assert !Clash(rules, i, j);
    }
    forall o | o in init && o.active && rules[|rules|-1].active
      ensures RateLimitStreamKey(o) != RateLimitStreamKey(rules[|rules|-1])
    {
      var i: nat :| i < |init| && init[i] == o;
      assert !Clash(rules, i, |rules| - 1);
    }
  }

  lemma {:induction false} UniqueCollapse(rules: seq<Rule>)
    requires Unique(rules)
    ensures CollapseMap(rules).Lists(StreamKeys(Actives(rules)), Actives(rules))
  {
    if rules != [] {
      var init, r := rules[..|rules|-1], rules[|rules|-1];
      UniqueInit(rules);
      UniqueCollapse(init);
      forall i | 0 <= i < |Actives(init)| && r.active
        ensures RateLimitStreamKey(Actives(init)[i]) != RateLimitStreamKey(r)
      {
        assert Actives(init)[i] in Actives(init);
      }
      ListingStep(CollapseMap(init), Actives(init), r);
    }
  }

  /** A collapsed list always passes the config-time check. */
  lemma CollapsedIsUnique(rules: seq<Rule>)
    ensures Unique(Collapsed(rules))
  {
    var out := Collapsed(rules);
    forall i: nat, j: nat ensures !Clash(out, i, j) {
      if i < j < |out| {
        CollapsedFrom(rules, i);
        CollapsedFrom(rules, j);
      }
    }
  }

  lemma UniqueAppend(init: seq<Rule>, r: Rule)
    requires Unique(init)
    requires r.active ==> forall o | o in init && o.active :: RateLimitStreamKey(o) != RateLimitStreamKey(r)
    ensures Unique(init + [r])
  {
    forall i: nat, j: nat ensures !Clash(init + [r], i, j) {
      assert j < |init| ==> (Clash(init + [r], i, j) <==> Clash(init, i, j));
      assert i < |init| ==> init[i] in init;
    }
  }

  lemma ActivesLast(init: seq<Rule>, r: Rule)
    ensures Actives(init + [r]) == Actives(init) + (if r.active then [r] else [])
  {
    assert (init + [r])[..|init|] == init;
  }

  lemma UniqueLast(init: seq<Rule>, r: Rule)
    requires Unique(init + [r])
    ensures Unique(init)
    ensures forall o | o in init && o.active && r.active :: RateLimitStreamKey(o) != RateLimitStreamKey(r)
  {
    assert (init + [r])[..|init|] == init;
    UniqueInit(init + [r]);
  }

  lemma UniqueActivesLast(init: seq<Rule>, r: Rule)
    requires Unique(Actives(init + [r]))
    ensures Unique(Actives(init))
    ensures r.active ==> forall o | o in init && o.active :: RateLimitStreamKey(o) != RateLimitStreamKey(r)
  {
    ActivesLast(init, r);
    if r.active {
      UniqueLast(Actives(init), r);
    } else {
      assert Actives(init) + [] == Actives(init);
    }
  }

  lemma {:induction false} ActivesUnique(rules: seq<Rule>)
    requires Unique(Actives(rules))
    ensures Unique(rules)
  {
    if rules != [] {
      var init, r := rules[..|rules|-1], rules[|rules|-1];
      assert rules == init + [r];
      UniqueActivesLast(init, r);
      ActivesUnique(init);
      UniqueAppend(init, r);
    }
  }

  /** The config-time check passes exactly when collapsing changes nothing. */
  lemma CheckAgreesWithCollapse(rules: seq<Rule>)
    ensures Unique(rules) <==> Collapsed(rules) == Actives(rules)
  {
    if Unique(rules) {
      UniqueCollapse(rules);
    }
    if Collapsed(rules) == Actives(rules) {
      CollapsedIsUnique(rules);
      ActivesUnique(rules);
    }
  }

  // ---------------------------------------------------------------------------
  // Effective rules
  // ---------------------------------------------------------------------------

  function ById(m: JsMap<string, Rule>, rules: seq<Rule>): (r: JsMap<string, Rule>)
    ensures m.Valid() ==> r.Valid()
  {
    if rules == [] then m
    else
      var before, last := ById(m, rules[..|rules|-1]), rules[|rules|-1];
      if last.active then before.Set(last.id, last) else before
  }

  function MergedMap(planRules: seq<Rule>, customerRules: seq<Rule>): (m: JsMap<string, Rule>)
    ensures m.Valid()
  {
    ById(ById(Empty(), planRules), customerRules)
  }

  /** Active plan rules, overridden by id by active customer rules. */
  function Merged(planRules: seq<Rule>, customerRules: seq<Rule>): seq<Rule>
  {
    MergedMap(planRules, customerRules).Values()
  }

  method GetEffectiveRules(planRules: seq<Rule>, customerRules: seq<Rule>) returns (out: seq<Rule>)
    ensures out == Collapsed(Merged(planRules, customerRules))
  {
    var byId: JsMap<string, Rule> := Empty();
    for i := 0 to |planRules|
      invariant byId == ById(Empty(), planRules[..i])
    {
      assert planRules[..i+1][..i] == planRules[..i];
      if planRules[i].active { byId := byId.Set(planRules[i].id, planRules[i]); }
    }
    assert planRules[..|planRules|] == planRules;
    ghost var plan := byId;
    for i := 0 to |customerRules|
      invariant byId == ById(plan, customerRules[..i])
    {
      assert customerRules[..i+1][..i] == customerRules[..i];
      if customerRules[i].active { byId := byId.Set(customerRules[i].id, customerRules[i]); }
    }
    assert customerRules[..|customerRules|] == customerRules;
    out := CollapseRulesByStream(byId.Values());
  }

  // ---------------------------------------------------------------------------
  // Which rules are in force
  // ---------------------------------------------------------------------------

  predicate LastAt(rules: seq<Rule>, i: nat)
  {
    i < |rules| && rules[i].active && forall j | i < j < |rules| && rules[j].active :: rules[j].id != rules[i].id
  }

  /** The last active rule of its id. */
  ghost predicate LastOfId(rules: seq<Rule>, r: Rule)
  {
    exists i: nat :: LastAt(rules, i) && rules[i] == r
  }

  predicate NoneOfId(rules: seq<Rule>, id: string)
  {
    forall o | o in rules && o.active :: o.id != id
  }

  /** The customer's rule of its id, or the plan's where the customer has none. */
  ghost predicate InForce(planRules: seq<Rule>, customerRules: seq<Rule>, r: Rule)
  {
    LastOfId(customerRules, r) || (LastOfId(planRules, r) && NoneOfId(customerRules, r.id))
  }

  lemma OneLast(rules: seq<Rule>, r: Rule, s: Rule)
    requires LastOfId(rules, r) && LastOfId(rules, s) && r.id == s.id
    ensures r == s
  {
    var i: nat :| LastAt(rules, i) && rules[i] == r;
    var j: nat :| LastAt(rules, j) && rules[j] == s;
  }

  lemma LastInList(rules: seq<Rule>, r: Rule)
    requires LastOfId(rules, r)
    ensures r in rules && r.active && !NoneOfId(rules, r.id)
  {
    var i: nat :| LastAt(rules, i) && rules[i] == r;
    assert rules[i] in rules;
  }

  lemma LastStays(init: seq<Rule>, r: Rule, last: Rule)
    requires LastOfId(init, r) && !(last.active && last.id == r.id)
    ensures LastOfId(init + [last], r)
  {
    var i: nat :| LastAt(init, i) && init[i] == r;
    assert LastAt(init + [last], i);
  }

  lemma LastIsLast(init: seq<Rule>, last: Rule)
    requires last.active
    ensures LastOfId(init + [last], last)
  {
    assert LastAt(init + [last], |init|);
  }

  lemma NoneOfIdLast(init: seq<Rule>, last: Rule, id: string)
    ensures NoneOfId(init + [last], id) <==> NoneOfId(init, id) && !(last.active && last.id == id)
  {
    assert forall o :: o in init + [last] <==> o in init || o == last;
  }

  /** Under each id the map holds the last active rule of the list, or what was there before. */
  ghost predicate HoldsLast(before: JsMap<string, Rule>, after: JsMap<string, Rule>, rules: seq<Rule>, id: string)
  {
    if NoneOfId(rules, id) then
      (id in after.at <==> id in before.at) && (id in before.at ==> after.at[id] == before.at[id])
    else id in after.at && LastOfId(rules, after.at[id]) && after.at[id].id == id
  }

  lemma ByIdLast(m: JsMap<string, Rule>, init: seq<Rule>, last: Rule)
    ensures ById(m, init + [last]) == if last.active then ById(m, init).Set(last.id, last) else ById(m, init)
  {
    assert (init + [last])[..|init|] == init;
  }

  lemma HoldsNext(before: JsMap<string, Rule>, after: JsMap<string, Rule>, init: seq<Rule>, last: Rule, id: string)
    requires HoldsLast(before, after, init, id)
    ensures HoldsLast(before, if last.active then after.Set(last.id, last) else after, init + [last], id)
  {
    NoneOfIdLast(init, last, id);
    if last.active && last.id == id {
      LastIsLast(init, last);
    } else if !NoneOfId(init, id) {
      LastStays(init, after.at[id], last);
    }
  }

  lemma {:induction false} ByIdHoldsLast(m: JsMap<string, Rule>, rules: seq<Rule>, id: string)
    ensures HoldsLast(m, ById(m, rules), rules, id)
  {
    if rules != [] {
      var init, last := rules[..|rules|-1], rules[|rules|-1];
      assert rules == init + [last];
      ByIdHoldsLast(m, init, id);
      ByIdLast(m, init, last);
      HoldsNext(m, ById(m, init), init, last, id);
    }
  }

  /** The merged map holds under each id the rule in force. */
  lemma MergedAt(planRules: seq<Rule>, customerRules: seq<Rule>, id: string)
    ensures var m := MergedMap(planRules, customerRules);
      id in m.at ==> m.at[id].id == id && InForce(planRules, customerRules, m.at[id])
  {
    ByIdHoldsLast(Empty(), planRules, id);
    ByIdHoldsLast(ById(Empty(), planRules), customerRules, id);
  }

  lemma InForceAt(planRules: seq<Rule>, customerRules: seq<Rule>, r: Rule)
    requires InForce(planRules, customerRules, r)
    ensures var m := MergedMap(planRules, customerRules); r.id in m.at && m.at[r.id] == r
  {
    ByIdHoldsLast(Empty(), planRules, r.id);
    ByIdHoldsLast(ById(Empty(), planRules), customerRules, r.id);
    if LastOfId(customerRules, r) {
      LastInList(customerRules, r);
      OneLast(customerRules, r, MergedMap(planRules, customerRules).at[r.id]);
    } else {
      LastInList(planRules, r);
      OneLast(planRules, r, ById(Empty(), planRules).at[r.id]);
    }
  }

  lemma OneInForce(planRules: seq<Rule>, customerRules: seq<Rule>, r: Rule, s: Rule)
    requires InForce(planRules, customerRules, r) && InForce(planRules, customerRules, s) && r.id == s.id
    ensures r == s
  {
    InForceAt(planRules, customerRules, r);
    InForceAt(planRules, customerRules, s);
  }

  lemma InForceActive(planRules: seq<Rule>, customerRules: seq<Rule>, r: Rule)
    requires InForce(planRules, customerRules, r)
    ensures r.active
  {
    if LastOfId(customerRules, r) { LastInList(customerRules, r); } else { LastInList(planRules, r); }
  }

  /** The merge lists exactly the rules in force. */
  lemma MergedExactly(planRules: seq<Rule>, customerRules: seq<Rule>, r: Rule)
    ensures r in Merged(planRules, customerRules) <==> InForce(planRules, customerRules, r)
  {
    var m := MergedMap(planRules, customerRules);
    if r in Merged(planRules, customerRules) {
      var i :| 0 <= i < |m.order| && m.at[m.order[i]] == r;
      assert m.order[i] in m.order;
      MergedAt(planRules, customerRules, m.order[i]);
    }
    if InForce(planRules, customerRules, r) {
      InForceAt(planRules, customerRules, r);
      var i :| 0 <= i < |m.order| && m.order[i] == r.id;
      assert Merged(planRules, customerRules)[i] == r;
    }
  }

  /** The ids of the active rules, each where it first occurs. */
  function FirstIds(rules: seq<Rule>): seq<string>
  {
    if rules == [] then []
    else
      var before, last := FirstIds(rules[..|rules|-1]), rules[|rules|-1];
      if last.active && last.id !in before then before + [last.id] else before
  }

  lemma {:induction false} ByIdOrder(m: JsMap<string, Rule>, planRules: seq<Rule>, rules: seq<Rule>)
    requires m.Valid() && m.order == FirstIds(planRules)
    ensures ById(m, rules).order == FirstIds(planRules + rules)
  {
    if rules == [] {
      assert planRules + rules == planRules;
    } else {
      var init, last := rules[..|rules|-1], rules[|rules|-1];
      assert (planRules + rules)[..|planRules + rules|-1] == planRules + init;
      ByIdOrder(m, planRules, init);
      assert last.id in ById(m, init).at <==> last.id in ById(m, init).order;
    }
  }

  /** A rule takes the place of the first rule of its id, the plan's before the customer's. */
  lemma MergedInOrder(planRules: seq<Rule>, customerRules: seq<Rule>, i: nat)
    ensures |Merged(planRules, customerRules)| == |FirstIds(planRules + customerRules)|
    ensures i < |Merged(planRules, customerRules)| ==>
      Merged(planRules, customerRules)[i].id == FirstIds(planRules + customerRules)[i]
  {
    assert Empty<string, Rule>().order == FirstIds([]) && [] + planRules == planRules;
    ByIdOrder(Empty(), [], planRules);
    ByIdOrder(ById(Empty(), planRules), planRules, customerRules);
    var m := MergedMap(planRules, customerRules);
    if i < |m.order| {
      assert m.order[i] in m.order;
      MergedAt(planRules, customerRules, m.order[i]);
    }
  }

  // ---------------------------------------------------------------------------
  // What the customer gets
  // ---------------------------------------------------------------------------

  /** In force, and no rule in force on its stream is stricter. */
  ghost predicate StrictestInForce(planRules: seq<Rule>, customerRules: seq<Rule>, r: Rule)
  {
    && InForce(planRules, customerRules, r)
    && forall o | InForce(planRules, customerRules, o) && RateLimitStreamKey(o) == RateLimitStreamKey(r) ::
         r.capValue <= o.capValue
  }

  /** No other rule in force on its stream is as strict. */
  ghost predicate Untied(planRules: seq<Rule>, customerRules: seq<Rule>, r: Rule)
  {
    forall o | InForce(planRules, customerRules, o) && RateLimitStreamKey(o) == RateLimitStreamKey(r)
      && o.capValue == r.capValue :: o == r
  }

  lemma EffectiveIsStrictest(planRules: seq<Rule>, customerRules: seq<Rule>, r: Rule)
    requires r in Collapsed(Merged(planRules, customerRules))
    ensures StrictestInForce(planRules, customerRules, r)
  {
    var merged := Merged(planRules, customerRules);
    var k :| 0 <= k < |Collapsed(merged)| && Collapsed(merged)[k] == r;
    CollapsedFrom(merged, k);
    MergedExactly(planRules, customerRules, r);
    forall o | InForce(planRules, customerRules, o) && RateLimitStreamKey(o) == RateLimitStreamKey(r)
      ensures r.capValue <= o.capValue
    {
      MergedExactly(planRules, customerRules, o);
      InForceActive(planRules, customerRules, o);
      var i :| 0 <= i < |merged| && merged[i] == o;
      CollapsedAtMost(merged, k, i);
    }
  }

  /** A collapsed rule is no looser than any active rule of its stream. */
  lemma CollapsedAtMost(rules: seq<Rule>, k: nat, i: nat)
    requires k < |Collapsed(rules)| && i < |rules| && rules[i].active
    requires RateLimitStreamKey(Collapsed(rules)[k]) == RateLimitStreamKey(rules[i])
    ensures Collapsed(rules)[k].capValue <= rules[i].capValue
  {
    CollapsedFrom(rules, k);
    CollapseKeepsAt(rules, RateLimitStreamKey(rules[i]));
  }

  /**
   Effective rules are active, carry distinct ids, pass the config-time check, and are in force: a
   plan rule survives only where no active customer rule has its id. None on its stream is stricter.
   */
  lemma EffectiveRulesSound(planRules: seq<Rule>, customerRules: seq<Rule>)
    ensures var out := Collapsed(Merged(planRules, customerRules));
      && Unique(out)
      && (forall i, j | 0 <= i < j < |out| :: out[i].id != out[j].id)
      && (forall r | r in out :: r.active && StrictestInForce(planRules, customerRules, r))
  {
    var merged := Merged(planRules, customerRules);
    var out := Collapsed(merged);
    CollapsedIsUnique(merged);
    forall r | r in out ensures r.active && StrictestInForce(planRules, customerRules, r) {
      EffectiveIsStrictest(planRules, customerRules, r);
      InForceActive(planRules, customerRules, r);
    }
    forall i, j | 0 <= i < j < |out| ensures out[i].id != out[j].id {
      assert out[i] in out && out[j] in out;
      if out[i].id == out[j].id {
        OneInForce(planRules, customerRules, out[i], out[j]);
        CollapsedFrom(merged, i);
        CollapsedFrom(merged, j);
      }
    }
  }

  /** Some effective rule on its stream is as strict as a rule in force. */
  lemma AsStrict(planRules: seq<Rule>, customerRules: seq<Rule>, r: Rule) returns (o: Rule)
    requires InForce(planRules, customerRules, r)
    ensures o in Collapsed(Merged(planRules, customerRules)) && InForce(planRules, customerRules, o)
    ensures RateLimitStreamKey(o) == RateLimitStreamKey(r) && o.capValue <= r.capValue
  {
    var merged := Merged(planRules, customerRules);
    MergedExactly(planRules, customerRules, r);
    InForceActive(planRules, customerRules, r);
    var i :| 0 <= i < |merged| && merged[i] == r;
    CollapsedKeepsStrictest(merged, i);
    var j :| 0 <= j < |merged| && Strictest(merged, j) && RateLimitStreamKey(merged[j]) == RateLimitStreamKey(merged[i])
      && merged[j].capValue <= merged[i].capValue && merged[j] in Collapsed(merged);
    o := merged[j];
    MergedExactly(planRules, customerRules, o);
  }

  /**
   And nothing in force is lost: on its stream some effective rule is as strict, and it is itself
   effective where it alone is the strictest.
   */
  lemma EffectiveRulesComplete(planRules: seq<Rule>, customerRules: seq<Rule>, r: Rule)
    requires InForce(planRules, customerRules, r)
    ensures var out := Collapsed(Merged(planRules, customerRules));
      && (exists o :: o in out && RateLimitStreamKey(o) == RateLimitStreamKey(r) && o.capValue <= r.capValue)
      && (StrictestInForce(planRules, customerRules, r) && Untied(planRules, customerRules, r) ==> r in out)
  {
    var o := AsStrict(planRules, customerRules, r);
    if StrictestInForce(planRules, customerRules, r) && Untied(planRules, customerRules, r) {
      assert o.capValue == r.capValue;
    }
  }
}
