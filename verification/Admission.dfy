/**
 When two rule lists admit the same requests, in every counter state; what that says about
 collapsing rules and about the read-only check; and the soundness of the retry hint.
 */
module Admission {
  import opened Options
  import opened CounterStore
  import opened JsText
  import opened RateLimits
  import opened RateLimitStreams

  /** Every rule that makes a claim on the request has room for it. */
  ghost predicate Admits(m: Counters, rules: seq<Rule>, q: Request)
  {
    forall r | r in rules && PlanOne(r, q).Some? :: Fits(m, PlanOne(r, q).value)
  }

  /** `a` limits every request `r` limits, on the same counter, at least as strictly. */
  predicate Covers(a: Rule, r: Rule)
  {
    && StoredDimension(a.dimension) == StoredDimension(r.dimension)
    && a.windowSeconds == r.windowSeconds && a.capValue <= r.capValue
    && if r.scope == ModelScope then
         a.scope == ModelScope && (!Targeted(a) || (Targeted(r) && a.scopeTarget == r.scopeTarget))
       else a.scope != ModelScope
  }

  predicate Covered(rules: seq<Rule>, r: Rule)
  {
    exists a :: a in rules && Covers(a, r)
  }

  ghost predicate AdmitAlike(small: seq<Rule>, large: seq<Rule>)
  {
    forall m, q :: Admits(m, small, q) == Admits(m, large, q)
  }

  lemma CoverFits(m: Counters, a: Rule, r: Rule, q: Request)
    requires Covers(a, r) && PlanOne(r, q).Some?
    ensures PlanOne(a, q).Some? && (Fits(m, PlanOne(a, q).value) ==> Fits(m, PlanOne(r, q).value))
  {
  }

  lemma CoveredAdmits(small: seq<Rule>, large: seq<Rule>, m: Counters, q: Request)
    requires forall r | r in large :: Covered(small, r)
    requires Admits(m, small, q)
    ensures Admits(m, large, q)
  {
    forall r | r in large && PlanOne(r, q).Some? ensures Fits(m, PlanOne(r, q).value) {
      var a :| a in small && Covers(a, r);
      CoverFits(m, a, r, q);
    }
  }

  // ---------------------------------------------------------------------------
  // An uncovered rule shows
  // ---------------------------------------------------------------------------

  /** A model name no rule of the list is targeted at. */
  lemma {:induction false} FreshModel(rules: seq<Rule>) returns (name: string)
    ensures name != "" && forall a | a in rules :: a.scopeTarget != Some(name)
    ensures forall a | a in rules && a.scopeTarget.Some? :: |a.scopeTarget.value| < |name|
  {
    if rules == [] {
      name := "m";
    } else {
      var init, last := rules[..|rules|-1], rules[|rules|-1];
      assert rules == init + [last];
      var shorter := FreshModel(init);
      name := shorter + OrEmpty(last.scopeTarget) + "m";
    }
  }

  /** A request of one unit that `r` claims on and, on its counter, only rules that reach it for any model. */
  ghost predicate Isolates(small: seq<Rule>, r: Rule, alias: Option<string>)
  {
    && ResolveScopeTarget(r, alias) == Some(alias)
    && forall a | a in small && ResolveScopeTarget(a, alias) == Some(alias) ::
         if r.scope == ModelScope then
           a.scope == ModelScope && (Targeted(a) ==> Targeted(r) && a.scopeTarget == r.scopeTarget)
         else a.scope != ModelScope
  }

  lemma IsolatingModel(small: seq<Rule>, r: Rule) returns (alias: Option<string>)
    ensures Isolates(small, r, alias)
  {
    if r.scope != ModelScope {
      alias := None;
    } else if Targeted(r) {
      alias := r.scopeTarget;
    } else {
      var name := FreshModel(small);
      alias := Some(name);
    }
  }

  function OneOf(d: Dimension, alias: Option<string>): Request
  {
    Request(Estimates(if d == Tokens then Some(1) else None,
                      if AllowsCapOvershoot(d) then Some(1) else None), alias, 0)
  }

  /** The store in which the counter of `r` for that model is exactly full. */
  function FullAt(r: Rule, alias: Option<string>): Counters
  {
    map[CounterKey(StoredDimension(r.dimension), r.windowSeconds,
                   BucketStartFor(0, r.windowSeconds), alias) := r.capValue]
  }

  lemma FullSum(r: Rule, alias: Option<string>, x: Stream, from: int)
    requires from <= BucketStartFor(0, r.windowSeconds)
    ensures WindowSum(FullAt(r, alias), x, from) ==
      if x == Stream(StoredDimension(r.dimension), r.windowSeconds, alias) then r.capValue else 0
  {
    var k := CounterKey(StoredDimension(r.dimension), r.windowSeconds, BucketStartFor(0, r.windowSeconds), alias);
    var m: Counters := map[];
    assert FullAt(r, alias) == m[k := r.capValue];
    WindowSumPut(m, k, r.capValue, x, from);
    assert Window(m, x, from) == map[];
  }

  lemma FullElsewhere(r: Rule, alias: Option<string>, x: Stream, from: int)
    requires x != Stream(StoredDimension(r.dimension), r.windowSeconds, alias)
    ensures WindowSum(FullAt(r, alias), x, from) == 0
  {
    assert Window(FullAt(r, alias), x, from) == map[];
  }

  /** In that store the uncovered rule rejects the unit, and no rule of the list does. */
  lemma UncoveredFits(small: seq<Rule>, r: Rule, alias: Option<string>, a: Rule)
    requires Isolates(small, r, alias) && a in small && !Covers(a, r)
    requires PlanOne(a, OneOf(r.dimension, alias)).Some?
    ensures Fits(FullAt(r, alias), PlanOne(a, OneOf(r.dimension, alias)).value)
  {
    var p := PlanOne(a, OneOf(r.dimension, alias)).value;
    if p.StreamOf() == Stream(StoredDimension(r.dimension), r.windowSeconds, alias) {
      FullSum(r, alias, p.StreamOf(), p.windowStart);
    } else {
      FullElsewhere(r, alias, p.StreamOf(), p.windowStart);
    }
  }

  lemma UncoveredRejects(r: Rule, alias: Option<string>)
    requires ResolveScopeTarget(r, alias) == Some(alias)
    ensures PlanOne(r, OneOf(r.dimension, alias)).Some?
      && !Fits(FullAt(r, alias), PlanOne(r, OneOf(r.dimension, alias)).value)
  {
    var p := PlanOne(r, OneOf(r.dimension, alias)).value;
    FullSum(r, alias, p.StreamOf(), p.windowStart);
  }

  lemma UncoveredDisagrees(small: seq<Rule>, large: seq<Rule>, r: Rule)
    requires r in large && !Covered(small, r)
    ensures !AdmitAlike(small, large)
  {
    var alias := IsolatingModel(small, r);
    var m, q := FullAt(r, alias), OneOf(r.dimension, alias);
    forall a | a in small && PlanOne(a, q).Some? ensures Fits(m, PlanOne(a, q).value) {
      UncoveredFits(small, r, alias, a);
    }
    UncoveredRejects(r, alias);
    assert Admits(m, small, q) && !Admits(m, large, q);
  }

  /**
   Dropping rules from a list changes no admission, for any counters and any request, exactly
   when each dropped rule is covered by one that stays.
   */
  lemma AdmitAlikeExactlyWhen(small: seq<Rule>, large: seq<Rule>)
    requires forall r | r in small :: r in large
    ensures AdmitAlike(small, large) <==> forall r | r in large :: Covered(small, r)
  {
    if forall r | r in large :: Covered(small, r) {
      forall m, q ensures Admits(m, small, q) == Admits(m, large, q) {
        if Admits(m, small, q) { CoveredAdmits(small, large, m, q); }
      }
    } else {
      var r :| r in large && !Covered(small, r);
      UncoveredDisagrees(small, large, r);
    }
  }

  // ---------------------------------------------------------------------------
  // Admission of the operations
  // ---------------------------------------------------------------------------

  lemma {:induction false} NoViolations(m: Counters, rules: seq<Rule>, q: Request, activeOnly: bool)
    ensures Violations(m, Planned(rules, q, activeOnly), q.nowMs) == [] <==>
      Admits(m, if activeOnly then Actives(rules) else rules, q)
  {
    if rules != [] {
      var init, last := rules[..|rules|-1], rules[|rules|-1];
      assert rules == init + [last];
      NoViolations(m, init, q, activeOnly);
      var before, after := Planned(init, q, activeOnly), Planned(rules, q, activeOnly);
      if !(activeOnly && !last.active) && PlanOne(last, q).Some? {
        assert after[..|before|] == before;
      }
      AdmitsLast(m, if activeOnly then Actives(init) else init, last, q);
    }
  }

  lemma AdmitsLast(m: Counters, init: seq<Rule>, last: Rule, q: Request)
    ensures Admits(m, init + [last], q) <==>
      Admits(m, init, q) && (PlanOne(last, q).Some? ==> Fits(m, PlanOne(last, q).value))
    ensures init + [] == init
  {
    assert forall r :: r in init + [last] <==> r in init || r == last;
  }

  /** A request is admitted by a rule list in a counter state: reserving it finds no violation. */
  ghost predicate ReserveAdmits(m: Counters, rules: seq<Rule>, q: Request)
  {
    Violations(m, Planned(rules, q, true), q.nowMs) == []
  }

  lemma CollapsedActive(rules: seq<Rule>)
    ensures forall r | r in Collapsed(rules) :: r in Actives(rules)
    ensures Actives(Collapsed(rules)) == Collapsed(rules)
  {
    forall r | r in Collapsed(rules) ensures r in Actives(rules) && r.active {
      var o :| 0 <= o < |Collapsed(rules)| && Collapsed(rules)[o] == r;
      CollapsedFrom(rules, o);
    }
    AllActive(Collapsed(rules));
  }

  lemma {:induction false} AllActive(rules: seq<Rule>)
    requires forall r | r in rules :: r.active
    ensures Actives(rules) == rules
  {
    if rules != [] {
      var init, last := rules[..|rules|-1], rules[|rules|-1];
      assert rules == init + [last];
      AllActive(init);
    }
  }

  /**
   Collapsing to the strictest rule per stream changes no admission exactly when every active
   rule is covered by one that is kept.
   */
  lemma CollapsePreservesAdmissionExactlyWhen(rules: seq<Rule>)
    ensures (forall m, q :: ReserveAdmits(m, Collapsed(rules), q) == ReserveAdmits(m, rules, q))
      <==> forall r | r in rules && r.active :: Covered(Collapsed(rules), r)
  {
    CollapsedActive(rules);
    AdmitAlikeExactlyWhen(Collapsed(rules), Actives(rules));
    forall m, q
      ensures ReserveAdmits(m, Collapsed(rules), q) == Admits(m, Collapsed(rules), q)
      ensures ReserveAdmits(m, rules, q) == Admits(m, Actives(rules), q)
    {
      NoViolations(m, Collapsed(rules), q, true);
      NoViolations(m, rules, q, true);
    }
  }

  /** The target is already in the spelling that stream identity uses. */
  predicate NormalSpelling(rule: Rule)
  {
    rule.scope == ModelScope ==> NormalTarget(rule) == OrEmpty(rule.scopeTarget)
  }

  lemma SameStreamCovers(a: Rule, r: Rule)
    requires NormalSpelling(a) && NormalSpelling(r)
    requires RateLimitStreamKey(a) == RateLimitStreamKey(r) && a.capValue <= r.capValue
    ensures Covers(a, r)
  {
    StreamKeyInjective(a, r);
  }

  /** With targets in normal spelling, collapsing changes no admission. */
  lemma CollapsePreservesAdmission(rules: seq<Rule>, m: Counters, q: Request)
    requires forall r | r in rules && r.active :: NormalSpelling(r)
    ensures ReserveAdmits(m, Collapsed(rules), q) == ReserveAdmits(m, rules, q)
  {
    forall r | r in rules && r.active ensures Covered(Collapsed(rules), r) {
      var i :| 0 <= i < |rules| && rules[i] == r;
      CollapsedKeepsStrictest(rules, i);
      var j :| && 0 <= j < |rules| && Strictest(rules, j)
        && RateLimitStreamKey(rules[j]) == RateLimitStreamKey(rules[i])
               && rules[j].capValue <= rules[i].capValue && rules[j] in Collapsed(rules);
      SameStreamCovers(rules[j], r);
    }
    CollapsePreservesAdmissionExactlyWhen(rules);
  }

  lemma LooserIsDropped(a: Rule, b: Rule, r: Rule)
    requires a.active && b.active && RateLimitStreamKey(a) == RateLimitStreamKey(b) && b.capValue < a.capValue
    requires r in Collapsed([a, b])
    ensures r == b
  {
    var rules := [a, b];
    var o :| 0 <= o < |Collapsed(rules)| && Collapsed(rules)[o] == r;
    CollapsedFrom(rules, o);
    var k := CollapseMap(rules).order[o];
    assert k in CollapseMap(rules).order;
    CollapseKeepsAt(rules, k);
    var i :| 0 <= i < |rules| && rules[i] == r && Strictest(rules, i);
    assert rules[0] == a && rules[1] == b;
  }

  /** Two spellings of one target: the rule that goes still limited requests the kept one does not. */
  lemma SpellingMatters(a: Rule, b: Rule)
    requires a.active && b.active && RateLimitStreamKey(a) == RateLimitStreamKey(b) && b.capValue < a.capValue
    requires Targeted(a) && Targeted(b) && a.scope == b.scope == ModelScope && a.scopeTarget != b.scopeTarget
    ensures exists m, q :: ReserveAdmits(m, Collapsed([a, b]), q) != ReserveAdmits(m, [a, b], q)
  {
    var rules := [a, b];
    assert a in rules;
    forall r | r in Collapsed(rules) ensures !Covers(r, a) {
      LooserIsDropped(a, b, r);
    }
    assert !Covered(Collapsed(rules), a);
    CollapsePreservesAdmissionExactlyWhen(rules);
  }

  lemma SpellingExample()
    ensures var a := Rule("a", 3600, Tokens, 10, ModelScope, Some("gpt"), true);
      var b := Rule("b", 3600, Tokens, 5, ModelScope, Some("GPT"), true);
      exists m, q :: ReserveAdmits(m, Collapsed([a, b]), q) != ReserveAdmits(m, [a, b], q)
  {
    var a := Rule("a", 3600, Tokens, 10, ModelScope, Some("gpt"), true);
    var b := Rule("b", 3600, Tokens, 5, ModelScope, Some("GPT"), true);
    assert Trimmed("gpt") && Trimmed("GPT") && Lower("gpt") == Lower("GPT");
    StreamKeyInjective(a, b);
    assert "gpt"[0] != "GPT"[0];
    SpellingMatters(a, b);
  }

  /**
   The read-only check, which ignores `active`, agrees with the real reserve on every request
   and every counter state exactly when each inactive rule is covered by an active one.
   */
  lemma CheckAgreesWithReserveExactlyWhen(rules: seq<Rule>)
    ensures (forall m, q :: (Violations(m, Planned(rules, q, false), q.nowMs) == []) == ReserveAdmits(m, rules, q))
      <==> forall r | r in rules && !r.active :: Covered(Actives(rules), r)
  {
    AdmitAlikeExactlyWhen(Actives(rules), rules);
    forall r | r in rules && r.active ensures Covered(Actives(rules), r) {
      assert r in Actives(rules) && Covers(r, r);
    }
    forall m, q
      ensures (Violations(m, Planned(rules, q, false), q.nowMs) == []) == Admits(m, rules, q)
      ensures ReserveAdmits(m, rules, q) == Admits(m, Actives(rules), q)
    {
      NoViolations(m, rules, q, false);
      NoViolations(m, rules, q, true);
    }
  }

  // ---------------------------------------------------------------------------
  // The retry hint
  // ---------------------------------------------------------------------------

  /**
   A violated rule asks to wait between one second and the window, after which the window
   start has reached or passed the oldest bucket that contributed. One second less is too early.
   */
  lemma RetryHintSound(m: Counters, rule: Rule, q: Request)
    requires PlanOne(rule, q).Some?
    ensures var p := PlanOne(rule, q).value;
      var wait := Violation(m, p, q.nowMs).retryAfterSeconds;
      && 1 <= wait <= rule.windowSeconds
      && OldestBucket(Window(m, p.StreamOf(), p.windowStart), q.nowMs) <=
        q.nowMs + wait * 1000 - rule.windowSeconds * 1000
      && (wait > 1 ==>
            OldestBucket(Window(m, p.StreamOf(), p.windowStart), q.nowMs) >
            q.nowMs + (wait - 1) * 1000 - rule.windowSeconds * 1000)
  {
    var p := PlanOne(rule, q).value;
    var w := Window(m, p.StreamOf(), p.windowStart);
    var oldest := OldestBucket(w, q.nowMs);
    assert p.windowStart <= oldest;
  }
}
