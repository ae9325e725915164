/**
 The runs the gateway makes: every settle is of a call that holds something, under the model the
 call was admitted for. A settle without holds takes another path, which never clamps.
 */
module GatewayRuns {
  import opened Options
  import opened CounterStore
  import opened RateLimits
  import opened Coalescing
  import opened LimitRuns
  import opened HardCap
  import opened LimitLedger
  import opened RateLimitStreams
  import opened UnitCalls
  import opened JsText

  /** No settle without holds, and none under another model than the call's. */
  predicate GatewayStep(rules: seq<Rule>, s: State, e: Event)
  {
    match e
    case DirectEv(_, _) => false
    case SettleEv(i, usage, _) =>
      Open(s, i) ==> TicketPlan(rules, s.tickets[i]) != [] && usage.modelAliasId == s.tickets[i].request.modelAliasId
    case _ => true
  }

  ghost predicate GatewayRun(rules: seq<Rule>, clock: int, events: seq<Event>)
  {
    events == [] ||
    (&& GatewayRun(rules, clock, events[..|events|-1])
     && GatewayStep(rules, Run(rules, Init(clock), events[..|events|-1]), events[|events|-1]))
  }

  /** Tokens rules that can meet on a counter carry one cap. */
  predicate TokensAgree(rules: seq<Rule>)
  {
    forall r, s | r in rules && s in rules && r.dimension == Tokens && Overlap(r, s) :: r.capValue == s.capValue
  }

  // ---------------------------------------------------------------------------
  // Agreeing tokens rules suffice
  // ---------------------------------------------------------------------------

  lemma TokensCapOn(rules: seq<Rule>, r: Rule, x: Stream)
    requires TokensAgree(rules) && r in rules && r.dimension == Tokens && Governs(r, x)
    ensures CapOn(rules, x, r.capValue)
  {
    forall o | o in rules && Governs(o, x) ensures o.capValue == r.capValue {
      GovernedOverlap(r, o, x);
    }
  }

  /** A requests rule that a held call settles under has a hold of one already, and claims no more. */
  lemma RequestsSettled(rules: seq<Rule>, m: Counters, q: Request, usage: Usage, nowMs: int, o: Rule)
    requires DistinctIds(rules) && o in rules && o.dimension == Requests && usage.modelAliasId == q.modelAliasId
    ensures SettleWrite(m, Holds(Planned(rules, q, true)), o, usage, nowMs) == None
  {
    if Live(o, usage.modelAliasId) {
      assert PlanOne(o, q).Some?;
      HoldForRule(rules, q, o);
    }
  }

  lemma RequestsClaimNothing(
    rules: seq<Rule>, m: Counters, q: Request, usage: Usage, nowMs: int, x: Stream, e: CounterWrite)
    requires DistinctIds(rules) && x.dimension == Requests && usage.modelAliasId == q.modelAliasId
    requires e in RuleWrites(m, Holds(Planned(rules, q, true)), rules, usage, nowMs)
    ensures e.StreamOf() != x
  {
    var o := RuleOfWrite(m, Holds(Planned(rules, q, true)), rules, usage, nowMs, e);
    HoldForRule(rules, q, o);
    if o.dimension == Requests { RequestsSettled(rules, m, q, usage, nowMs, o); }
  }

  lemma RequestsFit(
    rules: seq<Rule>, m: Counters, q: Request, usage: Usage, nowMs: int, r: Rule, x: Stream, bucketStart: int)
    requires DistinctIds(rules) && x.dimension == Requests && usage.modelAliasId == q.modelAliasId
    ensures BatchFits(m, SettleWrites(m, Holds(Planned(rules, q, true)), rules, usage, nowMs), r, x, bucketStart, nowMs)
  {
    var holds := Holds(Planned(rules, q, true));
    OrphansFit(holds, ConsumedIds(holds, rules, usage.modelAliasId), x, bucketStart, Room(m, r, x, nowMs));
    forall e | e in RuleWrites(m, holds, rules, usage, nowMs) ensures FitsOn(e, x, bucketStart, Room(m, r, x, nowMs)) {
      RequestsClaimNothing(rules, m, q, usage, nowMs, x, e);
    }
  }

  /** A settle keeps a requests window within its cap, whatever the caps of the others. */
  lemma RequestsSettleKeepsCap(
    rules: seq<Rule>, m: Counters, clock: int, q: Request, usage: Usage, nowMs: int, r: Rule, x: Stream)
    requires DistinctIds(rules) && r.dimension == Requests && Governs(r, x) && CapAt(m, clock, r, x)
    requires usage.modelAliasId == q.modelAliasId
    ensures var entries := SettleWrites(m, Holds(Planned(rules, q, true)), rules, usage, nowMs);
      CapAt(ApplyAll(m, Coalesced(entries)), Max(clock, nowMs), r, x)
  {
    RequestsFit(rules, m, q, usage, nowMs, r, x, 0);
    FittingBatch(m, SettleWrites(m, Holds(Planned(rules, q, true)), rules, usage, nowMs), r, x, 0, clock, nowMs);
  }

  lemma HardIsEither(r: Rule)
    requires Hard(r)
    ensures r.dimension == Tokens || r.dimension == Requests
  {
  }

  lemma GatewaySettleKeepsCap(rules: seq<Rule>, s: State, i: nat, usage: Usage, nowMs: int, r: Rule, x: Stream)
    requires DistinctIds(rules) && TokensAgree(rules) && r in rules && Hard(r) && Governs(r, x)
    requires Open(s, i) && GatewayStep(rules, s, SettleEv(i, usage, nowMs)) && CapAt(s.counters, s.clock, r, x)
    ensures var t := Step(rules, s, SettleEv(i, usage, nowMs)); CapAt(t.counters, t.clock, r, x)
  {
    HardIsEither(r);
    if r.dimension == Tokens {
      TokensCapOn(rules, r, x);
      SettleKeepsCap(rules, s.counters, s.clock, s.tickets[i].request, usage, nowMs, r, x);
    } else {
      RequestsSettleKeepsCap(rules, s.counters, s.clock, s.tickets[i].request, usage, nowMs, r, x);
    }
  }

  lemma GatewayStepKeepsCap(rules: seq<Rule>, s: State, e: Event, r: Rule, x: Stream)
    requires DistinctIds(rules) && TokensAgree(rules) && r in rules && Hard(r) && Governs(r, x)
    requires GatewayStep(rules, s, e) && CapAt(s.counters, s.clock, r, x)
    ensures CapAt(Step(rules, s, e).counters, Step(rules, s, e).clock, r, x)
  {
    match e
    case ReserveEv(q) => ReserveKeepsCap(rules, s.counters, s.clock, q, r, x);
    case SettleEv(i, usage, nowMs) => if Open(s, i) { GatewaySettleKeepsCap(rules, s, i, usage, nowMs, r, x); }
    case ReleaseEv(i) =>
      if Open(s, i) { ReleaseKeepsCap(s.counters, s.clock, Holds(TicketPlan(rules, s.tickets[i])), r, x); }
  }

  lemma {:induction false} GatewayRunKeepsCap(rules: seq<Rule>, clock: int, events: seq<Event>, r: Rule, x: Stream)
    requires DistinctIds(rules) && TokensAgree(rules) && r in rules && Hard(r) && Governs(r, x)
    requires GatewayRun(rules, clock, events)
    ensures CapAt(Run(rules, Init(clock), events).counters, Run(rules, Init(clock), events).clock, r, x)
  {
    if events == [] {
      EmptyKeepsCap(clock, r, x);
    } else {
      GatewayRunKeepsCap(rules, clock, events[..|events|-1], r, x);
      GatewayStepKeepsCap(rules, Run(rules, Init(clock), events[..|events|-1]), events[|events|-1], r, x);
    }
  }

  /** In runs of the gateway the requests rules need not agree, only the tokens rules. */
  lemma GatewayRunsKeepCaps(rules: seq<Rule>, clock: int, events: seq<Event>)
    requires DistinctIds(rules) && TokensAgree(rules) && GatewayRun(rules, clock, events)
    ensures CapsHold(rules, Run(rules, Init(clock), events))
  {
    var s := Run(rules, Init(clock), events);
    forall r, x | r in rules && Hard(r) && Governs(r, x) ensures CapAt(s.counters, s.clock, r, x) {
      GatewayRunKeepsCap(rules, clock, events, r, x);
    }
  }

  // ---------------------------------------------------------------------------
  // Disagreeing tokens rules do not
  // ---------------------------------------------------------------------------

  /** A call of some tokens on the stream, and its usage. */
  function TokenCall(x: Stream, n: nat): Request { Request(Estimates(Some(n), None), x.scopeTarget, 0) }

  function TokenUsage(x: Stream, n: nat): Usage { Usage(n, 0, x.scopeTarget) }

  lemma {:induction false} NoOrphans(holds: seq<LimitHold>, consumed: set<string>)
    requires forall h | h in holds :: h.ruleId in consumed
    ensures OrphanWrites(holds, consumed) == []
  {
    if holds != [] {
      assert holds[|holds|-1] in holds;
      NoOrphans(holds[..|holds|-1], consumed);
    }
  }

  /** Under the call's own model every hold is taken up. */
  lemma AllConsumed(rules: seq<Rule>, q: Request)
    requires DistinctIds(rules)
    ensures var holds := Holds(Planned(rules, q, true));
      OrphanWrites(holds, ConsumedIds(holds, rules, q.modelAliasId)) == []
  {
    var planned := Planned(rules, q, true);
    HoldsMember(planned);
    forall h | h in Holds(planned) ensures h.ruleId in ConsumedIds(Holds(planned), rules, q.modelAliasId) {
      var p :| p in planned && h == p.Hold();
      PlannedFrom(rules, q, p);
      ConsumedIffLive(rules, q, q.modelAliasId, p);
    }
    NoOrphans(Holds(planned), ConsumedIds(Holds(planned), rules, q.modelAliasId));
  }

  /** Settling to a token more than was held only claims, each rule where the call takes it. */
  lemma OverrunClaims(rules: seq<Rule>, m: Counters, x: Stream, n: nat, e: CounterWrite)
    requires DistinctIds(rules) && 0 < n
    requires e in RuleWrites(m, Holds(Planned(rules, TokenCall(x, n), true)), rules, TokenUsage(x, n + 1), 0)
    ensures e.increment > 0
    ensures exists r :: r in rules && ResolveScopeTarget(r, x.scopeTarget) == Some(e.scopeTarget)
  {
    var q := TokenCall(x, n);
    var o := RuleOfWrite(m, Holds(Planned(rules, q, true)), rules, TokenUsage(x, n + 1), 0, e);
    HoldForRule(rules, q, o);
    assert ResolveScopeTarget(o, x.scopeTarget) == Some(e.scopeTarget);
  }

  function TokenHold(o: Rule, x: Stream, n: nat): LimitHold
  {
    LimitHold(o.id, Tokens, o.windowSeconds, BucketStartFor(0, o.windowSeconds), x.scopeTarget, n, o.capValue)
  }

  lemma TokenHeld(rules: seq<Rule>, x: Stream, n: nat, o: Rule)
    requires DistinctIds(rules) && o in rules && o.dimension == Tokens && Governs(o, x) && 0 < n
    ensures HoldFor(Holds(Planned(rules, TokenCall(x, n), true)), o.id) == Some(TokenHold(o, x, n))
  {
    HoldForRule(rules, TokenCall(x, n), o);
  }

  lemma OverrunUnit(m: Counters, holds: seq<LimitHold>, x: Stream, n: nat, o: Rule)
    requires o.dimension == Tokens && Governs(o, x) && HoldFor(holds, o.id) == Some(TokenHold(o, x, n))
    requires Room(m, o, x, 0) > 0
    ensures SettleWrite(m, holds, o, TokenUsage(x, n + 1), 0) == Some(UnitWrite(o, x))
  {
  }

  /** A rule with room adds the token. */
  lemma RoomyOverrun(rules: seq<Rule>, m: Counters, x: Stream, n: nat, o: Rule)
    requires DistinctIds(rules) && o in rules && o.dimension == Tokens && Governs(o, x) && 0 < n
    requires Room(m, o, x, 0) > 0
    ensures UnitWrite(o, x) in
      RuleWrites(m, Holds(Planned(rules, TokenCall(x, n), true)), rules, TokenUsage(x, n + 1), 0)
  {
    var holds := Holds(Planned(rules, TokenCall(x, n), true));
    TokenHeld(rules, x, n, o);
    OverrunUnit(m, holds, x, n, o);
    RuleWritesMember(m, holds, rules, TokenUsage(x, n + 1), 0);
  }

  /** Every entry claims where the rules take a call of the stream's target. */
  ghost predicate ClaimsInPlace(entries: seq<CounterWrite>, rules: seq<Rule>, x: Stream)
  {
    forall e | e in entries ::
      e.increment > 0 && exists r :: r in rules && ResolveScopeTarget(r, x.scopeTarget) == Some(e.scopeTarget)
  }

  /** A claim on the stream outlives coalescing. */
  lemma ClaimSurvives(entries: seq<CounterWrite>, rules: seq<Rule>, x: Stream, e: CounterWrite, from: int)
    requires ClaimsInPlace(entries, rules, x) && e in entries && x.scopeTarget != Some("")
    requires e.StreamOf() == x && e.scopeTarget == x.scopeTarget && e.bucketStart >= from
    ensures HasUnit(entries, x, from)
  {
    var i := WriteForKey(entries, e);
    var w := Coalesced(entries)[i];
    CounterWriteKeyInjective(w, e);
    SurvivorInPlace(entries, rules, x, w);
    assert UnitAt(Coalesced(entries), x, from, i);
  }

  lemma UnitOnStream(o: Rule, x: Stream, from: int)
    requires o.dimension == Tokens && Governs(o, x) && from == 0 - o.windowSeconds * 1000
    ensures UnitWrite(o, x).StreamOf() == x && UnitWrite(o, x).bucketStart >= from
  {
  }

  /** While some tokens rule of a stream has room, a settle to a token more raises its window. */
  lemma OverrunRaises(rules: seq<Rule>, m: Counters, x: Stream, n: nat, o: Rule, from: int, after: Counters)
    requires DistinctIds(rules) && o in rules && o.dimension == Tokens && Governs(o, x) && x.scopeTarget != Some("")
    requires 0 < n && Room(m, o, x, 0) > 0 && from == 0 - o.windowSeconds * 1000
    requires after == ApplyAll(m, Coalesced(
      SettleWrites(m, Holds(Planned(rules, TokenCall(x, n), true)), rules, TokenUsage(x, n + 1), 0)))
    ensures WindowSum(after, x, from) > WindowSum(m, x, from)
  {
    var holds := Holds(Planned(rules, TokenCall(x, n), true));
    var entries := RuleWrites(m, holds, rules, TokenUsage(x, n + 1), 0);
    AllConsumed(rules, TokenCall(x, n));
    assert SettleWrites(m, holds, rules, TokenUsage(x, n + 1), 0) == entries;
    RoomyOverrun(rules, m, x, n, o);
    UnitOnStream(o, x, from);
    forall e | e in entries
      ensures e.increment > 0 && exists r :: r in rules && ResolveScopeTarget(r, x.scopeTarget) == Some(e.scopeTarget)
    {
      OverrunClaims(rules, m, x, n, e);
    }
    ClaimSurvives(entries, rules, x, UnitWrite(o, x), from);
    CoalescedRaises(m, entries, x, from, after);
  }

  /** Of the rules that govern a stream, one of the smallest cap. */
  lemma {:induction false} StrictestOn(rules: seq<Rule>, x: Stream, r: Rule) returns (a: Rule)
    requires r in rules && Governs(r, x)
    ensures a in rules && Governs(a, x) && forall o | o in rules && Governs(o, x) :: a.capValue <= o.capValue
    decreases r.capValue
  {
    if o :| o in rules && Governs(o, x) && o.capValue < r.capValue {
      a := StrictestOn(rules, x, o);
    } else {
      a := r;
    }
  }

  lemma CallHolds(rules: seq<Rule>, x: Stream, n: nat, a: Rule)
    requires a in rules && a.dimension == Tokens && Governs(a, x) && 0 < n
    ensures Planned(rules, TokenCall(x, n), true) != []
  {
    assert PlanOne(a, TokenCall(x, n)).Some?;
    PlannedMember(rules, TokenCall(x, n), true);
  }

  lemma RoomAbove(m: Counters, o: Rule, x: Stream, from: int)
    requires from == 0 - o.windowSeconds * 1000 && WindowSum(m, x, from) < o.capValue
    ensures Room(m, o, x, 0) > 0
  {
  }

  /** The settle of a call of some tokens on the stream to one token more. */
  ghost function AfterOverrun(rules: seq<Rule>, m: Counters, x: Stream, n: nat): Counters
  {
    ApplyAll(m, Coalesced(
      SettleWrites(m, Holds(Planned(rules, TokenCall(x, n), true)), rules, TokenUsage(x, n + 1), 0)))
  }

  lemma OverrunStep(rules: seq<Rule>, s: State, x: Stream, n: nat, e: Event)
    requires s.clock == 0 && Open(s, 0) && s.tickets[0].request == TokenCall(x, n)
    requires e == SettleEv(0, TokenUsage(x, n + 1), 0)
    ensures Step(rules, s, e).counters == AfterOverrun(rules, s.counters, x, n) && Step(rules, s, e).clock == 0
    ensures Planned(rules, TokenCall(x, n), true) != [] ==> GatewayStep(rules, s, e)
  {
  }

  /** A settle of this stream's call breaks the strictest cap where it is reached and another is not. */
  lemma FullSettleBreaks(rules: seq<Rule>, s: State, x: Stream, n: nat, a: Rule, o: Rule, from: int, e: Event)
    requires DistinctIds(rules) && a in rules && o in rules && a.dimension == o.dimension == Tokens
    requires Governs(a, x) && Governs(o, x) && x.scopeTarget != Some("") && 0 < n
    requires from == 0 - a.windowSeconds * 1000 && WindowSum(s.counters, x, from) == a.capValue < o.capValue
    requires s.clock == 0 && Open(s, 0) && s.tickets[0].request == TokenCall(x, n)
    requires e == SettleEv(0, TokenUsage(x, n + 1), 0)
    ensures GatewayStep(rules, s, e) && !CapsHold(rules, Step(rules, s, e))
  {
    CallHolds(rules, x, n, a);
    RoomAbove(s.counters, o, x, from);
    OverrunRaises(rules, s.counters, x, n, o, from, AfterOverrun(rules, s.counters, x, n));
    OverrunStep(rules, s, x, n, e);
    NotHeld(rules, Step(rules, s, e), a, x, from);
  }

  // ---------------------------------------------------------------------------
  // The law of a step
  // ---------------------------------------------------------------------------

  ghost predicate StepHolds(rules: seq<Rule>, s: State, e: Event)
  {
    CapsHold(rules, s) && GatewayStep(rules, s, e) ==> CapsHold(rules, Step(rules, s, e))
  }

  /** Every step of the gateway keeps every hard cap, from any state that meets them. */
  ghost predicate GatewayStepsSafe(rules: seq<Rule>)
  {
    forall s, e :: StepHolds(rules, s, e)
  }

  /** The strictest cap of the stream is reached, by the held call. */
  function FullState(a: Rule, x: Stream): State
  {
    State(map[DocAt(a, x, 0) := a.capValue], 0, [Ticket(TokenCall(x, 1), [], true)])
  }

  lemma FullSum(a: Rule, x: Stream, y: Stream, from: int)
    requires Governs(a, x)
    ensures WindowSum(FullState(a, x).counters, y, from) <= a.capValue
    ensures y != x ==> WindowSum(FullState(a, x).counters, y, from) == 0
    ensures y == x && from <= BucketStartFor(0, a.windowSeconds) ==>
      WindowSum(FullState(a, x).counters, y, from) == a.capValue
  {
    DocOnStream(a, x, 0);
    EmptySum(y, from);
    WindowSumPut(map[], DocAt(a, x, 0), a.capValue, y, from);
  }

  lemma FullMeetsCaps(rules: seq<Rule>, a: Rule, x: Stream)
    requires Governs(a, x) && forall o | o in rules && Governs(o, x) :: a.capValue <= o.capValue
    ensures CapsHold(rules, FullState(a, x))
  {
    forall r, y | r in rules && Hard(r) && Governs(r, y) ensures CapAt(FullState(a, x).counters, 0, r, y) {
      FullSum(a, x, y, 0 - r.windowSeconds * 1000);
    }
  }

  lemma DisagreeingStep(rules: seq<Rule>, x: Stream, a: Rule, o: Rule, from: int, e: Event)
    requires DistinctIds(rules) && a in rules && o in rules && a.dimension == o.dimension == Tokens
    requires Governs(a, x) && Governs(o, x) && x.scopeTarget != Some("") && a.capValue < o.capValue
    requires forall r | r in rules && Governs(r, x) :: a.capValue <= r.capValue
    requires from == 0 - a.windowSeconds * 1000 && e == SettleEv(0, TokenUsage(x, 2), 0)
    ensures !StepHolds(rules, FullState(a, x), e)
  {
    FullMeetsCaps(rules, a, x);
    FullSum(a, x, x, from);
    FullSettleBreaks(rules, FullState(a, x), x, 1, a, o, from, e);
  }

  lemma DisagreementBreaksSteps(rules: seq<Rule>, r: Rule, o: Rule)
    requires DistinctIds(rules) && r in rules && o in rules && r.dimension == Tokens && Overlap(r, o)
    requires r.capValue < o.capValue
    ensures !GatewayStepsSafe(rules)
  {
    var x := MeetingStream(r, o);
    var a := StrictestOn(rules, x, r);
    DisagreeingStep(rules, x, a, o, 0 - a.windowSeconds * 1000, SettleEv(0, TokenUsage(x, 2), 0));
  }

  /**
   The hard-cap law of the gateway's own steps. With distinct ids, every such step keeps every
   hard window within its cap, from any state that does, exactly when the tokens rules that meet
   on a counter carry one cap. Requests rules need not agree.
   */
  lemma GatewayStepsExactlyWhen(rules: seq<Rule>)
    requires DistinctIds(rules)
    ensures GatewayStepsSafe(rules) <==> TokensAgree(rules)
  {
    if TokensAgree(rules) {
      forall s, e ensures StepHolds(rules, s, e) {
        AgreeingStep(rules, s, e);
      }
    } else {
      var r, o :| r in rules && o in rules && r.dimension == Tokens && Overlap(r, o) && r.capValue != o.capValue;
      if r.capValue < o.capValue {
        DisagreementBreaksSteps(rules, r, o);
      } else {
        DisagreementBreaksSteps(rules, o, r);
      }
    }
  }

  lemma AgreeingStep(rules: seq<Rule>, s: State, e: Event)
    requires DistinctIds(rules) && TokensAgree(rules)
    ensures StepHolds(rules, s, e)
  {
    if CapsHold(rules, s) && GatewayStep(rules, s, e) {
      var t := Step(rules, s, e);
      forall r, x | r in rules && Hard(r) && Governs(r, x) ensures CapAt(t.counters, t.clock, r, x) {
        GatewayStepKeepsCap(rules, s, e, r, x);
      }
    }
  }

  // ---------------------------------------------------------------------------
  // Two steps from an empty store
  // ---------------------------------------------------------------------------

  lemma PlannedTokens(rules: seq<Rule>, x: Stream, n: nat, e: CounterWrite)
    requires e in Writes(Planned(rules, TokenCall(x, n), true)) && 0 < n
    ensures e.increment > 0 && (e.dimension == Tokens ==> e.increment == n)
    ensures exists r :: r in rules && ResolveScopeTarget(r, x.scopeTarget) == Some(e.scopeTarget)
  {
    var p := PlanOfWrite(Planned(rules, TokenCall(x, n), true), e);
    PlannedFrom(rules, TokenCall(x, n), p);
    assert ResolveScopeTarget(p.rule, x.scopeTarget) == Some(e.scopeTarget);
  }

  /** The plan of a rule on the stream. */
  function TokenWrite(a: Rule, x: Stream, n: nat): CounterWrite { UnitWrite(a, x).(increment := n) }

  lemma TokensPlanned(rules: seq<Rule>, x: Stream, n: nat, a: Rule)
    requires a in rules && a.dimension == Tokens && Governs(a, x) && 0 < n
    ensures TokenWrite(a, x, n) in Writes(Planned(rules, TokenCall(x, n), true))
  {
    var planned := Planned(rules, TokenCall(x, n), true);
    PlannedMember(rules, TokenCall(x, n), true);
    var p := PlanOne(a, TokenCall(x, n)).value;
    var i :| 0 <= i < |planned| && planned[i] == p;
    assert Writes(planned)[i] == TokenWrite(a, x, n);
  }

  lemma PlannedInPlace(rules: seq<Rule>, x: Stream, n: nat)
    requires 0 < n
    ensures ClaimsInPlace(Writes(Planned(rules, TokenCall(x, n), true)), rules, x)
  {
    forall e | e in Writes(Planned(rules, TokenCall(x, n), true))
      ensures e.increment > 0 && exists r :: r in rules && ResolveScopeTarget(r, x.scopeTarget) == Some(e.scopeTarget)
    {
      PlannedTokens(rules, x, n, e);
    }
  }

  /** The coalesced reserve claims all the tokens on the stream. */
  lemma TokensClaimed(rules: seq<Rule>, x: Stream, n: nat, a: Rule) returns (i: nat)
    requires a in rules && a.dimension == Tokens && Governs(a, x) && 0 < n && x.scopeTarget != Some("")
    ensures var out := Coalesced(Writes(Planned(rules, TokenCall(x, n), true)));
      i < |out| && out[i].increment == n && out[i].StreamOf() == x
      && out[i].bucketStart == BucketStartFor(0, a.windowSeconds)
  {
    var entries := Writes(Planned(rules, TokenCall(x, n), true));
    TokensPlanned(rules, x, n, a);
    PlannedInPlace(rules, x, n);
    i := WriteForKey(entries, TokenWrite(a, x, n));
    var w := Coalesced(entries)[i];
    CounterWriteKeyInjective(w, TokenWrite(a, x, n));
    SurvivorInPlace(entries, rules, x, w);
    var e :| e in entries && CounterWriteKey(e) == CounterWriteKey(w) && e.increment == w.increment;
    CounterWriteKeyInjective(e, w);
    PlannedTokens(rules, x, n, e);
  }

  lemma TokensFill(rules: seq<Rule>, x: Stream, a: Rule, n: nat, from: int, after: Counters)
    requires a in rules && a.dimension == Tokens && Governs(a, x) && n == a.capValue && x.scopeTarget != Some("")
    requires from == 0 - a.windowSeconds * 1000
    requires after == ApplyAll(map[], Coalesced(Writes(Planned(rules, TokenCall(x, n), true))))
    ensures WindowSum(after, x, from) >= n
  {
    var entries := Writes(Planned(rules, TokenCall(x, n), true));
    var i := TokensClaimed(rules, x, n, a);
    PlannedInPlace(rules, x, n);
    CoalescedClaims(entries);
    EmptySum(x, from);
    BatchRaisesAtLeast(map[], Coalesced(entries), x, from, i);
  }

  /** The rules that apply to a call of this many tokens all have that much. */
  ghost predicate AllAdmit(rules: seq<Rule>, x: Stream, n: nat)
  {
    forall p | p in Planned(rules, TokenCall(x, n), true) :: p.increment <= p.rule.capValue
  }

  lemma AdmittedReserve(rules: seq<Rule>, x: Stream, n: nat, s: State)
    requires AllAdmit(rules, x, n) && s == Step(rules, Init(0), ReserveEv(TokenCall(x, n)))
    ensures s.clock == 0 && Open(s, 0) && s.tickets[0].request == TokenCall(x, n)
    ensures s.counters == ApplyAll(map[], Coalesced(Writes(Planned(rules, TokenCall(x, n), true))))
    ensures s.counters == AfterReserve(map[], Planned(rules, TokenCall(x, n), true), 0)
  {
    FitsAtFirst(Planned(rules, TokenCall(x, n), true), 0);
  }

  lemma CapMeans(m: Counters, a: Rule, x: Stream, from: int)
    requires CapAt(m, 0, a, x) && from == 0 - a.windowSeconds * 1000
    ensures WindowSum(m, x, from) <= a.capValue
  {
  }

  lemma ReservedAtMost(rules: seq<Rule>, x: Stream, a: Rule, n: nat, from: int)
    requires a in rules && Hard(a) && Governs(a, x) && from == 0 - a.windowSeconds * 1000
    ensures WindowSum(AfterReserve(map[], Planned(rules, TokenCall(x, n), true), 0), x, from) <= a.capValue
  {
    EmptyKeepsCap(0, a, x);
    ReserveKeepsCap(rules, map[], 0, TokenCall(x, n), a, x);
    CapMeans(AfterReserve(map[], Planned(rules, TokenCall(x, n), true), 0), a, x, from);
  }

  lemma FillingReserve(rules: seq<Rule>, x: Stream, a: Rule, n: nat, from: int, s: State)
    requires a in rules && a.dimension == Tokens && Governs(a, x) && n == a.capValue && x.scopeTarget != Some("")
    requires AllAdmit(rules, x, n) && from == 0 - a.windowSeconds * 1000
    requires s == Step(rules, Init(0), ReserveEv(TokenCall(x, n)))
    ensures s.clock == 0 && Open(s, 0) && s.tickets[0].request == TokenCall(x, n)
    ensures WindowSum(s.counters, x, from) == n
  {
    AdmittedReserve(rules, x, n, s);
    TokensFill(rules, x, a, n, from, s.counters);
    ReservedAtMost(rules, x, a, n, from);
  }

  /** Reserve what the stricter of two meeting rules allows, and settle to one token more. */
  function TwoSteps(x: Stream, n: nat): seq<Event>
  {
    [ReserveEv(TokenCall(x, n)), SettleEv(0, TokenUsage(x, n + 1), 0)]
  }

  lemma TwoStepRun(rules: seq<Rule>, clock: int, e0: Event, e1: Event)
    requires GatewayStep(rules, Init(clock), e0) && GatewayStep(rules, Step(rules, Init(clock), e0), e1)
    ensures GatewayRun(rules, clock, [e0, e1])
    ensures Run(rules, Init(clock), [e0, e1]) == Step(rules, Step(rules, Init(clock), e0), e1)
  {
    assert [e0, e1][..1] == [e0] && [e0][..0] == [];
    assert Run(rules, Init(clock), [e0]) == Step(rules, Init(clock), e0);
    assert GatewayRun(rules, clock, [e0]);
  }

  /** From an empty store: two steps of the gateway pass the stricter cap, if the call is admitted. */
  lemma TwoStepsBreak(rules: seq<Rule>, x: Stream, a: Rule, o: Rule, n: nat, from: int)
    requires DistinctIds(rules) && a in rules && o in rules && a.dimension == o.dimension == Tokens
    requires Governs(a, x) && Governs(o, x) && x.scopeTarget != Some("") && n == a.capValue < o.capValue
    requires AllAdmit(rules, x, n) && from == 0 - a.windowSeconds * 1000
    ensures GatewayRun(rules, 0, TwoSteps(x, n)) && !CapsHold(rules, Run(rules, Init(0), TwoSteps(x, n)))
  {
    var e0, e1 := ReserveEv(TokenCall(x, n)), SettleEv(0, TokenUsage(x, n + 1), 0);
    var s := Step(rules, Init(0), e0);
    FillingReserve(rules, x, a, n, from, s);
    FullSettleBreaks(rules, s, x, n, a, o, from, e1);
    TwoStepRun(rules, 0, e0, e1);
  }

  const ANY_MODEL := Rule("a1", 3600, Tokens, 100, ModelScope, None, true)
  const ONE_MODEL := Rule("one", 3600, Tokens, 50, ModelScope, Some("gpt"), true)
  const GPT_TOKENS := Stream(Tokens, 3600, Some("gpt"))

  lemma OneModelTarget()
    ensures NormalTarget(ONE_MODEL) != ""
  {
    assert Trimmed("gpt");
    assert |NormalTarget(ONE_MODEL)| == 3;
  }

  lemma ExampleAdmits()
    ensures AllAdmit([ANY_MODEL, ONE_MODEL], GPT_TOKENS, 50)
  {
    forall p | p in Planned([ANY_MODEL, ONE_MODEL], TokenCall(GPT_TOKENS, 50), true)
      ensures p.increment <= p.rule.capValue
    {
      PlannedFrom([ANY_MODEL, ONE_MODEL], TokenCall(GPT_TOKENS, 50), p);
    }
  }

  /** Two rules that pass the config-time check; 50 tokens reserved and settled to 51 pass the cap of 50. */
  lemma UnsafeExample()
    ensures Unique([ANY_MODEL, ONE_MODEL]) && !RunsAreSafe([ANY_MODEL, ONE_MODEL])
    ensures GatewayRun([ANY_MODEL, ONE_MODEL], 0, TwoSteps(GPT_TOKENS, 50))
    ensures !CapsHold([ANY_MODEL, ONE_MODEL], Run([ANY_MODEL, ONE_MODEL], Init(0), TwoSteps(GPT_TOKENS, 50)))
  {
    OneModelTarget();
    assert |ANY_MODEL.id| == 2;
    UniqueRulesCanBeUnsafe(ANY_MODEL, ONE_MODEL);
    ExampleAdmits();
    assert ANY_MODEL in [ANY_MODEL, ONE_MODEL] && ONE_MODEL in [ANY_MODEL, ONE_MODEL];
    TwoStepsBreak([ANY_MODEL, ONE_MODEL], GPT_TOKENS, ONE_MODEL, ANY_MODEL, 50, 0 - 3600 * 1000);
  }
}
