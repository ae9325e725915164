/**
 True usage over any span of the log, not only the one that ends now: how long a span may be
 for a hard cap to hold in it, when settles that claim more than was held come late.
 */
module SpanUsage {
  import opened Options
  import opened CounterStore
  import opened RateLimits
  import opened Amounts
  import opened Coalescing
  import opened LimitRuns
  import opened LimitLedger
  import opened HardCap
  import opened SlidingLog

  function InSpan(c: Claim, x: Stream, a: int, b: int): nat
  {
    if c.key.StreamOf() == x && a <= c.at <= b then c.amount else 0
  }

  function SpanIn(claims: seq<Claim>, x: Stream, a: int, b: int): nat
  {
    if claims == [] then 0 else SpanIn(claims[..|claims|-1], x, a, b) + InSpan(claims[|claims|-1], x, a, b)
  }

  /** What the log says was claimed of a stream from `a` to `b`, both included. */
  function UsedSpan(tickets: seq<Ticket>, x: Stream, a: int, b: int): nat
  {
    if tickets == [] then 0
    else UsedSpan(tickets[..|tickets|-1], x, a, b) + SpanIn(tickets[|tickets|-1].claims, x, a, b)
  }

  /** The longest span that any window of the rule covers whole, in milliseconds. */
  function SafeSpan(r: Rule): int { r.windowSeconds * 1000 - BucketMs(r.windowSeconds) + 1 }

  /** A settle under this usage claims more than the rule held on the stream. */
  predicate Overruns(r: Rule, x: Stream, q: Request, usage: Usage)
  {
    && Live(r, usage.modelAliasId) && PlanOne(r, q).Some? && PlanOne(r, q).value.StreamOf() == x
    && Charged(r.dimension, usage) > PlanOne(r, q).value.increment
  }

  /** A settle that overruns comes no later than `lag` after its reserve. */
  predicate PromptStep(s: State, e: Event, r: Rule, x: Stream, lag: nat)
  {
    e.SettleEv? && Open(s, e.ticket) && Overruns(r, x, s.tickets[e.ticket].request, e.usage) ==>
      e.nowMs - s.tickets[e.ticket].request.nowMs <= lag
  }

  ghost predicate Prompt(rules: seq<Rule>, clock: int, events: seq<Event>, r: Rule, x: Stream, lag: nat)
  {
    events == [] ||
    (&& Prompt(rules, clock, events[..|events|-1], r, x, lag)
     && PromptStep(Run(rules, Init(clock), events[..|events|-1]), events[|events|-1], r, x, lag))
  }

  /** The span and the lag together stay within the safe span. */
  predicate SpanFits(r: Rule, d: nat, lag: nat)
  {
    && d <= SafeSpan(r)
    && (r.dimension == Tokens ==> lag <= SafeSpan(r) && (r.capValue > 1 ==> d + lag <= SafeSpan(r)))
  }

  // ---------------------------------------------------------------------------
  // Sums over spans
  // ---------------------------------------------------------------------------

  lemma {:induction false} SpanConcat(c: seq<Claim>, d: seq<Claim>, x: Stream, a: int, b: int)
    ensures SpanIn(c + d, x, a, b) == SpanIn(c, x, a, b) + SpanIn(d, x, a, b)
  {
    if d == [] {
      assert c + d == c;
    } else {
      assert (c + d)[..|c + d|-1] == c + d[..|d|-1];
      SpanConcat(c, d[..|d|-1], x, a, b);
    }
  }

  lemma {:induction false} SpanUpdate(tickets: seq<Ticket>, i: nat, t: Ticket, x: Stream, a: int, b: int)
    requires i < |tickets|
    ensures UsedSpan(tickets[i := t], x, a, b) ==
      UsedSpan(tickets, x, a, b) - SpanIn(tickets[i].claims, x, a, b) + SpanIn(t.claims, x, a, b)
  {
    var n := |tickets| - 1;
    if i == n {
      assert tickets[i := t][..n] == tickets[..n];
    } else {
      assert tickets[i := t][..n] == tickets[..n][i := t];
      SpanUpdate(tickets[..n], i, t, x, a, b);
    }
  }

  lemma SpanAppend(tickets: seq<Ticket>, t: Ticket, x: Stream, a: int, b: int)
    ensures UsedSpan(tickets + [t], x, a, b) == UsedSpan(tickets, x, a, b) + SpanIn(t.claims, x, a, b)
  {
    assert (tickets + [t])[..|tickets|] == tickets;
  }

  lemma {:induction false} SpanInBelow(claims: seq<Claim>, x: Stream, a: int, b: int, since: int)
    requires since <= a
    ensures SpanIn(claims, x, a, b) <= UsedIn(claims, x, since)
  {
    if claims != [] {
      SpanInBelow(claims[..|claims|-1], x, a, b, since);
    }
  }

  lemma {:induction false} SpanBelow(tickets: seq<Ticket>, x: Stream, a: int, b: int, since: int)
    requires since <= a
    ensures UsedSpan(tickets, x, a, b) <= UsedSince(tickets, x, since)
  {
    if tickets != [] {
      SpanBelow(tickets[..|tickets|-1], x, a, b, since);
      SpanInBelow(tickets[|tickets|-1].claims, x, a, b, since);
    }
  }

  lemma {:induction false} ClosedSpan(claims: seq<Claim>, x: Stream, a: int, b: int)
    ensures SpanIn(Closed(claims), x, a, b) == 0
  {
    if claims != [] {
      assert Closed(claims)[..|claims|-1] == Closed(claims[..|claims|-1]);
      ClosedSpan(claims[..|claims|-1], x, a, b);
    }
  }

  // ---------------------------------------------------------------------------
  // What makes the usage of a span rise
  // ---------------------------------------------------------------------------

  lemma {:induction false} HeldInSpan(planned: seq<PlannedHold>, at: int, x: Stream, a: int, b: int)
    returns (p: PlannedHold)
    requires SpanIn(HeldClaims(planned, at), x, a, b) > 0
    ensures p in planned && p.StreamOf() == x && a <= at <= b
  {
    var init, last := planned[..|planned|-1], planned[|planned|-1];
    assert HeldClaims(planned, at)[..|init|] == HeldClaims(init, at);
    if last.StreamOf() == x && a <= at <= b {
      p := last;
    } else {
      p := HeldInSpan(init, at, x, a, b);
    }
  }

  /** The hold of a live rule that settles to more than it held. */
  ghost predicate Grows(m: Counters, p: PlannedHold, usage: Usage, nowMs: int)
  {
    Live(p.rule, usage.modelAliasId) && SettledAmount(m, p, Charged(p.rule.dimension, usage), nowMs) > p.increment
  }

  lemma {:induction false} SettledInSpan(
    m: Counters, planned: seq<PlannedHold>, usage: Usage, nowMs: int, at: int, x: Stream, a: int, b: int)
    returns (p: PlannedHold)
    requires SpanIn(SettledClaims(m, planned, usage, nowMs, at), x, a, b) > SpanIn(HeldClaims(planned, at), x, a, b)
    ensures p in planned && p.StreamOf() == x && a <= at <= b && Grows(m, p, usage, nowMs)
  {
    var init, last := planned[..|planned|-1], planned[|planned|-1];
    var now := SettledClaims(m, planned, usage, nowMs, at);
    assert HeldClaims(planned, at)[..|init|] == HeldClaims(init, at);
    assert now[..|now|-1] == SettledClaims(m, init, usage, nowMs, at);
    if last.StreamOf() == x && a <= at <= b && Grows(m, last, usage, nowMs) {
      p := last;
    } else {
      p := SettledInSpan(m, init, usage, nowMs, at, x, a, b);
    }
  }

  lemma {:induction false} FreshInSpan(
    m: Counters, holds: seq<LimitHold>, rules: seq<Rule>, usage: Usage, nowMs: int, x: Stream, a: int, b: int)
    returns (o: Rule)
    requires SpanIn(FreshClaims(m, holds, rules, usage, nowMs), x, a, b) > 0
    ensures o in rules && HoldFor(holds, o.id).None? && a <= nowMs <= b
    ensures var w := SettleWrite(m, holds, o, usage, nowMs);
      w.Some? && w.value.StreamOf() == x && w.value.increment > 0
  {
    var init, last := rules[..|rules|-1], rules[|rules|-1];
    var all, rest := FreshClaims(m, holds, rules, usage, nowMs), FreshClaims(m, holds, init, usage, nowMs);
    if SpanIn(rest, x, a, b) > 0 {
      o := FreshInSpan(m, holds, init, usage, nowMs, x, a, b);
    } else {
      o := last;
      assert all != rest;
      assert all[..|rest|] == rest;
    }
  }

  lemma FreshHasRoom(m: Counters, holds: seq<LimitHold>, r: Rule, usage: Usage, nowMs: int, x: Stream)
    requires Hard(r) && HoldFor(holds, r.id).None?
    requires var w := SettleWrite(m, holds, r, usage, nowMs);
      w.Some? && w.value.StreamOf() == x && w.value.increment > 0
    ensures Room(m, r, x, nowMs) > 0
  {
  }

  lemma FreshGoverns(m: Counters, holds: seq<LimitHold>, r: Rule, usage: Usage, nowMs: int, x: Stream)
    requires HoldFor(holds, r.id).None?
    requires var w := SettleWrite(m, holds, r, usage, nowMs);
      w.Some? && w.value.StreamOf() == x
    ensures Governs(r, x)
  {
  }

  /** A fresh claim in the span means room, and a clock in the span. */
  lemma FreshRises(
    rules: seq<Rule>, names: Names, m: Counters, holds: seq<LimitHold>, usage: Usage, nowMs: int,
    r: Rule, x: Stream, a: int, b: int)
    requires WritesApart(rules, names) && r in rules && Hard(r) && Governs(r, x)
    requires SpanIn(FreshClaims(m, holds, rules, usage, nowMs), x, a, b) > 0
    ensures Room(m, r, x, nowMs) > 0 && nowMs <= b
  {
    var o := FreshInSpan(m, holds, rules, usage, nowMs, x, a, b);
    FreshGoverns(m, holds, o, usage, nowMs, x);
    OneRuleOn(rules, names, r, o, x);
    FreshHasRoom(m, holds, o, usage, nowMs, x);
  }

  lemma ReserveRises(rules: seq<Rule>, names: Names, m: Counters, q: Request, r: Rule, x: Stream, a: int, b: int)
    requires WritesApart(rules, names) && r in rules && Hard(r) && Governs(r, x)
    requires Violations(m, Planned(rules, q, true), q.nowMs) == []
    requires SpanIn(HeldClaims(Planned(rules, q, true), q.nowMs), x, a, b) > 0
    ensures Room(m, r, x, q.nowMs) > 0 && q.nowMs <= b
  {
    var p := HeldInSpan(Planned(rules, q, true), q.nowMs, x, a, b);
    PlanOfRule(rules, names, q, p, r, x);
    PlanHasRoom(m, Planned(rules, q, true), q, p, x);
  }

  /** On a hard stream the plan of a request is its one rule's. */
  lemma PlanOfRule(rules: seq<Rule>, names: Names, q: Request, p: PlannedHold, r: Rule, x: Stream)
    requires WritesApart(rules, names) && r in rules && Hard(r) && Governs(r, x)
    requires p in Planned(rules, q, true) && p.StreamOf() == x
    ensures p.rule == r && PlanOne(r, q) == Some(p)
  {
    PlannedFrom(rules, q, p);
    assert Governs(p.rule, x);
    OneRuleOn(rules, names, r, p.rule, x);
  }

  /** A held document inside the window keeps the window at least as full as the hold. */
  lemma HeldFills(m: Counters, k: CounterKey, x: Stream, from: int)
    requires k.StreamOf() == x && k.bucketStart >= from
    ensures WindowSum(m, x, from) >= Count(m, k)
  {
    WindowSumPut(m, k, 0, x, from);
  }

  /** A hold grows only under an overrun, and only while there is room. */
  lemma GrowthIsOverrun(m: Counters, p: PlannedHold, q: Request, usage: Usage, nowMs: int, x: Stream)
    requires Hard(p.rule) && PlanOne(p.rule, q) == Some(p) && p.StreamOf() == x && Grows(m, p, usage, nowMs)
    ensures Overruns(p.rule, x, q, usage) && p.rule.dimension == Tokens
    ensures Room(m, p.rule, x, nowMs) > 0
  {
  }

  /** With a cap of one the hold itself takes all the room until its bucket has left the window. */
  lemma LoneHoldFills(m: Counters, p: PlannedHold, q: Request, nowMs: int, x: Stream)
    requires PlanOne(p.rule, q) == Some(p) && p.StreamOf() == x && p.rule.capValue == 1
    requires p.increment <= Count(m, p.Write().Doc()) && nowMs - q.nowMs <= SafeSpan(p.rule)
    ensures Room(m, p.rule, x, nowMs) == 0
  {
    HeldFills(m, p.Write().Doc(), x, nowMs - p.rule.windowSeconds * 1000);
  }

  lemma {:induction false} HeldCounts(planned: seq<PlannedHold>, at: int, p: PlannedHold)
    requires p in planned
    ensures p.increment <= ClaimsOn(HeldClaims(planned, at), p.Write().Doc())
  {
    var init, last := planned[..|planned|-1], planned[|planned|-1];
    assert HeldClaims(planned, at)[..|init|] == HeldClaims(init, at);
    if p != last {
      HeldCounts(init, at, p);
    }
  }

  /** The lag after which an overrun may still add to a span. */
  function Reach(r: Rule, lag: nat): nat { if r.dimension == Tokens && r.capValue > 1 then lag else 0 }

  /** A hold that grows in the span: there is room, and the settle comes within reach of the span. */
  lemma HoldRises(
    rules: seq<Rule>, names: Names, s: State, i: nat, p: PlannedHold, usage: Usage, nowMs: int, r: Rule, x: Stream,
    a: int, b: int, lag: nat)
    requires WritesApart(rules, names) && r in rules && Hard(r) && Governs(r, x)
    requires LedgerInv(rules, names, s) && Open(s, i)
    requires PromptStep(s, SettleEv(i, usage, nowMs), r, x, lag) && (r.dimension == Tokens ==> lag <= SafeSpan(r))
    requires p in TicketPlan(rules, s.tickets[i]) && p.StreamOf() == x && s.tickets[i].request.nowMs <= b
    requires Grows(s.counters, p, usage, nowMs)
    ensures Room(s.counters, r, x, nowMs) > 0 && nowMs <= b + Reach(r, lag)
  {
    var t := s.tickets[i];
    PlanOfRule(rules, names, t.request, p, r, x);
    GrowthIsOverrun(s.counters, p, t.request, usage, nowMs, x);
    if r.capValue == 1 {
      assert t in s.tickets && TicketSound(rules, names, t);
      LedgerUpdate(s.tickets, i, t, p.Write().Doc());
      HeldCounts(TicketPlan(rules, t), t.request.nowMs, p);
      LoneHoldFills(s.counters, p, t.request, nowMs, x);
    }
  }

  // ---------------------------------------------------------------------------
  // Prompt runs keep every span within the cap
  // ---------------------------------------------------------------------------

  lemma RoomyBatch(m: Counters, entries: seq<CounterWrite>, r: Rule, x: Stream, bucketStart: int, nowMs: int)
    requires BatchFits(m, entries, r, x, bucketStart, nowMs) && Room(m, r, x, nowMs) > 0
    ensures CapAt(ApplyAll(m, Coalesced(entries)), nowMs, r, x)
  {
    CoalescedClaimFits(entries, x, bucketStart, Room(m, r, x, nowMs));
    RoomyRaise(m, Coalesced(entries), r, x, nowMs);
  }

  lemma RoomyRaise(m: Counters, ws: seq<CounterWrite>, r: Rule, x: Stream, nowMs: int)
    requires ClaimedOn(ws, x) <= Room(m, r, x, nowMs) && Room(m, r, x, nowMs) > 0
    ensures CapAt(ApplyAll(m, ws), nowMs, r, x)
  {
    BatchRaisesAtMost(m, ws, x, nowMs - r.windowSeconds * 1000);
  }

  /** Where the window at a clock covers a span, its cap bounds the span. */
  lemma CoveredSpan(s: State, r: Rule, x: Stream, a: int, b: int, nowMs: int)
    requires Conserved(s) && Timed(s.tickets) && Governs(r, x) && CapAt(s.counters, nowMs, r, x)
    requires nowMs - SafeSpan(r) <= a
    ensures UsedSpan(s.tickets, x, a, b) <= r.capValue
  {
    ConservedRefines(s, x, nowMs - r.windowSeconds * 1000);
    SpanBelow(s.tickets, x, a, b, nowMs - SafeSpan(r));
  }

  ghost predicate StateSound(rules: seq<Rule>, names: Names, s: State)
  {
    LedgerInv(rules, names, s) && Timed(s.tickets)
  }

  lemma StepSound(rules: seq<Rule>, names: Names, s: State, e: Event)
    requires EventAllowed(names, e)
    requires DistinctIds(rules) && WritesApart(rules, names) && StateSound(rules, names, s)
    ensures StateSound(rules, names, Step(rules, s, e))
  {
    StepConserves(rules, names, s, e);
    StepTimed(rules, s, e);
  }

  lemma ReserveSpan(rules: seq<Rule>, names: Names, s: State, q: Request, r: Rule, x: Stream, a: int, b: int)
    requires Allowed(names, q.modelAliasId)
    requires DistinctIds(rules) && WritesApart(rules, names) && StateSound(rules, names, s)
    requires r in rules && Hard(r) && Governs(r, x) && b - a <= SafeSpan(r)
    requires UsedSpan(s.tickets, x, a, b) <= r.capValue
    ensures UsedSpan(Step(rules, s, ReserveEv(q)).tickets, x, a, b) <= r.capValue
  {
    var planned := Planned(rules, q, true);
    var after := Step(rules, s, ReserveEv(q));
    if Violations(s.counters, planned, q.nowMs) == [] {
      SpanAppend(s.tickets, Ticket(q, HeldClaims(planned, q.nowMs), true), x, a, b);
      if SpanIn(HeldClaims(planned, q.nowMs), x, a, b) > 0 {
        ReserveRises(rules, names, s.counters, q, r, x, a, b);
        OneCapOn(rules, names, r, x);
        ReserveFits(rules, s.counters, q, r, x);
        RoomyBatch(s.counters, Writes(planned), r, x, BucketStartFor(q.nowMs, x.windowSeconds), q.nowMs);
        StepSound(rules, names, s, ReserveEv(q));
        CoveredSpan(after, r, x, a, b, q.nowMs);
      }
    }
  }

  lemma DirectFits(rules: seq<Rule>, m: Counters, usage: Usage, nowMs: int, r: Rule, x: Stream)
    requires CapOn(rules, x, r.capValue) && Hard(r) && Governs(r, x)
    ensures BatchFits(m, SettleWrites(m, [], rules, usage, nowMs), r, x, BucketStartFor(nowMs, x.windowSeconds), nowMs)
  {
    forall e | e in SettleWrites(m, [], rules, usage, nowMs)
      ensures FitsOn(e, x, BucketStartFor(nowMs, x.windowSeconds), Room(m, r, x, nowMs))
    {
      DirectClaim(rules, m, usage, nowMs, r, x, e);
    }
  }

  lemma DirectFills(rules: seq<Rule>, names: Names, m: Counters, usage: Usage, nowMs: int, r: Rule, x: Stream)
    requires WritesApart(rules, names) && r in rules && Hard(r) && Governs(r, x) && Room(m, r, x, nowMs) > 0
    ensures CapAt(ApplyAll(m, Coalesced(SettleWrites(m, [], rules, usage, nowMs))), nowMs, r, x)
  {
    OneCapOn(rules, names, r, x);
    DirectFits(rules, m, usage, nowMs, r, x);
    RoomyBatch(m, SettleWrites(m, [], rules, usage, nowMs), r, x, BucketStartFor(nowMs, x.windowSeconds), nowMs);
  }

  lemma DirectLogs(rules: seq<Rule>, s: State, usage: Usage, nowMs: int, x: Stream, a: int, b: int)
    ensures UsedSpan(Step(rules, s, DirectEv(usage, nowMs)).tickets, x, a, b) ==
      UsedSpan(s.tickets, x, a, b) + SpanIn(FreshClaims(s.counters, [], rules, usage, nowMs), x, a, b)
  {
    var claims := FreshClaims(s.counters, [], rules, usage, nowMs);
    SpanAppend(s.tickets, Ticket(Request(Estimates(None, None), usage.modelAliasId, nowMs), claims, false), x, a, b);
  }

  lemma DirectSpan(rules: seq<Rule>, names: Names, s: State, usage: Usage, nowMs: int,
      r: Rule, x: Stream, a: int, b: int)
    requires Allowed(names, usage.modelAliasId)
    requires DistinctIds(rules) && WritesApart(rules, names) && StateSound(rules, names, s)
    requires r in rules && Hard(r) && Governs(r, x) && b - a <= SafeSpan(r)
    requires UsedSpan(s.tickets, x, a, b) <= r.capValue
    ensures UsedSpan(Step(rules, s, DirectEv(usage, nowMs)).tickets, x, a, b) <= r.capValue
  {
    DirectLogs(rules, s, usage, nowMs, x, a, b);
    if SpanIn(FreshClaims(s.counters, [], rules, usage, nowMs), x, a, b) > 0 {
      FreshRises(rules, names, s.counters, [], usage, nowMs, r, x, a, b);
      DirectFills(rules, names, s.counters, usage, nowMs, r, x);
      StepSound(rules, names, s, DirectEv(usage, nowMs));
      CoveredSpan(Step(rules, s, DirectEv(usage, nowMs)), r, x, a, b, nowMs);
    }
  }

  /** If a settle raises the usage of a span there was room, and the settle is within reach. */
  lemma SettleRises(
    rules: seq<Rule>, names: Names, s: State, i: nat, usage: Usage, nowMs: int,
    r: Rule, x: Stream, a: int, b: int, lag: nat)
    requires WritesApart(rules, names) && r in rules && Hard(r) && Governs(r, x)
    requires LedgerInv(rules, names, s) && Open(s, i)
    requires PromptStep(s, SettleEv(i, usage, nowMs), r, x, lag) && (r.dimension == Tokens ==> lag <= SafeSpan(r))
    requires UsedSpan(Step(rules, s, SettleEv(i, usage, nowMs)).tickets, x, a, b) > UsedSpan(s.tickets, x, a, b)
    ensures Room(s.counters, r, x, nowMs) > 0 && nowMs <= b + Reach(r, lag)
  {
    var t := s.tickets[i];
    var planned := TicketPlan(rules, t);
    var settled := SettledClaims(s.counters, planned, usage, nowMs, t.request.nowMs);
    var added := FreshClaims(s.counters, Holds(planned), rules, usage, nowMs);
    assert t in s.tickets && TicketSound(rules, names, t);
    SpanUpdate(s.tickets, i, Ticket(t.request, settled + added, false), x, a, b);
    SpanConcat(settled, added, x, a, b);
    if SpanIn(added, x, a, b) > 0 {
      FreshRises(rules, names, s.counters, Holds(planned), usage, nowMs, r, x, a, b);
    } else {
      var p := SettledInSpan(s.counters, planned, usage, nowMs, t.request.nowMs, x, a, b);
      HoldRises(rules, names, s, i, p, usage, nowMs, r, x, a, b, lag);
    }
  }

  lemma SettleSpan(
    rules: seq<Rule>, names: Names, s: State, i: nat, usage: Usage, nowMs: int,
    r: Rule, x: Stream, a: int, b: int, lag: nat)
    requires Allowed(names, usage.modelAliasId)
    requires DistinctIds(rules) && WritesApart(rules, names) && StateSound(rules, names, s) && Open(s, i)
    requires r in rules && Hard(r) && Governs(r, x) && a <= b && SpanFits(r, b - a, lag)
    requires PromptStep(s, SettleEv(i, usage, nowMs), r, x, lag)
    requires UsedSpan(s.tickets, x, a, b) <= r.capValue
    ensures UsedSpan(Step(rules, s, SettleEv(i, usage, nowMs)).tickets, x, a, b) <= r.capValue
  {
    var after := Step(rules, s, SettleEv(i, usage, nowMs));
    var q := s.tickets[i].request;
    if UsedSpan(after.tickets, x, a, b) > UsedSpan(s.tickets, x, a, b) {
      SettleRises(rules, names, s, i, usage, nowMs, r, x, a, b, lag);
      OneCapOn(rules, names, r, x);
      SettleFits(rules, s.counters, q, usage, nowMs, r, x);
      RoomyBatch(s.counters, SettleWrites(s.counters, Holds(Planned(rules, q, true)), rules, usage, nowMs), r, x,
                 ClaimBucket(rules, q, x, nowMs), nowMs);
      StepSound(rules, names, s, SettleEv(i, usage, nowMs));
      CoveredSpan(after, r, x, a, b, nowMs);
    }
  }

  lemma ReleaseSpan(rules: seq<Rule>, s: State, i: nat, x: Stream, a: int, b: int)
    requires Open(s, i)
    ensures UsedSpan(Step(rules, s, ReleaseEv(i)).tickets, x, a, b) <= UsedSpan(s.tickets, x, a, b)
  {
    var t := s.tickets[i];
    SpanUpdate(s.tickets, i, Ticket(t.request, Closed(t.claims), false), x, a, b);
    ClosedSpan(t.claims, x, a, b);
  }

  lemma StepSpan(rules: seq<Rule>, names: Names, s: State, e: Event, r: Rule, x: Stream, a: int, b: int, lag: nat)
    requires EventAllowed(names, e)
    requires DistinctIds(rules) && WritesApart(rules, names) && StateSound(rules, names, s)
    requires r in rules && Hard(r) && Governs(r, x) && a <= b && SpanFits(r, b - a, lag)
    requires PromptStep(s, e, r, x, lag) && UsedSpan(s.tickets, x, a, b) <= r.capValue
    ensures UsedSpan(Step(rules, s, e).tickets, x, a, b) <= r.capValue
  {
    match e
    case ReserveEv(q) => ReserveSpan(rules, names, s, q, r, x, a, b);
    case SettleEv(i, usage, nowMs) => if Open(s, i) { SettleSpan(rules, names, s, i, usage, nowMs, r, x, a, b, lag); }
    case DirectEv(usage, nowMs) => DirectSpan(rules, names, s, usage, nowMs, r, x, a, b);
    case ReleaseEv(i) => if Open(s, i) { ReleaseSpan(rules, s, i, x, a, b); }
  }

  /**
   Under any rule list whose writes are apart: if settles that overrun the hold come within
   `lag` of their reserve, every span short enough for that lag holds no more than the cap,
   wherever it lies.
   */
  lemma {:induction false} SpansWithinCap(
    rules: seq<Rule>, names: Names, clock: int, events: seq<Event>, r: Rule, x: Stream, a: int, b: int, lag: nat)
    requires EventsAllowed(names, events)
    requires DistinctIds(rules) && WritesApart(rules, names) && r in rules && Hard(r) && Governs(r, x)
    requires Prompt(rules, clock, events, r, x, lag) && a <= b && SpanFits(r, b - a, lag)
    ensures UsedSpan(Run(rules, Init(clock), events).tickets, x, a, b) <= r.capValue
  {
    if events != [] {
      var init, e := events[..|events|-1], events[|events|-1];
      AllowedLast(names, events);
      SpansWithinCap(rules, names, clock, init, r, x, a, b, lag);
      RunConserves(rules, names, clock, init);
      RunTimed(rules, clock, init);
      StepSpan(rules, names, Run(rules, Init(clock), init), e, r, x, a, b, lag);
    }
  }
}
