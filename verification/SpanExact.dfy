/**
 The exact span: for one hard rule, the spans that every prompt run keeps within the cap are
 those that fit, and for any other span some run breaks it.
 */
module SpanExact {
  import opened Options
  import opened CounterStore
  import opened RateLimits
  import opened Amounts
  import opened Coalescing
  import opened LimitRuns
  import opened LimitLedger
  import opened HardCap
  import opened SlidingLog
  import opened SpanUsage
  import opened UnitCalls

  // ---------------------------------------------------------------------------
  // Steps under one rule
  // ---------------------------------------------------------------------------

  /** What a direct settle leaves in the log. */
  function DirectTicket(r: Rule, x: Stream, nowMs: int, c: nat): Ticket
  {
    Ticket(Request(Estimates(None, None), x.scopeTarget, nowMs), [Claim(DocAt(r, x, nowMs), nowMs, c)], false)
  }

  function DirectUsage(x: Stream, n: nat): Usage { Usage(n, 0, x.scopeTarget) }

  ghost predicate DirectClaims(r: Rule, x: Stream, m: Counters, n: nat, nowMs: int, c: nat)
  {
    Hard(r) && Governs(r, x) && c > 0 && c == Min(Charged(r.dimension, DirectUsage(x, n)), Room(m, r, x, nowMs))
  }

  /** The write of such a claim. */
  function DirectWrite(r: Rule, x: Stream, nowMs: int, c: nat): CounterWrite
  {
    CounterWrite(r.dimension, r.windowSeconds, BucketStartFor(nowMs, r.windowSeconds), x.scopeTarget, c)
  }

  lemma DirectSettles(r: Rule, x: Stream, m: Counters, n: nat, nowMs: int, c: nat)
    requires DirectClaims(r, x, m, n, nowMs, c)
    ensures SettleWrite(m, [], r, DirectUsage(x, n), nowMs) == Some(DirectWrite(r, x, nowMs, c))
    ensures DirectWrite(r, x, nowMs, c).Doc() == DocAt(r, x, nowMs)
  {
  }

  lemma DirectBatch(r: Rule, m: Counters, usage: Usage, nowMs: int, w: CounterWrite)
    requires SettleWrite(m, [], r, usage, nowMs) == Some(w) && w.increment > 0
    ensures SettleWrites(m, [], [r], usage, nowMs) == [w]
    ensures FreshClaims(m, [], [r], usage, nowMs) == [Claim(w.Doc(), nowMs, w.increment)]
  {
    assert [r][..0] == [];
    assert RuleWrites(m, [], [r], usage, nowMs) == [w];
  }

  /** A direct settle with room claims in the bucket of its clock. */
  lemma DirectOne(r: Rule, x: Stream, s: State, n: nat, nowMs: int, c: nat)
    requires DirectClaims(r, x, s.counters, n, nowMs, c)
    ensures var t := Step([r], s, DirectEv(DirectUsage(x, n), nowMs));
      && t.counters == s.counters[DocAt(r, x, nowMs) := Count(s.counters, DocAt(r, x, nowMs)) + c]
      && t.tickets == s.tickets + [DirectTicket(r, x, nowMs, c)]
  {
    var w := DirectWrite(r, x, nowMs, c);
    DirectSettles(r, x, s.counters, n, nowMs, c);
    DirectBatch(r, s.counters, DirectUsage(x, n), nowMs, w);
    OneWrite(s.counters, w);
  }

  /** The ticket of an admitted call of one token. */
  function UnitTicket(r: Rule, x: Stream, nowMs: int): Ticket
  {
    Ticket(UnitCall(x, nowMs), [Claim(DocAt(r, x, nowMs), nowMs, 1)], true)
  }

  lemma UnitBatch(r: Rule, x: Stream, m: Counters, nowMs: int)
    requires Hard(r) && Governs(r, x) && Room(m, r, x, nowMs) > 0
    ensures var planned, w := Planned([r], UnitCall(x, nowMs), true), UnitPlan(r, x, nowMs).Write();
      && Violations(m, planned, nowMs) == [] && Writes(planned) == [w] && w.Doc() == DocAt(r, x, nowMs)
      && HeldClaims(planned, nowMs) == [Claim(DocAt(r, x, nowMs), nowMs, 1)]
  {
    UnitPlanned(r, x, nowMs);
    UnitFits(m, UnitPlan(r, x, nowMs), nowMs);
  }

  lemma ReserveOne(r: Rule, x: Stream, s: State, nowMs: int)
    requires Hard(r) && Governs(r, x) && Room(s.counters, r, x, nowMs) > 0
    ensures var t := Step([r], s, ReserveEv(UnitCall(x, nowMs)));
      && t.counters == s.counters[DocAt(r, x, nowMs) := Count(s.counters, DocAt(r, x, nowMs)) + 1]
      && t.tickets == s.tickets + [UnitTicket(r, x, nowMs)]
  {
    UnitBatch(r, x, s.counters, nowMs);
    OneWrite(s.counters, UnitPlan(r, x, nowMs).Write());
  }

  /** A settle that overruns the unit hold ends at the usage, or at the hold and the room. */
  lemma SettleOne(r: Rule, x: Stream, s: State, i: nat, at: int, n: nat, nowMs: int)
    requires Hard(r) && r.dimension == Tokens && Governs(r, x)
    requires i < |s.tickets| && s.tickets[i] == UnitTicket(r, x, at) && n > 1
    ensures var t := Step([r], s, SettleEv(i, DirectUsage(x, n), nowMs));
      t.tickets == s.tickets[i :=
        Ticket(UnitCall(x, at), [Claim(DocAt(r, x, at), at, Min(n, 1 + Room(s.counters, r, x, nowMs)))], false)]
  {
    var p := UnitPlan(r, x, at);
    UnitPlanned(r, x, at);
    assert Holds([p]) == [p.Hold()];
    assert HoldFor(Holds([p]), r.id).Some?;
    SettledOne(r, x, s.counters, p, n, at, nowMs);
    assert [r][..0] == [];
    var none := FreshClaims(s.counters, Holds([p]), [r], DirectUsage(x, n), nowMs);
    assert FreshClaims(s.counters, Holds([p]), [], DirectUsage(x, n), nowMs) == [];
    assert none == [];
    assert TicketPlan([r], s.tickets[i]) == [p];
    var settled := SettledClaims(s.counters, [p], DirectUsage(x, n), nowMs, at);
    assert settled + none == settled;
  }

  lemma SettledOne(r: Rule, x: Stream, m: Counters, p: PlannedHold, n: nat, at: int, nowMs: int)
    requires Hard(r) && r.dimension == Tokens && Governs(r, x) && p == UnitPlan(r, x, at) && n > 1
    ensures SettledClaims(m, [p], DirectUsage(x, n), nowMs, at) ==
      [Claim(DocAt(r, x, at), at, Min(n, 1 + Room(m, r, x, nowMs)))]
  {
    assert [p][..0] == [];
    assert SettledClaims(m, [], DirectUsage(x, n), nowMs, at) == [];
  }

  // ---------------------------------------------------------------------------
  // A late overrun
  // ---------------------------------------------------------------------------

  lemma FirstClaims(r: Rule, x: Stream, n: nat, at: int)
    requires Hard(r) && Governs(r, x) && 0 < n <= r.capValue && Charged(r.dimension, DirectUsage(x, n)) == n
    ensures DirectClaims(r, x, map[], n, at, n)
  {
    EmptySum(x, at - r.windowSeconds * 1000);
  }

  /** The first entry of a store and of a log. */
  lemma FirstEntry(s: State, t: State, k: CounterKey, n: nat, ticket: Ticket)
    requires s.counters == map[] && s.tickets == []
    requires t.counters == s.counters[k := Count(s.counters, k) + n] && t.tickets == s.tickets + [ticket]
    ensures t.counters == map[k := n] && t.tickets == [ticket]
  {
  }

  /** The first claim on an empty store takes all it asks for up to the cap. */
  lemma FirstDirect(r: Rule, x: Stream, n: nat, at: int, s: State, t: State)
    requires DirectClaims(r, x, s.counters, n, at, n)
    requires s.counters == map[] && s.tickets == [] && t == Step([r], s, DirectEv(DirectUsage(x, n), at))
    ensures t.counters == map[DocAt(r, x, at) := n] && t.tickets == [DirectTicket(r, x, at, n)]
  {
    DirectTo(r, x, s, n, at, n, t);
    FirstEntry(s, t, DocAt(r, x, at), n, DirectTicket(r, x, at, n));
  }

  lemma DirectTo(r: Rule, x: Stream, s: State, n: nat, nowMs: int, c: nat, t: State)
    requires DirectClaims(r, x, s.counters, n, nowMs, c) && t == Step([r], s, DirectEv(DirectUsage(x, n), nowMs))
    ensures t.counters == s.counters[DocAt(r, x, nowMs) := Count(s.counters, DocAt(r, x, nowMs)) + c]
    ensures t.tickets == s.tickets + [DirectTicket(r, x, nowMs, c)]
  {
    DirectOne(r, x, s, n, nowMs, c);
  }

  /** A unit reserve after it, while the cap leaves one. */
  lemma UnitAfter(r: Rule, x: Stream, n: nat, at: int, s: State, later: int)
    requires Hard(r) && Governs(r, x) && n < r.capValue && s.counters == map[DocAt(r, x, at) := n]
    ensures var t := Step([r], s, ReserveEv(UnitCall(x, later)));
      && t.counters == s.counters[DocAt(r, x, later) := Count(s.counters, DocAt(r, x, later)) + 1]
      && t.tickets == s.tickets + [UnitTicket(r, x, later)]
  {
    DocOnStream(r, x, at);
    SumAfterFirst(DocAt(r, x, at), n, later - r.windowSeconds * 1000);
    ReserveOne(r, x, s, later);
  }

  /** Once the first claim has left the window there is room for all but the unit held. */
  lemma RoomReturns(r: Rule, x: Stream, n: nat, at: int, m: Counters, later: int, nowMs: int)
    requires Hard(r) && Governs(r, x) && m == map[DocAt(r, x, at) := n]
    requires BucketStartFor(at, r.windowSeconds) < nowMs - r.windowSeconds * 1000
    ensures 1 + Room(m[DocAt(r, x, later) := Count(m, DocAt(r, x, later)) + 1], r, x, nowMs) >= r.capValue
  {
    DocOnStream(r, x, at);
    DocOnStream(r, x, later);
    SumAfterFirst(DocAt(r, x, at), n, nowMs - r.windowSeconds * 1000);
    SumAfterUnit(m, DocAt(r, x, later), nowMs - r.windowSeconds * 1000);
  }

  lemma SpanOfTwo(ts: seq<Ticket>, t: Ticket, c: Claim, d: Claim, x: Stream, a: int, b: int)
    requires |ts| == 1 && ts[0].claims == [c] && t.claims == [d]
    ensures UsedSpan(ts + [t], x, a, b) == InSpan(c, x, a, b) + InSpan(d, x, a, b)
  {
    SpanAppend(ts, t, x, a, b);
    assert ts == [] + [ts[0]];
    SpanAppend([], ts[0], x, a, b);
    SpanOfOne(c, x, a, b);
    SpanOfOne(d, x, a, b);
  }

  /** A settle to the whole cap then takes it, whatever was claimed close to the reserve. */
  lemma OverrunSettles(r: Rule, x: Stream, n: nat, at: int, s: State, later: int, nowMs: int, t: State)
    requires Hard(r) && r.dimension == Tokens && Governs(r, x) && 0 < n < r.capValue
    requires s.counters == map[DocAt(r, x, at) := n]
    requires s.tickets == [DirectTicket(r, x, at, n)] && at <= later
    requires BucketStartFor(at, r.windowSeconds) < nowMs - r.windowSeconds * 1000
    requires t.counters == s.counters[DocAt(r, x, later) := Count(s.counters, DocAt(r, x, later)) + 1]
    requires t.tickets == s.tickets + [UnitTicket(r, x, later)]
    ensures UsedSpan(Step([r], t, SettleEv(1, DirectUsage(x, r.capValue), nowMs)).tickets, x, at, later) ==
      n + r.capValue
  {
    RoomReturns(r, x, n, at, s.counters, later, nowMs);
    SettleOne(r, x, t, 1, later, r.capValue, nowMs);
    DocOnStream(r, x, at);
    DocOnStream(r, x, later);
    var claim := Claim(DocAt(r, x, later), later, r.capValue);
    var settled := Ticket(UnitCall(x, later), [claim], false);
    assert t.tickets[1 := settled] == s.tickets + [settled];
    SpanOfTwo(s.tickets, settled, Claim(DocAt(r, x, at), at, n), claim, x, at, later);
  }

  lemma SpanOfOne(c: Claim, x: Stream, a: int, b: int)
    ensures SpanIn([c], x, a, b) == InSpan(c, x, a, b)
  {
    assert [c][..0] == [];
  }

  lemma PromptPush(rules: seq<Rule>, clock: int, events: seq<Event>, e: Event, r: Rule, x: Stream, lag: nat)
    requires Prompt(rules, clock, events, r, x, lag) && PromptStep(Run(rules, Init(clock), events), e, r, x, lag)
    ensures Prompt(rules, clock, events + [e], r, x, lag)
    ensures Run(rules, Init(clock), events + [e]) == Step(rules, Run(rules, Init(clock), events), e)
  {
    assert (events + [e])[..|events|] == events;
  }

  /** The run of a late overrun: claim, reserve one, settle to the cap when the claim has left. */
  function OverrunEvents(r: Rule, x: Stream, n: nat, at: int, later: int, nowMs: int): seq<Event>
  {
    [DirectEv(DirectUsage(x, n), at), ReserveEv(UnitCall(x, later)), SettleEv(1, DirectUsage(x, r.capValue), nowMs)]
  }

  lemma PromptThree(rules: seq<Rule>, clock: int, e0: Event, e1: Event, e2: Event, r: Rule, x: Stream, lag: nat)
    requires !e0.SettleEv? && !e1.SettleEv?
    requires PromptStep(Step(rules, Step(rules, Init(clock), e0), e1), e2, r, x, lag)
    ensures Prompt(rules, clock, [e0, e1, e2], r, x, lag)
    ensures Run(rules, Init(clock), [e0, e1, e2]) == Step(rules, Step(rules, Step(rules, Init(clock), e0), e1), e2)
  {
    PromptPush(rules, clock, [], e0, r, x, lag);
    PromptPush(rules, clock, [] + [e0], e1, r, x, lag);
    PromptPush(rules, clock, [] + [e0] + [e1], e2, r, x, lag);
    assert [] + [e0] + [e1] + [e2] == [e0, e1, e2];
  }

  lemma LateOverrun(r: Rule, x: Stream, n: nat, at: int, later: int, nowMs: int, lag: nat)
    requires Hard(r) && r.dimension == Tokens && Governs(r, x) && 0 < n < r.capValue && at <= later
    requires BucketStartFor(at, r.windowSeconds) < nowMs - r.windowSeconds * 1000 && nowMs - later <= lag
    ensures Prompt([r], at, OverrunEvents(r, x, n, at, later, nowMs), r, x, lag)
    ensures UsedSpan(Run([r], Init(at), OverrunEvents(r, x, n, at, later, nowMs)).tickets, x, at, later) ==
      n + r.capValue
  {
    var s := Step([r], Init(at), DirectEv(DirectUsage(x, n), at));
    var t := Step([r], s, ReserveEv(UnitCall(x, later)));
    FirstClaims(r, x, n, at);
    FirstDirect(r, x, n, at, Init(at), s);
    UnitAfter(r, x, n, at, s, later);
    OverrunSettles(r, x, n, at, s, later, nowMs, t);
    assert t.tickets[1] == UnitTicket(r, x, later);
    PromptThree([r], at, DirectEv(DirectUsage(x, n), at), ReserveEv(UnitCall(x, later)),
                SettleEv(1, DirectUsage(x, r.capValue), nowMs), r, x, lag);
  }

  lemma SomeLateOverrun(r: Rule, x: Stream, at: int, later: int, nowMs: int, lag: nat) returns (events: seq<Event>)
    requires Hard(r) && r.dimension == Tokens && Governs(r, x) && r.capValue > 1 && at <= later
    requires BucketStartFor(at, r.windowSeconds) < nowMs - r.windowSeconds * 1000 && nowMs - later <= lag
    ensures !SpanHolds(r, x, at, events, at, later, lag)
  {
    events := OverrunEvents(r, x, 1, at, later, nowMs);
    LateOverrun(r, x, 1, at, later, nowMs, lag);
  }

  /** The lone hold out of the window leaves the whole cap. */
  lemma LoneRoom(r: Rule, x: Stream, at: int, nowMs: int)
    requires Hard(r) && Governs(r, x) && BucketStartFor(at, r.windowSeconds) < nowMs - r.windowSeconds * 1000
    ensures Room(map[DocAt(r, x, at) := 1], r, x, nowMs) == r.capValue
  {
    DocOnStream(r, x, at);
    SumAfterFirst(DocAt(r, x, at), 1, nowMs - r.windowSeconds * 1000);
  }

  lemma EmptyRoom(r: Rule, x: Stream, at: int)
    ensures Room(map[], r, x, at) == r.capValue
  {
    EmptySum(x, at - r.windowSeconds * 1000);
  }

  lemma LoneReserve(r: Rule, x: Stream, at: int, s: State, t: State)
    requires Hard(r) && Governs(r, x) && Room(s.counters, r, x, at) > 0
    requires s.counters == map[] && s.tickets == [] && t == Step([r], s, ReserveEv(UnitCall(x, at)))
    ensures t.counters == map[DocAt(r, x, at) := 1] && t.tickets == [UnitTicket(r, x, at)]
  {
    ReserveOne(r, x, s, at);
    FirstEntry(s, t, DocAt(r, x, at), 1, UnitTicket(r, x, at));
  }

  lemma LoneSettle(r: Rule, x: Stream, at: int, nowMs: int, s: State, b: int)
    requires Hard(r) && r.dimension == Tokens && Governs(r, x) && at <= b
    requires BucketStartFor(at, r.windowSeconds) < nowMs - r.windowSeconds * 1000
    requires s.counters == map[DocAt(r, x, at) := 1] && s.tickets == [UnitTicket(r, x, at)]
    ensures UsedSpan(Step([r], s, SettleEv(0, DirectUsage(x, r.capValue + 1), nowMs)).tickets, x, at, b)
      == r.capValue + 1
  {
    LoneRoom(r, x, at, nowMs);
    SettleOne(r, x, s, 0, at, r.capValue + 1, nowMs);
    DocOnStream(r, x, at);
    var t := Ticket(UnitCall(x, at), [Claim(DocAt(r, x, at), at, r.capValue + 1)], false);
    assert s.tickets[0 := t] == [] + [t];
    SpanAppend([], t, x, at, b);
    SpanOfOne(t.claims[0], x, at, b);
  }

  lemma PromptTwo(rules: seq<Rule>, clock: int, e0: Event, e1: Event, r: Rule, x: Stream, lag: nat)
    requires !e0.SettleEv? && PromptStep(Step(rules, Init(clock), e0), e1, r, x, lag)
    ensures Prompt(rules, clock, [e0, e1], r, x, lag)
    ensures Run(rules, Init(clock), [e0, e1]) == Step(rules, Step(rules, Init(clock), e0), e1)
  {
    PromptPush(rules, clock, [], e0, r, x, lag);
    PromptPush(rules, clock, [] + [e0], e1, r, x, lag);
    assert [] + [e0] + [e1] == [e0, e1];
  }

  /** With a lag past the window even the own hold is gone: one call ends above the cap. */
  lemma LoneOverrun(r: Rule, x: Stream, at: int, nowMs: int, b: int, lag: nat) returns (events: seq<Event>)
    requires Hard(r) && r.dimension == Tokens && Governs(r, x) && at <= b
    requires BucketStartFor(at, r.windowSeconds) < nowMs - r.windowSeconds * 1000 && nowMs - at <= lag
    ensures Prompt([r], at, events, r, x, lag)
    ensures UsedSpan(Run([r], Init(at), events).tickets, x, at, b) == r.capValue + 1
  {
    var s := Step([r], Init(at), ReserveEv(UnitCall(x, at)));
    EmptyRoom(r, x, at);
    LoneReserve(r, x, at, Init(at), s);
    LoneSettle(r, x, at, nowMs, s, b);
    PromptTwo([r], at, ReserveEv(UnitCall(x, at)), SettleEv(0, DirectUsage(x, r.capValue + 1), nowMs), r, x, lag);
    events := [ReserveEv(UnitCall(x, at)), SettleEv(0, DirectUsage(x, r.capValue + 1), nowMs)];
  }

  // ---------------------------------------------------------------------------
  // A span longer than the window reaches
  // ---------------------------------------------------------------------------

  function Piled(r: Rule, x: Stream, at: int, n: nat): Counters
  {
    if n == 0 then map[] else map[DocAt(r, x, at) := n]
  }

  lemma PiledSum(r: Rule, x: Stream, at: int, n: nat, from: int)
    requires Governs(r, x)
    ensures WindowSum(Piled(r, x, at, n), x, from) == if BucketStartFor(at, r.windowSeconds) >= from then n else 0
  {
    EmptySum(x, from);
    DocOnStream(r, x, at);
    SumAfterFirst(DocAt(r, x, at), n, from);
  }

  lemma PileHasRoom(r: Rule, x: Stream, at: int, n: nat, m: Counters)
    requires Hard(r) && Governs(r, x) && m == Piled(r, x, at, n) && n < r.capValue
    ensures DirectClaims(r, x, m, 1, at, 1)
  {
    PiledSum(r, x, at, n, at - r.windowSeconds * 1000);
  }

  lemma ClearHasRoom(r: Rule, x: Stream, at: int, n: nat, m: Counters, nowMs: int)
    requires Hard(r) && Governs(r, x) && m == Piled(r, x, at, n)
    requires BucketStartFor(at, r.windowSeconds) < nowMs - r.windowSeconds * 1000
    ensures DirectClaims(r, x, m, 1, nowMs, 1)
  {
    PiledSum(r, x, at, n, nowMs - r.windowSeconds * 1000);
  }

  /** One more unit, at a clock whose window leaves room: what it leaves in the store, and in the log. */
  lemma UnitCount(r: Rule, x: Stream, s: State, nowMs: int, t: State)
    requires DirectClaims(r, x, s.counters, 1, nowMs, 1)
    requires t == Step([r], s, DirectEv(DirectUsage(x, 1), nowMs))
    ensures t.counters == s.counters[DocAt(r, x, nowMs) := Count(s.counters, DocAt(r, x, nowMs)) + 1]
  {
    DirectOne(r, x, s, 1, nowMs, 1);
  }

  lemma UnitSpan(r: Rule, x: Stream, at: int, s: State, nowMs: int, b: int, t: State)
    requires DirectClaims(r, x, s.counters, 1, nowMs, 1) && at <= nowMs <= b
    requires t == Step([r], s, DirectEv(DirectUsage(x, 1), nowMs))
    ensures UsedSpan(t.tickets, x, at, b) == UsedSpan(s.tickets, x, at, b) + 1
  {
    DirectOne(r, x, s, 1, nowMs, 1);
    DocOnStream(r, x, nowMs);
    SpanAppend(s.tickets, DirectTicket(r, x, nowMs, 1), x, at, b);
    SpanOfOne(Claim(DocAt(r, x, nowMs), nowMs, 1), x, at, b);
  }

  lemma PiledNext(r: Rule, x: Stream, at: int, n: nat, s: State, t: State)
    requires s.counters == Piled(r, x, at, n)
    requires t.counters == s.counters[DocAt(r, x, at) := Count(s.counters, DocAt(r, x, at)) + 1]
    ensures t.counters == Piled(r, x, at, n + 1)
  {
  }

  lemma PileCount(r: Rule, x: Stream, at: int, n: nat, s: State, t: State)
    requires DirectClaims(r, x, s.counters, 1, at, 1) && s.counters == Piled(r, x, at, n)
    requires t == Step([r], s, DirectEv(DirectUsage(x, 1), at))
    ensures t.counters == Piled(r, x, at, n + 1)
  {
    UnitCount(r, x, s, at, t);
    PiledNext(r, x, at, n, s, t);
  }

  /** Prompt events that leave this many units, all at one clock. */
  ghost predicate PilesUp(r: Rule, x: Stream, at: int, events: seq<Event>, n: nat, b: int, lag: nat)
  {
    && Prompt([r], at, events, r, x, lag)
    && Run([r], Init(at), events).counters == Piled(r, x, at, n)
    && UsedSpan(Run([r], Init(at), events).tickets, x, at, b) == n
  }

  lemma PileStep(r: Rule, x: Stream, at: int, n: nat, before: seq<Event>, b: int, lag: nat, e: Event)
    requires Hard(r) && Governs(r, x) && n < r.capValue && at <= b && PilesUp(r, x, at, before, n, b, lag)
    requires e == DirectEv(DirectUsage(x, 1), at)
    ensures PilesUp(r, x, at, before + [e], n + 1, b, lag)
  {
    var s := Run([r], Init(at), before);
    PileHasRoom(r, x, at, n, s.counters);
    PileCount(r, x, at, n, s, Step([r], s, e));
    UnitSpan(r, x, at, s, at, b, Step([r], s, e));
    PromptPush([r], at, before, e, r, x, lag);
  }

  lemma NoPile(r: Rule, x: Stream, at: int, b: int, lag: nat)
    ensures PilesUp(r, x, at, [], 0, b, lag)
  {
    assert Run([r], Init(at), []) == Init(at);
  }

  ghost predicate CanPile(r: Rule, x: Stream, at: int, n: nat, b: int, lag: nat)
  {
    exists events :: PilesUp(r, x, at, events, n, b, lag)
  }

  lemma OneMore(r: Rule, x: Stream, at: int, n: nat, b: int, lag: nat)
    requires Hard(r) && Governs(r, x) && n < r.capValue && at <= b && CanPile(r, x, at, n, b, lag)
    ensures CanPile(r, x, at, n + 1, b, lag)
  {
    var before :| PilesUp(r, x, at, before, n, b, lag);
    PileStep(r, x, at, n, before, b, lag, DirectEv(DirectUsage(x, 1), at));
  }

  /** Units claimed at one clock, up to the cap. */
  lemma UnitsPileUp(r: Rule, x: Stream, at: int, n: nat, b: int, lag: nat)
    requires Hard(r) && Governs(r, x) && n <= r.capValue && at <= b
    ensures CanPile(r, x, at, n, b, lag)
  {
    NoPile(r, x, at, b, lag);
    for i := 0 to n
      invariant CanPile(r, x, at, i, b, lag)
    {
      OneMore(r, x, at, i, b, lag);
    }
  }

  lemma LongSpan(r: Rule, x: Stream, at: int, nowMs: int, b: int, lag: nat) returns (events: seq<Event>)
    requires Hard(r) && Governs(r, x) && at <= nowMs <= b
    requires BucketStartFor(at, r.windowSeconds) < nowMs - r.windowSeconds * 1000
    ensures Prompt([r], at, events, r, x, lag)
    ensures UsedSpan(Run([r], Init(at), events).tickets, x, at, b) == r.capValue + 1
  {
    UnitsPileUp(r, x, at, r.capValue, b, lag);
    var before :| PilesUp(r, x, at, before, r.capValue, b, lag);
    var s := Run([r], Init(at), before);
    ClearHasRoom(r, x, at, r.capValue, s.counters, nowMs);
    UnitSpan(r, x, at, s, nowMs, b, Step([r], s, DirectEv(DirectUsage(x, 1), nowMs)));
    PromptPush([r], at, before, DirectEv(DirectUsage(x, 1), nowMs), r, x, lag);
    events := before + [DirectEv(DirectUsage(x, 1), nowMs)];
  }

  // ---------------------------------------------------------------------------
  // Exactly the spans that fit
  // ---------------------------------------------------------------------------

  ghost predicate SpanHolds(r: Rule, x: Stream, clock: int, events: seq<Event>, a: int, b: int, lag: nat)
  {
    Prompt([r], clock, events, r, x, lag) ==> UsedSpan(Run([r], Init(clock), events).tickets, x, a, b) <= r.capValue
  }

  /** In every prompt run, every span of length `d`, wherever it lies, holds no more than the cap. */
  ghost predicate SpansSafe(r: Rule, x: Stream, d: nat, lag: nat)
  {
    forall clock, events, a, b | b == a + d :: SpanHolds(r, x, clock, events, a, b, lag)
  }

  lemma OneRuleApart(r: Rule)
    ensures DistinctIds([r]) && WritesApart([r], Any)
  {
  }

  /** The last instant of the first bucket. */
  lemma LastInstant(r: Rule)
    ensures BucketStartFor(BucketMs(r.windowSeconds) - 1, r.windowSeconds) == 0
  {
  }

  lemma FittingHolds(r: Rule, x: Stream, clock: int, events: seq<Event>, a: int, b: int, lag: nat)
    requires Hard(r) && Governs(r, x) && a <= b && SpanFits(r, b - a, lag)
    ensures SpanHolds(r, x, clock, events, a, b, lag)
  {
    OneRuleApart(r);
    if Prompt([r], clock, events, r, x, lag) {
      SpansWithinCap([r], Any, clock, events, r, x, a, b, lag);
    }
  }

  lemma BrokenSpan(r: Rule, x: Stream, clock: int, events: seq<Event>, a: int, b: int, d: nat, lag: nat)
    requires b == a + d && !SpanHolds(r, x, clock, events, a, b, lag)
    ensures !SpansSafe(r, x, d, lag)
  {
  }

  lemma LongIsUnsafe(r: Rule, x: Stream, at: int, d: nat, lag: nat, nowMs: int)
    requires Hard(r) && Governs(r, x) && nowMs == at + d
    requires BucketStartFor(at, r.windowSeconds) < nowMs - r.windowSeconds * 1000
    ensures !SpansSafe(r, x, d, lag)
  {
    var events := LongSpan(r, x, at, nowMs, nowMs, lag);
    BrokenSpan(r, x, at, events, at, nowMs, d, lag);
  }

  lemma LateIsUnsafe(r: Rule, x: Stream, at: int, d: nat, lag: nat, later: int, nowMs: int)
    requires Hard(r) && r.dimension == Tokens && Governs(r, x) && r.capValue > 1
    requires later == at + d && nowMs == later + lag
    requires BucketStartFor(at, r.windowSeconds) < nowMs - r.windowSeconds * 1000
    ensures !SpansSafe(r, x, d, lag)
  {
    var events := SomeLateOverrun(r, x, at, later, nowMs, lag);
    BrokenSpan(r, x, at, events, at, later, d, lag);
  }

  lemma LoneIsUnsafe(r: Rule, x: Stream, at: int, d: nat, lag: nat, b: int, nowMs: int)
    requires Hard(r) && r.dimension == Tokens && Governs(r, x) && b == at + d && nowMs == at + lag
    requires BucketStartFor(at, r.windowSeconds) < nowMs - r.windowSeconds * 1000
    ensures !SpansSafe(r, x, d, lag)
  {
    var events := LoneOverrun(r, x, at, nowMs, b, lag);
    BrokenSpan(r, x, at, events, at, b, d, lag);
  }

  lemma UnfitIsUnsafe(r: Rule, x: Stream, d: nat, lag: nat)
    requires Hard(r) && Governs(r, x) && !SpanFits(r, d, lag)
    ensures !SpansSafe(r, x, d, lag)
  {
    var at := BucketMs(r.windowSeconds) - 1;
    LastInstant(r);
    if d > SafeSpan(r) {
      LongIsUnsafe(r, x, at, d, lag, at + d);
    } else if r.capValue > 1 {
      LateIsUnsafe(r, x, at, d, lag, at + d, at + d + lag);
    } else {
      LoneIsUnsafe(r, x, at, d, lag, at + d, at + lag);
    }
  }

  /**
   The span law of one hard rule. If overruns settle within `lag` of their reserve, no span of
   length `d` ever holds more than the cap exactly when the span fits: it is no longer than the
   window less one bucket, and, for tokens, neither is the lag, nor the two together unless the
   cap is one. Requests never overrun, so for them the lag does not matter.
   */
  lemma SpansExactlyWhen(r: Rule, x: Stream, d: nat, lag: nat)
    requires Hard(r) && Governs(r, x)
    ensures SpansSafe(r, x, d, lag) <==> SpanFits(r, d, lag)
  {
    if SpanFits(r, d, lag) {
      forall clock, events, a, b | b == a + d ensures SpanHolds(r, x, clock, events, a, b, lag) {
        FittingHolds(r, x, clock, events, a, b, lag);
      }
    } else {
      UnfitIsUnsafe(r, x, d, lag);
    }
  }

  const HOURLY := Rule("h", 3600, Tokens, 10, CustomerScope, None, true)

  /** Nine tokens, one held half an hour later, and settled to ten when the nine have left: 19 in half an hour. */
  lemma OverrunExample()
    ensures var x := Stream(Tokens, 3600, None);
      var events := [DirectEv(Usage(9, 0, None), 0),
                     ReserveEv(Request(Estimates(Some(1), None), None, 1_800_000)),
                     SettleEv(1, Usage(10, 0, None), 3_660_000)];
      UsedSpan(Run([HOURLY], Init(0), events).tickets, x, 0, 1_800_000) == 19
  {
    var x := Stream(Tokens, 3600, None);
    assert Governs(HOURLY, x) && Hard(HOURLY);
    assert BucketStartFor(0, 3600) == 0;
    LateOverrun(HOURLY, x, 9, 0, 1_800_000, 3_660_000, 1_860_000);
  }
}
