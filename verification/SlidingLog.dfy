/**
 The bucketed counters refine a true sliding log: each claim logged at the time it was made.
 */
module SlidingLog {
  import opened CounterStore
  import opened RateLimits
  import opened Amounts
  import opened LimitRuns
  import opened LimitLedger
  import opened HardCap
  import opened Coalescing

  // ---------------------------------------------------------------------------
  // The log
  // ---------------------------------------------------------------------------

  function UsedIn(claims: seq<Claim>, x: Stream, since: int): nat
  {
    if claims == [] then 0
    else UsedIn(claims[..|claims|-1], x, since) + Used(claims[|claims|-1], x, since)
  }

  /** What the log says was claimed of a stream at or after a time, as it stands now. */
  function UsedSince(tickets: seq<Ticket>, x: Stream, since: int): nat
  {
    if tickets == [] then 0
    else UsedSince(tickets[..|tickets|-1], x, since) + UsedIn(tickets[|tickets|-1].claims, x, since)
  }

  /** A claim sits in the bucket of the time it was made. */
  predicate InItsBucket(c: Claim)
  {
    c.key.bucketStart == BucketStartFor(c.at, c.key.windowSeconds)
  }

  ghost predicate Timed(tickets: seq<Ticket>)
  {
    forall t, c | t in tickets && c in t.claims :: InItsBucket(c)
  }

  // ---------------------------------------------------------------------------
  // Every run keeps claims in their buckets
  // ---------------------------------------------------------------------------

  lemma HeldTimed(rules: seq<Rule>, q: Request)
    ensures forall c | c in HeldClaims(Planned(rules, q, true), q.nowMs) :: InItsBucket(c)
    ensures forall p | p in Planned(rules, q, true) :: p.bucketStart == BucketStartFor(q.nowMs, p.rule.windowSeconds)
  {
    var planned := Planned(rules, q, true);
    PlannedMember(rules, q, true);
    forall c | c in HeldClaims(planned, q.nowMs) ensures InItsBucket(c) {
      var i :| 0 <= i < |planned| && HeldClaims(planned, q.nowMs)[i] == c;
      assert planned[i] in planned;
    }
  }

  lemma {:induction false} SettledTimed(m: Counters, planned: seq<PlannedHold>, usage: Usage, nowMs: int, at: int)
    requires forall p | p in planned :: p.bucketStart == BucketStartFor(at, p.rule.windowSeconds)
    ensures forall c | c in SettledClaims(m, planned, usage, nowMs, at) :: InItsBucket(c)
  {
    if planned != [] {
      var init, p := planned[..|planned|-1], planned[|planned|-1];
      assert p in planned && forall o | o in init :: o in planned;
      SettledTimed(m, init, usage, nowMs, at);
    }
  }

  lemma {:induction false} FreshTimed(m: Counters, holds: seq<LimitHold>, rules: seq<Rule>, usage: Usage, nowMs: int)
    ensures forall c | c in FreshClaims(m, holds, rules, usage, nowMs) :: InItsBucket(c)
  {
    if rules != [] {
      FreshTimed(m, holds, rules[..|rules|-1], usage, nowMs);
    }
  }

  lemma ClosedTimed(claims: seq<Claim>)
    requires forall c | c in claims :: InItsBucket(c)
    ensures forall c | c in Closed(claims) :: InItsBucket(c)
  {
    forall c | c in Closed(claims) ensures InItsBucket(c) {
      var i :| 0 <= i < |claims| && Closed(claims)[i] == c;
      assert claims[i] in claims;
    }
  }

  lemma TimedUpdate(tickets: seq<Ticket>, i: nat, t: Ticket)
    requires Timed(tickets) && i < |tickets| && forall c | c in t.claims :: InItsBucket(c)
    ensures Timed(tickets[i := t])
  {
    forall u | u in tickets[i := t] ensures u == t || u in tickets {
    }
  }

  lemma TimedAppend(tickets: seq<Ticket>, t: Ticket)
    requires Timed(tickets) && forall c | c in t.claims :: InItsBucket(c)
    ensures Timed(tickets + [t])
  {
  }

  lemma StepTimed(rules: seq<Rule>, s: State, e: Event)
    requires Timed(s.tickets)
    ensures Timed(Step(rules, s, e).tickets)
  {
    match e
    case ReserveEv(q) =>
      HeldTimed(rules, q);
      TimedAppend(s.tickets, Ticket(q, HeldClaims(Planned(rules, q, true), q.nowMs), true));
    case SettleEv(i, usage, nowMs) =>
      if Open(s, i) {
        var t := s.tickets[i];
        HeldTimed(rules, t.request);
        SettledTimed(s.counters, TicketPlan(rules, t), usage, nowMs, t.request.nowMs);
        FreshTimed(s.counters, Holds(TicketPlan(rules, t)), rules, usage, nowMs);
        TimedUpdate(s.tickets, i, Step(rules, s, e).tickets[i]);
      }
    case DirectEv(usage, nowMs) =>
      FreshTimed(s.counters, [], rules, usage, nowMs);
      TimedAppend(s.tickets, Step(rules, s, e).tickets[|s.tickets|]);
    case ReleaseEv(i) =>
      if Open(s, i) {
        assert s.tickets[i] in s.tickets;
        ClosedTimed(s.tickets[i].claims);
        TimedUpdate(s.tickets, i, Step(rules, s, e).tickets[i]);
      }
  }

  lemma {:induction false} RunTimed(rules: seq<Rule>, clock: int, events: seq<Event>)
    ensures Timed(Run(rules, Init(clock), events).tickets)
  {
    if events != [] {
      RunTimed(rules, clock, events[..|events|-1]);
      StepTimed(rules, Run(rules, Init(clock), events[..|events|-1]), events[|events|-1]);
    }
  }

  // ---------------------------------------------------------------------------
  // Counters rebuilt from the log
  // ---------------------------------------------------------------------------

  function AddClaims(m: Counters, claims: seq<Claim>): Counters
  {
    if claims == [] then m else AddClaim(AddClaims(m, claims[..|claims|-1]), claims[|claims|-1])
  }

  function AddClaim(m: Counters, c: Claim): Counters
  {
    m[c.key := Count(m, c.key) + c.amount]
  }

  function Used(c: Claim, x: Stream, since: int): nat
  {
    if c.key.StreamOf() == x && c.at >= since then c.amount else 0
  }

  function Rebuilt(tickets: seq<Ticket>): Counters
  {
    if tickets == [] then map[] else AddClaims(Rebuilt(tickets[..|tickets|-1]), tickets[|tickets|-1].claims)
  }

  lemma {:induction false} AddClaimsCount(m: Counters, claims: seq<Claim>, k: CounterKey)
    ensures Count(AddClaims(m, claims), k) == Count(m, k) + ClaimsOn(claims, k)
  {
    if claims != [] {
      AddClaimsCount(m, claims[..|claims|-1], k);
    }
  }

  lemma {:induction false} RebuiltCount(tickets: seq<Ticket>, k: CounterKey)
    ensures Count(Rebuilt(tickets), k) == LedgerOn(tickets, k)
  {
    if tickets != [] {
      RebuiltCount(tickets[..|tickets|-1], k);
      AddClaimsCount(Rebuilt(tickets[..|tickets|-1]), tickets[|tickets|-1].claims, k);
    }
  }

  /** A claim inside the window by bucket lies between the two log windows. */
  lemma ClaimBetween(c: Claim, x: Stream, from: int)
    requires InItsBucket(c) && c.key.StreamOf() == x
    ensures c.at >= from + BucketMs(x.windowSeconds) - 1 ==> c.key.bucketStart >= from
    ensures c.key.bucketStart >= from ==> c.at >= from
  {
  }

  lemma ClaimSandwich(m: Counters, c: Claim, x: Stream, from: int)
    requires InItsBucket(c)
    ensures WindowSum(m, x, from) + Used(c, x, from + BucketMs(x.windowSeconds) - 1) <=
      WindowSum(AddClaim(m, c), x, from)
    ensures WindowSum(AddClaim(m, c), x, from) <= WindowSum(m, x, from) + Used(c, x, from)
  {
    WindowSumPut(m, c.key, Count(m, c.key) + c.amount, x, from);
    if c.key.StreamOf() == x {
      ClaimBetween(c, x, from);
    }
  }

  lemma {:induction false} ClaimsSandwich(m: Counters, claims: seq<Claim>, x: Stream, from: int)
    requires forall c | c in claims :: InItsBucket(c)
    ensures WindowSum(m, x, from) + UsedIn(claims, x, from + BucketMs(x.windowSeconds) - 1) <=
      WindowSum(AddClaims(m, claims), x, from)
    ensures WindowSum(AddClaims(m, claims), x, from) <= WindowSum(m, x, from) + UsedIn(claims, x, from)
  {
    if claims != [] {
      var init, c := claims[..|claims|-1], claims[|claims|-1];
      assert c in claims && forall d | d in init :: d in claims;
      ClaimsSandwich(m, init, x, from);
      ClaimSandwich(AddClaims(m, init), c, x, from);
    }
  }

  lemma {:induction false} RebuiltSandwich(tickets: seq<Ticket>, x: Stream, from: int)
    requires Timed(tickets)
    ensures UsedSince(tickets, x, from + BucketMs(x.windowSeconds) - 1) <= WindowSum(Rebuilt(tickets), x, from)
    ensures WindowSum(Rebuilt(tickets), x, from) <= UsedSince(tickets, x, from)
  {
    if tickets == [] {
      assert Window(map[], x, from) == map[];
    } else {
      var init, t := tickets[..|tickets|-1], tickets[|tickets|-1];
      assert t in tickets && forall u | u in init :: u in tickets;
      RebuiltSandwich(init, x, from);
      ClaimsSandwich(Rebuilt(init), t.claims, x, from);
    }
  }

  /** Usage since the last instant of the first bucket <= window sum <= usage since the window start. */
  ghost predicate Refines(s: State, x: Stream, from: int)
  {
    && UsedSince(s.tickets, x, from + BucketMs(x.windowSeconds) - 1) <= WindowSum(s.counters, x, from)
    && WindowSum(s.counters, x, from) <= UsedSince(s.tickets, x, from)
  }

  lemma ConservedRefines(s: State, x: Stream, from: int)
    requires Conserved(s) && Timed(s.tickets)
    ensures Refines(s, x, from)
  {
    RebuiltSandwich(s.tickets, x, from);
    forall k: CounterKey | k.StreamOf() == x ensures Count(s.counters, k) == Count(Rebuilt(s.tickets), k) {
      RebuiltCount(s.tickets, k);
    }
    WindowSumAgrees(s.counters, Rebuilt(s.tickets), x, from);
  }

  /** Every run of such calls refines the log. */
  ghost predicate RunsRefine(rules: seq<Rule>, names: Names)
  {
    forall clock, events, x, from | EventsAllowed(names, events) :: Refines(Run(rules, Init(clock), events), x, from)
  }

  // ---------------------------------------------------------------------------
  // Colliding rules do not refine the log
  // ---------------------------------------------------------------------------

  /** All writes of the batch on the stream of a document reach that document. */
  predicate OneDoc(ws: seq<CounterWrite>, k: CounterKey)
  {
    forall w | w in ws && w.StreamOf() == k.StreamOf() :: w.Doc() == k && w.increment >= 0
  }

  lemma {:induction false} ClaimedIsNet(ws: seq<CounterWrite>, k: CounterKey)
    requires OneDoc(ws, k)
    ensures ClaimedOn(ws, k.StreamOf()) == NetOn(ws, k)
  {
    if ws != [] {
      var init, w := ws[..|ws|-1], ws[|ws|-1];
      assert w in ws && forall v | v in init :: v in ws;
      ClaimedIsNet(init, k);
    }
  }

  lemma {:induction false} UsedIsClaims(claims: seq<Claim>, k: CounterKey, since: int)
    requires forall c | c in claims :: c.at >= since
    ensures UsedIn(claims, k.StreamOf(), since) >= ClaimsOn(claims, k)
  {
    if claims != [] {
      var init, c := claims[..|claims|-1], claims[|claims|-1];
      assert c in claims && forall d | d in init :: d in claims;
      UsedIsClaims(init, k, since);
    }
  }

  /** The document of a bucket that a request at this clock claims in. */
  predicate AtClock(k: CounterKey, nowMs: int)
  {
    k.dimension == StoredDimension(k.dimension) && k.bucketStart == BucketStartFor(nowMs, k.windowSeconds)
  }

  lemma ReserveDoc(rules: seq<Rule>, q: Request, k: CounterKey, w: CounterWrite)
    requires AtClock(k, q.nowMs) && w in Coalesced(Writes(Planned(rules, q, true))) && w.StreamOf() == k.StreamOf()
    ensures w.Doc() == k
  {
    var e := EntryOfWrite(Writes(Planned(rules, q, true)), w);
    var p := PlanOfWrite(Planned(rules, q, true), e);
    PlannedFrom(rules, q, p);
  }

  /** Every write of a reserve reaches, within its stream, the bucket of the request. */
  lemma ReserveOneDoc(rules: seq<Rule>, q: Request, k: CounterKey)
    requires AtClock(k, q.nowMs)
    ensures OneDoc(Coalesced(Writes(Planned(rules, q, true))), k)
  {
    var ws := Writes(Planned(rules, q, true));
    HeldNet(Planned(rules, q, true), q.nowMs, k);
    CoalescedClaims(ws);
    forall w | w in Coalesced(ws) && w.StreamOf() == k.StreamOf() ensures w.Doc() == k {
      ReserveDoc(rules, q, k, w);
    }
  }

  lemma HeldUsed(planned: seq<PlannedHold>, at: int, k: CounterKey)
    ensures UsedIn(HeldClaims(planned, at), k.StreamOf(), at) >= NetOn(Writes(planned), k)
  {
    var claims := HeldClaims(planned, at);
    HeldNet(planned, at, k);
    forall c | c in claims ensures c.at >= at {
      var i :| 0 <= i < |claims| && claims[i] == c;
    }
    UsedIsClaims(claims, k, at);
  }

  lemma ReserveSum(rules: seq<Rule>, q: Request, k: CounterKey, from: int)
    requires AtClock(k, q.nowMs)
    ensures var out := Coalesced(Writes(Planned(rules, q, true)));
      WindowSum(ApplyAll(map[], out), k.StreamOf(), from) <= NetOn(out, k)
  {
    var out := Coalesced(Writes(Planned(rules, q, true)));
    ReserveOneDoc(rules, q, k);
    ClaimedIsNet(out, k);
    BatchRaisesAtMost(map[], out, k.StreamOf(), from);
    assert Window(map[], k.StreamOf(), from) == map[];
  }

  lemma UsedOfOne(t: Ticket, x: Stream, since: int)
    ensures UsedSince([t], x, since) == UsedIn(t.claims, x, since)
  {
    assert [t][..0] == [];
  }

  lemma UnrefinedReserve(rules: seq<Rule>, q: Request, k: CounterKey, s: State)
    requires AtClock(k, q.nowMs)
    requires NetOn(Coalesced(Writes(Planned(rules, q, true))), k) < NetOn(Writes(Planned(rules, q, true)), k)
    requires s.counters == ApplyAll(map[], Coalesced(Writes(Planned(rules, q, true))))
    requires s.tickets == [Ticket(q, HeldClaims(Planned(rules, q, true), q.nowMs), true)]
    ensures !Refines(s, k.StreamOf(), q.nowMs - BucketMs(k.windowSeconds) + 1)
  {
    var from := q.nowMs - BucketMs(k.windowSeconds) + 1;
    HeldUsed(Planned(rules, q, true), q.nowMs, k);
    ReserveSum(rules, q, k, from);
    UsedOfOne(s.tickets[0], k.StreamOf(), q.nowMs);
  }

  lemma LossIsPlanned(planned: seq<PlannedHold>, k: CounterKey) returns (p: PlannedHold)
    requires NetOn(Coalesced(Writes(planned)), k) < NetOn(Writes(planned), k)
    ensures p in planned && p.Write().Doc() == k
  {
    HeldNet(planned, 0, k);
    CoalescedCount(planned, k);
    p := PlanOnDoc(planned, k);
  }

  lemma {:induction false} PlanOnDoc(planned: seq<PlannedHold>, k: CounterKey) returns (p: PlannedHold)
    requires NetOn(Writes(planned), k) > 0
    ensures p in planned && p.Write().Doc() == k
  {
    var init, last := planned[..|planned|-1], planned[|planned|-1];
    assert Writes(planned)[..|init|] == Writes(init);
    if last.Write().Doc() == k {
      p := last;
    } else {
      p := PlanOnDoc(init, k);
    }
  }

  lemma CollisionUnrefined(rules: seq<Rule>, names: Names, r: Rule, s: Rule)
    requires r in rules && s in rules && r != s && Collide(r, s, names)
    ensures !RunsRefine(rules, names)
  {
    var q := CollidingCall(r, s);
    var k := CollisionLoses(rules, names, r, s);
    var p := LossIsPlanned(Planned(rules, q, true), k);
    HeldTimed(rules, q);
    CollidingReserve(rules, names, r, s);
    OneStepRun(rules, Init(0), ReserveEv(q));
    CollidingWrites(r, s, names);
    OneCallAllowed(names, q);
    UnrefinedReserve(rules, q, k, Run(rules, Init(0), [ReserveEv(q)]));
  }

  /**
   In every state a run reaches the counter window sum lies between the logged usage since the
   window start and the logged usage since one bucket later, less an instant.
   */
  lemma CountersRefineLog(rules: seq<Rule>, names: Names, clock: int, events: seq<Event>, x: Stream, from: int)
    requires EventsAllowed(names, events)
    requires DistinctIds(rules) && WritesApart(rules, names)
    ensures var s := Run(rules, Init(clock), events);
      && UsedSince(s.tickets, x, from + BucketMs(x.windowSeconds) - 1) <= WindowSum(s.counters, x, from)
      && WindowSum(s.counters, x, from) <= UsedSince(s.tickets, x, from)
  {
    RunConserves(rules, names, clock, events);
    RunTimed(rules, clock, events);
    ConservedRefines(Run(rules, Init(clock), events), x, from);
  }

  /** The counters refine the log in every run exactly when no two rules can write under one key. */
  lemma RefinementExactlyWhen(rules: seq<Rule>, names: Names)
    requires DistinctIds(rules)
    ensures RunsRefine(rules, names) <==> WritesApart(rules, names)
  {
    if WritesApart(rules, names) {
      forall clock, events, x, from | EventsAllowed(names, events)
        ensures Refines(Run(rules, Init(clock), events), x, from)
      {
        CountersRefineLog(rules, names, clock, events, x, from);
      }
    } else {
      var r, s :| r in rules && s in rules && Collide(r, s, names) && r != s;
      CollisionUnrefined(rules, names, r, s);
    }
  }

  /** Rules that write apart and meet on a hard stream are one rule. */
  lemma OneRuleOn(rules: seq<Rule>, names: Names, r: Rule, o: Rule, x: Stream)
    requires WritesApart(rules, names) && r in rules && o in rules && Hard(r) && Governs(r, x) && Governs(o, x)
    ensures o == r
  {
    assert Collide(r, o, names);
  }

  lemma OneCapOn(rules: seq<Rule>, names: Names, r: Rule, x: Stream)
    requires WritesApart(rules, names) && r in rules && Hard(r) && Governs(r, x)
    ensures CapOn(rules, x, r.capValue)
  {
    forall o | o in rules && Governs(o, x) ensures o.capValue == r.capValue {
      OneRuleOn(rules, names, r, o, x);
    }
  }

  /** True usage over the last window less one bucket is within the cap. */
  ghost predicate RecentWithinCap(s: State, r: Rule, x: Stream)
  {
    UsedSince(s.tickets, x, s.clock - (r.windowSeconds * 1000 - BucketMs(r.windowSeconds)) - 1) <= r.capValue
  }

  lemma CappedUsage(s: State, r: Rule, x: Stream, from: int)
    requires Governs(r, x) && CapAt(s.counters, s.clock, r, x) && Refines(s, x, from)
    requires from == s.clock - r.windowSeconds * 1000
    ensures RecentWithinCap(s, r, x)
  {
    assert from + BucketMs(x.windowSeconds) - 1 == s.clock - (r.windowSeconds * 1000 - BucketMs(r.windowSeconds)) - 1;
  }

  lemma RunCapped(
    rules: seq<Rule>, names: Names, clock: int, events: seq<Event>, r: Rule, x: Stream, s: State, from: int)
    requires EventsAllowed(names, events)
    requires DistinctIds(rules) && WritesApart(rules, names)
    requires r in rules && Hard(r) && Governs(r, x) && s == Run(rules, Init(clock), events)
    ensures CapAt(s.counters, s.clock, r, x) && Refines(s, x, from)
  {
    OneCapOn(rules, names, r, x);
    RunKeepsCap(rules, clock, events, r, x);
    CountersRefineLog(rules, names, clock, events, x, from);
  }

  lemma UsageOfRun(
    rules: seq<Rule>, names: Names, clock: int, events: seq<Event>, r: Rule, x: Stream, s: State, from: int)
    requires EventsAllowed(names, events)
    requires DistinctIds(rules) && WritesApart(rules, names)
    requires r in rules && Hard(r) && Governs(r, x) && s == Run(rules, Init(clock), events)
    requires from == s.clock - r.windowSeconds * 1000
    ensures RecentWithinCap(s, r, x)
  {
    RunCapped(rules, names, clock, events, r, x, s, from);
    CappedUsage(s, r, x, from);
  }

  /**
   True usage of a hard stream, over the last window less one bucket up to the largest clock
   used, is within the cap in every state a run reaches.
   */
  lemma TrueUsageWithinCap(rules: seq<Rule>, names: Names, clock: int, events: seq<Event>, r: Rule, x: Stream)
    requires EventsAllowed(names, events)
    requires DistinctIds(rules) && WritesApart(rules, names)
    requires r in rules && Hard(r) && Governs(r, x)
    ensures RecentWithinCap(Run(rules, Init(clock), events), r, x)
  {
    var s := Run(rules, Init(clock), events);
    UsageOfRun(rules, names, clock, events, r, x, s, s.clock - r.windowSeconds * 1000);
  }
}
