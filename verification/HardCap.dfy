/**
 The hard cap over whole runs: under which rule lists no interleaving of reserves, settles
 and releases, even with clocks out of order, takes a tokens or requests window past its cap.
 */
module HardCap {
  import opened Options
  import opened CounterStore
  import opened RateLimits
  import opened LimitRuns
  import opened Coalescing
  import opened RateLimitStreams
  import opened JsText

  predicate Hard(rule: Rule) { !AllowsCapOvershoot(rule.dimension) }

  /** The window of one stream, summed back from the clock, is within the cap of one rule. */
  ghost predicate CapAt(m: Counters, clock: int, r: Rule, x: Stream)
  {
    WindowSum(m, x, clock - r.windowSeconds * 1000) <= r.capValue
  }

  /** No hard window, summed back from the largest clock used so far, is past its cap. */
  ghost predicate CapsHold(rules: seq<Rule>, s: State)
  {
    forall r, x | r in rules && Hard(r) && Governs(r, x) :: CapAt(s.counters, s.clock, r, x)
  }

  /** Hard rules that can meet on a counter carry one cap. */
  predicate CapsAgree(rules: seq<Rule>)
  {
    forall r, s | r in rules && s in rules && Hard(r) && Overlap(r, s) :: r.capValue == s.capValue
  }

  /** Every rule that governs the stream carries this cap. */
  ghost predicate CapOn(rules: seq<Rule>, x: Stream, cap: int)
  {
    forall o | o in rules && Governs(o, x) :: o.capValue == cap
  }

  lemma CapsAgreeOn(rules: seq<Rule>, r: Rule, x: Stream)
    requires CapsAgree(rules) && r in rules && Hard(r) && Governs(r, x)
    ensures CapOn(rules, x, r.capValue)
  {
    forall o | o in rules && Governs(o, x) ensures o.capValue == r.capValue {
      GovernedOverlap(r, o, x);
    }
  }

  ghost predicate RunsAreSafe(rules: seq<Rule>)
  {
    forall clock, events :: CapsHold(rules, Run(rules, Init(clock), events))
  }

  // ---------------------------------------------------------------------------
  // Agreeing caps suffice
  // ---------------------------------------------------------------------------

  ghost function Room(m: Counters, r: Rule, x: Stream, nowMs: int): nat
  {
    HardCapRoom(r.capValue, WindowSum(m, x, nowMs - r.windowSeconds * 1000))
  }

  /** Every claim of the batch on the stream is in one bucket and fits the room. */
  ghost predicate BatchFits(m: Counters, entries: seq<CounterWrite>, r: Rule, x: Stream, bucketStart: int, nowMs: int)
  {
    forall e | e in entries :: FitsOn(e, x, bucketStart, Room(m, r, x, nowMs))
  }

  /** A batch whose claims on a stream share a bucket and fit the room keeps the cap, as time moves on. */
  lemma FittingBatch(m: Counters, entries: seq<CounterWrite>, r: Rule, x: Stream, bucketStart: int, clock: int,
      nowMs: int)
    requires CapAt(m, clock, r, x)
    requires BatchFits(m, entries, r, x, bucketStart, nowMs)
    ensures CapAt(ApplyAll(m, Coalesced(entries)), Max(clock, nowMs), r, x)
  {
    CoalescedClaimFits(entries, x, bucketStart, Room(m, r, x, nowMs));
    RoomKeepsCap(m, Coalesced(entries), r, x, clock, nowMs);
  }

  lemma CapOutlivesTime(m: Counters, clock: int, nowMs: int, r: Rule, x: Stream)
    requires CapAt(m, clock, r, x)
    ensures CapAt(m, Max(clock, nowMs), r, x)
  {
    WindowShrinks(m, x, clock - r.windowSeconds * 1000, Max(clock, nowMs) - r.windowSeconds * 1000);
  }

  lemma RoomKeepsCap(m: Counters, ws: seq<CounterWrite>, r: Rule, x: Stream, clock: int, nowMs: int)
    requires CapAt(m, clock, r, x)
    requires ClaimedOn(ws, x) <= Room(m, r, x, nowMs)
    ensures CapAt(ApplyAll(m, ws), Max(clock, nowMs), r, x)
  {
    var from := Max(clock, nowMs) - r.windowSeconds * 1000;
    BatchRaisesAtMost(m, ws, x, from);
    WindowShrinks(m, x, clock - r.windowSeconds * 1000, from);
    WindowShrinks(m, x, nowMs - r.windowSeconds * 1000, from);
  }

  lemma {:induction false} NoViolation(m: Counters, planned: seq<PlannedHold>, nowMs: int)
    ensures Violations(m, planned, nowMs) == [] <==> forall p | p in planned :: Fits(m, p)
  {
    if planned != [] {
      var init, last := planned[..|planned|-1], planned[|planned|-1];
      NoViolation(m, init, nowMs);
      assert planned == init + [last];
    }
  }

  /** A call that claims on a stream claims there, and as much, for every hard rule that governs it. */
  lemma PlanShared(rules: seq<Rule>, q: Request, r: Rule, x: Stream, p: PlannedHold)
    requires r in rules && Hard(r) && Governs(r, x) && p in Planned(rules, q, true) && p.StreamOf() == x
    ensures PlanOne(r, q).Some? && PlanOne(r, q).value in Planned(rules, q, true)
    ensures PlanOne(r, q).value.StreamOf() == x && PlanOne(r, q).value.increment == p.increment
    ensures p.rule.dimension == r.dimension
  {
    PlannedFrom(rules, q, p);
    Coresolve(p.rule, r, q.modelAliasId, x.scopeTarget);
    PlannedMember(rules, q, true);
  }

  lemma PlanHasRoom(m: Counters, planned: seq<PlannedHold>, q: Request, p: PlannedHold, x: Stream)
    requires Violations(m, planned, q.nowMs) == [] && p in planned
    requires PlanOne(p.rule, q) == Some(p) && p.StreamOf() == x
    ensures p.increment <= Room(m, p.rule, x, q.nowMs)
  {
    NoViolation(m, planned, q.nowMs);
    assert Fits(m, p);
  }

  lemma ReserveClaim(rules: seq<Rule>, m: Counters, q: Request, r: Rule, x: Stream, p: PlannedHold)
    requires r in rules && Hard(r) && Governs(r, x) && p in Planned(rules, q, true)
    requires Violations(m, Planned(rules, q, true), q.nowMs) == []
    ensures FitsOn(p.Write(), x, BucketStartFor(q.nowMs, x.windowSeconds), Room(m, r, x, q.nowMs))
  {
    if p.StreamOf() == x {
      PlanShared(rules, q, r, x, p);
      PlannedFrom(rules, q, p);
      PlanHasRoom(m, Planned(rules, q, true), q, PlanOne(r, q).value, x);
    }
  }

  /** Whatever the caps of the other rules, an admitted call fits the room of each hard rule. */
  lemma ReserveFits(rules: seq<Rule>, m: Counters, q: Request, r: Rule, x: Stream)
    requires r in rules && Hard(r) && Governs(r, x)
    requires Violations(m, Planned(rules, q, true), q.nowMs) == []
    ensures BatchFits(m, Writes(Planned(rules, q, true)), r, x, BucketStartFor(q.nowMs, x.windowSeconds), q.nowMs)
  {
    var planned := Planned(rules, q, true);
    forall e | e in Writes(planned)
      ensures FitsOn(e, x, BucketStartFor(q.nowMs, x.windowSeconds), Room(m, r, x, q.nowMs))
    {
      var p := PlanOfWrite(planned, e);
      ReserveClaim(rules, m, q, r, x, p);
    }
  }

  lemma ReserveKeepsCap(rules: seq<Rule>, m: Counters, clock: int, q: Request, r: Rule, x: Stream)
    requires r in rules && Hard(r) && Governs(r, x) && CapAt(m, clock, r, x)
    ensures CapAt(AfterReserve(m, Planned(rules, q, true), q.nowMs), Max(clock, q.nowMs), r, x)
  {
    var planned := Planned(rules, q, true);
    if Violations(m, planned, q.nowMs) == [] {
      ReserveFits(rules, m, q, r, x);
      FittingBatch(m, Writes(planned), r, x, BucketStartFor(q.nowMs, x.windowSeconds), clock, q.nowMs);
    } else {
      CapOutlivesTime(m, clock, q.nowMs, r, x);
    }
  }

  /** The reservation under `q` holds something of the stream. */
  ghost predicate HoldsStream(rules: seq<Rule>, q: Request, x: Stream)
  {
    exists r :: r in rules && r.active && PlanOne(r, q).Some? && PlanOne(r, q).value.StreamOf() == x
  }

  /** The bucket that a settle claims in on one stream: the held one, or else the current one. */
  ghost function ClaimBucket(rules: seq<Rule>, q: Request, x: Stream, nowMs: int): int
  {
    BucketStartFor(if HoldsStream(rules, q, x) then q.nowMs else nowMs, x.windowSeconds)
  }

  lemma HeldStreamIsShared(rules: seq<Rule>, q: Request, r: Rule, x: Stream)
    requires r in rules && Hard(r) && Governs(r, x) && HoldsStream(rules, q, x)
    ensures PlanOne(r, q).Some? && PlanOne(r, q).value.StreamOf() == x
  {
    var o :| o in rules && o.active && PlanOne(o, q).Some? && PlanOne(o, q).value.StreamOf() == x;
    Coresolve(o, r, q.modelAliasId, x.scopeTarget);
  }

  lemma HeldRuleClaim(rules: seq<Rule>, m: Counters, q: Request, usage: Usage, nowMs: int, o: Rule, x: Stream,
      e: CounterWrite)
    requires DistinctIds(rules) && o in rules && !AllowsCapOvershoot(x.dimension) && PlanOne(o, q).Some?
    requires SettleWrite(m, Holds(Planned(rules, q, true)), o, usage, nowMs) == Some(e)
    requires e.StreamOf() == x && e.increment > 0
    ensures Governs(o, x) && Hard(o)
    ensures FitsOn(e, x, ClaimBucket(rules, q, x, nowMs), Room(m, o, x, nowMs))
  {
    HoldForRule(rules, q, o);
  }

  lemma FreshRuleClaim(rules: seq<Rule>, m: Counters, q: Request, usage: Usage, nowMs: int, o: Rule, x: Stream,
      e: CounterWrite)
    requires DistinctIds(rules) && o in rules && !AllowsCapOvershoot(x.dimension) && PlanOne(o, q).None?
    requires SettleWrite(m, Holds(Planned(rules, q, true)), o, usage, nowMs) == Some(e)
    requires e.StreamOf() == x && e.increment > 0
    ensures Governs(o, x) && Hard(o)
    ensures FitsOn(e, x, ClaimBucket(rules, q, x, nowMs), Room(m, o, x, nowMs))
  {
    HoldForRule(rules, q, o);
    if HoldsStream(rules, q, x) {
      HeldStreamIsShared(rules, q, o, x);
    }
  }

  /** One rule's own claim on a stream it governs. */
  lemma RuleClaim(rules: seq<Rule>, m: Counters, q: Request, usage: Usage, nowMs: int, o: Rule, x: Stream,
      e: CounterWrite)
    requires DistinctIds(rules) && o in rules && !AllowsCapOvershoot(x.dimension)
    requires SettleWrite(m, Holds(Planned(rules, q, true)), o, usage, nowMs) == Some(e)
    requires e.StreamOf() == x && e.increment > 0
    ensures Governs(o, x) && Hard(o)
    ensures FitsOn(e, x, ClaimBucket(rules, q, x, nowMs), Room(m, o, x, nowMs))
  {
    if PlanOne(o, q).Some? {
      HeldRuleClaim(rules, m, q, usage, nowMs, o, x, e);
    } else {
      FreshRuleClaim(rules, m, q, usage, nowMs, o, x, e);
    }
  }

  lemma {:induction false} OrphansFit(holds: seq<LimitHold>, consumed: set<string>, x: Stream, bucketStart: int,
      room: nat)
    ensures forall e | e in OrphanWrites(holds, consumed) :: FitsOn(e, x, bucketStart, room)
  {
    if holds != [] {
      OrphansFit(holds[..|holds|-1], consumed, x, bucketStart, room);
    }
  }

  lemma SettleClaim(rules: seq<Rule>, m: Counters, q: Request, usage: Usage, nowMs: int, r: Rule, x: Stream,
      e: CounterWrite)
    requires DistinctIds(rules) && CapOn(rules, x, r.capValue) && Hard(r) && Governs(r, x)
    requires e in RuleWrites(m, Holds(Planned(rules, q, true)), rules, usage, nowMs)
    ensures FitsOn(e, x, ClaimBucket(rules, q, x, nowMs), Room(m, r, x, nowMs))
  {
    var holds := Holds(Planned(rules, q, true));
    if e.StreamOf() == x && e.increment > 0 {
      var o := RuleOfWrite(m, holds, rules, usage, nowMs, e);
      RuleClaim(rules, m, q, usage, nowMs, o, x, e);
      assert o.capValue == r.capValue;
    }
  }

  lemma SettleFits(rules: seq<Rule>, m: Counters, q: Request, usage: Usage, nowMs: int, r: Rule, x: Stream)
    requires DistinctIds(rules) && CapOn(rules, x, r.capValue) && Hard(r) && Governs(r, x)
    ensures BatchFits(m, SettleWrites(m, Holds(Planned(rules, q, true)), rules, usage, nowMs), r, x,
      ClaimBucket(rules, q, x, nowMs), nowMs)
  {
    var holds := Holds(Planned(rules, q, true));
    var bucket, room := ClaimBucket(rules, q, x, nowMs), Room(m, r, x, nowMs);
    OrphansFit(holds, ConsumedIds(holds, rules, usage.modelAliasId), x, bucket, room);
    forall e | e in RuleWrites(m, holds, rules, usage, nowMs) ensures FitsOn(e, x, bucket, room) {
      SettleClaim(rules, m, q, usage, nowMs, r, x, e);
    }
  }

  lemma SettleKeepsCap(rules: seq<Rule>, m: Counters, clock: int, q: Request, usage: Usage, nowMs: int, r: Rule,
      x: Stream)
    requires DistinctIds(rules) && CapOn(rules, x, r.capValue) && Hard(r) && Governs(r, x) && CapAt(m, clock, r, x)
    ensures var entries := SettleWrites(m, Holds(Planned(rules, q, true)), rules, usage, nowMs);
      CapAt(ApplyAll(m, Coalesced(entries)), Max(clock, nowMs), r, x)
  {
    SettleFits(rules, m, q, usage, nowMs, r, x);
    FittingBatch(m, SettleWrites(m, Holds(Planned(rules, q, true)), rules, usage, nowMs), r, x,
                 ClaimBucket(rules, q, x, nowMs), clock, nowMs);
  }

  lemma DirectClaim(rules: seq<Rule>, m: Counters, usage: Usage, nowMs: int, r: Rule, x: Stream, e: CounterWrite)
    requires CapOn(rules, x, r.capValue) && Hard(r) && Governs(r, x)
    requires e in SettleWrites(m, [], rules, usage, nowMs)
    ensures FitsOn(e, x, BucketStartFor(nowMs, x.windowSeconds), Room(m, r, x, nowMs))
  {
    var o := RuleOfWrite(m, [], rules, usage, nowMs, e);
    if e.StreamOf() == x {
      assert Governs(o, x);
    }
  }

  lemma DirectKeepsCap(rules: seq<Rule>, m: Counters, clock: int, usage: Usage, nowMs: int, r: Rule, x: Stream)
    requires CapOn(rules, x, r.capValue) && Hard(r) && Governs(r, x) && CapAt(m, clock, r, x)
    ensures CapAt(ApplyAll(m, Coalesced(SettleWrites(m, [], rules, usage, nowMs))), Max(clock, nowMs), r, x)
  {
    var entries := SettleWrites(m, [], rules, usage, nowMs);
    var bucket := BucketStartFor(nowMs, x.windowSeconds);
    forall e | e in entries ensures FitsOn(e, x, bucket, Room(m, r, x, nowMs)) {
      DirectClaim(rules, m, usage, nowMs, r, x, e);
    }
    FittingBatch(m, entries, r, x, bucket, clock, nowMs);
  }

  lemma {:induction false} ReleasesFit(holds: seq<LimitHold>, x: Stream, bucketStart: int, room: nat)
    ensures forall e | e in ReleaseWrites(holds) :: FitsOn(e, x, bucketStart, room)
  {
    if holds != [] {
      ReleasesFit(holds[..|holds|-1], x, bucketStart, room);
    }
  }

  lemma ReleaseKeepsCap(m: Counters, clock: int, holds: seq<LimitHold>, r: Rule, x: Stream)
    requires CapAt(m, clock, r, x)
    ensures CapAt(ApplyAll(m, Coalesced(ReleaseWrites(holds))), clock, r, x)
  {
    ReleasesFit(holds, x, 0, Room(m, r, x, clock));
    FittingBatch(m, ReleaseWrites(holds), r, x, 0, clock, clock);
  }

  lemma StepKeepsCap(rules: seq<Rule>, s: State, e: Event, r: Rule, x: Stream)
    requires DistinctIds(rules) && r in rules && CapOn(rules, x, r.capValue) && Hard(r) && Governs(r, x)
    requires CapAt(s.counters, s.clock, r, x)
    ensures CapAt(Step(rules, s, e).counters, Step(rules, s, e).clock, r, x)
  {
    match e
    case ReserveEv(q) => ReserveKeepsCap(rules, s.counters, s.clock, q, r, x);
    case SettleEv(i, usage, nowMs) =>
      if Open(s, i) {
        SettleKeepsCap(rules, s.counters, s.clock, s.tickets[i].request, usage, nowMs, r, x);
      }
    case DirectEv(usage, nowMs) => DirectKeepsCap(rules, s.counters, s.clock, usage, nowMs, r, x);
    case ReleaseEv(i) =>
      if Open(s, i) {
        ReleaseKeepsCap(s.counters, s.clock, Holds(TicketPlan(rules, s.tickets[i])), r, x);
      }
  }

  /** Every step keeps every hard cap, from any state that meets them. */
  lemma StepKeepsCaps(rules: seq<Rule>, s: State, e: Event)
    requires DistinctIds(rules) && CapsAgree(rules) && CapsHold(rules, s)
    ensures CapsHold(rules, Step(rules, s, e))
  {
    forall r, x | r in rules && Hard(r) && Governs(r, x)
      ensures CapAt(Step(rules, s, e).counters, Step(rules, s, e).clock, r, x)
    {
      CapsAgreeOn(rules, r, x);
      StepKeepsCap(rules, s, e, r, x);
    }
  }

  lemma EmptyKeepsCap(clock: int, r: Rule, x: Stream)
    ensures CapAt(map[], clock, r, x)
  {
    assert Window(map[], x, clock - r.windowSeconds * 1000) == map[];
  }

  lemma {:induction false} RunKeepsCap(rules: seq<Rule>, clock: int, events: seq<Event>, r: Rule, x: Stream)
    requires DistinctIds(rules) && r in rules && CapOn(rules, x, r.capValue) && Hard(r) && Governs(r, x)
    ensures CapAt(Run(rules, Init(clock), events).counters, Run(rules, Init(clock), events).clock, r, x)
  {
    if events == [] {
      EmptyKeepsCap(clock, r, x);
    } else {
      RunKeepsCap(rules, clock, events[..|events|-1], r, x);
      StepKeepsCap(rules, Run(rules, Init(clock), events[..|events|-1]), events[|events|-1], r, x);
    }
  }

  lemma RunKeepsCaps(rules: seq<Rule>, clock: int, events: seq<Event>)
    requires DistinctIds(rules) && CapsAgree(rules)
    ensures CapsHold(rules, Run(rules, Init(clock), events))
  {
    var s := Run(rules, Init(clock), events);
    forall r, x | r in rules && Hard(r) && Governs(r, x) ensures CapAt(s.counters, s.clock, r, x) {
      CapsAgreeOn(rules, r, x);
      RunKeepsCap(rules, clock, events, r, x);
    }
  }

  // ---------------------------------------------------------------------------
  // Disagreeing caps do not
  // ---------------------------------------------------------------------------

  function OneUnit(alias: Option<string>): Usage { Usage(1, 0, alias) }

  lemma DirectWritesClaim(m: Counters, rules: seq<Rule>, usage: Usage, nowMs: int)
    ensures forall w | w in SettleWrites(m, [], rules, usage, nowMs) ::
      w.increment > 0 && exists r :: r in rules && ResolveScopeTarget(r, usage.modelAliasId) == Some(w.scopeTarget)
  {
    forall w | w in SettleWrites(m, [], rules, usage, nowMs)
      ensures w.increment > 0
        && exists r :: r in rules && ResolveScopeTarget(r, usage.modelAliasId) == Some(w.scopeTarget)
    {
      var r := RuleOfWrite(m, [], rules, usage, nowMs, w);
    }
  }

  lemma DirectAllClaims(m: Counters, rules: seq<Rule>, usage: Usage, nowMs: int)
    ensures AllClaims(SettleWrites(m, [], rules, usage, nowMs))
  {
    DirectWritesClaim(m, rules, usage, nowMs);
  }

  /** The claim of a rule with room left, as the direct settle of one unit writes it. */
  function UnitWrite(b: Rule, x: Stream): CounterWrite
  {
    CounterWrite(b.dimension, b.windowSeconds, BucketStartFor(0, b.windowSeconds), x.scopeTarget, 1)
  }

  lemma UnitIsClaimed(rules: seq<Rule>, m: Counters, b: Rule, x: Stream)
    requires b in rules && Hard(b) && Governs(b, x) && x.scopeTarget != Some("")
    requires WindowSum(m, x, 0 - b.windowSeconds * 1000) < b.capValue
    ensures UnitWrite(b, x) in SettleWrites(m, [], rules, OneUnit(x.scopeTarget), 0)
  {
    assert SettleWrite(m, [], b, OneUnit(x.scopeTarget), 0) == Some(UnitWrite(b, x));
    RuleWritesMember(m, [], rules, OneUnit(x.scopeTarget), 0);
  }

  lemma CoalescedClaims(entries: seq<CounterWrite>)
    requires AllClaims(entries)
    ensures AllClaims(Coalesced(entries))
  {
    CoalescedIsLeast(entries);
    forall w | w in Coalesced(entries) ensures w.increment >= 0 {
      assert IsLeast(w.increment, CounterWriteKey(w), entries);
    }
  }

  predicate UnitAt(out: seq<CounterWrite>, x: Stream, from: int, i: nat)
  {
    i < |out| && out[i].StreamOf() == x && out[i].increment >= 1 && out[i].bucketStart >= from
  }

  /** The coalesced batch still claims at least one unit on the stream. */
  lemma UnitSurvives(rules: seq<Rule>, m: Counters, b: Rule, x: Stream, from: int)
    requires b in rules && Hard(b) && Governs(b, x) && x.scopeTarget != Some("") && from == 0 - b.windowSeconds * 1000
    requires WindowSum(m, x, from) < b.capValue
    ensures HasUnit(SettleWrites(m, [], rules, OneUnit(x.scopeTarget), 0), x, from)
  {
    var entries := SettleWrites(m, [], rules, OneUnit(x.scopeTarget), 0);
    UnitIsClaimed(rules, m, b, x);
    DirectWritesClaim(m, rules, OneUnit(x.scopeTarget), 0);
    DirectAllClaims(m, rules, OneUnit(x.scopeTarget), 0);
    var i := WriteForKey(entries, UnitWrite(b, x));
    var w := Coalesced(entries)[i];
    CounterWriteKeyInjective(w, UnitWrite(b, x));
    SurvivorInPlace(entries, rules, x, w);
    assert UnitAt(Coalesced(entries), x, from, i);
  }

  lemma SurvivorInPlace(entries: seq<CounterWrite>, rules: seq<Rule>, x: Stream, w: CounterWrite)
    requires forall e | e in entries ::
      e.increment > 0 && exists r :: r in rules && ResolveScopeTarget(r, x.scopeTarget) == Some(e.scopeTarget)
    requires IsLeast(w.increment, CounterWriteKey(w), entries)
    requires OrEmpty(w.scopeTarget) == OrEmpty(x.scopeTarget) && x.scopeTarget != Some("")
    requires FromEntry(w, entries)
    ensures w.increment >= 1 && w.scopeTarget == x.scopeTarget
  {
    var e :| e in entries && CounterWriteKey(e) == CounterWriteKey(w) && e.increment == w.increment;
    var o :| o in entries && w == o.(increment := w.increment);
    var r :| r in rules && ResolveScopeTarget(r, x.scopeTarget) == Some(o.scopeTarget);
  }

  lemma DirectRaises(rules: seq<Rule>, m: Counters, b: Rule, x: Stream, from: int, after: Counters)
    requires b in rules && Hard(b) && Governs(b, x) && x.scopeTarget != Some("") && from == 0 - b.windowSeconds * 1000
    requires WindowSum(m, x, from) < b.capValue
    requires after == ApplyAll(m, Coalesced(SettleWrites(m, [], rules, OneUnit(x.scopeTarget), 0)))
    ensures WindowSum(after, x, from) > WindowSum(m, x, from)
  {
    UnitSurvives(rules, m, b, x, from);
    CoalescedRaises(m, SettleWrites(m, [], rules, OneUnit(x.scopeTarget), 0), x, from, after);
  }

  /** A batch of claims that keeps a unit on the stream after coalescing. */
  ghost predicate HasUnit(entries: seq<CounterWrite>, x: Stream, from: int)
  {
    AllClaims(entries) && exists i: nat :: UnitAt(Coalesced(entries), x, from, i)
  }

  lemma CoalescedRaises(m: Counters, entries: seq<CounterWrite>, x: Stream, from: int, after: Counters)
    requires HasUnit(entries, x, from) && after == ApplyAll(m, Coalesced(entries))
    ensures WindowSum(after, x, from) > WindowSum(m, x, from)
  {
    var i: nat :| UnitAt(Coalesced(entries), x, from, i);
    CoalescedClaims(entries);
    BatchRaisesAtLeast(m, Coalesced(entries), x, from, i);
  }

  lemma DirectStep(rules: seq<Rule>, s: State, b: Rule, x: Stream, from: int)
    requires b in rules && Hard(b) && Governs(b, x) && x.scopeTarget != Some("") && from == 0 - b.windowSeconds * 1000
    requires WindowSum(s.counters, x, from) < b.capValue && s.clock == 0
    ensures var t := Step(rules, s, DirectEv(OneUnit(x.scopeTarget), 0));
      t.clock == 0 && WindowSum(t.counters, x, from) > WindowSum(s.counters, x, from)
  {
    DirectRaises(rules, s.counters, b, x, from, Step(rules, s, DirectEv(OneUnit(x.scopeTarget), 0)).counters);
  }

  lemma RunPush(rules: seq<Rule>, s: State, events: seq<Event>, e: Event)
    ensures Run(rules, s, events + [e]) == Step(rules, Run(rules, s, events), e)
  {
    assert (events + [e])[..|events|] == events;
  }

  /** One-unit settles without a reservation fill the stream up to the larger cap. */
  lemma {:induction false} ClaimsPileUp(rules: seq<Rule>, b: Rule, x: Stream, from: int, n: nat)
    returns (events: seq<Event>)
    requires b in rules && Hard(b) && Governs(b, x) && x.scopeTarget != Some("") && n <= b.capValue
    requires from == 0 - b.windowSeconds * 1000
    ensures Run(rules, Init(0), events).clock == 0
    ensures WindowSum(Run(rules, Init(0), events).counters, x, from) >= n
  {
    if n == 0 {
      events := [];
    } else {
      events := ClaimsPileUp(rules, b, x, from, n - 1);
      var s := Run(rules, Init(0), events);
      if WindowSum(s.counters, x, from) < n {
        DirectStep(rules, s, b, x, from);
        RunPush(rules, Init(0), events, DirectEv(OneUnit(x.scopeTarget), 0));
        events := events + [DirectEv(OneUnit(x.scopeTarget), 0)];
      }
    }
  }

  lemma DisagreementIsUnsafe(rules: seq<Rule>, a: Rule, b: Rule)
    requires a in rules && b in rules && Hard(a) && Overlap(a, b) && a.capValue < b.capValue
    ensures !RunsAreSafe(rules)
  {
    var x := MeetingStream(a, b);
    var from := 0 - a.windowSeconds * 1000;
    var events := ClaimsPileUp(rules, b, x, from, b.capValue);
    NotHeld(rules, Run(rules, Init(0), events), a, x, from);
    UnsafeRun(rules, 0, events);
  }

  lemma UnsafeRun(rules: seq<Rule>, clock: int, events: seq<Event>)
    requires !CapsHold(rules, Run(rules, Init(clock), events))
    ensures !RunsAreSafe(rules)
  {
  }

  lemma NotHeld(rules: seq<Rule>, s: State, a: Rule, x: Stream, from: int)
    requires a in rules && Hard(a) && Governs(a, x)
    requires from == s.clock - a.windowSeconds * 1000 && WindowSum(s.counters, x, from) > a.capValue
    ensures !CapsHold(rules, s)
  {
    assert !CapAt(s.counters, s.clock, a, x);
  }

  /**
   The hard-cap law. With distinct rule ids, every run from an empty store keeps every tokens
   and requests window within its cap exactly when hard rules that meet on a counter agree.
   */
  lemma HardCapExactlyWhen(rules: seq<Rule>)
    requires DistinctIds(rules)
    ensures RunsAreSafe(rules) <==> CapsAgree(rules)
  {
    if CapsAgree(rules) {
      forall clock, events ensures CapsHold(rules, Run(rules, Init(clock), events)) {
        RunKeepsCaps(rules, clock, events);
      }
    } else {
      var r, o :| r in rules && o in rules && Hard(r) && Overlap(r, o) && r.capValue != o.capValue;
      if r.capValue < o.capValue {
        DisagreementIsUnsafe(rules, r, o);
      } else {
        DisagreementIsUnsafe(rules, o, r);
      }
    }
  }

  lemma DifferentStreamsUnique(a: Rule, b: Rule)
    requires RateLimitStreamKey(a) != RateLimitStreamKey(b)
    ensures Unique([a, b])
  {
    forall i: nat, j: nat ensures !Clash([a, b], i, j) {
      if i < j < 2 { assert i == 0 && j == 1; }
    }
  }

  lemma AnyModelKey(any: Rule, named: Rule)
    requires any.scope == ModelScope && any.scopeTarget == None && NormalTarget(named) != ""
    ensures RateLimitStreamKey(any) != RateLimitStreamKey(named)
  {
    assert Trimmed("");
    assert |NormalTarget(any)| == 0;
    StreamKeyInjective(any, named);
  }

  /**
   Passing the config-time check is not enough: a rule for any model and one for a named model
   have different stream keys and meet on the named model's counter.
   */
  lemma UniqueRulesCanBeUnsafe(any: Rule, named: Rule)
    requires any.active && named.active && Hard(any) && any.id != named.id && named.capValue < any.capValue
    requires any.dimension == named.dimension && any.windowSeconds == named.windowSeconds
    requires any.scope == named.scope == ModelScope && any.scopeTarget == None && NormalTarget(named) != ""
    ensures DistinctIds([any, named]) && Unique([any, named]) && !RunsAreSafe([any, named])
  {
    AnyModelKey(any, named);
    DifferentStreamsUnique(any, named);
    DisagreementIsUnsafe([any, named], named, any);
  }
}
