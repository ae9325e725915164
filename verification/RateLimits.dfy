/**
 Admission, settlement and release of rolling-window limits: the pure rule helpers, the
 writes each operation plans, and the operations themselves over a `UsageRepo`.
 */
module RateLimits {
  import opened Options
  import opened CounterStore
  import opened MapSum
  import opened JsMap
  import Decimal

  type Pos = n: int | n > 0 witness 1

  datatype Scope = CustomerScope | PlanScope | ModelScope

  datatype Rule = Rule(
    id: string, windowSeconds: Pos, dimension: Dimension, capValue: Pos,
    scope: Scope, scopeTarget: Option<string>, active: bool)

  datatype Estimates = Estimates(tokens: Option<int>, spendMicros: Option<int>)

  datatype Usage = Usage(tokens: nat, spendMicros: nat, modelAliasId: Option<string>)

  /** One counter hold from preflight reservation. */
  datatype LimitHold = LimitHold(
    ruleId: string, dimension: Dimension, windowSeconds: nat, bucketStart: int,
    scopeTarget: Option<string>, reserved: nat, capValue: int)
  {
    function StreamOf(): Stream { Stream(StoredDimension(dimension), windowSeconds, scopeTarget) }

    function Write(increment: int): CounterWrite
    {
      CounterWrite(dimension, windowSeconds, bucketStart, scopeTarget, increment)
    }
  }

  datatype ViolatedLimit = ViolatedLimit(rule: Rule, current: nat, cap: int, retryAfterSeconds: int)

  const RESERVE_MAX_ATTEMPTS := 8

  // ---------------------------------------------------------------------------
  // Rule helpers
  // ---------------------------------------------------------------------------

  /** A request counts 1, whatever the usage says. */
  function RuleIncrement(rule: Rule, usage: Usage): nat
  {
    match rule.dimension
    case Tokens => usage.tokens
    case Requests => 1
    case SpendUnits => usage.spendMicros
    case SpendMicros => usage.spendMicros
  }

  function OrZero(x: Option<int>): int { if x.Some? then x.value else 0 }

  function EstimatedRuleIncrement(rule: Rule, est: Estimates): nat
  {
    match rule.dimension
    case Tokens => Max(0, OrZero(est.tokens))
    case Requests => 1
    case SpendUnits => Max(0, OrZero(est.spendMicros))
    case SpendMicros => Max(0, OrZero(est.spendMicros))
  }

  predicate AllowsCapOvershoot(d: Dimension) { d == SpendUnits || d == SpendMicros }

  /** What is left under the cap: with it the window is at the cap, or as far past it as it was. */
  function HardCapRoom(capValue: int, windowSum: int): (room: nat)
    ensures room > 0 ==> windowSum + room <= capValue
    ensures Max(0, windowSum) + room == Max(capValue, Max(0, windowSum))
  {
    Max(0, capValue - Max(0, windowSum))
  }

  function ClampSettleDelta(d: Dimension, delta: int, capValue: int, windowSum: nat): (r: int)
    ensures r <= delta
    ensures delta <= 0 || AllowsCapOvershoot(d) ==> r == delta
    ensures delta > 0 && !AllowsCapOvershoot(d) ==> 0 <= r && (r > 0 ==> windowSum + r <= capValue)
    ensures delta > 0 && !AllowsCapOvershoot(d) ==> r == delta || windowSum + r == Max(capValue, windowSum)
  {
    if delta <= 0 then delta
    else if AllowsCapOvershoot(d) then delta
    else Min(delta, HardCapRoom(capValue, windowSum))
  }

  /**
   `None` skips the rule for this request; `Some(None)` is the customer-wide counter.
   An empty rule target counts as no target.
   */
  function ResolveScopeTarget(rule: Rule, modelAliasId: Option<string>): Option<Option<string>>
  {
    match rule.scope
    case CustomerScope => Some(None)
    case PlanScope => Some(None)
    case ModelScope =>
      if Targeted(rule) then
        if modelAliasId == rule.scopeTarget then Some(rule.scopeTarget) else None
      else if modelAliasId.Some? then Some(modelAliasId)
      else None
  }

  predicate Targeted(rule: Rule) { rule.scopeTarget.Some? && rule.scopeTarget.value != "" }

  function BucketDurationSeconds(windowSeconds: int): (bucket: Pos)
    ensures windowSeconds > 0 ==> bucket <= windowSeconds
    ensures bucket == 1 || bucket == 60 || bucket == 300
    ensures (bucket == 1 <==> windowSeconds <= 60) && (bucket == 300 <==> windowSeconds > 3600)
  {
    if windowSeconds <= 60 then 1 else if windowSeconds <= 3600 then 60 else 300
  }

  function BucketMs(windowSeconds: int): Pos { BucketDurationSeconds(windowSeconds) * 1000 }

  function BucketStartFor(nowMs: int, windowSeconds: int): (start: int)
    ensures start <= nowMs < start + BucketMs(windowSeconds)
    ensures windowSeconds > 0 ==> nowMs - windowSeconds * 1000 < start
  {
    var b := BucketMs(windowSeconds);
    FloorToMultiple(nowMs, b);
    nowMs / b * b
  }

  lemma FloorToMultiple(t: int, b: Pos)
    ensures t / b * b <= t < t / b * b + b
  {
  }

  lemma TileOfSecond(t: int, start: int)
    ensures t / 1000 * 1000 == start <==> start % 1000 == 0 && start <= t < start + 1000
  {
  }

  lemma TileOfMinute(t: int, start: int)
    ensures t / 60_000 * 60_000 == start <==> start % 60_000 == 0 && start <= t < start + 60_000
  {
  }

  lemma TileOfFive(t: int, start: int)
    ensures t / 300_000 * 300_000 == start <==> start % 300_000 == 0 && start <= t < start + 300_000
  {
  }

  /** The starts are the multiples of the bucket length, and a clock is in the bucket of its start. */
  lemma BucketsTile(nowMs: int, windowSeconds: int, start: int)
    ensures var b := BucketMs(windowSeconds);
      BucketStartFor(nowMs, windowSeconds) == start <==> start % b == 0 && start <= nowMs < start + b
  {
    if windowSeconds <= 60 {
      TileOfSecond(nowMs, start);
    } else if windowSeconds <= 3600 {
      TileOfMinute(nowMs, start);
    } else {
      TileOfFive(nowMs, start);
    }
  }

  // ---------------------------------------------------------------------------
  // Coalescing writes
  // ---------------------------------------------------------------------------

  function DimensionText(d: Dimension): (s: string)
    ensures '\0' !in s
  {
    match d
    case Tokens => "tokens"
    case Requests => "requests"
    case SpendUnits => "spend_units"
    case SpendMicros => "spend_micros"
  }

  function OrEmpty(t: Option<string>): string { if t.Some? then t.value else "" }

  function CounterWriteKey(w: CounterWrite): string
  {
    DimensionText(w.dimension) + "\0" + (Decimal.NatText(w.windowSeconds) + "\0" +
      (Decimal.IntText(w.bucketStart) + "\0" + OrEmpty(w.scopeTarget)))
  }

  /** Two claims keep the smaller, two releases the smaller magnitude; mixed signs keep the first. */
  function MergeIncrements(prev: int, next: int): int
  {
    if prev >= 0 && next >= 0 then Min(prev, next)
    else if prev <= 0 && next <= 0 then Max(prev, next)
    else prev
  }

  function CoalesceStep(m: JsMap<string, CounterWrite>, e: CounterWrite): JsMap<string, CounterWrite>
  {
    var key := CounterWriteKey(e);
    var prev := m.Get(key);
    if prev.None? then m.Set(key, e)
    else m.Set(key, prev.value.(increment := MergeIncrements(prev.value.increment, e.increment)))
  }

  function CoalesceMap(entries: seq<CounterWrite>): (m: JsMap<string, CounterWrite>)
    ensures m.Valid()
  {
    if entries == [] then Empty() else CoalesceStep(CoalesceMap(entries[..|entries|-1]), entries[|entries|-1])
  }

  function Coalesced(entries: seq<CounterWrite>): seq<CounterWrite>
  {
    CoalesceMap(entries).Values()
  }

  method CoalesceCounterWrites(entries: seq<CounterWrite>) returns (out: seq<CounterWrite>)
    ensures out == Coalesced(entries)
  {
    var m := Empty();
    for i := 0 to |entries|
      invariant m == CoalesceMap(entries[..i])
    {
      assert entries[..i+1][..i] == entries[..i];
      m := CoalesceStep(m, entries[i]);
    }
    assert entries[..|entries|] == entries;
    out := m.Values();
  }

  // ---------------------------------------------------------------------------
  // Planning holds
  // ---------------------------------------------------------------------------

  datatype PlannedHold = PlannedHold(
    rule: Rule, target: Option<string>, increment: Pos, bucketStart: int, windowStart: int)
  {
    function StreamOf(): Stream { Stream(StoredDimension(rule.dimension), rule.windowSeconds, target) }

    function Hold(): LimitHold
    {
      LimitHold(rule.id, rule.dimension, rule.windowSeconds, bucketStart, target, increment, rule.capValue)
    }

    function Write(): CounterWrite
    {
      CounterWrite(rule.dimension, rule.windowSeconds, bucketStart, target, increment)
    }
  }

  /** A request: what it is estimated to use, of which model, and when. */
  datatype Request = Request(est: Estimates, modelAliasId: Option<string>, nowMs: int)

  /** The claim a rule makes on a request, whether or not the rule is active. */
  function PlanOne(rule: Rule, q: Request): Option<PlannedHold>
  {
    var target := ResolveScopeTarget(rule, q.modelAliasId);
    var increment := EstimatedRuleIncrement(rule, q.est);
    if target.None? || increment <= 0 then None
    else
      Some(PlannedHold(rule, target.value, increment,
                       BucketStartFor(q.nowMs, rule.windowSeconds), q.nowMs - rule.windowSeconds * 1000))
  }

  /** The claims of a whole rule list, in order; `activeOnly` leaves inactive rules out. */
  function Planned(rules: seq<Rule>, q: Request, activeOnly: bool): seq<PlannedHold>
  {
    if rules == [] then []
    else
      var rest := Planned(rules[..|rules|-1], q, activeOnly);
      var rule := rules[|rules|-1];
      var p := PlanOne(rule, q);
      if (activeOnly && !rule.active) || p.None? then rest else rest + [p.value]
  }

  method PlanHolds(rules: seq<Rule>, q: Request) returns (planned: seq<PlannedHold>)
    ensures planned == Planned(rules, q, true)
  {
    planned := [];
    for i := 0 to |rules|
      invariant planned == Planned(rules[..i], q, true)
    {
      assert rules[..i+1][..i] == rules[..i];
      var rule := rules[i];
      if !rule.active { continue; }
      var target := ResolveScopeTarget(rule, q.modelAliasId);
      if target.None? { continue; }
      var increment := EstimatedRuleIncrement(rule, q.est);
      if increment <= 0 { continue; }
      planned := planned + [PlannedHold(rule, target.value, increment,
                                        BucketStartFor(q.nowMs, rule.windowSeconds),
                                        q.nowMs - rule.windowSeconds * 1000)];
    }
    assert rules[..|rules|] == rules;
  }

  function Holds(planned: seq<PlannedHold>): seq<LimitHold>
  {
    seq(|planned|, i requires 0 <= i < |planned| => planned[i].Hold())
  }

  function Writes(planned: seq<PlannedHold>): seq<CounterWrite>
  {
    seq(|planned|, i requires 0 <= i < |planned| => planned[i].Write())
  }

  // ---------------------------------------------------------------------------
  // Reading windows, finding violations
  // ---------------------------------------------------------------------------

  function RetryAfter(windowSeconds: int, nowMs: int, oldestBucketMs: int): int
  {
    Max(1, windowSeconds - (nowMs - oldestBucketMs) / 1000)
  }

  ghost predicate Fits(m: Counters, p: PlannedHold)
  {
    WindowSum(m, p.StreamOf(), p.windowStart) + p.increment <= p.rule.capValue
  }

  ghost function Violation(m: Counters, p: PlannedHold, nowMs: int): ViolatedLimit
  {
    var w := Window(m, p.StreamOf(), p.windowStart);
    ViolatedLimit(p.rule, WindowSum(m, p.StreamOf(), p.windowStart), p.rule.capValue,
                  RetryAfter(p.rule.windowSeconds, nowMs, OldestBucket(w, nowMs)))
  }

  ghost function Violations(m: Counters, planned: seq<PlannedHold>, nowMs: int): seq<ViolatedLimit>
  {
    if planned == [] then []
    else
      var rest := Violations(m, planned[..|planned|-1], nowMs);
      var p := planned[|planned|-1];
      if Fits(m, p) then rest else rest + [Violation(m, p, nowMs)]
  }

  /** The oldest bucket among the first counters listed, or `now`. */
  ghost predicate OldestListed(docs: seq<CounterDoc>, i: nat, now: int, t: int)
    requires i <= |docs|
  {
    && t <= now
    && (forall j | 0 <= j < i :: t <= docs[j].key.bucketStart)
    && (t == now || exists j :: 0 <= j < i && docs[j].key.bucketStart == t)
  }

  lemma OldestOfList(docs: seq<CounterDoc>, m: Counters, now: int, t: int)
    requires Lists(docs, m) && OldestListed(docs, |docs|, now, t)
    ensures t == OldestBucket(m, now)
  {
    OldestUnique(m, now, t, OldestBucket(m, now));
  }

  lemma OldestNext(docs: seq<CounterDoc>, i: nat, now: int, t: int)
    requires i < |docs| && OldestListed(docs, i, now, t)
    ensures OldestListed(docs, i + 1, now, Min(t, docs[i].key.bucketStart))
  {
  }

  /** What the loop has gathered once every listed counter is read. */
  lemma WindowRead(docs: seq<CounterDoc>, m: Counters, now: int, total: nat, t: int)
    requires Lists(docs, m) && total == DocsTotal(docs) && OldestListed(docs, |docs|, now, t)
    ensures total == Sum(m) && t == OldestBucket(m, now)
  {
    ListedTotal(docs, m);
    OldestOfList(docs, m, now, t);
  }

  method SumDocs(docs: seq<CounterDoc>, nowMs: int) returns (current: nat, oldestBucketMs: int)
    ensures current == DocsTotal(docs) && OldestListed(docs, |docs|, nowMs, oldestBucketMs)
  {
    current, oldestBucketMs := 0, nowMs;
    for i := 0 to |docs|
      invariant current == DocsTotal(docs[..i])
      invariant OldestListed(docs, i, nowMs, oldestBucketMs)
    {
      DocsTotalNext(docs, i);
      OldestNext(docs, i, nowMs, oldestBucketMs);
      current := current + docs[i].count;
      if docs[i].key.bucketStart < oldestBucketMs { oldestBucketMs := docs[i].key.bucketStart; }
    }
    assert docs[..|docs|] == docs;
  }

  method ReadWindow(repo: UsageRepo, x: Stream, windowStart: int, nowMs: int)
    returns (current: nat, oldestBucketMs: int)
    ensures current == WindowSum(repo.counters, x, windowStart)
    ensures oldestBucketMs == OldestBucket(Window(repo.counters, x, windowStart), nowMs)
  {
    var docs := repo.FindWindowCounters(x, windowStart);
    current, oldestBucketMs := SumDocs(docs, nowMs);
    WindowRead(docs, Window(repo.counters, x, windowStart), nowMs, current, oldestBucketMs);
  }

  ghost function RuleViolation(m: Counters, rule: Rule, q: Request): Option<ViolatedLimit>
  {
    var p := PlanOne(rule, q);
    if p.None? || Fits(m, p.value) then None else Some(Violation(m, p.value, q.nowMs))
  }

  method CheckRule(repo: UsageRepo, rule: Rule, q: Request) returns (v: Option<ViolatedLimit>)
    ensures v == RuleViolation(repo.counters, rule, q)
  {
    var target := ResolveScopeTarget(rule, q.modelAliasId);
    if target.None? { return None; }
    var increment := EstimatedRuleIncrement(rule, q.est);
    if increment <= 0 { return None; }
    var x := Stream(StoredDimension(rule.dimension), rule.windowSeconds, target.value);
    var current, oldestBucketMs := ReadWindow(repo, x, q.nowMs - rule.windowSeconds * 1000, q.nowMs);
    if current + increment <= rule.capValue { return None; }
    return Some(ViolatedLimit(rule, current, rule.capValue, RetryAfter(rule.windowSeconds, q.nowMs, oldestBucketMs)));
  }

  lemma NextViolation(m: Counters, rules: seq<Rule>, i: nat, q: Request)
    requires i < |rules|
    ensures var v := RuleViolation(m, rules[i], q);
      Violations(m, Planned(rules[..i+1], q, false), q.nowMs) ==
        Violations(m, Planned(rules[..i], q, false), q.nowMs) + (if v.Some? then [v.value] else [])
  {
    assert rules[..i+1][..i] == rules[..i];
    var before, p := Planned(rules[..i], q, false), PlanOne(rules[i], q);
    if p.Some? {
      assert (before + [p.value])[..|before|] == before;
    }
  }

  /** The read-only check. It does not look at `active`. */
  method CheckLimits(repo: UsageRepo, rules: seq<Rule>, q: Request)
    returns (ok: bool, violated: seq<ViolatedLimit>)
    ensures violated == Violations(repo.counters, Planned(rules, q, false), q.nowMs)
    ensures ok == (violated == [])
  {
    violated := [];
    for i := 0 to |rules|
      invariant violated == Violations(repo.counters, Planned(rules[..i], q, false), q.nowMs)
    {
      var v := CheckRule(repo, rules[i], q);
      NextViolation(repo.counters, rules, i, q);
      if v.Some? { violated := violated + [v.value]; }
    }
    assert rules[..|rules|] == rules;
    ok := |violated| == 0;
  }

  // ---------------------------------------------------------------------------
  // Reserve
  // ---------------------------------------------------------------------------

  datatype ReserveOutcome =
    | Reserved(holds: seq<LimitHold>)
    | Rejected(violated: seq<ViolatedLimit>)
    | Conflicted
    | Failed

  /** How one transaction ends; `seen` is the committed state it starts from. */
  datatype Fate = Commits | Conflicts | Fails

  datatype Attempt = Attempt(seen: Counters, fate: Fate)

  ghost function Decide(m: Counters, planned: seq<PlannedHold>, nowMs: int): ReserveOutcome
  {
    if Violations(m, planned, nowMs) == [] then Reserved(Holds(planned))
    else Rejected(Violations(m, planned, nowMs))
  }

  ghost function AfterReserve(m: Counters, planned: seq<PlannedHold>, nowMs: int): Counters
  {
    if Violations(m, planned, nowMs) == [] then ApplyAll(m, Coalesced(Writes(planned))) else m
  }

  /** The first attempt that does not end in a conflict. */
  function FirstDecided(attempts: seq<Attempt>): (i: nat)
    ensures i <= |attempts|
    ensures i < |attempts| ==> attempts[i].fate != Conflicts
    ensures forall j | 0 <= j < i :: attempts[j].fate == Conflicts
  {
    if attempts == [] || attempts[0].fate != Conflicts then 0 else 1 + FirstDecided(attempts[1..])
  }

  /** The body of one transaction: check every plan, then write all of them or none. */
  method ReserveOnce(repo: UsageRepo, planned: seq<PlannedHold>, nowMs: int) returns (r: ReserveOutcome)
    modifies repo
    ensures r == Decide(old(repo.counters), planned, nowMs)
    ensures repo.counters == AfterReserve(old(repo.counters), planned, nowMs)
  {
    var violated: seq<ViolatedLimit> := [];
    var holds: seq<LimitHold> := [];
    var entries: seq<CounterWrite> := [];
    for i := 0 to |planned|
      invariant repo.counters == old(repo.counters)
      invariant violated == Violations(repo.counters, planned[..i], nowMs)
      invariant violated == [] ==> holds == Holds(planned[..i]) && entries == Writes(planned[..i])
    {
      assert planned[..i+1][..i] == planned[..i];
      var p := planned[i];
      var current, oldestBucketMs := ReadWindow(repo, p.StreamOf(), p.windowStart, nowMs);
      if current + p.increment > p.rule.capValue {
        violated := violated + [ViolatedLimit(p.rule, current, p.rule.capValue,
                                              RetryAfter(p.rule.windowSeconds, nowMs, oldestBucketMs))];
        continue;
      }
      holds := holds + [p.Hold()];
      entries := entries + [p.Write()];
    }
    assert planned[..|planned|] == planned;
    if |violated| > 0 { return Rejected(violated); }
    var writes := CoalesceCounterWrites(entries);
    repo.BulkUpsertCounters(writes);
    return Reserved(holds);
  }

  /** One attempt: its writes stay only if the transaction commits. */
  method Transact(repo: UsageRepo, planned: seq<PlannedHold>, nowMs: int, attempt: Attempt) returns (r: ReserveOutcome)
    modifies repo
    ensures match attempt.fate
      case Commits => r == Decide(attempt.seen, planned, nowMs)
        && repo.counters == AfterReserve(attempt.seen, planned, nowMs)
      case Fails => r == Failed && repo.counters == attempt.seen
      case Conflicts => r == Conflicted && repo.counters == attempt.seen
  {
    repo.counters := attempt.seen;
    r := ReserveOnce(repo, planned, nowMs);
    if attempt.fate != Commits {
      repo.counters := attempt.seen;
      r := if attempt.fate == Fails then Failed else Conflicted;
    }
  }

  /**
   Admission with bounded retries. `attempts` is the environment: what other clients have
   committed by the time each attempt starts, and how its transaction ends.
   */
  method ReserveLimits(repo: UsageRepo, rules: seq<Rule>, q: Request, dryRun: bool, attempts: seq<Attempt>)
    returns (r: ReserveOutcome)
    requires |attempts| == 8
    modifies repo
    ensures var planned := Planned(rules, q, true);
      if planned == [] then r == Reserved([]) && repo.counters == old(repo.counters)
      else if dryRun then
        && repo.counters == old(repo.counters)
        && var violated := Violations(repo.counters, Planned(rules, q, false), q.nowMs);
        r == if violated == [] then Reserved(Holds(planned)) else Rejected(violated)
      else
        var i := FirstDecided(attempts);
        if i == 8 then r == Conflicted && repo.counters == attempts[i-1].seen
        else if attempts[i].fate == Fails then r == Failed && repo.counters == attempts[i].seen
        else
          && r == Decide(attempts[i].seen, planned, q.nowMs)
          && repo.counters == AfterReserve(attempts[i].seen, planned, q.nowMs)
  {
    var planned := PlanHolds(rules, q);
    if |planned| == 0 { return Reserved([]); }
    if dryRun {
      var ok, violated := CheckLimits(repo, rules, q);
      if !ok { return Rejected(violated); }
      return Reserved(Holds(planned));
    }
    for attempt := 0 to RESERVE_MAX_ATTEMPTS
      invariant forall j | 0 <= j < attempt :: attempts[j].fate == Conflicts
      invariant attempt > 0 ==> repo.counters == attempts[attempt-1].seen
    {
      var result := Transact(repo, planned, q.nowMs, attempts[attempt]);
      if result != Conflicted { return result; }
    }
    return Conflicted;
  }

  // ---------------------------------------------------------------------------
  // Release
  // ---------------------------------------------------------------------------

  function ReleaseWrites(holds: seq<LimitHold>): seq<CounterWrite>
  {
    if holds == [] then []
    else
      var h := holds[|holds|-1];
      ReleaseWrites(holds[..|holds|-1]) + (if h.reserved > 0 then [h.Write(0 - h.reserved)] else [])
  }

  method ReleaseLimits(repo: UsageRepo, holds: seq<LimitHold>)
    modifies repo
    ensures repo.counters == ApplyAll(old(repo.counters), Coalesced(ReleaseWrites(holds)))
  {
    var entries: seq<CounterWrite> := [];
    for i := 0 to |holds|
      invariant entries == ReleaseWrites(holds[..i])
    {
      assert holds[..i+1][..i] == holds[..i];
      if holds[i].reserved > 0 { entries := entries + [holds[i].Write(0 - holds[i].reserved)]; }
    }
    assert holds[..|holds|] == holds;
    if |entries| == 0 { return; }
    var writes := CoalesceCounterWrites(entries);
    repo.BulkUpsertCounters(writes);
  }

  // ---------------------------------------------------------------------------
  // Settle
  // ---------------------------------------------------------------------------

  /** `new Map(holds.map(h => [h.ruleId, h])).get(id)`: the last hold with that id. */
  function HoldFor(holds: seq<LimitHold>, id: string): (r: Option<LimitHold>)
    ensures r.Some? ==> r.value in holds && r.value.ruleId == id
    ensures r.None? ==> forall h | h in holds :: h.ruleId != id
  {
    if holds == [] then None
    else if holds[|holds|-1].ruleId == id then Some(holds[|holds|-1])
    else HoldFor(holds[..|holds|-1], id)
  }

  /** Among holds of one id the last is found. */
  lemma {:induction false} HoldForIsLast(holds: seq<LimitHold>, i: nat)
    requires i < |holds| && forall j | i < j < |holds| :: holds[j].ruleId != holds[i].ruleId
    ensures HoldFor(holds, holds[i].ruleId) == Some(holds[i])
  {
    if i < |holds| - 1 { HoldForIsLast(holds[..|holds|-1], i); }
  }

  /** The rule applies to a call that used this model. */
  predicate Live(rule: Rule, modelAliasId: Option<string>)
  {
    rule.active && ResolveScopeTarget(rule, modelAliasId).Some?
  }

  /** What settling adds to a held counter: the clamped difference between actual and reserved. */
  ghost function HoldDelta(m: Counters, h: LimitHold, actual: nat, nowMs: int): int
  {
    ClampSettleDelta(h.dimension, actual - h.reserved, h.capValue,
                     WindowSum(m, h.StreamOf(), nowMs - h.windowSeconds * 1000))
  }

  /** What settling adds for a rule without a hold, in the current bucket. */
  ghost function FreshClaim(m: Counters, rule: Rule, target: Option<string>, actual: nat, nowMs: int): nat
  {
    if AllowsCapOvershoot(rule.dimension) then actual
    else
      var x := Stream(StoredDimension(rule.dimension), rule.windowSeconds, target);
      Min(actual, HardCapRoom(rule.capValue, WindowSum(m, x, nowMs - rule.windowSeconds * 1000)))
  }

  ghost function SettleWrite(m: Counters, holds: seq<LimitHold>, rule: Rule, usage: Usage,
      nowMs: int): Option<CounterWrite>
  {
    if !Live(rule, usage.modelAliasId) then None
    else
      var actual := RuleIncrement(rule, usage);
      var target := ResolveScopeTarget(rule, usage.modelAliasId).value;
      match HoldFor(holds, rule.id)
      case Some(h) =>
        var delta := HoldDelta(m, h, actual, nowMs);
        if delta == 0 then None else Some(h.Write(delta))
      case None =>
        var claim := FreshClaim(m, rule, target, actual, nowMs);
        if claim == 0 then None
        else
          Some(CounterWrite(rule.dimension, rule.windowSeconds,
                            BucketStartFor(nowMs, rule.windowSeconds), target, claim))
  }

  ghost function RuleWrites(m: Counters, holds: seq<LimitHold>, rules: seq<Rule>, usage: Usage,
      nowMs: int): seq<CounterWrite>
  {
    if rules == [] then []
    else
      var rest := RuleWrites(m, holds, rules[..|rules|-1], usage, nowMs);
      var w := SettleWrite(m, holds, rules[|rules|-1], usage, nowMs);
      if w.None? then rest else rest + [w.value]
  }

  /** The ids of the holds that some live rule takes up. */
  function ConsumedIds(holds: seq<LimitHold>, rules: seq<Rule>, modelAliasId: Option<string>): set<string>
  {
    set r | r in rules && Live(r, modelAliasId) && HoldFor(holds, r.id).Some? :: r.id
  }

  /** Full release of the holds no rule took up. */
  function OrphanWrites(holds: seq<LimitHold>, consumed: set<string>): seq<CounterWrite>
  {
    if holds == [] then []
    else
      var h := holds[|holds|-1];
      OrphanWrites(holds[..|holds|-1], consumed) +
      (if h.ruleId in consumed || h.reserved <= 0 then [] else [h.Write(0 - h.reserved)])
  }

  ghost function SettleWrites(m: Counters, holds: seq<LimitHold>, rules: seq<Rule>, usage: Usage,
      nowMs: int): seq<CounterWrite>
  {
    RuleWrites(m, holds, rules, usage, nowMs) + OrphanWrites(holds, ConsumedIds(holds, rules, usage.modelAliasId))
  }

  /** What settling writes for one rule. */
  method SettleRule(repo: UsageRepo, holds: seq<LimitHold>, rule: Rule, usage: Usage, nowMs: int)
    returns (w: Option<CounterWrite>)
    ensures w == SettleWrite(repo.counters, holds, rule, usage, nowMs)
  {
    if !rule.active { return None; }
    var actual := RuleIncrement(rule, usage);
    var target := ResolveScopeTarget(rule, usage.modelAliasId);
    if target.None? { return None; }
    var hold := HoldFor(holds, rule.id);
    if hold.Some? {
      var h := hold.value;
      var rawDelta := actual - h.reserved;
      if rawDelta == 0 { return None; }
      var delta := rawDelta;
      if rawDelta > 0 && !AllowsCapOvershoot(h.dimension) {
        var sum, _ := ReadWindow(repo, h.StreamOf(), nowMs - h.windowSeconds * 1000, nowMs);
        delta := ClampSettleDelta(h.dimension, rawDelta, h.capValue, sum);
        if delta == 0 { return None; }
      }
      return Some(h.Write(delta));
    }
    if actual <= 0 { return None; }
    var increment := actual;
    if !AllowsCapOvershoot(rule.dimension) {
      var x := Stream(StoredDimension(rule.dimension), rule.windowSeconds, target.value);
      var sum, _ := ReadWindow(repo, x, nowMs - rule.windowSeconds * 1000, nowMs);
      increment := Min(actual, HardCapRoom(rule.capValue, sum));
      if increment <= 0 { return None; }
    }
    return Some(CounterWrite(rule.dimension, rule.windowSeconds,
                             BucketStartFor(nowMs, rule.windowSeconds), target.value, increment));
  }

  lemma ConsumedNext(holds: seq<LimitHold>, rules: seq<Rule>, i: nat, modelAliasId: Option<string>)
    requires i < |rules|
    ensures ConsumedIds(holds, rules[..i+1], modelAliasId) == ConsumedIds(holds, rules[..i], modelAliasId) +
      (if Live(rules[i], modelAliasId) && HoldFor(holds, rules[i].id).Some? then {rules[i].id} else {})
  {
    assert forall r :: r in rules[..i+1] <==> r in rules[..i] || r == rules[i];
  }

  method SettleLimits(repo: UsageRepo, holds: seq<LimitHold>, rules: seq<Rule>, usage: Usage, nowMs: int)
    modifies repo
    ensures repo.counters ==
      ApplyAll(old(repo.counters), Coalesced(SettleWrites(old(repo.counters), holds, rules, usage, nowMs)))
  {
    var entries: seq<CounterWrite> := [];
    var consumed: set<string> := {};
    for i := 0 to |rules|
      invariant repo.counters == old(repo.counters)
      invariant entries == RuleWrites(repo.counters, holds, rules[..i], usage, nowMs)
      invariant consumed == ConsumedIds(holds, rules[..i], usage.modelAliasId)
    {
      assert rules[..i+1][..i] == rules[..i];
      ConsumedNext(holds, rules, i, usage.modelAliasId);
      var rule := rules[i];
      if Live(rule, usage.modelAliasId) && HoldFor(holds, rule.id).Some? { consumed := consumed + {rule.id}; }
      var w := SettleRule(repo, holds, rule, usage, nowMs);
      if w.Some? { entries := entries + [w.value]; }
    }
    assert rules[..|rules|] == rules;
    var orphans := ReleaseOrphans(holds, consumed);
    entries := entries + orphans;
    if |entries| == 0 { return; }
    var writes := CoalesceCounterWrites(entries);
    repo.BulkUpsertCounters(writes);
  }

  /** Full release of the holds no live rule took up. */
  method ReleaseOrphans(holds: seq<LimitHold>, consumed: set<string>) returns (entries: seq<CounterWrite>)
    ensures entries == OrphanWrites(holds, consumed)
  {
    entries := [];
    for i := 0 to |holds|
      invariant entries == OrphanWrites(holds[..i], consumed)
    {
      assert holds[..i+1][..i] == holds[..i];
      var h := holds[i];
      if h.ruleId in consumed { continue; }
      if h.reserved <= 0 { continue; }
      entries := entries + [h.Write(0 - h.reserved)];
    }
    assert holds[..|holds|] == holds;
  }
}
