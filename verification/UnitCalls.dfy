/** Calls of one unit under one hard rule: the plan they make and the sums they leave. */
module UnitCalls {
  import opened Options
  import opened CounterStore
  import opened RateLimits
  import opened Coalescing
  import opened LimitRuns
  import opened HardCap

  /** The document of a rule on a stream it governs, at a clock. */
  function DocAt(r: Rule, x: Stream, nowMs: int): CounterKey
  {
    CounterKey(x.dimension, r.windowSeconds, BucketStartFor(nowMs, r.windowSeconds), x.scopeTarget)
  }

  lemma OneWrite(m: Counters, w: CounterWrite)
    requires w.increment >= 0
    ensures ApplyAll(m, Coalesced([w])) == m[w.Doc() := Count(m, w.Doc()) + w.increment]
  {
    CoalesceDistinct([w]);
    assert [w][..0] == [];
  }

  /** A call of one token on the stream. */
  function UnitCall(x: Stream, nowMs: int): Request { Request(Estimates(Some(1), None), x.scopeTarget, nowMs) }

  function UnitPlan(r: Rule, x: Stream, nowMs: int): PlannedHold
  {
    PlannedHold(r, x.scopeTarget, 1, BucketStartFor(nowMs, r.windowSeconds), nowMs - r.windowSeconds * 1000)
  }

  lemma UnitPlanned(r: Rule, x: Stream, nowMs: int)
    requires Hard(r) && Governs(r, x)
    ensures Planned([r], UnitCall(x, nowMs), true) == [UnitPlan(r, x, nowMs)]
    ensures PlanOne(r, UnitCall(x, nowMs)) == Some(UnitPlan(r, x, nowMs))
    ensures UnitPlan(r, x, nowMs).StreamOf() == x
  {
    assert [r][..0] == [];
  }

  lemma UnitFits(m: Counters, p: PlannedHold, nowMs: int)
    requires Fits(m, p)
    ensures Violations(m, [p], nowMs) == []
  {
    assert [p][..0] == [];
  }

  lemma EmptySum(x: Stream, from: int)
    ensures WindowSum(map[], x, from) == 0
  {
    assert Window(map[], x, from) == map[];
  }

  lemma SumAfterFirst(k: CounterKey, n: nat, from: int)
    ensures WindowSum(map[k := n], k.StreamOf(), from) == if k.bucketStart >= from then n else 0
  {
    EmptySum(k.StreamOf(), from);
    WindowSumPut(map[], k, n, k.StreamOf(), from);
  }

  lemma SumAfterUnit(m: Counters, k: CounterKey, from: int)
    ensures WindowSum(m[k := Count(m, k) + 1], k.StreamOf(), from) ==
      WindowSum(m, k.StreamOf(), from) + (if k.bucketStart >= from then 1 else 0)
  {
    WindowSumPut(m, k, Count(m, k) + 1, k.StreamOf(), from);
  }

  lemma DocOnStream(r: Rule, x: Stream, nowMs: int)
    requires Governs(r, x)
    ensures DocAt(r, x, nowMs).StreamOf() == x
  {
  }
}
