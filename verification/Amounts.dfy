/**
 What calls and rules say by their own fields: which counter a rule takes a call to, how much the
 call asks of it before it is served, and how much it is charged afterwards.
 */
module Amounts {
  import opened Options
  import opened CounterStore
  import opened RateLimits

  /** What a call asks for; nothing, where it has no estimate. */
  function Asked(d: Dimension, q: Request): int
  {
    match d
    case Requests => 1
    case Tokens => if q.est.tokens.Some? then q.est.tokens.value else 0
    case _ => if q.est.spendMicros.Some? then q.est.spendMicros.value else 0
  }

  /** What a call is charged for its usage. */
  function Charged(d: Dimension, usage: Usage): nat
  {
    match d
    case Requests => 1
    case Tokens => usage.tokens
    case _ => usage.spendMicros
  }

  /** A call of this model counts against the rule. */
  predicate Applies(r: Rule, alias: Option<string>)
  {
    r.scope.ModelScope? ==>
      alias.Some? && (r.scopeTarget == None || r.scopeTarget == Some("") || r.scopeTarget == alias)
  }

  /** On this target. */
  function TargetOf(r: Rule, alias: Option<string>): Option<string> { if r.scope.ModelScope? then alias else None }

  /** What is counted for the rule on a target; both labels of money are one. */
  function CounterOf(r: Rule, t: Option<string>): Stream
  {
    Stream(match r.dimension
           case Tokens => Tokens
           case Requests => Requests
           case _ => SpendMicros,
           r.windowSeconds, t)
  }

  /** The document of the rule on a target, in the bucket of a clock. */
  function DocOf(r: Rule, t: Option<string>, nowMs: int): CounterKey
  {
    CounterKey(CounterOf(r, t).dimension, r.windowSeconds, BucketStartFor(nowMs, r.windowSeconds), t)
  }

  /** How far a claim of this size may go: money always whole, the rest up to the cap. */
  ghost function Granted(m: Counters, r: Rule, t: Option<string>, amount: nat, nowMs: int): nat
  {
    match r.dimension
    case SpendUnits => amount
    case SpendMicros => amount
    case _ => Min(amount, Max(0, r.capValue - WindowSum(m, CounterOf(r, t), nowMs - r.windowSeconds * 1000)))
  }

  // ---------------------------------------------------------------------------
  // The rule helpers agree
  // ---------------------------------------------------------------------------

  lemma ResolvesByFields(r: Rule, alias: Option<string>)
    ensures ResolveScopeTarget(r, alias) == if Applies(r, alias) then Some(TargetOf(r, alias)) else None
  {
  }

  lemma EstimateIsAsked(r: Rule, q: Request)
    ensures EstimatedRuleIncrement(r, q.est) == Max(0, Asked(r.dimension, q))
  {
  }

  lemma IncrementIsCharged(r: Rule, usage: Usage)
    ensures RuleIncrement(r, usage) == Charged(r.dimension, usage)
  {
  }

  /** The call asks something of the rule. */
  predicate Asks(r: Rule, q: Request) { Applies(r, q.modelAliasId) && Asked(r.dimension, q) > 0 }

  /** A rule plans what is asked, in the bucket of the clock and over the window before it, and nothing else. */
  lemma PlansWhatIsAsked(r: Rule, q: Request)
    ensures PlanOne(r, q).Some? <==> Asks(r, q)
    ensures Asks(r, q) ==>
      PlanOne(r, q).value == PlannedHold(r, TargetOf(r, q.modelAliasId), Asked(r.dimension, q),
                                         BucketStartFor(q.nowMs, r.windowSeconds), q.nowMs - r.windowSeconds * 1000)
  {
    ResolvesByFields(r, q.modelAliasId);
    EstimateIsAsked(r, q);
  }

  /** The stream and the document of a plan. */
  lemma PlanPlace(r: Rule, q: Request, p: PlannedHold)
    requires PlanOne(r, q) == Some(p)
    ensures var t := TargetOf(r, q.modelAliasId);
      && p.StreamOf() == CounterOf(r, t) && p.Write().Doc() == DocOf(r, t, q.nowMs)
      && p.Hold().Write(0).Doc() == DocOf(r, t, q.nowMs)
  {
    PlansWhatIsAsked(r, q);
  }

  /** Without a hold a settle claims what is granted of the usage, in the bucket of its clock. */
  lemma FreshIsGranted(m: Counters, holds: seq<LimitHold>, r: Rule, usage: Usage, nowMs: int)
    requires HoldFor(holds, r.id).None? && r.active && Applies(r, usage.modelAliasId)
    ensures var w := SettleWrite(m, holds, r, usage, nowMs);
      var t := TargetOf(r, usage.modelAliasId);
      var amount := Granted(m, r, t, Charged(r.dimension, usage), nowMs);
      && (w.None? <==> amount == 0)
      && (w.Some? ==>
        w.value.dimension == r.dimension && w.value.Doc() == DocOf(r, t, nowMs) && w.value.increment == amount)
  {
    ResolvesByFields(r, usage.modelAliasId);
    IncrementIsCharged(r, usage);
  }
}
