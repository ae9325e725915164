/**
 What the operations do to a call, told by its own fields: which reserves are admitted and what
 they claim, and what a settle charges to each counter.
 */
module CallLaws {
  import opened Options
  import opened CounterStore
  import opened RateLimits
  import opened Amounts
  import opened Coalescing
  import opened LimitRuns
  import opened LimitLedger
  import opened HardCap

  // ---------------------------------------------------------------------------
  // Which calls are admitted
  // ---------------------------------------------------------------------------

  function AskedStream(r: Rule, q: Request): Stream { CounterOf(r, TargetOf(r, q.modelAliasId)) }

  /** The window of the rule can take what the call asks. */
  ghost predicate HasRoom(m: Counters, r: Rule, q: Request)
  {
    WindowSum(m, AskedStream(r, q), q.nowMs - r.windowSeconds * 1000) + Asked(r.dimension, q) <= r.capValue
  }

  /** Every rule that the call asks something of has room for it. */
  ghost predicate AllHaveRoom(m: Counters, rules: seq<Rule>, q: Request, activeOnly: bool)
  {
    forall r | r in rules && (activeOnly ==> r.active) && Asks(r, q) :: HasRoom(m, r, q)
  }

  lemma FitsWithRoom(m: Counters, r: Rule, q: Request, p: PlannedHold)
    requires PlanOne(r, q) == Some(p)
    ensures Asks(r, q) && (Fits(m, p) <==> HasRoom(m, r, q))
  {
    PlansWhatIsAsked(r, q);
    PlanPlace(r, q, p);
  }

  lemma RoomExactlyWhen(m: Counters, rules: seq<Rule>, q: Request, activeOnly: bool)
    ensures Violations(m, Planned(rules, q, activeOnly), q.nowMs) == [] <==> AllHaveRoom(m, rules, q, activeOnly)
  {
    var planned := Planned(rules, q, activeOnly);
    NoViolation(m, planned, q.nowMs);
    PlannedMember(rules, q, activeOnly);
    forall p | p in planned ensures Asks(p.rule, q) && (Fits(m, p) <==> HasRoom(m, p.rule, q)) {
      FitsWithRoom(m, p.rule, q, p);
    }
    forall r | r in rules && (activeOnly ==> r.active) && Asks(r, q)
      ensures PlanOne(r, q).Some? && PlanOne(r, q).value in planned && PlanOne(r, q).value.rule == r
    {
      PlansWhatIsAsked(r, q);
    }
  }

  /** Nothing is planned exactly when no active rule is asked anything. */
  lemma PlansNothingExactlyWhen(rules: seq<Rule>, q: Request)
    ensures Planned(rules, q, true) == [] <==> forall r | r in rules && r.active :: !Asks(r, q)
  {
    var planned := Planned(rules, q, true);
    PlannedMember(rules, q, true);
    if planned != [] {
      var p := planned[0];
      assert p in planned;
      PlansWhatIsAsked(p.rule, q);
    }
    forall r | r in rules && r.active && Asks(r, q) ensures PlanOne(r, q).Some? {
      PlansWhatIsAsked(r, q);
    }
  }

  ghost function Refusal(m: Counters, r: Rule, q: Request): ViolatedLimit
  {
    var x, from := AskedStream(r, q), q.nowMs - r.windowSeconds * 1000;
    ViolatedLimit(r, WindowSum(m, x, from), r.capValue,
                  RetryAfter(r.windowSeconds, q.nowMs, OldestBucket(Window(m, x, from), q.nowMs)))
  }

  /** What a list of rules plans, finds violated and holds is what each of its rules does, in order. */
  lemma {:induction false} PlannedInOrder(a: seq<Rule>, b: seq<Rule>, q: Request, activeOnly: bool)
    ensures Planned(a + b, q, activeOnly) == Planned(a, q, activeOnly) + Planned(b, q, activeOnly)
  {
    if b == [] {
      assert a + b == a;
    } else {
      assert (a + b)[..|a + b|-1] == a + b[..|b|-1];
      PlannedInOrder(a, b[..|b|-1], q, activeOnly);
    }
  }

  lemma {:induction false} ViolatedInOrder(m: Counters, a: seq<PlannedHold>, b: seq<PlannedHold>, nowMs: int)
    ensures Violations(m, a + b, nowMs) == Violations(m, a, nowMs) + Violations(m, b, nowMs)
  {
    if b == [] {
      assert a + b == a;
    } else {
      assert (a + b)[..|a + b|-1] == a + b[..|b|-1];
      ViolatedInOrder(m, a, b[..|b|-1], nowMs);
    }
  }

  /** The refusals of a rule list, by the fields of the rules and the call. */
  ghost function Refusals(m: Counters, rules: seq<Rule>, q: Request, activeOnly: bool): seq<ViolatedLimit>
  {
    if rules == [] then []
    else
      var r := rules[0];
      (if (activeOnly ==> r.active) && Asks(r, q) && !HasRoom(m, r, q) then [Refusal(m, r, q)] else []) +
      Refusals(m, rules[1..], q, activeOnly)
  }

  lemma ViolationOfOne(m: Counters, r: Rule, q: Request, p: PlannedHold)
    requires PlanOne(r, q) == Some(p)
    ensures Violations(m, [p], q.nowMs) == if HasRoom(m, r, q) then [] else [Refusal(m, r, q)]
  {
    PlansWhatIsAsked(r, q);
    PlanPlace(r, q, p);
    FitsWithRoom(m, r, q, p);
    assert [p][..0] == [];
  }

  lemma PlanOfOne(r: Rule, q: Request, activeOnly: bool)
    ensures Planned([r], q, activeOnly) ==
      if (activeOnly ==> r.active) && PlanOne(r, q).Some? then [PlanOne(r, q).value] else []
  {
    assert [r][..0] == [];
  }

  lemma RefusalOfOne(m: Counters, r: Rule, q: Request, activeOnly: bool)
    ensures Violations(m, Planned([r], q, activeOnly), q.nowMs) ==
      if (activeOnly ==> r.active) && Asks(r, q) && !HasRoom(m, r, q) then [Refusal(m, r, q)] else []
  {
    PlanOfOne(r, q, activeOnly);
    PlansWhatIsAsked(r, q);
    if PlanOne(r, q).Some? { ViolationOfOne(m, r, q, PlanOne(r, q).value); }
  }

  /** The violations are the refusals: each rule without room, with its sum and hint, in rule order. */
  lemma {:induction false} ViolatedAreRefused(m: Counters, rules: seq<Rule>, q: Request, activeOnly: bool)
    ensures Violations(m, Planned(rules, q, activeOnly), q.nowMs) == Refusals(m, rules, q, activeOnly)
  {
    if rules != [] {
      var head, rest := [rules[0]], rules[1..];
      assert rules == head + rest;
      PlannedInOrder(head, rest, q, activeOnly);
      ViolatedInOrder(m, Planned(head, q, activeOnly), Planned(rest, q, activeOnly), q.nowMs);
      RefusalOfOne(m, rules[0], q, activeOnly);
      ViolatedAreRefused(m, rest, q, activeOnly);
    }
  }

  function HoldOn(r: Rule, q: Request): LimitHold
  {
    LimitHold(r.id, r.dimension, r.windowSeconds, BucketStartFor(q.nowMs, r.windowSeconds),
              TargetOf(r, q.modelAliasId), Max(0, Asked(r.dimension, q)), r.capValue)
  }

  /** The holds of a rule list, by the fields of the rules and the call. */
  function HoldsAsked(rules: seq<Rule>, q: Request): seq<LimitHold>
  {
    if rules == [] then []
    else (if rules[0].active && Asks(rules[0], q) then [HoldOn(rules[0], q)] else []) + HoldsAsked(rules[1..], q)
  }

  lemma HoldOfOne(r: Rule, q: Request)
    ensures Holds(Planned([r], q, true)) == if r.active && Asks(r, q) then [HoldOn(r, q)] else []
  {
    assert [r][..0] == [];
    PlansWhatIsAsked(r, q);
  }

  lemma HoldsInOrder(a: seq<PlannedHold>, b: seq<PlannedHold>)
    ensures Holds(a + b) == Holds(a) + Holds(b)
  {
  }

  /** A reserve holds what each active rule is asked, in rule order. */
  lemma {:induction false} HeldIsAsked(rules: seq<Rule>, q: Request)
    ensures Holds(Planned(rules, q, true)) == HoldsAsked(rules, q)
  {
    if rules != [] {
      var head, rest := [rules[0]], rules[1..];
      assert rules == head + rest;
      PlannedInOrder(head, rest, q, true);
      HoldsInOrder(Planned(head, q, true), Planned(rest, q, true));
      HoldOfOne(rules[0], q);
      HeldIsAsked(rest, q);
    }
  }

  /**
   A reserve is admitted exactly when each active rule that applies has room in its window for
   the call's own tokens, its own spend, or one request; it then holds just that for each. Otherwise
   it is rejected, with a refusal for each rule without room.
   */
  lemma ReserveAdmitsExactlyWhen(m: Counters, rules: seq<Rule>, q: Request)
    ensures Decide(m, Planned(rules, q, true), q.nowMs) ==
      if AllHaveRoom(m, rules, q, true) then Reserved(HoldsAsked(rules, q)) else Rejected(Refusals(m, rules, q, true))
  {
    RoomExactlyWhen(m, rules, q, true);
    HeldIsAsked(rules, q);
    ViolatedAreRefused(m, rules, q, true);
  }

  // ---------------------------------------------------------------------------
  // What an admitted call claims
  // ---------------------------------------------------------------------------

  /** What the call asks of one counter. */
  function AskedOn(rules: seq<Rule>, q: Request, k: CounterKey): nat
  {
    if rules == [] then 0
    else
      var r := rules[|rules|-1];
      AskedOn(rules[..|rules|-1], q, k) +
      (if r.active && Asks(r, q) && DocOf(r, TargetOf(r, q.modelAliasId), q.nowMs) == k
       then Asked(r.dimension, q) else 0)
  }

  lemma PlannedLast(init: seq<Rule>, r: Rule, q: Request)
    ensures Planned(init + [r], q, true) ==
      Planned(init, q, true) + (if r.active && PlanOne(r, q).Some? then [PlanOne(r, q).value] else [])
  {
    assert (init + [r])[..|init|] == init;
  }

  lemma AskedOnLast(init: seq<Rule>, r: Rule, q: Request, k: CounterKey)
    ensures AskedOn(init + [r], q, k) == AskedOn(init, q, k) +
      (if r.active && Asks(r, q) && DocOf(r, TargetOf(r, q.modelAliasId), q.nowMs) == k
       then Asked(r.dimension, q) else 0)
  {
    assert (init + [r])[..|init|] == init;
  }

  /** What the plan of the last rule adds. */
  lemma HeldOfLast(planned: seq<PlannedHold>, r: Rule, q: Request, k: CounterKey)
    requires r.active && Asks(r, q)
    ensures PlanOne(r, q).Some?
    ensures ClaimsOn(HeldClaims(planned + [PlanOne(r, q).value], q.nowMs), k) ==
      ClaimsOn(HeldClaims(planned, q.nowMs), k) +
        (if DocOf(r, TargetOf(r, q.modelAliasId), q.nowMs) == k then Asked(r.dimension, q) else 0)
  {
    PlansWhatIsAsked(r, q);
    PlanPlace(r, q, PlanOne(r, q).value);
    HeldClaimsLast(planned, PlanOne(r, q).value, q.nowMs, k);
  }

  lemma {:induction false} ClaimedIsAsked(rules: seq<Rule>, q: Request, k: CounterKey)
    ensures ClaimsOn(HeldClaims(Planned(rules, q, true), q.nowMs), k) == AskedOn(rules, q, k)
  {
    if rules != [] {
      var init, r := rules[..|rules|-1], rules[|rules|-1];
      assert rules == init + [r];
      ClaimedIsAsked(init, q, k);
      PlannedLast(init, r, q);
      AskedOnLast(init, r, q, k);
      PlansWhatIsAsked(r, q);
      if r.active && Asks(r, q) {
        HeldOfLast(Planned(init, q, true), r, q, k);
      } else {
        assert Planned(init, q, true) + [] == Planned(init, q, true);
      }
    }
  }

  /** An admitted reserve adds to each counter exactly what the call asks of it. */
  lemma ReserveAddsAsked(rules: seq<Rule>, names: Names, m: Counters, q: Request, k: CounterKey)
    requires Allowed(names, q.modelAliasId) && DistinctIds(rules) && WritesApart(rules, names)
    requires AllHaveRoom(m, rules, q, true)
    ensures Count(AfterReserve(m, Planned(rules, q, true), q.nowMs), k) == Count(m, k) + AskedOn(rules, q, k)
  {
    var planned := Planned(rules, q, true);
    RoomExactlyWhen(m, rules, q, true);
    PlannedSlots(rules, names, q);
    NothingToCoalesce(Writes(planned));
    HeldNet(planned, q.nowMs, k);
    NegatedNet(Writes(planned), k);
    NoFloor(m, Writes(planned), k);
    ClaimedIsAsked(rules, q, k);
  }

  /** What the call asks of a stream, in the buckets from a time on. */
  function AskedIn(rules: seq<Rule>, q: Request, x: Stream, from: int): nat
  {
    if rules == [] then 0
    else
      var r := rules[|rules|-1];
      AskedIn(rules[..|rules|-1], q, x, from) +
      (if r.active && Asks(r, q) && AskedStream(r, q) == x && BucketStartFor(q.nowMs, r.windowSeconds) >= from
       then Asked(r.dimension, q) else 0)
  }

  lemma WriteLast(m: Counters, planned: seq<PlannedHold>, p: PlannedHold, x: Stream, from: int)
    ensures WindowSum(ApplyAll(m, Writes(planned + [p])), x, from) ==
      WindowSum(ApplyAll(m, Writes(planned)), x, from) +
        (if p.StreamOf() == x && p.bucketStart >= from then p.increment else 0)
  {
    assert Writes(planned + [p]) == Writes(planned) + [p.Write()];
    assert (Writes(planned) + [p.Write()])[..|planned|] == Writes(planned);
    WriteMoves(ApplyAll(m, Writes(planned)), p.Write(), x, from);
  }

  lemma {:induction false} WritesRaiseAsked(m: Counters, rules: seq<Rule>, q: Request, x: Stream, from: int)
    ensures WindowSum(ApplyAll(m, Writes(Planned(rules, q, true))), x, from) ==
      WindowSum(m, x, from) + AskedIn(rules, q, x, from)
  {
    if rules != [] {
      var init, r := rules[..|rules|-1], rules[|rules|-1];
      assert rules == init + [r];
      WritesRaiseAsked(m, init, q, x, from);
      PlannedLast(init, r, q);
      PlansWhatIsAsked(r, q);
      if r.active && Asks(r, q) {
        PlanPlace(r, q, PlanOne(r, q).value);
        WriteLast(m, Planned(init, q, true), PlanOne(r, q).value, x, from);
      } else {
        assert Planned(init, q, true) + [] == Planned(init, q, true);
      }
    }
  }

  /** So every window rises by exactly what the call asks in it. */
  lemma ReserveRaisesAsked(rules: seq<Rule>, names: Names, m: Counters, q: Request, x: Stream, from: int)
    requires Allowed(names, q.modelAliasId) && DistinctIds(rules) && WritesApart(rules, names)
    requires AllHaveRoom(m, rules, q, true)
    ensures WindowSum(AfterReserve(m, Planned(rules, q, true), q.nowMs), x, from) ==
      WindowSum(m, x, from) + AskedIn(rules, q, x, from)
  {
    var planned := Planned(rules, q, true);
    RoomExactlyWhen(m, rules, q, true);
    PlannedSlots(rules, names, q);
    NothingToCoalesce(Writes(planned));
    WritesRaiseAsked(m, rules, q, x, from);
  }

  // ---------------------------------------------------------------------------
  // What a settle charges
  // ---------------------------------------------------------------------------

  /**
   What settling does to one counter for one rule. A held amount becomes the usage, or is given
   back where the rule no longer applies; without a hold the usage is charged where the settle
   finds it. More than is held is granted as far as the rule allows.
   */
  ghost function Change(m: Counters, r: Rule, held: Option<Request>, usage: Usage, nowMs: int, k: CounterKey): int
  {
    var used := Charged(r.dimension, usage);
    if !r.active then 0
    else if held.Some? && Asks(r, held.value) then
      var q := held.value;
      var t := TargetOf(r, q.modelAliasId);
      if DocOf(r, t, q.nowMs) != k then 0
      else if !Applies(r, usage.modelAliasId) then 0 - Asked(r.dimension, q)
      else if used <= Asked(r.dimension, q) then used - Asked(r.dimension, q)
      else Granted(m, r, t, used - Asked(r.dimension, q), nowMs)
    else if Applies(r, usage.modelAliasId) && DocOf(r, TargetOf(r, usage.modelAliasId), nowMs) == k then
      Granted(m, r, TargetOf(r, usage.modelAliasId), used, nowMs)
    else 0
  }

  ghost function Changes(
    m: Counters, rules: seq<Rule>, held: Option<Request>, usage: Usage, nowMs: int, k: CounterKey): int
  {
    if rules == [] then 0
    else
      Changes(m, rules[..|rules|-1], held, usage, nowMs, k) + Change(m, rules[|rules|-1], held, usage, nowMs, k)
  }

  lemma ChangesLast(
    m: Counters, init: seq<Rule>, r: Rule, held: Option<Request>, usage: Usage, nowMs: int, k: CounterKey)
    ensures Changes(m, init + [r], held, usage, nowMs, k) ==
      Changes(m, init, held, usage, nowMs, k) + Change(m, r, held, usage, nowMs, k)
  {
    assert (init + [r])[..|init|] == init;
  }

  lemma FreshLast(
    m: Counters, holds: seq<LimitHold>, init: seq<Rule>, r: Rule, usage: Usage, nowMs: int, k: CounterKey)
    ensures ClaimsOn(FreshClaims(m, holds, init + [r], usage, nowMs), k) ==
      ClaimsOn(FreshClaims(m, holds, init, usage, nowMs), k) +
        (var c := FreshClaimOf(m, holds, r, usage, nowMs); if c.Some? && c.value.key == k then c.value.amount else 0)
  {
    assert (init + [r])[..|init|] == init;
    var rest, c := FreshClaims(m, holds, init, usage, nowMs), FreshClaimOf(m, holds, r, usage, nowMs);
    if c.Some? { assert (rest + [c.value])[..|rest|] == rest; }
  }

  lemma SettledLast(
    m: Counters, init: seq<PlannedHold>, p: PlannedHold, usage: Usage, nowMs: int, at: int, k: CounterKey)
    ensures ClaimsOn(SettledClaims(m, init + [p], usage, nowMs, at), k) ==
      ClaimsOn(SettledClaims(m, init, usage, nowMs, at), k) +
        (if p.Write().Doc() == k then SettledClaim(m, p, usage, nowMs, at).amount else 0)
  {
    assert (init + [p])[..|init|] == init;
    var rest := SettledClaims(m, init, usage, nowMs, at);
    assert (rest + [SettledClaim(m, p, usage, nowMs, at)])[..|rest|] == rest;
  }

  /** The change for a rule with a hold is the settled claim less the held one. */
  lemma HeldChange(m: Counters, r: Rule, q: Request, p: PlannedHold, usage: Usage, nowMs: int, at: int, k: CounterKey)
    requires r.active && PlanOne(r, q) == Some(p)
    ensures Change(m, r, Some(q), usage, nowMs, k) ==
      if p.Write().Doc() == k then SettledClaim(m, p, usage, nowMs, at).amount - p.increment else 0
  {
    PlansWhatIsAsked(r, q);
    PlanPlace(r, q, p);
    ResolvesByFields(r, usage.modelAliasId);
  }

  /** And without one the fresh claim. */
  lemma FreshChange(
    m: Counters, holds: seq<LimitHold>, r: Rule, held: Option<Request>, usage: Usage, nowMs: int, k: CounterKey)
    requires HoldFor(holds, r.id).None? && !(r.active && held.Some? && Asks(r, held.value))
    ensures var c := FreshClaimOf(m, holds, r, usage, nowMs);
      Change(m, r, held, usage, nowMs, k) == if c.Some? && c.value.key == k then c.value.amount else 0
  {
    ResolvesByFields(r, usage.modelAliasId);
  }

  /** What the plan of some rules comes to on a counter when it is settled. */
  ghost function Balance(m: Counters, planned: seq<PlannedHold>, holds: seq<LimitHold>, rules: seq<Rule>, usage: Usage,
      nowMs: int, at: int, k: CounterKey): int
  {
    ClaimsOn(SettledClaims(m, planned, usage, nowMs, at), k) - ClaimsOn(HeldClaims(planned, at), k) +
    ClaimsOn(FreshClaims(m, holds, rules, usage, nowMs), k)
  }

  lemma BalanceHeld(m: Counters, planned: seq<PlannedHold>, holds: seq<LimitHold>, init: seq<Rule>, r: Rule,
      q: Request, p: PlannedHold, usage: Usage, nowMs: int, k: CounterKey)
    requires r.active && PlanOne(r, q) == Some(p) && HoldFor(holds, r.id).Some?
    ensures Balance(m, planned + [p], holds, init + [r], usage, nowMs, q.nowMs, k) ==
      Balance(m, planned, holds, init, usage, nowMs, q.nowMs, k) + Change(m, r, Some(q), usage, nowMs, k)
  {
    HeldChange(m, r, q, p, usage, nowMs, q.nowMs, k);
    HeldClaimsLast(planned, p, q.nowMs, k);
    SettledLast(m, planned, p, usage, nowMs, q.nowMs, k);
    FreshLast(m, holds, init, r, usage, nowMs, k);
  }

  lemma BalanceFresh(m: Counters, planned: seq<PlannedHold>, holds: seq<LimitHold>, init: seq<Rule>, r: Rule,
      q: Request, usage: Usage, nowMs: int, k: CounterKey)
    requires HoldFor(holds, r.id).None? && !(r.active && Asks(r, q))
    ensures Balance(m, planned, holds, init + [r], usage, nowMs, q.nowMs, k) ==
      Balance(m, planned, holds, init, usage, nowMs, q.nowMs, k) + Change(m, r, Some(q), usage, nowMs, k)
  {
    FreshChange(m, holds, r, Some(q), usage, nowMs, k);
    FreshLast(m, holds, init, r, usage, nowMs, k);
  }

  lemma {:induction false} ChangesAreClaims(all: seq<Rule>, rules: seq<Rule>, m: Counters, q: Request, usage: Usage,
      nowMs: int, k: CounterKey, holds: seq<LimitHold>)
    requires DistinctIds(all) && holds == Holds(Planned(all, q, true)) && forall r | r in rules :: r in all
    ensures Balance(m, Planned(rules, q, true), holds, rules, usage, nowMs, q.nowMs, k) ==
      Changes(m, rules, Some(q), usage, nowMs, k)
  {
    if rules != [] {
      var init, r := rules[..|rules|-1], rules[|rules|-1];
      assert rules == init + [r] && r in rules;
      ChangesAreClaims(all, init, m, q, usage, nowMs, k, holds);
      ChangesLast(m, init, r, Some(q), usage, nowMs, k);
      PlannedLast(init, r, q);
      HoldForRule(all, q, r);
      PlansWhatIsAsked(r, q);
      if r.active && Asks(r, q) {
        BalanceHeld(m, Planned(init, q, true), holds, init, r, q, PlanOne(r, q).value, usage, nowMs, k);
      } else {
        BalanceFresh(m, Planned(init, q, true), holds, init, r, q, usage, nowMs, k);
        assert Planned(init, q, true) + [] == Planned(init, q, true);
      }
    }
  }

  /** A settle changes each counter by exactly what its rules say, while the counter covers the holds. */
  lemma SettleChanges(
    rules: seq<Rule>, names: Names, m: Counters, q: Request, usage: Usage, nowMs: int, k: CounterKey)
    requires Allowed(names, q.modelAliasId) && Allowed(names, usage.modelAliasId)
    requires DistinctIds(rules) && WritesApart(rules, names) && AskedOn(rules, q, k) <= Count(m, k)
    ensures Count(ApplyAll(m, Coalesced(SettleWrites(m, Holds(Planned(rules, q, true)), rules, usage, nowMs))), k) ==
      Count(m, k) + Changes(m, rules, Some(q), usage, nowMs, k)
  {
    var planned := Planned(rules, q, true);
    ClaimedIsAsked(rules, q, k);
    SettleExact(rules, names, m, q, usage, nowMs, k);
    ClaimsConcat(SettledClaims(m, planned, usage, nowMs, q.nowMs),
                 FreshClaims(m, Holds(planned), rules, usage, nowMs), k);
    ChangesAreClaims(rules, rules, m, q, usage, nowMs, k, Holds(planned));
  }

  lemma {:induction false} FreshAreChanges(m: Counters, rules: seq<Rule>, usage: Usage, nowMs: int, k: CounterKey)
    ensures ClaimsOn(FreshClaims(m, [], rules, usage, nowMs), k) == Changes(m, rules, None, usage, nowMs, k)
  {
    if rules != [] {
      var init, r := rules[..|rules|-1], rules[|rules|-1];
      assert rules == init + [r];
      FreshAreChanges(m, init, usage, nowMs, k);
      FreshLast(m, [], init, r, usage, nowMs, k);
      ChangesLast(m, init, r, None, usage, nowMs, k);
      FreshChange(m, [], r, None, usage, nowMs, k);
    }
  }

  /** A settle without a reservation charges each counter exactly what is granted of the usage. */
  lemma DirectCharges(rules: seq<Rule>, names: Names, m: Counters, usage: Usage, nowMs: int, k: CounterKey)
    requires Allowed(names, usage.modelAliasId) && DistinctIds(rules) && WritesApart(rules, names)
    ensures Count(ApplyAll(m, Coalesced(SettleWrites(m, [], rules, usage, nowMs))), k) ==
      Count(m, k) + Changes(m, rules, None, usage, nowMs, k)
  {
    DirectExact(rules, names, m, usage, nowMs, k);
    FreshAreChanges(m, rules, usage, nowMs, k);
  }
}
