/**
 Runs of the limiter: any interleaving of atomic reserve, settle and release steps under a
 fixed rule list, with the ledger of what every claim stands for.
 */
module LimitRuns {
  import opened Options
  import opened CounterStore
  import opened RateLimits
  import opened Amounts

  /** What one call holds, or has used, of one counter; `at` is when it claimed. */
  datatype Claim = Claim(key: CounterKey, at: int, amount: nat)

  /** One admitted call. Open until it is settled or released. */
  datatype Ticket = Ticket(request: Request, claims: seq<Claim>, open: bool)

  /** `clock` is the largest clock any step has used. */
  datatype State = State(counters: Counters, clock: int, tickets: seq<Ticket>)

  datatype Event =
    | ReserveEv(request: Request)
    | SettleEv(ticket: nat, usage: Usage, nowMs: int)
    | DirectEv(usage: Usage, nowMs: int)  // settle without a reservation
    | ReleaseEv(ticket: nat)

  /** Which model names calls may carry: only proper ones, as the alias schema has it, or the empty one too. */
  datatype Names = Proper | Any

  predicate Allowed(names: Names, alias: Option<string>) { names.Any? || alias != Some("") }

  predicate EventAllowed(names: Names, e: Event)
  {
    match e
    case ReserveEv(q) => Allowed(names, q.modelAliasId)
    case SettleEv(_, usage, _) => Allowed(names, usage.modelAliasId)
    case DirectEv(usage, _) => Allowed(names, usage.modelAliasId)
    case ReleaseEv(_) => true
  }

  predicate EventsAllowed(names: Names, events: seq<Event>)
  {
    forall e | e in events :: EventAllowed(names, e)
  }

  lemma AllowedLast(names: Names, events: seq<Event>)
    requires events != [] && EventsAllowed(names, events)
    ensures EventsAllowed(names, events[..|events|-1]) && EventAllowed(names, events[|events|-1])
  {
    assert events[|events|-1] in events && forall e | e in events[..|events|-1] :: e in events;
  }

  function Init(clock: int): State { State(map[], clock, []) }

  function HeldClaims(planned: seq<PlannedHold>, at: int): seq<Claim>
  {
    seq(|planned|, i requires 0 <= i < |planned| => Claim(planned[i].Write().Doc(), at, planned[i].increment))
  }

  /** What a hold settles to: the actual usage when within the hold, otherwise the hold and what is granted on top. */
  ghost function SettledAmount(m: Counters, p: PlannedHold, actual: nat, nowMs: int): nat
  {
    var reserved: nat := p.increment;
    if actual <= reserved then actual else reserved + Granted(m, p.rule, p.target, actual - reserved, nowMs)
  }

  ghost function SettledClaim(m: Counters, p: PlannedHold, usage: Usage, nowMs: int, at: int): Claim
  {
    Claim(p.Write().Doc(), at,
          if Live(p.rule, usage.modelAliasId) then SettledAmount(m, p, Charged(p.rule.dimension, usage), nowMs) else 0)
  }

  ghost function SettledClaims(m: Counters, planned: seq<PlannedHold>, usage: Usage, nowMs: int, at: int): seq<Claim>
  {
    if planned == [] then []
    else
      SettledClaims(m, planned[..|planned|-1], usage, nowMs, at) +
      [SettledClaim(m, planned[|planned|-1], usage, nowMs, at)]
  }

  /** The claim of a rule without a hold: what is granted of the usage, in the bucket of the settle clock. */
  ghost function FreshClaimOf(m: Counters, holds: seq<LimitHold>, r: Rule, usage: Usage, nowMs: int): Option<Claim>
  {
    var target := ResolveScopeTarget(r, usage.modelAliasId);
    if !r.active || target.None? || HoldFor(holds, r.id).Some? then None
    else
      var amount := Granted(m, r, target.value, Charged(r.dimension, usage), nowMs);
      if amount == 0 then None else Some(Claim(DocOf(r, target.value, nowMs), nowMs, amount))
  }

  /** The claims of live rules that hold nothing. */
  ghost function FreshClaims(m: Counters, holds: seq<LimitHold>, rules: seq<Rule>, usage: Usage, nowMs: int): seq<Claim>
  {
    if rules == [] then []
    else
      var rest := FreshClaims(m, holds, rules[..|rules|-1], usage, nowMs);
      var claim := FreshClaimOf(m, holds, rules[|rules|-1], usage, nowMs);
      if claim.None? then rest else rest + [claim.value]
  }

  function Closed(claims: seq<Claim>): seq<Claim>
  {
    seq(|claims|, i requires 0 <= i < |claims| => claims[i].(amount := 0))
  }

  predicate Open(s: State, i: nat) { i < |s.tickets| && s.tickets[i].open }

  function TicketPlan(rules: seq<Rule>, t: Ticket): seq<PlannedHold> { Planned(rules, t.request, true) }

  ghost function Step(rules: seq<Rule>, s: State, e: Event): State
  {
    match e
    case ReserveEv(q) =>
      var planned := Planned(rules, q, true);
      var clock := Max(s.clock, q.nowMs);
      if Violations(s.counters, planned, q.nowMs) != [] then s.(clock := clock)
      else State(AfterReserve(s.counters, planned, q.nowMs), clock,
                 s.tickets + [Ticket(q, HeldClaims(planned, q.nowMs), true)])
    case SettleEv(i, usage, nowMs) =>
      if !Open(s, i) then s
      else
        var t := s.tickets[i];
        var planned := TicketPlan(rules, t);
        var holds := Holds(planned);
        State(ApplyAll(s.counters, Coalesced(SettleWrites(s.counters, holds, rules, usage, nowMs))),
              Max(s.clock, nowMs),
              s.tickets[i := Ticket(t.request,
                                    SettledClaims(s.counters, planned, usage, nowMs, t.request.nowMs) +
                                      FreshClaims(s.counters, holds, rules, usage, nowMs),
                                    false)])
    case DirectEv(usage, nowMs) =>
      State(ApplyAll(s.counters, Coalesced(SettleWrites(s.counters, [], rules, usage, nowMs))),
            Max(s.clock, nowMs),
            s.tickets + [Ticket(Request(Estimates(None, None), usage.modelAliasId, nowMs),
                                FreshClaims(s.counters, [], rules, usage, nowMs), false)])
    case ReleaseEv(i) =>
      if !Open(s, i) then s
      else
        var t := s.tickets[i];
        s.(counters := ApplyAll(s.counters, Coalesced(ReleaseWrites(Holds(TicketPlan(rules, t))))),
           tickets := s.tickets[i := Ticket(t.request, Closed(t.claims), false)])
  }

  ghost function Run(rules: seq<Rule>, s: State, events: seq<Event>): State
  {
    if events == [] then s else Step(rules, Run(rules, s, events[..|events|-1]), events[|events|-1])
  }

  // ---------------------------------------------------------------------------
  // Which rules can reach which streams
  // ---------------------------------------------------------------------------

  predicate CanReach(rule: Rule, target: Option<string>)
  {
    if rule.scope == ModelScope then target.Some? && (Targeted(rule) ==> target == rule.scopeTarget)
    else target.None?
  }

  /** A rule reaches a target exactly when some call takes it there. */
  lemma ReachExactlyWhen(rule: Rule, target: Option<string>)
    ensures CanReach(rule, target) <==> exists alias :: ResolveScopeTarget(rule, alias) == Some(target)
  {
    if CanReach(rule, target) {
      assert ResolveScopeTarget(rule, target) == Some(target);
    }
  }

  /** The rule limits this stream, for some request. */
  predicate Governs(rule: Rule, x: Stream)
  {
    && rule.active && StoredDimension(rule.dimension) == x.dimension
    && rule.windowSeconds == x.windowSeconds && CanReach(rule, x.scopeTarget)
  }

  predicate DistinctIds(rules: seq<Rule>)
  {
    forall i, j | 0 <= i < j < |rules| :: rules[i].id != rules[j].id
  }

  /** Two active rules that some request sends to one counter. */
  predicate Overlap(r: Rule, s: Rule)
  {
    && r.active && s.active && StoredDimension(r.dimension) == StoredDimension(s.dimension)
    && r.windowSeconds == s.windowSeconds
    && if r.scope == ModelScope then
         s.scope == ModelScope && (!Targeted(r) || !Targeted(s) || r.scopeTarget == s.scopeTarget)
       else s.scope != ModelScope
  }

  /** A stream both rules of an overlapping pair govern; its target is never the empty text. */
  function MeetingStream(r: Rule, s: Rule): (x: Stream)
    requires Overlap(r, s)
    ensures Governs(r, x) && Governs(s, x) && x.scopeTarget != Some("")
  {
    Stream(StoredDimension(r.dimension), r.windowSeconds,
           if r.scope != ModelScope then None
           else if Targeted(r) then r.scopeTarget
           else if Targeted(s) then s.scopeTarget
           else Some("m"))
  }

  lemma GovernedOverlap(r: Rule, s: Rule, x: Stream)
    requires Governs(r, x) && Governs(s, x)
    ensures Overlap(r, s)
  {
  }

  /** A call that takes one rule to a target takes there every rule that can reach it. */
  lemma Coresolve(r: Rule, s: Rule, alias: Option<string>, target: Option<string>)
    requires ResolveScopeTarget(r, alias) == Some(target) && CanReach(s, target)
    ensures CanReach(r, target) && ResolveScopeTarget(s, alias) == Some(target)
  {
  }

  // ---------------------------------------------------------------------------
  // Plans and holds of a rule list
  // ---------------------------------------------------------------------------

  lemma {:induction false} PlannedMember(rules: seq<Rule>, q: Request, activeOnly: bool)
    ensures forall p | p in Planned(rules, q, activeOnly) ::
      p.rule in rules && (activeOnly ==> p.rule.active) && PlanOne(p.rule, q) == Some(p)
    ensures forall r | r in rules && (activeOnly ==> r.active) && PlanOne(r, q).Some? ::
      PlanOne(r, q).value in Planned(rules, q, activeOnly)
  {
    if rules != [] {
      var n := |rules| - 1;
      PlannedMember(rules[..n], q, activeOnly);
      forall r | r in rules ensures r in rules[..n] || r == rules[n] {
      }
      assert rules[n] in rules;
      assert forall r | r in rules[..n] :: r in rules;
    }
  }

  lemma PlanOfWrite(planned: seq<PlannedHold>, e: CounterWrite) returns (p: PlannedHold)
    requires e in Writes(planned)
    ensures p in planned && e == p.Write()
  {
    var i :| 0 <= i < |planned| && Writes(planned)[i] == e;
    p := planned[i];
  }

  lemma PlannedFrom(rules: seq<Rule>, q: Request, p: PlannedHold)
    requires p in Planned(rules, q, true)
    ensures p.rule in rules && p.rule.active && PlanOne(p.rule, q) == Some(p)
  {
    PlannedMember(rules, q, true);
  }

  lemma HoldsMember(planned: seq<PlannedHold>)
    ensures forall h | h in Holds(planned) :: exists p :: p in planned && h == p.Hold()
    ensures forall p | p in planned :: p.Hold() in Holds(planned)
  {
    forall h | h in Holds(planned) ensures exists p :: p in planned && h == p.Hold() {
      var i :| 0 <= i < |planned| && Holds(planned)[i] == h;
      assert planned[i] in planned;
    }
    forall p | p in planned ensures p.Hold() in Holds(planned) {
      var i :| 0 <= i < |planned| && planned[i] == p;
      assert Holds(planned)[i] == p.Hold();
    }
  }

  lemma SameIdSameRule(rules: seq<Rule>, r: Rule, s: Rule)
    requires DistinctIds(rules) && r in rules && s in rules && r.id == s.id
    ensures r == s
  {
  }

  /** The hold a rule finds in a reservation is the one planned for it. */
  lemma HoldForRule(rules: seq<Rule>, q: Request, r: Rule)
    requires DistinctIds(rules) && r in rules
    ensures HoldFor(Holds(Planned(rules, q, true)), r.id) ==
      if r.active && PlanOne(r, q).Some? then Some(PlanOne(r, q).value.Hold()) else None
  {
    var planned := Planned(rules, q, true);
    PlannedMember(rules, q, true);
    HoldsMember(planned);
    var found := HoldFor(Holds(planned), r.id);
    assert r.active && PlanOne(r, q).Some? ==> PlanOne(r, q).value.Hold() in Holds(planned);
    if found.Some? {
      var p :| p in planned && found.value == p.Hold();
      SameIdSameRule(rules, p.rule, r);
    }
  }

  lemma {:induction false} RuleWritesMember(m: Counters, holds: seq<LimitHold>, rules: seq<Rule>, usage: Usage,
      nowMs: int)
    ensures forall w | w in RuleWrites(m, holds, rules, usage, nowMs) ::
      exists r :: r in rules && SettleWrite(m, holds, r, usage, nowMs) == Some(w)
    ensures forall r | r in rules && SettleWrite(m, holds, r, usage, nowMs).Some? ::
      SettleWrite(m, holds, r, usage, nowMs).value in RuleWrites(m, holds, rules, usage, nowMs)
  {
    if rules != [] {
      var init, last := rules[..|rules|-1], rules[|rules|-1];
      RuleWritesMember(m, holds, init, usage, nowMs);
      forall w | w in RuleWrites(m, holds, rules, usage, nowMs)
        ensures exists r :: r in rules && SettleWrite(m, holds, r, usage, nowMs) == Some(w)
      {
        if w in RuleWrites(m, holds, init, usage, nowMs) {
          var r :| r in init && SettleWrite(m, holds, r, usage, nowMs) == Some(w);
          assert r in rules;
        } else {
          assert last in rules;
        }
      }
      assert forall r | r in rules :: r in init || r == last;
    }
  }

  lemma RuleOfWrite(m: Counters, holds: seq<LimitHold>, rules: seq<Rule>, usage: Usage, nowMs: int, w: CounterWrite)
    returns (r: Rule)
    requires w in RuleWrites(m, holds, rules, usage, nowMs)
    ensures r in rules && SettleWrite(m, holds, r, usage, nowMs) == Some(w)
  {
    RuleWritesMember(m, holds, rules, usage, nowMs);
    r :| r in rules && SettleWrite(m, holds, r, usage, nowMs) == Some(w);
  }
}
