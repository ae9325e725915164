/**
 Conservation: every counter equals the outstanding holds plus the settled usage that the
 ledger attributes to it, and the floor at 0 never shows, in every run exactly when no two
 active rules can put their writes under one key.
 */
module LimitLedger {
  import opened Options
  import opened CounterStore
  import opened RateLimits
  import opened Amounts
  import opened LimitRuns
  import opened Coalescing
  import opened JsMap

  function ClaimsOn(claims: seq<Claim>, k: CounterKey): nat
  {
    if claims == [] then 0
    else ClaimsOn(claims[..|claims|-1], k) + (if claims[|claims|-1].key == k then claims[|claims|-1].amount else 0)
  }

  /** Outstanding holds plus settled contributions on one counter. */
  function LedgerOn(tickets: seq<Ticket>, k: CounterKey): nat
  {
    if tickets == [] then 0 else LedgerOn(tickets[..|tickets|-1], k) + ClaimsOn(tickets[|tickets|-1].claims, k)
  }

  ghost predicate Conserved(s: State)
  {
    forall k :: Count(s.counters, k) == LedgerOn(s.tickets, k)
  }

  /** What a write is keyed by besides its bucket: its label, its window and its target as text. */
  datatype Slot = Slot(dimension: Dimension, windowSeconds: nat, target: string)

  function SlotOf(w: CounterWrite): Slot { Slot(w.dimension, w.windowSeconds, OrEmpty(w.scopeTarget)) }

  /** Some call makes the rule write under this slot. */
  predicate Fills(r: Rule, names: Names, t: Slot)
  {
    && r.active && r.dimension == t.dimension && r.windowSeconds == t.windowSeconds
    && if r.scope == ModelScope then
         (Targeted(r) ==> t.target == OrEmpty(r.scopeTarget)) && Allowed(names, Some(t.target))
       else t.target == ""
  }

  /**
   Two active rules whose writes some call puts under one key. The labels are compared as
   written, so the two spellings of money never meet. A customer-wide and an untargeted model
   rule meet only in a call with an empty model name.
   */
  predicate Collide(r: Rule, s: Rule, names: Names)
  {
    && r.active && s.active && r.dimension == s.dimension && r.windowSeconds == s.windowSeconds
    && if r.scope == ModelScope && s.scope == ModelScope then
         !Targeted(r) || !Targeted(s) || r.scopeTarget == s.scopeTarget
       else if r.scope != ModelScope && s.scope != ModelScope then true
       else names.Any? && (r.scope == ModelScope ==> !Targeted(r)) && (s.scope == ModelScope ==> !Targeted(s))
  }

  /** No two rules can put their writes under one key. */
  predicate WritesApart(rules: seq<Rule>, names: Names)
  {
    forall r, s | r in rules && s in rules && Collide(r, s, names) :: r == s
  }

  lemma FilledTogether(r: Rule, s: Rule, names: Names, t: Slot)
    requires Fills(r, names, t) && Fills(s, names, t)
    ensures Collide(r, s, names)
  {
  }

  lemma PlanFills(r: Rule, names: Names, q: Request)
    requires Allowed(names, q.modelAliasId) && r.active && PlanOne(r, q).Some?
    ensures Fills(r, names, SlotOf(PlanOne(r, q).value.Write()))
  {
  }

  /** An open ticket still holds exactly what was planned for it. */
  ghost predicate TicketSound(rules: seq<Rule>, names: Names, t: Ticket)
  {
    t.open ==> t.claims == HeldClaims(TicketPlan(rules, t), t.request.nowMs) && Allowed(names, t.request.modelAliasId)
  }

  ghost predicate LedgerInv(rules: seq<Rule>, names: Names, s: State)
  {
    Conserved(s) && forall t | t in s.tickets :: TicketSound(rules, names, t)
  }

  // ---------------------------------------------------------------------------
  // Sums over the ledger
  // ---------------------------------------------------------------------------

  lemma {:induction false} ClaimsConcat(a: seq<Claim>, b: seq<Claim>, k: CounterKey)
    ensures ClaimsOn(a + b, k) == ClaimsOn(a, k) + ClaimsOn(b, k)
  {
    if b == [] {
      assert a + b == a;
    } else {
      assert (a + b)[..|a + b|-1] == a + b[..|b|-1];
      ClaimsConcat(a, b[..|b|-1], k);
    }
  }

  lemma {:induction false} LedgerUpdate(tickets: seq<Ticket>, i: nat, t: Ticket, k: CounterKey)
    requires i < |tickets|
    ensures LedgerOn(tickets[i := t], k) ==
      LedgerOn(tickets, k) - ClaimsOn(tickets[i].claims, k) + ClaimsOn(t.claims, k)
    ensures ClaimsOn(tickets[i].claims, k) <= LedgerOn(tickets, k)
  {
    var n := |tickets| - 1;
    if i == n {
      assert tickets[i := t][..n] == tickets[..n];
    } else {
      assert tickets[i := t][..n] == tickets[..n][i := t];
      LedgerUpdate(tickets[..n], i, t, k);
    }
  }

  lemma {:induction false} ClosedIsNothing(claims: seq<Claim>, k: CounterKey)
    ensures ClaimsOn(Closed(claims), k) == 0
  {
    if claims != [] {
      assert Closed(claims)[..|claims|-1] == Closed(claims[..|claims|-1]);
      ClosedIsNothing(claims[..|claims|-1], k);
    }
  }

  // ---------------------------------------------------------------------------
  // Writes apart: nothing to coalesce
  // ---------------------------------------------------------------------------

  ghost predicate DistinctSlots(ws: seq<CounterWrite>)
  {
    forall i, j | 0 <= i < j < |ws| :: SlotOf(ws[i]) != SlotOf(ws[j])
  }

  lemma NothingToCoalesce(ws: seq<CounterWrite>)
    requires DistinctSlots(ws)
    ensures Coalesced(ws) == ws
  {
    forall i, j | 0 <= i < j < |ws| ensures CounterWriteKey(ws[i]) != CounterWriteKey(ws[j]) {
      CounterWriteKeyInjective(ws[i], ws[j]);
    }
    CoalesceDistinct(ws);
  }

  ghost predicate FilledIn(rules: seq<Rule>, names: Names, t: Slot)
  {
    exists r :: r in rules && Fills(r, names, t)
  }

  predicate Apart(rules: seq<Rule>, names: Names, r: Rule)
  {
    forall o | o in rules :: !Collide(o, r, names)
  }

  /** One more write, of a rule that collides with none of the earlier ones. */
  lemma DistinctAppend(ws: seq<CounterWrite>, w: CounterWrite, rules: seq<Rule>, names: Names, r: Rule)
    requires DistinctSlots(ws) && Fills(r, names, SlotOf(w))
    requires forall v | v in ws :: FilledIn(rules, names, SlotOf(v))
    requires Apart(rules, names, r)
    ensures DistinctSlots(ws + [w])
  {
    forall i | 0 <= i < |ws| ensures SlotOf(ws[i]) != SlotOf(w) {
      assert ws[i] in ws;
      var o :| o in rules && Fills(o, names, SlotOf(ws[i]));
      assert !Collide(o, r, names);
    }
  }

  lemma LastIsApart(rules: seq<Rule>, names: Names)
    requires rules != [] && DistinctIds(rules) && WritesApart(rules, names)
    ensures Apart(rules[..|rules|-1], names, rules[|rules|-1])
    ensures DistinctIds(rules[..|rules|-1]) && WritesApart(rules[..|rules|-1], names)
  {
    var init, last := rules[..|rules|-1], rules[|rules|-1];
    assert rules == init + [last];
    assert forall o | o in init :: o in rules && o != last;
  }

  lemma {:induction false} PlannedSlots(rules: seq<Rule>, names: Names, q: Request)
    requires Allowed(names, q.modelAliasId)
    requires DistinctIds(rules) && WritesApart(rules, names)
    ensures DistinctSlots(Writes(Planned(rules, q, true)))
    ensures forall v | v in Writes(Planned(rules, q, true)) :: FilledIn(rules, names, SlotOf(v))
  {
    if rules != [] {
      var init, last := rules[..|rules|-1], rules[|rules|-1];
      LastIsApart(rules, names);
      PlannedSlots(init, names, q);
      var before, all := Writes(Planned(init, q, true)), Writes(Planned(rules, q, true));
      WidenFilled(before, init, names, last);
      if last.active && PlanOne(last, q).Some? {
        var w := PlanOne(last, q).value.Write();
        PlanFills(last, names, q);
        DistinctAppend(before, w, init, names, last);
        assert all == before + [w];
      } else {
        assert all == before;
      }
      assert rules == init + [last];
    }
  }

  lemma WidenFilled(ws: seq<CounterWrite>, init: seq<Rule>, names: Names, last: Rule)
    requires forall v | v in ws :: FilledIn(init, names, SlotOf(v))
    ensures forall v | v in ws :: FilledIn(init + [last], names, SlotOf(v))
  {
    forall v | v in ws ensures FilledIn(init + [last], names, SlotOf(v)) {
      var o :| o in init && Fills(o, names, SlotOf(v));
      assert o in init + [last];
    }
  }

  // ---------------------------------------------------------------------------
  // Reserve and release
  // ---------------------------------------------------------------------------

  lemma {:induction false} HeldNet(planned: seq<PlannedHold>, at: int, k: CounterKey)
    ensures NetOn(Writes(planned), k) == ClaimsOn(HeldClaims(planned, at), k)
    ensures AllClaims(Writes(planned))
  {
    if planned != [] {
      var init, last := planned[..|planned|-1], planned[|planned|-1];
      HeldNet(init, at, k);
      assert Writes(planned) == Writes(init) + [last.Write()];
      assert HeldClaims(planned, at)[..|init|] == HeldClaims(init, at);
    }
  }

  lemma ReserveConserves(rules: seq<Rule>, names: Names, s: State, q: Request)
    requires Allowed(names, q.modelAliasId)
    requires DistinctIds(rules) && WritesApart(rules, names) && LedgerInv(rules, names, s)
    ensures LedgerInv(rules, names, Step(rules, s, ReserveEv(q)))
  {
    var planned := Planned(rules, q, true);
    var t := Step(rules, s, ReserveEv(q));
    if Violations(s.counters, planned, q.nowMs) == [] {
      PlannedSlots(rules, names, q);
      NothingToCoalesce(Writes(planned));
      forall k ensures Count(t.counters, k) == LedgerOn(t.tickets, k) {
        HeldNet(planned, q.nowMs, k);
        NegatedNet(Writes(planned), k);
        NoFloor(s.counters, Writes(planned), k);
        assert t.tickets[..|s.tickets|] == s.tickets;
      }
    }
  }

  /** A release takes back exactly what the ticket holds; no counter is floored. */
  lemma ReleaseExact(rules: seq<Rule>, names: Names, m: Counters, q: Request, k: CounterKey)
    requires Allowed(names, q.modelAliasId)
    requires DistinctIds(rules) && WritesApart(rules, names)
    requires ClaimsOn(HeldClaims(Planned(rules, q, true), q.nowMs), k) <= Count(m, k)
    ensures Count(ApplyAll(m, Coalesced(ReleaseWrites(Holds(Planned(rules, q, true))))), k)
      == Count(m, k) - ClaimsOn(HeldClaims(Planned(rules, q, true), q.nowMs), k)
  {
    var planned := Planned(rules, q, true);
    PlannedSlots(rules, names, q);
    NothingToCoalesce(Writes(planned));
    ReleaseNegates(planned);
    CoalesceNegated(Writes(planned));
    HeldNet(planned, q.nowMs, k);
    NegatedNet(Writes(planned), k);
    NoFloor(m, Negated(Writes(planned)), k);
  }

  lemma ReleaseConserves(rules: seq<Rule>, names: Names, s: State, i: nat)
    requires DistinctIds(rules) && WritesApart(rules, names) && LedgerInv(rules, names, s) && Open(s, i)
    ensures LedgerInv(rules, names, Step(rules, s, ReleaseEv(i)))
  {
    var t := s.tickets[i];
    var after := Step(rules, s, ReleaseEv(i));
    assert t in s.tickets && TicketSound(rules, names, t);
    forall k ensures Count(after.counters, k) == LedgerOn(after.tickets, k) {
      LedgerUpdate(s.tickets, i, Ticket(t.request, Closed(t.claims), false), k);
      ClosedIsNothing(t.claims, k);
      ReleaseExact(rules, names, s.counters, t.request, k);
    }
  }

  /** A release closes the ticket and takes what it held out of every counter. */
  lemma ReleaseGivesBack(rules: seq<Rule>, names: Names, s: State, i: nat, k: CounterKey)
    requires DistinctIds(rules) && WritesApart(rules, names) && LedgerInv(rules, names, s) && Open(s, i)
    ensures var t := Step(rules, s, ReleaseEv(i));
      && !Open(t, i) && ClaimsOn(t.tickets[i].claims, k) == 0
      && Count(t.counters, k) == Count(s.counters, k) - ClaimsOn(s.tickets[i].claims, k)
  {
    var t := s.tickets[i];
    assert t in s.tickets && TicketSound(rules, names, t);
    LedgerUpdate(s.tickets, i, t, k);
    ClosedIsNothing(t.claims, k);
    ReleaseExact(rules, names, s.counters, t.request, k);
  }

  // ---------------------------------------------------------------------------
  // Settle
  // ---------------------------------------------------------------------------

  /** What settling finds held: the plan of the ticket, or nothing for a direct settle. */
  function Held(rules: seq<Rule>, q: Request, direct: bool): seq<PlannedHold>
  {
    if direct then [] else Planned(rules, q, true)
  }

  lemma HoldForHeld(rules: seq<Rule>, q: Request, direct: bool, r: Rule)
    requires DistinctIds(rules) && r in rules
    ensures HoldFor(Holds(Held(rules, q, direct)), r.id) ==
      if !direct && r.active && PlanOne(r, q).Some? then Some(PlanOne(r, q).value.Hold()) else None
  {
    if !direct { HoldForRule(rules, q, r); }
  }

  /** The write on a held counter is the settled amount less the reserved one. */
  lemma DeltaSettles(m: Counters, p: PlannedHold, actual: nat, nowMs: int)
    ensures HoldDelta(m, p.Hold(), actual, nowMs) == SettledAmount(m, p, actual, nowMs) - p.increment
  {
  }

  /** Changes on one counter from the holds of live rules, and what those holds hold there. */
  ghost function LiveDelta(m: Counters, planned: seq<PlannedHold>, usage: Usage, nowMs: int, k: CounterKey): int
  {
    if planned == [] then 0
    else
      var p := planned[|planned|-1];
      LiveDelta(m, planned[..|planned|-1], usage, nowMs, k) +
      (if Live(p.rule, usage.modelAliasId) && p.Write().Doc() == k
       then SettledAmount(m, p, Charged(p.rule.dimension, usage), nowMs) - p.increment else 0)
  }

  function HeldOn(planned: seq<PlannedHold>, alias: Option<string>, live: bool, k: CounterKey): nat
  {
    if planned == [] then 0
    else
      var p := planned[|planned|-1];
      HeldOn(planned[..|planned|-1], alias, live, k) +
      (if Live(p.rule, alias) == live && p.Write().Doc() == k then p.increment else 0)
  }

  /** What one rule's write adds to a counter and releases from it. */
  lemma RuleNet(rules: seq<Rule>, m: Counters, q: Request, direct: bool, usage: Usage, nowMs: int, r: Rule)
    requires DistinctIds(rules) && r in rules
    ensures var w := SettleWrite(m, Holds(Held(rules, q, direct)), r, usage, nowMs);
      if !Live(r, usage.modelAliasId) then w.None?
      else if !direct && PlanOne(r, q).Some? then
        var p := PlanOne(r, q).value;
        var delta := SettledAmount(m, p, Charged(r.dimension, usage), nowMs) - p.increment;
        w == if delta == 0 then None else Some(p.Hold().Write(delta))
      else
        var claim := FreshClaimOf(m, Holds(Held(rules, q, direct)), r, usage, nowMs);
        && (w.Some? <==> claim.Some?)
        && (w.Some? ==> w.value.increment > 0 && claim.value == Claim(w.value.Doc(), nowMs, w.value.increment))
  {
    var holds := Holds(Held(rules, q, direct));
    HoldForHeld(rules, q, direct, r);
    if Live(r, usage.modelAliasId) {
      if !direct && PlanOne(r, q).Some? {
        HeldNetWrite(m, holds, PlanOne(r, q).value, r, usage, nowMs);
      } else {
        FreshNetWrite(m, holds, r, usage, nowMs);
      }
    }
  }

  lemma HeldNetWrite(m: Counters, holds: seq<LimitHold>, p: PlannedHold, r: Rule, usage: Usage, nowMs: int)
    requires HoldFor(holds, r.id) == Some(p.Hold()) && Live(r, usage.modelAliasId)
    ensures var delta := SettledAmount(m, p, Charged(r.dimension, usage), nowMs) - p.increment;
      SettleWrite(m, holds, r, usage, nowMs) == if delta == 0 then None else Some(p.Hold().Write(delta))
  {
    IncrementIsCharged(r, usage);
    DeltaSettles(m, p, Charged(r.dimension, usage), nowMs);
  }

  lemma FreshNetWrite(m: Counters, holds: seq<LimitHold>, r: Rule, usage: Usage, nowMs: int)
    requires HoldFor(holds, r.id).None? && Live(r, usage.modelAliasId)
    ensures var w, claim := SettleWrite(m, holds, r, usage, nowMs), FreshClaimOf(m, holds, r, usage, nowMs);
      && (w.Some? <==> claim.Some?)
      && (w.Some? ==> w.value.increment > 0 && claim.value == Claim(w.value.Doc(), nowMs, w.value.increment))
  {
    ResolvesByFields(r, usage.modelAliasId);
    FreshIsGranted(m, holds, r, usage, nowMs);
  }

  lemma {:induction false} RuleWritesNet(
    all: seq<Rule>, rules: seq<Rule>, m: Counters, q: Request, direct: bool, usage: Usage, nowMs: int, k: CounterKey)
    requires DistinctIds(all) && forall r | r in rules :: r in all
    ensures var holds := Holds(Held(all, q, direct));
      && NetOn(RuleWrites(m, holds, rules, usage, nowMs), k) ==
         LiveDelta(m, Held(rules, q, direct), usage, nowMs, k) + ClaimsOn(FreshClaims(m, holds, rules, usage, nowMs), k)
      && ReleasedOn(RuleWrites(m, holds, rules, usage, nowMs), k) <=
        HeldOn(Held(rules, q, direct), usage.modelAliasId, true, k)
  {
    if rules != [] {
      var init, r := rules[..|rules|-1], rules[|rules|-1];
      assert r in rules && forall o | o in init :: o in rules;
      RuleWritesNet(all, init, m, q, direct, usage, nowMs, k);
      RuleNet(all, m, q, direct, usage, nowMs, r);
      HoldForHeld(all, q, direct, r);
      HeldGrows(init, r, rules, q, direct, m, usage, nowMs, k);
    }
  }

  lemma HeldGrows(init: seq<Rule>, r: Rule, rules: seq<Rule>, q: Request, direct: bool, m: Counters, usage: Usage,
      nowMs: int, k: CounterKey)
    requires rules != [] && init == rules[..|rules|-1] && r == rules[|rules|-1]
    ensures var mine := !direct && r.active && PlanOne(r, q).Some? && PlanOne(r, q).value.Write().Doc() == k
      && Live(r, usage.modelAliasId);
      && LiveDelta(m, Held(rules, q, direct), usage, nowMs, k) == LiveDelta(m, Held(init, q, direct), usage, nowMs, k) +
         (if mine then
            SettledAmount(m, PlanOne(r, q).value, Charged(r.dimension, usage), nowMs) - PlanOne(r, q).value.increment
          else 0)
      && HeldOn(Held(rules, q, direct), usage.modelAliasId, true, k) ==
        HeldOn(Held(init, q, direct), usage.modelAliasId, true, k) +
         (if mine then PlanOne(r, q).value.increment else 0)
  {
    var before, after := Held(init, q, direct), Held(rules, q, direct);
    if !direct && r.active && PlanOne(r, q).Some? {
      assert after[..|after|-1] == before;
    }
  }

  lemma ConsumedIffLive(rules: seq<Rule>, q: Request, alias: Option<string>, p: PlannedHold)
    requires DistinctIds(rules) && p in Planned(rules, q, true)
    ensures p.rule.id in ConsumedIds(Holds(Planned(rules, q, true)), rules, alias) <==> Live(p.rule, alias)
  {
    PlannedMember(rules, q, true);
    HoldForRule(rules, q, p.rule);
    if p.rule.id in ConsumedIds(Holds(Planned(rules, q, true)), rules, alias) {
      var o :| o in rules && Live(o, alias) && o.id == p.rule.id;
      SameIdSameRule(rules, o, p.rule);
    }
  }

  lemma NetLast(init: seq<CounterWrite>, e: CounterWrite, k: CounterKey)
    ensures NetOn(init + [e], k) == NetOn(init, k) + (if e.Doc() == k then e.increment else 0)
    ensures ReleasedOn(init + [e], k) == ReleasedOn(init, k) + (if e.Doc() == k then Max(0, -e.increment) else 0)
  {
    assert (init + [e])[..|init|] == init;
  }

  lemma OrphanPush(init: seq<LimitHold>, h: LimitHold, consumed: set<string>)
    ensures OrphanWrites(init + [h], consumed) == OrphanWrites(init, consumed) +
      (if h.ruleId in consumed || h.reserved <= 0 then [] else [h.Write(0 - h.reserved)])
  {
    assert (init + [h])[..|init|] == init;
  }

  lemma OrphanAppend(init: seq<LimitHold>, h: LimitHold, consumed: set<string>, k: CounterKey)
    ensures var before, after := OrphanWrites(init, consumed), OrphanWrites(init + [h], consumed);
      var mine := h.ruleId !in consumed && h.Write(0).Doc() == k;
      && NetOn(after, k) == NetOn(before, k) - (if mine then h.reserved else 0)
      && ReleasedOn(after, k) == ReleasedOn(before, k) + (if mine then h.reserved else 0)
  {
    OrphanPush(init, h, consumed);
    var before := OrphanWrites(init, consumed);
    if h.ruleId in consumed || h.reserved <= 0 {
      assert before + [] == before;
    } else {
      NetLast(before, h.Write(0 - h.reserved), k);
    }
  }

  lemma HoldsLast(init: seq<PlannedHold>, p: PlannedHold)
    ensures Holds(init + [p]) == Holds(init) + [p.Hold()]
  {
  }

  lemma HeldOnLast(init: seq<PlannedHold>, p: PlannedHold, alias: Option<string>, live: bool, k: CounterKey)
    ensures HeldOn(init + [p], alias, live, k) ==
      HeldOn(init, alias, live, k) + (if Live(p.rule, alias) == live && p.Write().Doc() == k then p.increment else 0)
  {
    assert (init + [p])[..|init|] == init;
  }

  lemma {:induction false} OrphansNet(planned: seq<PlannedHold>, consumed: set<string>, alias: Option<string>,
      k: CounterKey)
    requires forall p | p in planned :: p.rule.id in consumed <==> Live(p.rule, alias)
    ensures NetOn(OrphanWrites(Holds(planned), consumed), k) == 0 - HeldOn(planned, alias, false, k)
    ensures ReleasedOn(OrphanWrites(Holds(planned), consumed), k) == HeldOn(planned, alias, false, k)
  {
    if planned != [] {
      var init, p := planned[..|planned|-1], planned[|planned|-1];
      InitAndLast(planned);
      assert p in planned;
      OrphansNet(init, consumed, alias, k);
      HoldsLast(init, p);
      HeldOnLast(init, p, alias, false, k);
      OrphanAppend(Holds(init), p.Hold(), consumed, k);
    }
  }

  lemma HeldClaimsLast(init: seq<PlannedHold>, p: PlannedHold, at: int, k: CounterKey)
    ensures ClaimsOn(HeldClaims(init + [p], at), k) ==
      ClaimsOn(HeldClaims(init, at), k) + (if p.Write().Doc() == k then p.increment else 0)
  {
    assert HeldClaims(init + [p], at) == HeldClaims(init, at) + [Claim(p.Write().Doc(), at, p.increment)];
    assert (HeldClaims(init, at) + [Claim(p.Write().Doc(), at, p.increment)])[..|init|] == HeldClaims(init, at);
  }

  /** What is held is held by live rules or by others. */
  lemma {:induction false} HeldSplit(planned: seq<PlannedHold>, alias: Option<string>, at: int, k: CounterKey)
    ensures HeldOn(planned, alias, true, k) + HeldOn(planned, alias, false, k) == ClaimsOn(HeldClaims(planned, at), k)
  {
    if planned != [] {
      var init, p := planned[..|planned|-1], planned[|planned|-1];
      assert planned == init + [p];
      HeldSplit(init, alias, at, k);
      HeldClaimsLast(init, p, at, k);
    }
  }

  lemma {:induction false} SettledDifference(m: Counters, planned: seq<PlannedHold>, usage: Usage, nowMs: int, at: int,
      k: CounterKey)
    ensures ClaimsOn(SettledClaims(m, planned, usage, nowMs, at), k) ==
      ClaimsOn(HeldClaims(planned, at), k) +
        LiveDelta(m, planned, usage, nowMs, k) - HeldOn(planned, usage.modelAliasId, false, k)
  {
    if planned != [] {
      var init, p := planned[..|planned|-1], planned[|planned|-1];
      assert planned == init + [p];
      SettledDifference(m, init, usage, nowMs, at, k);
      HeldClaimsLast(init, p, at, k);
      var now := SettledClaims(m, planned, usage, nowMs, at);
      assert now[..|now|-1] == SettledClaims(m, init, usage, nowMs, at);
    }
  }

  /** Every write of a settle has a slot of its own, so none coalesces with another. */
  lemma {:induction false} RuleSlots(
    all: seq<Rule>, rules: seq<Rule>, names: Names, m: Counters, q: Request, direct: bool, usage: Usage, nowMs: int)
    requires Allowed(names, q.modelAliasId) && Allowed(names, usage.modelAliasId)
    requires DistinctIds(all) && DistinctIds(rules) && WritesApart(rules, names) && forall r | r in rules :: r in all
    ensures var ws := RuleWrites(m, Holds(Held(all, q, direct)), rules, usage, nowMs);
      DistinctSlots(ws) && forall v | v in ws :: LiveIn(rules, names, usage.modelAliasId, SlotOf(v))
  {
    if rules != [] {
      var init, r := rules[..|rules|-1], rules[|rules|-1];
      var holds := Holds(Held(all, q, direct));
      LastIsApart(rules, names);
      assert r in rules && forall o | o in init :: o in rules;
      RuleSlots(all, init, names, m, q, direct, usage, nowMs);
      var before := RuleWrites(m, holds, init, usage, nowMs);
      var w := SettleWrite(m, holds, r, usage, nowMs);
      WidenLive(before, init, names, r, usage.modelAliasId);
      if w.Some? {
        RuleFills(all, names, m, q, direct, usage, nowMs, r, w.value);
        LiveIsFilled(before, init, names, usage.modelAliasId);
        DistinctAppend(before, w.value, init, names, r);
      }
      assert rules == init + [r];
    }
  }

  lemma RuleFills(
    all: seq<Rule>, names: Names, m: Counters, q: Request, direct: bool, usage: Usage, nowMs: int, r: Rule,
    w: CounterWrite)
    requires Allowed(names, q.modelAliasId) && Allowed(names, usage.modelAliasId)
    requires DistinctIds(all) && r in all
    requires SettleWrite(m, Holds(Held(all, q, direct)), r, usage, nowMs) == Some(w)
    ensures Live(r, usage.modelAliasId) && Fills(r, names, SlotOf(w))
  {
    HoldForHeld(all, q, direct, r);
    if !direct && PlanOne(r, q).Some? { PlanFills(r, names, q); }
  }

  ghost predicate LiveIn(rules: seq<Rule>, names: Names, alias: Option<string>, t: Slot)
  {
    exists r :: r in rules && Live(r, alias) && Fills(r, names, t)
  }

  lemma LiveIsFilled(ws: seq<CounterWrite>, rules: seq<Rule>, names: Names, alias: Option<string>)
    requires forall v | v in ws :: LiveIn(rules, names, alias, SlotOf(v))
    ensures forall v | v in ws :: FilledIn(rules, names, SlotOf(v))
  {
    forall v | v in ws ensures FilledIn(rules, names, SlotOf(v)) {
      assert LiveIn(rules, names, alias, SlotOf(v));
    }
  }

  lemma WidenLive(ws: seq<CounterWrite>, init: seq<Rule>, names: Names, last: Rule, alias: Option<string>)
    requires forall v | v in ws :: LiveIn(init, names, alias, SlotOf(v))
    ensures forall v | v in ws :: LiveIn(init + [last], names, alias, SlotOf(v))
  {
    forall v | v in ws ensures LiveIn(init + [last], names, alias, SlotOf(v)) {
      var o :| o in init && Live(o, alias) && Fills(o, names, SlotOf(v));
      assert o in init + [last];
    }
  }

  /** Orphaned holds keep the distinct slots of the plan. */
  lemma {:induction false} OrphanSlots(planned: seq<PlannedHold>, consumed: set<string>)
    requires DistinctSlots(Writes(planned))
    ensures DistinctSlots(OrphanWrites(Holds(planned), consumed))
    ensures forall v | v in OrphanWrites(Holds(planned), consumed) ::
      exists p :: p in planned && p.rule.id !in consumed && SlotOf(v) == SlotOf(p.Write())
  {
    if planned != [] {
      var init, p := planned[..|planned|-1], planned[|planned|-1];
      assert p in planned && Holds(planned)[..|init|] == Holds(init) && Writes(planned)[..|init|] == Writes(init);
      assert forall o | o in init :: o in planned;
      InitDistinct(Writes(planned));
      OrphanSlots(init, consumed);
      var rest := OrphanWrites(Holds(init), consumed);
      forall v | v in rest ensures SlotOf(v) != SlotOf(p.Write()) {
        var o :| o in init && o.rule.id !in consumed && SlotOf(v) == SlotOf(o.Write());
        var i :| 0 <= i < |init| && init[i] == o;
        assert SlotOf(Writes(planned)[i]) != SlotOf(Writes(planned)[|init|]);
      }
    }
  }

  lemma InitDistinct(ws: seq<CounterWrite>)
    requires ws != [] && DistinctSlots(ws)
    ensures DistinctSlots(ws[..|ws|-1])
  {
    var init := ws[..|ws|-1];
    assert forall i | 0 <= i < |init| :: init[i] == ws[i];
  }

  lemma JoinDistinct(a: seq<CounterWrite>, b: seq<CounterWrite>)
    requires DistinctSlots(a) && DistinctSlots(b)
    requires forall v, w | v in a && w in b :: SlotOf(v) != SlotOf(w)
    ensures DistinctSlots(a + b)
  {
    var ab := a + b;
    forall i, j | 0 <= i < j < |ab| ensures SlotOf(ab[i]) != SlotOf(ab[j]) {
      if i < |a| && |a| <= j {
        assert ab[i] in a && ab[j] in b;
      }
    }
  }

  lemma SettleSlots(rules: seq<Rule>, names: Names, m: Counters, q: Request, usage: Usage, nowMs: int)
    requires Allowed(names, q.modelAliasId) && Allowed(names, usage.modelAliasId)
    requires DistinctIds(rules) && WritesApart(rules, names)
    ensures DistinctSlots(SettleWrites(m, Holds(Planned(rules, q, true)), rules, usage, nowMs))
  {
    var planned := Planned(rules, q, true);
    var consumed := ConsumedIds(Holds(planned), rules, usage.modelAliasId);
    RuleSlots(rules, rules, names, m, q, false, usage, nowMs);
    PlannedSlots(rules, names, q);
    OrphanSlots(planned, consumed);
    var a, b := RuleWrites(m, Holds(planned), rules, usage, nowMs), OrphanWrites(Holds(planned), consumed);
    forall v, w | v in a && w in b ensures SlotOf(v) != SlotOf(w) {
      var r :| r in rules && Live(r, usage.modelAliasId) && Fills(r, names, SlotOf(v));
      var p :| p in planned && p.rule.id !in consumed && SlotOf(w) == SlotOf(p.Write());
      OrphanApart(rules, names, q, usage, r, p);
    }
    JoinDistinct(a, b);
  }

  lemma OrphanApart(rules: seq<Rule>, names: Names, q: Request, usage: Usage, r: Rule, p: PlannedHold)
    requires Allowed(names, q.modelAliasId)
    requires DistinctIds(rules) && WritesApart(rules, names)
    requires r in rules && Live(r, usage.modelAliasId) && p in Planned(rules, q, true)
    requires p.rule.id !in ConsumedIds(Holds(Planned(rules, q, true)), rules, usage.modelAliasId)
    ensures !Fills(r, names, SlotOf(p.Write()))
  {
    ConsumedIffLive(rules, q, usage.modelAliasId, p);
    PlannedMember(rules, q, true);
    PlanFills(p.rule, names, q);
    if Fills(r, names, SlotOf(p.Write())) {
      FilledTogether(r, p.rule, names, SlotOf(p.Write()));
    }
  }

  /** A settle moves each counter by what the ledger says, and floors none. */
  lemma SettleExact(rules: seq<Rule>, names: Names, m: Counters, q: Request, usage: Usage, nowMs: int, k: CounterKey)
    requires Allowed(names, q.modelAliasId) && Allowed(names, usage.modelAliasId)
    requires DistinctIds(rules) && WritesApart(rules, names)
    requires ClaimsOn(HeldClaims(Planned(rules, q, true), q.nowMs), k) <= Count(m, k)
    ensures var planned := Planned(rules, q, true);
      Count(ApplyAll(m, Coalesced(SettleWrites(m, Holds(planned), rules, usage, nowMs))), k) ==
        Count(m, k) - ClaimsOn(HeldClaims(planned, q.nowMs), k)
        + ClaimsOn(SettledClaims(m, planned, usage, nowMs, q.nowMs) +
          FreshClaims(m, Holds(planned), rules, usage, nowMs), k)
  {
    var planned := Planned(rules, q, true);
    var holds := Holds(planned);
    var consumed := ConsumedIds(holds, rules, usage.modelAliasId);
    var a, b := RuleWrites(m, holds, rules, usage, nowMs), OrphanWrites(holds, consumed);
    SettleSlots(rules, names, m, q, usage, nowMs);
    NothingToCoalesce(a + b);
    RuleWritesNet(rules, rules, m, q, false, usage, nowMs, k);
    forall p | p in planned ensures p.rule.id in consumed <==> Live(p.rule, usage.modelAliasId) {
      ConsumedIffLive(rules, q, usage.modelAliasId, p);
    }
    OrphansNet(planned, consumed, usage.modelAliasId, k);
    NetOnConcat(a, b, k);
    SettledDifference(m, planned, usage, nowMs, q.nowMs, k);
    HeldSplit(planned, usage.modelAliasId, q.nowMs, k);
    NoFloor(m, a + b, k);
    ClaimsConcat(SettledClaims(m, planned, usage, nowMs, q.nowMs), FreshClaims(m, holds, rules, usage, nowMs), k);
  }

  /** The same for a settle without a reservation. */
  lemma DirectExact(rules: seq<Rule>, names: Names, m: Counters, usage: Usage, nowMs: int, k: CounterKey)
    requires Allowed(names, usage.modelAliasId)
    requires DistinctIds(rules) && WritesApart(rules, names)
    ensures Count(ApplyAll(m, Coalesced(SettleWrites(m, [], rules, usage, nowMs))), k) ==
      Count(m, k) + ClaimsOn(FreshClaims(m, [], rules, usage, nowMs), k)
  {
    var q := Request(Estimates(None, None), None, nowMs);
    assert Holds([]) == [];
    RuleSlots(rules, rules, names, m, q, true, usage, nowMs);
    RuleWritesNet(rules, rules, m, q, true, usage, nowMs, k);
    NoHolds(m, usage, nowMs, q.modelAliasId, k);
    var a := RuleWrites(m, [], rules, usage, nowMs);
    assert SettleWrites(m, [], rules, usage, nowMs) == a;
    NothingToCoalesce(a);
    NoFloor(m, a, k);
  }

  lemma NoHolds(m: Counters, usage: Usage, nowMs: int, alias: Option<string>, k: CounterKey)
    ensures LiveDelta(m, [], usage, nowMs, k) == 0 && HeldOn([], usage.modelAliasId, true, k) == 0
  {
  }

  lemma SettleConserves(rules: seq<Rule>, names: Names, s: State, i: nat, usage: Usage, nowMs: int)
    requires Allowed(names, usage.modelAliasId)
    requires DistinctIds(rules) && WritesApart(rules, names) && LedgerInv(rules, names, s) && Open(s, i)
    ensures LedgerInv(rules, names, Step(rules, s, SettleEv(i, usage, nowMs)))
  {
    var t := s.tickets[i];
    var after := Step(rules, s, SettleEv(i, usage, nowMs));
    assert t in s.tickets && TicketSound(rules, names, t);
    forall k ensures Count(after.counters, k) == LedgerOn(after.tickets, k) {
      LedgerUpdate(s.tickets, i, after.tickets[i], k);
      SettleExact(rules, names, s.counters, t.request, usage, nowMs, k);
    }
  }

  lemma DirectConserves(rules: seq<Rule>, names: Names, s: State, usage: Usage, nowMs: int)
    requires Allowed(names, usage.modelAliasId)
    requires DistinctIds(rules) && WritesApart(rules, names) && LedgerInv(rules, names, s)
    ensures LedgerInv(rules, names, Step(rules, s, DirectEv(usage, nowMs)))
  {
    var after := Step(rules, s, DirectEv(usage, nowMs));
    forall k ensures Count(after.counters, k) == LedgerOn(after.tickets, k) {
      DirectExact(rules, names, s.counters, usage, nowMs, k);
      assert after.tickets[..|s.tickets|] == s.tickets;
    }
  }

  lemma StepConserves(rules: seq<Rule>, names: Names, s: State, e: Event)
    requires EventAllowed(names, e)
    requires DistinctIds(rules) && WritesApart(rules, names) && LedgerInv(rules, names, s)
    ensures LedgerInv(rules, names, Step(rules, s, e))
  {
    match e
    case ReserveEv(q) => ReserveConserves(rules, names, s, q);
    case SettleEv(i, usage, nowMs) => if Open(s, i) { SettleConserves(rules, names, s, i, usage, nowMs); }
    case DirectEv(usage, nowMs) => DirectConserves(rules, names, s, usage, nowMs);
    case ReleaseEv(i) => if Open(s, i) { ReleaseConserves(rules, names, s, i); }
  }

  /**
   Conservation over whole runs: with distinct ids and writes apart, every counter
   equals the outstanding holds plus the settled usage on it, after any steps in any order.
   */
  lemma {:induction false} RunConserves(rules: seq<Rule>, names: Names, clock: int, events: seq<Event>)
    requires EventsAllowed(names, events)
    requires DistinctIds(rules) && WritesApart(rules, names)
    ensures LedgerInv(rules, names, Run(rules, Init(clock), events))
  {
    if events != [] {
      var init, e := events[..|events|-1], events[|events|-1];
      AllowedLast(names, events);
      RunConserves(rules, names, clock, init);
      StepConserves(rules, names, Run(rules, Init(clock), init), e);
    }
  }

  // ---------------------------------------------------------------------------
  // Colliding rules lose a claim
  // ---------------------------------------------------------------------------

  lemma {:induction false} NetUpdate(ws: seq<CounterWrite>, i: nat, w: CounterWrite, k: CounterKey)
    requires i < |ws| && w.Doc() == ws[i].Doc()
    ensures NetOn(ws[i := w], k) == NetOn(ws, k) + (if w.Doc() == k then w.increment - ws[i].increment else 0)
  {
    var n := |ws| - 1;
    if i == n {
      assert ws[i := w][..n] == ws[..n];
    } else {
      assert ws[i := w][..n] == ws[..n][i := w];
      NetUpdate(ws[..n], i, w, k);
    }
  }

  lemma RepeatedStep(m: JsMap<string, CounterWrite>, e: CounterWrite) returns (i: nat)
    requires m.Valid() && CounterWriteKey(e) in m.at
    ensures i < |m.order| && m.Values()[i] == m.at[CounterWriteKey(e)]
    ensures CoalesceStep(m, e).Values() == m.Values()[i := CoalesceStep(m, e).at[CounterWriteKey(e)]]
  {
    assert CounterWriteKey(e) in m.order;
    i :| 0 <= i < |m.order| && m.order[i] == CounterWriteKey(e);
  }

  lemma NewStep(m: JsMap<string, CounterWrite>, e: CounterWrite)
    requires m.Valid() && CounterWriteKey(e) !in m.at
    ensures CoalesceStep(m, e).Values() == m.Values() + [e]
  {
  }

  /** A repeated key adds nothing to a claim that is already there. */
  lemma CoalesceStepNet(m: JsMap<string, CounterWrite>, e: CounterWrite, k: CounterKey)
    requires m.Valid() && e.increment >= 0
    requires CounterWriteKey(e) in m.at ==> m.at[CounterWriteKey(e)].increment >= 0
    ensures NetOn(CoalesceStep(m, e).Values(), k) <=
      NetOn(m.Values(), k) + (if CounterWriteKey(e) in m.at || e.Doc() != k then 0 else e.increment)
  {
    if CounterWriteKey(e) in m.at {
      var i := RepeatedStep(m, e);
      NetUpdate(m.Values(), i, CoalesceStep(m, e).at[CounterWriteKey(e)], k);
    } else {
      NewStep(m, e);
      NetLast(m.Values(), e, k);
    }
  }

  /** Coalescing claims never adds to a document; an entry whose key came before adds nothing. */
  lemma {:induction false} CoalescedNet(init: seq<CounterWrite>, e: CounterWrite, k: CounterKey)
    requires AllClaims(init) && e.increment >= 0
    ensures NetOn(Coalesced(init + [e]), k) <= NetOn(Coalesced(init), k) +
      (if (exists o :: o in init && CounterWriteKey(o) == CounterWriteKey(e)) || e.Doc() != k then 0 else e.increment)
  {
    assert (init + [e])[..|init|] == init;
    CoalesceMapKeys(init);
    CoalesceMapLeast(init);
    CoalesceStepNet(CoalesceMap(init), e, k);
  }

  lemma {:induction false} CoalescedNetAtMost(ws: seq<CounterWrite>, k: CounterKey)
    requires AllClaims(ws)
    ensures NetOn(Coalesced(ws), k) <= NetOn(ws, k)
  {
    if ws != [] {
      var init, e := ws[..|ws|-1], ws[|ws|-1];
      InitAndLast(ws);
      CoalescedNetAtMost(init, k);
      CoalescedNet(init, e, k);
      NetLast(init, e, k);
    }
  }

  /** Two claims under one key: the document of the second ends with less than was claimed. */
  lemma {:induction false} CoalescedLoses(ws: seq<CounterWrite>, i: nat, j: nat)
    requires AllClaims(ws) && i < j < |ws| && CounterWriteKey(ws[i]) == CounterWriteKey(ws[j]) && ws[j].increment > 0
    ensures NetOn(Coalesced(ws), ws[j].Doc()) < NetOn(ws, ws[j].Doc())
  {
    var init, e := ws[..|ws|-1], ws[|ws|-1];
    InitAndLast(ws);
    CoalescedNet(init, e, ws[j].Doc());
    NetLast(init, e, ws[j].Doc());
    if j < |init| {
      CoalescedLoses(init, i, j);
    } else {
      CoalescedNetAtMost(init, e.Doc());
      assert init[i] in init;
    }
  }

  /** A call of one unit that both colliding rules apply to. */
  function CollidingCall(r: Rule, s: Rule): Request
  {
    Request(Estimates(Some(1), Some(1)),
            if r.scope == ModelScope && Targeted(r) then r.scopeTarget
            else if s.scope == ModelScope && Targeted(s) then s.scopeTarget
            else if r.scope == ModelScope && s.scope == ModelScope then Some("m")
            else if r.scope != ModelScope && s.scope != ModelScope then None
            else Some(""),
            0)
  }

  lemma CollidingWrites(r: Rule, s: Rule, names: Names)
    requires Collide(r, s, names)
    ensures var q := CollidingCall(r, s);
      && Allowed(names, q.modelAliasId) && PlanOne(r, q).Some? && PlanOne(s, q).Some?
      && CounterWriteKey(PlanOne(r, q).value.Write()) == CounterWriteKey(PlanOne(s, q).value.Write())
  {
    var q := CollidingCall(r, s);
    CounterWriteKeyInjective(PlanOne(r, q).value.Write(), PlanOne(s, q).value.Write());
  }

  lemma PlanIndex(rules: seq<Rule>, q: Request, r: Rule) returns (i: nat)
    requires r in rules && r.active && PlanOne(r, q).Some?
    ensures i < |Planned(rules, q, true)| && Planned(rules, q, true)[i] == PlanOne(r, q).value
  {
    PlannedMember(rules, q, true);
    i :| 0 <= i < |Planned(rules, q, true)| && Planned(rules, q, true)[i] == PlanOne(r, q).value;
  }

  lemma PairLoses(ws: seq<CounterWrite>, i: nat, j: nat) returns (k: CounterKey)
    requires AllClaims(ws) && i < |ws| && j < |ws| && i != j && CounterWriteKey(ws[i]) == CounterWriteKey(ws[j])
    requires ws[i].increment > 0 && ws[j].increment > 0
    ensures NetOn(Coalesced(ws), k) < NetOn(ws, k)
  {
    if i < j {
      CoalescedLoses(ws, i, j);
      k := ws[j].Doc();
    } else {
      CoalescedLoses(ws, j, i);
      k := ws[i].Doc();
    }
  }

  /** Some document ends with less than two colliding rules claim of it together. */
  lemma CollisionLoses(rules: seq<Rule>, names: Names, r: Rule, s: Rule) returns (k: CounterKey)
    requires r in rules && s in rules && r != s && Collide(r, s, names)
    ensures var ws := Writes(Planned(rules, CollidingCall(r, s), true));
      NetOn(Coalesced(ws), k) < NetOn(ws, k)
  {
    var q := CollidingCall(r, s);
    CollidingWrites(r, s, names);
    var i := PlanIndex(rules, q, r);
    var j := PlanIndex(rules, q, s);
    HeldNet(Planned(rules, q, true), 0, PlanOne(r, q).value.Write().Doc());
    k := PairLoses(Writes(Planned(rules, q, true)), i, j);
  }

  /** On an empty store a claim fits when it is no more than its cap. */
  lemma {:induction false} FitsAtFirst(planned: seq<PlannedHold>, nowMs: int)
    requires forall p | p in planned :: p.increment <= p.rule.capValue
    ensures Violations(map[], planned, nowMs) == []
  {
    if planned != [] {
      var init, last := planned[..|planned|-1], planned[|planned|-1];
      assert last in planned && forall p | p in init :: p in planned;
      FitsAtFirst(init, nowMs);
      assert Window(map[], last.StreamOf(), last.windowStart) == map[];
    }
  }

  /** The reserve of a colliding call from the empty store, and what it leaves. */
  lemma CollidingReserve(rules: seq<Rule>, names: Names, r: Rule, s: Rule)
    requires Collide(r, s, names)
    ensures var q := CollidingCall(r, s);
      Step(rules, Init(0), ReserveEv(q)) ==
        State(ApplyAll(map[], Coalesced(Writes(Planned(rules, q, true)))), 0,
              [Ticket(q, HeldClaims(Planned(rules, q, true), 0), true)])
  {
    var q := CollidingCall(r, s);
    PlannedMember(rules, q, true);
    FitsAtFirst(Planned(rules, q, true), 0);
    assert Init(0).tickets + [Ticket(q, HeldClaims(Planned(rules, q, true), 0), true)]
      == [Ticket(q, HeldClaims(Planned(rules, q, true), 0), true)];
  }

  lemma CoalescedCount(planned: seq<PlannedHold>, k: CounterKey)
    ensures Count(ApplyAll(map[], Coalesced(Writes(planned))), k) == NetOn(Coalesced(Writes(planned)), k)
  {
    HeldNet(planned, 0, k);
    CoalesceNegated(Writes(planned));
    NegatedNet(Coalesced(Writes(planned)), k);
    NoFloor(map[], Coalesced(Writes(planned)), k);
  }

  lemma OneTicketLedger(t: Ticket, k: CounterKey)
    ensures LedgerOn([t], k) == ClaimsOn(t.claims, k)
  {
    assert [t][..0] == [];
  }

  lemma CollisionBreaks(rules: seq<Rule>, names: Names, r: Rule, s: Rule)
    requires r in rules && s in rules && r != s && Collide(r, s, names)
    ensures !Conserved(Step(rules, Init(0), ReserveEv(CollidingCall(r, s))))
  {
    var q := CollidingCall(r, s);
    var planned := Planned(rules, q, true);
    var k := CollisionLoses(rules, names, r, s);
    CollidingReserve(rules, names, r, s);
    CoalescedCount(planned, k);
    HeldNet(planned, 0, k);
    OneTicketLedger(Ticket(q, HeldClaims(planned, 0), true), k);
    var after := Step(rules, Init(0), ReserveEv(q));
    assert Count(after.counters, k) != LedgerOn(after.tickets, k);
  }

  /** Every run of such calls keeps every counter equal to its ledger. */
  ghost predicate RunsConserve(rules: seq<Rule>, names: Names)
  {
    forall clock, events | EventsAllowed(names, events) :: Conserved(Run(rules, Init(clock), events))
  }

  lemma OneStepRun(rules: seq<Rule>, s: State, e: Event)
    ensures Run(rules, s, [e]) == Step(rules, s, e)
  {
    assert [e][..0] == [];
  }

  /**
   The conservation law. With distinct rule ids, every run from an empty store keeps every
   counter equal to its ledger exactly when no two rules can put their writes under one key, be
   it under proper model names only or under any.
   */
  lemma ConservationExactlyWhen(rules: seq<Rule>, names: Names)
    requires DistinctIds(rules)
    ensures RunsConserve(rules, names) <==> WritesApart(rules, names)
  {
    if WritesApart(rules, names) {
      forall clock, events | EventsAllowed(names, events) ensures Conserved(Run(rules, Init(clock), events)) {
        RunConserves(rules, names, clock, events);
      }
    } else {
      var r, s :| r in rules && s in rules && Collide(r, s, names) && r != s;
      CollidingWrites(r, s, names);
      CollisionBreaks(rules, names, r, s);
      OneStepRun(rules, Init(0), ReserveEv(CollidingCall(r, s)));
      OneCallAllowed(names, CollidingCall(r, s));
    }
  }

  lemma OneCallAllowed(names: Names, q: Request)
    requires Allowed(names, q.modelAliasId)
    ensures EventsAllowed(names, [ReserveEv(q)])
  {
  }

  const PER_CUSTOMER := Rule("c", 3600, Tokens, 100, CustomerScope, None, true)
  const PER_MODEL := Rule("m1", 3600, Tokens, 50, ModelScope, None, true)

  /** A limit per customer beside one per model conserves in every run of proper calls, and not beyond. */
  lemma CustomerAndModelApart()
    ensures WritesApart([PER_CUSTOMER, PER_MODEL], Proper) && !WritesApart([PER_CUSTOMER, PER_MODEL], Any)
    ensures DistinctIds([PER_CUSTOMER, PER_MODEL])
  {
    assert Collide(PER_CUSTOMER, PER_MODEL, Any) && PER_CUSTOMER in [PER_CUSTOMER, PER_MODEL];
    assert PER_MODEL in [PER_CUSTOMER, PER_MODEL] && |PER_CUSTOMER.id| != |PER_MODEL.id|;
  }
}
