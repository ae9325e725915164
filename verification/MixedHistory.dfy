/**
 Reserves, settles and releases of one rule as concurrent transactions: each reads a snapshot, and
 commits only if no document it writes was written since. What a settle writes depends on what it
 read, so the batch is known at the end of the attempt only.
 */
module MixedHistory {
  import opened Options
  import opened CounterStore
  import opened RateLimits
  import opened Coalescing
  import opened LimitRuns
  import opened HardCap
  import opened UnitCalls
  import opened ConcurrentReserve

  /** A settle or release is of the reservation that this request made. */
  datatype Tx = ReserveTx(q: Request) | SettleTx(q: Request, usage: Usage, nowMs: int) | ReleaseTx(q: Request)
  {
    /** The clock the transaction reads its window with. */
    function Clock(): int { if SettleTx? then nowMs else q.nowMs }
  }

  datatype TxPhase = Idle | Reading(seen: nat) | Ended

  datatype TxWorld = TxWorld(start: Counters, counters: Counters, commits: seq<Commit>, phases: seq<TxPhase>)

  /** What the transaction writes, having read this; a rejected reserve writes nothing. */
  ghost function TxBatch(rules: seq<Rule>, tx: Tx, snap: Counters): Option<seq<CounterWrite>>
  {
    var planned := Planned(rules, tx.q, true);
    match tx
    case ReserveTx(q) => if Violations(snap, planned, q.nowMs) == [] then Some(Coalesced(Writes(planned))) else None
    case SettleTx(_, usage, nowMs) => Some(Coalesced(SettleWrites(snap, Holds(planned), rules, usage, nowMs)))
    case ReleaseTx(_) => Some(Coalesced(ReleaseWrites(Holds(planned))))
  }

  ghost function TxSnapshot(w: TxWorld, seen: nat): Counters
  {
    if seen <= |w.commits| then Serial(w.start, w.commits[..seen]) else w.counters
  }

  /** The world once transaction `i` has committed this batch. */
  function TxCommitted(w: TxWorld, i: nat, batch: seq<CounterWrite>): TxWorld
    requires i < |w.phases|
  {
    TxWorld(w.start, ApplyAll(w.counters, batch), w.commits + [Commit(i, batch)], w.phases[i := Ended])
  }

  ghost function TxAdvance(rules: seq<Rule>, txs: seq<Tx>, w: TxWorld, mv: Move): TxWorld
    requires |w.phases| == |txs|
  {
    var i := mv.call;
    if i >= |txs| then w
    else
      match (mv, w.phases[i])
      case (Begin(_), Idle) => w.(phases := w.phases[i := Reading(|w.commits|)])
      case (Finish(_), Reading(seen)) =>
        var batch := TxBatch(rules, txs[i], TxSnapshot(w, seen));
        if batch.None? then w.(phases := w.phases[i := Ended])
        else if Dirty(w.commits, seen, batch.value) then w.(phases := w.phases[i := Idle])
        else TxCommitted(w, i, batch.value)
      case (Abort(_), Reading(_)) => w.(phases := w.phases[i := Idle])
      case (Break(_), Reading(_)) => w.(phases := w.phases[i := Ended])
      case _ => w
  }

  function TxStart(txs: seq<Tx>, m: Counters): TxWorld { TxWorld(m, m, [], seq(|txs|, _ => Idle)) }

  ghost function TxHistory(rules: seq<Rule>, txs: seq<Tx>, m: Counters, moves: seq<Move>): (w: TxWorld)
    ensures |w.phases| == |txs|
  {
    if moves == [] then TxStart(txs, m)
    else TxAdvance(rules, txs, TxHistory(rules, txs, m, moves[..|moves|-1]), moves[|moves|-1])
  }

  // ---------------------------------------------------------------------------
  // Under one rule a transaction writes one document at most
  // ---------------------------------------------------------------------------

  ghost function TxWrite(r: Rule, tx: Tx, snap: Counters): Option<CounterWrite>
  {
    var p := PlanOne(r, tx.q);
    var held := r.active && p.Some?;
    match tx
    case ReserveTx(_) => if held then Some(p.value.Write()) else None
    case SettleTx(_, usage, nowMs) =>
      if Live(r, usage.modelAliasId) then SettleWrite(snap, Holds(Planned([r], tx.q, true)), r, usage, nowMs)
      else if held then Some(p.value.Hold().Write(0 - p.value.increment))
      else None
    case ReleaseTx(_) => if held then Some(p.value.Hold().Write(0 - p.value.increment)) else None
  }

  function ListOf(w: Option<CounterWrite>): seq<CounterWrite> { if w.Some? then [w.value] else [] }

  lemma ListCoalesced(w: Option<CounterWrite>)
    ensures Coalesced(ListOf(w)) == ListOf(w)
  {
    CoalesceDistinct(ListOf(w));
  }

  lemma OnePlanned(r: Rule, q: Request)
    ensures Planned([r], q, true) == (if r.active && PlanOne(r, q).Some? then [PlanOne(r, q).value] else [])
    ensures Holds(Planned([r], q, true)) ==
      (if r.active && PlanOne(r, q).Some? then [PlanOne(r, q).value.Hold()] else [])
  {
    assert [r][..0] == [];
  }

  lemma OneRelease(holds: seq<LimitHold>)
    requires |holds| <= 1
    ensures ReleaseWrites(holds) ==
      if holds != [] && holds[0].reserved > 0 then [holds[0].Write(0 - holds[0].reserved)] else []
  {
    if holds != [] { assert holds[..0] == []; }
  }

  lemma OneOrphan(holds: seq<LimitHold>, consumed: set<string>)
    requires |holds| <= 1
    ensures OrphanWrites(holds, consumed) ==
      if holds != [] && holds[0].ruleId !in consumed && holds[0].reserved > 0
      then [holds[0].Write(0 - holds[0].reserved)]
      else []
  {
    if holds != [] { assert holds[..0] == []; }
  }

  lemma OneRuleWrite(snap: Counters, holds: seq<LimitHold>, r: Rule, usage: Usage, nowMs: int)
    ensures RuleWrites(snap, holds, [r], usage, nowMs) == ListOf(SettleWrite(snap, holds, r, usage, nowMs))
  {
    assert [r][..0] == [];
  }

  lemma OneConsumed(holds: seq<LimitHold>, r: Rule, alias: Option<string>)
    ensures r.id in ConsumedIds(holds, [r], alias) <==> Live(r, alias) && HoldFor(holds, r.id).Some?
  {
    assert r in [r];
  }

  lemma OneSettle(r: Rule, q: Request, usage: Usage, nowMs: int, snap: Counters)
    ensures SettleWrites(snap, Holds(Planned([r], q, true)), [r], usage, nowMs) ==
      ListOf(TxWrite(r, SettleTx(q, usage, nowMs), snap))
  {
    var holds := Holds(Planned([r], q, true));
    OnePlanned(r, q);
    OneRuleWrite(snap, holds, r, usage, nowMs);
    OneConsumed(holds, r, usage.modelAliasId);
    OneOrphan(holds, ConsumedIds(holds, [r], usage.modelAliasId));
    if r.active && PlanOne(r, q).Some? { assert HoldFor(holds, r.id).Some?; }
  }

  lemma OneReserve(r: Rule, q: Request, snap: Counters)
    ensures Writes(Planned([r], q, true)) == ListOf(TxWrite(r, ReserveTx(q), snap))
  {
    OnePlanned(r, q);
  }

  lemma OneReleased(r: Rule, q: Request, snap: Counters)
    ensures ReleaseWrites(Holds(Planned([r], q, true))) == ListOf(TxWrite(r, ReleaseTx(q), snap))
  {
    OnePlanned(r, q);
    OneRelease(Holds(Planned([r], q, true)));
  }

  /** The batch of a transaction is its one write, or nothing. */
  lemma OneTxBatch(r: Rule, tx: Tx, snap: Counters)
    requires TxBatch([r], tx, snap).Some?
    ensures TxBatch([r], tx, snap).value == ListOf(TxWrite(r, tx, snap))
  {
    ListCoalesced(TxWrite(r, tx, snap));
    match tx
    case ReserveTx(q) => OneReserve(r, q, snap);
    case SettleTx(q, usage, nowMs) => OneSettle(r, q, usage, nowMs, snap);
    case ReleaseTx(q) => OneReleased(r, q, snap);
  }
}
