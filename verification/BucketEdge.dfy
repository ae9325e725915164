/**
 Concurrent reserves on two clocks: exactly when the hard cap survives them. Inside the window
 only reserves in one bucket write a common document, and only those are serialised.
 */
module BucketEdge {
  import opened Options
  import opened CounterStore
  import opened RateLimits
  import opened Coalescing
  import opened LimitRuns
  import opened HardCap
  import opened UnitCalls
  import opened ConcurrentReserve

  /** Every request is planned at one of two clocks. */
  predicate AtClocks(qs: seq<Request>, t: int, u: int)
  {
    forall i | 0 <= i < |qs| :: qs[i].nowMs == t || qs[i].nowMs == u
  }

  /** The later clock's window sees at most one of the two buckets, or they are one. */
  predicate OneBucketInWindow(r: Rule, t: int, u: int)
  {
    || BucketStartFor(t, r.windowSeconds) == BucketStartFor(u, r.windowSeconds)
    || BucketStartFor(t, r.windowSeconds) < u - r.windowSeconds * 1000
  }

  // ---------------------------------------------------------------------------
  // One bucket in the window suffices
  // ---------------------------------------------------------------------------

  /** A call of one rule writes its one claim, or nothing. */
  lemma OneRuleBatch(r: Rule, q: Request)
    ensures var p := PlanOne(r, q);
      && Planned([r], q, true) == (if r.active && p.Some? then [p.value] else [])
      && CallOf([r], q).Batch() == (if r.active && p.Some? then [p.value.Write()] else [])
  {
    assert [r][..0] == [];
    var p := PlanOne(r, q);
    if r.active && p.Some? {
      assert Writes([p.value]) == [p.value.Write()];
      CoalesceDistinct([p.value.Write()]);
    } else {
      assert Writes([]) == [];
    }
  }

  /** What is known of every history: the store is the commits, and snapshots lie in the past. */
  ghost predicate Tracked(calls: seq<Call>, m: Counters, w: World)
  {
    && |w.phases| == |calls| && FromCalls(calls, w.commits) && w.start == m && w.counters == Serial(m, w.commits)
    && forall i | 0 <= i < |w.phases| && w.phases[i].Running? :: w.phases[i].seen <= |w.commits|
  }

  lemma CommitTracks(calls: seq<Call>, m: Counters, w: World, i: nat)
    requires Tracked(calls, m, w) && i < |calls|
    ensures Tracked(calls, m, Committed(calls, w, i))
  {
    CommitListed(calls, w, i);
    CommitSerial(calls, w, i);
  }

  lemma CommitMove(calls: seq<Call>, w: World, mv: Move)
    requires |w.phases| == |calls| && mv.call < |calls| && mv.Finish? && MayCommit(calls, w, mv.call)
    ensures Advance(calls, w, mv) == Committed(calls, w, mv.call)
  {
  }

  lemma StillMove(calls: seq<Call>, w: World, mv: Move)
    requires |w.phases| == |calls| && mv.call < |calls| && !(mv.Finish? && MayCommit(calls, w, mv.call))
    ensures var t := Advance(calls, w, mv);
      && t == w.(phases := w.phases[mv.call := t.phases[mv.call]])
      && (t.phases[mv.call].Running? ==>
        t.phases[mv.call] == w.phases[mv.call] || t.phases[mv.call].seen == |w.commits|)
  {
    assert w.phases[mv.call := w.phases[mv.call]] == w.phases;
  }

  lemma AdvanceTracks(calls: seq<Call>, m: Counters, w: World, mv: Move)
    requires Tracked(calls, m, w)
    ensures Tracked(calls, m, Advance(calls, w, mv))
  {
    if mv.call < |calls| {
      if mv.Finish? && MayCommit(calls, w, mv.call) {
        CommitTracks(calls, m, w, mv.call);
        CommitMove(calls, w, mv);
      } else {
        StillMove(calls, w, mv);
      }
    }
  }

  /** The claim of the call on the stream, inside the window. */
  ghost predicate ClaimsFrom(r: Rule, q: Request, y: Stream, from: int)
  {
    r.active && PlanOne(r, q).Some? && PlanOne(r, q).value.StreamOf() == y && PlanOne(r, q).value.bucketStart >= from
  }

  lemma ElsewhereMisses(r: Rule, q: Request, y: Stream, from: int)
    requires !ClaimsFrom(r, q, y, from)
    ensures MissesFrom(CallOf([r], q).Batch(), y, from)
  {
    OneRuleBatch(r, q);
  }

  lemma ClaimsShare(r: Rule, q: Request, o: Request, y: Stream, t: int, u: int, from: int)
    requires OneBucketInWindow(r, t, u) && from == u - r.windowSeconds * 1000
    requires (q.nowMs == t || q.nowMs == u) && (o.nowMs == t || o.nowMs == u)
    requires ClaimsFrom(r, q, y, from) && ClaimsFrom(r, o, y, from)
    ensures Shared(CallOf([r], o).Batch(), CallOf([r], q).Batch())
  {
    OneRuleBatch(r, q);
    OneRuleBatch(r, o);
    var v, w := PlanOne(r, o).value.Write(), PlanOne(r, q).value.Write();
    SharedDoc([v], [w], v, w);
  }

  /** Since its snapshot nobody else claimed in the window of a clean call. */
  lemma CleanWindow(
    r: Rule, qs: seq<Request>, commits: seq<Commit>, seen: nat, i: nat, y: Stream, t: int, u: int, from: int)
    requires AtClocks(qs, t, u) && OneBucketInWindow(r, t, u) && from == u - r.windowSeconds * 1000
    requires FromCalls(CallsOf([r], qs), commits) && i < |qs| && ClaimsFrom(r, qs[i], y, from)
    requires !Dirty(commits, seen, CallOf([r], qs[i]).Batch())
    ensures forall j | seen <= j < |commits| :: MissesFrom(commits[j].batch, y, from)
  {
    forall j | seen <= j < |commits| ensures MissesFrom(commits[j].batch, y, from) {
      var o := qs[commits[j].call];
      assert commits[j].batch == CallOf([r], o).Batch();
      assert !Shared(commits[j].batch, CallOf([r], qs[i]).Batch());
      if ClaimsFrom(r, o, y, from) {
        ClaimsShare(r, qs[i], o, y, t, u, from);
      } else {
        ElsewhereMisses(r, o, y, from);
      }
    }
  }

  /** The claim fits the window of the later clock as it stands. */
  lemma ClaimKeepsCap(r: Rule, q: Request, m: Counters, snap: Counters, y: Stream, u: int, from: int)
    requires from == u - r.windowSeconds * 1000 && q.nowMs <= u
    requires ClaimsFrom(r, q, y, from) && CallOf([r], q).HasRoom(snap) && Window(m, y, from) == Window(snap, y, from)
    ensures CapAt(ApplyAll(m, CallOf([r], q).Batch()), u, r, y)
  {
    var p := PlanOne(r, q).value;
    OneRuleBatch(r, q);
    FitsOfRoom(snap, p, q);
    WindowShrinks(snap, y, p.windowStart, from);
    assert [p.Write()][..0] == [];
    WriteMoves(m, p.Write(), y, from);
  }

  lemma FitsOfRoom(snap: Counters, p: PlannedHold, q: Request)
    requires Violations(snap, [p], q.nowMs) == []
    ensures Fits(snap, p)
  {
    assert [p][..0] == [];
  }

  lemma EdgeClaim(
    r: Rule, qs: seq<Request>, m: Counters, commits: seq<Commit>, seen: nat, i: nat, y: Stream,
    t: int, u: int, from: int)
    requires AtClocks(qs, t, u) && t <= u && OneBucketInWindow(r, t, u) && from == u - r.windowSeconds * 1000
    requires FromCalls(CallsOf([r], qs), commits) && i < |qs| && seen <= |commits| && ClaimsFrom(r, qs[i], y, from)
    requires !Dirty(commits, seen, CallOf([r], qs[i]).Batch()) && CallOf([r], qs[i]).HasRoom(Serial(m, commits[..seen]))
    ensures CapAt(ApplyAll(Serial(m, commits), CallOf([r], qs[i]).Batch()), u, r, y)
  {
    CleanWindow(r, qs, commits, seen, i, y, t, u, from);
    SnapshotStands(m, commits, seen, y, from);
    ClaimKeepsCap(r, qs[i], Serial(m, commits), Serial(m, commits[..seen]), y, u, from);
  }

  lemma NoClaimKeepsCap(r: Rule, q: Request, m: Counters, y: Stream, u: int, from: int)
    requires !ClaimsFrom(r, q, y, from) && from == u - r.windowSeconds * 1000 && CapAt(m, u, r, y)
    ensures CapAt(ApplyAll(m, CallOf([r], q).Batch()), u, r, y)
  {
    ElsewhereMisses(r, q, y, from);
    WrittenEarlier(m, CallOf([r], q).Batch(), y, from);
  }

  lemma EdgeCommit(
    r: Rule, qs: seq<Request>, m: Counters, w: World, i: nat, y: Stream, t: int, u: int, from: int)
    requires AtClocks(qs, t, u) && t <= u && OneBucketInWindow(r, t, u) && from == u - r.windowSeconds * 1000
    requires Tracked(CallsOf([r], qs), m, w) && i < |qs| && MayCommit(CallsOf([r], qs), w, i)
    requires CapAt(w.counters, u, r, y)
    ensures CapAt(ApplyAll(w.counters, CallOf([r], qs[i]).Batch()), u, r, y)
  {
    if ClaimsFrom(r, qs[i], y, from) {
      EdgeClaim(r, qs, m, w.commits, w.phases[i].seen, i, y, t, u, from);
    } else {
      NoClaimKeepsCap(r, qs[i], w.counters, y, u, from);
    }
  }

  lemma EdgeStep(r: Rule, qs: seq<Request>, m: Counters, w: World, mv: Move, y: Stream, t: int, u: int)
    requires AtClocks(qs, t, u) && t <= u && OneBucketInWindow(r, t, u)
    requires Tracked(CallsOf([r], qs), m, w) && CapAt(w.counters, u, r, y)
    ensures CapAt(Advance(CallsOf([r], qs), w, mv).counters, u, r, y)
  {
    var calls, i := CallsOf([r], qs), mv.call;
    if i < |calls| {
      if mv.Finish? && MayCommit(calls, w, i) {
        EdgeCommit(r, qs, m, w, i, y, t, u, u - r.windowSeconds * 1000);
        CommitMove(calls, w, mv);
      } else {
        StillMove(calls, w, mv);
      }
    }
  }

  lemma {:induction false} EdgeHistory(
    r: Rule, qs: seq<Request>, m: Counters, moves: seq<Move>, y: Stream, t: int, u: int)
    requires AtClocks(qs, t, u) && t <= u && OneBucketInWindow(r, t, u) && CapAt(m, u, r, y)
    ensures Tracked(CallsOf([r], qs), m, History(CallsOf([r], qs), m, moves))
    ensures CapAt(History(CallsOf([r], qs), m, moves).counters, u, r, y)
  {
    if moves != [] {
      var calls, init, mv := CallsOf([r], qs), moves[..|moves|-1], moves[|moves|-1];
      EdgeHistory(r, qs, m, init, y, t, u);
      AdvanceTracks(calls, m, History(calls, m, init), mv);
      EdgeStep(r, qs, m, History(calls, m, init), mv, y, t, u);
    }
  }

  // ---------------------------------------------------------------------------
  // Two buckets in the window do not
  // ---------------------------------------------------------------------------

  /** Both begin before either finishes. */
  const EDGE_MOVES := [Begin(0), Begin(1), Finish(0), Finish(1)]

  lemma HistoryPush(calls: seq<Call>, m: Counters, moves: seq<Move>, mv: Move)
    ensures History(calls, m, moves + [mv]) == Advance(calls, History(calls, m, moves), mv)
  {
    assert (moves + [mv])[..|moves|] == moves;
  }

  lemma FourMoves(calls: seq<Call>, m: Counters)
    ensures var w := Advance(calls, Advance(calls, Start(calls, m), Begin(0)), Begin(1));
      History(calls, m, EDGE_MOVES) == Advance(calls, Advance(calls, w, Finish(0)), Finish(1))
  {
    HistoryPush(calls, m, [], Begin(0));
    HistoryPush(calls, m, [] + [Begin(0)], Begin(1));
    HistoryPush(calls, m, [] + [Begin(0)] + [Begin(1)], Finish(0));
    HistoryPush(calls, m, [] + [Begin(0)] + [Begin(1)] + [Finish(0)], Finish(1));
    assert [] + [Begin(0)] + [Begin(1)] + [Finish(0)] + [Finish(1)] == EDGE_MOVES;
  }

  lemma BothBegin(c: Call, d: Call, m: Counters)
    ensures Advance([c, d], Advance([c, d], Start([c, d], m), Begin(0)), Begin(1)) ==
      World(m, m, [], [Running(0, 0), Running(0, 0)])
  {
    assert Start([c, d], m).phases == [Waiting(0), Waiting(0)];
  }

  lemma FirstMay(calls: seq<Call>, w: World)
    requires |calls| == |w.phases| == 2 && w.commits == [] && w.phases[0] == Running(0, 0) && calls[0].HasRoom(w.start)
    ensures MayCommit(calls, w, 0)
  {
    assert w.commits[..0] == [];
  }

  lemma FirstCommits(calls: seq<Call>, w: World)
    requires |calls| == |w.phases| == 2 && w.commits == [] && w.phases[0] == Running(0, 0) && calls[0].HasRoom(w.start)
    ensures Advance(calls, w, Finish(0)) == Committed(calls, w, 0)
    ensures Committed(calls, w, 0).commits == [Commit(0, calls[0].Batch())]
  {
    FirstMay(calls, w);
    CommitMove(calls, w, Finish(0));
  }

  /** The second finish, after the first has committed what it does not write. */
  lemma SecondCommits(c: Call, d: Call, w: World)
    requires d.HasRoom(w.start) && !Shared(c.Batch(), d.Batch())
    requires w.commits == [Commit(0, c.Batch())] && |w.phases| == 2 && w.phases[1] == Running(0, 0)
    ensures Advance([c, d], w, Finish(1)).counters == ApplyAll(w.counters, d.Batch())
  {
    assert w.commits[..0] == [];
    assert !Dirty(w.commits, 0, d.Batch());
  }

  /** Two calls that both find room in the start state and write no common document both commit. */
  lemma DisjointBothCommit(c: Call, d: Call, m: Counters)
    requires c.HasRoom(m) && d.HasRoom(m) && !Shared(c.Batch(), d.Batch())
    ensures History([c, d], m, EDGE_MOVES).counters == ApplyAll(ApplyAll(m, c.Batch()), d.Batch())
  {
    FourMoves([c, d], m);
    BothBegin(c, d, m);
    var w := World(m, m, [], [Running(0, 0), Running(0, 0)]);
    FirstCommits([c, d], w);
    SecondCommits(c, d, Committed([c, d], w, 0));
  }

  lemma SinglesUnshared(v: CounterWrite, w: CounterWrite)
    requires v.Doc() != w.Doc()
    ensures !Shared([v], [w])
  {
    assert DocsOf([v]) == {v.Doc()} && DocsOf([w]) == {w.Doc()};
  }

  /** A store with room for one more unit of the stream, in the later bucket. */
  function NearlyFull(r: Rule, x: Stream, u: int): Counters { map[DocAt(r, x, u) := r.capValue - 1] }

  lemma UnitRoom(r: Rule, x: Stream, u: int, nowMs: int)
    requires Hard(r) && Governs(r, x)
    ensures CallOf([r], UnitCall(x, nowMs)).HasRoom(NearlyFull(r, x, u))
    ensures CallOf([r], UnitCall(x, nowMs)).Batch() == [UnitPlan(r, x, nowMs).Write()]
    ensures UnitPlan(r, x, nowMs).Write().Doc() == DocAt(r, x, nowMs)
  {
    UnitPlanned(r, x, nowMs);
    OneRuleBatch(r, UnitCall(x, nowMs));
    DocOnStream(r, x, u);
    SumAfterFirst(DocAt(r, x, u), r.capValue - 1, nowMs - r.windowSeconds * 1000);
    UnitFits(NearlyFull(r, x, u), UnitPlan(r, x, nowMs), nowMs);
  }

  lemma TwoUnits(m: Counters, v: CounterWrite, w: CounterWrite, x: Stream, from: int)
    requires v.increment == w.increment == 1 && v.StreamOf() == w.StreamOf() == x
    requires from <= v.bucketStart && from <= w.bucketStart
    ensures WindowSum(ApplyAll(ApplyAll(m, [v]), [w]), x, from) == WindowSum(m, x, from) + 2
  {
    assert [v][..0] == [] && [w][..0] == [];
    WriteMoves(m, v, x, from);
    WriteMoves(ApplyWrite(m, v), w, x, from);
  }

  lemma BothCommit(c: Call, d: Call, m: Counters, v: CounterWrite, w: CounterWrite, x: Stream, from: int)
    requires c.HasRoom(m) && d.HasRoom(m) && c.Batch() == [v] && d.Batch() == [w] && v.Doc() != w.Doc()
    requires v.increment == w.increment == 1 && v.StreamOf() == w.StreamOf() == x
    requires from <= v.bucketStart && from <= w.bucketStart
    ensures WindowSum(History([c, d], m, EDGE_MOVES).counters, x, from) == WindowSum(m, x, from) + 2
  {
    SinglesUnshared(v, w);
    DisjointBothCommit(c, d, m);
    TwoUnits(m, v, w, x, from);
  }

  lemma NearlyFullSum(r: Rule, x: Stream, u: int, from: int)
    requires Governs(r, x) && from == u - r.windowSeconds * 1000
    ensures WindowSum(NearlyFull(r, x, u), x, from) == r.capValue - 1
  {
    DocOnStream(r, x, u);
    SumAfterFirst(DocAt(r, x, u), r.capValue - 1, from);
  }

  lemma EdgeWrites(r: Rule, x: Stream, t: int, u: int, from: int)
    requires Governs(r, x) && t <= u && !OneBucketInWindow(r, t, u) && from == u - r.windowSeconds * 1000
    ensures var v, w := UnitPlan(r, x, t).Write(), UnitPlan(r, x, u).Write();
      && v.StreamOf() == w.StreamOf() == x && v.Doc() != w.Doc() && v.increment == w.increment == 1
      && from <= v.bucketStart && from <= w.bucketStart
  {
  }

  lemma TwoCalls(rules: seq<Rule>, a: Request, b: Request)
    ensures CallsOf(rules, [a, b]) == [CallOf(rules, a), CallOf(rules, b)]
  {
  }

  lemma EdgePair(r: Rule, x: Stream, t: int, u: int, c: Call, d: Call, m: Counters, from: int)
    requires Hard(r) && Governs(r, x) && t <= u && !OneBucketInWindow(r, t, u) && from == u - r.windowSeconds * 1000
    requires c == CallOf([r], UnitCall(x, t)) && d == CallOf([r], UnitCall(x, u)) && m == NearlyFull(r, x, u)
    ensures WindowSum(History([c, d], m, EDGE_MOVES).counters, x, from) == WindowSum(m, x, from) + 2
  {
    UnitRoom(r, x, u, t);
    UnitRoom(r, x, u, u);
    EdgeWrites(r, x, t, u, from);
    BothCommit(c, d, m, UnitPlan(r, x, t).Write(), UnitPlan(r, x, u).Write(), x, from);
  }

  /**
   On either side of a bucket edge two reserves write different documents: whatever the hard
   rule and its cap, with room for one unit both commit and the window holds one too many.
   */
  lemma EdgeReservesOvershoot(r: Rule, x: Stream, t: int, u: int, calls: seq<Call>, m: Counters, from: int)
    requires Hard(r) && Governs(r, x) && t <= u && !OneBucketInWindow(r, t, u) && from == u - r.windowSeconds * 1000
    requires calls == CallsOf([r], [UnitCall(x, t), UnitCall(x, u)]) && m == NearlyFull(r, x, u)
    ensures WindowSum(m, x, from) == r.capValue - 1
    ensures WindowSum(History(calls, m, EDGE_MOVES).counters, x, from) == r.capValue + 1
  {
    NearlyFullSum(r, x, u, from);
    TwoCalls([r], UnitCall(x, t), UnitCall(x, u));
    EdgePair(r, x, t, u, calls[0], calls[1], m, from);
  }

  // ---------------------------------------------------------------------------
  // Exactly one bucket in the window
  // ---------------------------------------------------------------------------

  ghost predicate EdgeHolds(r: Rule, t: int, u: int, y: Stream, m: Counters, qs: seq<Request>, moves: seq<Move>)
  {
    Governs(r, y) && CapAt(m, u, r, y) && AtClocks(qs, t, u) ==>
      CapAt(History(CallsOf([r], qs), m, moves).counters, u, r, y)
  }

  /** Any concurrent reserves at the two clocks, from any store that meets the cap, keep it. */
  ghost predicate EdgeSafe(r: Rule, t: int, u: int)
  {
    forall y, m, qs, moves :: EdgeHolds(r, t, u, y, m, qs, moves)
  }

  lemma CapCrossed(m: Counters, after: Counters, u: int, r: Rule, y: Stream, from: int)
    requires from == u - r.windowSeconds * 1000
    requires WindowSum(m, y, from) <= r.capValue < WindowSum(after, y, from)
    ensures CapAt(m, u, r, y) && !CapAt(after, u, r, y)
  {
  }

  lemma EdgeBroken(r: Rule, t: int, u: int, y: Stream, m: Counters, qs: seq<Request>, moves: seq<Move>)
    requires !EdgeHolds(r, t, u, y, m, qs, moves)
    ensures !EdgeSafe(r, t, u)
  {
  }

  lemma TwoBucketsUnsafe(r: Rule, t: int, u: int, x: Stream, qs: seq<Request>, from: int)
    requires Hard(r) && Governs(r, x) && t <= u && !OneBucketInWindow(r, t, u) && from == u - r.windowSeconds * 1000
    requires qs == [UnitCall(x, t), UnitCall(x, u)]
    ensures !EdgeSafe(r, t, u)
  {
    var m := NearlyFull(r, x, u);
    EdgeReservesOvershoot(r, x, t, u, CallsOf([r], qs), m, from);
    CapCrossed(m, History(CallsOf([r], qs), m, EDGE_MOVES).counters, u, r, x, from);
    EdgeBroken(r, t, u, x, m, qs, EDGE_MOVES);
  }

  lemma OneBucketHolds(r: Rule, t: int, u: int, y: Stream, m: Counters, qs: seq<Request>, moves: seq<Move>)
    requires t <= u && OneBucketInWindow(r, t, u)
    ensures EdgeHolds(r, t, u, y, m, qs, moves)
  {
    if Governs(r, y) && CapAt(m, u, r, y) && AtClocks(qs, t, u) {
      EdgeHistory(r, qs, m, moves, y, t, u);
    }
  }

  /**
   The edge law of one hard rule: concurrent reserves planned at two clocks keep the cap of the
   later window, in every interleaving and from every store that meets it, exactly when that
   window sees one bucket of the two.
   */
  lemma EdgeSafeExactlyWhen(r: Rule, t: int, u: int)
    requires r.active && Hard(r) && t <= u
    ensures EdgeSafe(r, t, u) <==> OneBucketInWindow(r, t, u)
  {
    if OneBucketInWindow(r, t, u) {
      forall y, m, qs, moves ensures EdgeHolds(r, t, u, y, m, qs, moves) {
        OneBucketHolds(r, t, u, y, m, qs, moves);
      }
    } else {
      var x := MeetingStream(r, r);
      TwoBucketsUnsafe(r, t, u, x, [UnitCall(x, t), UnitCall(x, u)], u - r.windowSeconds * 1000);
    }
  }
}
