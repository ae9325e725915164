/**
 Settles beside reserves: calls reserved at an earlier clock are settled or released at a later
 one while others reserve. Exactly when every history of them keeps the cap.
 */
module MixedEdge {
  import opened Options
  import opened CounterStore
  import opened RateLimits
  import opened Coalescing
  import opened LimitRuns
  import opened HardCap
  import opened UnitCalls
  import opened ConcurrentReserve
  import opened BucketEdge
  import opened MixedHistory

  /** Reserves and settles at the later clock; what is settled or released was reserved at either. */
  predicate AtEdge(tx: Tx, t: int, u: int)
  {
    match tx
    case ReserveTx(q) => q.nowMs == u
    case SettleTx(q, _, nowMs) => (q.nowMs == t || q.nowMs == u) && nowMs == u
    case ReleaseTx(q) => q.nowMs == t || q.nowMs == u
  }

  predicate AllAtEdge(txs: seq<Tx>, t: int, u: int)
  {
    forall tx | tx in txs :: AtEdge(tx, t, u)
  }

  /** What a settle or release holds on the stream in the bucket of a clock. */
  function HeldBy(r: Rule, tx: Tx, y: Stream, t: int): nat
  {
    var p := PlanOne(r, tx.q);
    if !tx.ReserveTx? && r.active && p.Some? && p.value.Write().Doc() == DocAt(r, y, t) then p.value.increment else 0
  }

  /** The holds there of the transactions that have not committed. */
  ghost function HeldLeft(r: Rule, txs: seq<Tx>, y: Stream, t: int, commits: seq<Commit>): nat
  {
    if txs == [] then 0
    else
      var n := |txs| - 1;
      HeldLeft(r, txs[..n], y, t, commits) + (if Wrote(commits, n) then 0 else HeldBy(r, txs[n], y, t))
  }

  // ---------------------------------------------------------------------------
  // What one write is
  // ---------------------------------------------------------------------------

  /** A release takes back no more than the hold, from the held document. */
  lemma WriteReleases(r: Rule, tx: Tx, snap: Counters, w: CounterWrite, y: Stream, t: int)
    requires TxWrite(r, tx, snap) == Some(w) && w.increment < 0 && w.Doc() == DocAt(r, y, t)
    ensures 0 - w.increment <= HeldBy(r, tx, y, t)
  {
    OnePlanned(r, tx.q);
  }

  lemma ReserveFitsRoom(r: Rule, q: Request, snap: Counters, p: PlannedHold, y: Stream)
    requires PlanOne(r, q) == Some(p) && Violations(snap, [p], q.nowMs) == [] && p.StreamOf() == y
    ensures p.increment <= Room(snap, r, y, q.nowMs)
  {
    FitsOfRoom(snap, p, q);
  }

  lemma SettleFitsRoom(r: Rule, q: Request, usage: Usage, nowMs: int, snap: Counters, w: CounterWrite, y: Stream)
    requires SettleWrite(snap, Holds(Planned([r], q, true)), r, usage, nowMs) == Some(w)
    requires Hard(r) && Governs(r, y) && w.increment > 0 && w.StreamOf() == y
    ensures w.increment <= Room(snap, r, y, nowMs)
  {
    RuleClaim([r], snap, q, usage, nowMs, r, y, w);
  }

  /** A claim on the stream fits the room of the snapshot. */
  lemma WriteFits(r: Rule, tx: Tx, snap: Counters, w: CounterWrite, y: Stream)
    requires TxBatch([r], tx, snap).Some? && TxWrite(r, tx, snap) == Some(w)
    requires Hard(r) && Governs(r, y) && w.increment > 0 && w.StreamOf() == y
    ensures w.increment <= Room(snap, r, y, tx.Clock())
  {
    match tx
    case ReserveTx(q) =>
      OnePlanned(r, q);
      ReserveFitsRoom(r, q, snap, PlanOne(r, q).value, y);
    case SettleTx(q, usage, nowMs) =>
      SettleFitsRoom(r, q, usage, nowMs, snap, w, y);
    case ReleaseTx(q) =>
  }

  /** A claim outside the later bucket is an overrun of a tokens hold. */
  lemma WriteLater(r: Rule, tx: Tx, snap: Counters, w: CounterWrite, y: Stream, t: int, u: int)
    requires TxWrite(r, tx, snap) == Some(w) && AtEdge(tx, t, u) && Hard(r) && Governs(r, y)
    requires w.increment > 0 && w.StreamOf() == y
    ensures w.bucketStart == BucketStartFor(u, r.windowSeconds)
      || (w.bucketStart == BucketStartFor(t, r.windowSeconds) && r.dimension == Tokens && HeldBy(r, tx, y, t) > 0)
  {
    OnePlanned(r, tx.q);
  }

  // ---------------------------------------------------------------------------
  // Where a claim may fall
  // ---------------------------------------------------------------------------

  /** When no settle can claim in a bucket of the window that the later reserves do not write. */
  predicate MixRoom(r: Rule, t: int, u: int)
  {
    OneBucketInWindow(r, t, u) || r.dimension == Requests || r.capValue == 1
  }

  predicate ClaimsIn(w: CounterWrite, y: Stream, from: int)
  {
    w.StreamOf() == y && w.increment > 0 && w.bucketStart >= from
  }

  /** With a cap of one a held unit in the window leaves no room. */
  lemma LoneUnitFills(m: Counters, r: Rule, y: Stream, t: int, u: int)
    requires Governs(r, y) && r.capValue == 1 && Count(m, DocAt(r, y, t)) > 0
    requires BucketStartFor(t, r.windowSeconds) >= u - r.windowSeconds * 1000
    ensures Room(m, r, y, u) == 0
  {
    DocOnStream(r, y, t);
    WindowSumPut(m, DocAt(r, y, t), 0, y, u - r.windowSeconds * 1000);
  }

  lemma ClaimFits(r: Rule, tx: Tx, snap: Counters, w: CounterWrite, y: Stream, t: int, u: int)
    requires TxBatch([r], tx, snap).Some? && TxWrite(r, tx, snap) == Some(w) && AtEdge(tx, t, u)
    requires Hard(r) && Governs(r, y) && w.increment > 0 && w.StreamOf() == y
    ensures w.increment <= Room(snap, r, y, u)
  {
    WriteFits(r, tx, snap, w, y);
    OnePlanned(r, tx.q);
  }

  lemma DocOfWrite(r: Rule, y: Stream, w: CounterWrite, nowMs: int)
    requires Governs(r, y) && w.StreamOf() == y && w.bucketStart == BucketStartFor(nowMs, r.windowSeconds)
    ensures w.Doc() == DocAt(r, y, nowMs)
  {
  }

  /** A claim inside the window is in the later bucket, if its hold is still counted. */
  lemma ClaimPlace(r: Rule, tx: Tx, snap: Counters, w: CounterWrite, y: Stream, t: int, u: int, from: int)
    requires TxBatch([r], tx, snap).Some? && TxWrite(r, tx, snap) == Some(w) && AtEdge(tx, t, u)
    requires Hard(r) && Governs(r, y) && ClaimsIn(w, y, from) && from == u - r.windowSeconds * 1000
    requires MixRoom(r, t, u) && HeldBy(r, tx, y, t) <= Count(snap, DocAt(r, y, t))
    ensures w.Doc() == DocAt(r, y, u)
  {
    WriteLater(r, tx, snap, w, y, t, u);
    ClaimFits(r, tx, snap, w, y, t, u);
    if w.bucketStart != BucketStartFor(u, r.windowSeconds) {
      LoneUnitFills(snap, r, y, t, u);
    }
    DocOfWrite(r, y, w, u);
  }

  // ---------------------------------------------------------------------------
  // The holds of what has not committed stay counted
  // ---------------------------------------------------------------------------

  lemma {:induction false} HeldIn(r: Rule, txs: seq<Tx>, y: Stream, t: int, commits: seq<Commit>, i: nat)
    requires i < |txs| && !Wrote(commits, i)
    ensures HeldBy(r, txs[i], y, t) <= HeldLeft(r, txs, y, t, commits)
  {
    if i < |txs| - 1 { HeldIn(r, txs[..|txs|-1], y, t, commits, i); }
  }

  lemma WroteLast(commits: seq<Commit>, c: Commit, i: nat)
    ensures Wrote(commits + [c], i) <==> Wrote(commits, i) || c.call == i
  {
    var all := commits + [c];
    assert all[|commits|] == c;
    if Wrote(commits, i) {
      var k :| 0 <= k < |commits| && commits[k].call == i;
      assert all[k].call == i;
    }
  }

  lemma {:induction false} HeldDrops(r: Rule, txs: seq<Tx>, y: Stream, t: int, commits: seq<Commit>, c: Commit)
    requires !Wrote(commits, c.call)
    ensures HeldLeft(r, txs, y, t, commits + [c]) ==
      HeldLeft(r, txs, y, t, commits) - (if c.call < |txs| then HeldBy(r, txs[c.call], y, t) else 0)
  {
    if txs != [] {
      HeldDrops(r, txs[..|txs|-1], y, t, commits, c);
      WroteLast(commits, c, |txs| - 1);
    }
  }

  /** A commit takes no more from the held document than its own hold. */
  lemma WriteLeaves(r: Rule, tx: Tx, snap: Counters, m: Counters, y: Stream, t: int)
    ensures var k := DocAt(r, y, t);
      Count(ApplyAll(m, ListOf(TxWrite(r, tx, snap))), k) + HeldBy(r, tx, y, t) >= Count(m, k)
  {
    var w := TxWrite(r, tx, snap);
    if w.Some? {
      assert [w.value][..0] == [];
      if w.value.increment < 0 && w.value.Doc() == DocAt(r, y, t) { WriteReleases(r, tx, snap, w.value, y, t); }
    }
  }

  ghost predicate CoveredAt(r: Rule, txs: seq<Tx>, y: Stream, t: int, m: Counters, commits: seq<Commit>)
  {
    HeldLeft(r, txs, y, t, commits) <= Count(Serial(m, commits), DocAt(r, y, t))
  }

  ghost predicate Covered(r: Rule, txs: seq<Tx>, y: Stream, t: int, m: Counters, commits: seq<Commit>)
  {
    forall n | 0 <= n <= |commits| :: CoveredAt(r, txs, y, t, m, commits[..n])
  }

  lemma CoveredLast(
    r: Rule, txs: seq<Tx>, y: Stream, t: int, m: Counters, commits: seq<Commit>, c: Commit, snap: Counters)
    requires Governs(r, y) && CoveredAt(r, txs, y, t, m, commits) && c.call < |txs| && !Wrote(commits, c.call)
    requires c.batch == ListOf(TxWrite(r, txs[c.call], snap))
    ensures CoveredAt(r, txs, y, t, m, commits + [c])
  {
    SerialLast(m, commits, c);
    HeldDrops(r, txs, y, t, commits, c);
    WriteLeaves(r, txs[c.call], snap, Serial(m, commits), y, t);
  }

  lemma CoveredNext(
    r: Rule, txs: seq<Tx>, y: Stream, t: int, m: Counters, commits: seq<Commit>, c: Commit, snap: Counters)
    requires Governs(r, y) && Covered(r, txs, y, t, m, commits) && c.call < |txs| && !Wrote(commits, c.call)
    requires c.batch == ListOf(TxWrite(r, txs[c.call], snap))
    ensures Covered(r, txs, y, t, m, commits + [c])
  {
    var all := commits + [c];
    assert commits[..|commits|] == commits && all[..|all|] == all;
    CoveredLast(r, txs, y, t, m, commits, c, snap);
    forall n | 0 <= n <= |all| ensures CoveredAt(r, txs, y, t, m, all[..n]) {
      if n <= |commits| { assert all[..n] == commits[..n]; }
    }
  }

  lemma CoveredSeen(r: Rule, txs: seq<Tx>, y: Stream, t: int, m: Counters, commits: seq<Commit>, seen: nat, i: nat)
    requires Covered(r, txs, y, t, m, commits) && seen <= |commits| && i < |txs| && !Wrote(commits, i)
    ensures HeldBy(r, txs[i], y, t) <= Count(Serial(m, commits[..seen]), DocAt(r, y, t))
  {
    assert CoveredAt(r, txs, y, t, m, commits[..seen]);
    HeldIn(r, txs, y, t, commits[..seen], i);
  }

  // ---------------------------------------------------------------------------
  // Nothing was claimed since the snapshot of what commits
  // ---------------------------------------------------------------------------

  predicate NoClaims(ws: seq<CounterWrite>, y: Stream, from: int)
  {
    forall w | w in ws :: !ClaimsIn(w, y, from)
  }

  /** What the batch claims in the window it claims in this document. */
  predicate ClaimsAt(ws: seq<CounterWrite>, y: Stream, from: int, k: CounterKey)
  {
    forall w | w in ws && ClaimsIn(w, y, from) :: w.Doc() == k
  }

  predicate AllClaimsAt(commits: seq<Commit>, y: Stream, from: int, k: CounterKey)
  {
    forall j | 0 <= j < |commits| :: ClaimsAt(commits[j].batch, y, from, k)
  }

  lemma {:induction false} NoClaimsNoRise(m: Counters, ws: seq<CounterWrite>, y: Stream, from: int)
    requires NoClaims(ws, y, from)
    ensures WindowSum(ApplyAll(m, ws), y, from) <= WindowSum(m, y, from)
  {
    if ws != [] {
      var init, last := ws[..|ws|-1], ws[|ws|-1];
      assert last in ws && forall w | w in init :: w in ws;
      NoClaimsNoRise(m, init, y, from);
      WriteMoves(ApplyAll(m, init), last, y, from);
    }
  }

  lemma {:induction false} NoRiseSince(m: Counters, commits: seq<Commit>, seen: nat, y: Stream, from: int)
    requires seen <= |commits| && forall j | seen <= j < |commits| :: NoClaims(commits[j].batch, y, from)
    ensures WindowSum(Serial(m, commits), y, from) <= WindowSum(Serial(m, commits[..seen]), y, from)
  {
    if seen == |commits| {
      assert commits[..seen] == commits;
    } else {
      var init := commits[..|commits|-1];
      assert init[..seen] == commits[..seen];
      NoRiseSince(m, init, seen, y, from);
      NoClaimsNoRise(Serial(m, init), commits[|commits|-1].batch, y, from);
    }
  }

  /** A batch that writes the document sees its own commit conflict with every other claim there. */
  lemma CleanNoClaims(commits: seq<Commit>, seen: nat, w: CounterWrite, y: Stream, from: int)
    requires AllClaimsAt(commits, y, from, w.Doc()) && !Dirty(commits, seen, [w])
    ensures forall j | seen <= j < |commits| :: NoClaims(commits[j].batch, y, from)
  {
    forall j | seen <= j < |commits| ensures NoClaims(commits[j].batch, y, from) {
      assert ClaimsAt(commits[j].batch, y, from, w.Doc()) && !Shared(commits[j].batch, [w]);
      forall v | v in commits[j].batch ensures !ClaimsIn(v, y, from) {
        if ClaimsIn(v, y, from) { SharedDoc(commits[j].batch, [w], v, w); }
      }
    }
  }

  lemma RoomKept(now: Counters, snap: Counters, w: CounterWrite, r: Rule, y: Stream, u: int, from: int)
    requires from == u - r.windowSeconds * 1000 && 0 < w.increment <= Room(snap, r, y, u)
    requires WindowSum(now, y, from) <= WindowSum(snap, y, from)
    ensures CapAt(ApplyAll(now, [w]), u, r, y)
  {
    assert [w][..0] == [];
    WriteMoves(now, w, y, from);
  }

  lemma NoClaimKept(now: Counters, ws: seq<CounterWrite>, r: Rule, y: Stream, u: int, from: int)
    requires from == u - r.windowSeconds * 1000 && NoClaims(ws, y, from) && CapAt(now, u, r, y)
    ensures CapAt(ApplyAll(now, ws), u, r, y)
  {
    NoClaimsNoRise(now, ws, y, from);
  }

  /** A claim that commits clean keeps the cap, and is where claims must be. */
  lemma ClaimCommits(r: Rule, m: Counters, commits: seq<Commit>, seen: nat, tx: Tx, w: CounterWrite, y: Stream,
      t: int, u: int, from: int)
    requires Hard(r) && Governs(r, y) && MixRoom(r, t, u) && from == u - r.windowSeconds * 1000
    requires seen <= |commits| && AtEdge(tx, t, u) && TxBatch([r], tx, Serial(m, commits[..seen])).Some?
    requires TxWrite(r, tx, Serial(m, commits[..seen])) == Some(w) && ClaimsIn(w, y, from)
    requires HeldBy(r, tx, y, t) <= Count(Serial(m, commits[..seen]), DocAt(r, y, t))
    requires AllClaimsAt(commits, y, from, DocAt(r, y, u)) && !Dirty(commits, seen, [w])
    ensures w.Doc() == DocAt(r, y, u) && CapAt(ApplyAll(Serial(m, commits), [w]), u, r, y)
  {
    var snap := Serial(m, commits[..seen]);
    ClaimPlace(r, tx, snap, w, y, t, u, from);
    ClaimFits(r, tx, snap, w, y, t, u);
    CleanNoClaims(commits, seen, w, y, from);
    NoRiseSince(m, commits, seen, y, from);
    RoomKept(Serial(m, commits), snap, w, r, y, u, from);
  }

  // ---------------------------------------------------------------------------
  // Every history
  // ---------------------------------------------------------------------------

  /** What has not ended has not committed, and has read the past. */
  ghost predicate TxSound(w: TxWorld, i: nat)
    requires i < |w.phases|
  {
    && (!w.phases[i].Ended? ==> !Wrote(w.commits, i))
    && (w.phases[i].Reading? ==> w.phases[i].seen <= |w.commits|)
  }

  ghost predicate TxTracked(txs: seq<Tx>, m: Counters, w: TxWorld)
  {
    && |w.phases| == |txs| && w.start == m && w.counters == Serial(m, w.commits)
    && forall i: nat | i < |txs| :: TxSound(w, i)
  }

  /** Transaction `i` has read this snapshot and writes this batch cleanly. */
  ghost predicate TxMay(rules: seq<Rule>, txs: seq<Tx>, w: TxWorld, i: nat, seen: nat, batch: seq<CounterWrite>)
    requires |w.phases| == |txs| && i < |txs|
  {
    && w.phases[i] == Reading(seen) && TxBatch(rules, txs[i], TxSnapshot(w, seen)) == Some(batch)
    && !Dirty(w.commits, seen, batch)
  }

  /** A move either commits, or changes one phase. */
  ghost predicate TxQuiet(w: TxWorld, t: TxWorld, i: nat)
  {
    && i < |w.phases| == |t.phases| && t == w.(phases := w.phases[i := t.phases[i]])
    && (w.phases[i].Ended? ==> t.phases[i].Ended?)
    && (t.phases[i].Reading? ==> t.phases[i] == w.phases[i] || t.phases[i].seen == |w.commits|)
  }

  lemma TxMoves(rules: seq<Rule>, txs: seq<Tx>, w: TxWorld, mv: Move) returns (seen: nat, batch: seq<CounterWrite>)
    requires |w.phases| == |txs| && mv.call < |txs|
    ensures var t := TxAdvance(rules, txs, w, mv);
      || TxQuiet(w, t, mv.call)
      || (TxMay(rules, txs, w, mv.call, seen, batch) && t == TxCommitted(w, mv.call, batch))
  {
    var i := mv.call;
    seen, batch := 0, [];
    assert w.phases[i := w.phases[i]] == w.phases;
    if w.phases[i].Reading? {
      seen := w.phases[i].seen;
      var b := TxBatch(rules, txs[i], TxSnapshot(w, seen));
      if b.Some? { batch := b.value; }
    }
  }

  lemma TxQuietTracks(txs: seq<Tx>, m: Counters, w: TxWorld, t: TxWorld, i: nat)
    requires TxTracked(txs, m, w) && TxQuiet(w, t, i)
    ensures TxTracked(txs, m, t)
  {
    forall j: nat | j < |txs| ensures TxSound(t, j) {
      assert TxSound(w, j);
    }
  }

  lemma TxCommitTracks(txs: seq<Tx>, m: Counters, w: TxWorld, i: nat, batch: seq<CounterWrite>)
    requires TxTracked(txs, m, w) && i < |txs|
    ensures TxTracked(txs, m, TxCommitted(w, i, batch))
  {
    var t := TxCommitted(w, i, batch);
    SerialLast(m, w.commits, Commit(i, batch));
    forall j: nat | j < |txs| ensures TxSound(t, j) {
      assert TxSound(w, j);
      WroteLast(w.commits, Commit(i, batch), j);
    }
  }

  /** The cap holds, the holds outstanding are counted, and the window is claimed in one document. */
  ghost predicate EdgeKept(r: Rule, txs: seq<Tx>, m: Counters, y: Stream, t: int, u: int, from: int, w: TxWorld)
  {
    && TxTracked(txs, m, w) && CapAt(w.counters, u, r, y)
    && Covered(r, txs, y, t, m, w.commits) && AllClaimsAt(w.commits, y, from, DocAt(r, y, u))
  }

  lemma AllClaimsNext(commits: seq<Commit>, c: Commit, y: Stream, from: int, k: CounterKey)
    requires AllClaimsAt(commits, y, from, k) && ClaimsAt(c.batch, y, from, k)
    ensures AllClaimsAt(commits + [c], y, from, k)
  {
    var all := commits + [c];
    forall j | 0 <= j < |all| ensures ClaimsAt(all[j].batch, y, from, k) {
      assert all[j] == if j < |commits| then commits[j] else c;
    }
  }

  /** What one commit writes keeps the cap and claims where claims must be. */
  lemma TxCommitCap(r: Rule, txs: seq<Tx>, m: Counters, y: Stream, t: int, u: int, from: int, commits: seq<Commit>,
      i: nat, seen: nat, snap: Counters, batch: seq<CounterWrite>)
    requires Hard(r) && Governs(r, y) && MixRoom(r, t, u) && from == u - r.windowSeconds * 1000
    requires i < |txs| && AtEdge(txs[i], t, u) && !Wrote(commits, i) && seen <= |commits|
    requires snap == Serial(m, commits[..seen]) && TxBatch([r], txs[i], snap) == Some(batch)
    requires Covered(r, txs, y, t, m, commits) && AllClaimsAt(commits, y, from, DocAt(r, y, u))
    requires CapAt(Serial(m, commits), u, r, y) && !Dirty(commits, seen, batch)
    ensures CapAt(ApplyAll(Serial(m, commits), batch), u, r, y) && ClaimsAt(batch, y, from, DocAt(r, y, u))
  {
    OneTxBatch(r, txs[i], snap);
    var w := TxWrite(r, txs[i], snap);
    if w.Some? && ClaimsIn(w.value, y, from) {
      CoveredSeen(r, txs, y, t, m, commits, seen, i);
      ClaimCommits(r, m, commits, seen, txs[i], w.value, y, t, u, from);
    } else {
      NoClaimKept(Serial(m, commits), batch, r, y, u, from);
    }
  }

  lemma TxCommitKeeps(r: Rule, txs: seq<Tx>, m: Counters, y: Stream, t: int, u: int, from: int, w: TxWorld,
      i: nat, seen: nat, batch: seq<CounterWrite>)
    requires Hard(r) && Governs(r, y) && MixRoom(r, t, u) && from == u - r.windowSeconds * 1000
    requires EdgeKept(r, txs, m, y, t, u, from, w) && i < |txs| && AtEdge(txs[i], t, u)
    requires TxMay([r], txs, w, i, seen, batch)
    ensures EdgeKept(r, txs, m, y, t, u, from, TxCommitted(w, i, batch))
  {
    var snap := Serial(m, w.commits[..seen]);
    assert TxSound(w, i);
    TxCommitCap(r, txs, m, y, t, u, from, w.commits, i, seen, snap, batch);
    TxCommitTracks(txs, m, w, i, batch);
    OneTxBatch(r, txs[i], snap);
    CoveredNext(r, txs, y, t, m, w.commits, Commit(i, batch), snap);
    AllClaimsNext(w.commits, Commit(i, batch), y, from, DocAt(r, y, u));
  }

  lemma TxStepKeeps(r: Rule, txs: seq<Tx>, m: Counters, y: Stream, t: int, u: int, from: int, w: TxWorld, mv: Move)
    requires Hard(r) && Governs(r, y) && MixRoom(r, t, u) && from == u - r.windowSeconds * 1000
    requires EdgeKept(r, txs, m, y, t, u, from, w) && AllAtEdge(txs, t, u)
    ensures EdgeKept(r, txs, m, y, t, u, from, TxAdvance([r], txs, w, mv))
  {
    if mv.call < |txs| {
      var seen, batch := TxMoves([r], txs, w, mv);
      var v := TxAdvance([r], txs, w, mv);
      if TxQuiet(w, v, mv.call) {
        TxQuietTracks(txs, m, w, v, mv.call);
      } else {
        assert txs[mv.call] in txs;
        TxCommitKeeps(r, txs, m, y, t, u, from, w, mv.call, seen, batch);
      }
    }
  }

  lemma TxStartKept(r: Rule, txs: seq<Tx>, m: Counters, y: Stream, t: int, u: int, from: int)
    requires CapAt(m, u, r, y) && CoveredAt(r, txs, y, t, m, [])
    ensures EdgeKept(r, txs, m, y, t, u, from, TxStart(txs, m))
  {
  }

  lemma {:induction false} TxHistoryKeeps(r: Rule, txs: seq<Tx>, m: Counters, y: Stream, t: int, u: int, from: int,
      moves: seq<Move>)
    requires Hard(r) && Governs(r, y) && MixRoom(r, t, u) && from == u - r.windowSeconds * 1000
    requires AllAtEdge(txs, t, u) && CapAt(m, u, r, y) && CoveredAt(r, txs, y, t, m, [])
    ensures EdgeKept(r, txs, m, y, t, u, from, TxHistory([r], txs, m, moves))
  {
    if moves == [] {
      TxStartKept(r, txs, m, y, t, u, from);
    } else {
      var init := moves[..|moves|-1];
      TxHistoryKeeps(r, txs, m, y, t, u, from, init);
      TxStepKeeps(r, txs, m, y, t, u, from, TxHistory([r], txs, m, init), moves[|moves|-1]);
    }
  }

  // ---------------------------------------------------------------------------
  // An overrun beside a reserve
  // ---------------------------------------------------------------------------

  lemma TxPush(rules: seq<Rule>, txs: seq<Tx>, m: Counters, moves: seq<Move>, mv: Move)
    ensures TxHistory(rules, txs, m, moves + [mv]) == TxAdvance(rules, txs, TxHistory(rules, txs, m, moves), mv)
  {
    assert (moves + [mv])[..|moves|] == moves;
  }

  lemma TxFourMoves(rules: seq<Rule>, txs: seq<Tx>, m: Counters)
    ensures var w := TxAdvance(rules, txs, TxAdvance(rules, txs, TxStart(txs, m), Begin(0)), Begin(1));
      TxHistory(rules, txs, m, EDGE_MOVES) == TxAdvance(rules, txs, TxAdvance(rules, txs, w, Finish(0)), Finish(1))
  {
    TxPush(rules, txs, m, [], Begin(0));
    TxPush(rules, txs, m, [] + [Begin(0)], Begin(1));
    TxPush(rules, txs, m, [] + [Begin(0)] + [Begin(1)], Finish(0));
    TxPush(rules, txs, m, [] + [Begin(0)] + [Begin(1)] + [Finish(0)], Finish(1));
    assert [] + [Begin(0)] + [Begin(1)] + [Finish(0)] + [Finish(1)] == EDGE_MOVES;
  }

  lemma TxBothBegin(rules: seq<Rule>, txs: seq<Tx>, m: Counters)
    requires |txs| == 2
    ensures TxAdvance(rules, txs, TxAdvance(rules, txs, TxStart(txs, m), Begin(0)), Begin(1)) ==
      TxWorld(m, m, [], [Reading(0), Reading(0)])
  {
    assert TxStart(txs, m).phases == [Idle, Idle];
  }

  lemma TxFirstCommits(rules: seq<Rule>, txs: seq<Tx>, w: TxWorld, batch: seq<CounterWrite>)
    requires |txs| == 2 && w.phases == [Reading(0), Reading(0)] && w.commits == []
    requires TxBatch(rules, txs[0], w.start) == Some(batch)
    ensures TxAdvance(rules, txs, w, Finish(0)) == TxCommitted(w, 0, batch)
  {
    assert w.commits[..0] == [];
  }

  lemma TxSecondCommits(rules: seq<Rule>, txs: seq<Tx>, w: TxWorld, a: seq<CounterWrite>, b: seq<CounterWrite>)
    requires |txs| == |w.phases| == 2 && w.phases[1] == Reading(0) && w.commits == [Commit(0, a)]
    requires TxBatch(rules, txs[1], w.start) == Some(b) && !Shared(a, b)
    ensures TxAdvance(rules, txs, w, Finish(1)).counters == ApplyAll(w.counters, b)
  {
    assert w.commits[..0] == [];
    assert !Dirty(w.commits, 0, b);
  }

  /** Two transactions that write apart both commit what they decided on the start. */
  lemma ApartBothCommit(rules: seq<Rule>, txs: seq<Tx>, m: Counters, v: CounterWrite, w: CounterWrite)
    requires |txs| == 2 && TxBatch(rules, txs[0], m) == Some([v]) && TxBatch(rules, txs[1], m) == Some([w])
    requires v.Doc() != w.Doc()
    ensures TxHistory(rules, txs, m, EDGE_MOVES).counters == ApplyAll(ApplyAll(m, [v]), [w])
  {
    TxFourMoves(rules, txs, m);
    TxBothBegin(rules, txs, m);
    var start := TxWorld(m, m, [], [Reading(0), Reading(0)]);
    TxFirstCommits(rules, txs, start, [v]);
    SinglesUnshared(v, w);
    TxSecondCommits(rules, txs, TxCommitted(start, 0, [v]), [v], [w]);
  }

  lemma UnitReserveBatch(r: Rule, x: Stream, t: int, u: int, m: Counters)
    requires Hard(r) && Governs(r, x) && m == NearlyFull(r, x, t)
    ensures TxBatch([r], ReserveTx(UnitCall(x, u)), m) == Some([UnitPlan(r, x, u).Write()])
  {
    UnitRoom(r, x, t, u);
  }

  /** A settle of two tokens for a hold of one. */
  function UnitOverrun(x: Stream, t: int, u: int): Tx { SettleTx(UnitCall(x, t), Usage(2, 0, x.scopeTarget), u) }

  lemma OverrunWrite(r: Rule, x: Stream, t: int, u: int, m: Counters, from: int)
    requires Hard(r) && Governs(r, x) && r.dimension == Tokens && r.capValue > 1
    requires from == u - r.windowSeconds * 1000 && WindowSum(m, x, from) == r.capValue - 1
    ensures TxWrite(r, UnitOverrun(x, t, u), m) == Some(UnitPlan(r, x, t).Write())
  {
    UnitPlanned(r, x, t);
    OnePlanned(r, UnitCall(x, t));
    assert HoldFor(Holds(Planned([r], UnitCall(x, t), true)), r.id) == Some(UnitPlan(r, x, t).Hold());
  }

  lemma OverrunBatch(r: Rule, x: Stream, t: int, u: int, m: Counters, from: int)
    requires Hard(r) && Governs(r, x) && r.dimension == Tokens && r.capValue > 1
    requires from == u - r.windowSeconds * 1000 && WindowSum(m, x, from) == r.capValue - 1
    ensures TxBatch([r], UnitOverrun(x, t, u), m) == Some([UnitPlan(r, x, t).Write()])
  {
    OverrunWrite(r, x, t, u, m, from);
    OneTxBatch(r, UnitOverrun(x, t, u), m);
  }

  lemma OverrunHeld(r: Rule, x: Stream, t: int, u: int)
    requires Hard(r) && Governs(r, x)
    ensures HeldLeft(r, [ReserveTx(UnitCall(x, u)), UnitOverrun(x, t, u)], x, t, []) == 1
  {
    UnitPlanned(r, x, t);
    var txs := [ReserveTx(UnitCall(x, u)), UnitOverrun(x, t, u)];
    assert txs[..1] == [ReserveTx(UnitCall(x, u))] && txs[..1][..0] == [];
    assert HeldLeft(r, txs[..1], x, t, []) == 0;
  }

  lemma NearlyFullBefore(r: Rule, x: Stream, t: int, u: int, from: int)
    requires Governs(r, x) && !OneBucketInWindow(r, t, u) && from == u - r.windowSeconds * 1000
    ensures WindowSum(NearlyFull(r, x, t), x, from) == r.capValue - 1
  {
    DocOnStream(r, x, t);
    SumAfterFirst(DocAt(r, x, t), r.capValue - 1, from);
  }

  lemma OverrunBatches(r: Rule, x: Stream, t: int, u: int, txs: seq<Tx>, m: Counters, from: int)
    requires Hard(r) && Governs(r, x) && r.dimension == Tokens && r.capValue > 1
    requires from == u - r.windowSeconds * 1000 && WindowSum(m, x, from) == r.capValue - 1
    requires txs == [ReserveTx(UnitCall(x, u)), UnitOverrun(x, t, u)] && m == NearlyFull(r, x, t)
    ensures TxBatch([r], txs[0], m) == Some([UnitPlan(r, x, u).Write()])
    ensures TxBatch([r], txs[1], m) == Some([UnitPlan(r, x, t).Write()])
  {
    UnitReserveBatch(r, x, t, u, m);
    OverrunBatch(r, x, t, u, m, from);
  }

  /** The overrun claims in the earlier bucket, the reserve in the later one, and both commit. */
  lemma OverrunOvershoots(r: Rule, x: Stream, t: int, u: int, txs: seq<Tx>, m: Counters, from: int)
    requires Hard(r) && Governs(r, x) && t <= u && !MixRoom(r, t, u) && from == u - r.windowSeconds * 1000
    requires txs == [ReserveTx(UnitCall(x, u)), UnitOverrun(x, t, u)] && m == NearlyFull(r, x, t)
    ensures WindowSum(m, x, from) == r.capValue - 1
    ensures WindowSum(TxHistory([r], txs, m, EDGE_MOVES).counters, x, from) == r.capValue + 1
  {
    NearlyFullBefore(r, x, t, u, from);
    EdgeWrites(r, x, t, u, from);
    OverrunBatches(r, x, t, u, txs, m, from);
    var v, w := UnitPlan(r, x, u).Write(), UnitPlan(r, x, t).Write();
    ApartBothCommit([r], txs, m, v, w);
    TwoUnits(m, v, w, x, from);
  }

  // ---------------------------------------------------------------------------
  // Exactly when settles beside reserves are safe
  // ---------------------------------------------------------------------------

  /** From a store that meets the cap and counts what is held, this history meets the cap. */
  ghost predicate MixHolds(r: Rule, t: int, u: int, y: Stream, m: Counters, txs: seq<Tx>, moves: seq<Move>)
  {
    Governs(r, y) && CapAt(m, u, r, y) && AllAtEdge(txs, t, u) && CoveredAt(r, txs, y, t, m, []) ==>
      CapAt(TxHistory([r], txs, m, moves).counters, u, r, y)
  }

  ghost predicate MixSafe(r: Rule, t: int, u: int)
  {
    forall y, m, txs, moves :: MixHolds(r, t, u, y, m, txs, moves)
  }

  lemma MixRoomHolds(r: Rule, t: int, u: int, y: Stream, m: Counters, txs: seq<Tx>, moves: seq<Move>)
    requires Hard(r) && MixRoom(r, t, u)
    ensures MixHolds(r, t, u, y, m, txs, moves)
  {
    if Governs(r, y) && CapAt(m, u, r, y) && AllAtEdge(txs, t, u) && CoveredAt(r, txs, y, t, m, []) {
      TxHistoryKeeps(r, txs, m, y, t, u, u - r.windowSeconds * 1000, moves);
    }
  }

  lemma MixBroken(r: Rule, t: int, u: int, y: Stream, m: Counters, txs: seq<Tx>, moves: seq<Move>)
    requires !MixHolds(r, t, u, y, m, txs, moves)
    ensures !MixSafe(r, t, u)
  {
  }

  lemma OverrunCovered(r: Rule, x: Stream, t: int, u: int, txs: seq<Tx>)
    requires Hard(r) && Governs(r, x) && r.capValue > 1
    requires txs == [ReserveTx(UnitCall(x, u)), UnitOverrun(x, t, u)]
    ensures AllAtEdge(txs, t, u) && CoveredAt(r, txs, x, t, NearlyFull(r, x, t), [])
  {
    OverrunHeld(r, x, t, u);
  }

  lemma OverrunUnsafe(r: Rule, x: Stream, t: int, u: int, txs: seq<Tx>, m: Counters, from: int)
    requires Hard(r) && Governs(r, x) && t <= u && !MixRoom(r, t, u) && from == u - r.windowSeconds * 1000
    requires txs == [ReserveTx(UnitCall(x, u)), UnitOverrun(x, t, u)] && m == NearlyFull(r, x, t)
    ensures !MixSafe(r, t, u)
  {
    OverrunOvershoots(r, x, t, u, txs, m, from);
    OverrunCovered(r, x, t, u, txs);
    CapCrossed(m, TxHistory([r], txs, m, EDGE_MOVES).counters, u, r, x, from);
    MixBroken(r, t, u, x, m, txs, EDGE_MOVES);
  }

  /**
   Calls reserved at either of two clocks are settled or released while others reserve at the later
   one. Every interleaving keeps the cap of a hard rule, from every store that meets it and counts what is
   held, exactly when the later window sees one bucket of the two, or no settle can claim more
   than its hold: a request counts one, and under a cap of one the hold takes all the room.
   */
  lemma MixSafeExactlyWhen(r: Rule, t: int, u: int)
    requires r.active && Hard(r) && t <= u
    ensures MixSafe(r, t, u) <==> MixRoom(r, t, u)
  {
    if MixRoom(r, t, u) {
      forall y, m, txs, moves ensures MixHolds(r, t, u, y, m, txs, moves) {
        MixRoomHolds(r, t, u, y, m, txs, moves);
      }
    } else {
      var x := MeetingStream(r, r);
      var txs := [ReserveTx(UnitCall(x, u)), UnitOverrun(x, t, u)];
      OverrunUnsafe(r, x, t, u, txs, NearlyFull(r, x, t), u - r.windowSeconds * 1000);
    }
  }
}
