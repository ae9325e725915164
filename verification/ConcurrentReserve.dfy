/**
 Concurrent reserves as transactions: each reads a snapshot, and commits only if no document
 it writes was written by another commit since (first committer wins), retrying up to the
 bound. Plans are made once, before the first attempt.
 */
module ConcurrentReserve {
  import opened Options
  import opened CounterStore
  import opened RateLimits
  import opened Coalescing
  import opened LimitRuns
  import opened LimitLedger
  import opened HardCap

  /** One call: its planned holds and the clock it planned them with. */
  datatype Call = Call(planned: seq<PlannedHold>, nowMs: int)
  {
    function Batch(): seq<CounterWrite> { Coalesced(Writes(planned)) }

    ghost predicate HasRoom(m: Counters) { Violations(m, planned, nowMs) == [] }
  }

  datatype Commit = Commit(call: nat, batch: seq<CounterWrite>)

  /**
   Where a call stands. `Running` has read the state that the first `seen` commits made.
   `Admitted` and `Turned` say at which point of the commit order the call took effect.
   */
  datatype Phase =
    | Waiting(conflicts: nat)
    | Running(conflicts: nat, seen: nat)
    | Admitted(at: nat)
    | Turned(at: nat)
    | GaveUp

  /** `commits` lists what was written, in commit order. */
  datatype World = World(start: Counters, counters: Counters, commits: seq<Commit>, phases: seq<Phase>)

  /**
   `Abort` is a conflict the server reports before the commit, with a write in flight or for a
   transient reason; `Break` is an error that is not retried.
   */
  datatype Move = Begin(call: nat) | Finish(call: nat) | Abort(call: nat) | Break(call: nat)

  function DocsOf(ws: seq<CounterWrite>): set<CounterKey> { set w | w in ws :: w.Doc() }

  /** The effect of commits, one after the other. */
  function Serial(m: Counters, commits: seq<Commit>): Counters
  {
    if commits == [] then m else ApplyAll(Serial(m, commits[..|commits|-1]), commits[|commits|-1].batch)
  }

  predicate Shared(a: seq<CounterWrite>, b: seq<CounterWrite>) { DocsOf(a) * DocsOf(b) != {} }

  /** Some document of the batch was written by a commit since the snapshot. */
  predicate Dirty(commits: seq<Commit>, seen: nat, batch: seq<CounterWrite>)
  {
    exists j :: seen <= j < |commits| && Shared(commits[j].batch, batch)
  }

  ghost function SnapshotOf(w: World, seen: nat): Counters
  {
    if seen <= |w.commits| then Serial(w.start, w.commits[..seen]) else w.counters
  }

  /** One more conflict: another attempt, or after the eighth the end of them. */
  function AfterConflict(conflicts: nat): (p: Phase)
    ensures p == GaveUp <==> conflicts >= 7
  {
    if conflicts + 1 >= RESERVE_MAX_ATTEMPTS then GaveUp else Waiting(conflicts + 1)
  }

  ghost function Advance(calls: seq<Call>, w: World, mv: Move): World
    requires |w.phases| == |calls|
  {
    var i := mv.call;
    if i >= |calls| then w
    else
      var c := calls[i];
      match (mv, w.phases[i])
      case (Begin(_), Waiting(n)) =>
        w.(phases := w.phases[i := Running(n, |w.commits|)])
      case (Finish(_), Running(n, seen)) =>
        if !c.HasRoom(SnapshotOf(w, seen)) then
          w.(phases := w.phases[i := Turned(seen)])
        else if Dirty(w.commits, seen, c.Batch()) then
          w.(phases := w.phases[i := AfterConflict(n)])
        else
          World(w.start, ApplyAll(w.counters, c.Batch()), w.commits + [Commit(i, c.Batch())],
                w.phases[i := Admitted(|w.commits|)])
      case (Abort(_), Running(n, _)) =>
        w.(phases := w.phases[i := AfterConflict(n)])
      case (Break(_), Running(_, _)) =>
        w.(phases := w.phases[i := GaveUp])
      case _ => w
  }

  function Start(calls: seq<Call>, m: Counters): World
  {
    World(m, m, [], seq(|calls|, _ => Waiting(0)))
  }

  ghost function History(calls: seq<Call>, m: Counters, moves: seq<Move>): (w: World)
    ensures |w.phases| == |calls|
  {
    if moves == [] then Start(calls, m)
    else Advance(calls, History(calls, m, moves[..|moves|-1]), moves[|moves|-1])
  }

  // ---------------------------------------------------------------------------
  // What every history keeps
  // ---------------------------------------------------------------------------

  predicate SameBucket(v: CounterWrite, w: CounterWrite)
  {
    v.StreamOf() == w.StreamOf() ==> v.Doc() == w.Doc()
  }

  /** Calls that claim on one stream claim in the same bucket of it. */
  ghost predicate ShareBuckets(calls: seq<Call>)
  {
    forall c, d, v, w | c in calls && d in calls && v in c.Batch() && w in d.Batch() :: SameBucket(v, w)
  }

  /** Each plan's stream is among those the call writes. */
  ghost predicate WritesWhatItReads(c: Call)
  {
    forall p | p in c.planned :: Touches(c.Batch(), p.StreamOf())
  }

  ghost predicate Touches(ws: seq<CounterWrite>, x: Stream)
  {
    exists w :: w in ws && w.StreamOf() == x
  }

  ghost predicate Wrote(commits: seq<Commit>, i: nat)
  {
    exists k :: 0 <= k < |commits| && commits[k].call == i
  }

  ghost predicate PhaseSound(calls: seq<Call>, w: World, i: nat)
    requires |w.phases| == |calls| && i < |calls|
  {
    match w.phases[i]
    case Waiting(n) => n < RESERVE_MAX_ATTEMPTS && !Wrote(w.commits, i)
    case Running(n, seen) => n < RESERVE_MAX_ATTEMPTS && !Wrote(w.commits, i) && seen <= |w.commits|
    case Admitted(at) =>
      && at < |w.commits| && w.commits[at] == Commit(i, calls[i].Batch())
      && calls[i].HasRoom(Serial(w.start, w.commits[..at]))
    case Turned(at) =>
      && at <= |w.commits| && !Wrote(w.commits, i)
      && !calls[i].HasRoom(Serial(w.start, w.commits[..at]))
    case GaveUp => !Wrote(w.commits, i)
  }

  ghost predicate FromCalls(calls: seq<Call>, commits: seq<Commit>)
  {
    forall k | 0 <= k < |commits| :: commits[k].call < |calls| && commits[k].batch == calls[commits[k].call].Batch()
  }

  /** Each commit is the one its call was admitted at. */
  ghost predicate CommitsAdmitted(w: World)
  {
    forall k | 0 <= k < |w.commits| :: w.commits[k].call < |w.phases| && w.phases[w.commits[k].call] == Admitted(k)
  }

  /**
   The store is what the committed calls make one after the other; an admitted call found
   room at its own place in that order, a rejected one found none at its place, and a call
   that gave up wrote nothing.
   */
  ghost predicate Serializable(calls: seq<Call>, w: World)
  {
    && |w.phases| == |calls| && FromCalls(calls, w.commits) && CommitsAdmitted(w)
    && w.counters == Serial(w.start, w.commits)
    && (forall i: nat | i < |calls| :: PhaseSound(calls, w, i))
  }

  // ---------------------------------------------------------------------------
  // Commits that miss a window leave its sum alone
  // ---------------------------------------------------------------------------

  /** The batch writes nothing of the stream from this time on. */
  predicate MissesFrom(ws: seq<CounterWrite>, x: Stream, from: int)
  {
    forall w | w in ws && w.StreamOf() == x :: w.bucketStart < from
  }

  lemma {:induction false} WrittenEarlier(m: Counters, ws: seq<CounterWrite>, x: Stream, from: int)
    requires MissesFrom(ws, x, from)
    ensures Window(ApplyAll(m, ws), x, from) == Window(m, x, from)
  {
    if ws != [] {
      var init, last := ws[..|ws|-1], ws[|ws|-1];
      assert last in ws && forall w | w in init :: w in ws;
      WrittenEarlier(m, init, x, from);
    }
  }

  lemma {:induction false} SnapshotStands(m: Counters, commits: seq<Commit>, seen: nat, x: Stream, from: int)
    requires seen <= |commits| && forall j | seen <= j < |commits| :: MissesFrom(commits[j].batch, x, from)
    ensures Window(Serial(m, commits), x, from) == Window(Serial(m, commits[..seen]), x, from)
  {
    if seen == |commits| {
      assert commits[..seen] == commits;
    } else {
      var init := commits[..|commits|-1];
      assert init[..seen] == commits[..seen];
      SnapshotStands(m, init, seen, x, from);
      WrittenEarlier(Serial(m, init), commits[|commits|-1].batch, x, from);
    }
  }

  lemma SharedDoc(a: seq<CounterWrite>, b: seq<CounterWrite>, v: CounterWrite, w: CounterWrite)
    requires v in a && w in b && v.Doc() == w.Doc()
    ensures Shared(a, b)
  {
    assert v.Doc() in DocsOf(a) && w.Doc() in DocsOf(b);
    assert v.Doc() in DocsOf(a) * DocsOf(b);
  }

  lemma UnsharedMisses(calls: seq<Call>, c: Call, d: Call, x: Stream, from: int)
    requires ShareBuckets(calls) && c in calls && d in calls && Touches(c.Batch(), x) && !Shared(d.Batch(), c.Batch())
    ensures MissesFrom(d.Batch(), x, from)
  {
    var mine :| mine in c.Batch() && mine.StreamOf() == x;
    forall w | w in d.Batch() ensures w.StreamOf() != x {
      assert SameBucket(w, mine);
      if w.Doc() == mine.Doc() { SharedDoc(d.Batch(), c.Batch(), w, mine); }
    }
  }

  /** A clean call that shares its buckets read streams nobody has written since. */
  lemma CleanStreams(calls: seq<Call>, commits: seq<Commit>, seen: nat, c: Call, x: Stream, from: int)
    requires FromCalls(calls, commits) && ShareBuckets(calls) && c in calls
    requires Touches(c.Batch(), x) && !Dirty(commits, seen, c.Batch())
    ensures forall j | seen <= j < |commits| :: MissesFrom(commits[j].batch, x, from)
  {
    forall j | seen <= j < |commits| ensures MissesFrom(commits[j].batch, x, from) {
      var d := calls[commits[j].call];
      assert commits[j].batch == d.Batch() && !Shared(commits[j].batch, c.Batch());
      UnsharedMisses(calls, c, d, x, from);
    }
  }

  predicate SameWindow(a: Counters, b: Counters, p: PlannedHold)
  {
    Window(a, p.StreamOf(), p.windowStart) == Window(b, p.StreamOf(), p.windowStart)
  }

  lemma {:induction false} SameWindowsSameVerdict(a: Counters, b: Counters, planned: seq<PlannedHold>, nowMs: int)
    requires forall p | p in planned :: SameWindow(a, b, p)
    ensures Violations(a, planned, nowMs) == Violations(b, planned, nowMs)
  {
    if planned != [] {
      var init, last := planned[..|planned|-1], planned[|planned|-1];
      assert last in planned && forall p | p in init :: p in planned;
      SameWindowsSameVerdict(a, b, init, nowMs);
      assert SameWindow(a, b, last);
    }
  }

  /** What a clean call decided on its snapshot is what it would decide now. */
  lemma CleanVerdictStands(calls: seq<Call>, m: Counters, commits: seq<Commit>, seen: nat, c: Call)
    requires FromCalls(calls, commits) && seen <= |commits| && c in calls
    requires ShareBuckets(calls) && WritesWhatItReads(c) && !Dirty(commits, seen, c.Batch())
    ensures c.HasRoom(Serial(m, commits[..seen])) == c.HasRoom(Serial(m, commits))
  {
    forall p | p in c.planned ensures SameWindow(Serial(m, commits[..seen]), Serial(m, commits), p) {
      CleanStreams(calls, commits, seen, c, p.StreamOf(), p.windowStart);
      SnapshotStands(m, commits, seen, p.StreamOf(), p.windowStart);
    }
    SameWindowsSameVerdict(Serial(m, commits[..seen]), Serial(m, commits), c.planned, c.nowMs);
  }

  // ---------------------------------------------------------------------------
  // Every move keeps serializability
  // ---------------------------------------------------------------------------

  /** One more commit, of another call, does not disturb a sound phase. */
  lemma PhaseFrame(calls: seq<Call>, w: World, t: World, i: nat, more: Commit)
    requires |w.phases| == |t.phases| == |calls| && i < |calls| && PhaseSound(calls, w, i)
    requires t.start == w.start && t.phases[i] == w.phases[i] && t.commits == w.commits + [more] && more.call != i
    ensures PhaseSound(calls, t, i)
  {
    assert forall n: nat | n <= |w.commits| :: t.commits[..n] == w.commits[..n];
  }

  /** The world after call `i` commits. */
  function Committed(calls: seq<Call>, w: World, i: nat): World
    requires |w.phases| == |calls| && i < |calls|
  {
    World(w.start, ApplyAll(w.counters, calls[i].Batch()), w.commits + [Commit(i, calls[i].Batch())],
          w.phases[i := Admitted(|w.commits|)])
  }

  lemma CommitSound(calls: seq<Call>, w: World, i: nat)
    requires |w.phases| == |calls| && i < |calls| && calls[i].HasRoom(Serial(w.start, w.commits))
    ensures PhaseSound(calls, Committed(calls, w, i), i)
  {
    var t := Committed(calls, w, i);
    assert t.commits[..|w.commits|] == w.commits;
  }

  lemma CommitListed(calls: seq<Call>, w: World, i: nat)
    requires |w.phases| == |calls| && i < |calls| && FromCalls(calls, w.commits)
    ensures FromCalls(calls, Committed(calls, w, i).commits)
  {
    var t := Committed(calls, w, i);
    forall k | 0 <= k < |t.commits|
      ensures t.commits[k].call < |calls| && t.commits[k].batch == calls[t.commits[k].call].Batch()
    {
      assert t.commits[k] == if k < |w.commits| then w.commits[k] else Commit(i, calls[i].Batch());
    }
  }

  lemma CommitAdmits(calls: seq<Call>, w: World, i: nat)
    requires |w.phases| == |calls| && i < |calls| && CommitsAdmitted(w) && !Wrote(w.commits, i)
    ensures CommitsAdmitted(Committed(calls, w, i))
  {
    var t := Committed(calls, w, i);
    forall k | 0 <= k < |t.commits|
      ensures t.commits[k].call < |t.phases| && t.phases[t.commits[k].call] == Admitted(k)
    {
      assert t.commits[k] == if k < |w.commits| then w.commits[k] else Commit(i, calls[i].Batch());
      assert k < |w.commits| ==> w.commits[k].call != i;
    }
  }

  lemma CommitSerial(calls: seq<Call>, w: World, i: nat)
    requires |w.phases| == |calls| && i < |calls| && w.counters == Serial(w.start, w.commits)
    ensures var t := Committed(calls, w, i); t.counters == Serial(t.start, t.commits)
  {
    SerialLast(w.start, w.commits, Commit(i, calls[i].Batch()));
  }

  lemma CommitKeeps(calls: seq<Call>, w: World, i: nat)
    requires Serializable(calls, w) && i < |calls| && !Wrote(w.commits, i)
      && calls[i].HasRoom(Serial(w.start, w.commits))
    ensures Serializable(calls, Committed(calls, w, i))
  {
    CommitListed(calls, w, i);
    CommitAdmits(calls, w, i);
    CommitSerial(calls, w, i);
    CommitSound(calls, w, i);
    forall j: nat | j < |calls| ensures PhaseSound(calls, Committed(calls, w, i), j) {
      if j != i { PhaseFrame(calls, w, Committed(calls, w, i), j, Commit(i, calls[i].Batch())); }
    }
  }

  lemma QuietKeeps(calls: seq<Call>, w: World, t: World, i: nat)
    requires Serializable(calls, w) && i < |calls| && |t.phases| == |calls|
    requires t == w.(phases := w.phases[i := t.phases[i]]) && PhaseSound(calls, t, i)
    ensures Serializable(calls, t)
  {
    forall j: nat | j < |calls| ensures PhaseSound(calls, t, j) {
      assert PhaseSound(calls, w, j);
    }
  }

  /** The call finds room in its snapshot and nothing it writes was written since. */
  ghost predicate MayCommit(calls: seq<Call>, w: World, i: nat)
    requires |w.phases| == |calls| && i < |calls|
  {
    && w.phases[i].Running? && calls[i].HasRoom(SnapshotOf(w, w.phases[i].seen))
    && !Dirty(w.commits, w.phases[i].seen, calls[i].Batch())
  }

  lemma MayCommitKeeps(calls: seq<Call>, w: World, i: nat)
    requires ShareBuckets(calls) && Serializable(calls, w) && i < |calls| && WritesWhatItReads(calls[i])
      && MayCommit(calls, w, i)
    ensures Serializable(calls, Committed(calls, w, i))
  {
    assert calls[i] in calls && PhaseSound(calls, w, i);
    CleanVerdictStands(calls, w.start, w.commits, w.phases[i].seen, calls[i]);
    CommitKeeps(calls, w, i);
  }

  /** A move that does not commit changes one phase, soundly. */
  lemma QuietMove(calls: seq<Call>, w: World, mv: Move)
    requires |w.phases| == |calls| && mv.call < |calls| && PhaseSound(calls, w, mv.call)
    requires !(mv.Finish? && MayCommit(calls, w, mv.call))
    ensures var t := Advance(calls, w, mv);
      t == w.(phases := w.phases[mv.call := t.phases[mv.call]]) && PhaseSound(calls, t, mv.call)
  {
    assert w.phases[mv.call := w.phases[mv.call]] == w.phases;
  }

  lemma AdvanceKeeps(calls: seq<Call>, w: World, mv: Move)
    requires ShareBuckets(calls) && forall c | c in calls :: WritesWhatItReads(c)
    requires Serializable(calls, w)
    ensures Serializable(calls, Advance(calls, w, mv))
  {
    var i := mv.call;
    if i < |calls| {
      assert PhaseSound(calls, w, i) && calls[i] in calls;
      if mv.Finish? && MayCommit(calls, w, i) {
        MayCommitKeeps(calls, w, i);
        assert Advance(calls, w, mv) == Committed(calls, w, i);
      } else {
        QuietMove(calls, w, mv);
        QuietKeeps(calls, w, Advance(calls, w, mv), i);
      }
    }
  }

  lemma StartSerial(calls: seq<Call>, m: Counters)
    ensures Serializable(calls, Start(calls, m))
  {
  }

  /**
   Any interleaving of reserves that share their buckets has the effect of a serial order:
   the order of their commits.
   */
  lemma {:induction false} HistoriesAreSerial(calls: seq<Call>, m: Counters, moves: seq<Move>)
    requires ShareBuckets(calls) && forall c | c in calls :: WritesWhatItReads(c)
    ensures Serializable(calls, History(calls, m, moves))
  {
    if moves == [] {
      StartSerial(calls, m);
    } else {
      HistoriesAreSerial(calls, m, moves[..|moves|-1]);
      AdvanceKeeps(calls, History(calls, m, moves[..|moves|-1]), moves[|moves|-1]);
    }
  }

  // ---------------------------------------------------------------------------
  // Calls of one rule list
  // ---------------------------------------------------------------------------

  function CallOf(rules: seq<Rule>, q: Request): Call { Call(Planned(rules, q, true), q.nowMs) }

  function CallsOf(rules: seq<Rule>, qs: seq<Request>): seq<Call>
  {
    seq(|qs|, i requires 0 <= i < |qs| => CallOf(rules, qs[i]))
  }

  /** All requests fall into one bucket of every window the rules use. */
  ghost predicate OneBucket(rules: seq<Rule>, qs: seq<Request>)
  {
    forall q, o, r | q in qs && o in qs && r in rules ::
      BucketStartFor(q.nowMs, r.windowSeconds) == BucketStartFor(o.nowMs, r.windowSeconds)
  }

  /** A write of the batch keeps a planned hold's document. */
  lemma BatchWritePlanned(rules: seq<Rule>, q: Request, w: CounterWrite) returns (p: PlannedHold)
    requires w in CallOf(rules, q).Batch()
    ensures p.rule in rules && PlanOne(p.rule, q) == Some(p) && w.Doc() == p.Write().Doc()
  {
    var e := EntryOfWrite(Writes(Planned(rules, q, true)), w);
    p := PlanOfWrite(Planned(rules, q, true), e);
    PlannedFrom(rules, q, p);
  }

  lemma SameBucketOf(rules: seq<Rule>, qs: seq<Request>, q: Request, o: Request, v: CounterWrite, w: CounterWrite)
    requires OneBucket(rules, qs) && q in qs && o in qs
    requires v in CallOf(rules, q).Batch() && w in CallOf(rules, o).Batch()
    ensures SameBucket(v, w)
  {
    var p := BatchWritePlanned(rules, q, v);
    var r := BatchWritePlanned(rules, o, w);
    assert BucketStartFor(q.nowMs, p.rule.windowSeconds) == BucketStartFor(o.nowMs, p.rule.windowSeconds);
  }

  lemma WriteOfKey(entries: seq<CounterWrite>, e: CounterWrite) returns (w: CounterWrite)
    requires e in entries
    ensures w in Coalesced(entries) && CounterWriteKey(w) == CounterWriteKey(e)
  {
    CoalescedOnePerKey(entries);
    w :| w in Coalesced(entries) && CounterWriteKey(w) == CounterWriteKey(e);
  }

  lemma PlanWrites(planned: seq<PlannedHold>, p: PlannedHold)
    requires p in planned
    ensures p.Write() in Writes(planned)
  {
    var i :| 0 <= i < |planned| && planned[i] == p;
    assert Writes(planned)[i] == p.Write();
  }

  /** The request's claims on different streams go under different keys. */
  predicate StreamsApart(rules: seq<Rule>, q: Request)
  {
    Allowed(Proper, q.modelAliasId) || (DistinctIds(rules) && WritesApart(rules, Any))
  }

  lemma SameKeySameStream(w: CounterWrite, e: CounterWrite, o: Rule, r: Rule, q: Request)
    requires CounterWriteKey(w) == CounterWriteKey(e) && Allowed(Proper, q.modelAliasId)
    requires PlanOne(o, q).Some? && w.Doc() == PlanOne(o, q).value.Write().Doc()
    requires PlanOne(r, q).Some? && e == PlanOne(r, q).value.Write()
    ensures w.StreamOf() == e.StreamOf()
  {
    CounterWriteKeyInjective(w, e);
  }

  lemma NamedTouches(rules: seq<Rule>, q: Request, p: PlannedHold)
    requires Allowed(Proper, q.modelAliasId) && p in Planned(rules, q, true)
    ensures Touches(CallOf(rules, q).Batch(), p.StreamOf())
  {
    PlanWrites(Planned(rules, q, true), p);
    var w := WriteOfKey(Writes(Planned(rules, q, true)), p.Write());
    var o := BatchWritePlanned(rules, q, w);
    PlannedFrom(rules, q, p);
    SameKeySameStream(w, p.Write(), o.rule, p.rule, q);
  }

  lemma TouchesPlanned(rules: seq<Rule>, q: Request, p: PlannedHold)
    requires StreamsApart(rules, q) && p in Planned(rules, q, true)
    ensures Touches(CallOf(rules, q).Batch(), p.StreamOf())
  {
    if Allowed(Proper, q.modelAliasId) {
      NamedTouches(rules, q, p);
    } else {
      PlannedSlots(rules, Any, q);
      NothingToCoalesce(Writes(Planned(rules, q, true)));
      PlanWrites(Planned(rules, q, true), p);
    }
  }

  lemma CallsShareBuckets(rules: seq<Rule>, qs: seq<Request>)
    requires OneBucket(rules, qs)
    ensures ShareBuckets(CallsOf(rules, qs))
  {
    var calls := CallsOf(rules, qs);
    forall c, d, v, w | c in calls && d in calls && v in c.Batch() && w in d.Batch() ensures SameBucket(v, w) {
      var i :| 0 <= i < |qs| && calls[i] == c;
      var j :| 0 <= j < |qs| && calls[j] == d;
      SameBucketOf(rules, qs, qs[i], qs[j], v, w);
    }
  }

  lemma CallsWriteWhatTheyRead(rules: seq<Rule>, qs: seq<Request>)
    requires forall q | q in qs :: StreamsApart(rules, q)
    ensures forall c | c in CallsOf(rules, qs) :: WritesWhatItReads(c)
  {
    forall c | c in CallsOf(rules, qs) ensures WritesWhatItReads(c) {
      var i :| 0 <= i < |qs| && CallsOf(rules, qs)[i] == c;
      forall p | p in c.planned ensures Touches(c.Batch(), p.StreamOf()) {
        TouchesPlanned(rules, qs[i], p);
      }
    }
  }

  // ---------------------------------------------------------------------------
  // A concurrent history is a run of atomic reserves
  // ---------------------------------------------------------------------------

  /** The admitted requests, in commit order, as atomic steps. */
  function EventsOf(qs: seq<Request>, commits: seq<Commit>): seq<Event>
    requires forall k | 0 <= k < |commits| :: commits[k].call < |qs|
  {
    seq(|commits|, k requires 0 <= k < |commits| => ReserveEv(qs[commits[k].call]))
  }

  ghost predicate AdmittedInOrder(calls: seq<Call>, m: Counters, commits: seq<Commit>)
  {
    && FromCalls(calls, commits)
    && forall k | 0 <= k < |commits| :: calls[commits[k].call].HasRoom(Serial(m, commits[..k]))
  }

  lemma SerialAdmitted(calls: seq<Call>, w: World)
    requires Serializable(calls, w)
    ensures AdmittedInOrder(calls, w.start, w.commits)
  {
    forall k | 0 <= k < |w.commits| ensures calls[w.commits[k].call].HasRoom(Serial(w.start, w.commits[..k])) {
      assert PhaseSound(calls, w, w.commits[k].call);
    }
  }

  lemma EventsOfLast(qs: seq<Request>, init: seq<Commit>, last: Commit)
    requires forall k | 0 <= k < |init + [last]| :: (init + [last])[k].call < |qs|
    ensures last.call < |qs| && forall k | 0 <= k < |init| :: init[k].call < |qs|
    ensures EventsOf(qs, init + [last]) == EventsOf(qs, init) + [ReserveEv(qs[last.call])]
  {
    assert forall k | 0 <= k < |init| :: init[k] == (init + [last])[k];
    assert (init + [last])[|init|] == last;
  }

  lemma AdmittedLast(calls: seq<Call>, m: Counters, init: seq<Commit>, last: Commit)
    requires AdmittedInOrder(calls, m, init + [last])
    ensures AdmittedInOrder(calls, m, init)
    ensures last.call < |calls| && last.batch == calls[last.call].Batch() && calls[last.call].HasRoom(Serial(m, init))
  {
    var commits := init + [last];
    assert commits[..|init|] == init && commits[|init|] == last;
    forall k | 0 <= k < |init|
      ensures init[k].call < |calls| && init[k].batch == calls[init[k].call].Batch()
        && calls[init[k].call].HasRoom(Serial(m, init[..k]))
    {
      assert init[k] == commits[k] && init[..k] == commits[..k];
    }
  }

  lemma SerialLast(m: Counters, init: seq<Commit>, last: Commit)
    ensures Serial(m, init + [last]) == ApplyAll(Serial(m, init), last.batch)
  {
    assert (init + [last])[..|init|] == init;
  }

  lemma SerialStep(
    rules: seq<Rule>, m: Counters, s: State, events: seq<Event>, q: Request, init: seq<Commit>, last: Commit, c: Call)
    requires Run(rules, s, events).counters == Serial(m, init)
    requires c == CallOf(rules, q) && c.HasRoom(Serial(m, init)) && last.batch == c.Batch()
    ensures Run(rules, s, events + [ReserveEv(q)]).counters == Serial(m, init + [last])
  {
    RunPush(rules, s, events, ReserveEv(q));
    SerialLast(m, init, last);
    ReserveStepCounters(rules, Run(rules, s, events), q, c);
  }

  lemma {:induction false} SerialIsRun(rules: seq<Rule>, qs: seq<Request>, s: State, commits: seq<Commit>)
    requires AdmittedInOrder(CallsOf(rules, qs), s.counters, commits)
    ensures Run(rules, s, EventsOf(qs, commits)).counters == Serial(s.counters, commits)
  {
    if commits != [] {
      var init, last := commits[..|commits|-1], commits[|commits|-1];
      InitAndLast(commits);
      AdmittedLast(CallsOf(rules, qs), s.counters, init, last);
      EventsOfLast(qs, init, last);
      SerialIsRun(rules, qs, s, init);
      SerialStep(rules, s.counters, s, EventsOf(qs, init), qs[last.call], init, last, CallsOf(rules, qs)[last.call]);
    }
  }

  lemma ReserveStepCounters(rules: seq<Rule>, s: State, q: Request, c: Call)
    requires c == CallOf(rules, q) && c.HasRoom(s.counters)
    ensures Step(rules, s, ReserveEv(q)).counters == ApplyAll(s.counters, c.Batch())
  {
  }

  /**
   Concurrent reserves under one rule list, all in one bucket of every window, from any state:
   they leave the counters that the admitted ones make as atomic reserves in commit order.
   */
  lemma ConcurrentReservesAreARun(rules: seq<Rule>, qs: seq<Request>, moves: seq<Move>, s: State)
    requires OneBucket(rules, qs) && forall q | q in qs :: StreamsApart(rules, q)
    ensures var w := History(CallsOf(rules, qs), s.counters, moves);
      && Serializable(CallsOf(rules, qs), w)
      && w.counters == Run(rules, s, EventsOf(qs, w.commits)).counters
  {
    var calls := CallsOf(rules, qs);
    CallsShareBuckets(rules, qs);
    CallsWriteWhatTheyRead(rules, qs);
    HistoriesAreSerial(calls, s.counters, moves);
    var w := History(calls, s.counters, moves);
    HistoryStart(calls, s.counters, moves);
    SerialAdmitted(calls, w);
    SerialIsRun(rules, qs, s, w.commits);
  }

  lemma {:induction false} HistoryStart(calls: seq<Call>, m: Counters, moves: seq<Move>)
    ensures History(calls, m, moves).start == m
  {
    if moves != [] {
      HistoryStart(calls, m, moves[..|moves|-1]);
    }
  }

  lemma {:induction false} SerialKeepsCap(
    rules: seq<Rule>, qs: seq<Request>, m: Counters, clock: int, commits: seq<Commit>, r: Rule, x: Stream)
    requires r in rules && Hard(r) && Governs(r, x) && CapAt(m, clock, r, x)
    requires AdmittedInOrder(CallsOf(rules, qs), m, commits) && forall q | q in qs :: q.nowMs <= clock
    ensures CapAt(Serial(m, commits), clock, r, x)
  {
    if commits != [] {
      var init, last := commits[..|commits|-1], commits[|commits|-1];
      InitAndLast(commits);
      AdmittedLast(CallsOf(rules, qs), m, init, last);
      SerialKeepsCap(rules, qs, m, clock, init, r, x);
      var q := qs[last.call];
      assert q in qs && CallsOf(rules, qs)[last.call] == CallOf(rules, q);
      ReserveKeepsCap(rules, Serial(m, init), clock, q, r, x);
      SerialLast(m, init, last);
    }
  }

  /** So concurrent reserves keep the hard caps, whether or not they agree, from any store that meets them. */
  lemma ConcurrentReservesKeepTheCap(rules: seq<Rule>, qs: seq<Request>, m: Counters, moves: seq<Move>, clock: int)
    requires OneBucket(rules, qs) && forall q | q in qs :: StreamsApart(rules, q)
    requires CapsHold(rules, State(m, clock, [])) && forall q | q in qs :: q.nowMs <= clock
    ensures CapsHold(rules, State(History(CallsOf(rules, qs), m, moves).counters, clock, []))
  {
    var w := History(CallsOf(rules, qs), m, moves);
    ConcurrentReservesAreARun(rules, qs, moves, State(m, clock, []));
    HistoryStart(CallsOf(rules, qs), m, moves);
    SerialAdmitted(CallsOf(rules, qs), w);
    forall r, x | r in rules && Hard(r) && Governs(r, x) ensures CapAt(w.counters, clock, r, x) {
      SerialKeepsCap(rules, qs, m, clock, w.commits, r, x);
    }
  }
}
