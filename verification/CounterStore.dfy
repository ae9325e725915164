/**
 The rolling-window counters of one customer, and the two operations through which the
 limiter reaches them: reading a window and applying a batch of increments.
 */
module CounterStore {
  import opened Options
  import opened MapSum

  datatype Dimension = Tokens | Requests | SpendUnits | SpendMicros

  /** The two spellings of money share one label in the store. */
  function StoredDimension(d: Dimension): Dimension
  {
    if d == SpendUnits then SpendMicros else d
  }

  /** What a counter counts, whatever the bucket. */
  datatype Stream = Stream(dimension: Dimension, windowSeconds: nat, scopeTarget: Option<string>)

  /** A counter document's unique key. Times are milliseconds. */
  datatype CounterKey = CounterKey(dimension: Dimension, windowSeconds: nat, bucketStart: int,
      scopeTarget: Option<string>)
  {
    function StreamOf(): Stream { Stream(StoredDimension(dimension), windowSeconds, scopeTarget) }
  }

  type Counters = map<CounterKey, nat>

  datatype CounterDoc = CounterDoc(key: CounterKey, count: nat)

  datatype CounterWrite = CounterWrite(
    dimension: Dimension, windowSeconds: nat, bucketStart: int, scopeTarget: Option<string>, increment: int)
  {
    /** The document the write reaches. */
    function Doc(): CounterKey { CounterKey(StoredDimension(dimension), windowSeconds, bucketStart, scopeTarget) }

    function StreamOf(): Stream { Doc().StreamOf() }
  }

  function Count(m: Counters, k: CounterKey): nat
  {
    if k in m then m[k] else 0
  }

  /** One update: a claim creates the document if need be, a release never goes below 0. */
  function ApplyWrite(m: Counters, w: CounterWrite): Counters
  {
    var k := w.Doc();
    if w.increment >= 0 then m[k := Count(m, k) + w.increment]
    else if k in m then m[k := Max(0, m[k] + w.increment)]
    else m
  }

  function ApplyAll(m: Counters, ws: seq<CounterWrite>): Counters
  {
    if ws == [] then m else ApplyWrite(ApplyAll(m, ws[..|ws|-1]), ws[|ws|-1])
  }

  function Window(m: Counters, x: Stream, from: int): Counters
  {
    map k | k in m && k.StreamOf() == x && k.bucketStart >= from :: m[k]
  }

  ghost function WindowSum(m: Counters, x: Stream, from: int): nat
  {
    Sum(Window(m, x, from))
  }

  /** Every counter of the map once, in some order. */
  ghost predicate Lists(docs: seq<CounterDoc>, m: Counters)
  {
    && (forall i | 0 <= i < |docs| :: docs[i].key in m && m[docs[i].key] == docs[i].count)
    && (forall i, j | 0 <= i < j < |docs| :: docs[i].key != docs[j].key)
    && (forall k | k in m :: exists i :: 0 <= i < |docs| && docs[i].key == k)
  }

  /** `todo` is what is left of the map once the listed counters are taken out. */
  ghost predicate ListedSoFar(docs: seq<CounterDoc>, todo: Counters, m: Counters)
  {
    && (forall k | k in todo :: k in m && todo[k] == m[k])
    && (forall i | 0 <= i < |docs| :: docs[i].key !in todo && docs[i].key in m && m[docs[i].key] == docs[i].count)
    && (forall i, j | 0 <= i < j < |docs| :: docs[i].key != docs[j].key)
    && (forall k | k in m && k !in todo :: Listed(docs, k))
  }

  ghost predicate Listed(docs: seq<CounterDoc>, k: CounterKey)
  {
    exists i :: 0 <= i < |docs| && docs[i].key == k
  }

  lemma ListOne(docs: seq<CounterDoc>, todo: Counters, m: Counters, k: CounterKey)
    requires ListedSoFar(docs, todo, m) && k in todo
    ensures ListedSoFar(docs + [CounterDoc(k, todo[k])], todo - {k}, m)
  {
    var more := docs + [CounterDoc(k, todo[k])];
    assert more[|docs|].key == k;
    forall j | j in m && j !in todo - {k} ensures Listed(more, j) {
      if j != k {
        var i :| 0 <= i < |docs| && docs[i].key == j;
        assert more[i].key == j;
      }
    }
  }

  method ListAll(m: Counters) returns (docs: seq<CounterDoc>)
    ensures Lists(docs, m)
  {
    var todo := m;
    docs := [];
    while todo != map[]
      invariant ListedSoFar(docs, todo, m)
      decreases |todo|
    {
      assert todo.Keys != {};
      var k :| k in todo.Keys;
      ListOne(docs, todo, m, k);
      docs, todo := docs + [CounterDoc(k, todo[k])], todo - {k};
    }
    assert forall k | k in m :: Listed(docs, k);
  }

  class UsageRepo {
    var counters: Counters

    constructor (initial: Counters)
      ensures counters == initial
    {
      counters := initial;
    }

    /** All counters of the stream from `windowStart` on; there is no upper bound. */
    method FindWindowCounters(x: Stream, windowStart: int) returns (docs: seq<CounterDoc>)
      ensures Lists(docs, Window(counters, x, windowStart))
    {
      docs := ListAll(Window(counters, x, windowStart));
    }

    method BulkUpsertCounters(entries: seq<CounterWrite>)
      modifies this
      ensures counters == ApplyAll(old(counters), entries)
    {
      for i := 0 to |entries|
        invariant counters == ApplyAll(old(counters), entries[..i])
      {
        assert entries[..i+1][..i] == entries[..i];
        counters := ApplyWrite(counters, entries[i]);
      }
      assert entries[..|entries|] == entries;
    }
  }

  // ---------------------------------------------------------------------------
  // Reading a window
  // ---------------------------------------------------------------------------

  function DocsTotal(docs: seq<CounterDoc>): nat
  {
    if docs == [] then 0 else DocsTotal(docs[..|docs|-1]) + docs[|docs|-1].count
  }

  lemma DocsTotalNext(docs: seq<CounterDoc>, i: nat)
    requires i < |docs|
    ensures DocsTotal(docs[..i+1]) == DocsTotal(docs[..i]) + docs[i].count
  {
    assert docs[..i+1][..i] == docs[..i];
  }

  /** Whatever the order, the listed counts add up to the window sum. */
  lemma {:induction false} ListedTotal(docs: seq<CounterDoc>, m: Counters)
    requires Lists(docs, m)
    ensures DocsTotal(docs) == Sum(m)
  {
    if docs == [] {
      assert m == map[];
    } else {
      var n := |docs| - 1;
      var k := docs[n].key;
      forall j | j in m - {k} ensures exists i :: 0 <= i < n && docs[..n][i].key == j {
        var i :| 0 <= i < |docs| && docs[i].key == j;
        assert docs[..n][i].key == j;
      }
      ListedTotal(docs[..n], m - {k});
      SumRemove(m, k);
    }
  }

  /** The oldest bucket that contributes, or `now` when none is older. */
  ghost predicate IsOldest(m: Counters, now: int, t: int)
  {
    && t <= now
    && (forall k | k in m :: t <= k.bucketStart)
    && (t == now || exists k :: k in m && k.bucketStart == t)
  }

  lemma OldestUnique(m: Counters, now: int, s: int, t: int)
    requires IsOldest(m, now, s) && IsOldest(m, now, t)
    ensures s == t
  {
  }

  lemma {:induction false} OldestExists(m: Counters, now: int) returns (t: int)
    ensures IsOldest(m, now, t)
    decreases |m|
  {
    if m == map[] {
      t := now;
    } else {
      var k := Pick(m);
      assert (m - {k}).Keys == m.Keys - {k};
      t := OldestExists(m - {k}, now);
      assert forall j | j in m :: j == k || j in m - {k};
      if k.bucketStart < t { t := k.bucketStart; }
    }
  }

  ghost function OldestBucket(m: Counters, now: int): (t: int)
    ensures IsOldest(m, now, t)
  {
    assert exists t :: IsOldest(m, now, t) by { var t := OldestExists(m, now); }
    var t :| IsOldest(m, now, t); t
  }

  // ---------------------------------------------------------------------------
  // How a batch of writes moves counters and window sums
  // ---------------------------------------------------------------------------

  /** A write moves its own document only, never below 0; only a claim creates one. */
  lemma WriteExact(m: Counters, w: CounterWrite, k: CounterKey)
    ensures Count(ApplyWrite(m, w), k) ==
      if k == w.Doc() then Max(0, Count(m, k) + w.increment) else Count(m, k)
    ensures k in ApplyWrite(m, w) <==> k in m || (k == w.Doc() && w.increment >= 0)
  {
  }

  /** A window holds the counters of its length, its target and its label, money under either, from its start on. */
  lemma WindowExactly(m: Counters, x: Stream, from: int, k: CounterKey)
    ensures k in Window(m, x, from) <==>
      && k in m && from <= k.bucketStart && k.windowSeconds == x.windowSeconds && k.scopeTarget == x.scopeTarget
      && match x.dimension
         case Tokens => k.dimension == Tokens
         case Requests => k.dimension == Requests
         case SpendMicros => k.dimension == SpendMicros || k.dimension == SpendUnits
         case SpendUnits => false
    ensures k in Window(m, x, from) ==> Window(m, x, from)[k] == m[k]
  {
  }

  /** A window that starts later sums to no more. */
  lemma WindowShrinks(m: Counters, x: Stream, from: int, later: int)
    requires from <= later
    ensures WindowSum(m, x, later) <= WindowSum(m, x, from)
  {
    SumMonotone(Window(m, x, later), Window(m, x, from));
  }

  /** Only counts matter: a missing document and a zero one are the same. */
  lemma WindowSumAgrees(a: Counters, b: Counters, x: Stream, from: int)
    requires forall k: CounterKey | k.StreamOf() == x :: Count(a, k) == Count(b, k)
    ensures WindowSum(a, x, from) == WindowSum(b, x, from)
  {
    var wa, wb := Window(a, x, from), Window(b, x, from);
    forall k | k in wa && wa[k] != 0 ensures k in wb && wb[k] == wa[k] {
      assert Count(a, k) == Count(b, k);
    }
    forall k | k in wb && wb[k] != 0 ensures k in wa && wa[k] == wb[k] {
      assert Count(a, k) == Count(b, k);
    }
    SumAgrees(wa, wb);
  }

  /** Setting one counter moves the sums of its own stream only, and only if it is inside. */
  lemma WindowSumPut(m: Counters, k: CounterKey, v: nat, x: Stream, from: int)
    ensures WindowSum(m[k := v], x, from) ==
      if k.StreamOf() == x && k.bucketStart >= from then WindowSum(m, x, from) - Count(m, k) + v
      else WindowSum(m, x, from)
  {
    var w := Window(m, x, from);
    if k.StreamOf() == x && k.bucketStart >= from {
      assert Window(m[k := v], x, from) == w[k := v];
      SumPut(w, k, v);
    } else {
      assert Window(m[k := v], x, from) == w;
    }
  }

  /** The claims of a batch on one stream, releases not counted. */
  function ClaimedOn(ws: seq<CounterWrite>, x: Stream): nat
  {
    if ws == [] then 0
    else
      ClaimedOn(ws[..|ws|-1], x) +
      (if ws[|ws|-1].StreamOf() == x then Max(0, ws[|ws|-1].increment) else 0)
  }

  /** What one write does to a window sum. */
  lemma WriteMoves(m: Counters, w: CounterWrite, x: Stream, from: int)
    ensures WindowSum(ApplyWrite(m, w), x, from) <=
      WindowSum(m, x, from) + (if w.StreamOf() == x then Max(0, w.increment) else 0)
    ensures w.increment >= 0 ==>
      WindowSum(ApplyWrite(m, w), x, from) ==
        WindowSum(m, x, from) + (if w.StreamOf() == x && w.bucketStart >= from then w.increment else 0)
  {
    var k := w.Doc();
    WindowSumPut(m, k, Max(0, Count(m, k) + w.increment), x, from);
  }

  /** A batch raises a window sum by no more than it claims on that stream. */
  lemma {:induction false} BatchRaisesAtMost(m: Counters, ws: seq<CounterWrite>, x: Stream, from: int)
    ensures WindowSum(ApplyAll(m, ws), x, from) <= WindowSum(m, x, from) + ClaimedOn(ws, x)
  {
    if ws != [] {
      var n := |ws| - 1;
      BatchRaisesAtMost(m, ws[..n], x, from);
      WriteMoves(ApplyAll(m, ws[..n]), ws[n], x, from);
    }
  }

  predicate AllClaimed(ws: seq<CounterWrite>) { forall i | 0 <= i < |ws| :: ws[i].increment >= 0 }

  /** Without releases, a batch raises a window sum by at least any one of its claims there. */
  lemma {:induction false} BatchRaisesAtLeast(m: Counters, ws: seq<CounterWrite>, x: Stream, from: int, i: nat)
    requires AllClaimed(ws)
    requires i < |ws| && ws[i].StreamOf() == x && ws[i].bucketStart >= from
    ensures WindowSum(ApplyAll(m, ws), x, from) >= WindowSum(m, x, from) + ws[i].increment
  {
    var n := |ws| - 1;
    WriteMoves(ApplyAll(m, ws[..n]), ws[n], x, from);
    if i < n {
      BatchRaisesAtLeast(m, ws[..n], x, from, i);
    } else {
      BatchRaises(m, ws[..n], x, from);
    }
  }

  lemma {:induction false} BatchRaises(m: Counters, ws: seq<CounterWrite>, x: Stream, from: int)
    requires AllClaimed(ws)
    ensures WindowSum(ApplyAll(m, ws), x, from) >= WindowSum(m, x, from)
  {
    if ws != [] {
      var n := |ws| - 1;
      BatchRaises(m, ws[..n], x, from);
      WriteMoves(ApplyAll(m, ws[..n]), ws[n], x, from);
    }
  }

  /** The net increment of a batch on one document. */
  function NetOn(ws: seq<CounterWrite>, k: CounterKey): int
  {
    if ws == [] then 0
    else NetOn(ws[..|ws|-1], k) + (if ws[|ws|-1].Doc() == k then ws[|ws|-1].increment else 0)
  }

  /** The releases of a batch on one document, as a magnitude. */
  function ReleasedOn(ws: seq<CounterWrite>, k: CounterKey): nat
  {
    if ws == [] then 0
    else
      ReleasedOn(ws[..|ws|-1], k) +
      (if ws[|ws|-1].Doc() == k then Max(0, -ws[|ws|-1].increment) else 0)
  }

  /** While a counter covers what is released from it, the floor at 0 never shows. */
  lemma {:induction false} NoFloor(m: Counters, ws: seq<CounterWrite>, k: CounterKey)
    requires ReleasedOn(ws, k) <= Count(m, k)
    ensures Count(ApplyAll(m, ws), k) == Count(m, k) + NetOn(ws, k)
    ensures NetOn(ws, k) + ReleasedOn(ws, k) >= 0
  {
    if ws != [] {
      NoFloor(m, ws[..|ws|-1], k);
    }
  }

  lemma {:induction false} NetOnConcat(a: seq<CounterWrite>, b: seq<CounterWrite>, k: CounterKey)
    ensures NetOn(a + b, k) == NetOn(a, k) + NetOn(b, k)
    ensures ReleasedOn(a + b, k) == ReleasedOn(a, k) + ReleasedOn(b, k)
  {
    if b == [] {
      assert a + b == a;
    } else {
      assert (a + b)[..|a + b|-1] == a + b[..|b|-1];
      NetOnConcat(a, b[..|b|-1], k);
    }
  }
}
