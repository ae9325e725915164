/**
 What coalescing a batch of counter writes does: one write per counter key, never a sum,
 the smallest claim or the smallest release, and nothing that depends on the order.
 */
module Coalescing {
  import opened Options
  import opened CounterStore
  import opened JsMap
  import opened RateLimits
  import opened JsText
  import Decimal

  // ---------------------------------------------------------------------------
  // The key
  // ---------------------------------------------------------------------------

  lemma DigitsHaveNoNul(s: string)
    requires Decimal.AllDigits(s)
    ensures '\0' !in s && '-' !in s
  {
    forall c | c in s ensures c != '\0' && c != '-' {
      assert Decimal.IsDigit(c);
    }
  }

  lemma IntTextHasNoNul(n: int)
    ensures '\0' !in Decimal.IntText(n)
  {
    if n < 0 {
      DigitsHaveNoNul(Decimal.NatText(-n));
    } else {
      DigitsHaveNoNul(Decimal.NatText(n));
    }
  }

  lemma DimensionTextInjective(a: Dimension, b: Dimension)
    requires DimensionText(a) == DimensionText(b)
    ensures a == b
  {
    assert DimensionText(Tokens)[0] == 't' && DimensionText(Requests)[0] == 'r';
    assert |DimensionText(SpendUnits)| == 11 && |DimensionText(SpendMicros)| == 12;
    assert DimensionText(SpendUnits)[0] == 's' && DimensionText(SpendMicros)[0] == 's';
  }

  /** Equal keys mean equal fields, a missing target and an empty one being the same. */
  lemma CounterWriteKeyInjective(a: CounterWrite, b: CounterWrite)
    ensures CounterWriteKey(a) == CounterWriteKey(b) <==>
      && a.dimension == b.dimension && a.windowSeconds == b.windowSeconds
      && a.bucketStart == b.bucketStart && OrEmpty(a.scopeTarget) == OrEmpty(b.scopeTarget)
  {
    if CounterWriteKey(a) == CounterWriteKey(b) {
      var a2 := Decimal.IntText(a.bucketStart) + "\0" + OrEmpty(a.scopeTarget);
      var b2 := Decimal.IntText(b.bucketStart) + "\0" + OrEmpty(b.scopeTarget);
      var a1 := Decimal.NatText(a.windowSeconds) + "\0" + a2;
      var b1 := Decimal.NatText(b.windowSeconds) + "\0" + b2;
      CutUnique(DimensionText(a.dimension), DimensionText(b.dimension), '\0', a1, b1);
      DimensionTextInjective(a.dimension, b.dimension);
      DigitsHaveNoNul(Decimal.NatText(a.windowSeconds));
      DigitsHaveNoNul(Decimal.NatText(b.windowSeconds));
      CutUnique(Decimal.NatText(a.windowSeconds), Decimal.NatText(b.windowSeconds), '\0', a2, b2);
      Decimal.NatTextInjective(a.windowSeconds, b.windowSeconds);
      IntTextHasNoNul(a.bucketStart);
      IntTextHasNoNul(b.bucketStart);
      CutUnique(Decimal.IntText(a.bucketStart), Decimal.IntText(b.bucketStart), '\0',
                OrEmpty(a.scopeTarget), OrEmpty(b.scopeTarget));
      Decimal.IntTextInjective(a.bucketStart, b.bucketStart);
    }
  }

  // ---------------------------------------------------------------------------
  // One write per key
  // ---------------------------------------------------------------------------

  /** Every stored write keeps its key and comes from an entry it differs from in increment only. */
  ghost predicate FromEntry(w: CounterWrite, entries: seq<CounterWrite>)
  {
    exists e :: e in entries && w == e.(increment := w.increment) && (w.increment > 0 ==> w.increment <= e.increment)
  }

  lemma StepKeys(m: JsMap<string, CounterWrite>, init: seq<CounterWrite>, e: CounterWrite, k: string)
    requires k in CoalesceStep(m, e).at
    requires k in m.at ==> CounterWriteKey(m.at[k]) == k && FromEntry(m.at[k], init)
    ensures CounterWriteKey(CoalesceStep(m, e).at[k]) == k && FromEntry(CoalesceStep(m, e).at[k], init + [e])
  {
    var w := CoalesceStep(m, e).at[k];
    if k in m.at {
      var o :| o in init && m.at[k] == o.(increment := m.at[k].increment)
        && (m.at[k].increment > 0 ==> m.at[k].increment <= o.increment);
      assert o in init + [e] && w == o.(increment := w.increment);
      assert CounterWriteKey(w) == CounterWriteKey(m.at[k]);
    } else {
      assert w == e && e in init + [e];
    }
  }

  lemma {:induction false} CoalesceMapKeys(entries: seq<CounterWrite>)
    ensures forall k | k in CoalesceMap(entries).at ::
      CounterWriteKey(CoalesceMap(entries).at[k]) == k && FromEntry(CoalesceMap(entries).at[k], entries)
    ensures forall e | e in entries :: CounterWriteKey(e) in CoalesceMap(entries).at
  {
    if entries != [] {
      var init, e := entries[..|entries|-1], entries[|entries|-1];
      CoalesceMapKeys(init);
      assert entries == init + [e];
      var m := CoalesceMap(entries);
      forall k | k in m.at ensures CounterWriteKey(m.at[k]) == k && FromEntry(m.at[k], entries) {
        StepKeys(CoalesceMap(init), init, e, k);
      }
    }
  }

  /** One write per key, and every key of the batch is written. */
  lemma CoalescedOnePerKey(entries: seq<CounterWrite>)
    ensures var out := Coalesced(entries);
      && DistinctKeys(out)
      && (forall w | w in out :: FromEntry(w, entries))
      && (forall e | e in entries :: exists w :: w in out && CounterWriteKey(w) == CounterWriteKey(e))
  {
    CoalesceMapKeys(entries);
    var m, out := CoalesceMap(entries), Coalesced(entries);
    forall w | w in out ensures FromEntry(w, entries) {
      var i :| 0 <= i < |out| && out[i] == w;
      assert m.order[i] in m.order;
    }
    forall i, j | 0 <= i < j < |out| ensures CounterWriteKey(out[i]) != CounterWriteKey(out[j]) {
      assert m.order[i] in m.order && m.order[j] in m.order;
    }
    forall e | e in entries ensures exists w :: w in out && CounterWriteKey(w) == CounterWriteKey(e) {
      var k := CounterWriteKey(e);
      assert k in m.order;
      var i :| 0 <= i < |m.order| && m.order[i] == k;
      assert out[i] in out;
    }
  }

  lemma EntryOfWrite(entries: seq<CounterWrite>, w: CounterWrite) returns (e: CounterWrite)
    requires w in Coalesced(entries)
    ensures e in entries && w == e.(increment := w.increment)
  {
    CoalescedOnePerKey(entries);
    assert FromEntry(w, entries);
    e :| e in entries && w == e.(increment := w.increment);
  }

  predicate DistinctKeys(ws: seq<CounterWrite>)
  {
    forall i, j | 0 <= i < j < |ws| :: CounterWriteKey(ws[i]) != CounterWriteKey(ws[j])
  }

  function KeysOf(ws: seq<CounterWrite>): (keys: seq<string>)
    ensures |keys| == |ws|
  {
    seq(|ws|, i requires 0 <= i < |ws| => CounterWriteKey(ws[i]))
  }

  predicate FreshKey(ws: seq<CounterWrite>, e: CounterWrite)
  {
    forall i | 0 <= i < |ws| :: CounterWriteKey(ws[i]) != CounterWriteKey(e)
  }

  lemma DistinctStep(m: JsMap<string, CounterWrite>, init: seq<CounterWrite>, e: CounterWrite)
    requires m.Lists(KeysOf(init), init) && FreshKey(init, e)
    ensures CoalesceStep(m, e).Lists(KeysOf(init + [e]), init + [e])
  {
    var k := CounterWriteKey(e);
    assert k !in KeysOf(init);
    m.ListsPush(KeysOf(init), init, k, e);
    assert KeysOf(init + [e]) == KeysOf(init) + [k];
  }

  lemma DistinctInit(init: seq<CounterWrite>, e: CounterWrite)
    requires DistinctKeys(init + [e])
    ensures DistinctKeys(init) && FreshKey(init, e)
  {
    var all := init + [e];
    assert forall i | 0 <= i < |init| :: all[i] == init[i];
    assert all[|init|] == e;
  }

  lemma {:induction false} DistinctMap(entries: seq<CounterWrite>)
    requires DistinctKeys(entries)
    ensures CoalesceMap(entries).Lists(KeysOf(entries), entries)
  {
    if entries != [] {
      var init, e := entries[..|entries|-1], entries[|entries|-1];
      assert entries == init + [e];
      DistinctInit(init, e);
      DistinctMap(init);
      DistinctStep(CoalesceMap(init), init, e);
    }
  }

  /** Distinct keys leave nothing to coalesce. */
  lemma CoalesceDistinct(entries: seq<CounterWrite>)
    requires DistinctKeys(entries)
    ensures Coalesced(entries) == entries
  {
    DistinctMap(entries);
  }

  // ---------------------------------------------------------------------------
  // Min, never a sum, and order does not matter
  // ---------------------------------------------------------------------------

  predicate AllClaims(entries: seq<CounterWrite>) { forall e | e in entries :: e.increment >= 0 }

  predicate AllReleases(entries: seq<CounterWrite>) { forall e | e in entries :: e.increment <= 0 }

  /** The merged increment of a key is one of its increments and none is closer to zero. */
  ghost predicate IsLeast(inc: int, key: string, entries: seq<CounterWrite>)
  {
    && (exists e :: e in entries && CounterWriteKey(e) == key && e.increment == inc)
    && (forall e | e in entries && CounterWriteKey(e) == key ::
          (if inc < 0 then -inc else inc) <= (if e.increment < 0 then -e.increment else e.increment))
  }

  lemma LeastStep(m: JsMap<string, CounterWrite>, init: seq<CounterWrite>, e: CounterWrite, k: string)
    requires AllClaims(init + [e]) || AllReleases(init + [e])
    requires k in CoalesceStep(m, e).at
    requires k in m.at ==> IsLeast(m.at[k].increment, k, init)
    requires forall o | o in init :: CounterWriteKey(o) in m.at
    ensures IsLeast(CoalesceStep(m, e).at[k].increment, k, init + [e])
  {
    assert e in init + [e];
    if k in m.at {
      var o :| o in init && CounterWriteKey(o) == k && o.increment == m.at[k].increment;
      assert o in init + [e];
    } else {
      assert CoalesceStep(m, e).at[k] == e;
      assert forall o | o in init + [e] && CounterWriteKey(o) == k :: o == e;
    }
  }

  lemma {:induction false} CoalesceMapLeast(entries: seq<CounterWrite>)
    requires AllClaims(entries) || AllReleases(entries)
    ensures forall k | k in CoalesceMap(entries).at :: IsLeast(CoalesceMap(entries).at[k].increment, k, entries)
  {
    if entries != [] {
      var init, e := entries[..|entries|-1], entries[|entries|-1];
      assert entries == init + [e];
      CoalesceMapLeast(init);
      CoalesceMapKeys(init);
      var m := CoalesceMap(entries);
      forall k | k in m.at ensures IsLeast(m.at[k].increment, k, entries) {
        LeastStep(CoalesceMap(init), init, e, k);
      }
    }
  }

  /** On same-sign batches coalescing keeps, per key, the increment of least magnitude. */
  lemma CoalescedIsLeast(entries: seq<CounterWrite>)
    requires AllClaims(entries) || AllReleases(entries)
    ensures forall w | w in Coalesced(entries) :: IsLeast(w.increment, CounterWriteKey(w), entries)
  {
    CoalesceMapLeast(entries);
    CoalesceMapKeys(entries);
    var m, out := CoalesceMap(entries), Coalesced(entries);
    forall w | w in out ensures IsLeast(w.increment, CounterWriteKey(w), entries) {
      var i :| 0 <= i < |out| && out[i] == w;
      assert m.order[i] in m.order;
    }
  }

  /** Any two orders of a same-sign batch put the same increment on every key. */
  lemma CoalesceOrderIndependent(a: seq<CounterWrite>, b: seq<CounterWrite>, v: CounterWrite, w: CounterWrite)
    requires multiset(a) == multiset(b)
    requires AllClaims(a) || AllReleases(a)
    requires v in Coalesced(a) && w in Coalesced(b) && CounterWriteKey(v) == CounterWriteKey(w)
    ensures v.increment == w.increment
  {
    forall e ensures e in a <==> e in b {
      assert e in a <==> e in multiset(a);
      assert e in b <==> e in multiset(b);
    }
    CoalescedIsLeast(a);
    CoalescedIsLeast(b);
  }

  /** With mixed signs the first entry wins, so the order shows. */
  lemma MixedSignsDependOnOrder(e: CounterWrite)
    requires e.increment > 0
    ensures var r := e.(increment := 0 - e.increment);
      CounterWriteKey(r) == CounterWriteKey(e) && Coalesced([e, r]) == [e] && Coalesced([r, e]) == [r]
  {
    var r := e.(increment := 0 - e.increment);
    CounterWriteKeyInjective(e, r);
    CoalescePair(e, r);
    CoalescePair(r, e);
  }

  lemma CoalescePair(a: CounterWrite, b: CounterWrite)
    requires CounterWriteKey(a) == CounterWriteKey(b)
    ensures Coalesced([a, b]) == [a.(increment := MergeIncrements(a.increment, b.increment))]
  {
    var k := CounterWriteKey(a);
    assert [a, b][..1] == [a] && [a][..0] == [];
    assert CoalesceMap([a]) == JsMap([k], map[k := a]);
    assert CoalesceMap([a, b]) == CoalesceStep(JsMap([k], map[k := a]), b);
  }

  /** The coalesced write of an entry's key. */
  lemma WriteForKey(entries: seq<CounterWrite>, e: CounterWrite) returns (i: nat)
    requires e in entries && AllClaims(entries)
    ensures i < |Coalesced(entries)|
    ensures CounterWriteKey(Coalesced(entries)[i]) == CounterWriteKey(e)
    ensures FromEntry(Coalesced(entries)[i], entries)
    ensures IsLeast(Coalesced(entries)[i].increment, CounterWriteKey(e), entries)
  {
    CoalesceMapKeys(entries);
    CoalesceMapLeast(entries);
    var k := CounterWriteKey(e);
    assert k in CoalesceMap(entries).order;
    i :| 0 <= i < |CoalesceMap(entries).order| && CoalesceMap(entries).order[i] == k;
  }

  // ---------------------------------------------------------------------------
  // Claims on one stream
  // ---------------------------------------------------------------------------

  lemma {:induction false} ClaimedOnNone(ws: seq<CounterWrite>, x: Stream)
    requires forall w | w in ws && w.StreamOf() == x :: w.increment <= 0
    ensures ClaimedOn(ws, x) == 0
  {
    if ws != [] {
      assert ws[|ws|-1] in ws;
      ClaimedOnNone(ws[..|ws|-1], x);
    }
  }

  /** A claim on the stream, in its own spelling, of this bucket, and small enough. */
  predicate FitsOn(w: CounterWrite, x: Stream, bucketStart: int, room: nat)
  {
    w.StreamOf() == x && w.increment > 0 ==>
      w.dimension == x.dimension && w.bucketStart == bucketStart && w.increment <= room
  }

  lemma SecondClaim(init: seq<CounterWrite>, last: CounterWrite, x: Stream, bucketStart: int, room: nat,
      w: CounterWrite)
    requires FreshKey(init, last) && w in init && w.StreamOf() == last.StreamOf() == x
    requires FitsOn(w, x, bucketStart, room) && FitsOn(last, x, bucketStart, room) && last.increment > 0
    ensures w.increment <= 0
  {
    CounterWriteKeyInjective(w, last);
  }

  lemma {:induction false} ClaimedOnOne(ws: seq<CounterWrite>, x: Stream, bucketStart: int, room: nat)
    requires DistinctKeys(ws)
    requires forall w | w in ws :: FitsOn(w, x, bucketStart, room)
    ensures ClaimedOn(ws, x) <= room
  {
    if ws != [] {
      var init, last := ws[..|ws|-1], ws[|ws|-1];
      assert ws == init + [last];
      DistinctInit(init, last);
      ClaimedOnOne(init, x, bucketStart, room);
      if last.StreamOf() == x && last.increment > 0 {
        forall w | w in init && w.StreamOf() == x ensures w.increment <= 0 {
          SecondClaim(init, last, x, bucketStart, room, w);
        }
        ClaimedOnNone(init, x);
      }
    }
  }

  lemma CoalescedFits(entries: seq<CounterWrite>, x: Stream, bucketStart: int, room: nat)
    requires forall e | e in entries :: FitsOn(e, x, bucketStart, room)
    ensures DistinctKeys(Coalesced(entries))
    ensures forall w | w in Coalesced(entries) :: FitsOn(w, x, bucketStart, room)
  {
    CoalescedOnePerKey(entries);
    forall w | w in Coalesced(entries) ensures FitsOn(w, x, bucketStart, room) {
      assert FromEntry(w, entries);
      var e :| e in entries && w == e.(increment := w.increment) && (w.increment > 0 ==> w.increment <= e.increment);
      assert FitsOn(e, x, bucketStart, room);
    }
  }

  /**
   If all claims of a batch on one stream are in one bucket and each fits the room, then the
   coalesced batch claims no more than that room, however many entries repeat the claim.
   */
  lemma CoalescedClaimFits(entries: seq<CounterWrite>, x: Stream, bucketStart: int, room: nat)
    requires forall e | e in entries :: FitsOn(e, x, bucketStart, room)
    ensures ClaimedOn(Coalesced(entries), x) <= room
  {
    CoalescedFits(entries, x, bucketStart, room);
    ClaimedOnOne(Coalesced(entries), x, bucketStart, room);
  }

  // ---------------------------------------------------------------------------
  // Release undoes reserve
  // ---------------------------------------------------------------------------

  function Negate(w: CounterWrite): CounterWrite { w.(increment := 0 - w.increment) }

  function Negated(ws: seq<CounterWrite>): (r: seq<CounterWrite>)
    ensures |r| == |ws|
  {
    seq(|ws|, i requires 0 <= i < |ws| => Negate(ws[i]))
  }

  ghost predicate Mirrors(m: JsMap<string, CounterWrite>, n: JsMap<string, CounterWrite>)
  {
    && m.order == n.order && m.at.Keys == n.at.Keys
    && (forall k | k in m.at :: n.at[k] == Negate(m.at[k]) && m.at[k].increment >= 0)
  }

  lemma MirrorStep(m: JsMap<string, CounterWrite>, n: JsMap<string, CounterWrite>, e: CounterWrite)
    requires Mirrors(m, n) && e.increment >= 0
    ensures Mirrors(CoalesceStep(m, e), CoalesceStep(n, Negate(e)))
  {
    CounterWriteKeyInjective(e, Negate(e));
  }

  lemma {:induction false} CoalesceNegatedMap(entries: seq<CounterWrite>)
    requires AllClaims(entries)
    ensures Mirrors(CoalesceMap(entries), CoalesceMap(Negated(entries)))
  {
    if entries != [] {
      var init, e := entries[..|entries|-1], entries[|entries|-1];
      assert e in entries;
      CoalesceNegatedMap(init);
      assert Negated(entries)[..|entries|-1] == Negated(init);
      MirrorStep(CoalesceMap(init), CoalesceMap(Negated(init)), e);
    }
  }

  /** Coalescing commutes with turning claims into releases. */
  lemma CoalesceNegated(entries: seq<CounterWrite>)
    requires AllClaims(entries)
    ensures Coalesced(Negated(entries)) == Negated(Coalesced(entries))
    ensures AllClaims(Coalesced(entries))
  {
    CoalesceNegatedMap(entries);
    var m := CoalesceMap(entries);
    forall i | 0 <= i < |m.order|
      ensures Coalesced(Negated(entries))[i] == Negated(Coalesced(entries))[i] && Coalesced(entries)[i].increment >= 0
    {
      assert m.order[i] in m.order;
    }
  }

  lemma {:induction false} NegatedNet(ws: seq<CounterWrite>, k: CounterKey)
    requires AllClaims(ws)
    ensures NetOn(Negated(ws), k) == -NetOn(ws, k)
    ensures ReleasedOn(Negated(ws), k) == NetOn(ws, k)
    ensures ReleasedOn(ws, k) == 0
  {
    if ws != [] {
      var n := |ws| - 1;
      assert ws[n] in ws;
      NegatedNet(ws[..n], k);
      assert Negated(ws)[..n] == Negated(ws[..n]);
    }
  }

  /** A released reservation writes exactly the negated claims of its reserve. */
  lemma {:induction false} ReleaseNegates(planned: seq<PlannedHold>)
    ensures ReleaseWrites(Holds(planned)) == Negated(Writes(planned))
    ensures AllClaims(Writes(planned))
  {
    if planned != [] {
      var n := |planned| - 1;
      ReleaseNegates(planned[..n]);
      assert Holds(planned)[..n] == Holds(planned[..n]);
      assert Negated(Writes(planned)) ==
        Negated(Writes(planned[..n])) + [planned[n].Hold().Write(0 - planned[n].increment)];
      forall e | e in Writes(planned) ensures e.increment >= 0 {
        var i :| 0 <= i < |planned| && Writes(planned)[i] == e;
      }
    }
  }

  /**
   Reserve, let other clients claim anything, then release: every counter is what the others
   alone would have made it, even when several of the rules share a counter.
   */
  lemma ReleaseUndoesReserve(m: Counters, planned: seq<PlannedHold>, others: seq<CounterWrite>, k: CounterKey)
    requires AllClaims(others)
    ensures
      var reserved := ApplyAll(m, Coalesced(Writes(planned)));
      var between := ApplyAll(reserved, others);
      var released := ApplyAll(between, Coalesced(ReleaseWrites(Holds(planned))));
      Count(released, k) == Count(ApplyAll(m, others), k)
  {
    ReleaseNegates(planned);
    CoalesceNegated(Writes(planned));
    var claims := Coalesced(Writes(planned));
    NegatedNet(claims, k);
    NegatedNet(others, k);
    NoFloor(m, claims, k);
    NoFloor(ApplyAll(m, claims), others, k);
    NoFloor(m, others, k);
    NoFloor(ApplyAll(ApplyAll(m, claims), others), Negated(claims), k);
  }
}
