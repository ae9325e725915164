/** The sum of the values of a finite map, and how it moves when one entry does. */
module MapSum {

  ghost function Pick<K>(m: map<K, nat>): (k: K)
    requires m != map[]
    ensures k in m
  {
    assert m.Keys != {};
    var k :| k in m.Keys; k
  }

  ghost function Sum<K>(m: map<K, nat>): nat
    decreases |m|
  {
    if m == map[] then 0
    else
      var k := Pick(m);
      assert (m - {k}).Keys == m.Keys - {k};
      m[k] + Sum(m - {k})
  }

  lemma {:induction false} SumRemove<K>(m: map<K, nat>, k: K)
    requires k in m
    ensures Sum(m) == m[k] + Sum(m - {k})
    decreases |m|
  {
    var j := Pick(m);
    if j != k {
      assert (m - {j}).Keys == m.Keys - {j} && (m - {k}).Keys == m.Keys - {k};
      SumRemove(m - {j}, k);
      SumRemove(m - {k}, j);
      assert (m - {j}) - {k} == (m - {k}) - {j};
    }
  }

  lemma SumPut<K>(m: map<K, nat>, k: K, v: nat)
    ensures Sum(m[k := v]) == Sum(m) - (if k in m then m[k] else 0) + v
  {
    SumRemove(m[k := v], k);
    if k in m {
      SumRemove(m, k);
      assert m[k := v] - {k} == m - {k};
    } else {
      assert m[k := v] - {k} == m;
    }
  }

  ghost predicate Submap<K>(a: map<K, nat>, b: map<K, nat>)
  {
    forall k | k in a :: k in b && a[k] == b[k]
  }

  lemma {:induction false} SumMonotone<K>(a: map<K, nat>, b: map<K, nat>)
    requires Submap(a, b)
    ensures Sum(a) <= Sum(b)
    decreases |a|
  {
    if a != map[] {
      var k := Pick(a);
      assert (a - {k}).Keys == a.Keys - {k};
      SumMonotone(a - {k}, b - {k});
      SumRemove(b, k);
    }
  }

  /** The second map has every non-zero entry of the first. */
  ghost predicate Includes<K(!new)>(b: map<K, nat>, a: map<K, nat>)
  {
    forall k | k in a && a[k] != 0 :: k in b && b[k] == a[k]
  }

  lemma RemoveBoth<K(!new)>(a: map<K, nat>, b: map<K, nat>, k: K)
    requires Includes(b, a)
    ensures Includes(b - {k}, a - {k})
  {
  }

  lemma SumWithout<K>(m: map<K, nat>, k: K)
    ensures Sum(m) == Sum(m - {k}) + (if k in m then m[k] else 0)
    ensures k in m ==> |m - {k}| < |m|
    ensures |m - {k}| <= |m|
  {
    if k in m {
      SumRemove(m, k);
      assert (m - {k}).Keys == m.Keys - {k};
    } else {
      assert m - {k} == m;
    }
  }

  /** Entries whose value is zero do not count: maps that agree up to them have one sum. */
  lemma {:induction false} SumAgrees<K(!new)>(a: map<K, nat>, b: map<K, nat>)
    requires Includes(b, a) && Includes(a, b)
    ensures Sum(a) == Sum(b)
    decreases |a| + |b|
  {
    if a != map[] || b != map[] {
      var k := if a != map[] then Pick(a) else Pick(b);
      SumWithout(a, k);
      SumWithout(b, k);
      RemoveBoth(a, b, k);
      RemoveBoth(b, a, k);
      SumAgrees(a - {k}, b - {k});
    }
  }
}
