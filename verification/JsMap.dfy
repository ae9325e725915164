/**
 A JavaScript `Map`: lookups by key, iteration in the order in which keys were first set.
 Setting a key that is present keeps its place.
 */
module JsMap {
  import opened Options

  datatype JsMap<K(==), V> = JsMap(order: seq<K>, at: map<K, V>)
  {
    ghost predicate Valid()
    {
      && (forall k | k in order :: k in at)
      && (forall k | k in at :: k in order)
      && (forall i, j | 0 <= i < j < |order| :: order[i] != order[j])
    }

    function Get(k: K): (r: Option<V>)
    {
      if k in at then Some(at[k]) else None
    }

    function Set(k: K, v: V): (r: JsMap<K, V>)
      ensures Valid() ==> r.Valid()
    {
      JsMap(if k in at then order else order + [k], at[k := v])
    }

    /** The entries are these, under these keys, in this order. */
    ghost predicate Lists(keys: seq<K>, vs: seq<V>)
    {
      && order == keys && |keys| == |vs|
      && (forall i | 0 <= i < |keys| :: keys[i] in at && at[keys[i]] == vs[i])
      && (forall k | k in at :: k in keys)
    }

    /** A key that is not there yet goes to the end. */
    lemma ListsPush(keys: seq<K>, vs: seq<V>, k: K, v: V)
      requires Lists(keys, vs) && k !in keys
      ensures Set(k, v).Lists(keys + [k], vs + [v])
    {
    }

    /** What iterating `values()` lists. */
    function Values(): (vs: seq<V>)
      requires Valid()
      ensures |vs| == |order|
      ensures forall i | 0 <= i < |vs| :: vs[i] == at[order[i]]
    {
      seq(|order|, i requires 0 <= i < |order| => at[order[i]])
    }
  }

  function Empty<K(==), V>(): (m: JsMap<K, V>)
    ensures m.Valid()
  {
    JsMap([], map[])
  }
}
