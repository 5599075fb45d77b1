/** A map that can be looked up from both sides, kept as two ordinary maps. */
module BiMap {
  import opened Options

  datatype Bi<K, V> = Bi(forward: map<K, V>, reverse: map<V, K>)

  /** The two maps are exact inverses. */
  ghost predicate Inverse<K, V>(b: Bi<K, V>) {
    && (forall k :: k in b.forward ==> b.forward[k] in b.reverse && b.reverse[b.forward[k]] == k)
    && (forall v :: v in b.reverse ==> b.reverse[v] in b.forward && b.forward[b.reverse[v]] == v)
  }

  /** Reference model: a set of pairs. */
  ghost function Pairs<K, V>(b: Bi<K, V>): set<(K, V)> { set k | k in b.forward :: (k, b.forward[k]) }

  /** Record `k` and `v`, displacing first the old partner of `v`, then that of `k`. */
  function Insert<K(==), V(==)>(b: Bi<K, V>, k: K, v: V): Bi<K, V> {
    var f1 := if v in b.reverse then b.forward - {b.reverse[v]} else b.forward;
    var r1 := b.reverse[v := k];
    Bi(f1[k := v], if k in f1 then r1 - {f1[k]} else r1)
  }

  function RemoveKey<K(==), V(==)>(b: Bi<K, V>, k: K): Bi<K, V> {
    if k in b.forward then Bi(b.forward - {k}, b.reverse - {b.forward[k]}) else b
  }

  function RemoveValue<K(==), V(==)>(b: Bi<K, V>, v: V): Bi<K, V> {
    if v in b.reverse then Bi(b.forward - {b.reverse[v]}, b.reverse - {v}) else b
  }

  /** Inserting keeps the maps inverse and leaves exactly the pairs that clash with
      neither the key nor the value, and the new one. */
  lemma InsertPairs<K, V>(b: Bi<K, V>, k: K, v: V)
    requires Inverse(b)
    ensures Inverse(Insert(b, k, v))
    ensures Pairs(Insert(b, k, v)) == (set p | p in Pairs(b) && p.0 != k && p.1 != v) + {(k, v)}
  {
    var b' := Insert(b, k, v);
    forall p ensures p in Pairs(b') <==> (p in Pairs(b) && p.0 != k && p.1 != v) || p == (k, v) {
      InPairs(b, p);
      InPairs(b', p);
    }
  }

  lemma InPairs<K, V>(b: Bi<K, V>, p: (K, V))
    ensures p in Pairs(b) <==> p.0 in b.forward && b.forward[p.0] == p.1
  {
    assert p == (p.0, p.1);
  }

  lemma RemovePairs<K, V>(b: Bi<K, V>, k: K, v: V)
    requires Inverse(b)
    ensures Inverse(RemoveKey(b, k)) && Pairs(RemoveKey(b, k)) == set p | p in Pairs(b) && p.0 != k
    ensures Inverse(RemoveValue(b, v)) && Pairs(RemoveValue(b, v)) == set p | p in Pairs(b) && p.1 != v
  {
    forall p ensures p in Pairs(RemoveKey(b, k)) <==> p in Pairs(b) && p.0 != k { InPairs(b, p); InPairs(RemoveKey(b, k), p); }
    forall p ensures p in Pairs(RemoveValue(b, v)) <==> p in Pairs(b) && p.1 != v { InPairs(b, p); InPairs(RemoveValue(b, v), p); }
  }

  /** Both lookups agree with the pairs. */
  lemma LookupPairs<K, V>(b: Bi<K, V>, k: K, v: V)
    requires Inverse(b)
    ensures (k in b.forward && b.forward[k] == v) <==> (k, v) in Pairs(b)
    ensures (v in b.reverse && b.reverse[v] == k) <==> (k, v) in Pairs(b)
  {
  }

  class BiBTreeMap<K(==), V(==)> {
    var forward: map<K, V>
    var reverse: map<V, K>

    ghost function View(): Bi<K, V>
      reads this
    {
      Bi(forward, reverse)
    }

    constructor ()
      ensures forward == map[] && reverse == map[]
    {
      forward, reverse := map[], map[];
    }

    method Put(k: K, v: V)
      requires Inverse(View())
      modifies this
      ensures View() == Insert(old(View()), k, v) && Inverse(View())
    {
      InsertPairs(View(), k, v);
      var displaced := if v in reverse then Some(reverse[v]) else None;
      reverse := reverse[v := k];
      if displaced.Some? {
        forward := forward - {displaced.value};
      }
      var previous := if k in forward then Some(forward[k]) else None;
      forward := forward[k := v];
      if previous.Some? {
        reverse := reverse - {previous.value};
      }
    }

    method TakeByKey(k: K) returns (r: Option<V>)
      requires Inverse(View())
      modifies this
      ensures View() == RemoveKey(old(View()), k) && Inverse(View())
      ensures r == if k in old(forward) then Some(old(forward)[k]) else None
    {
      if k !in forward {
        return None;
      }
      r := Some(forward[k]);
      forward := forward - {k};
      reverse := reverse - {r.value};
    }

    method TakeByValue(v: V) returns (r: Option<K>)
      requires Inverse(View())
      modifies this
      ensures View() == RemoveValue(old(View()), v) && Inverse(View())
      ensures r == if v in old(reverse) then Some(old(reverse)[v]) else None
    {
      if v !in reverse {
        return None;
      }
      r := Some(reverse[v]);
      reverse := reverse - {v};
      forward := forward - {r.value};
    }
  }
}
