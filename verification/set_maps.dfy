/** Maps of sets, as indexes use them: no empty sets under a key, and pairs of maps that are each other's inverse. */
module SetMaps {

  predicate Has<K(!new), V(!new)>(m: map<K, set<V>>, k: K, v: V) {
    k in m && v in m[k]
  }

  function Get<K(!new), V(!new)>(m: map<K, set<V>>, k: K): (s: set<V>)
    ensures forall v :: v in s <==> Has(m, k, v)
  {
    if k in m then m[k] else {}
  }

  /** One element out of the set under a key; an emptied set goes with its key. */
  function Without<K(!new), V(!new)>(m: map<K, set<V>>, k: K, v: V): map<K, set<V>> {
    if k !in m then m
    else if m[k] - {v} == {} then m - {k}
    else m[k := m[k] - {v}]
  }

  function With<K(!new), V(!new)>(m: map<K, set<V>>, k: K, v: V): map<K, set<V>> {
    m[k := Get(m, k) + {v}]
  }

  /** Each map lists under its keys exactly what the other lists under its own. */
  ghost predicate Inverse<K(!new), V(!new)>(m: map<K, set<V>>, n: map<V, set<K>>) {
    forall k, v :: Has(m, k, v) <==> Has(n, v, k)
  }

  ghost predicate NoEmpty<K(!new), V(!new)>(m: map<K, set<V>>) {
    forall k :: k in m ==> m[k] != {}
  }

  ghost function Relation<K(!new), V(!new)>(m: map<K, set<V>>): set<(K, V)> {
    set k, v | k in m && v in m[k] :: (k, v)
  }

  lemma InRelation<K(!new), V(!new)>(m: map<K, set<V>>, k: K, v: V)
    ensures (k, v) in Relation(m) <==> Has(m, k, v)
  {}

  lemma WithoutHas<K(!new), V(!new)>(m: map<K, set<V>>, k: K, v: V)
    ensures forall k', v' :: Has(Without(m, k, v), k', v') <==> Has(m, k', v') && !(k' == k && v' == v)
    ensures NoEmpty(m) ==> NoEmpty(Without(m, k, v))
  {
    forall k', v' ensures Has(Without(m, k, v), k', v') <==> Has(m, k', v') && !(k' == k && v' == v) {
      if k in m && k' == k {
        assert v' in m[k] - {v} <==> v' in m[k] && v' != v;
      }
    }
  }

  lemma WithHas<K(!new), V(!new)>(m: map<K, set<V>>, k: K, v: V)
    ensures forall k', v' :: Has(With(m, k, v), k', v') <==> Has(m, k', v') || (k' == k && v' == v)
    ensures NoEmpty(m) ==> NoEmpty(With(m, k, v))
  {}

  lemma RelationWithout<K(!new), V(!new)>(m: map<K, set<V>>, k: K, v: V)
    ensures Relation(Without(m, k, v)) == Relation(m) - {(k, v)}
  {
    forall h: K, q: V
      ensures (h, q) in Relation(Without(m, k, v)) <==> (h, q) in Relation(m) && (h, q) != (k, v)
    {
      WithoutHas(m, k, v);
      InRelation(m, h, q);
      InRelation(Without(m, k, v), h, q);
    }
  }

  lemma RelationWith<K(!new), V(!new)>(m: map<K, set<V>>, k: K, v: V)
    ensures Relation(With(m, k, v)) == Relation(m) + {(k, v)}
  {}

  lemma InverseWith<K(!new), V(!new)>(m: map<K, set<V>>, n: map<V, set<K>>, k: K, v: V)
    requires Inverse(m, n)
    ensures Inverse(With(m, k, v), With(n, v, k))
    ensures NoEmpty(m) ==> NoEmpty(With(m, k, v))
    ensures NoEmpty(n) ==> NoEmpty(With(n, v, k))
  {
    hide With, Has;
    WithHas(m, k, v);
    WithHas(n, v, k);
  }

  lemma InverseWithout<K(!new), V(!new)>(m: map<K, set<V>>, n: map<V, set<K>>, k: K, v: V)
    requires Inverse(m, n)
    ensures Inverse(Without(m, k, v), Without(n, v, k))
    ensures NoEmpty(m) ==> NoEmpty(Without(m, k, v))
    ensures NoEmpty(n) ==> NoEmpty(Without(n, v, k))
  {
    hide Without, Has;
    WithoutHas(m, k, v);
    WithoutHas(n, v, k);
  }
}
