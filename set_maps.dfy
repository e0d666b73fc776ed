/**
 * Maps whose values are sets, used as one-directional indices: the engine's
 * client -> channels index, its channel -> clients index and its
 * client -> pending messages queues are all of this shape.
 *
 * A map of sets `m` denotes the relation `Holds(m, k, v)`. The operations below
 * are the two in-place edits the engine performs on such a map, written as
 * functions from the old map to the new one; their contracts say how the
 * relation changes and which keys are present afterwards.
 */
module SetMaps {

  /** `v` is a member of the set stored under `k`. */
  predicate Holds<K, V>(m: map<K, set<V>>, k: K, v: V) {
    k in m && v in m[k]
  }

  /** The set stored under `k`, or the empty set when `k` has no entry. */
  function Lookup<K(!new), V(!new)>(m: map<K, set<V>>, k: K): (s: set<V>)
    ensures forall v :: v in s <==> Holds(m, k, v)
  {
    if k in m then m[k] else {}
  }

  /**
   * Lazily create the set under `k`, then add `v` to it
   * (the `m[k] ||= Set.new; m[k].add(v)` idiom).
   */
  function Insert<K(!new), V(!new)>(m: map<K, set<V>>, k: K, v: V): (r: map<K, set<V>>)
    ensures r.Keys == m.Keys + {k}
    ensures forall k', v' :: Holds(r, k', v') <==> Holds(m, k', v') || (k' == k && v' == v)
  {
    m[k := Lookup(m, k) + {v}]
  }

  /**
   * Remove `v` from the set under `k` if that set exists
   * (the `m[k].delete(v) if m.has_key?(k)` idiom). No key is ever dropped,
   * so a set emptied this way stays behind as an empty entry.
   */
  function Remove<K(!new), V(!new)>(m: map<K, set<V>>, k: K, v: V): (r: map<K, set<V>>)
    ensures r.Keys == m.Keys
    ensures forall k', v' :: Holds(r, k', v') <==> Holds(m, k', v') && !(k' == k && v' == v)
    ensures k !in m ==> r == m
  {
    if k in m then m[k := m[k] - {v}] else m
  }

  /** Remove `v` from the set under every key of `ks` that has an entry. */
  function RemoveFrom<K(!new), V(!new)>(m: map<K, set<V>>, ks: set<K>, v: V): (r: map<K, set<V>>)
    ensures r.Keys == m.Keys
    ensures forall k', v' :: Holds(r, k', v') <==> Holds(m, k', v') && !(k' in ks && v' == v)
  {
    map k | k in m :: if k in ks then m[k] - {v} else m[k]
  }

  /** Two maps of sets with the same keys and the same relation are equal. */
  lemma Extensionality<K, V>(a: map<K, set<V>>, b: map<K, set<V>>)
    requires a.Keys == b.Keys
    requires forall k, v :: Holds(a, k, v) <==> Holds(b, k, v)
    ensures a == b
  {
    forall k | k in a
      ensures a[k] == b[k]
    {
      assert forall v :: v in a[k] <==> Holds(a, k, v);
      assert forall v :: v in b[k] <==> Holds(b, k, v);
    }
  }

  /** Inserting a pair that is already present changes nothing. */
  lemma InsertIdempotent<K(!new), V(!new)>(m: map<K, set<V>>, k: K, v: V)
    ensures Insert(Insert(m, k, v), k, v) == Insert(m, k, v)
  {
  }

  /** Removing a pair twice is the same as removing it once. */
  lemma RemoveIdempotent<K(!new), V(!new)>(m: map<K, set<V>>, k: K, v: V)
    ensures Remove(Remove(m, k, v), k, v) == Remove(m, k, v)
  {
    Extensionality(Remove(Remove(m, k, v), k, v), Remove(m, k, v));
  }

  /**
   * Removing a freshly inserted pair restores the relation, but not the map:
   * a key that had no entry before the insertion keeps an empty set.
   */
  lemma RemoveUndoesInsert<K(!new), V(!new)>(m: map<K, set<V>>, k: K, v: V)
    requires !Holds(m, k, v)
    ensures Remove(Insert(m, k, v), k, v) == m[k := Lookup(m, k)]
    ensures k !in m ==> Remove(Insert(m, k, v), k, v) != m
  {
  }

  /** Removing from no key at all leaves the map as it is. */
  lemma RemoveFromNothing<K(!new), V(!new)>(m: map<K, set<V>>, v: V)
    ensures RemoveFrom(m, {}, v) == m
  {
  }

  /** One more single removal extends a cumulative removal by one key. */
  lemma RemoveFromStep<K(!new), V(!new)>(m: map<K, set<V>>, ks: set<K>, k: K, v: V)
    ensures Remove(RemoveFrom(m, ks, v), k, v) == RemoveFrom(m, ks + {k}, v)
  {
    Extensionality(Remove(RemoveFrom(m, ks, v), k, v), RemoveFrom(m, ks + {k}, v));
  }
}
