/** Maps compared entry by entry. */
module Maps {
  import opened HfTypes

  function Get<K, V>(m: map<K, V>, k: K): Option<V> {
    if k in m then Some(m[k]) else None
  }

  ghost predicate SameMap<K(!new), V>(m: map<K, V>, n: map<K, V>) {
    forall k :: Get(m, k) == Get(n, k)
  }

  lemma SameMapIsEqual<K(!new), V>(m: map<K, V>, n: map<K, V>)
    requires SameMap(m, n)
    ensures m == n
  {
    forall k | k in m ensures k in n && m[k] == n[k] { assert Get(m, k) == Get(n, k); }
    forall k | k in n ensures k in m { assert Get(m, k) == Get(n, k); }
  }
}
