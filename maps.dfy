/** Restricting a map to some keys or away from them, for any key and value type. */
module Maps {
  /** m without the keys in ks. */
  function Without<K, V>(m: map<K, V>, ks: set<K>): map<K, V> {
    map k | k in m && k !in ks :: m[k]
  }

  /** m restricted to the keys in ks. */
  function Only<K, V>(m: map<K, V>, ks: set<K>): map<K, V> {
    map k | k in m && k in ks :: m[k]
  }

  lemma {:induction false} WithoutNothing<K, V>(m: map<K, V>)
    ensures Without(m, {}) == m
  {
  }

  lemma {:induction false} OnlyNothing<K, V>(m: map<K, V>, n: map<K, V>)
    ensures n + Only(m, {}) == n
  {
    assert Only(m, {}) == map[];
  }

  lemma {:induction false} WithoutStep<K, V>(m: map<K, V>, ks: set<K>, k: K)
    ensures Without(Without(m, ks), {k}) == Without(m, ks + {k})
  {
  }

  lemma {:induction false} OnlyStep<K, V>(m: map<K, V>, n: map<K, V>, ks: set<K>, k: K)
    requires k in m && k !in ks
    ensures n + Only(m, ks) + Only(Without(m, ks), {k}) == n + Only(m, ks + {k})
  {
    var l := n + Only(m, ks) + Only(Without(m, ks), {k});
    var r := n + Only(m, ks + {k});
    assert l.Keys == r.Keys;
    forall j | j in l ensures l[j] == r[j] {
      if j == k {
      } else if j in ks && j in m {
      }
    }
  }

  lemma {:induction false} WithoutOne<K, V>(m: map<K, V>, k: K)
    ensures Without(m, {k}) == m - {k}
  {
  }

  lemma {:induction false} OnlyOne<K, V>(m: map<K, V>, n: map<K, V>, k: K)
    requires k in m
    ensures n + Only(m, {k}) == n[k := m[k]]
  {
    assert Only(m, {k}) == map[k := m[k]];
  }

  /** Updating two keys again overwrites the first updates. */
  lemma {:induction false} UpdateAgain<K, V>(m: map<K, V>, a: K, b: K, x: V, y: V, x2: V, y2: V)
    requires a != b
    ensures m[a := x][b := y][a := x2][b := y2] == m[a := x2][b := y2]
  {
  }

  /** Putting back the values a map already holds changes nothing. */
  lemma {:induction false} UpdateSame<K, V>(m: map<K, V>, a: K, b: K)
    requires a in m && b in m
    ensures m[a := m[a]][b := m[b]] == m
  {
  }

  /** Taking a key out and putting its value back changes nothing. */
  lemma {:induction false} RemoveRestore<K, V>(m: map<K, V>, k: K)
    requires k in m
    ensures (m - {k})[k := m[k]] == m
  {
  }

  lemma {:induction false} UpdateOne<K, V>(m: map<K, V>, a: K)
    requires a in m
    ensures m[a := m[a]] == m
  {
  }

  /** Two maps with the same keys and the same value at each key are equal. */
  lemma {:induction false} SameEntries<K, V>(a: map<K, V>, b: map<K, V>)
    requires forall k :: k in a <==> k in b
    requires forall k :: k in a ==> a[k] == b[k]
    ensures a == b
  {
  }
}
