/** Shared vocabulary: optional values and counting the entries of a map. */
module Base {

  datatype Option<+T> = None | Some(value: T)

  /** The keys of the entries of m whose value satisfies p. */
  function Keys<K, V>(m: map<K, V>, p: V -> bool): set<K> {
    set k | k in m && p(m[k])
  }

  /** How many entries of m have a value that satisfies p. */
  function CountIf<K, V>(m: map<K, V>, p: V -> bool): nat {
    |Keys(m, p)|
  }

  function Indicator(b: bool): nat {
    if b then 1 else 0
  }

  lemma Without<T>(s: set<T>, x: T)
    ensures |s| == |s - {x}| + Indicator(x in s)
  {
    if x in s { assert s == (s - {x}) + {x}; } else { assert s == s - {x}; }
  }

  /** Writing one entry changes a count by what is put in, less what was there. */
  lemma CountIfUpdate<K, V>(m: map<K, V>, k: K, v: V, p: V -> bool)
    ensures CountIf(m[k := v], p)
         == CountIf(m, p) - Indicator(k in m && p(m[k])) + Indicator(p(v))
  {
    var n := m[k := v];
    Without(Keys(m, p), k);
    Without(Keys(n, p), k);
    assert k in Keys(n, p) <==> p(v);
    forall x ensures x in Keys(m, p) - {k} <==> x in Keys(n, p) - {k} {
      assert x != k ==> (x in m <==> x in n);
    }
    assert Keys(m, p) - {k} == Keys(n, p) - {k};
  }

  /** Removing one entry lowers a count by what was there. */
  lemma CountIfRemove<K, V>(m: map<K, V>, k: K, p: V -> bool)
    ensures CountIf(m - {k}, p) == CountIf(m, p) - Indicator(k in m && p(m[k]))
  {
    Without(Keys(m, p), k);
    assert Keys(m - {k}, p) == Keys(m, p) - {k};
  }

  /** A count is positive as soon as one entry qualifies. */
  lemma CountIfPositive<K, V>(m: map<K, V>, k: K, p: V -> bool)
    requires k in m && p(m[k])
    ensures CountIf(m, p) > 0
  {
    Without(Keys(m, p), k);
  }

  /** Counting with a stronger condition counts no more. */
  lemma CountIfMonotone<K, V>(m: map<K, V>, p: V -> bool, q: V -> bool)
    requires forall k | k in m :: p(m[k]) ==> q(m[k])
    ensures CountIf(m, p) <= CountIf(m, q)
  {
    SubsetSize(Keys(m, p), Keys(m, q));
  }

  lemma SubsetSize<T>(a: set<T>, b: set<T>)
    requires a <= b
    ensures |a| <= |b|
  {
    assert b == a + (b - a);
  }
}
