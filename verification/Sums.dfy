/** Sums of a weight over the entries of a finite map, and how they change when one entry does. */
module Sums {
  ghost function Sum<K(!new), V(!new)>(m: map<K, V>, f: (K, V) -> nat): nat
    decreases m.Keys
  {
    if m == map[] then 0
    else
      var k :| k in m;
      f(k, m[k]) + Sum(m - {k}, f)
  }

  /** A weight that counts only when a condition holds. */
  function When(c: bool, n: nat): nat {
    if c then n else 0
  }

  /** Any entry can be taken out first, not only the one `Sum` happens to choose. */
  lemma {:induction false} SumSplit<K(!new), V(!new)>(m: map<K, V>, f: (K, V) -> nat, k: K)
    requires k in m
    ensures Sum(m, f) == f(k, m[k]) + Sum(m - {k}, f)
    decreases m.Keys
  {
    var k0 :| k0 in m && Sum(m, f) == f(k0, m[k0]) + Sum(m - {k0}, f);
    if k0 != k {
      SumSplit(m - {k0}, f, k);
      SumSplit(m - {k}, f, k0);
      assert m - {k0} - {k} == m - {k} - {k0};
    }
  }

  /** Removing an entry takes its weight off every sum. */
  lemma SumDrop<K(!new), V(!new)>(m: map<K, V>, k: K)
    requires k in m
    ensures forall f: (K, V) -> nat :: Sum(m, f) == f(k, m[k]) + Sum(m - {k}, f)
  {
    forall f: (K, V) -> nat {
      SumSplit(m, f, k);
    }
  }

  /** Writing an entry replaces the old entry's weight by the new one's in every sum. */
  lemma SumPut<K(!new), V(!new)>(m: map<K, V>, k: K, v: V)
    ensures forall f: (K, V) -> nat ::
              Sum(m[k := v], f) + (if k in m then f(k, m[k]) else 0) == Sum(m, f) + f(k, v)
  {
    forall f: (K, V) -> nat
      ensures Sum(m[k := v], f) + (if k in m then f(k, m[k]) else 0) == Sum(m, f) + f(k, v)
    {
      SumSplit(m[k := v], f, k);
      assert m[k := v] - {k} == m - {k};
      if k in m {
        SumSplit(m, f, k);
      } else {
        assert m - {k} == m;
      }
    }
  }

  /** A pointwise larger weight has the larger sum. */
  lemma {:induction false} SumMonotone<K(!new), V(!new)>(m: map<K, V>, f: (K, V) -> nat, g: (K, V) -> nat)
    requires forall k :: k in m ==> f(k, m[k]) <= g(k, m[k])
    ensures Sum(m, f) <= Sum(m, g)
    decreases m.Keys
  {
    if m != map[] {
      var k :| k in m;
      SumSplit(m, f, k);
      SumSplit(m, g, k);
      SumMonotone(m - {k}, f, g);
    }
  }

  lemma {:induction false} SumZero<K(!new), V(!new)>(m: map<K, V>, f: (K, V) -> nat)
    ensures Sum(m, f) == 0 <==> forall k :: k in m ==> f(k, m[k]) == 0
    decreases m.Keys
  {
    if m != map[] {
      var k :| k in m;
      SumSplit(m, f, k);
      SumZero(m - {k}, f);
      assert forall j :: j in m <==> j == k || j in m - {k};
      assert forall j :: j in m - {k} ==> (m - {k})[j] == m[j];
    }
  }

  /** A weight of one on some entries and nothing on the rest counts them. */
  lemma {:induction false} SumCounts<K(!new), V(!new)>(m: map<K, V>, f: (K, V) -> nat, s: set<K>)
    requires s <= m.Keys
    requires forall k :: k in m ==> f(k, m[k]) == if k in s then 1 else 0
    ensures Sum(m, f) == |s|
    decreases m.Keys
  {
    if m == map[] {
      assert s == {};
    } else {
      var k :| k in m;
      SumSplit(m, f, k);
      SumCounts(m - {k}, f, s - {k});
    }
  }
}
