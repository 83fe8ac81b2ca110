/** Option, and sums over finite maps: the one piece of arithmetic that the send
    quota ledger, the AI spend ledger and the outbox potential all need. */
module Collections {

  datatype Option<+T> = None | Some(value: T)

  /** The sum of a finite map's values, taken in an arbitrary order. */
  ghost function Sum<K>(m: map<K, int>): int
    decreases |m|
  {
    if m == map[] then 0
    else
      var k :| k in m;
      m[k] + Sum(m - {k})
  }

  /** The arbitrary order does not matter: any key may be split off first. */
  lemma {:induction false} SumSplit<K>(m: map<K, int>, k: K)
    requires k in m
    ensures Sum(m) == m[k] + Sum(m - {k})
    decreases |m|
  {
    var first :| first in m && Sum(m) == m[first] + Sum(m - {first});
    if first != k {
      var both := m - {first} - {k};
      SumSplit(m - {first}, k);
      SumSplit(m - {k}, first);
      assert m - {k} - {first} == both;
    }
  }

  /** Writing one key moves the sum by exactly that key's change. */
  lemma SumUpdate<K>(m: map<K, int>, k: K, v: int)
    ensures Sum(m[k := v]) == Sum(m) + v - (if k in m then m[k] else 0)
  {
    SumSplit(m[k := v], k);
    if k in m {
      SumSplit(m, k);
      assert m[k := v] - {k} == m - {k};
    } else {
      assert m[k := v] - {k} == m;
    }
  }

  lemma {:induction false} SumNonNegative<K>(m: map<K, int>)
    requires forall i :: i in m ==> m[i] >= 0
    ensures Sum(m) >= 0
    decreases |m|
  {
    if m != map[] {
      var k :| k in m;
      SumSplit(m, k);
      SumNonNegative(m - {k});
    }
  }

  lemma {:induction false} SumAtMost<K>(m: map<K, int>, top: nat)
    requires forall k :: k in m ==> m[k] <= top
    ensures Sum(m) <= top * |m|
    decreases |m|
  {
    if m == map[] {
    } else {
      var k :| k in m;
      SumSplit(m, k);
      assert (m - {k}).Keys == m.Keys - {k};
      assert |m - {k}| == |m| - 1;
      SumAtMost(m - {k}, top);
      assert top * (|m| - 1) + top == top * |m|;
    }
  }

  /** Pointwise order carries over to sums of maps with one domain. */
  lemma {:induction false} SumMonotone<K>(m: map<K, int>, n: map<K, int>)
    requires m.Keys <= n.Keys
    requires forall k :: k in m ==> m[k] <= n[k]
    requires forall k :: k in n ==> n[k] >= 0
    ensures Sum(m) <= Sum(n)
    decreases |m|
  {
    if m == map[] {
      SumNonNegative(n);
    } else {
      var k :| k in m;
      SumSplit(m, k);
      SumSplit(n, k);
      SumMonotone(m - {k}, n - {k});
    }
  }

  lemma UnionSplit<K>(m: map<K, int>, n: map<K, int>, k: K)
    requires m.Keys !! n.Keys && k in n
    ensures Sum(m + n) == n[k] + Sum(m + (n - {k}))
  {
    assert (m + n) - {k} == m + (n - {k});
    SumSplit(m + n, k);
  }

  /** Sums over disjoint maps add up. */
  lemma {:induction false} SumUnion<K>(m: map<K, int>, n: map<K, int>)
    requires m.Keys !! n.Keys
    ensures Sum(m + n) == Sum(m) + Sum(n)
    decreases n.Keys
  {
    if n == map[] {
      assert m + n == m;
    } else {
      var k :| k in n;
      UnionSplit(m, n, k);
      SumUnion(m, n - {k});
      SumSplit(n, k);
    }
  }

  lemma UnionSize<K>(m: map<K, int>, n: map<K, int>)
    requires m.Keys !! n.Keys
    ensures |m + n| == |m| + |n|
  {
    assert (m + n).Keys == m.Keys + n.Keys;
    assert |m.Keys + n.Keys| == |m.Keys| + |n.Keys|;
  }

  /** A set of naturals below n has at most n members. */
  lemma {:induction false} SizeBelow(s: set<nat>, n: nat)
    requires forall i :: i in s ==> i < n
    ensures |s| <= n
  {
    if n == 0 {
      assert s == {};
    } else {
      SizeBelow(s - {n - 1}, n - 1);
    }
  }

  lemma SubsetSize<T>(s: set<T>, t: set<T>)
    requires s <= t
    ensures |s| <= |t|
    ensures |s| == |t| ==> s == t
  {
    assert t == s + (t - s);
  }
}
