/** Totals over the entries of a finite map: an integer sum and a multiset union. */
module Aggregates {

  /** Multiset union and difference, named so that a proof can set their meaning aside. */
  ghost function Plus<V>(a: multiset<V>, b: multiset<V>): multiset<V> { a + b }

  ghost function Minus<V>(a: multiset<V>, b: multiset<V>): multiset<V> { a - b }

  lemma PlusLaws<V>(a: multiset<V>, b: multiset<V>, c: multiset<V>)
    ensures Plus(Plus(a, b), c) == Plus(a, Plus(b, c))
    ensures Plus(a, b) == Plus(b, a)
    ensures Plus(a, multiset{}) == a
  {
  }

  lemma MinusLaws<V>(a: multiset<V>, b: multiset<V>, c: multiset<V>)
    ensures Minus(Minus(a, b), c) == Minus(a, Plus(b, c))
    ensures Minus(Plus(a, b), b) == a
  {
  }

  /** The multiset union of all values of `m`. */
  ghost function Bag<K, V>(m: map<K, multiset<V>>): multiset<V> {
    if m == map[] then multiset{} else var k :| k in m; Plus(m[k], Bag(m - {k}))
  }

  lemma {:induction false} BagRemove<K, V>(m: map<K, multiset<V>>, k: K)
    requires k in m
    ensures Bag(m) == Plus(m[k], Bag(m - {k}))
    decreases |m|
  {
    hide Plus;
    var c :| c in m && Bag(m) == Plus(m[c], Bag(m - {c}));
    if c != k {
      BagRemove(m - {c}, k);
      BagRemove(m - {k}, c);
      assert m - {c} - {k} == m - {k} - {c};
      PlusLaws(m[c], m[k], Bag(m - {c} - {k}));
      PlusLaws(m[k], m[c], Bag(m - {c} - {k}));
    }
  }

  lemma BagInsert<K, V>(m: map<K, multiset<V>>, k: K, b: multiset<V>)
    requires k !in m
    ensures Bag(m[k := b]) == Plus(b, Bag(m))
  {
    hide Plus;
    BagRemove(m[k := b], k);
    assert m[k := b] - {k} == m;
  }

  /** The sum of all values of `m`. */
  ghost function Sum<K>(m: map<K, int>): int {
    if m == map[] then 0 else var k :| k in m; m[k] + Sum(m - {k})
  }

  lemma {:induction false} SumRemove<K>(m: map<K, int>, k: K)
    requires k in m
    ensures Sum(m) == m[k] + Sum(m - {k})
    decreases |m|
  {
    var c :| c in m && Sum(m) == m[c] + Sum(m - {c});
    if c != k {
      SumRemove(m - {c}, k);
      SumRemove(m - {k}, c);
      assert m - {c} - {k} == m - {k} - {c};
    }
  }

  lemma SumUpdate<K>(m: map<K, int>, k: K, v: int)
    ensures Sum(m[k := v]) == Sum(m) - (if k in m then m[k] else 0) + v
  {
    SumRemove(m[k := v], k);
    if k in m {
      SumRemove(m, k);
      assert m[k := v] - {k} == m - {k};
    } else {
      assert m[k := v] - {k} == m;
    }
  }

  /** Entrywise bounds carry over to the sums. */
  lemma {:induction false} SumMonotone<K>(m: map<K, int>, n: map<K, int>)
    requires m.Keys == n.Keys
    requires forall k :: k in m ==> m[k] <= n[k]
    ensures Sum(m) <= Sum(n)
    decreases |m|
  {
    if m != map[] {
      var c :| c in m && Sum(m) == m[c] + Sum(m - {c});
      SumRemove(n, c);
      SumMonotone(m - {c}, n - {c});
    } else {
      assert n == map[];
    }
  }

  lemma {:induction false} SumConstant<K>(m: map<K, int>, v: int)
    requires forall k :: k in m ==> m[k] == v
    ensures Sum(m) == v * |m|
    decreases |m|
  {
    if m != map[] {
      var c :| c in m && Sum(m) == m[c] + Sum(m - {c});
      SumConstant(m - {c}, v);
      assert |m - {c}| == |m| - 1;
    }
  }

  // ----- sizes

  ghost function Below(n: nat): set<int> {
    set i {:trigger IsBelow(i, n)} | 0 <= i < n && IsBelow(i, n)
  }

  ghost predicate IsBelow(i: int, n: int) { i < n }

  lemma {:induction false} InitialSegmentSize(n: nat)
    ensures |Below(n)| == n
  {
    if n > 0 {
      InitialSegmentSize(n - 1);
      assert Below(n) == Below(n - 1) + {n - 1};
    }
  }

  lemma SubsetSize<T>(a: set<T>, b: set<T>)
    requires a <= b
    ensures |a| <= |b|
  {
    assert b == a + (b - a);
  }

  /** A map has at least as many keys as it takes to reach every element of `targets`. */
  lemma {:induction false} KeysReaching<K, V>(m: map<K, V>, targets: set<V>)
    requires forall v :: v in targets ==> exists k :: k in m && m[k] == v
    ensures |targets| <= |m|
    decreases |targets|
  {
    if v :| v in targets {
      var k :| k in m && m[k] == v;
      forall w | w in targets - {v}
        ensures exists l :: l in m - {k} && (m - {k})[l] == w
      {
        var l :| l in m && m[l] == w;
        assert l in m - {k};
      }
      KeysReaching(m - {k}, targets - {v});
    }
  }

  lemma {:induction false} InjectiveSize<K, V>(m: map<K, V>)
    requires forall i, j :: i in m && j in m && i != j ==> m[i] != m[j]
    ensures |m.Values| == |m|
    decreases |m|
  {
    if m != map[] {
      var k :| k in m;
      InjectiveSize(m - {k});
      forall v | v in m.Values
        ensures v == m[k] || v in (m - {k}).Values
      {
        var i :| i in m && m[i] == v;
        assert i != k ==> i in m - {k} && (m - {k})[i] == v;
      }
      assert m.Values == (m - {k}).Values + {m[k]};
    }
  }
}
