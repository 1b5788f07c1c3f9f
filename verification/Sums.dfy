/** Small facts about sequences and sets that several proofs share. */
module Sequences {

  /** Taking a prefix one element at a time. */
  lemma {:induction false} PrefixStep<T>(done: seq<T>, s: seq<T>, k: nat)
    requires s != [] && k < |s|
    ensures s[..k + 1] == [s[0]] + s[1..][..k]
    ensures s[..k + 1][1..] == s[1..][..k]
    ensures (done + [s[0]]) + s[1..][..k] == done + s[..k + 1]
  {
  }

  lemma {:induction false} SubsetSize<T>(a: set<T>, b: set<T>)
    requires a <= b
    ensures |a| <= |b|
  {
    if a != {} {
      var x :| x in a;
      SubsetSize(a - {x}, b - {x});
    }
  }

  lemma {:induction false} TailAt<T>(s: seq<T>)
    requires s != []
    ensures forall i :: 0 < i < |s| ==> s[i] == s[1..][i - 1]
    ensures forall i :: 0 <= i < |s[1..]| ==> s[1..][i] == s[i + 1]
  {
  }
}

/** Sums over finite maps, with the update and removal laws the ledger proofs use. */
module Sums {

  /** The sum of all values of `m`; the order in which keys are taken does not matter. */
  ghost function SumMap<K>(m: map<K, int>): int
    decreases |m|
  {
    if m == map[] then 0
    else
      var k :| k in m;
      m[k] + SumMap(m - {k})
  }

  /** The value stored under `k`, with a missing key reading as zero. */
  function Get<K(==)>(m: map<K, int>, k: K): int {
    if k in m then m[k] else 0
  }

  lemma {:induction false} SumMapTake<K>(m: map<K, int>, k: K)
    requires k in m
    ensures SumMap(m) == m[k] + SumMap(m - {k})
    decreases |m|
  {
    var p :| p in m && SumMap(m) == m[p] + SumMap(m - {p});
    if p != k {
      SumMapTake(m - {p}, k);
      SumMapTake(m - {k}, p);
      assert (m - {p}) - {k} == (m - {k}) - {p};
    }
  }

  lemma {:induction false} SumMapPut<K>(m: map<K, int>, k: K, v: int)
    ensures SumMap(m[k := v]) == SumMap(m) - Get(m, k) + v
  {
    SumMapTake(m[k := v], k);
    assert m[k := v] - {k} == m - {k};
    if k in m {
      SumMapTake(m, k);
    } else {
      assert m - {k} == m;
    }
  }

  lemma {:induction false} SumMapDrop<K>(m: map<K, int>, k: K)
    ensures SumMap(m - {k}) == SumMap(m) - Get(m, k)
  {
    if k in m {
      SumMapTake(m, k);
    } else {
      assert m - {k} == m;
    }
  }

  lemma {:induction false} SumMapAtLeast<K>(m: map<K, int>, k: K)
    requires k in m
    requires forall i :: i in m ==> m[i] >= 0
    ensures SumMap(m) >= m[k]
    decreases |m|
  {
    SumMapTake(m, k);
    SumMapNonNegative(m - {k});
  }

  lemma {:induction false} SumMapNonNegative<K>(m: map<K, int>)
    requires forall i :: i in m ==> m[i] >= 0
    ensures SumMap(m) >= 0
    decreases |m|
  {
    if m != map[] {
      var k :| k in m && SumMap(m) == m[k] + SumMap(m - {k});
      SumMapNonNegative(m - {k});
    }
  }
}
