/** Rank-based AUC, `_auc` in `ml/training/train.py`: the sort is a parameter (any order that sorts the
    scores), the ranks are filled in place, arithmetic is exact. */
module RankAuc {
  import opened Sequences
  import opened Sums

  datatype Score = NotANumber | Value(v: real)

  ghost predicate IsPermutation(order: seq<nat>) {
    && (forall k :: 0 <= k < |order| ==> order[k] < |order|)
    && (forall k, m :: 0 <= k < m < |order| ==> order[k] != order[m])
    && (forall i: nat :: i < |order| ==> i in order)
  }

  /** `order` lists the indices of `p` in ascending score; ties in any order. */
  ghost predicate Sorts(p: seq<real>, order: seq<nat>) {
    |order| == |p| && IsPermutation(order) && forall k, m :: 0 <= k < m < |order| ==> p[order[k]] <= p[order[m]]
  }

  /** The 1-based position of `i` in the order. */
  ghost function Rank(order: seq<nat>, i: nat): (r: nat)
    requires IsPermutation(order) && i < |order|
    ensures 1 <= r <= |order| && order[r - 1] == i
  {
    assert i in order;
    var k: nat :| k < |order| && order[k] == i;
    k + 1
  }

  lemma {:induction false} RankAt(order: seq<nat>, k: nat)
    requires IsPermutation(order) && k < |order|
    ensures Rank(order, order[k]) == k + 1
  {
    var m := Rank(order, order[k]) - 1;
    hide Rank;
    assert order[m] == order[k];
  }

  /** Pairs of a negative and a positive in which the positive sorts later. */
  ghost function LaterPairs(y: seq<int>, order: seq<nat>): set<(nat, nat)>
    requires IsPermutation(order) && |order| == |y|
  {
    PairsUpTo(y, order, |y|)
  }

  ghost function PairsUpTo(y: seq<int>, order: seq<nat>, k: nat): set<(nat, nat)>
    requires IsPermutation(order) && |order| == |y|
  {
    set i: nat, j: nat | i < |y| && j < |y| && y[i] != 1 && y[j] == 1 && Rank(order, i) < Rank(order, j) <= k :: (i, j)
  }

  ghost function NegativesUpTo(y: seq<int>, order: seq<nat>, k: nat): set<nat>
    requires IsPermutation(order) && |order| == |y|
  {
    set i: nat | i < |y| && y[i] != 1 && Rank(order, i) <= k
  }

  ghost function PositivesUpTo(y: seq<int>, order: seq<nat>, k: nat): set<nat>
    requires IsPermutation(order) && |order| == |y|
  {
    set i: nat | i < |y| && y[i] == 1 && Rank(order, i) <= k
  }

  /** Pairs of a negative and a positive with a strictly higher score. */
  ghost function HigherPairs(y: seq<int>, p: seq<real>): set<(nat, nat)>
    requires |p| == |y|
  {
    set i: nat, j: nat | i < |y| && j < |y| && y[i] != 1 && y[j] == 1 && p[i] < p[j] :: (i, j)
  }

  ghost function Negatives(y: seq<int>): set<nat> { set i: nat | i < |y| && y[i] != 1 }

  ghost function Positives(y: seq<int>): set<nat> { set i: nat | i < |y| && y[i] == 1 }

  // ---------------------------------------------------------------------------
  // The rank-sum identity, one sorted position at a time
  // ---------------------------------------------------------------------------

  /** The sum of the ranks of the positives among the first `k` positions. */
  ghost function RankSum(y: seq<int>, order: seq<nat>, k: nat): nat
    requires IsPermutation(order) && |order| == |y| && k <= |y|
  {
    if k == 0 then 0 else RankSum(y, order, k - 1) + (if y[order[k - 1]] == 1 then k else 0)
  }

  lemma {:induction false} RankIs(order: seq<nat>, i: nat, k: nat)
    requires IsPermutation(order) && i < |order| && k < |order|
    ensures Rank(order, i) == k + 1 <==> i == order[k]
  {
    RankAt(order, k);
  }

  lemma {:induction false} ClassesStep(y: seq<int>, order: seq<nat>, k: nat)
    requires IsPermutation(order) && |order| == |y| && k < |y|
    ensures NegativesUpTo(y, order, k + 1) ==
      NegativesUpTo(y, order, k) + (if y[order[k]] != 1 then {order[k]} else {})
    ensures PositivesUpTo(y, order, k + 1) ==
      PositivesUpTo(y, order, k) + (if y[order[k]] == 1 then {order[k]} else {})
    ensures order[k] !in NegativesUpTo(y, order, k) && order[k] !in PositivesUpTo(y, order, k)
  {
    RankAt(order, k);
    forall i: nat | i < |y| ensures Rank(order, i) == k + 1 <==> i == order[k] {
      RankIs(order, i, k);
    }
    hide Rank, IsPermutation;
  }

  /** Each of `s`, paired with `j`. */
  ghost function With(s: set<nat>, j: nat): set<(nat, nat)> {
    set i: nat | i in s :: (i, j)
  }

  lemma {:induction false} WithSize(s: set<nat>, j: nat)
    ensures |With(s, j)| == |s|
  {
    if s != {} {
      var i :| i in s;
      WithSize(s - {i}, j);
      assert With(s, j) == With(s - {i}, j) + {(i, j)};
    } else {
      assert With(s, j) == {};
    }
  }

  lemma {:induction false} PairsGrow(y: seq<int>, order: seq<nat>, k: nat)
    requires IsPermutation(order) && |order| == |y| && k < |y|
    ensures PairsUpTo(y, order, k + 1) ==
      PairsUpTo(y, order, k) + (if y[order[k]] == 1 then With(NegativesUpTo(y, order, k), order[k]) else {})
    ensures PairsUpTo(y, order, k) !! With(NegativesUpTo(y, order, k), order[k])
  {
    RankAt(order, k);
    forall i: nat | i < |y| ensures Rank(order, i) == k + 1 <==> i == order[k] {
      RankIs(order, i, k);
    }
    hide Rank, IsPermutation;
  }

  lemma {:induction false} PairsStep(y: seq<int>, order: seq<nat>, k: nat)
    requires IsPermutation(order) && |order| == |y| && k < |y|
    ensures |PairsUpTo(y, order, k + 1)| ==
      |PairsUpTo(y, order, k)| + (if y[order[k]] == 1 then |NegativesUpTo(y, order, k)| else 0)
  {
    PairsGrow(y, order, k);
    WithSize(NegativesUpTo(y, order, k), order[k]);
    hide PairsUpTo, NegativesUpTo, With, IsPermutation;
    assert PairsUpTo(y, order, k) + {} == PairsUpTo(y, order, k);
  }

  lemma {:induction false} SizeWith(s: set<nat>, x: nat)
    requires x !in s
    ensures |s + {x}| == |s| + 1 && s + {} == s
  {
  }

  lemma {:induction false} CountsStep(y: seq<int>, order: seq<nat>, k: nat)
    requires IsPermutation(order) && |order| == |y| && k < |y|
    ensures |PositivesUpTo(y, order, k + 1)| == |PositivesUpTo(y, order, k)| + (if y[order[k]] == 1 then 1 else 0)
    ensures |NegativesUpTo(y, order, k + 1)| == |NegativesUpTo(y, order, k)| + (if y[order[k]] == 1 then 0 else 1)
  {
    ClassesStep(y, order, k);
    hide NegativesUpTo, PositivesUpTo, IsPermutation;
    SizeWith(NegativesUpTo(y, order, k), order[k]);
    SizeWith(PositivesUpTo(y, order, k), order[k]);
  }

  function Oblong(n: nat): nat { n * (n + 1) }

  lemma {:induction false} OblongStep(n: nat)
    ensures Oblong(n + 1) == Oblong(n) + 2 * (n + 1)
  {
  }

  lemma {:induction false} NothingYet(y: seq<int>, order: seq<nat>)
    requires IsPermutation(order) && |order| == |y|
    ensures PositivesUpTo(y, order, 0) == {} && NegativesUpTo(y, order, 0) == {} && PairsUpTo(y, order, 0) == {}
  {
  }

  /** Up to any position: the positives' ranks sum to what they would be without negatives, plus the
      number of pairs. */
  lemma {:induction false} RankSumCountsPairs(y: seq<int>, order: seq<nat>, k: nat)
    requires IsPermutation(order) && |order| == |y| && k <= |y|
    ensures |PositivesUpTo(y, order, k)| + |NegativesUpTo(y, order, k)| == k
    ensures 2 * RankSum(y, order, k) == Oblong(|PositivesUpTo(y, order, k)|) + 2 * |PairsUpTo(y, order, k)|
    decreases k
  {
    hide PairsUpTo, NegativesUpTo, PositivesUpTo, IsPermutation, Oblong;
    if k == 0 {
      NothingYet(y, order);
      assert Oblong(0) == 0 by { OblongZero(); }
    } else {
      RankSumCountsPairs(y, order, k - 1);
      CountsStep(y, order, k - 1);
      PairsStep(y, order, k - 1);
      OblongStep(|PositivesUpTo(y, order, k - 1)|);
    }
  }

  lemma {:induction false} OblongZero()
    ensures Oblong(0) == 0
  {
  }

  // ---------------------------------------------------------------------------
  // Summing in index order or in sorted order
  // ---------------------------------------------------------------------------

  /** What index `i` adds to the rank sum. */
  ghost function Term(y: seq<int>, order: seq<nat>, i: nat): nat
    requires IsPermutation(order) && |order| == |y| && i < |y|
  {
    if y[i] == 1 then Rank(order, i) else 0
  }

  ghost function TermSum(y: seq<int>, order: seq<nat>, n: nat): nat
    requires IsPermutation(order) && |order| == |y| && n <= |y|
  {
    if n == 0 then 0 else TermSum(y, order, n - 1) + Term(y, order, n - 1)
  }

  ghost predicate Indices(s: set<nat>, n: nat) {
    forall i :: i in s ==> i < n
  }

  ghost function Terms(y: seq<int>, order: seq<nat>, s: set<nat>): map<nat, int>
    requires IsPermutation(order) && |order| == |y| && Indices(s, |y|)
  {
    map i | i in s :: Term(y, order, i)
  }

  ghost function Below(n: nat): (b: set<nat>)
    ensures forall i :: i in b <==> 0 <= i < n
  {
    if n == 0 then {} else Below(n - 1) + {n - 1}
  }

  ghost function Listed(order: seq<nat>, k: nat): set<nat>
    requires k <= |order|
  {
    set i | i in order[..k]
  }

  lemma {:induction false} TermsGrow(y: seq<int>, order: seq<nat>, s: set<nat>, i: nat)
    requires IsPermutation(order) && |order| == |y| && Indices(s, |y|) && i < |y| && i !in s
    ensures Indices(s + {i}, |y|)
    ensures SumMap(Terms(y, order, s + {i})) == SumMap(Terms(y, order, s)) + Term(y, order, i)
  {
    hide Term;
    SumMapPut(Terms(y, order, s), i, Term(y, order, i));
    assert Terms(y, order, s + {i}) == Terms(y, order, s)[i := Term(y, order, i)];
  }

  lemma {:induction false} IndexOrder(y: seq<int>, order: seq<nat>, n: nat)
    requires IsPermutation(order) && |order| == |y| && n <= |y|
    ensures TermSum(y, order, n) == SumMap(Terms(y, order, Below(n)))
    decreases n
  {
    if n == 0 {
      assert Terms(y, order, Below(0)) == map[];
    } else {
      IndexOrder(y, order, n - 1);
      TermsGrow(y, order, Below(n - 1), n - 1);
      assert Below(n - 1) + {n - 1} == Below(n);
    }
  }

  lemma {:induction false} ListedStep(y: seq<int>, order: seq<nat>, k: nat)
    requires IsPermutation(order) && |order| == |y| && k < |y|
    ensures Listed(order, k + 1) == Listed(order, k) + {order[k]} && order[k] !in Listed(order, k)
    ensures Term(y, order, order[k]) == if y[order[k]] == 1 then k + 1 else 0
  {
    assert order[..k + 1] == order[..k] + [order[k]];
    RankAt(order, k);
    hide Rank;
  }

  lemma {:induction false} NothingListed(y: seq<int>, order: seq<nat>)
    requires IsPermutation(order) && |order| == |y|
    ensures Listed(order, 0) == {} && Indices({}, |y|) && Terms(y, order, {}) == map[]
  {
  }

  lemma {:induction false} SortedOrder(y: seq<int>, order: seq<nat>, k: nat)
    requires IsPermutation(order) && |order| == |y| && k <= |y|
    ensures Indices(Listed(order, k), |y|)
    ensures RankSum(y, order, k) == SumMap(Terms(y, order, Listed(order, k)))
    decreases k
  {
    hide Term, Listed, Terms, Indices, Rank;
    if k == 0 {
      NothingListed(y, order);
    } else {
      SortedOrder(y, order, k - 1);
      ListedStep(y, order, k - 1);
      TermsGrow(y, order, Listed(order, k - 1), order[k - 1]);
    }
  }

  lemma {:induction false} SameSum(y: seq<int>, order: seq<nat>)
    requires IsPermutation(order) && |order| == |y|
    ensures TermSum(y, order, |y|) == RankSum(y, order, |y|)
  {
    IndexOrder(y, order, |y|);
    SortedOrder(y, order, |y|);
    assert order[..|y|] == order;
    assert Listed(order, |y|) == Below(|y|);
  }

  // ---------------------------------------------------------------------------
  // The formula
  // ---------------------------------------------------------------------------

  lemma {:induction false} Everything(y: seq<int>, order: seq<nat>)
    requires IsPermutation(order) && |order| == |y|
    ensures PositivesUpTo(y, order, |y|) == Positives(y) && NegativesUpTo(y, order, |y|) == Negatives(y)
  {
  }

  /** `ranks[order] = 1..n`, written in place. */
  method Ranks(order: seq<nat>) returns (ranks: array<nat>)
    requires IsPermutation(order)
    ensures fresh(ranks) && ranks.Length == |order| && forall i: nat :: i < |order| ==> ranks[i] == Rank(order, i)
  {
    ranks := new nat[|order|];
    for k := 0 to |order|
      invariant forall m :: 0 <= m < k ==> ranks[order[m]] == m + 1
    {
      ranks[order[k]] := k + 1;
    }
    forall i: nat | i < |order| ensures ranks[i] == Rank(order, i) {
      assert order[Rank(order, i) - 1] == i;
    }
  }

  method CountPositives(y: seq<int>) returns (n: nat)
    ensures n == |Positives(y)|
  {
    n := 0;
    ghost var found: set<nat> := {};
    for i := 0 to |y|
      invariant found == (set k: nat | k < i && y[k] == 1) && n == |found|
    {
      if y[i] == 1 {
        n := n + 1;
        found := found + {i};
      }
    }
    assert found == Positives(y);
  }

  /** What the formula computes with, as counts. */
  lemma {:induction false} RankFormula(y: seq<int>, order: seq<nat>)
    requires IsPermutation(order) && |order| == |y|
    ensures |Positives(y)| + |Negatives(y)| == |y|
    ensures 2 * TermSum(y, order, |y|) == Oblong(|Positives(y)|) + 2 * |LaterPairs(y, order)|
  {
    RankSumCountsPairs(y, order, |y|);
    Everything(y, order);
    SameSum(y, order);
    hide IsPermutation, PairsUpTo, PositivesUpTo, NegativesUpTo, Positives, Negatives, Oblong;
  }

  /** The rank formula is the fraction of (negative, positive) pairs that sort the right way round. */
  method Auc(y: seq<int>, p: seq<real>, order: seq<nat>) returns (r: Score)
    requires |p| == |y| && Sorts(p, order)
    ensures r.NotANumber? <==> |Positives(y)| == 0 || |Negatives(y)| == 0
    ensures r.Value? ==> |Positives(y)| * |Negatives(y)| > 0
    ensures r.Value? ==> r.v == |LaterPairs(y, order)| as real / (|Positives(y)| * |Negatives(y)|) as real
  {
    hide Positives, Negatives, LaterPairs, Oblong, Term;
    var ranks := Ranks(order);
    var nPos := CountPositives(y);
    RankFormula(y, order);
    var nNeg := |y| - nPos;
    if nPos == 0 || nNeg == 0 {
      return NotANumber;
    }
    var sum := SumPositiveRanks(y, ranks, order);
    PairsFromRanks(sum, Oblong(nPos), |LaterPairs(y, order)|);
    assert nPos * nNeg > 0;
    return Value((sum as real - Oblong(nPos) as real / 2.0) / (nPos * nNeg) as real);
  }

  method SumPositiveRanks(y: seq<int>, ranks: array<nat>, ghost order: seq<nat>) returns (sum: nat)
    requires IsPermutation(order) && |order| == |y| && ranks.Length == |y|
    requires forall i: nat :: i < |y| ==> ranks[i] == Rank(order, i)
    ensures sum == TermSum(y, order, |y|)
  {
    hide IsPermutation, Rank;
    sum := 0;
    for i := 0 to |y|
      invariant sum == TermSum(y, order, i)
    {
      if y[i] == 1 {
        sum := sum + ranks[i];
      }
    }
  }

  lemma {:induction false} PairsFromRanks(sum: nat, oblong: nat, pairs: nat)
    requires 2 * sum == oblong + 2 * pairs
    ensures sum as real - oblong as real / 2.0 == pairs as real
  {
    var x, y, z := sum as real, oblong as real, pairs as real;
    assert 2.0 * x == y + 2.0 * z;
  }

  /** The score is a fraction of all pairs. */
  lemma {:induction false} LaterPairsBounded(y: seq<int>, order: seq<nat>)
    requires |order| == |y| && IsPermutation(order)
    ensures |LaterPairs(y, order)| <= |Positives(y)| * |Negatives(y)|
  {
    AllPairsSize(Negatives(y), Positives(y));
    assert LaterPairs(y, order) <= AllPairs(Negatives(y), Positives(y));
    SubsetSize(LaterPairs(y, order), AllPairs(Negatives(y), Positives(y)));
  }

  ghost function AllPairs(a: set<nat>, b: set<nat>): set<(nat, nat)> {
    set i, j | i in a && j in b :: (i, j)
  }

  lemma {:induction false} AllPairsSplit(a: set<nat>, b: set<nat>, j: nat)
    requires j in b
    ensures AllPairs(a, b) == AllPairs(a, b - {j}) + With(a, j)
    ensures AllPairs(a, b - {j}) !! With(a, j)
  {
  }

  lemma {:induction false} AllPairsSize(a: set<nat>, b: set<nat>)
    ensures |AllPairs(a, b)| == |b| * |a|
  {
    if b == {} {
      assert AllPairs(a, b) == {};
    } else {
      var j :| j in b;
      AllPairsSplit(a, b, j);
      WithSize(a, j);
      AllPairsSize(a, b - {j});
      hide AllPairs, With;
      assert |b - {j}| == |b| - 1;
      assert |b| * |a| == (|b| - 1) * |a| + |a|;
    }
  }

  lemma {:induction false} ByPosition(p: seq<real>, order: seq<nat>, i: nat, j: nat)
    requires Sorts(p, order) && i < |p| && j < |p| && Rank(order, i) < Rank(order, j)
    ensures p[i] <= p[j]
  {
    var k, m := Rank(order, i) - 1, Rank(order, j) - 1;
    assert p[order[k]] <= p[order[m]];
  }

  /** With distinct scores a later positive is a positive with a strictly higher score, so the count does
      not depend on the order chosen. */
  lemma {:induction false} LaterIsHigher(y: seq<int>, p: seq<real>, order: seq<nat>)
    requires |p| == |y| && Sorts(p, order) && forall i, k :: 0 <= i < k < |p| ==> p[i] != p[k]
    ensures LaterPairs(y, order) == HigherPairs(y, p)
  {
    forall i: nat, j: nat | i < |p| && j < |p| && i != j
      ensures Rank(order, i) < Rank(order, j) <==> p[i] < p[j]
    {
      assert p[i] != p[j] by {
        assert i < j ==> p[i] != p[j];
        assert j < i ==> p[j] != p[i];
      }
      assert Rank(order, i) != Rank(order, j);
      if Rank(order, i) < Rank(order, j) { ByPosition(p, order, i, j); } else { ByPosition(p, order, j, i); }
    }
    hide Rank, Sorts, IsPermutation;
  }

  /** The score lies between 0 and 1. */
  lemma {:induction false} ScoreInUnitInterval(y: seq<int>, order: seq<nat>)
    requires |order| == |y| && IsPermutation(order)
    ensures |Positives(y)| * |Negatives(y)| > 0 ==>
      0.0 <= |LaterPairs(y, order)| as real / (|Positives(y)| * |Negatives(y)|) as real <= 1.0
  {
    LaterPairsBounded(y, order);
    Ratio(|LaterPairs(y, order)|, |Positives(y)| * |Negatives(y)|);
  }

  lemma {:induction false} Ratio(a: nat, b: nat)
    requires a <= b
    ensures b > 0 ==> 0.0 <= a as real / b as real <= 1.0
  {
  }
}
