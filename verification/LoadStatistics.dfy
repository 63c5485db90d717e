/** The load statistics of internal/core/product.go: the Gini index and percentiles. */
module LoadStatistics {
  import opened Basics

  // ---- gini ----

  function Total(v: seq<nat>): nat { if v == [] then 0 else v[0] + Total(v[1..]) }

  function Abs(x: int): nat { if x < 0 then -x else x }

  /** Distances of x to all of v. */
  function Distances(x: nat, v: seq<nat>): nat { if v == [] then 0 else Abs(x - v[0]) + Distances(x, v[1..]) }

  /** The sum of |v[i] - v[j]| over all pairs i < j: the definition the index approximates inequality by. */
  function PairSum(v: seq<nat>): nat { if v == [] then 0 else Distances(v[0], v[1..]) + PairSum(v[1..]) }

  ghost predicate Ascending(v: seq<nat>) { forall i, j :: 0 <= i < j < |v| ==> v[i] <= v[j] }

  function Insert(x: nat, v: seq<nat>): (r: seq<nat>)
    requires Ascending(v)
    ensures Ascending(r) && |r| == |v| + 1 && forall y :: y in r <==> y == x || y in v
  {
    if v == [] then [x]
    else if x <= v[0] then [x] + v
    else
      var r := Insert(x, v[1..]);
      assert forall i :: 0 <= i < |r| ==> r[i] in r;
      assert forall y :: y in v[1..] ==> v[0] <= y;
      assert v == [v[0]] + v[1..];
      [v[0]] + r
  }

  /** What sort.Ints returns. */
  function Sorted(v: seq<nat>): (r: seq<nat>)
    ensures Ascending(r) && |r| == |v|
  {
    if v == [] then [] else Insert(v[0], Sorted(v[1..]))
  }

  lemma {:induction false} InsertMultiset(x: nat, v: seq<nat>)
    requires Ascending(v)
    ensures multiset(Insert(x, v)) == multiset(v) + multiset{x}
  {
    if v != [] && x > v[0] {
      InsertMultiset(x, v[1..]);
      assert v == [v[0]] + v[1..];
    }
  }

  lemma {:induction false} SortedIsPermutation(v: seq<nat>)
    ensures multiset(Sorted(v)) == multiset(v)
  {
    if v != [] {
      SortedIsPermutation(v[1..]);
      InsertMultiset(v[0], Sorted(v[1..]));
      assert v == [v[0]] + v[1..];
    }
  }

  lemma {:induction false} InsertTotal(x: nat, v: seq<nat>)
    requires Ascending(v)
    ensures Total(Insert(x, v)) == x + Total(v)
  {
    if v != [] && x > v[0] {
      InsertTotal(x, v[1..]);
      var r := Insert(x, v[1..]);
      assert ([v[0]] + r)[1..] == r;
    } else {
      assert ([x] + v)[1..] == v;
    }
  }

  lemma {:induction false} InsertDistances(y: nat, x: nat, v: seq<nat>)
    requires Ascending(v)
    ensures Distances(y, Insert(x, v)) == Abs(y - x) + Distances(y, v)
  {
    if v != [] && x > v[0] {
      InsertDistances(y, x, v[1..]);
      var r := Insert(x, v[1..]);
      assert ([v[0]] + r)[1..] == r;
    } else {
      assert ([x] + v)[1..] == v;
    }
  }

  lemma {:induction false} InsertPairs(x: nat, v: seq<nat>)
    requires Ascending(v)
    ensures PairSum(Insert(x, v)) == Distances(x, v) + PairSum(v)
  {
    if v != [] && x > v[0] {
      InsertPairs(x, v[1..]);
      InsertDistances(v[0], x, v[1..]);
      var r := Insert(x, v[1..]);
      assert ([v[0]] + r)[1..] == r;
    } else {
      assert ([x] + v)[1..] == v;
    }
  }

  /** Sorting changes neither the total nor the pairwise distances, so the index does not depend on the
      order of the loads. */
  lemma {:induction false} SortedSums(v: seq<nat>)
    ensures Total(Sorted(v)) == Total(v) && PairSum(Sorted(v)) == PairSum(v)
    ensures forall x :: Distances(x, Sorted(v)) == Distances(x, v)
  {
    if v != [] {
      var rest := Sorted(v[1..]);
      SortedSums(v[1..]);
      InsertTotal(v[0], rest);
      InsertPairs(v[0], rest);
      forall x ensures Distances(x, Sorted(v)) == Distances(x, v) {
        InsertDistances(x, v[0], rest);
      }
    }
  }

  /** sum of (i + k) * v[i] */
  function Weighted(v: seq<nat>, k: nat): nat { if v == [] then 0 else k * v[0] + Weighted(v[1..], k + 1) }

  lemma {:induction false} WeightedShift(v: seq<nat>, k: nat)
    ensures Weighted(v, k + 1) == Weighted(v, k) + Total(v)
  {
    if v != [] {
      WeightedShift(v[1..], k + 1);
      assert (k + 1) * v[0] == k * v[0] + v[0];
    }
  }

  lemma {:induction false} DistancesAbove(x: nat, v: seq<nat>)
    requires forall i :: 0 <= i < |v| ==> x <= v[i]
    ensures Distances(x, v) == Total(v) - |v| * x
  {
    if v != [] {
      DistancesAbove(x, v[1..]);
      assert |v| * x == |v[1..]| * x + x;
    }
  }

  /** The one-pass formula on ascending loads is the sum over pairs. */
  lemma {:induction false} SortedFormula(v: seq<nat>)
    requires Ascending(v)
    ensures 2 * Weighted(v, 1) - (|v| + 1) * Total(v) == PairSum(v)
  {
    assert v != [] ==> Weighted(v, 1) == v[0] + Weighted(v[1..], 2) && PairSum(v) == Distances(v[0], v[1..]) + PairSum(v[1..]);
    if v != [] {
      var rest := v[1..];
      SortedFormula(rest);
      DistancesAbove(v[0], rest);
      WeightedShift(rest, 1);
      hide Weighted, Distances, PairSum, Ascending;
      FormulaStep(|v|, v[0], Total(rest), Weighted(rest, 1), PairSum(rest));
    }
  }

  lemma FormulaStep(n: nat, x: nat, total: nat, weighted: nat, pairs: nat)
    requires n > 0 && 2 * weighted - n * total == pairs
    ensures 2 * (x + (weighted + total)) - (n + 1) * (x + total) == (total - (n - 1) * x) + pairs
  {
    assert (n + 1) * (x + total) == n * x + n * total + x + total;
    assert (n - 1) * x == n * x - x;
  }

  lemma {:induction false} DistancesBound(x: nat, v: seq<nat>)
    ensures Distances(x, v) <= |v| * x + Total(v)
  {
    if v != [] {
      DistancesBound(x, v[1..]);
      assert |v| * x == |v[1..]| * x + x;
    }
  }

  lemma {:induction false} PairSumBound(v: seq<nat>)
    requires v != []
    ensures PairSum(v) <= (|v| - 1) * Total(v)
  {
    var rest, k := v[1..], |v| - 1;
    DistancesBound(v[0], rest);
    assert k * Total(v) == k * v[0] + k * Total(rest);
    if rest != [] {
      PairSumBound(rest);
      assert k * Total(rest) == (k - 1) * Total(rest) + Total(rest);
    }
  }

  /** g is the sum of pairwise distances over n times the total, a number between 0 and 1 - 1/n. */
  ghost predicate IsIndex(g: real, n: nat, total: nat, pairs: nat)
    requires n > 0
  {
    n as real * total as real * g == pairs as real && 0.0 <= g <= 1.0 - 1.0 / n as real
  }

  /** The loop over the sorted copy: n * sum * G is the sum of all pairwise distances of the loads as
      given, in any order, and 0 <= G <= 1 - 1/n. */
  method Gini(values: seq<nat>) returns (g: real)
    ensures values == [] || Total(values) == 0 ==> g == 0.0
    ensures values != [] && Total(values) > 0 ==> IsIndex(g, |values|, Total(values), PairSum(values))
  {
    hide IsIndex;
    if |values| == 0 {
      return 0.0;
    }
    var v := Sorted(values);
    SortedSums(values);
    hide Sorted, Distances, PairSum, Weighted, Total, Ascending;
    var sum, weighted := SumUp(v);
    if sum == 0 {
      return 0.0;
    }
    SortedFormula(v);
    PairSumBound(values);
    g := Formula(|v|, sum, weighted);
    GiniArithmetic(|v|, sum, weighted, PairSum(values));
    hide Formula;
  }

  function Formula(n: nat, sum: nat, weighted: nat): real
    requires n > 0 && sum > 0
  {
    assert n as real * sum as real > 0.0 by {
      TimesPositive(n as real, sum as real);
    }
    2.0 * weighted as real / (n as real * sum as real) - (n + 1) as real / n as real
  }

  /** The accumulating loop. */
  method SumUp(v: seq<nat>) returns (sum: nat, weighted: nat)
    ensures sum == Total(v) && weighted == Weighted(v, 1)
  {
    sum, weighted := 0, 0;
    assert v[0..] == v;
    for i := 0 to |v|
      invariant sum + Total(v[i..]) == Total(v)
      invariant weighted + Weighted(v[i..], i + 1) == Weighted(v, 1)
    {
      assert v[i..][0] == v[i] && v[i..][1..] == v[i + 1..];
      sum := sum + v[i];
      weighted := weighted + (i + 1) * v[i];
    }
    assert v[|v|..] == [];
  }

  lemma GiniArithmetic(n: nat, sum: nat, weighted: nat, pairs: nat)
    requires n > 0 && sum > 0 && 2 * weighted - (n + 1) * sum == pairs && pairs <= (n - 1) * sum
    ensures IsIndex(Formula(n, sum, weighted), n, sum, pairs)
  {
    FormulaProduct(n, sum, weighted, pairs);
    var g, d := Formula(n, sum, weighted), n as real * sum as real;
    hide Formula;
    TimesPositive(n as real, sum as real);
    SignOf(g, d);
    IndexBound(n, sum, pairs, g, d);
  }

  lemma FormulaProduct(n: nat, sum: nat, weighted: nat, pairs: nat)
    requires n > 0 && sum > 0 && 2 * weighted - (n + 1) * sum == pairs
    ensures n as real * sum as real * Formula(n, sum, weighted) == pairs as real
  {
    var rn, rs := n as real, sum as real;
    var d := rn * rs;
    TimesPositive(rn, rs);
    var a, b := 2.0 * weighted as real / d, (n + 1) as real / rn;
    assert a * d == 2.0 * weighted as real;
    assert b * rn == (n + 1) as real;
    assert d * b == (b * rn) * rs;
    CastProduct(n + 1, sum);
    assert d * Formula(n, sum, weighted) == a * d - d * b;
  }

  lemma IndexBound(n: nat, sum: nat, pairs: nat, g: real, d: real)
    requires n > 0 && d > 0.0 && d == n as real * sum as real && d * g == pairs as real && pairs <= (n - 1) * sum
    ensures g <= 1.0 - 1.0 / n as real
  {
    var rn := n as real;
    var inv := 1.0 / rn;
    assert inv * rn == 1.0;
    CastProduct(n - 1, sum);
    assert d * (1.0 - inv) == (rn - inv * rn) * sum as real;
    assert d * (1.0 - inv - g) == d * (1.0 - inv) - d * g;
    SignOf(1.0 - inv - g, d);
  }

  lemma CastProduct(a: int, b: int)
    ensures (a * b) as real == a as real * b as real
  {}

  // ---- percentile ----

  /** The least index whose rank reaches the fraction p of the entries. */
  function Percentile(v: seq<int>, p: real): (r: int)
    requires v != [] && 0.0 < p <= 1.0
    ensures exists k :: 0 <= k < |v| && r == v[k] && k as real < |v| as real * p <= (k + 1) as real
  {
    var x := |v| as real * p;
    assert 0.0 < x <= |v| as real by {
      RankBounds(|v| as real, p);
    }
    var k := -((-x).Floor) - 1;
    assert 0 <= k < |v| && k as real < x <= (k + 1) as real;
    v[k]
  }

  lemma RankBounds(n: real, p: real)
    requires n > 0.0 && 0.0 < p <= 1.0
    ensures 0.0 < n * p <= n
  {
    TimesPositive(n, p);
    if p < 1.0 {
      TimesPositive(n, 1.0 - p);
      assert n * (1.0 - p) == n - n * p;
    }
  }
}
