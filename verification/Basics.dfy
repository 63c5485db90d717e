/** Shared vocabulary: results and errors of the store, listings of sets, sums over maps. */
module Basics {
  datatype Option<+T> = None | Some(value: T)

  /** The sentinel errors of internal/store/store.go and internal/core. */
  datatype Error =
    | Conflict | NotFound | Fenced | BudgetRequired | BudgetExceeded | PermissionExceeded
    | BadEnvelope | Forbidden | Invalid

  /** A store reply. `Duplicate` is the Go pair (value, ErrDuplicate). */
  datatype Result<+T> = Ok(value: T) | Duplicate(value: T) | Err(error: Error)

  /** `order` names every member of `s` exactly once: one possible iteration order of a Go map. */
  ghost predicate Lists<T(!new)>(order: seq<T>, s: set<T>) {
    && (forall x :: x in order <==> x in s)
    && Distinct(order)
  }

  ghost predicate Distinct<T>(order: seq<T>) {
    forall i, j :: 0 <= i < j < |order| ==> order[i] != order[j]
  }

  ghost function Elements<T(!new)>(order: seq<T>): set<T> { set x | x in order }

  /** A listing is as long as the set it lists. */
  lemma {:induction false} ListsLength<T(!new)>(order: seq<T>, s: set<T>)
    requires Lists(order, s)
    ensures |order| == |s|
  {
    if order == [] {
      assert s == {};
    } else {
      var last := order[|order| - 1];
      assert order == order[..|order| - 1] + [last];
      ListsLength(order[..|order| - 1], s - {last});
    }
  }

  /** The sum of f over the values of a map. */
  ghost function Sum<T>(m: map<string, T>, f: T -> int): int
    decreases |m|
  {
    if m == map[] then 0 else
      var k :| k in m;
      SmallerMap(m, k);
      f(m[k]) + Sum(m - {k}, f)
  }

  lemma SmallerMap<T>(m: map<string, T>, k: string)
    requires k in m
    ensures |m - {k}| < |m|
  {
    assert (m - {k}).Keys == m.Keys - {k};
    assert |m - {k}| == |(m - {k}).Keys|;
    assert |m| == |m.Keys|;
  }

  /** The sum does not depend on the key that is taken out first. */
  lemma {:induction false} SumSplit<T>(m: map<string, T>, f: T -> int, k: string)
    requires k in m
    ensures Sum(m, f) == f(m[k]) + Sum(m - {k}, f)
    decreases |m|
  {
    var x :| x in m && Sum(m, f) == f(m[x]) + Sum(m - {x}, f);
    if x != k {
      SmallerMap(m, x);
      SmallerMap(m, k);
      SumSplit(m - {x}, f, k);
      SumSplit(m - {k}, f, x);
      assert m - {x} - {k} == m - {k} - {x};
    }
  }

  /** Writing one key changes the sum by the difference of that key's terms. */
  lemma SumUpdate<T>(m: map<string, T>, f: T -> int, k: string, v: T)
    ensures Sum(m[k := v], f) == Sum(m, f) - (if k in m then f(m[k]) else 0) + f(v)
  {
    var w := m[k := v];
    SumSplit(w, f, k);
    if k in m {
      SumSplit(m, f, k);
      assert w - {k} == m - {k};
    } else {
      assert w - {k} == m;
    }
  }

  /** A sum of non-negative terms bounds each of its terms. */
  lemma {:induction false} SumBounds<T>(m: map<string, T>, f: T -> int)
    requires forall k :: k in m ==> 0 <= f(m[k])
    ensures 0 <= Sum(m, f)
    ensures forall k :: k in m ==> f(m[k]) <= Sum(m, f)
    decreases |m|
  {
    forall k | k in m ensures 0 <= Sum(m, f) && f(m[k]) <= Sum(m, f) {
      SumSplit(m, f, k);
      SmallerMap(m, k);
      SumBounds(m - {k}, f);
    }
    if m == map[] {
      assert Sum(m, f) == 0;
    } else {
      var k :| k in m;
      assert 0 <= Sum(m, f);
    }
  }

  lemma {:induction false} SumOfZeros<T>(m: map<string, T>, f: T -> int)
    requires forall k :: k in m ==> f(m[k]) == 0
    ensures Sum(m, f) == 0
    decreases |m|
  {
    if m != map[] {
      var k :| k in m;
      SumSplit(m, f, k);
      SmallerMap(m, k);
      SumOfZeros(m - {k}, f);
    }
  }

  /** Distinct members of `s` are at most |s| many. */
  lemma {:induction false} DistinctBound<T>(p: seq<T>, s: set<T>)
    requires Distinct(p)
    requires forall i :: 0 <= i < |p| ==> p[i] in s
    ensures |p| <= |s|
  {
    if p != [] {
      var last := p[|p| - 1];
      DistinctBound(p[..|p| - 1], s - {last});
    }
  }

  lemma SubsetCardinality<T>(a: set<T>, b: set<T>)
    requires a <= b
    ensures |a| <= |b|
  {
    assert b == a + (b - a);
  }

  // ---- signs of real products ----

  lemma TimesPositive(p: real, y: real)
    requires p > 0.0 && y > 0.0
    ensures p * y > 0.0
  {}

  lemma TimesNegative(p: real, y: real)
    requires p < 0.0 && y > 0.0
    ensures p * y < 0.0
  {}

  lemma TimesNonNegative(p: real, y: real)
    requires p >= 0.0 && y >= 0.0
    ensures p * y >= 0.0
  {}

  lemma SignOf(p: real, y: real)
    requires y > 0.0 && p * y >= 0.0
    ensures p >= 0.0
  {
    if p < 0.0 {
      TimesNegative(p, y);
    }
  }
}
