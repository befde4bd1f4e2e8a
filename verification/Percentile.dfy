/** The interpolated percentile of the load generator (`tools/loadtest/generate.py`,
    `_percent`), over exact reals. */
module Percentile {
  import opened Basics

  predicate Sorted(s: seq<real>) {
    forall i, j | 0 <= i < j < |s| :: s[i] <= s[j]
  }

  function Insert(s: seq<real>, x: real): (r: seq<real>)
    ensures multiset(r) == multiset(s) + multiset{x}
  {
    if s == [] then [x]
    else if x <= s[0] then [x] + s
    else
      assert s == [s[0]] + s[1..];
      [s[0]] + Insert(s[1..], x)
  }

  /** Every member of `Insert(s, x)` is `x` or in `s`. */
  lemma InsertHas(s: seq<real>, x: real, y: real)
    requires y in Insert(s, x)
    ensures y == x || y in s
  {
    assert y in multiset(Insert(s, x));
    assert y in multiset(s) + multiset{x};
  }

  lemma SortedCons(x: real, s: seq<real>)
    requires Sorted(s) && forall y | y in s :: x <= y
    ensures Sorted([x] + s)
  {
    forall i, j | 0 <= i < j < |[x] + s|
      ensures ([x] + s)[i] <= ([x] + s)[j]
    {
      assert ([x] + s)[j] == s[j - 1];
      assert s[j - 1] in s;
      if i > 0 { assert ([x] + s)[i] == s[i - 1]; }
    }
  }

  lemma SortedTail(s: seq<real>)
    requires Sorted(s) && s != []
    ensures Sorted(s[1..]) && forall y | y in s :: s[0] <= y
  {
  }

  lemma {:induction false} InsertSorted(s: seq<real>, x: real)
    requires Sorted(s)
    ensures Sorted(Insert(s, x))
  {
    if s != [] {
      SortedTail(s);
      if x <= s[0] {
        SortedCons(x, s);
      } else {
        InsertSorted(s[1..], x);
        forall y | y in Insert(s[1..], x) ensures s[0] <= y { InsertHas(s[1..], x, y); }
        SortedCons(s[0], Insert(s[1..], x));
      }
    }
  }

  /** `sorted(values)` */
  function SortOf(values: seq<real>): (r: seq<real>)
    ensures Sorted(r) && multiset(r) == multiset(values) && |r| == |values|
  {
    if values == [] then []
    else
      InsertSorted(SortOf(values[1..]), values[0]);
      var r := Insert(SortOf(values[1..]), values[0]);
      assert values == [values[0]] + values[1..];
      assert |multiset(r)| == |multiset(values)|;
      r
  }

  lemma SameLength(a: seq<real>, b: seq<real>)
    requires multiset(a) == multiset(b)
    ensures |a| == |b|
  {
    assert |multiset(a)| == |a| && |multiset(b)| == |b|;
  }

  lemma SameFirst(a: seq<real>, b: seq<real>)
    requires Sorted(a) && Sorted(b) && multiset(a) == multiset(b) && a != [] && b != []
    ensures a[0] == b[0]
  {
    assert a[0] in multiset(a) && b[0] in multiset(b);
    var i :| 0 <= i < |b| && b[i] == a[0];
    var j :| 0 <= j < |a| && a[j] == b[0];
  }

  lemma TailMultiset(a: seq<real>)
    requires a != []
    ensures multiset(a[1..]) == multiset(a) - multiset{a[0]}
  {
    assert a == [a[0]] + a[1..];
  }

  /** A multiset has one sorted listing. */
  lemma {:induction false} SortedUnique(a: seq<real>, b: seq<real>)
    requires Sorted(a) && Sorted(b) && multiset(a) == multiset(b)
    ensures a == b
    decreases |a|
  {
    SameLength(a, b);
    if a != [] {
      SameFirst(a, b);
      TailMultiset(a);
      TailMultiset(b);
      SortedUnique(a[1..], b[1..]);
      assert a == [a[0]] + a[1..] && b == [b[0]] + b[1..];
    }
  }

  /** The value at a fractional rank of a sorted list. */
  function At(ordered: seq<real>, rank: real): real
    requires ordered != [] && 0.0 <= rank <= (|ordered| - 1) as real
  {
    var low := rank.Floor;
    var high := if low + 1 <= |ordered| - 1 then low + 1 else |ordered| - 1;
    var weight := rank - low as real;
    Mix(ordered[low], ordered[high], weight)
  }

  /** The weighted mean of two neighbours. */
  function Mix(a: real, b: real, w: real): real {
    a * (1.0 - w) + b * w
  }

  lemma RankInRange(m: real, p: real)
    requires m >= 0.0 && 0.0 <= p <= 100.0
    ensures 0.0 <= m * (p / 100.0) <= m
  {
    var q := p / 100.0;
    ProductNonNegative(m, q);
    ProductNonNegative(m, 1.0 - q);
    assert m * (1.0 - q) == m - m * q;
  }

  /** The fractional rank of the p-th percentile among `n` values. */
  function Rank(n: nat, p: real): (r: real)
    requires n > 0 && 0.0 <= p <= 100.0
    ensures 0.0 <= r <= (n - 1) as real
  {
    RankInRange((n - 1) as real, p);
    (n - 1) as real * (p / 100.0)
  }

  /** `_percent` */
  function Percent(values: seq<real>, p: real): Option<real>
    requires 0.0 <= p <= 100.0
  {
    if values == [] then None
    else
      var ordered := SortOf(values);
      if |ordered| == 1 then Some(ordered[0])
      else
        Some(At(ordered, Rank(|ordered|, p)))
  }

  // ---------------------------------------------------------------- what it promises

  /** A weighted mean lies between its ends and grows with the weight. */
  lemma Between(a: real, b: real, w: real)
    requires a <= b && 0.0 <= w <= 1.0
    ensures a <= Mix(a, b, w) <= b
  {
    assert a * (1.0 - w) + b * w == a + (b - a) * w;
    ProductNonNegative(b - a, w);
    ProductNonNegative(b - a, 1.0 - w);
    assert b - (a + (b - a) * w) == (b - a) * (1.0 - w);
  }

  lemma Grows(a: real, b: real, v: real, w: real)
    requires a <= b && v <= w
    ensures Mix(a, b, v) <= Mix(a, b, w)
  {
    assert a * (1.0 - v) + b * v == a + (b - a) * v;
    assert a * (1.0 - w) + b * w == a + (b - a) * w;
    ProductNonNegative(b - a, w - v);
    assert (b - a) * (w - v) == (b - a) * w - (b - a) * v;
  }

  lemma Neighbours(ordered: seq<real>, rank: real)
    requires Sorted(ordered) && ordered != [] && 0.0 <= rank <= (|ordered| - 1) as real
    ensures var low := rank.Floor;
            var high := if low + 1 <= |ordered| - 1 then low + 1 else |ordered| - 1;
            && 0 <= low <= high < |ordered| && 0.0 <= rank - low as real <= 1.0
            && ordered[low] <= ordered[high]
  {
  }

  lemma AtBetween(ordered: seq<real>, rank: real)
    requires Sorted(ordered) && ordered != [] && 0.0 <= rank <= (|ordered| - 1) as real
    ensures var low := rank.Floor;
            && 0 <= low < |ordered|
            && ordered[low] <= At(ordered, rank)
            && At(ordered, rank) <= ordered[if low + 1 <= |ordered| - 1 then low + 1 else |ordered| - 1]
  {
    Neighbours(ordered, rank);
    var low := rank.Floor;
    var high := if low + 1 <= |ordered| - 1 then low + 1 else |ordered| - 1;
    Between(ordered[low], ordered[high], rank - low as real);
  }

  /** Monotone within a cell and across cells. */
  lemma AtMonotone(ordered: seq<real>, r: real, s: real)
    requires Sorted(ordered) && ordered != [] && 0.0 <= r <= s <= (|ordered| - 1) as real
    ensures At(ordered, r) <= At(ordered, s)
  {
    AtBetween(ordered, r);
    AtBetween(ordered, s);
    if r.Floor == s.Floor {
      var low := r.Floor;
      var high := if low + 1 <= |ordered| - 1 then low + 1 else |ordered| - 1;
      Grows(ordered[low], ordered[high], r - low as real, s - low as real);
    } else {
      assert r.Floor + 1 <= s.Floor;
    }
  }

  lemma RankMonotone(n: nat, p: real, q: real)
    requires n > 0 && 0.0 <= p <= q <= 100.0
    ensures Rank(n, p) <= Rank(n, q)
  {
    var m := (n - 1) as real;
    ProductNonNegative(m, q / 100.0 - p / 100.0);
    assert m * (q / 100.0 - p / 100.0) == m * (q / 100.0) - m * (p / 100.0);
  }

  lemma RankEnds(n: nat)
    requires n > 0
    ensures Rank(n, 0.0) == 0.0 && Rank(n, 100.0) == (n - 1) as real
  {
  }

  lemma PercentMonotone(values: seq<real>, p: real, q: real)
    requires values != [] && 0.0 <= p <= q <= 100.0
    ensures Percent(values, p).value <= Percent(values, q).value
  {
    var ordered := SortOf(values);
    if |ordered| > 1 {
      RankMonotone(|ordered|, p, q);
      AtMonotone(ordered, Rank(|ordered|, p), Rank(|ordered|, q));
    }
  }

  lemma AtEnds(ordered: seq<real>)
    requires ordered != []
    ensures At(ordered, 0.0) == ordered[0]
    ensures At(ordered, (|ordered| - 1) as real) == ordered[|ordered| - 1]
  {
    assert ((|ordered| - 1) as real).Floor == |ordered| - 1;
  }

  lemma SameMembers(a: seq<real>, b: seq<real>, x: real)
    requires multiset(a) == multiset(b)
    ensures x in a <==> x in b
  {
    assert x in a <==> x in multiset(a);
    assert x in b <==> x in multiset(b);
  }

  /** The 0th percentile is the least value, the 100th the greatest, both from the list. */
  lemma PercentEnds(values: seq<real>)
    requires values != []
    ensures Percent(values, 0.0).value in values && forall x | x in values :: Percent(values, 0.0).value <= x
    ensures Percent(values, 100.0).value in values && forall x | x in values :: x <= Percent(values, 100.0).value
  {
    var ordered := SortOf(values);
    var n := |ordered|;
    RankEnds(n);
    AtEnds(ordered);
    assert Percent(values, 0.0).value == ordered[0] && Percent(values, 100.0).value == ordered[n - 1];
    SameMembers(ordered, values, ordered[0]);
    SameMembers(ordered, values, ordered[n - 1]);
    forall x | x in values
      ensures ordered[0] <= x <= ordered[n - 1]
    {
      SameMembers(ordered, values, x);
      var i :| 0 <= i < n && ordered[i] == x;
    }
  }

  /** So every percentile lies between the least and the greatest value. */
  lemma PercentInRange(values: seq<real>, p: real)
    requires values != [] && 0.0 <= p <= 100.0
    ensures Percent(values, 0.0).value <= Percent(values, p).value <= Percent(values, 100.0).value
  {
    PercentMonotone(values, 0.0, p);
    PercentMonotone(values, p, 100.0);
  }

  lemma PercentOrderIrrelevant(a: seq<real>, b: seq<real>, p: real)
    requires multiset(a) == multiset(b) && 0.0 <= p <= 100.0
    ensures Percent(a, p) == Percent(b, p)
  {
    SortedUnique(SortOf(a), SortOf(b));
    assert a == [] <==> |multiset(a)| == 0;
    assert b == [] <==> |multiset(b)| == 0;
  }

  lemma Scale(m: real, p: real)
    ensures m * (p / 100.0) == (p * m) / 100.0
  {
  }

  lemma RankIs(n: nat, p: real, k: nat, w: real)
    requires n > 1 && 0.0 <= p <= 100.0 && 0.0 <= w < 1.0 && p * (n - 1) as real == 100.0 * (k as real + w)
    ensures Rank(n, p) == k as real + w && Rank(n, p).Floor == k
  {
    Scale((n - 1) as real, p);
  }

  lemma MixGap(a: real, b: real, w: real)
    ensures Mix(a, b, w) - a == w * (b - a)
  {
  }

  lemma PercentIs(values: seq<real>, p: real)
    requires |values| > 1 && 0.0 <= p <= 100.0
    ensures Percent(values, p) == Some(At(SortOf(values), Rank(|values|, p)))
  {
  }

  lemma AtGridRank(ordered: seq<real>, rank: real, k: nat, w: real, lower: real, upper: real)
    requires k < |ordered| - 1 && 0.0 <= w < 1.0 && rank == k as real + w
    requires lower == ordered[k] && upper == ordered[k + 1]
    ensures rank <= (|ordered| - 1) as real && At(ordered, rank) == Mix(lower, upper, w)
  {
    assert rank.Floor == k && rank - k as real == w;
  }

  lemma MixAtRank(values: seq<real>, p: real, k: nat, w: real, lower: real, upper: real)
    requires |values| > 1 && k < |values| - 1 && 0.0 <= w < 1.0 && 0.0 <= p <= 100.0
    requires Rank(|values|, p) == k as real + w
    requires lower == SortOf(values)[k] && upper == SortOf(values)[k + 1]
    ensures Percent(values, p) == Some(Mix(lower, upper, w))
  {
    PercentIs(values, p);
    AtGridRank(SortOf(values), Rank(|values|, p), k, w, lower, upper);
  }

  /** Between two neighbours in order, the `k`-th and the next, the percentile goes up from the
      lower by the fraction of the way times the gap; `rank` is where `p` percent of the way
      along the `gaps` falls. */
  lemma PercentInterpolates(values: seq<real>, p: real, gaps: real, rank: real, k: nat, w: real, lower: real, upper: real)
    requires |values| > 1 && k < |values| - 1 && 0.0 <= w < 1.0 && 0.0 <= p <= 100.0
    requires gaps == (|values| - 1) as real && p * gaps == 100.0 * rank && rank == k as real + w
    requires lower == SortOf(values)[k] && upper == SortOf(values)[k + 1]
    ensures Percent(values, p).value - lower == w * (upper - lower)
  {
    RankAt(values, p, gaps, rank, k, w);
    MixAtRank(values, p, k, w, lower, upper);
    MixGap(lower, upper, w);
  }

  lemma RankAt(values: seq<real>, p: real, gaps: real, rank: real, k: nat, w: real)
    requires |values| > 1 && 0.0 <= w < 1.0 && 0.0 <= p <= 100.0
    requires gaps == (|values| - 1) as real && rank == k as real + w && p * gaps == 100.0 * rank
    ensures Rank(|values|, p) == rank
  {
    RankIs(|values|, p, k, w);
  }
}
