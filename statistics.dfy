/**
 * The figures the statistics aggregator takes from Python's `statistics`
 * module and builtins, over exact reals: `min`, `max`, `mean`, and
 * `quantiles(data, n=100, method="inclusive")`, which sorts the data and
 * reads 99 cut points by linear interpolation over the inclusive range.
 */
module Statistics {

  /** Number of intervals the inclusive quantiles split the data into. */
  const Cuts: nat := 100

  predicate SortedAsc(s: seq<real>)
  {
    forall a, b :: 0 <= a < b < |s| ==> s[a] <= s[b]
  }

  function Insert(x: real, s: seq<real>): (r: seq<real>)
    requires SortedAsc(s)
    ensures SortedAsc(r)
    ensures multiset(r) == multiset(s) + multiset{x}
    ensures |r| == |s| + 1 && (r[0] == x || (s != [] && r[0] == s[0]))
  {
    if s == [] || x <= s[0] then [x] + s
    else
      var t := Insert(x, s[1..]);
      assert s == [s[0]] + s[1..];
      assert s[0] <= t[0];
      [s[0]] + t
  }

  /** `sorted(data)`: an ascending permutation of the data. */
  function Sort(s: seq<real>): (r: seq<real>)
    ensures SortedAsc(r)
    ensures multiset(r) == multiset(s)
    ensures |r| == |s|
  {
    if s == [] then []
    else
      assert s == [s[0]] + s[1..];
      Insert(s[0], Sort(s[1..]))
  }

  /** `min(data)`: a member of the data no larger than any other. */
  function Min(s: seq<real>): (m: real)
    requires |s| >= 1
    ensures m in s
    ensures forall x :: x in s ==> m <= x
  {
    if |s| == 1 then s[0]
    else
      assert s == [s[0]] + s[1..];
      var rest := Min(s[1..]);
      if s[0] <= rest then s[0] else rest
  }

  /** `max(data)`: a member of the data no smaller than any other. */
  function Max(s: seq<real>): (m: real)
    requires |s| >= 1
    ensures m in s
    ensures forall x :: x in s ==> x <= m
  {
    if |s| == 1 then s[0]
    else
      assert s == [s[0]] + s[1..];
      var rest := Max(s[1..]);
      if rest <= s[0] then s[0] else rest
  }

  function Sum(s: seq<real>): real
  {
    if s == [] then 0.0 else s[0] + Sum(s[1..])
  }

  /** `mean(data)`, the arithmetic mean, computed exactly. */
  function Mean(s: seq<real>): real
    requires |s| >= 1
  {
    Sum(s) / |s| as real
  }

  /** `divmod(i * m, 100)`: where cut point `i` falls among the `m + 1` sorted samples. */
  function CutPosition(i: nat, m: nat): (p: (nat, nat))
    requires 1 <= i < Cuts && m >= 1
    ensures p.0 < m && p.1 < Cuts
    ensures p.0 * Cuts + p.1 == i * m
  {
    assert i * m < Cuts * m by {
      assert (Cuts - i) * m >= m;
    }
    ((i * m) / Cuts, (i * m) % Cuts)
  }

  /** `(lo * (100 - delta) + hi * delta) / 100`. */
  function Interpolate(lo: real, hi: real, delta: nat): real
    requires delta < Cuts
  {
    (lo * (Cuts - delta) as real + hi * delta as real) / Cuts as real
  }

  /** The `i`-th inclusive cut point of sorted data. */
  function InclusiveCut(d: seq<real>, i: nat): real
    requires |d| >= 2 && 1 <= i < Cuts
  {
    var p := CutPosition(i, |d| - 1);
    Interpolate(d[p.0], d[p.0 + 1], p.1)
  }

  function CutsOf(d: seq<real>): (q: seq<real>)
    requires |d| >= 2
    ensures |q| == Cuts - 1
  {
    seq(Cuts - 1, k requires 0 <= k < Cuts - 1 => InclusiveCut(d, k + 1))
  }

  lemma CutsOfAt(d: seq<real>, k: nat)
    requires |d| >= 2 && k < Cuts - 1
    ensures CutsOf(d)[k] == InclusiveCut(d, k + 1)
  {
  }

  /** `quantiles(data, n=100, method="inclusive")`: the 99 cut points. */
  function Quantiles(data: seq<real>): (q: seq<real>)
    requires |data| >= 2
    ensures |q| == Cuts - 1
  {
    CutsOf(Sort(data))
  }

  lemma ProductNonNegative(a: real, b: real)
    requires a >= 0.0 && b >= 0.0
    ensures a * b >= 0.0
  {
  }

  lemma InterpolateBetween(lo: real, hi: real, delta: nat)
    requires delta < Cuts && lo <= hi
    ensures lo <= Interpolate(lo, hi, delta) <= hi
  {
    var w := delta as real;
    assert Interpolate(lo, hi, delta) == lo + (hi - lo) * w / 100.0;
    ProductNonNegative(hi - lo, w);
    ProductNonNegative(hi - lo, 100.0 - w);
    assert (hi - lo) * 100.0 - (hi - lo) * w == (hi - lo) * (100.0 - w);
  }

  lemma InterpolateMonotone(lo: real, hi: real, d1: nat, d2: nat)
    requires d1 <= d2 < Cuts && lo <= hi
    ensures Interpolate(lo, hi, d1) <= Interpolate(lo, hi, d2)
  {
    var w1, w2 := d1 as real, d2 as real;
    assert Interpolate(lo, hi, d1) == lo + (hi - lo) * w1 / 100.0;
    assert Interpolate(lo, hi, d2) == lo + (hi - lo) * w2 / 100.0;
    assert (hi - lo) * w2 - (hi - lo) * w1 == (hi - lo) * (w2 - w1);
    ProductNonNegative(hi - lo, w2 - w1);
  }

  /** Every cut point of sorted data lies between its first and last sample. */
  lemma InclusiveCutBounds(d: seq<real>, i: nat)
    requires |d| >= 2 && 1 <= i < Cuts && SortedAsc(d)
    ensures d[0] <= InclusiveCut(d, i) <= d[|d| - 1]
  {
    var p := CutPosition(i, |d| - 1);
    InterpolateBetween(d[p.0], d[p.0 + 1], p.1);
  }

  /** A later cut falls at the same sample with no smaller remainder, or at a later sample. */
  lemma CutPositionMonotone(i1: nat, i2: nat, m: nat)
    requires 1 <= i1 <= i2 < Cuts && m >= 1
    ensures CutPosition(i1, m).0 <= CutPosition(i2, m).0
    ensures CutPosition(i1, m).0 == CutPosition(i2, m).0 ==> CutPosition(i1, m).1 <= CutPosition(i2, m).1
  {
    var p1, p2 := CutPosition(i1, m), CutPosition(i2, m);
    assert i1 * m <= i2 * m by {
      assert i2 * m == i1 * m + (i2 - i1) * m;
    }
    assert p1.0 * Cuts + p1.1 <= p2.0 * Cuts + p2.1;
  }

  /** Cut points of sorted data never decrease as the cut index grows. */
  lemma InclusiveCutMonotone(d: seq<real>, i1: nat, i2: nat)
    requires |d| >= 2 && 1 <= i1 <= i2 < Cuts && SortedAsc(d)
    ensures InclusiveCut(d, i1) <= InclusiveCut(d, i2)
  {
    var m := |d| - 1;
    var p1, p2 := CutPosition(i1, m), CutPosition(i2, m);
    CutPositionMonotone(i1, i2, m);
    if p1.0 == p2.0 {
      InterpolateMonotone(d[p1.0], d[p1.0 + 1], p1.1, p2.1);
    } else {
      InterpolateBetween(d[p1.0], d[p1.0 + 1], p1.1);
      InterpolateBetween(d[p2.0], d[p2.0 + 1], p2.1);
      assert d[p1.0 + 1] <= d[p2.0];
    }
  }

  /** A sorted permutation of the data starts with its minimum and ends with its maximum. */
  lemma SortedPermutationEnds(d: seq<real>, s: seq<real>)
    requires |s| >= 1 && SortedAsc(d) && multiset(d) == multiset(s)
    ensures |d| == |s| && d[0] == Min(s) && d[|d| - 1] == Max(s)
  {
    assert |d| == |multiset(d)| == |multiset(s)| == |s|;
    var lo, hi := Min(s), Max(s);
    assert d[0] in multiset(s) && d[|d| - 1] in multiset(s);
    assert lo in multiset(d) && hi in multiset(d);
    assert d[0] in s && d[|d| - 1] in s;
    assert lo <= d[0] && d[|d| - 1] <= hi;
    assert lo in d && hi in d;
    var a :| 0 <= a < |d| && d[a] == lo;
    var b :| 0 <= b < |d| && d[b] == hi;
    assert d[0] <= d[a] && d[b] <= d[|d| - 1];
  }

  lemma QuantileAt(data: seq<real>, k: nat)
    requires |data| >= 2 && k < Cuts - 1
    ensures Quantiles(data)[k] == InclusiveCut(Sort(data), k + 1)
  {
    var d := Sort(data);
    assert Quantiles(data) == CutsOf(d);
    CutsOfAt(d, k);
  }

  /** The cut points of sorted data ascend and stay between its first and last sample. */
  lemma CutsOfOrdered(d: seq<real>)
    requires |d| >= 2 && SortedAsc(d)
    ensures SortedAsc(CutsOf(d))
    ensures forall k :: 0 <= k < Cuts - 1 ==> d[0] <= CutsOf(d)[k] <= d[|d| - 1]
  {
    var q := CutsOf(d);
    forall a, b | 0 <= a < b < |q|
      ensures q[a] <= q[b]
    {
      CutsOfAt(d, a);
      CutsOfAt(d, b);
      InclusiveCutMonotone(d, a + 1, b + 1);
    }
    forall k | 0 <= k < Cuts - 1
      ensures d[0] <= q[k] <= d[|d| - 1]
    {
      CutsOfAt(d, k);
      InclusiveCutBounds(d, k + 1);
    }
  }

  /** The 99 inclusive quantiles are in ascending order and lie between the minimum and the maximum. */
  lemma QuantilesOrdered(data: seq<real>)
    requires |data| >= 2
    ensures SortedAsc(Quantiles(data))
    ensures forall k :: 0 <= k < Cuts - 1 ==> Min(data) <= Quantiles(data)[k] <= Max(data)
  {
    var d := Sort(data);
    assert Quantiles(data) == CutsOf(d);
    CutsOfOrdered(d);
    SortedPermutationEnds(d, data);
  }

  lemma {:induction false} SumBounds(s: seq<real>, lo: real, hi: real)
    requires forall x :: x in s ==> lo <= x <= hi
    ensures |s| as real * lo <= Sum(s) <= |s| as real * hi
  {
    if s != [] {
      var n := (|s| - 1) as real;
      assert s == [s[0]] + s[1..];
      assert s[0] in s;
      assert forall x :: x in s[1..] ==> x in s;
      SumBounds(s[1..], lo, hi);
      assert |s[1..]| as real == n;
      assert |s| as real * lo == n * lo + lo && |s| as real * hi == n * hi + hi;
    }
  }

  lemma DivideBounds(total: real, n: real, lo: real, hi: real)
    requires n > 0.0 && n * lo <= total <= n * hi
    ensures lo <= total / n <= hi
  {
    assert (total / n) * n == total;
  }

  /** The mean lies between the minimum and the maximum. */
  lemma MeanBetween(s: seq<real>, lo: real, hi: real)
    requires |s| >= 1
    requires forall x :: x in s ==> lo <= x <= hi
    ensures lo <= Mean(s) <= hi
  {
    var n := |s| as real;
    SumBounds(s, lo, hi);
    DivideBounds(Sum(s), n, lo, hi);
  }

  lemma MeanBounds(s: seq<real>)
    requires |s| >= 1
    ensures Min(s) <= Mean(s) <= Max(s)
  {
    MeanBetween(s, Min(s), Max(s));
  }

  /** Sorting data that is already sorted leaves it unchanged. */
  lemma {:induction false} SortOfSorted(s: seq<real>)
    requires SortedAsc(s)
    ensures Sort(s) == s
  {
    if s != [] {
      SortOfSorted(s[1..]);
      assert s == [s[0]] + s[1..];
    }
  }
}
