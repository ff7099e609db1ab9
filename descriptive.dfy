/** Descriptive statistics of one numeric column, as pandas computes them: count,
    mean, median, sample standard deviation, extremes, quartiles by linear
    interpolation, interquartile range and coefficient of variation. A statistic
    pandas reports as NaN is `None` here. */
module Descriptive {
  import opened Wrappers
  import opened Foreign
  import opened Sorting

  function Identity(x: real): real { x }

  function Sorted(s: seq<real>): seq<real> {
    SortBy(s, Identity)
  }

  function Sum(s: seq<real>): real {
    if |s| == 0 then 0.0 else s[0] + Sum(s[1..])
  }

  function Mean(s: seq<real>): real
    requires |s| > 0
  {
    Sum(s) / |s| as real
  }

  function MinOf(s: seq<real>): (m: real)
    requires |s| > 0
    ensures m in s && forall i :: 0 <= i < |s| ==> m <= s[i]
  {
    if |s| == 1 then s[0]
    else
      var rest := MinOf(s[1..]);
      if s[0] <= rest then s[0] else rest
  }

  function MaxOf(s: seq<real>): (m: real)
    requires |s| > 0
    ensures m in s && forall i :: 0 <= i < |s| ==> s[i] <= m
  {
    if |s| == 1 then s[0]
    else
      var rest := MaxOf(s[1..]);
      if s[0] >= rest then s[0] else rest
  }

  function SquaredDeviations(s: seq<real>, m: real): real {
    if |s| == 0 then 0.0 else (s[0] - m) * (s[0] - m) + SquaredDeviations(s[1..], m)
  }

  /** Sample variance, with `n - 1` in the denominator (pandas' `ddof=1`). */
  function SampleVariance(s: seq<real>): real
    requires |s| > 1
  {
    SquaredDeviations(s, Mean(s)) / (|s| - 1) as real
  }

  /** The fractional rank `q * (n - 1)` of the `q`-quantile among `n` sorted values. */
  function Position(n: nat, q: real): (pos: real)
    requires n > 0 && 0.0 <= q <= 1.0
    ensures pos == q * (n - 1) as real
    ensures 0.0 <= pos <= (n - 1) as real
  {
    var c := (n - 1) as real;
    ScaleBelow(0.0, q, c);
    ScaleBelow(q, 1.0, c);
    assert 1.0 * c == c;
    q * c
  }

  /** The `q`-quantile of sorted data by linear interpolation between the two
      nearest ranks (pandas' default). */
  function Interpolate(t: seq<real>, q: real): real
    requires |t| > 0 && 0.0 <= q <= 1.0
  {
    var pos := Position(|t|, q);
    var i := pos.Floor;
    if i + 1 < |t| then Lerp(t[i], t[i + 1], pos - i as real) else t[i]
  }

  /** The point a fraction `f` of the way from `a` to `b`. */
  function Lerp(a: real, b: real, f: real): real {
    a + (b - a) * f
  }

  function Quantile(s: seq<real>, q: real): real
    requires |s| > 0 && 0.0 <= q <= 1.0
  {
    SortByProperties(s, Identity);
    Interpolate(Sorted(s), q)
  }

  /** The median: the middle value of the sorted data, or the mean of the two
      middle values when their number is even. */
  function Median(s: seq<real>): real
    requires |s| > 0
  {
    SortByProperties(s, Identity);
    var t, n := Sorted(s), |s|;
    if n % 2 == 1 then t[n / 2] else (t[n / 2 - 1] + t[n / 2]) / 2.0
  }

  datatype Stats = Stats(
    count: nat,
    mean: Option<real>,
    median: Option<real>,
    std: Option<real>,
    min: Option<real>,
    max: Option<real>,
    q25: Option<real>,
    q75: Option<real>,
    iqr: Option<real>,
    cv: Option<real>
  )

  /** `calculate_descriptive_stats` on the column's values after `dropna()`. `count`
      is the number of values; an empty column has every other statistic missing
      (NaN); the standard deviation needs two values; the coefficient of variation
      is exactly 0 when the mean is 0 and std / mean * 100 otherwise. */
  function Describe(data: seq<real>, lib: Library): (st: Stats)
    ensures st.count == |data|
    ensures |data| == 0 ==> st.mean == st.median == st.std == st.min == st.max == None
    ensures |data| == 0 ==> st.q25 == st.q75 == st.iqr == st.cv == None
    ensures st.std.Some? <==> |data| >= 2
    ensures st.mean == Some(0.0) ==> st.cv == Some(0.0)
    ensures st.mean.Some? && st.mean.value != 0.0 ==>
      st.cv == if st.std.Some? then Some(st.std.value / st.mean.value * 100.0) else None
  {
    var n := |data|;
    var mean := if n > 0 then Some(Mean(data)) else None;
    var std := if n > 1 then Some(lib.sqrt(SampleVariance(data))) else None;
    var q25 := if n > 0 then Some(Quantile(data, 0.25)) else None;
    var q75 := if n > 0 then Some(Quantile(data, 0.75)) else None;
    Stats(
      count := n,
      mean := mean,
      median := if n > 0 then Some(Median(data)) else None,
      std := std,
      min := if n > 0 then Some(MinOf(data)) else None,
      max := if n > 0 then Some(MaxOf(data)) else None,
      q25 := q25,
      q75 := q75,
      iqr := if n > 0 then Some(q75.value - q25.value) else None,
      cv := match mean
            case None => None
            case Some(m) =>
              if m != 0.0 then (if std.Some? then Some(std.value / m * 100.0) else None)
              else Some(0.0)
    )
  }

  // ---------------------------------------------------------------------------
  // Properties of the statistics

  lemma ScaleBelow(a: real, b: real, c: real)
    requires a <= b && c >= 0.0
    ensures a * c <= b * c
  {
    assert b * c - a * c == (b - a) * c;
  }

  lemma DivideBetween(total: real, n: real, lo: real, hi: real)
    requires n > 0.0 && n * lo <= total <= n * hi
    ensures lo <= total / n <= hi
  {
    var m := total / n;
    assert total == n * m;
  }

  lemma {:induction false} SumBounds(s: seq<real>, lo: real, hi: real)
    requires forall i :: 0 <= i < |s| ==> lo <= s[i] <= hi
    ensures |s| as real * lo <= Sum(s) <= |s| as real * hi
  {
    if |s| > 0 {
      SumBounds(s[1..], lo, hi);
    }
  }

  /** The mean lies between the smallest and the largest value. */
  lemma {:induction false} MeanBetweenExtremes(s: seq<real>)
    requires |s| > 0
    ensures MinOf(s) <= Mean(s) <= MaxOf(s)
  {
    MeanBetween(s, MinOf(s), MaxOf(s));
  }

  /** The mean of values within bounds is within the same bounds. */
  lemma MeanBetween(s: seq<real>, lo: real, hi: real)
    requires |s| > 0
    requires forall i :: 0 <= i < |s| ==> lo <= s[i] <= hi
    ensures lo <= Mean(s) <= hi
  {
    SumBounds(s, lo, hi);
    DivideBetween(Sum(s), |s| as real, lo, hi);
  }

  /** Sorted data starts with the minimum and ends with the maximum. */
  lemma SortedEnds(s: seq<real>)
    requires |s| > 0
    ensures |Sorted(s)| == |s|
    ensures SortedBy(Sorted(s), Identity)
    ensures Sorted(s)[0] == MinOf(s) && Sorted(s)[|s| - 1] == MaxOf(s)
  {
    SortByProperties(s, Identity);
    var t := Sorted(s);
    assert t[0] in multiset(s) && t[|s| - 1] in multiset(s);
    assert MinOf(s) in multiset(t) && MaxOf(s) in multiset(t);
    var a :| 0 <= a < |t| && t[a] == MinOf(s);
    var b :| 0 <= b < |t| && t[b] == MaxOf(s);
    SortedBetweenEnds(t, a);
    SortedBetweenEnds(t, b);
  }

  /** In a sorted sequence every element lies between the first and the last. */
  lemma SortedBetweenEnds(t: seq<real>, i: nat)
    requires SortedBy(t, Identity) && i < |t|
    ensures t[0] <= t[i] <= t[|t| - 1]
  {
    if i > 0 {
      assert Identity(t[0]) <= Identity(t[i]);
    }
    if i < |t| - 1 {
      assert Identity(t[i]) <= Identity(t[|t| - 1]);
    }
  }

  lemma PositionMonotone(n: nat, q1: real, q2: real)
    requires n > 0 && 0.0 <= q1 <= q2 <= 1.0
    ensures Position(n, q1) <= Position(n, q2)
  {
    var c := (n - 1) as real;
    NonNegativeProduct(q2 - q1, c);
    assert Position(n, q2) - Position(n, q1) == (q2 - q1) * c;
  }

  lemma NonNegativeProduct(x: real, y: real)
    requires x >= 0.0 && y >= 0.0
    ensures x * y >= 0.0
  {
  }

  lemma LerpBetween(a: real, b: real, f: real)
    requires a <= b && 0.0 <= f <= 1.0
    ensures a <= Lerp(a, b, f) <= b
  {
    ScaleBelow(0.0, f, b - a);
    ScaleBelow(f, 1.0, b - a);
  }

  lemma LerpMonotone(a: real, b: real, f1: real, f2: real)
    requires a <= b && f1 <= f2
    ensures Lerp(a, b, f1) <= Lerp(a, b, f2)
  {
    ScaleBelow(f1, f2, b - a);
  }

  lemma InterpolateBounds(t: seq<real>, q: real)
    requires |t| > 0 && 0.0 <= q <= 1.0
    requires SortedBy(t, Identity)
    ensures t[0] <= Interpolate(t, q) <= t[|t| - 1]
  {
    var pos := Position(|t|, q);
    var i := pos.Floor;
    assert Identity(t[0]) <= Identity(t[i]) && Identity(t[i]) <= Identity(t[|t| - 1]);
    if i + 1 < |t| {
      assert Identity(t[i]) <= Identity(t[i + 1]) && Identity(t[i + 1]) <= Identity(t[|t| - 1]);
      LerpBetween(t[i], t[i + 1], pos - i as real);
    }
  }

  /** Interpolated quantiles of sorted data grow with `q`. */
  lemma InterpolateMonotone(t: seq<real>, q1: real, q2: real)
    requires |t| > 0 && 0.0 <= q1 <= q2 <= 1.0
    requires SortedBy(t, Identity)
    ensures Interpolate(t, q1) <= Interpolate(t, q2)
  {
    var p1, p2 := Position(|t|, q1), Position(|t|, q2);
    PositionMonotone(|t|, q1, q2);
    var i1, i2 := p1.Floor, p2.Floor;
    var f1, f2 := p1 - i1 as real, p2 - i2 as real;
    assert i1 <= i2;
    if i1 == i2 {
      if i1 + 1 < |t| {
        assert Identity(t[i1]) <= Identity(t[i1 + 1]);
        LerpMonotone(t[i1], t[i1 + 1], f1, f2);
      }
    } else {
      assert i1 + 1 < |t|;
      assert Identity(t[i1]) <= Identity(t[i1 + 1]);
      LerpBetween(t[i1], t[i1 + 1], f1);
      assert Identity(t[i1 + 1]) <= Identity(t[i2]);
      if i2 + 1 < |t| {
        assert Identity(t[i2]) <= Identity(t[i2 + 1]);
        LerpBetween(t[i2], t[i2 + 1], f2);
      }
    }
  }

  /** The textbook median is the 0.5-quantile by linear interpolation. */
  lemma MedianIsHalfQuantile(s: seq<real>)
    requires |s| > 0
    ensures Median(s) == Quantile(s, 0.5)
  {
    SortByProperties(s, Identity);
    MiddleInterpolation(Sorted(s));
  }

  /** Interpolating at one half picks the middle value, or the midpoint of the two
      middle values of an even number of values. */
  lemma MiddleInterpolation(t: seq<real>)
    requires |t| > 0
    ensures var n := |t|;
      Interpolate(t, 0.5) == if n % 2 == 1 then t[n / 2] else (t[n / 2 - 1] + t[n / 2]) / 2.0
  {
    var n := |t|;
    var k := n / 2;
    var pos := Position(n, 0.5);
    if n % 2 == 1 {
      assert n == 2 * k + 1;
      assert (n - 1) as real == 2.0 * k as real;
      assert pos == k as real;
      assert pos.Floor == k;
    } else {
      assert n == 2 * k;
      assert (n - 1) as real == 2.0 * (k - 1) as real + 1.0;
      assert pos == (k - 1) as real + 0.5;
      assert pos.Floor == k - 1;
      assert Lerp(t[k - 1], t[k], 0.5) == (t[k - 1] + t[k]) / 2.0;
    }
  }

  /** A non-empty column has every statistic except possibly the standard deviation
      and the coefficient of variation, and they are ordered:
      min <= q25 <= median <= q75 <= max, with the mean between min and max and a
      non-negative interquartile range equal to q75 - q25. */
  lemma DescribeOrdered(data: seq<real>, lib: Library)
    requires |data| > 0
    ensures var st := Describe(data, lib);
      && st.min.Some? && st.q25.Some? && st.median.Some? && st.q75.Some? && st.max.Some?
      && st.mean.Some? && st.iqr.Some?
      && st.min.value <= st.q25.value <= st.median.value <= st.q75.value <= st.max.value
      && st.min.value <= st.mean.value <= st.max.value
      && st.iqr.value == st.q75.value - st.q25.value && st.iqr.value >= 0.0
  {
    SortedEnds(data);
    var t := Sorted(data);
    InterpolateBounds(t, 0.25);
    InterpolateBounds(t, 0.75);
    InterpolateMonotone(t, 0.25, 0.5);
    InterpolateMonotone(t, 0.5, 0.75);
    MedianIsHalfQuantile(data);
    MeanBetweenExtremes(data);
  }
}
