/** The summary a saved test carries: mean and maximum of each channel over
    the chart points (the `avg_*` and `max_*` fields built by `handleSave`). */
module Aggregate {
  import opened Chart

  /** `values.reduce((sum, val) => sum + val, 0)`: a left fold. */
  function Sum(xs: seq<real>): real
  {
    if xs == [] then 0.0 else Sum(xs[..|xs| - 1]) + xs[|xs| - 1]
  }

  /** The arithmetic mean: the sum divided by the number of values. */
  function Mean(xs: seq<real>): real
    requires |xs| > 0
  {
    Sum(xs) / (|xs| as real)
  }

  /** `Math.max(...values)` on a non-empty list: an element no smaller than
      any other. */
  function MaxOf(xs: seq<real>): (m: real)
    requires |xs| > 0
    ensures m in xs
    ensures forall i :: 0 <= i < |xs| ==> xs[i] <= m
  {
    if |xs| == 1 then xs[0]
    else
      var m := MaxOf(xs[..|xs| - 1]);
      if m < xs[|xs| - 1] then xs[|xs| - 1] else m
  }

  /** The smallest value, the lower partner of `MaxOf` for stating where the
      mean lies. */
  function MinOf(xs: seq<real>): (m: real)
    requires |xs| > 0
    ensures m in xs
    ensures forall i :: 0 <= i < |xs| ==> m <= xs[i]
  {
    if |xs| == 1 then xs[0]
    else
      var m := MinOf(xs[..|xs| - 1]);
      if xs[|xs| - 1] < m then xs[|xs| - 1] else m
  }

  /** The mean times the number of values is the sum: `Mean` is the total
      shared out evenly. */
  lemma MeanTimesCount(xs: seq<real>)
    requires |xs| > 0
    ensures Mean(xs) * (|xs| as real) == Sum(xs)
  {
    var n := |xs| as real;
    assert Sum(xs) / n * n == Sum(xs);
  }

  /** A sum of `n` values each between `lo` and `hi` is between `n * lo` and
      `n * hi`. */
  lemma {:induction false} SumBounds(xs: seq<real>, lo: real, hi: real)
    requires forall i :: 0 <= i < |xs| ==> lo <= xs[i] <= hi
    ensures (|xs| as real) * lo <= Sum(xs) <= (|xs| as real) * hi
    decreases |xs|
  {
    if xs != [] {
      var init := xs[..|xs| - 1];
      assert forall i :: 0 <= i < |init| ==> init[i] == xs[i];
      SumBounds(init, lo, hi);
      var k := |init| as real;
      assert (|xs| as real) * lo == k * lo + lo;
      assert (|xs| as real) * hi == k * hi + hi;
    }
  }

  /** Dividing bounds `n * lo <= s <= n * hi` by a positive `n`. */
  lemma DivideBounds(s: real, n: real, lo: real, hi: real)
    requires n > 0.0
    requires n * lo <= s <= n * hi
    ensures lo <= s / n <= hi
  {
  }

  /** A mean of values between `lo` and `hi` is between `lo` and `hi`. */
  lemma MeanWithin(xs: seq<real>, lo: real, hi: real)
    requires |xs| > 0
    requires (|xs| as real) * lo <= Sum(xs) <= (|xs| as real) * hi
    ensures lo <= Mean(xs) <= hi
  {
    DivideBounds(Sum(xs), |xs| as real, lo, hi);
  }

  /** The mean lies between the smallest and the largest value. */
  lemma MeanBetweenMinAndMax(xs: seq<real>)
    requires |xs| > 0
    ensures MinOf(xs) <= Mean(xs) <= MaxOf(xs)
  {
    var lo, hi := MinOf(xs), MaxOf(xs);
    SumBounds(xs, lo, hi);
    MeanWithin(xs, lo, hi);
  }

  /** The readings of one channel, in chart order. */
  function Mq135Values(chart: seq<ChartPoint>): (vs: seq<real>)
    ensures |vs| == |chart|
    ensures forall i :: 0 <= i < |chart| ==> vs[i] == chart[i].mq135
  {
    seq(|chart|, i requires 0 <= i < |chart| => chart[i].mq135)
  }

  function Mq7Values(chart: seq<ChartPoint>): (vs: seq<real>)
    ensures |vs| == |chart|
    ensures forall i :: 0 <= i < |chart| ==> vs[i] == chart[i].mq7
  {
    seq(|chart|, i requires 0 <= i < |chart| => chart[i].mq7)
  }

  /** Mean and maximum of each channel, exact (before `toFixed(2)`). */
  datatype Summary = Summary(avgMq135: real, avgMq7: real, maxMq135: real, maxMq7: real)

  /** The summary of a non-empty chart: each maximum is one of the samples and
      bounds all of them, and each mean lies between the channel's smallest
      sample and its maximum. */
  function Summarize(chart: seq<ChartPoint>): (a: Summary)
    requires |chart| > 0
    ensures a.avgMq135 == Mean(Mq135Values(chart)) && a.avgMq7 == Mean(Mq7Values(chart))
    ensures forall i :: 0 <= i < |chart| ==> chart[i].mq135 <= a.maxMq135 && chart[i].mq7 <= a.maxMq7
    ensures exists i :: 0 <= i < |chart| && chart[i].mq135 == a.maxMq135
    ensures exists i :: 0 <= i < |chart| && chart[i].mq7 == a.maxMq7
    ensures MinOf(Mq135Values(chart)) <= a.avgMq135 <= a.maxMq135
    ensures MinOf(Mq7Values(chart)) <= a.avgMq7 <= a.maxMq7
    ensures (forall i :: 0 <= i < |chart| ==> chart[i].mq135 >= 0.0 && chart[i].mq7 >= 0.0) ==>
              a.avgMq135 >= 0.0 && a.avgMq7 >= 0.0
  {
    var a := Mq135Values(chart);
    var b := Mq7Values(chart);
    MeanBetweenMinAndMax(a);
    MeanBetweenMinAndMax(b);
    Summary(Mean(a), Mean(b), MaxOf(a), MaxOf(b))
  }

  /** Two points {10, 20} and {30, 40}: means 20 and 30, maxima 30 and 40. */
  lemma SummarizeExample()
    ensures Summarize([ChartPoint("", 10.0, 20.0), ChartPoint("", 30.0, 40.0)]) == Summary(20.0, 30.0, 30.0, 40.0)
  {
    var chart := [ChartPoint("", 10.0, 20.0), ChartPoint("", 30.0, 40.0)];
    assert Mq135Values(chart) == [10.0, 30.0];
    assert Mq7Values(chart) == [20.0, 40.0];
    assert [10.0, 30.0][..1] == [10.0];
    assert [20.0, 40.0][..1] == [20.0];
    assert [10.0][..0] == [];
    assert [20.0][..0] == [];
  }
}
