/** The live chart buffer of a running test: every accepted reading becomes
    a point, and only the most recent 30 points are kept (`slice(-30)`). */
module Chart {

  /** The most points the chart keeps. */
  const Capacity: nat := 30

  /** One chart point: an opaque local time label and both channels. */
  datatype ChartPoint = ChartPoint(time: string, mq135: real, mq7: real)

  function Min(a: int, b: int): int
  {
    if a <= b then a else b
  }

  /** `s.slice(-n)` for a positive `n`: the last `n` elements of `s`, or all
      of `s` when it is shorter. */
  function Last<T>(s: seq<T>, n: nat): (r: seq<T>)
    ensures |r| == Min(|s|, n)
    ensures r == s[|s| - |r|..]
  {
    if |s| <= n then s else s[|s| - n..]
  }

  /** `[...prev, chartPoint].slice(-30)`: a bounded first-in first-out window. */
  function Append(chart: seq<ChartPoint>, p: ChartPoint): (r: seq<ChartPoint>)
    ensures |r| == Min(|chart| + 1, Capacity)
    ensures r[|r| - 1] == p
    ensures r[..|r| - 1] == chart[|chart| + 1 - |r|..]
  {
    var r := Last(chart + [p], Capacity);
    assert r[..|r| - 1] == (chart + [p])[|chart| + 1 - |r|..|chart|];
    r
  }

  /** Appending a point with non-negative readings to a chart whose readings
      are non-negative keeps them all non-negative. */
  lemma AppendKeepsNonNegative(chart: seq<ChartPoint>, p: ChartPoint)
    requires forall i :: 0 <= i < |chart| ==> chart[i].mq135 >= 0.0 && chart[i].mq7 >= 0.0
    requires p.mq135 >= 0.0 && p.mq7 >= 0.0
    ensures var r := Append(chart, p);
      forall i :: 0 <= i < |r| ==> r[i].mq135 >= 0.0 && r[i].mq7 >= 0.0
  {
    var r := Append(chart, p);
    var n := |r|;
    forall i | 0 <= i < n
      ensures r[i].mq135 >= 0.0 && r[i].mq7 >= 0.0
    {
      if i < n - 1 {
        assert r[i] == r[..n - 1][i] == chart[|chart| + 1 - n + i];
      }
    }
  }

  /** Appending the points `ps` one after the other. */
  function AppendAll(chart: seq<ChartPoint>, ps: seq<ChartPoint>): seq<ChartPoint>
    decreases |ps|
  {
    if ps == [] then chart else AppendAll(Append(chart, ps[0]), ps[1..])
  }

  /** Cutting to the last `n` before appending more and cutting again is the
      same as cutting once at the end. */
  lemma {:induction false} LastOfLast<T>(x: seq<T>, y: seq<T>, n: nat)
    ensures Last(Last(x, n) + y, n) == Last(x + y, n)
  {
    if |x| > n {
      var a := x[|x| - n..];
      var lhs := Last(a + y, n);
      var rhs := Last(x + y, n);
      assert |lhs| == |rhs| == n;
      forall i | 0 <= i < n
        ensures lhs[i] == rhs[i]
      {
        if |y| + i < n {
          assert lhs[i] == a[|y| + i] == x[|x| - n + |y| + i];
        } else {
          assert lhs[i] == y[|y| + i - n];
        }
      }
    }
  }

  /** Whatever the readings, the chart is always the last (at most) 30 of
      all points appended, in arrival order. */
  lemma {:induction false} AppendAllIsWindow(chart: seq<ChartPoint>, ps: seq<ChartPoint>)
    requires |chart| <= Capacity
    ensures AppendAll(chart, ps) == Last(chart + ps, Capacity)
    decreases |ps|
  {
    if ps == [] {
      assert chart + ps == chart;
    } else {
      var next := Append(chart, ps[0]);
      calc {
        AppendAll(chart, ps);
        AppendAll(next, ps[1..]);
        { AppendAllIsWindow(next, ps[1..]); }
        Last(next + ps[1..], Capacity);
        { LastOfLast(chart + [ps[0]], ps[1..], Capacity); }
        Last(chart + [ps[0]] + ps[1..], Capacity);
        { assert chart + [ps[0]] + ps[1..] == chart + ps; }
        Last(chart + ps, Capacity);
      }
    }
  }

  /** After 31 appends to an empty chart the first point is evicted and the
      other 30, including the 31st, remain in order. */
  lemma OverflowEvictsOldest(ps: seq<ChartPoint>)
    requires |ps| == Capacity + 1
    ensures AppendAll([], ps) == ps[1..]
    ensures ps[Capacity] in AppendAll([], ps)
    ensures ps[0] !in ps[1..] ==> ps[0] !in AppendAll([], ps)
  {
    AppendAllIsWindow([], ps);
    assert [] + ps == ps;
    assert ps[Capacity] == ps[1..][Capacity - 1];
  }
}
