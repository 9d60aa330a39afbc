/**
 * The dashboard's KPI figures, reduced from the derived rows: the current
 * total, its growth against the first day of the window, the average
 * conversion and the average revenue per user, and the progress bar fed by
 * the growth.
 *
 * Numbers are reals; JavaScript's `Math.round(x)` is `Floor(x + 1/2)`.
 * Division by zero, which JavaScript turns into `Infinity` or `NaN`, is
 * reported as `None`.
 */
module DashboardKpis {
  import opened Wrappers
  import opened DashboardSeries

  /** `Math.round`: the nearest integer, halves rounded up. */
  function Round(x: real): (n: int)
    ensures n as real - 0.5 <= x < n as real + 0.5
  {
    (x + 0.5).Floor
  }

  /** The KPI record the page renders. */
  datatype Kpis = Kpis(totalNow: int, growth: Option<real>, convAvg: real, arpuAvg: real)

  /** `last.selectedTotal || 0`: the last row's total, or 0 when there is no row. */
  function LastTotal(rows: seq<Row>): real {
    if rows == [] then 0.0 else rows[|rows| - 1].selectedTotal
  }

  /** `first.selectedTotal || 1`: the first row's total, a missing or zero one replaced by 1. */
  function FirstBaseline(rows: seq<Row>): (b: real)
    ensures b != 0.0
    ensures rows == [] || rows[0].selectedTotal == 0.0 ==> b == 1.0
    ensures rows != [] && rows[0].selectedTotal != 0.0 ==> b == rows[0].selectedTotal
  {
    if rows == [] || rows[0].selectedTotal == 0.0 then 1.0 else rows[0].selectedTotal
  }

  /** `totalNow`: the last row's total rounded; 0 for an empty window. */
  function TotalNow(rows: seq<Row>): (n: int)
    ensures rows == [] ==> n == 0
    ensures rows != [] ==> n as real - 0.5 <= rows[|rows| - 1].selectedTotal < n as real + 0.5
  {
    Round(LastTotal(rows))
  }

  /** `totalPrev`: the baseline rounded; 1 for an empty window or a zero first total. */
  function TotalPrev(rows: seq<Row>): (n: int)
    ensures rows == [] || rows[0].selectedTotal == 0.0 ==> n == 1
    ensures rows != [] && rows[0].selectedTotal != 0.0 ==>
              n as real - 0.5 <= rows[0].selectedTotal < n as real + 0.5
  {
    Round(FirstBaseline(rows))
  }

  /** The first total falls in the band the `|| 1` fallback misses but rounding sends to 0. */
  predicate ZeroDivisor(rows: seq<Row>) {
    rows != [] && rows[0].selectedTotal != 0.0 && -0.5 <= rows[0].selectedTotal < 0.5
  }

  /**
   * `growth`: percent change of the rounded current total against the rounded
   * baseline, exactly as written; `None` where that baseline rounds to 0.
   */
  function Growth(rows: seq<Row>): (g: Option<real>)
    ensures g.None? <==> ZeroDivisor(rows)
    ensures g.Some? ==> g.value * TotalPrev(rows) as real == (TotalNow(rows) - TotalPrev(rows)) as real * 100.0
  {
    var now, prev := TotalNow(rows), TotalPrev(rows);
    if prev == 0 then None else Some((now - prev) as real / prev as real * 100.0)
  }

  /** Growth is zero when the rounded totals agree and the baseline is not zero. */
  lemma GrowthFlat(rows: seq<Row>)
    requires TotalNow(rows) == TotalPrev(rows) && !ZeroDivisor(rows)
    ensures Growth(rows) == Some(0.0)
  {
  }

  /** Against a positive baseline growth is non-negative exactly when the total did not fall. */
  lemma GrowthSign(rows: seq<Row>)
    requires TotalPrev(rows) > 0
    ensures Growth(rows).Some?
    ensures Growth(rows).value >= 0.0 <==> TotalNow(rows) >= TotalPrev(rows)
  {
  }

  /**
   * For a window whose first total is not negative (segment values are never
   * negative), growth is undefined exactly when that total lies strictly
   * between 0 and 1/2.
   */
  lemma GrowthUndefinedBand(rows: seq<Row>)
    requires rows != [] && rows[0].selectedTotal >= 0.0
    ensures Growth(rows).None? <==> 0.0 < rows[0].selectedTotal < 0.5
  {
  }

  /** A first total of 1/4 passes the `|| 1` guard and then rounds to a zero divisor. */
  lemma GrowthZeroDivisorExample(p: Point, rest: seq<Row>)
    ensures Growth([Row(p, 0.25)] + rest).None?
  {
  }

  /**
   * The divisor as evidently intended: the rounded first total, replaced by 1
   * when it is missing or rounds to 0 (`Math.round(first.selectedTotal) || 1`).
   */
  function GuardedTotalPrev(rows: seq<Row>): (n: int)
    ensures n != 0
    ensures rows != [] && !ZeroDivisor(rows) ==> n == TotalPrev(rows)
  {
    var r := Round(if rows == [] then 0.0 else rows[0].selectedTotal);
    if r == 0 then 1 else r
  }

  /** Growth against the guarded divisor: always defined. */
  function GuardedGrowth(rows: seq<Row>): (g: real)
    ensures g * GuardedTotalPrev(rows) as real == (TotalNow(rows) - GuardedTotalPrev(rows)) as real * 100.0
  {
    var now, prev := TotalNow(rows), GuardedTotalPrev(rows);
    (now - prev) as real / prev as real * 100.0
  }

  /** The guarded growth agrees with the written one wherever the written one is defined. */
  lemma GuardedGrowthAgrees(rows: seq<Row>)
    ensures Growth(rows).Some? ==> Growth(rows).value == GuardedGrowth(rows)
  {
  }

  /** The two numeric columns the averages read. */
  datatype Metric = Conversion | Arpu

  /** `c.conversion || 0` and `c.arpu || 0`: a missing value counts as zero. */
  function MetricOf(p: Point, m: Metric): real {
    var v := if m == Conversion then p.conversion else p.arpu;
    if v.Some? then v.value else 0.0
  }

  /** The `reduce` over the rows: a left fold of one metric starting at 0. */
  function MetricSum(rows: seq<Row>, m: Metric): real {
    if rows == [] then 0.0 else MetricSum(rows[..|rows| - 1], m) + MetricOf(rows[|rows| - 1].point, m)
  }

  /** `sum / Math.max(1, length)`: the mean over a non-empty window, 0 over an empty one. */
  function Average(rows: seq<Row>, m: Metric): (a: real)
    ensures rows == [] ==> a == 0.0
    ensures rows != [] ==> a * |rows| as real == MetricSum(rows, m)
  {
    MetricSum(rows, m) / (if |rows| > 1 then |rows| else 1) as real
  }

  /** Rows that carry the same points, whatever their totals, have the same metric sum. */
  lemma {:induction false} MetricSumIgnoresTotals(a: seq<Row>, b: seq<Row>, m: Metric)
    requires |a| == |b|
    requires forall i :: 0 <= i < |a| ==> a[i].point == b[i].point
    ensures MetricSum(a, m) == MetricSum(b, m)
  {
    if a != [] {
      MetricSumIgnoresTotals(a[..|a| - 1], b[..|b| - 1], m);
    }
  }

  /** The averages do not depend on which segments are active. */
  lemma AverageIgnoresSelection(base: seq<Point>, s1: seq<Segment>, s2: seq<Segment>, m: Metric)
    ensures Average(Derive(base, s1), m) == Average(Derive(base, s2), m)
  {
    MetricSumIgnoresTotals(Derive(base, s1), Derive(base, s2), m);
  }

  /** If every row's value lies in [lo, hi], the sum lies between n * lo and n * hi. */
  lemma {:induction false} MetricSumBounds(rows: seq<Row>, m: Metric, lo: real, hi: real)
    requires forall i :: 0 <= i < |rows| ==> lo <= MetricOf(rows[i].point, m) <= hi
    ensures |rows| as real * lo <= MetricSum(rows, m) <= |rows| as real * hi
  {
    if rows != [] {
      var init, v := rows[..|rows| - 1], MetricOf(rows[|rows| - 1].point, m);
      forall i | 0 <= i < |init|
        ensures lo <= MetricOf(init[i].point, m) <= hi
      {
        assert init[i] == rows[i];
      }
      MetricSumBounds(init, m, lo, hi);
      assert MetricSum(rows, m) == MetricSum(init, m) + v;
      StepBounds(|init|, MetricSum(init, m), v, lo, hi);
    }
  }

  /** A sum of `n` values within bounds, plus one more such value, is a sum of `n + 1`. */
  lemma StepBounds(n: nat, sum: real, v: real, lo: real, hi: real)
    requires n as real * lo <= sum <= n as real * hi
    requires lo <= v <= hi
    ensures (n + 1) as real * lo <= sum + v <= (n + 1) as real * hi
  {
    OneMore(n, lo);
    OneMore(n, hi);
  }

  /** One more row adds one more copy of a bound. */
  lemma OneMore(n: nat, x: real)
    ensures (n + 1) as real * x == n as real * x + x
  {
  }

  /** The average of a non-empty window lies between the smallest and largest row value. */
  lemma AverageBounds(rows: seq<Row>, m: Metric, lo: real, hi: real)
    requires rows != []
    requires forall i :: 0 <= i < |rows| ==> lo <= MetricOf(rows[i].point, m) <= hi
    ensures lo <= Average(rows, m) <= hi
  {
    MetricSumBounds(rows, m, lo, hi);
    var n, a := |rows| as real, Average(rows, m);
    assert a * n == MetricSum(rows, m);
  }

  /** `totals`: the four KPI figures of a window. */
  function Totals(rows: seq<Row>): (k: Kpis)
    ensures k.totalNow == TotalNow(rows)
    ensures k.growth.None? <==> ZeroDivisor(rows)
    ensures k.growth.Some? ==>
              k.growth.value * TotalPrev(rows) as real == (TotalNow(rows) - TotalPrev(rows)) as real * 100.0
    ensures k.convAvg == Average(rows, Conversion) && k.arpuAvg == Average(rows, Arpu)
  {
    Kpis(TotalNow(rows), Growth(rows), Average(rows, Conversion), Average(rows, Arpu))
  }

  /**
   * An empty window gives total 0, zero averages and growth -100: the baseline
   * falls back to 1 while the current total is 0.
   */
  lemma TotalsOfEmptyWindow()
    ensures Totals([]) == Kpis(0, Some(-100.0), 0.0, 0.0)
  {
  }

  /** With no active segment a non-empty window reports total 0 and growth -100. */
  lemma TotalsOfEmptySelection(base: seq<Point>)
    requires base != []
    ensures Totals(Derive(base, [])).totalNow == 0
    ensures Totals(Derive(base, [])).growth == Some(-100.0)
  {
  }

  /** Totals 100, 110, 121 give a growth of 21 percent. */
  lemma GrowthExample(p: Point, q: Point, r: Point)
    ensures Growth([Row(p, 100.0), Row(q, 110.0), Row(r, 121.0)]) == Some(21.0)
  {
    var rows := [Row(p, 100.0), Row(q, 110.0), Row(r, 121.0)];
    assert TotalNow(rows) == 121;
    assert TotalPrev(rows) == 100;
    assert (121 - 100) as real / 100 as real * 100.0 == 21.0;
  }

  /** The progress bar value `min(100, max(0, 50 + growth))`, always within [0, 100]. */
  function Progress(growth: real): (p: real)
    ensures 0.0 <= p <= 100.0
    ensures -50.0 <= growth <= 50.0 ==> p == 50.0 + growth
    ensures growth <= -50.0 ==> p == 0.0
    ensures growth >= 50.0 ==> p == 100.0
  {
    var raised := if 50.0 + growth > 0.0 then 50.0 + growth else 0.0;
    if raised < 100.0 then raised else 100.0
  }

  /** The progress bar never decreases as growth increases. */
  lemma ProgressMonotone(g1: real, g2: real)
    requires g1 <= g2
    ensures Progress(g1) <= Progress(g2)
  {
  }
}
