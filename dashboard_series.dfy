/**
 * The dashboard's metric series and the per-row "selected total".
 *
 * A daily point carries a value per customer segment, a conversion rate and an
 * average revenue per user. The dashboard picks one of four precomputed series
 * by a range token and adds to every point the sum of the active segments'
 * values.
 */
module DashboardSeries {
  import opened Wrappers

  /** The fixed segment enumeration. */
  datatype Segment = Retail | SME | Enterprise

  /** The segments in their declared order; also the initial selection. */
  const AllSegments: seq<Segment> := [Retail, SME, Enterprise]

  /**
   * One daily record of a series. A segment missing from `values` and an
   * absent `conversion` or `arpu` are what the code's `?? 0` and `|| 0`
   * fallbacks guard against.
   */
  datatype Point = Point(
    date: string,
    total: real,
    values: map<Segment, real>,
    conversion: Option<real>,
    arpu: Option<real>)

  /** A derived chart row: the source point with its selected total added. */
  datatype Row = Row(point: Point, selectedTotal: real)

  /** The four series the page generates once, by window length. */
  datatype Series = Series(
    days30: seq<Point>,
    days90: seq<Point>,
    days180: seq<Point>,
    days365: seq<Point>)

  /** The series as generated: one point per day of each window. */
  predicate WellFormed(series: Series) {
    && |series.days30| == 30
    && |series.days90| == 90
    && |series.days180| == 180
    && |series.days365| == 365
  }

  /** Number of days behind a range token; every unknown token means a year. */
  function WindowDays(range: string): (n: nat)
    ensures n in {30, 90, 180, 365}
    ensures range !in {"30d", "90d", "180d"} ==> n == 365
  {
    match range
    case "30d" => 30
    case "90d" => 90
    case "180d" => 180
    case _ => 365
  }

  /** `pickData`: the series for a range token, falling back to the yearly one. */
  function PickData(range: string, series: Series): (data: seq<Point>)
    ensures range == "30d" ==> data == series.days30
    ensures range == "90d" ==> data == series.days90
    ensures range == "180d" ==> data == series.days180
    ensures range !in {"30d", "90d", "180d"} ==> data == series.days365
  {
    match range
    case "30d" => series.days30
    case "90d" => series.days90
    case "180d" => series.days180
    case _ => series.days365
  }

  /** The picked series has exactly as many points as the token's window has days. */
  lemma PickedLength(range: string, series: Series)
    requires WellFormed(series)
    ensures |PickData(range, series)| == WindowDays(range)
  {
  }

  /** `d[s] ?? 0`: a segment's value, a missing one counting as zero. */
  function Value(p: Point, s: Segment): real {
    if s in p.values then p.values[s] else 0.0
  }

  /** The `reduce` over the active segment list, a left fold starting at 0. */
  function SelectedTotal(p: Point, segments: seq<Segment>): real {
    if segments == [] then 0.0
    else SelectedTotal(p, segments[..|segments| - 1]) + Value(p, segments[|segments| - 1])
  }

  /** Number of occurrences of `s` in a segment list. */
  function Count(segments: seq<Segment>, s: Segment): nat {
    multiset(segments)[s]
  }

  /** `v` added to itself `c` times: the contribution of a segment listed `c` times. */
  function Times(c: nat, v: real): real {
    if c == 0 then 0.0 else Times(c - 1, v) + v
  }

  /** Appending one segment adds one occurrence of it and of nothing else. */
  lemma CountSnoc(init: seq<Segment>, last: Segment, s: Segment)
    ensures Count(init + [last], s) == Count(init, s) + (if s == last then 1 else 0)
  {
  }

  /**
   * The selected total weighs each segment's value by how often the segment
   * occurs in the list; in particular it does not depend on the list's order.
   */
  lemma {:induction false} SelectedTotalByCount(p: Point, segments: seq<Segment>)
    ensures SelectedTotal(p, segments)
         == Times(Count(segments, Retail), Value(p, Retail))
          + Times(Count(segments, SME), Value(p, SME))
          + Times(Count(segments, Enterprise), Value(p, Enterprise))
  {
    if segments != [] {
      var init, last := segments[..|segments| - 1], segments[|segments| - 1];
      SelectedTotalByCount(p, init);
      assert segments == init + [last];
      CountSnoc(init, last, Retail);
      CountSnoc(init, last, SME);
      CountSnoc(init, last, Enterprise);
    }
  }

  /** Two selections holding the same segments, in any order, give the same total. */
  lemma SelectedTotalOrderFree(p: Point, a: seq<Segment>, b: seq<Segment>)
    requires multiset(a) == multiset(b)
    ensures SelectedTotal(p, a) == SelectedTotal(p, b)
  {
    SelectedTotalByCount(p, a);
    SelectedTotalByCount(p, b);
  }

  /** An empty selection gives a total of zero on every point. */
  lemma SelectedTotalEmpty(p: Point)
    ensures SelectedTotal(p, []) == 0.0
  {
  }

  /** The full selection sums the three segment values, missing ones as zero. */
  lemma SelectedTotalAll(p: Point)
    ensures SelectedTotal(p, AllSegments) == Value(p, Retail) + Value(p, SME) + Value(p, Enterprise)
  {
    SelectedTotalByCount(p, AllSegments);
  }

  /** No segment occurs twice in the list. */
  predicate NoDuplicates(segments: seq<Segment>) {
    forall i, j :: 0 <= i < j < |segments| ==> segments[i] != segments[j]
  }

  /** In a list without duplicates a segment occurs once if present and never otherwise. */
  lemma {:induction false} CountNoDuplicates(segments: seq<Segment>, s: Segment)
    requires NoDuplicates(segments)
    ensures Count(segments, s) == if s in segments then 1 else 0
  {
    if segments != [] {
      var init, last := segments[..|segments| - 1], segments[|segments| - 1];
      assert NoDuplicates(init);
      CountNoDuplicates(init, s);
      assert segments == init + [last];
      CountSnoc(init, last, s);
    }
  }

  /** For a duplicate-free selection the total is the sum of the selected segments' values. */
  lemma SelectedTotalOfSet(p: Point, segments: seq<Segment>)
    requires NoDuplicates(segments)
    ensures SelectedTotal(p, segments)
         == (if Retail in segments then Value(p, Retail) else 0.0)
          + (if SME in segments then Value(p, SME) else 0.0)
          + (if Enterprise in segments then Value(p, Enterprise) else 0.0)
  {
    SelectedTotalByCount(p, segments);
    CountNoDuplicates(segments, Retail);
    CountNoDuplicates(segments, SME);
    CountNoDuplicates(segments, Enterprise);
  }

  /** A list's length is the sum of its three segment counts. */
  lemma {:induction false} LengthByCount(segments: seq<Segment>)
    ensures |segments| == Count(segments, Retail) + Count(segments, SME) + Count(segments, Enterprise)
  {
    if segments != [] {
      var init, last := segments[..|segments| - 1], segments[|segments| - 1];
      LengthByCount(init);
      assert segments == init + [last];
      CountSnoc(init, last, Retail);
      CountSnoc(init, last, SME);
      CountSnoc(init, last, Enterprise);
    }
  }

  /** A duplicate-free selection has at most as many segments as the enumeration. */
  lemma NoDuplicatesBound(segments: seq<Segment>)
    requires NoDuplicates(segments)
    ensures |segments| <= |AllSegments|
  {
    LengthByCount(segments);
    CountNoDuplicates(segments, Retail);
    CountNoDuplicates(segments, SME);
    CountNoDuplicates(segments, Enterprise);
  }

  /**
   * The `data` derivation: every point of the picked series, in order, with
   * its selected total added and nothing else changed.
   */
  function Derive(base: seq<Point>, segments: seq<Segment>): (rows: seq<Row>)
    ensures |rows| == |base|
    ensures forall i :: 0 <= i < |base| ==> rows[i].point == base[i]
    ensures forall i :: 0 <= i < |base| ==> rows[i].selectedTotal == SelectedTotal(base[i], segments)
  {
    if base == [] then []
    else [Row(base[0], SelectedTotal(base[0], segments))] + Derive(base[1..], segments)
  }

  /** With no active segment every derived row has a zero total. */
  lemma DeriveEmptySelection(base: seq<Point>)
    ensures forall i :: 0 <= i < |base| ==> Derive(base, [])[i].selectedTotal == 0.0
  {
  }

  /** With every segment active a row's total is its three segment values summed. */
  lemma DeriveAllSegments(base: seq<Point>, i: nat)
    requires i < |base|
    ensures Derive(base, AllSegments)[i].selectedTotal
         == Value(base[i], Retail) + Value(base[i], SME) + Value(base[i], Enterprise)
  {
    SelectedTotalAll(base[i]);
  }
}
