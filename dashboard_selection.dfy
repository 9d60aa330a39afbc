/**
 * The dashboard's selection state: the range token and the ordered list of
 * active segments, changed by the range picker and by clicking a segment
 * chip, and the rows and KPI figures derived from them.
 */
module DashboardSelection {
  import opened DashboardSeries
  import opened DashboardKpis

  /** `filter((x) => x !== s)`: the list without any occurrence of `s`, order kept. */
  function Remove(xs: seq<Segment>, s: Segment): (r: seq<Segment>)
    ensures forall x :: x in r <==> x in xs && x != s
    ensures forall x :: x != s ==> Count(r, x) == Count(xs, x)
    ensures s !in xs ==> r == xs
  {
    if xs == [] then []
    else
      var head, rest := if xs[0] == s then [] else [xs[0]], Remove(xs[1..], s);
      assert xs == [xs[0]] + xs[1..];
      assert multiset(xs) == multiset{xs[0]} + multiset(xs[1..]);
      assert multiset(head + rest) == multiset(head) + multiset(rest);
      assert forall x :: x != s ==> Count(head + rest, x) == Count(xs, x) by {
        forall x | x != s
          ensures Count(head + rest, x) == Count(xs, x)
        {
          assert Count(rest, x) == Count(xs[1..], x);
          assert multiset(head)[x] == multiset{xs[0]}[x];
        }
      }
      head + rest
  }

  /** Concatenation is associative. */
  lemma ConcatAssoc(a: seq<Segment>, b: seq<Segment>, c: seq<Segment>)
    ensures a + (b + c) == (a + b) + c
  {
  }

  /** One unfolding step of the filter. */
  lemma RemoveCons(x: Segment, xs: seq<Segment>, s: Segment)
    ensures Remove([x] + xs, s) == (if x == s then [] else [x]) + Remove(xs, s)
  {
    assert ([x] + xs)[0] == x && ([x] + xs)[1..] == xs;
  }

  /** Removing distributes over concatenation, so the kept segments stay in their order. */
  lemma {:induction false} RemoveAppend(xs: seq<Segment>, ys: seq<Segment>, s: Segment)
    ensures Remove(xs + ys, s) == Remove(xs, s) + Remove(ys, s)
  {
    if xs == [] {
      assert xs + ys == ys;
    } else {
      var x, rest := xs[0], xs[1..];
      var head := if x == s then [] else [x];
      assert xs == [x] + rest;
      assert xs + ys == [x] + (rest + ys);
      RemoveCons(x, rest + ys, s);
      RemoveCons(x, rest, s);
      RemoveAppend(rest, ys, s);
      ConcatAssoc(head, Remove(rest, s), Remove(ys, s));
    }
  }

  /** Removing keeps a list free of duplicates. */
  lemma {:induction false} RemoveNoDuplicates(xs: seq<Segment>, s: Segment)
    requires NoDuplicates(xs)
    ensures NoDuplicates(Remove(xs, s))
  {
    if xs != [] {
      assert NoDuplicates(xs[1..]);
      RemoveNoDuplicates(xs[1..], s);
      var tail := Remove(xs[1..], s);
      if xs[0] != s {
        assert xs[0] !in xs[1..];
        assert Count(tail, xs[0]) == Count(xs[1..], xs[0]) == 0;
        assert xs[0] !in tail;
      }
    }
  }

  /**
   * `toggleSegment`: a selected segment is removed (every occurrence), an
   * unselected one is appended at the end. As sets, the old selection and
   * the new one differ exactly in `s`.
   */
  function Toggle(prev: seq<Segment>, s: Segment): (next: seq<Segment>)
    ensures s in prev ==> next == Remove(prev, s)
    ensures s in prev ==> s !in next && forall x :: x != s ==> Count(next, x) == Count(prev, x)
    ensures s !in prev ==> next == prev + [s]
    ensures forall x :: x in next <==> (x in prev <==> x != s)
  {
    if s in prev then Remove(prev, s) else prev + [s]
  }

  /** Deselecting a segment keeps the segments around it in their relative order. */
  lemma ToggleKeepsOrder(xs: seq<Segment>, ys: seq<Segment>, s: Segment)
    requires s !in xs && s !in ys
    ensures Toggle(xs + [s] + ys, s) == xs + ys
  {
    RemoveAppend(xs + [s], ys, s);
    RemoveAppend(xs, [s], s);
  }

  /** Toggling keeps the selection free of duplicates. */
  lemma ToggleNoDuplicates(prev: seq<Segment>, s: Segment)
    requires NoDuplicates(prev)
    ensures NoDuplicates(Toggle(prev, s))
  {
    if s in prev {
      RemoveNoDuplicates(prev, s);
    }
  }

  /** Selecting an unselected segment and then deselecting it restores the list. */
  lemma ToggleTwiceAbsent(prev: seq<Segment>, s: Segment)
    requires s !in prev
    ensures Toggle(Toggle(prev, s), s) == prev
  {
    RemoveAppend(prev, [s], s);
  }

  /**
   * Deselecting a selected segment and selecting it again moves it to the
   * end: from the initial list, SME comes back after Enterprise.
   */
  lemma ToggleTwiceReorders()
    ensures Toggle(Toggle(AllSegments, SME), SME) == [Retail, Enterprise, SME]
  {
  }

  /** The page's selection state. */
  class Dashboard {
    /** The four generated series, fixed for the page's lifetime. */
    const series: Series
    /** The range token, initially "90d". */
    var range: string
    /** The active segments in the order they were selected. */
    var segments: seq<Segment>

    /** Every selection reachable from the initial one lists each segment at most once. */
    ghost predicate Valid()
      reads this
    {
      NoDuplicates(segments)
    }

    /** The initial state: the 90-day window with all three segments active. */
    constructor (series: Series)
      ensures Valid()
      ensures this.series == series && range == "90d" && segments == AllSegments
    {
      this.series := series;
      range := "90d";
      segments := AllSegments;
    }

    /** `handleRange`: replace the range token; the segments are untouched. */
    method SetRange(token: string)
      requires Valid()
      modifies this
      ensures Valid()
      ensures range == token && segments == old(segments)
    {
      range := token;
    }

    /** `toggleSegment`: flip one segment's membership; the range is untouched. */
    method ToggleSegment(s: Segment)
      requires Valid()
      modifies this
      ensures Valid()
      ensures segments == Toggle(old(segments), s) && range == old(range)
    {
      ToggleNoDuplicates(segments, s);
      segments := Toggle(segments, s);
    }

    /** The `data` memo: the picked series with the selected totals added. */
    function Rows(): (rows: seq<Row>)
      reads this
      ensures |rows| == |PickData(range, series)|
      ensures forall i :: 0 <= i < |rows| ==> rows[i].point == PickData(range, series)[i]
      ensures forall i :: 0 <= i < |rows| ==> rows[i].selectedTotal == SelectedTotal(rows[i].point, segments)
    {
      Derive(PickData(range, series), segments)
    }

    /** The `totals` memo, computed from the rows. */
    function Summary(): (k: Kpis)
      reads this
      ensures k.totalNow == TotalNow(Rows())
      ensures k.growth == Growth(Rows())
      ensures k.growth.None? <==> ZeroDivisor(Rows())
      ensures k.convAvg == Average(Rows(), Conversion) && k.arpuAvg == Average(Rows(), Arpu)
    {
      Totals(Rows())
    }

    /** The "Segments Active" card: how many segments are on, never more than three. */
    method ActiveCount() returns (n: nat)
      requires Valid()
      ensures n == |segments| && n <= |AllSegments|
    {
      NoDuplicatesBound(segments);
      n := |segments|;
    }
  }
}
