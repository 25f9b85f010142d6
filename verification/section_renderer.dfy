/** The shared section renderer (src/components/shared/SectionRenderer.tsx):
    picks a section's rows in spreadsheet order and turns them into a chart,
    paragraphs or a list according to the section's type. A chart can be
    narrowed to one metric: `overlaylabel` rows split the rows into windows,
    and the selected metric names the window to plot. */
module SectionRenderer {
  import opened Wrappers
  import opened Seqs
  import opened StableSort
  import opened Dashboard

  const IntroKey := "intro"
  const OverlayKey := "overlaylabel"
  const NoChartDataMessage := "No chart data available"
  const NoTextMessage := "No text content available"
  const NoListMessage := "No list items available"

  // ---- Row selection ----

  /** The filter callback `item => item && item.sectionId === sectionId`. */
  function InSection(sectionId: string): Option<SectionData> -> bool {
    (o: Option<SectionData>) => o.Some? && o.value.sectionId == sectionId
  }

  /** The rows as non-null items. */
  function Present(rows: seq<SectionData>): (r: seq<Option<SectionData>>)
    ensures |r| == |rows| && forall i :: 0 <= i < |rows| ==> r[i] == Some(rows[i])
  {
    if |rows| == 0 then [] else [Some(rows[0])] + Present(rows[1..])
  }

  /** The rows behind a list of non-null items. */
  function Values(items: seq<Option<SectionData>>): (r: seq<SectionData>)
    requires forall o :: o in items ==> o.Some?
    ensures Present(r) == items
  {
    var r := seq(|items|, i requires 0 <= i < |items| => assert items[i] in items; items[i].value);
    assert forall i :: 0 <= i < |items| ==> Present(r)[i] == items[i] by {
      forall i | 0 <= i < |items|
        ensures Present(r)[i] == items[i]
      {
        assert items[i] in items;
      }
    }
    r
  }

  /** A row occurs among the non-null items as often as among the rows. */
  lemma {:induction false} PresentCount(rows: seq<SectionData>, d: SectionData)
    ensures multiset(Present(rows))[Some(d)] == multiset(rows)[d]
  {
    if |rows| > 0 {
      PresentCount(rows[1..], d);
      assert rows == [rows[0]] + rows[1..];
      assert multiset(Present(rows)) == multiset{Some(rows[0])} + multiset(Present(rows[1..]));
    }
  }

  /** The non-null items of `items` that belong to `sectionId`, in input order:
      `sectionData.filter(item => item && item.sectionId === sectionId)`. */
  function PresentRows(sectionId: string, items: seq<Option<SectionData>>): (r: seq<SectionData>)
    ensures Present(r) == Filter(items, InSection(sectionId))
    ensures forall d :: multiset(r)[d] == if d.sectionId == sectionId then multiset(items)[Some(d)] else 0
  {
    var kept := Filter(items, InSection(sectionId));
    var r := Values(kept);
    assert forall d :: multiset(r)[d] == multiset(kept)[Some(d)] by {
      forall d
        ensures multiset(r)[d] == multiset(kept)[Some(d)]
      {
        PresentCount(r, d);
      }
    }
    r
  }

  /** The section's rows sorted by `originalRowIndex`, ties in input order. */
  function SelectRows(sectionId: string, items: seq<Option<SectionData>>): (r: seq<SectionData>)
    ensures forall d :: d in r <==> Some(d) in items && d.sectionId == sectionId
    ensures forall d :: multiset(r)[d] == if d.sectionId == sectionId then multiset(items)[Some(d)] else 0
    ensures Sorted(r, RowIndexOrder)
    ensures forall y :: Ties(r, y, RowIndexOrder) == Ties(PresentRows(sectionId, items), y, RowIndexOrder)
  {
    var r := SortBy(PresentRows(sectionId, items), RowIndexOrder);
    RowIndexOrderIsTotalPreorder();
    SortByCharacterization(PresentRows(sectionId, items), RowIndexOrder);
    r
  }

  // ---- Caption ----

  predicate IsIntro(d: SectionData) {
    d.key == IntroKey
  }

  /** `rows.find(item => item.key === 'intro')`, as the caption text. */
  function Caption(rows: seq<SectionData>): (r: Option<string>)
    ensures r.None? <==> forall j :: 0 <= j < |rows| ==> rows[j].key != IntroKey
    ensures r.Some? ==> exists i :: 0 <= i < |rows| && rows[i].key == IntroKey && rows[i].value == r.value
                                    && forall j :: 0 <= j < i ==> rows[j].key != IntroKey
  {
    match FindFirst(rows, IsIntro)
    case Some(d) => Some(d.value)
    case None => None
  }

  // ---- Overlay-label windowing ----

  predicate IsOverlay(d: SectionData) {
    d.key == OverlayKey
  }

  /** The overlay row that names `metric`. */
  predicate IsMetricLabel(metric: string, d: SectionData) {
    d.key == OverlayKey && d.value == metric
  }

  ghost predicate StrictlyIncreasing(s: seq<int>) {
    forall i, j :: 0 <= i < j < |s| ==> s[i] < s[j]
  }

  /** An entry of `TaggedPositions` that is not the placeholder -1. */
  predicate IsPosition(i: int) {
    i != -1
  }

  /** `rows.map((item, index) => overlay ? index : -1)`. */
  function TaggedPositions(rows: seq<SectionData>): (r: seq<int>)
    ensures |r| == |rows|
  {
    seq(|rows|, i requires 0 <= i < |rows| => if IsOverlay(rows[i]) then i else -1)
  }

  /** Dropping the -1 placeholders from a list whose every other entry is its
      own index leaves those indices in ascending order. */
  lemma {:induction false} FilterTaggedFrom(t: seq<int>, k: nat)
    requires k <= |t|
    requires forall i :: 0 <= i < |t| ==> t[i] == -1 || t[i] == i
    ensures var f := Filter(t[k..], IsPosition);
            StrictlyIncreasing(f) && forall x :: x in f ==> k <= x
    decreases |t| - k
  {
    if k < |t| {
      FilterTaggedFrom(t, k + 1);
      var tail := Filter(t[k + 1..], IsPosition);
      var f := Filter(t[k..], IsPosition);
      assert f == if t[k] != -1 then [k] + tail else tail by {
        assert t[k..] == [t[k]] + t[k + 1..];
        FilterCons(t[k], t[k + 1..], IsPosition);
      }
      IncreasingCons(k, tail, f, t[k] != -1);
    }
  }

  /** Putting `k` in front of (or leaving out of) an ascending list of values
      above `k` gives an ascending list of values at least `k`. */
  lemma IncreasingCons(k: int, tail: seq<int>, f: seq<int>, keep: bool)
    requires StrictlyIncreasing(tail) && forall x :: x in tail ==> k < x
    requires f == if keep then [k] + tail else tail
    ensures StrictlyIncreasing(f) && forall x :: x in f ==> k <= x
  {
    if keep {
      forall i, j | 0 <= i < j < |f|
        ensures f[i] < f[j]
      {
        assert f[j] == tail[j - 1];
        assert tail[j - 1] in tail;
      }
    }
  }

  /** The positions of the overlay rows, ascending:
      `rows.map(...).filter(index => index !== -1)`. */
  function OverlayPositions(rows: seq<SectionData>): (r: seq<int>)
    ensures forall k :: k in r <==> 0 <= k < |rows| && IsOverlay(rows[k])
    ensures StrictlyIncreasing(r)
  {
    var t := TaggedPositions(rows);
    FilterTaggedFrom(t, 0);
    assert t[0..] == t;
    assert forall k :: 0 <= k < |rows| && IsOverlay(rows[k]) ==> t[k] == k;
    Filter(t, IsPosition)
  }

  /** Reference definition: the first overlay position at or after `i`, or
      `|rows|` when there is none. */
  function NextOverlayFrom(rows: seq<SectionData>, i: nat): (n: nat)
    requires i <= |rows|
    ensures i <= n <= |rows|
    ensures n < |rows| ==> IsOverlay(rows[n])
    ensures forall k :: i <= k < n ==> !IsOverlay(rows[k])
    decreases |rows| - i
  {
    if i == |rows| then |rows|
    else if IsOverlay(rows[i]) then i
    else NextOverlayFrom(rows, i + 1)
  }

  /** `rows.findIndex(item => item.key === 'overlaylabel' && item.value === metric)`. */
  function MetricLabelIndex(rows: seq<SectionData>, metric: string): (c: int)
    ensures -1 <= c < |rows|
    ensures c == -1 <==> forall j :: 0 <= j < |rows| ==> !IsMetricLabel(metric, rows[j])
    ensures 0 <= c ==> IsMetricLabel(metric, rows[c]) && forall j :: 0 <= j < c ==> !IsMetricLabel(metric, rows[j])
  {
    FindIndex(rows, (d: SectionData) => IsMetricLabel(metric, d))
  }

  /** `positions.find(index => index > current)`. */
  function FirstAfter(positions: seq<int>, current: int): (r: Option<int>)
    ensures r.None? <==> forall j :: 0 <= j < |positions| ==> positions[j] <= current
    ensures r.Some? ==> exists i :: 0 <= i < |positions| && positions[i] == r.value && r.value > current
                                    && forall j :: 0 <= j < i ==> positions[j] <= current
  {
    FindFirst(positions, (k: int) => k > current)
  }

  /** `allOverlayIndices.find(index => index > current) || rows.length`: the
      first overlay position after `current`, or the end of the rows; a first
      overlay position of 0 is falsy for `||` and also yields the end. */
  function WindowEnd(rows: seq<SectionData>, current: int): (e: int)
    requires -1 <= current < |rows|
    ensures current < e <= |rows|
    ensures var n := NextOverlayFrom(rows, current + 1);
            e == if n == 0 then |rows| else n
  {
    var next := FirstAfter(OverlayPositions(rows), current);
    FirstAfterIsNextOverlay(OverlayPositions(rows), rows, current);
    if next.None? || next.value == 0 then |rows| else next.value
  }

  /** Searching any ascending list of exactly the overlay positions for the
      first one after `current` finds the next overlay row. */
  lemma FirstAfterIsNextOverlay(ps: seq<int>, rows: seq<SectionData>, current: int)
    requires -1 <= current < |rows|
    requires forall k :: k in ps <==> 0 <= k < |rows| && IsOverlay(rows[k])
    requires StrictlyIncreasing(ps)
    ensures var n := NextOverlayFrom(rows, current + 1);
            FirstAfter(ps, current) == if n < |rows| then Some(n) else None
  {
    var n := NextOverlayFrom(rows, current + 1);
    forall k | k in ps && current < k
      ensures n <= k
    {
      assert IsOverlay(rows[k]);
    }
    if n < |rows| {
      FirstAfterLeast(ps, current, n);
    } else {
      FirstAfterNone(ps, current);
    }
  }

  /** In an ascending list, the first element after `current` is the least
      element after `current`. */
  lemma FirstAfterLeast(ps: seq<int>, current: int, n: int)
    requires StrictlyIncreasing(ps)
    requires n in ps && current < n
    requires forall k :: k in ps && current < k ==> n <= k
    ensures FirstAfter(ps, current) == Some(n)
  {
    var next := FirstAfter(ps, current);
    var i :| 0 <= i < |ps| && ps[i] == next.value && ps[i] > current
             && forall j :: 0 <= j < i ==> ps[j] <= current;
    var m :| 0 <= m < |ps| && ps[m] == n;
    assert !(m < i);
    assert ps[i] in ps;
  }

  /** Nothing after `current` in the list: the search finds nothing. */
  lemma FirstAfterNone(ps: seq<int>, current: int)
    requires forall k :: k in ps ==> k <= current
    ensures FirstAfter(ps, current) == None
  {
    forall j | 0 <= j < |ps|
      ensures ps[j] <= current
    {
      assert ps[j] in ps;
    }
  }

  /** The rows plotted for `metric`:
      `rows.slice(current + 1, allOverlayIndices.find(i => i > current) || rows.length)`.
      A metric that names no overlay row gives `current == -1`. */
  function MetricWindow(rows: seq<SectionData>, metric: string): (w: seq<SectionData>)
    ensures |w| <= |rows|
  {
    var current := MetricLabelIndex(rows, metric);
    rows[current + 1..WindowEnd(rows, current)]
  }

  /** No overlay row lies between `i` and the next overlay position. */
  lemma NoOverlayBeforeNext(rows: seq<SectionData>, i: nat)
    requires i <= |rows|
    ensures forall d :: d in rows[i..NextOverlayFrom(rows, i)] ==> !IsOverlay(d)
  {
    var n := NextOverlayFrom(rows, i);
    forall d | d in rows[i..n]
      ensures !IsOverlay(d)
    {
      var k :| 0 <= k < n - i && rows[i..n][k] == d;
      assert rows[i + k] == d;
    }
  }

  /** A found metric: the window is the run of rows strictly between its overlay
      row and the next overlay row (or the end), and holds no overlay row. */
  lemma WindowOfFoundMetric(rows: seq<SectionData>, metric: string, c: nat)
    requires c < |rows| && IsMetricLabel(metric, rows[c])
    requires forall j :: 0 <= j < c ==> !IsMetricLabel(metric, rows[j])
    ensures MetricWindow(rows, metric) == rows[c + 1..NextOverlayFrom(rows, c + 1)]
    ensures forall d :: d in MetricWindow(rows, metric) ==> !IsOverlay(d)
  {
    assert MetricLabelIndex(rows, metric) == c;
    NoOverlayBeforeNext(rows, c + 1);
  }

  /** A metric that no overlay row names (`findIndex` gives -1): the window
      starts at row 0 and ends at the first overlay row, except that a first
      overlay row at position 0 is falsy for `||`, so the window is then every
      row, overlay rows included. */
  lemma WindowOfMissingMetric(rows: seq<SectionData>, metric: string)
    requires forall j :: 0 <= j < |rows| ==> !IsMetricLabel(metric, rows[j])
    ensures var n := NextOverlayFrom(rows, 0);
            MetricWindow(rows, metric) == if n == 0 then rows else rows[..n]
  {
  }

  // ---- Chart points ----

  predicate IsPlotted(d: SectionData) {
    d.key != IntroKey && d.key != OverlayKey
  }

  /** The rows a chart plots: all but the caption and the overlay labels. */
  function PlottedRows(rows: seq<SectionData>): seq<SectionData> {
    Filter(rows, IsPlotted)
  }

  /** `parseFloat(value) || 0`: a failed parse (`NaN`) or a zero becomes 0. */
  function ParsedOrZero(parseFloat: string -> Option<real>, value: string): (x: real)
    ensures parseFloat(value).None? ==> x == 0.0
    ensures parseFloat(value).Some? ==> x == parseFloat(value).value
  {
    match parseFloat(value)
    case Some(v) => if v == 0.0 then 0.0 else v
    case None => 0.0
  }

  /** The points of a chart over `window`: one per plotted row, named by its key,
      then `.filter(item => !isNaN(item.value))`. The fallback to 0 leaves no
      `NaN`, so the last filter removes nothing. */
  function ChartPoints(window: seq<SectionData>, parseFloat: string -> Option<real>): (r: seq<Point>)
    ensures |r| == |PlottedRows(window)|
    ensures forall i :: 0 <= i < |r| ==>
              && r[i].name == PlottedRows(window)[i].key
              && r[i].value == Some(ParsedOrZero(parseFloat, PlottedRows(window)[i].value))
  {
    var plotted := PlottedRows(window);
    var mapped := seq(|plotted|, i requires 0 <= i < |plotted| =>
                        Point(plotted[i].key, Some(ParsedOrZero(parseFloat, plotted[i].value))));
    var r := Filter(mapped, (p: Point) => p.value.Some?);
    assert r == mapped by {
      AllKept(mapped, (p: Point) => p.value.Some?);
    }
    r
  }

  lemma PlottedAfterIntro(r0: SectionData, r1: SectionData, r2: SectionData, r3: SectionData)
    requires IsIntro(r0) && IsPlotted(r1) && IsPlotted(r2) && IsPlotted(r3)
    ensures PlottedRows([r0, r1, r2, r3]) == [r1, r2, r3]
  {
    assert [r0, r1, r2, r3] == [r0] + [r1, r2, r3] && [r1, r2, r3] == [r1] + [r2, r3] && [r2, r3] == [r2] + [r3];
    assert [r3] == [r3] + [];
    FilterCons(r0, [r1, r2, r3], IsPlotted);
    FilterCons(r1, [r2, r3], IsPlotted);
    FilterCons(r2, [r3], IsPlotted);
    FilterCons(r3, [], IsPlotted);
  }

  /** A value that does not parse is plotted as 0, not dropped: for the rows
      intro "Revenue by Year", 2020 "10", 2021 "bad", 2022 "30" the chart has
      three points, the 2021 point at 0. */
  lemma UnparsableValuePlotsAsZero(parseFloat: string -> Option<real>,
                                   r0: SectionData, r1: SectionData, r2: SectionData, r3: SectionData)
    requires parseFloat("10") == Some(10.0) && parseFloat("bad").None? && parseFloat("30") == Some(30.0)
    requires r0 == SectionData("s1", "intro", "Revenue by Year", 0) && r1 == SectionData("s1", "2020", "10", 1)
    requires r2 == SectionData("s1", "2021", "bad", 2) && r3 == SectionData("s1", "2022", "30", 3)
    ensures var points := ChartPoints([r0, r1, r2, r3], parseFloat);
            && |points| == 3
            && points[0] == Point("2020", Some(10.0))
            && points[1] == Point("2021", Some(0.0))
            && points[2] == Point("2022", Some(30.0))
  {
    PlottedAfterIntro(r0, r1, r2, r3);
    var plotted := PlottedRows([r0, r1, r2, r3]);
    assert plotted[0] == r1 && plotted[1] == r2 && plotted[2] == r3;
  }

  /** Filtering keeps a sequence whole when every element passes. */
  lemma {:induction false} AllKept<T(!new)>(s: seq<T>, p: T -> bool)
    requires forall i :: 0 <= i < |s| ==> p(s[i])
    ensures Filter(s, p) == s
  {
    if |s| > 0 {
      AllKept(s[1..], p);
    }
  }

  // ---- Rendering ----

  /** `selectedMetric` is truthy: given and non-empty. */
  predicate MetricSelected(selectedMetric: Option<string>) {
    selectedMetric.Some? && selectedMetric.value != ""
  }

  /** The rows a chart plots from: the metric's window when a metric is
      selected, otherwise every row. */
  function ChartRows(rows: seq<SectionData>, selectedMetric: Option<string>): (r: seq<SectionData>)
    ensures !MetricSelected(selectedMetric) ==> r == rows
    ensures MetricSelected(selectedMetric) ==> r == MetricWindow(rows, selectedMetric.value)
  {
    if MetricSelected(selectedMetric) then MetricWindow(rows, selectedMetric.value) else rows
  }

  function LinesOf(rows: seq<SectionData>): (r: seq<string>)
    ensures |r| == |rows| && forall i :: 0 <= i < |rows| ==> r[i] == rows[i].value
  {
    seq(|rows|, i requires 0 <= i < |rows| => rows[i].value)
  }

  /** `SectionRenderer`: `None` where it returns `null`. */
  function Render(section: Section, slide: Slide, sectionData: Option<seq<Option<SectionData>>>,
                  selectedMetric: Option<string>, parseFloat: string -> Option<real>): (r: Option<Block>)
    // Missing data renders nothing; an unknown section type renders nothing.
    ensures sectionData.None? ==> r.None?
    ensures section.sectionType !in {"chart", "text", "list"} ==> r.None?
    ensures sectionData.Some? && section.sectionType in {"chart", "text", "list"} ==> r.Some?
    // Text: one paragraph per selected row, in order, or the notice.
    ensures r.Some? && section.sectionType == "text" ==>
              var rows := SelectRows(section.sectionId, sectionData.value);
              && r.value.TextBlock?
              && (|rows| == 0 <==> r.value.body == Notice(NoTextMessage))
              && (|rows| > 0 ==> r.value.body.Lines? && r.value.body.lines == LinesOf(rows))
    // List: the section title, then one item per selected row, or the notice.
    ensures r.Some? && section.sectionType == "list" ==>
              var rows := SelectRows(section.sectionId, sectionData.value);
              && r.value.ListBlock? && r.value.title == section.sectionTitle
              && (|rows| == 0 <==> r.value.body == Notice(NoListMessage))
              && (|rows| > 0 ==> r.value.body.Lines? && r.value.body.lines == LinesOf(rows))
    // Chart: caption from the first intro row, bars unless nothing is plotted,
    // the slide's insight when it has one.
    ensures r.Some? && section.sectionType == "chart" ==>
              var rows := SelectRows(section.sectionId, sectionData.value);
              var plotted := PlottedRows(ChartRows(rows, selectedMetric));
              && r.value.ChartBlock?
              && r.value.caption == Caption(rows)
              && (r.value.chart.NoChartData? <==> |plotted| == 0)
              && (r.value.chart.Bars? ==> r.value.chart.points == ChartPoints(ChartRows(rows, selectedMetric), parseFloat))
              && r.value.insight == ShownIfNonEmpty(slide.slideInsight)
  {
    match sectionData
    case None => None
    case Some(items) =>
      var rows := SelectRows(section.sectionId, items);
      if section.sectionType == "chart" then
        var points := ChartPoints(ChartRows(rows, selectedMetric), parseFloat);
        Some(ChartBlock(Caption(rows),
                        if |points| > 0 then Bars(points) else NoChartData,
                        ShownIfNonEmpty(slide.slideInsight)))
      else if section.sectionType == "text" then
        Some(TextBlock(if |rows| > 0 then Lines(LinesOf(rows)) else Notice(NoTextMessage)))
      else if section.sectionType == "list" then
        Some(ListBlock(section.sectionTitle,
                       if |rows| > 0 then Lines(LinesOf(rows)) else Notice(NoListMessage)))
      else None
  }
}
