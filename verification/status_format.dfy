/** API/status/lib/format.py: format_q30_plot_data, which turns the
    histogram lists into the Q-score chart: a dense column chart split at Q30
    for MiSeq, chained area series for the other sequencers. */
module Format {
  import opened Wrappers
  import opened Text
  import opened Platform
  import opened Chart

  /** What the MiSeq branch needs of the lists: a last label (the axis
      bound), a value for every label, and labels within 1..that bound. */
  predicate DenseReady(xLabels: seq<int>, values: seq<int>)
  {
    |xLabels| > 0 && |values| >= |xLabels| &&
    forall i :: 0 <= i < |xLabels| ==> 1 <= xLabels[i] <= xLabels[|xLabels| - 1]
  }

  /** max_x_label: the last label for MiSeq, int(sum(widths) + 10) otherwise. */
  function MaxXLabel(xLabels: seq<int>, widths: seq<int>, miseq: bool): int
    requires miseq ==> |xLabels| > 0
  {
    if miseq then xLabels[|xLabels| - 1] else Sum(widths) + 10
  }

  // ---- MiSeq: the dense column chart ----

  /** `values` after the first m assignments values[x_pos - 1] = data[idx]. */
  function DenseUpTo(xLabels: seq<int>, values: seq<int>, n: nat, m: nat): (r: seq<int>)
    requires m <= |xLabels| && m <= |values|
    requires forall i :: 0 <= i < m ==> 1 <= xLabels[i] <= n
    ensures |r| == n
  {
    if m == 0 then Repeat(0, n)
    else DenseUpTo(xLabels, values, n, m - 1)[xLabels[m - 1] - 1 := values[m - 1]]
  }

  /** Reference reading: the value of the last occurrence of label x among
      the first m labels, 0 when x does not occur. */
  function LastValueAt(xLabels: seq<int>, values: seq<int>, m: nat, x: int): int
    requires m <= |xLabels| && m <= |values|
  {
    if m == 0 then 0
    else if xLabels[m - 1] == x then values[m - 1]
    else LastValueAt(xLabels, values, m - 1, x)
  }

  /** Each label x holds its (last) value at index x - 1; every other slot is 0. */
  lemma {:induction false} DenseIsLastValue(xLabels: seq<int>, values: seq<int>, n: nat, m: nat)
    requires m <= |xLabels| && m <= |values|
    requires forall i :: 0 <= i < m ==> 1 <= xLabels[i] <= n
    ensures forall x :: 1 <= x <= n ==> DenseUpTo(xLabels, values, n, m)[x - 1] == LastValueAt(xLabels, values, m, x)
  {
    if m > 0 {
      DenseIsLastValue(xLabels, values, n, m - 1);
    }
  }

  /** The loop that fills the dense value list. */
  method DenseValues(xLabels: seq<int>, values: seq<int>, n: nat) returns (dense: seq<int>)
    requires |values| >= |xLabels|
    requires forall i :: 0 <= i < |xLabels| ==> 1 <= xLabels[i] <= n
    ensures dense == DenseUpTo(xLabels, values, n, |xLabels|)
    ensures |dense| == n
    ensures forall x :: 1 <= x <= n ==> dense[x - 1] == LastValueAt(xLabels, values, |xLabels|, x)
  {
    dense := Repeat(0, n);
    var idx := 0;
    while idx < |xLabels|
      invariant 0 <= idx <= |xLabels|
      invariant dense == DenseUpTo(xLabels, values, n, idx)
    {
      dense := dense[xLabels[idx] - 1 := values[idx]];
      idx := idx + 1;
    }
    DenseIsLastValue(xLabels, values, n, |xLabels|);
  }

  /** The points of values[:29], at x = 1..29. */
  function LowPoints(dense: seq<int>): seq<Point>
  {
    var n := if |dense| < Q30Index then |dense| else Q30Index;
    seq(n, i requires 0 <= i < n => Point(i + 1, dense[i]))
  }

  /** The points of values[29:], at x = 30.. */
  function HighPoints(dense: seq<int>): seq<Point>
  {
    var n := if |dense| < Q30Index then 0 else |dense| - Q30Index;
    seq(n, i requires 0 <= i < n => Point(i + Q30Index + 1, dense[i + Q30Index]))
  }

  /** The low series holds x = 1..29, the high one x = 30..; their y values
      put together are the dense list, and the high series is empty when
      the list is at most 29 long. */
  lemma SplitAtQ30(dense: seq<int>)
    ensures Ys(LowPoints(dense)) + Ys(HighPoints(dense)) == dense
    ensures forall i :: 0 <= i < |LowPoints(dense)| ==> LowPoints(dense)[i].x == i + 1 <= 29
    ensures forall i :: 0 <= i < |HighPoints(dense)| ==> HighPoints(dense)[i].x == i + 30
    ensures |HighPoints(dense)| == 0 <==> |dense| <= 29
  {
    var lo, hi := Ys(LowPoints(dense)), Ys(HighPoints(dense));
    assert |lo + hi| == |dense|;
    forall i | 0 <= i < |dense| ensures (lo + hi)[i] == dense[i] {
      if i >= |lo| { assert (lo + hi)[i] == hi[i - |lo|]; }
    }
  }

  // ---- Other sequencers: the chained area series ----

  /** The width the k-th emitted series uses: widths[k], the last width once
      the list is exhausted. */
  function WidthFor(widths: seq<int>, k: nat): int
    requires |widths| > 0
  {
    if k < |widths| then widths[k] else widths[|widths| - 1]
  }

  /** The k-th emitted series, for the point at index idx. */
  function AreaEntry(values: seq<int>, widths: seq<int>, seqName: string, xTitle: string, idx: nat, k: nat): Series
    requires idx < |values| && |widths| > 0
  {
    Area(if k == 0 then Id else LinkedTo, seqName + "-series", xTitle,
         Repeat(Null, idx) + Repeat(Val(values[idx]), WidthFor(widths, k)),
         Some(if idx < Q30Index then LowColor else AreaHighColor))
  }

  /** The series emitted for the first n points. */
  function AreaUpTo(values: seq<int>, widths: seq<int>, seqName: string, xTitle: string, n: nat): seq<Series>
    requires n <= |values| && |widths| > 0
  {
    if n == 0 then []
    else
      var prev := AreaUpTo(values, widths, seqName, xTitle, n - 1);
      if values[n - 1] == 0 then prev else prev + [AreaEntry(values, widths, seqName, xTitle, n - 1, |prev|)]
  }

  /** The loop over data['data'] with its counters width_idx and current_width. */
  method AreaSeries(values: seq<int>, widths: seq<int>, seqName: string, xTitle: string) returns (series: seq<Series>)
    requires |widths| > 0
    ensures series == AreaUpTo(values, widths, seqName, xTitle, |values|)
  {
    series := [];
    var widthIdx := 0;
    var currentWidth := widths[widthIdx];
    var idx := 0;
    while idx < |values|
      invariant 0 <= idx <= |values|
      invariant series == AreaUpTo(values, widths, seqName, xTitle, idx)
      invariant widthIdx == |series|
      invariant currentWidth == WidthFor(widths, widthIdx)
    {
      var point := values[idx];
      if point != 0 {
        var status := if widthIdx == 0 then Id else LinkedTo;
        var previousWidth := idx;
        var d := SeriesCells(previousWidth, point, currentWidth);
        widthIdx := widthIdx + 1;
        if widthIdx < |widths| {
          currentWidth := widths[widthIdx];
        }
        var color := if previousWidth < Q30Index then LowColor else AreaHighColor;
        series := series + [Area(status, seqName + "-series", xTitle, d, Some(color))];
      }
      idx := idx + 1;
    }
  }

  /** The data list of one series: previous_width Nones, then the point
      current_width times. */
  method SeriesCells(previousWidth: nat, point: int, currentWidth: int) returns (d: seq<Cell>)
    ensures d == Repeat(Null, previousWidth) + Repeat(Val(point), currentWidth)
  {
    d := [];
    var i := 0;
    while i < previousWidth
      invariant 0 <= i <= previousWidth && d == Repeat(Null, i)
    {
      d := d + [Null];
      i := i + 1;
    }
    i := 0;
    while i < currentWidth
      invariant 0 <= i && (currentWidth >= 0 ==> i <= currentWidth) && (currentWidth < 0 ==> i == 0)
      invariant d == Repeat(Null, previousWidth) + Repeat(Val(point), i)
    {
      d := d + [Val(point)];
      i := i + 1;
    }
  }

  /** The indices of the non-zero points, in order. */
  function NonZeroIndices(values: seq<int>, n: nat): (r: seq<nat>)
    requires n <= |values|
    ensures forall j :: 0 <= j < |r| ==> r[j] < n
  {
    if n == 0 then []
    else NonZeroIndices(values, n - 1) + if values[n - 1] != 0 then [n - 1] else []
  }

  /** NonZeroIndices lists exactly the non-zero points, ascending. */
  lemma {:induction false} NonZeroIndicesSpec(values: seq<int>, n: nat)
    requires n <= |values|
    ensures var r := NonZeroIndices(values, n);
      && (forall j :: 0 <= j < |r| ==> r[j] < n && values[r[j]] != 0)
      && (forall i :: 0 <= i < n && values[i] != 0 ==> i in r)
      && (forall j, j' :: 0 <= j < j' < |r| ==> r[j] < r[j'])
  {
    if n > 0 {
      NonZeroIndicesSpec(values, n - 1);
    }
  }

  /** One series per non-zero point, in order, and the k-th of them is the
      point's None padding and repeated value at width widths[k] (the last
      width once exhausted); only the first is tagged `id`. */
  lemma {:induction false} AreaSeriesPerPoint(values: seq<int>, widths: seq<int>, seqName: string, xTitle: string, n: nat)
    requires n <= |values| && |widths| > 0
    ensures var r := AreaUpTo(values, widths, seqName, xTitle, n);
      var nz := NonZeroIndices(values, n);
      && |r| == |nz|
      && forall k :: 0 <= k < |r| ==> r[k] == AreaEntry(values, widths, seqName, xTitle, nz[k], k)
  {
    if n > 0 {
      AreaSeriesPerPoint(values, widths, seqName, xTitle, n - 1);
      var prev := AreaUpTo(values, widths, seqName, xTitle, n - 1);
      var nzPrev := NonZeroIndices(values, n - 1);
      if values[n - 1] != 0 {
        ExtendPerPoint(values, widths, seqName, xTitle, prev, nzPrev, n - 1);
      }
    }
  }

  /** Appending the series of one more non-zero point keeps the k-th series
      that of the k-th non-zero point. */
  lemma ExtendPerPoint(values: seq<int>, widths: seq<int>, seqName: string, xTitle: string,
                       prev: seq<Series>, nzPrev: seq<nat>, idx: nat)
    requires idx < |values| && |widths| > 0 && |prev| == |nzPrev|
    requires forall k :: 0 <= k < |nzPrev| ==> nzPrev[k] < |values|
    requires forall k :: 0 <= k < |prev| ==> prev[k] == AreaEntry(values, widths, seqName, xTitle, nzPrev[k], k)
    ensures var r := prev + [AreaEntry(values, widths, seqName, xTitle, idx, |prev|)];
      var nz := nzPrev + [idx];
      forall k :: 0 <= k < |r| ==> r[k] == AreaEntry(values, widths, seqName, xTitle, nz[k], k)
  {
    var r := prev + [AreaEntry(values, widths, seqName, xTitle, idx, |prev|)];
    var nz := nzPrev + [idx];
    forall k | 0 <= k < |r| ensures r[k] == AreaEntry(values, widths, seqName, xTitle, nz[k], k) {
      if k < |prev| {
        assert r[k] == prev[k] && nz[k] == nzPrev[k];
      }
    }
  }

  /** What an emitted series holds: idx copies of None then width copies of
      the point, blue below Q30 and cyan from it on. */
  lemma AreaEntryShape(values: seq<int>, widths: seq<int>, seqName: string, xTitle: string, idx: nat, k: nat)
    requires idx < |values| && |widths| > 0
    ensures var s := AreaEntry(values, widths, seqName, xTitle, idx, k);
      && (s.link == Id <==> k == 0)
      && s.tag == seqName + "-series"
      && |s.cells| == idx + (if WidthFor(widths, k) < 0 then 0 else WidthFor(widths, k))
      && (forall i :: 0 <= i < idx ==> s.cells[i] == Null)
      && (forall i :: idx <= i < |s.cells| ==> s.cells[i] == Val(values[idx]))
      && (s.fill == Some(LowColor) <==> idx < 29)
  {
  }

  // ---- The whole chart ----

  /** The chart format_q30_plot_data returns. */
  function Q30Plot(xLabels: seq<int>, values: seq<int>, widths: seq<int>, xTitle: string, yTitle: string,
                   seqName: string): Plot
    requires IsMiSeq(seqName) ==> DenseReady(xLabels, values)
    requires !IsMiSeq(seqName) ==> |widths| > 0
  {
    var maxX := MaxXLabel(xLabels, widths, IsMiSeq(seqName));
    if IsMiSeq(seqName) then
      var dense := DenseUpTo(xLabels, values, maxX, |xLabels|);
      Envelope(xTitle, yTitle, maxX,
               [Column(xTitle, LowPoints(dense), LowColor), Column(xTitle, HighPoints(dense), HighColor)], "column")
    else
      Envelope(xTitle, yTitle, maxX, AreaUpTo(values, widths, seqName, xTitle, |values|), "area")
  }

  /** format_q30_plot_data(data, seq). For MiSeq, data['widths'] is
      overwritten with one 1 per axis label. */
  method FormatQ30PlotData(d: PlotInput, seqName: string) returns (p: Plot)
    requires IsMiSeq(seqName) ==> DenseReady(d.xLabels, d.values)
    requires !IsMiSeq(seqName) ==> |d.widths| > 0
    modifies d
    ensures p == Q30Plot(old(d.xLabels), old(d.values), old(d.widths), old(d.xTitle), old(d.yTitle), seqName)
    ensures d.widths == if IsMiSeq(seqName) then Repeat(1, old(d.xLabels)[|old(d.xLabels)| - 1]) else old(d.widths)
    ensures d.xLabels == old(d.xLabels) && d.values == old(d.values)
    ensures d.xTitle == old(d.xTitle) && d.yTitle == old(d.yTitle)
  {
    var miseq := IsMiSeq(seqName);
    var maxX := MaxXLabel(d.xLabels, d.widths, miseq);
    var series: seq<Series>;
    var chartType: string;
    if miseq {
      d.widths := Repeat(1, maxX);
      var values := DenseValues(d.xLabels, d.values, maxX);
      chartType := "column";
      series := [Column(d.xTitle, LowPoints(values), LowColor), Column(d.xTitle, HighPoints(values), HighColor)];
    } else {
      chartType := "area";
      series := AreaSeries(d.values, d.widths, seqName, d.xTitle);
    }
    p := Envelope(d.xTitle, d.yTitle, maxX, series, chartType);
  }

  /** The x axis runs 1..max_x_label: the last label for MiSeq, the summed
      widths plus 10 otherwise; the chart type is "column" for MiSeq and
      "area" otherwise. */
  lemma PlotAxis(xLabels: seq<int>, values: seq<int>, widths: seq<int>, xTitle: string, yTitle: string, seqName: string)
    requires IsMiSeq(seqName) ==> DenseReady(xLabels, values)
    requires !IsMiSeq(seqName) ==> |widths| > 0
    ensures var p := Q30Plot(xLabels, values, widths, xTitle, yTitle, seqName);
      var maxX := if IsMiSeq(seqName) then xLabels[|xLabels| - 1] else Sum(widths) + 10;
      && p.xaxisLabels == Range(1, maxX)
      && (p.chart == "column" <==> IsMiSeq(seqName))
      && (!IsMiSeq(seqName) ==> p.chart == "area")
      && p.xLimits == [Limit("30", 30)] && p.limits == [Limit("30", 30)]
  {
  }
}
