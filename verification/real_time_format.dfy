/** The older format_q30_plot_data of API/api/functions/real_time_status.py:
    outside NextSeq the values are cut after their last non-zero entry and
    drawn as two column series split at Q30; on NextSeq they become area
    series whose None padding accumulates the widths drawn so far. */
module RealTimeFormat {
  import opened Wrappers
  import opened Text
  import opened Chart

  /** The series tag every NextSeq series carries. */
  const NextSeqTag := "nextseq-series"

  /** The starting value of last_idx: data[:46] when no value is non-zero. */
  const DefaultLastIdx := 45

  // ---- Other sequencers: truncation and the two column series ----

  /** last_idx after the scan of the first n values. */
  function LastIdxUpTo(values: seq<int>, n: nat): int
    requires n <= |values|
  {
    if n == 0 then DefaultLastIdx
    else if values[n - 1] != 0 then n - 1
    else LastIdxUpTo(values, n - 1)
  }

  /** last_idx is the index of the last non-zero value among the first n,
      or 45 when they are all zero. */
  lemma {:induction false} LastIdxSpec(values: seq<int>, n: nat)
    requires n <= |values|
    ensures var last := LastIdxUpTo(values, n);
      || (last == DefaultLastIdx && forall i :: 0 <= i < n ==> values[i] == 0)
      || (0 <= last < n && values[last] != 0 && forall i :: last < i < n ==> values[i] == 0)
  {
    if n > 0 && values[n - 1] == 0 {
      LastIdxSpec(values, n - 1);
    }
  }

  /** The length data[:last_idx + 1] keeps: Python clamps the slice. */
  function KeptLength(values: seq<int>): (k: nat)
    ensures k <= |values|
  {
    var last := LastIdxUpTo(values, |values|);
    if last < 0 then 0 else if last + 1 < |values| then last + 1 else |values|
  }

  /** data['data'] after the truncation. */
  function Truncated(values: seq<int>): (t: seq<int>)
    ensures |t| <= |values|
  {
    values[..KeptLength(values)]
  }

  /** The truncation keeps a prefix and cuts only zeros: just after the last
      non-zero value when there is one, at 46 entries otherwise. */
  lemma TruncatedSpec(values: seq<int>)
    ensures var t := Truncated(values);
      && t == values[..|t|]
      && (forall i :: |t| <= i < |values| ==> values[i] == 0)
      && ((exists i :: 0 <= i < |values| && values[i] != 0) ==> |t| > 0 && t[|t| - 1] != 0)
      && ((forall i :: 0 <= i < |values| ==> values[i] == 0) ==>
            |t| == if |values| < DefaultLastIdx + 1 then |values| else DefaultLastIdx + 1)
  {
    LastIdxSpec(values, |values|);
  }

  /** The index of the last non-zero value, found by the loop over
      enumerate(data['data']). */
  method LastNonZero(values: seq<int>) returns (lastIdx: int)
    ensures lastIdx == LastIdxUpTo(values, |values|)
  {
    lastIdx := DefaultLastIdx;
    var idx := 0;
    while idx < |values|
      invariant 0 <= idx <= |values| && lastIdx == LastIdxUpTo(values, idx)
    {
      if values[idx] != 0 {
        lastIdx := idx;
      }
      idx := idx + 1;
    }
  }

  function Min(a: int, b: int): int
  {
    if a < b then a else b
  }

  /** [{'x': x_labels[idx], 'y': y} for idx, y in enumerate(data[:29])]. */
  function LowPoints(xLabels: seq<int>, data: seq<int>): (r: seq<Point>)
    requires |data| <= |xLabels|
    ensures |r| == Min(Q30Index, |data|)
  {
    seq(Min(Q30Index, |data|), i requires 0 <= i < Min(Q30Index, |data|) => Point(xLabels[i], data[i]))
  }

  /** [{'x': x_labels[idx + 29], 'y': y} for idx, y in enumerate(data[29:])]. */
  function HighPoints(xLabels: seq<int>, data: seq<int>): (r: seq<Point>)
    requires |data| <= |xLabels|
    ensures |r| == if |data| <= Q30Index then 0 else |data| - Q30Index
  {
    var n := if |data| <= Q30Index then 0 else |data| - Q30Index;
    seq(n, i requires 0 <= i < n => Point(xLabels[i + Q30Index], data[i + Q30Index]))
  }

  /** The two series hold the values in order, the low one the first 29 at
      their own labels, the high one the rest at theirs; the high series is
      empty when there are at most 29 values. */
  lemma ColumnSplit(xLabels: seq<int>, data: seq<int>)
    requires |data| <= |xLabels|
    ensures var lo, hi := LowPoints(xLabels, data), HighPoints(xLabels, data);
      && Ys(lo) + Ys(hi) == data
      && (forall i :: 0 <= i < |lo| ==> lo[i].x == xLabels[i])
      && (forall i :: 0 <= i < |hi| ==> hi[i].x == xLabels[i + Q30Index])
      && (|hi| == 0 <==> |data| <= Q30Index)
  {
    var lo, hi := Ys(LowPoints(xLabels, data)), Ys(HighPoints(xLabels, data));
    assert |lo + hi| == |data|;
    forall i | 0 <= i < |data| ensures (lo + hi)[i] == data[i] {
      if i >= |lo| {
        assert (lo + hi)[i] == hi[i - |lo|];
      }
    }
  }

  // ---- NextSeq: area series with accumulated padding ----

  /** The loop's state: the series so far and previous_width. */
  datatype AreaState = AreaState(series: seq<Series>, previousWidth: int)

  /** One iteration, for the point at index idx. */
  function AreaStep(st: AreaState, values: seq<int>, widths: seq<int>, xTitle: string, idx: nat): AreaState
    requires idx < |values| && idx < |widths|
  {
    var link := if idx == 0 then Id else LinkedTo;
    var w := widths[idx];
    var pad := if st.previousWidth == 0 then [Area(link, NextSeqTag, xTitle, Repeat(Null, w), None)] else [];
    var pw := if st.previousWidth == 0 then w - 1 else st.previousWidth;
    var color := if pw < Q30Index then LowColor else AreaHighColor;
    AreaState(st.series + pad + [Area(link, NextSeqTag, xTitle, Repeat(Null, pw) + Repeat(Val(values[idx]), w + 1), Some(color))],
              pw + w)
  }

  /** The state after the first n points. */
  function AreaUpTo(values: seq<int>, widths: seq<int>, xTitle: string, n: nat): AreaState
    requires n <= |values| && n <= |widths|
  {
    if n == 0 then AreaState([], 0) else AreaStep(AreaUpTo(values, widths, xTitle, n - 1), values, widths, xTitle, n - 1)
  }

  /** [None] * n, by appending one at a time. */
  method Nones(n: int) returns (d: seq<Cell>)
    ensures d == Repeat(Null, n)
  {
    d := [];
    var i := 0;
    while i < n
      invariant 0 <= i && (n >= 0 ==> i <= n) && (n < 0 ==> i == 0)
      invariant d == Repeat(Null, i)
    {
      d := d + [Null];
      i := i + 1;
    }
  }

  /** d followed by n copies of the point. */
  method AppendPoint(d: seq<Cell>, point: int, n: int) returns (r: seq<Cell>)
    ensures r == d + Repeat(Val(point), n)
  {
    r := d;
    var i := 0;
    while i < n
      invariant 0 <= i && (n >= 0 ==> i <= n) && (n < 0 ==> i == 0)
      invariant r == d + Repeat(Val(point), i)
    {
      r := r + [Val(point)];
      i := i + 1;
    }
  }

  /** The loop over enumerate(data['data']) with its counter previous_width. */
  method AreaSeries(values: seq<int>, widths: seq<int>, xTitle: string) returns (series: seq<Series>)
    requires |values| <= |widths|
    ensures series == AreaUpTo(values, widths, xTitle, |values|).series
  {
    series := [];
    var previousWidth := 0;
    var idx := 0;
    while idx < |values|
      invariant 0 <= idx <= |values|
      invariant AreaState(series, previousWidth) == AreaUpTo(values, widths, xTitle, idx)
    {
      var point := values[idx];
      var status := if idx == 0 then Id else LinkedTo;
      if previousWidth == 0 {
        var pad := Nones(widths[idx]);
        series := series + [Area(status, NextSeqTag, xTitle, pad, None)];
        previousWidth := previousWidth + (widths[idx] - 1);
      }
      var d := Nones(previousWidth);
      d := AppendPoint(d, point, widths[idx] + 1);
      var color := if previousWidth < Q30Index then LowColor else AreaHighColor;
      series := series + [Area(status, NextSeqTag, xTitle, d, Some(color))];
      previousWidth := previousWidth + widths[idx];
      idx := idx + 1;
    }
  }

  /** One iteration appends an uncoloured series of width Nones exactly when
      previous_width is 0, and previous_width then grows by width - 1; the
      value series is previous_width Nones and width + 1 copies of the
      point, and previous_width grows by the width. */
  lemma PaddingStep(st: AreaState, values: seq<int>, widths: seq<int>, xTitle: string, idx: nat)
    requires idx < |values| && idx < |widths|
    ensures var r := AreaStep(st, values, widths, xTitle, idx);
      var w := widths[idx];
      var pw := if st.previousWidth == 0 then w - 1 else st.previousWidth;
      && r.series[..|st.series|] == st.series
      && |r.series| == |st.series| + (if st.previousWidth == 0 then 2 else 1)
      && (st.previousWidth == 0 ==> r.series[|st.series|].cells == Repeat(Null, w) && r.series[|st.series|].fill.None?)
      && r.series[|r.series| - 1].cells == Repeat(Null, pw) + Repeat(Val(values[idx]), w + 1)
      && r.series[|r.series| - 1].fill.Some?
      && r.previousWidth == pw + w
  {
  }

  /** Only the series of the first point (its padding series and its value
      series) are tagged `id`; every later one is `linkedTo`, and all carry
      the NextSeq tag. */
  lemma {:induction false} AreaLinks(values: seq<int>, widths: seq<int>, xTitle: string, n: nat)
    requires 1 <= n <= |values| && n <= |widths|
    ensures var s := AreaUpTo(values, widths, xTitle, n).series;
      && |s| >= 2
      && (forall k :: 0 <= k < |s| ==> (s[k].Area? && s[k].tag == NextSeqTag))
      && (forall k :: 0 <= k < |s| ==> (s[k].link == Id <==> k < 2))
  {
    if n > 1 {
      AreaLinks(values, widths, xTitle, n - 1);
      var prev := AreaUpTo(values, widths, xTitle, n - 1);
      PaddingStep(prev, values, widths, xTitle, n - 1);
    }
  }

  /** The padding in front of point k when every width is at least 1:
      the first width less one, plus the widths of the points before it. */
  function Offset(widths: seq<int>, k: nat): int
    requires 0 < |widths| && k <= |widths|
  {
    widths[0] - 1 + Sum(widths[..k])
  }

  /** The series drawn for point k when every width is at least 1. */
  function ValueSeries(values: seq<int>, widths: seq<int>, xTitle: string, k: nat): Series
    requires k < |values| && k < |widths|
  {
    var off := Offset(widths, k);
    Area(if k == 0 then Id else LinkedTo, NextSeqTag, xTitle,
         Repeat(Null, off) + Repeat(Val(values[k]), widths[k] + 1),
         Some(if off < Q30Index then LowColor else AreaHighColor))
  }

  /** A sum of widths that are all at least 1 is at least their number. */
  lemma {:induction false} SumAtLeast(widths: seq<int>, k: nat)
    requires k <= |widths| && forall i :: 0 <= i < k ==> widths[i] >= 1
    ensures Sum(widths[..k]) >= k
  {
    if k > 0 {
      SumAtLeast(widths, k - 1);
      SumPrefix(widths, k);
    }
  }

  /** Sum over one more width. */
  lemma SumPrefix(widths: seq<int>, k: nat)
    requires 0 < k <= |widths|
    ensures Sum(widths[..k]) == Sum(widths[..k - 1]) + widths[k - 1]
  {
    assert widths[..k][..k - 1] == widths[..k - 1];
  }

  /** With widths of at least 1, previous_width is only 0 before the first
      point: the chart is one padding series of widths[0] Nones, then one
      series per point whose padding is the first width less one plus all
      earlier widths, so the points follow each other along the x axis. */
  lemma {:induction false} AreaCumulative(values: seq<int>, widths: seq<int>, xTitle: string, n: nat)
    requires 1 <= n <= |values| && n <= |widths|
    requires forall i :: 0 <= i < n ==> widths[i] >= 1
    ensures var st := AreaUpTo(values, widths, xTitle, n);
      && |st.series| == n + 1
      && st.previousWidth == Offset(widths, n)
      && st.series[0] == Area(Id, NextSeqTag, xTitle, Repeat(Null, widths[0]), None)
      && forall k :: 0 <= k < n ==> st.series[k + 1] == ValueSeries(values, widths, xTitle, k)
  {
    SumPrefix(widths, n);
    if n == 1 {
      assert widths[..0] == [];
    } else {
      AreaCumulative(values, widths, xTitle, n - 1);
      var prev := AreaUpTo(values, widths, xTitle, n - 1);
      SumAtLeast(widths, n - 1);
      assert prev.previousWidth != 0;
      var s := AreaUpTo(values, widths, xTitle, n).series;
      assert s == prev.series + [ValueSeries(values, widths, xTitle, n - 1)];
      forall k | 0 <= k < n ensures s[k + 1] == ValueSeries(values, widths, xTitle, k) {
        if k < n - 1 {
          assert s[k + 1] == prev.series[k + 1];
        }
      }
    }
  }

  // ---- The whole chart ----

  /** The chart format_q30_plot_data returns. */
  function Q30Plot(xLabels: seq<int>, values: seq<int>, widths: seq<int>, xTitle: string, yTitle: string,
                   isNextseq: bool): Plot
    requires isNextseq ==> |values| <= |widths|
    requires !isNextseq ==> |values| <= |xLabels|
  {
    if isNextseq then
      Envelope(xTitle, yTitle, Sum(widths) + 10, AreaUpTo(values, widths, xTitle, |values|).series, "area")
    else
      var t := Truncated(values);
      Envelope(xTitle, yTitle, |t| + 1,
               [Column(xTitle, LowPoints(xLabels, t), LowColor), Column(xTitle, HighPoints(xLabels, t), HighColor)],
               "column")
  }

  /** format_q30_plot_data(data, is_nextseq). Outside NextSeq, data['data']
      is truncated in place. */
  method FormatQ30PlotData(d: PlotInput, isNextseq: bool) returns (p: Plot)
    requires isNextseq ==> |d.values| <= |d.widths|
    requires !isNextseq ==> |d.values| <= |d.xLabels|
    modifies d
    ensures p == Q30Plot(old(d.xLabels), old(d.values), old(d.widths), old(d.xTitle), old(d.yTitle), isNextseq)
    ensures d.values == if isNextseq then old(d.values) else Truncated(old(d.values))
    ensures d.xLabels == old(d.xLabels) && d.widths == old(d.widths)
    ensures d.xTitle == old(d.xTitle) && d.yTitle == old(d.yTitle)
  {
    var maxX: int;
    if isNextseq {
      maxX := Sum(d.widths) + 10;
    } else {
      var lastIdx := LastNonZero(d.values);
      d.values := d.values[..if lastIdx < 0 then 0 else Min(lastIdx + 1, |d.values|)];
      maxX := |d.values| + 1;
    }
    var series: seq<Series>;
    var chartType: string;
    if !isNextseq {
      series := [Column(d.xTitle, LowPoints(d.xLabels, d.values), LowColor),
                 Column(d.xTitle, HighPoints(d.xLabels, d.values), HighColor)];
      chartType := "column";
    } else {
      chartType := "area";
      series := AreaSeries(d.values, d.widths, d.xTitle);
    }
    p := Envelope(d.xTitle, d.yTitle, maxX, series, chartType);
  }

  /** The x axis runs 1..len(truncated data) + 1 outside NextSeq and
      1..sum(widths) + 10 on NextSeq; the chart is "column" outside NextSeq
      and "area" on it, with the Q30 limit markers. */
  lemma PlotAxis(xLabels: seq<int>, values: seq<int>, widths: seq<int>, xTitle: string, yTitle: string, isNextseq: bool)
    requires isNextseq ==> |values| <= |widths|
    requires !isNextseq ==> |values| <= |xLabels|
    ensures var p := Q30Plot(xLabels, values, widths, xTitle, yTitle, isNextseq);
      && p.xaxisLabels == Range(1, if isNextseq then Sum(widths) + 10 else |Truncated(values)| + 1)
      && p.chart == (if isNextseq then "area" else "column")
      && p.xLimits == [Limit("30", 30)] && p.limits == [Limit("30", 30)]
  {
    var maxX := if isNextseq then Sum(widths) + 10 else |Truncated(values)| + 1;
    var p := Q30Plot(xLabels, values, widths, xTitle, yTitle, isNextseq);
    assert p == Envelope(xTitle, yTitle, maxX, p.series, p.chart);
  }
}
