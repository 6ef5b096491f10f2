/** API/status/lib/interop.py: the part of summary that decides the status
    and fills result['reads'] and result['q30_plot'], and the histogram
    post-processing of get_qscore_data. The InterOp reads, bars and the
    formatted metric strings come in as inputs. */
module StatusInterop {
  import opened Text
  import opened Platform
  import opened Chart
  import opened Records
  import opened Qscore
  import Format

  /** The fill rule of this revision: values only, and not for MiSeq. */
  function Policy(seqName: string): (p: FillPolicy)
    ensures p != FillValuesAndWidths
    ensures p == NoFill <==> IsMiSeq(seqName)
  {
    if IsMiSeq(seqName) then NoFill else FillValues
  }

  /** get_qscore_data's dictionaries, fill and sort; `series` is the bar
      data and `xmax` the x axis maximum, both from InterOp. */
  method GetQscoreData(series: seq<seq<Bar>>, xmax: int, seqName: string) returns (h: Histogram)
    ensures h == Collected(Flatten(series), xmax, Policy(seqName))
  {
    h := Collect(series, xmax, Policy(seqName));
  }

  /** For MiSeq the labels are exactly the observed ones, ascending, with the
      widths lined up with them; otherwise every label 1..int(xmax) is there,
      a filled label holds 0, and the widths are those of the observed
      labels only. Each value is the height of the last bar at its label. */
  lemma QscoreData(bars: seq<Bar>, xmax: int, seqName: string)
    ensures var h := Collected(bars, xmax, Policy(seqName));
      && StrictlyIncreasing(h.xLabels)
      && (forall k :: k in h.xLabels <==> k in Xs(bars) || (!IsMiSeq(seqName) && 1 <= k <= xmax))
      && (forall i :: 0 <= i < |h.data| ==> h.data[i] == LastHeight(bars, h.xLabels[i]))
      && |h.widths| == |Observed(bars)| <= |h.data| == |h.xLabels|
      && (IsMiSeq(seqName) ==> h.xLabels == Observed(bars))
      && (forall i :: 0 <= i < |h.widths| ==> h.widths[i] == LastWidth(bars, Observed(bars)[i]))
  {
    var h := Collected(bars, xmax, Policy(seqName));
    CollectedData(bars, xmax, Policy(seqName));
    CollectedWidths(bars, xmax, Policy(seqName));
    if IsMiSeq(seqName) {
      SortedUnique(Observed(bars), h.xLabels);
    }
  }

  /** Every bar sits at a label of at least 1. */
  predicate PositiveLabels(bars: seq<Bar>)
  {
    forall i :: 0 <= i < |bars| ==> bars[i].x >= 1
  }

  /** On MiSeq, a histogram with widths is what the column chart needs: a
      last label bounding all labels from above, 1 from below, and a value
      for each. */
  lemma MiSeqChartReady(bars: seq<Bar>, xmax: int, seqName: string)
    requires IsMiSeq(seqName) && PositiveLabels(bars)
    ensures var h := Collected(bars, xmax, Policy(seqName));
      |h.widths| > 0 ==> Format.DenseReady(h.xLabels, h.data)
  {
    var h := Collected(bars, xmax, NoFill);
    CollectedData(bars, xmax, NoFill);
    CollectedWidths(bars, xmax, NoFill);
    forall i | 0 <= i < |h.xLabels| ensures 1 <= h.xLabels[i] <= h.xLabels[|h.xLabels| - 1] {
      assert h.xLabels[i] in h.xLabels;
      var j :| 0 <= j < |bars| && Xs(bars)[j] == h.xLabels[i];
    }
  }

  /** The dictionary after summary(data_folder, result, seq), for a run
      whose summary has the given reads and whose histogram is `bars`. */
  function SummaryFields(f: Fields, readList: seq<ReadEntry>, bars: seq<Bar>, xmax: int, seqName: string,
                         xTitle: string, yTitle: string, t: Totals): (g: Fields)
    requires IsMiSeq(seqName) ==> PositiveLabels(bars)
    ensures StatusOf(g) ==
      if |readList| == 0 || |Collected(bars, xmax, Policy(seqName)).widths| == 0 then "Initializing" else StatusOf(f)
  {
    if |readList| == 0 then f["status" := Str("Initializing")]
    else
      var withReads := f["reads" := Reads(readList)];
      var h := Collected(bars, xmax, Policy(seqName));
      if |h.widths| == 0 then withReads["status" := Str("Initializing")]
      else
        if IsMiSeq(seqName) then MiSeqChartReady(bars, xmax, seqName); Complete(withReads, h, seqName, xTitle, yTitle, t)
        else Complete(withReads, h, seqName, xTitle, yTitle, t)
  }

  /** The writes after the second guard: the chart and the five metrics. */
  function Complete(f: Fields, h: Histogram, seqName: string, xTitle: string, yTitle: string, t: Totals): (g: Fields)
    requires IsMiSeq(seqName) ==> Format.DenseReady(h.xLabels, h.data)
    requires !IsMiSeq(seqName) ==> |h.widths| > 0
    ensures StatusOf(g) == StatusOf(f)
  {
    f["q30_plot" := PlotValue(Format.Q30Plot(h.xLabels, h.data, h.widths, xTitle, yTitle, seqName))]
     ["p_gt_q30" := Str(t.gt30 + "%")]
     ["total_yield" := Str(t.totalYield + "Gb")]
     ["percent_aligned" := Str(t.percentAligned + "%")]
     ["cluster_density" := Str(t.clusterDensity + "/mm²")]
     ["cluster_pf_percent" := Str(t.clusterPfPercent + "%")]
  }

  /** summary(data_folder, result, seq) on the dictionary `r`. */
  method Summary(r: Record, readList: seq<ReadEntry>, series: seq<seq<Bar>>, xmax: int, seqName: string,
                 xTitle: string, yTitle: string, t: Totals)
    requires IsMiSeq(seqName) ==> PositiveLabels(Flatten(series))
    modifies r
    ensures r.fields == SummaryFields(old(r.fields), readList, Flatten(series), xmax, seqName, xTitle, yTitle, t)
  {
    if |readList| == 0 {
      r.Put("status", Str("Initializing"));
      return;
    }
    r.Put("reads", Reads([]));
    var entries: seq<ReadEntry> := [];
    var i := 0;
    while i < |readList|
      invariant 0 <= i <= |readList| && entries == readList[..i]
      invariant r.fields == old(r.fields)["reads" := Reads(entries)]
    {
      entries := entries + [readList[i]];
      r.Put("reads", Reads(entries));
      i := i + 1;
    }
    assert entries == readList;
    var h := GetQscoreData(series, xmax, seqName);
    if |h.widths| == 0 {
      r.Put("status", Str("Initializing"));
      return;
    }
    if IsMiSeq(seqName) {
      MiSeqChartReady(Flatten(series), xmax, seqName);
    }
    var d := new PlotInput(h.xLabels, h.data, h.widths, xTitle, yTitle);
    var p := Format.FormatQ30PlotData(d, seqName);
    r.Put("q30_plot", PlotValue(p));
    r.Put("p_gt_q30", Str(t.gt30 + "%"));
    r.Put("total_yield", Str(t.totalYield + "Gb"));
    r.Put("percent_aligned", Str(t.percentAligned + "%"));
    r.Put("cluster_density", Str(t.clusterDensity + "/mm²"));
    r.Put("cluster_pf_percent", Str(t.clusterPfPercent + "%"));
  }

  /** A summary without reads marks the run Initializing and touches
      nothing else: neither reads nor q30_plot is written. */
  lemma NoReadsInitializes(f: Fields, bars: seq<Bar>, xmax: int, seqName: string, xTitle: string, yTitle: string, t: Totals)
    requires IsMiSeq(seqName) ==> PositiveLabels(bars)
    ensures var g := SummaryFields(f, [], bars, xmax, seqName, xTitle, yTitle, t);
      && StatusOf(g) == "Initializing"
      && (forall k :: k != "status" ==> (k in g <==> k in f))
      && (forall k :: k in g && k != "status" ==> g[k] == f[k])
  {
  }

  /** With reads but an empty widths list, the reads are recorded, one per
      read in order, the run is marked Initializing and q30_plot is left as
      it was. */
  lemma NoWidthsInitializes(f: Fields, readList: seq<ReadEntry>, bars: seq<Bar>, xmax: int, seqName: string,
                            xTitle: string, yTitle: string, t: Totals)
    requires IsMiSeq(seqName) ==> PositiveLabels(bars)
    requires |readList| > 0 && |Collected(bars, xmax, Policy(seqName)).widths| == 0
    ensures var g := SummaryFields(f, readList, bars, xmax, seqName, xTitle, yTitle, t);
      && StatusOf(g) == "Initializing"
      && g["reads"] == Reads(readList)
      && ("q30_plot" in g <==> "q30_plot" in f)
      && (forall k :: k in g && k != "status" && k != "reads" ==> k in f && g[k] == f[k])
  {
  }

  /** A histogram without bars has no widths, so a run with reads but no
      Q-score data is still Initializing. */
  lemma NoBarsNoWidths(xmax: int, seqName: string)
    ensures |Collected([], xmax, Policy(seqName)).widths| == 0
  {
    QscoreData([], xmax, seqName);
  }

  /** Complete leaves the status alone, draws the chart of `h` and writes
      the five metrics with their units. */
  lemma CompleteWrites(f: Fields, h: Histogram, seqName: string, xTitle: string, yTitle: string, t: Totals)
    requires IsMiSeq(seqName) ==> Format.DenseReady(h.xLabels, h.data)
    requires !IsMiSeq(seqName) ==> |h.widths| > 0
    ensures var g := Complete(f, h, seqName, xTitle, yTitle, t);
      && StatusOf(g) == StatusOf(f)
      && ("reads" in f ==> "reads" in g && g["reads"] == f["reads"])
      && g["q30_plot"] == PlotValue(Format.Q30Plot(h.xLabels, h.data, h.widths, xTitle, yTitle, seqName))
      && g["p_gt_q30"] == Str(t.gt30 + "%")
      && g["total_yield"] == Str(t.totalYield + "Gb")
      && g["percent_aligned"] == Str(t.percentAligned + "%")
      && g["cluster_density"] == Str(t.clusterDensity + "/mm²")
      && g["cluster_pf_percent"] == Str(t.clusterPfPercent + "%")
  {
  }

  /** Past both guards the status is left as it was, the reads are recorded,
      q30_plot is the chart of the collected histogram and the five metrics
      carry their units. */
  lemma SummaryComplete(f: Fields, readList: seq<ReadEntry>, bars: seq<Bar>, xmax: int, seqName: string,
                        xTitle: string, yTitle: string, t: Totals)
    requires IsMiSeq(seqName) ==> PositiveLabels(bars)
    requires |readList| > 0 && |Collected(bars, xmax, Policy(seqName)).widths| > 0
    ensures var h := Collected(bars, xmax, Policy(seqName));
      && (IsMiSeq(seqName) ==> Format.DenseReady(h.xLabels, h.data))
      && SummaryFields(f, readList, bars, xmax, seqName, xTitle, yTitle, t)
         == Complete(f["reads" := Reads(readList)], h, seqName, xTitle, yTitle, t)
  {
    if IsMiSeq(seqName) {
      MiSeqChartReady(bars, xmax, seqName);
    }
  }
}
