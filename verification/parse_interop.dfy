/** parse_interop.py (top level): get_qscore_data, whose fill writes 0 into
    both the values and the widths on every platform. Its run_summary is
    SummaryTable. */
module ParseInterop {
  import opened Text
  import opened Qscore

  /** get_qscore_data's dictionaries, fill of both dictionaries and sort. */
  method GetQscoreData(series: seq<seq<Bar>>, xmax: int) returns (h: Histogram)
    ensures h == Collected(Flatten(series), xmax, FillValuesAndWidths)
  {
    h := Collect(series, xmax, FillValuesAndWidths);
  }

  /** Labels, data and widths have the same length and line up key by key:
      every label 1..int(xmax) is present, a filled label has value 0 and
      width 0, an observed one keeps its last bar's value and width. */
  lemma QscoreData(bars: seq<Bar>, xmax: int)
    ensures var h := Collected(bars, xmax, FillValuesAndWidths);
      && StrictlyIncreasing(h.xLabels)
      && |h.xLabels| == |h.data| == |h.widths|
      && (forall k :: k in h.xLabels <==> k in Xs(bars) || 1 <= k <= xmax)
      && (forall i :: 0 <= i < |h.data| ==>
            h.data[i] == LastHeight(bars, h.xLabels[i]) && h.widths[i] == LastWidth(bars, h.xLabels[i]))
      && (forall i :: 0 <= i < |h.data| && h.xLabels[i] !in Xs(bars) ==> h.data[i] == 0 && h.widths[i] == 0)
  {
    CollectedData(bars, xmax, FillValuesAndWidths);
    CollectedWidths(bars, xmax, FillValuesAndWidths);
    forall k | k !in Xs(bars) ensures LastHeight(bars, k) == 0 && LastWidth(bars, k) == 0 {
      DictionariesAreLastBar(bars, k);
    }
  }
}
