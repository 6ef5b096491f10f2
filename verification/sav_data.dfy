/** The histogram post-processing of get_qscore_data as written in both
    API/SAV_data/generate_SAV_data.py and API/api/functions/parse_interop.py
    (the two bodies are the same): the values, not the widths, are
    zero-filled unless the run is a NextSeq run. The run_summary of both
    files is SummaryTable. */
module SavData {
  import opened Text
  import opened Qscore

  /** The fill rule of this revision: values only, and not for NextSeq. */
  function Policy(isNextseq: bool): (p: FillPolicy)
    ensures p != FillValuesAndWidths
    ensures p == NoFill <==> isNextseq
  {
    if isNextseq then NoFill else FillValues
  }

  /** get_qscore_data's dictionaries, fill and sort. */
  method GetQscoreData(series: seq<seq<Bar>>, xmax: int, isNextseq: bool) returns (h: Histogram)
    ensures h == Collected(Flatten(series), xmax, Policy(isNextseq))
  {
    h := Collect(series, xmax, Policy(isNextseq));
  }

  /** Outside NextSeq every label 1..int(xmax) is present, a filled label
      holds 0 and an observed one keeps its last bar's height; the widths
      are those of the observed labels only, so there are never more widths
      than labels. On NextSeq the labels are the observed ones and the
      widths line up with them. */
  lemma QscoreData(bars: seq<Bar>, xmax: int, isNextseq: bool)
    ensures var h := Collected(bars, xmax, Policy(isNextseq));
      && StrictlyIncreasing(h.xLabels)
      && (forall k :: k in h.xLabels <==> k in Xs(bars) || (!isNextseq && 1 <= k <= xmax))
      && (forall i :: 0 <= i < |h.data| ==> h.data[i] == LastHeight(bars, h.xLabels[i]))
      && |h.widths| == |Observed(bars)| <= |h.data| == |h.xLabels|
      && (isNextseq ==> h.xLabels == Observed(bars))
      && (forall i :: 0 <= i < |h.widths| ==> h.widths[i] == LastWidth(bars, Observed(bars)[i]))
  {
    CollectedData(bars, xmax, Policy(isNextseq));
    CollectedWidths(bars, xmax, Policy(isNextseq));
    if isNextseq {
      SortedUnique(Observed(bars), Collected(bars, xmax, NoFill).xLabels);
    }
  }
}
