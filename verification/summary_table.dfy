/** The per-read summary table that run_summary builds from the InterOp run
    summary: one row per read plus the non-indexed and overall totals, six
    fixed columns, NaN cells replaced by the text "NaN". */
module SummaryTable {
  import opened Text
  import opened Dicts

  /** A metric as the summary reports it: NaN or a number the model does
      not interpret. */
  datatype Metric = NaN | Num(value: real)

  /** A cell of the result table: the text "NaN" or the number itself. */
  datatype Cell = Str(text: string) | Number(value: real)

  /** The six accessors run_summary reads from a summary. */
  datatype Metrics = Metrics(yieldG: Metric, projectedYieldG: Metric, percentAligned: Metric,
                             percentOccupied: Metric, percentGtQ30: Metric, errorRate: Metric)

  /** One read of the run summary: its number, its index flag and its metrics. */
  datatype ReadSummary = ReadSummary(number: nat, isIndex: bool, summary: Metrics)

  /** The column labels, in the order of the `columns` tuple. */
  const Columns: seq<string> := ["Yield Total (G)", "Projected Yield (G)", "% Aligned", "% Occupied", "% > Q30", "Error rate"]

  const NonIndexedTotal: string := "Non-Indexed Total"
  const Total: string := "Total"

  /** getattr(summary, func)() for the c-th column. */
  function Getter(m: Metrics, c: nat): Metric
    requires c < |Columns|
  {
    match c
    case 0 => m.yieldG
    case 1 => m.projectedYieldG
    case 2 => m.percentAligned
    case 3 => m.percentOccupied
    case 4 => m.percentGtQ30
    case _ => m.errorRate
  }

  /** `'NaN' if isnan(val) else val`. */
  function CellOf(v: Metric): (c: Cell)
    ensures c.Str? <==> v.NaN?
    ensures c.Str? ==> c.text == "NaN"
    ensures v.Num? ==> c == Number(v.value)
  {
    if v.NaN? then Str("NaN") else Number(v.value)
  }

  /** "Read %s%d" with "(I)" for an index read and a space otherwise. */
  function RowLabel(r: ReadSummary): string
  {
    "Read " + (if r.isIndex then "(I)" else " ") + NatToString(r.number)
  }

  /** Two reads get the same label only when they have the same number and
      the same index flag; no read label is one of the two total labels. */
  lemma RowLabelInjective(r1: ReadSummary, r2: ReadSummary)
    ensures RowLabel(r1) == RowLabel(r2) <==> r1.number == r2.number && r1.isIndex == r2.isIndex
    ensures RowLabel(r1) != NonIndexedTotal && RowLabel(r1) != Total
  {
    var a, b := RowLabel(r1), RowLabel(r2);
    assert a[0] == 'R';
    if a == b {
      var d1, d2 := NatToString(r1.number), NatToString(r2.number);
      // The sixth character is '(' for an index read and ' ' otherwise.
      assert a[5] == (if r1.isIndex then '(' else ' ');
      assert b[5] == (if r2.isIndex then '(' else ' ');
      var p := if r1.isIndex then 8 else 6;
      assert a[p..] == d1 && b[p..] == d2;
      ParseNatToString(r1.number);
      ParseNatToString(r2.number);
    }
  }

  /** The labels of the reads, in read order. */
  function ReadLabels(summaries: seq<ReadSummary>): (labels: seq<string>)
    ensures |labels| == |summaries|
    ensures forall i :: 0 <= i < |summaries| ==> labels[i] == RowLabel(summaries[i])
  {
    seq(|summaries|, i requires 0 <= i < |summaries| => RowLabel(summaries[i]))
  }

  /** The labels of the rows: the reads in order, then the two totals. */
  function RowLabels(summaries: seq<ReadSummary>): (labels: seq<string>)
    ensures |labels| == |summaries| + 2
    ensures forall i :: 0 <= i < |summaries| ==> labels[i] == RowLabel(summaries[i])
    ensures labels[|summaries|] == NonIndexedTotal && labels[|summaries| + 1] == Total
  {
    ReadLabels(summaries) + [NonIndexedTotal, Total]
  }

  /** The summaries of the rows, aligned with RowLabels. */
  function RowMetrics(summaries: seq<ReadSummary>, nonIndex: Metrics, total: Metrics): (ms: seq<Metrics>)
    ensures |ms| == |summaries| + 2
    ensures forall i :: 0 <= i < |summaries| ==> ms[i] == summaries[i].summary
    ensures ms[|summaries|] == nonIndex && ms[|summaries| + 1] == total
  {
    seq(|summaries|, i requires 0 <= i < |summaries| => summaries[i].summary) + [nonIndex, total]
  }

  /** list.index: the position of the first occurrence of x. */
  function IndexOf(xs: seq<string>, x: string): (i: nat)
    requires x in xs
    ensures i < |xs| && xs[i] == x
    ensures forall j :: 0 <= j < i ==> xs[j] != x
  {
    if xs[0] == x then 0 else 1 + IndexOf(xs[1..], x)
  }

  /** In a list without repeats, an element's first occurrence is its
      position. */
  lemma IndexOfDistinct(xs: seq<string>, i: nat)
    requires i < |xs| && forall a, b :: 0 <= a < b < |xs| ==> xs[a] != xs[b]
    ensures IndexOf(xs, xs[i]) == i
  {
  }

  /** The column labels are distinct. */
  lemma ColumnsDistinct()
    ensures forall i, j :: 0 <= i < j < |Columns| ==> Columns[i] != Columns[j]
  {
    assert Columns[0][0] == 'Y' && Columns[1][0] == 'P' && Columns[2][2] == 'A';
    assert Columns[3][2] == 'O' && Columns[4][2] == '>' && Columns[5][0] == 'E';
  }

  /** A row of the result: column label to cell, in insertion order. */
  type Row = seq<Entry<Cell>>

  /** The dictionary run_summary returns: row label to row, in insertion
      order. */
  type SummaryDict = seq<Entry<Row>>

  /** The six assignments result[idx][label] = val of one row, in the order
      of the `columns` tuple. */
  function ColumnEntries(m: Metrics): seq<Entry<Cell>>
  {
    seq(|Columns|, c requires 0 <= c < |Columns| => Entry(Columns[c], CellOf(Getter(m, c))))
  }

  /** A row of the table: the six assignments applied to {}. */
  function Cells(m: Metrics): Row
  {
    PutAll(ColumnEntries(m), |Columns|)
  }

  /** Each row holds the six columns once each, in the order of `columns`,
      NaN cells as the text "NaN". */
  lemma CellsSpec(m: Metrics)
    ensures Keys(Cells(m)) == Columns
    ensures forall c :: 0 <= c < |Columns| ==> Cells(m)[c].value == CellOf(Getter(m, c))
  {
    ColumnsDistinct();
    var src := ColumnEntries(m);
    PutAllDistinct(src, |Columns|);
    assert src[..|Columns|] == src;
  }

  /** The labels in the order of their first occurrence, each once: the
      order in which a dict receives them as keys. */
  function FirstOccurrences(xs: seq<string>): seq<string>
  {
    if |xs| == 0 then []
    else
      var prev := FirstOccurrences(xs[..|xs| - 1]);
      if xs[|xs| - 1] in prev then prev else prev + [xs[|xs| - 1]]
  }

  /** Appending a label leaves the first occurrences of the earlier ones
      where they are. */
  lemma IndexOfPrefix(ys: seq<string>, x: string, y: string)
    requires y in ys
    ensures IndexOf(ys + [x], y) == IndexOf(ys, y)
  {
    var i := IndexOf(ys, y);
    assert (ys + [x])[i] == ys[i];
  }

  /** FirstOccurrences holds exactly the labels, ordered by where each first
      occurs, so no label twice. */
  lemma {:induction false} FirstOccurrencesSpec(xs: seq<string>)
    ensures forall x :: x in FirstOccurrences(xs) <==> x in xs
    ensures forall i, j :: 0 <= i < j < |FirstOccurrences(xs)| ==>
      IndexOf(xs, FirstOccurrences(xs)[i]) < IndexOf(xs, FirstOccurrences(xs)[j])
    ensures forall i, j :: 0 <= i < j < |FirstOccurrences(xs)| ==> FirstOccurrences(xs)[i] != FirstOccurrences(xs)[j]
  {
    if |xs| > 0 {
      var ys, x := xs[..|xs| - 1], xs[|xs| - 1];
      assert xs == ys + [x];
      FirstOccurrencesSpec(ys);
      var f, g := FirstOccurrences(ys), FirstOccurrences(xs);
      forall y | y in ys ensures IndexOf(xs, y) == IndexOf(ys, y) {
        IndexOfPrefix(ys, x, y);
      }
      if x !in f {
        assert IndexOf(xs, x) == |ys|;
        forall i, j | 0 <= i < j < |g| ensures IndexOf(xs, g[i]) < IndexOf(xs, g[j]) {
          assert g[i] == f[i];
          if j < |f| {
            assert g[j] == f[j];
          }
        }
      }
    }
  }

  /** Labels that are already distinct keep their order. */
  lemma {:induction false} FirstOccurrencesOfDistinct(xs: seq<string>)
    requires forall i, j :: 0 <= i < j < |xs| ==> xs[i] != xs[j]
    ensures FirstOccurrences(xs) == xs
  {
    if |xs| > 0 {
      var ys := xs[..|xs| - 1];
      FirstOccurrencesOfDistinct(ys);
      assert xs[|xs| - 1] !in ys;
      assert xs == ys + [xs[|xs| - 1]];
    }
  }

  /** One more label is appended unless it occurred already. */
  lemma FirstOccurrencesSnoc(xs: seq<string>, x: string)
    ensures FirstOccurrences(xs + [x]) == if x in FirstOccurrences(xs) then FirstOccurrences(xs) else FirstOccurrences(xs) + [x]
  {
    assert (xs + [x])[..|xs|] == xs;
  }

  /** A label not seen before is appended as the last key. */
  lemma FirstOccurrencesAppend(xs: seq<string>, a: string)
    requires a !in xs
    ensures FirstOccurrences(xs + [a]) == FirstOccurrences(xs) + [a]
  {
    FirstOccurrencesSpec(xs);
    assert (xs + [a])[..|xs|] == xs;
  }

  /** The row of label l: the one of its first occurrence, as
      indexes.index(idx) picks it. */
  function RowOf(labels: seq<string>, rows: seq<Row>, l: string): Row
    requires |labels| == |rows|
  {
    if l in labels then rows[IndexOf(labels, l)] else []
  }

  /** The cells of every summary, in row order. */
  function RowsOf(ms: seq<Metrics>): (rows: seq<Row>)
    ensures |rows| == |ms| && forall i :: 0 <= i < |ms| ==> rows[i] == Cells(ms[i])
  {
    seq(|ms|, i requires 0 <= i < |ms| => Cells(ms[i]))
  }

  /** The assignments result[idx] = row of the outer loop, one per label. */
  function RowEntries(labels: seq<string>, rows: seq<Row>): seq<Entry<Row>>
    requires |labels| == |rows|
  {
    seq(|labels|, i requires 0 <= i < |labels| => Entry(labels[i], RowOf(labels, rows, labels[i])))
  }

  /** The table run_summary returns for the given rows. */
  function Table(labels: seq<string>, ms: seq<Metrics>): SummaryDict
    requires |labels| == |ms|
  {
    TableUpTo(labels, ms, |labels|)
  }

  /** The table after the outer loop has seen the first i labels. */
  function TableUpTo(labels: seq<string>, ms: seq<Metrics>, i: nat): SummaryDict
    requires |labels| == |ms| && i <= |labels|
  {
    PutAll(RowEntries(labels, RowsOf(ms)), i)
  }

  /** Every key of t holds the row of its label's first occurrence. */
  predicate RowsOfFirst(t: SummaryDict, labels: seq<string>, rows: seq<Row>)
    requires |labels| == |rows|
  {
    forall p :: 0 <= p < |t| ==> t[p].value == RowOf(labels, rows, t[p].key)
  }

  /** One assignment result[idx] = row keeps the keys distinct, appends a
      new label last, and keeps every key holding its row. */
  lemma TableStep(labels: seq<string>, rows: seq<Row>, prev: SummaryDict, k: string)
    requires |labels| == |rows| && DistinctKeys(prev) && RowsOfFirst(prev, labels, rows)
    ensures var r := Put(prev, k, RowOf(labels, rows, k));
      && DistinctKeys(r)
      && Keys(r) == (if k in Keys(prev) then Keys(prev) else Keys(prev) + [k])
      && RowsOfFirst(r, labels, rows)
  {
    var v := RowOf(labels, rows, k);
    PutKeyOrder(prev, k, v);
    PutDistinct(prev, k, v);
    PutShape(prev, k, v);
  }

  /** The i-th assignment of the outer loop, for the i-th label. */
  lemma RowEntriesStep(labels: seq<string>, rows: seq<Row>, i: nat)
    requires |labels| == |rows| && 0 < i <= |labels|
    ensures PutAll(RowEntries(labels, rows), i)
      == Put(PutAll(RowEntries(labels, rows), i - 1), labels[i - 1], RowOf(labels, rows, labels[i - 1]))
    ensures labels[..i] == labels[..i - 1] + [labels[i - 1]]
  {
  }

  /** After the first i labels the keys are their first occurrences, in
      that order, and every key holds the row of its first occurrence. */
  lemma {:induction false} TableUpToSpec(labels: seq<string>, rows: seq<Row>, i: nat)
    requires |labels| == |rows| && i <= |labels|
    ensures var t := PutAll(RowEntries(labels, rows), i);
      && DistinctKeys(t) && Keys(t) == FirstOccurrences(labels[..i]) && RowsOfFirst(t, labels, rows)
  {
    if i > 0 {
      TableUpToSpec(labels, rows, i - 1);
      TableStep(labels, rows, PutAll(RowEntries(labels, rows), i - 1), labels[i - 1]);
      FirstOccurrencesSnoc(labels[..i - 1], labels[i - 1]);
      RowEntriesStep(labels, rows, i);
    }
  }

  /** The table has a key for each distinct label, in first-occurrence
      order, holding the row of that first occurrence. */
  lemma TableSpec(labels: seq<string>, ms: seq<Metrics>)
    requires |labels| == |ms|
    ensures var t := Table(labels, ms);
      && DistinctKeys(t) && Keys(t) == FirstOccurrences(labels)
      && forall p :: 0 <= p < |t| ==> t[p].key in labels && t[p].value == Cells(ms[IndexOf(labels, t[p].key)])
  {
    TableUpToSpec(labels, RowsOf(ms), |labels|);
    FirstOccurrencesSpec(labels);
    assert labels[..|labels|] == labels;
  }

  /** The series of column c: getattr(r[1], func)() for every row. */
  function Serie(ms: seq<Metrics>, c: nat): (s: seq<Metric>)
    requires c < |Columns|
    ensures |s| == |ms| && forall r :: 0 <= r < |ms| ==> s[r] == Getter(ms[r], c)
  {
    seq(|ms|, r requires 0 <= r < |ms| => Getter(ms[r], c))
  }

  /** d: each column label, in the order of `columns`, with its series. */
  predicate IsSeries(d: seq<Entry<seq<Metric>>>, ms: seq<Metrics>)
  {
    |d| == |Columns| &&
    forall c :: 0 <= c < |Columns| ==> d[c].key == Columns[c] && d[c].value == Serie(ms, c)
  }

  /** The loop over `columns` that builds d[label]['serie']. */
  method ColumnSeries(ms: seq<Metrics>) returns (d: seq<Entry<seq<Metric>>>)
    ensures IsSeries(d, ms)
  {
    ghost var src := seq(|Columns|, c requires 0 <= c < |Columns| => Entry(Columns[c], Serie(ms, c)));
    ColumnsDistinct();
    d := [];
    var c := 0;
    while c < |Columns|
      invariant 0 <= c <= |Columns|
      invariant d == PutAll(src, c)
    {
      d := Put(d, Columns[c], Serie(ms, c));
      c := c + 1;
    }
    PutAllDistinct(src, |Columns|);
    assert src[..|Columns|] == src;
  }

  /** The inner loop over d.keys(): the row of the pos-th summary, read off
      the series. */
  method BuildRow(d: seq<Entry<seq<Metric>>>, ghost ms: seq<Metrics>, pos: nat) returns (row: Row)
    requires IsSeries(d, ms) && pos < |ms|
    ensures row == Cells(ms[pos])
  {
    row := [];
    var c := 0;
    while c < |d|
      invariant 0 <= c <= |d|
      invariant row == PutAll(ColumnEntries(ms[pos]), c)
    {
      var v: Metric := d[c].value[pos];
      row := Put(row, d[c].key, CellOf(v));
      c := c + 1;
    }
  }

  /** One pass of the outer loop assigns the cells of the label's first
      summary. */
  lemma TableAddRow(labels: seq<string>, ms: seq<Metrics>, i: nat)
    requires |labels| == |ms| && i < |labels|
    ensures TableUpTo(labels, ms, i + 1) == Put(TableUpTo(labels, ms, i), labels[i], Cells(ms[IndexOf(labels, labels[i])]))
  {
    RowEntriesStep(labels, RowsOf(ms), i + 1);
  }

  /** The loops over the labels and the column series that build the
      result dictionary. */
  method BuildTable(labels: seq<string>, ms: seq<Metrics>) returns (result: SummaryDict)
    requires |labels| == |ms|
    ensures result == Table(labels, ms)
  {
    var d := ColumnSeries(ms);
    result := [];
    var i := 0;
    while i < |labels|
      invariant 0 <= i <= |labels|
      invariant result == TableUpTo(labels, ms, i)
    {
      var idx := labels[i];
      var row := BuildRow(d, ms, IndexOf(labels, idx));
      TableAddRow(labels, ms, i);
      result := Put(result, idx, row);
      i := i + 1;
    }
  }

  /** run_summary: the rows of the reads and the two totals, tabulated. */
  method RunSummary(summaries: seq<ReadSummary>, nonIndex: Metrics, total: Metrics)
    returns (result: SummaryDict)
    ensures result == Table(RowLabels(summaries), RowMetrics(summaries, nonIndex, total))
  {
    result := BuildTable(RowLabels(summaries), RowMetrics(summaries, nonIndex, total));
  }

  /** No read label is a total label. */
  lemma TotalsNotRead(summaries: seq<ReadSummary>)
    ensures NonIndexedTotal !in ReadLabels(summaries) && Total !in ReadLabels(summaries)
  {
    forall i | 0 <= i < |summaries| ensures ReadLabels(summaries)[i] != NonIndexedTotal && ReadLabels(summaries)[i] != Total {
      RowLabelInjective(summaries[i], summaries[i]);
    }
  }

  /** The rows come in the order a dict receives them: the distinct read
      labels by first occurrence, then the non-indexed total, then the total;
      every row holds the six columns in the order of `columns`. */
  lemma TableKeys(summaries: seq<ReadSummary>, nonIndex: Metrics, total: Metrics)
    ensures var t := Table(RowLabels(summaries), RowMetrics(summaries, nonIndex, total));
      && Keys(t) == FirstOccurrences(ReadLabels(summaries)) + [NonIndexedTotal, Total]
      && forall p :: 0 <= p < |t| ==> Keys(t[p].value) == Columns
  {
    var readLabels := ReadLabels(summaries);
    var labels := RowLabels(summaries);
    var ms := RowMetrics(summaries, nonIndex, total);
    TableSpec(labels, ms);
    TotalsNotRead(summaries);
    FirstOccurrencesAppend(readLabels, NonIndexedTotal);
    assert Total !in readLabels + [NonIndexedTotal];
    FirstOccurrencesAppend(readLabels + [NonIndexedTotal], Total);
    assert labels == readLabels + [NonIndexedTotal] + [Total];
    var t := Table(labels, ms);
    forall p | 0 <= p < |t| ensures Keys(t[p].value) == Columns {
      FirstOccurrencesSpec(labels);
      assert Keys(t)[p] in FirstOccurrences(labels);
      CellsSpec(ms[IndexOf(labels, t[p].key)]);
    }
  }

  /** The last two rows are the totals and hold the total summaries. */
  lemma TableTotals(summaries: seq<ReadSummary>, nonIndex: Metrics, total: Metrics)
    ensures var t := Table(RowLabels(summaries), RowMetrics(summaries, nonIndex, total));
      && |t| >= 2
      && t[|t| - 2] == Entry(NonIndexedTotal, Cells(nonIndex))
      && t[|t| - 1] == Entry(Total, Cells(total))
  {
    var labels := RowLabels(summaries);
    var t := Table(labels, RowMetrics(summaries, nonIndex, total));
    TableSpec(labels, RowMetrics(summaries, nonIndex, total));
    TableKeys(summaries, nonIndex, total);
    TotalsIndex(summaries);
    assert Keys(t)[|t| - 2] == NonIndexedTotal && Keys(t)[|t| - 1] == Total;
  }

  /** The totals are the last two labels and occur nowhere else. */
  lemma TotalsIndex(summaries: seq<ReadSummary>)
    ensures IndexOf(RowLabels(summaries), NonIndexedTotal) == |summaries|
    ensures IndexOf(RowLabels(summaries), Total) == |summaries| + 1
  {
    var labels := RowLabels(summaries);
    TotalsNotRead(summaries);
    assert forall i :: 0 <= i < |summaries| ==> labels[i] == ReadLabels(summaries)[i];
  }

  /** A read's row is in the table and holds the summary of the first read
      with the same number and index flag. */
  lemma TableReadRow(summaries: seq<ReadSummary>, nonIndex: Metrics, total: Metrics, j: nat)
    requires j < |summaries|
    ensures var t := Table(RowLabels(summaries), RowMetrics(summaries, nonIndex, total));
      exists p, i :: 0 <= p < |t| && 0 <= i <= j && t[p].key == RowLabel(summaries[j])
        && summaries[i].number == summaries[j].number && summaries[i].isIndex == summaries[j].isIndex
        && t[p].value == Cells(summaries[i].summary)
        && forall k :: 0 <= k < i ==> !(summaries[k].number == summaries[j].number && summaries[k].isIndex == summaries[j].isIndex)
  {
    var labels := RowLabels(summaries);
    var t := Table(labels, RowMetrics(summaries, nonIndex, total));
    TableSpec(labels, RowMetrics(summaries, nonIndex, total));
    FirstOccurrencesSpec(labels);
    var l := RowLabel(summaries[j]);
    assert labels[j] == l && l in labels;
    assert l in Keys(t);
    var p :| 0 <= p < |t| && Keys(t)[p] == l;
    var i := IndexOf(labels, l);
    RowLabelInjective(summaries[j], summaries[j]);
    assert i < |summaries|;
    RowLabelInjective(summaries[i], summaries[j]);
    forall k | 0 <= k < i ensures !(summaries[k].number == summaries[j].number && summaries[k].isIndex == summaries[j].isIndex) {
      RowLabelInjective(summaries[k], summaries[j]);
    }
    assert t[p].key == l && t[p].value == Cells(summaries[i].summary);
  }

  /** Reads that differ in number or index flag give rows with distinct
      labels. */
  lemma RowLabelsDistinct(summaries: seq<ReadSummary>)
    requires forall i, j :: 0 <= i < j < |summaries| ==>
      !(summaries[i].number == summaries[j].number && summaries[i].isIndex == summaries[j].isIndex)
    ensures var labels := RowLabels(summaries);
      forall i, j :: 0 <= i < j < |labels| ==> labels[i] != labels[j]
  {
    var labels := RowLabels(summaries);
    forall i, j | 0 <= i < j < |labels| ensures labels[i] != labels[j] {
      if j < |summaries| {
        RowLabelInjective(summaries[i], summaries[j]);
      } else if i < |summaries| {
        RowLabelInjective(summaries[i], summaries[i]);
      }
    }
  }

  /** When no two reads share a number and an index flag, the table lists
      the reads in read order, each with its own summary, then the totals. */
  lemma TableInReadOrder(summaries: seq<ReadSummary>, nonIndex: Metrics, total: Metrics)
    requires forall i, j :: 0 <= i < j < |summaries| ==>
      !(summaries[i].number == summaries[j].number && summaries[i].isIndex == summaries[j].isIndex)
    ensures var t := Table(RowLabels(summaries), RowMetrics(summaries, nonIndex, total));
      && Keys(t) == RowLabels(summaries)
      && forall i :: 0 <= i < |summaries| ==> t[i] == Entry(RowLabel(summaries[i]), Cells(summaries[i].summary))
  {
    var labels := RowLabels(summaries);
    var ms := RowMetrics(summaries, nonIndex, total);
    var t := Table(labels, ms);
    RowLabelsDistinct(summaries);
    FirstOccurrencesOfDistinct(labels);
    TableSpec(labels, ms);
    forall i | 0 <= i < |summaries| ensures t[i] == Entry(RowLabel(summaries[i]), Cells(summaries[i].summary)) {
      assert Keys(t)[i] == labels[i] == t[i].key;
      IndexOfDistinct(labels, i);
    }
  }
}
