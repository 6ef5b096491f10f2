/** The post-processing every get_qscore_data revision applies to the
    InterOp Q-score histogram: collect the bars into two dictionaries keyed
    by int(x), optionally fill the missing labels 1..int(xmax) with 0, and
    list the dictionaries sorted by key. */
module Qscore {
  import opened Text

  /** One bar of the histogram: x already cut to int (the dictionaries are
      keyed by int(x)), its height y and its width. */
  datatype Bar = Bar(x: int, y: int, width: int)

  /** The three lists get_qscore_data returns: the sorted keys of the value
      dictionary, its values in that order, and the width dictionary's values
      in the order of its own sorted keys. */
  datatype Histogram = Histogram(xLabels: seq<int>, data: seq<int>, widths: seq<int>)

  /** Which dictionaries the revision zero-fills over 1..int(xmax). */
  datatype FillPolicy = NoFill | FillValues | FillValuesAndWidths

  /** The bars of every series, in the order the nested loops visit them. */
  function Flatten(series: seq<seq<Bar>>): seq<Bar>
  {
    if |series| == 0 then [] else Flatten(series[..|series| - 1]) + series[|series| - 1]
  }

  lemma FlattenSnoc(series: seq<seq<Bar>>, i: nat)
    requires i < |series|
    ensures Flatten(series[..i + 1]) == Flatten(series[..i]) + series[i]
  {
    assert series[..i + 1][..i] == series[..i];
  }

  function Xs(bars: seq<Bar>): (r: seq<int>)
    ensures |r| == |bars| && forall i :: 0 <= i < |bars| ==> r[i] == bars[i].x
  {
    seq(|bars|, i requires 0 <= i < |bars| => bars[i].x)
  }

  /** values[int(x)] = y over the bars in order. */
  function Heights(bars: seq<Bar>): (m: map<int, int>)
    ensures forall k :: k in m <==> k in Xs(bars)
  {
    if |bars| == 0 then map[]
    else
      var b := bars[|bars| - 1];
      assert Xs(bars) == Xs(bars[..|bars| - 1]) + [b.x];
      Heights(bars[..|bars| - 1])[b.x := b.y]
  }

  /** widths[int(x)] = width over the bars in order. */
  function BarWidths(bars: seq<Bar>): (m: map<int, int>)
    ensures forall k :: k in m <==> k in Xs(bars)
  {
    if |bars| == 0 then map[]
    else
      var b := bars[|bars| - 1];
      assert Xs(bars) == Xs(bars[..|bars| - 1]) + [b.x];
      BarWidths(bars[..|bars| - 1])[b.x := b.width]
  }

  /** A key keeps the height and width of the last bar that has it. */
  lemma {:induction false} LastBarWins(bars: seq<Bar>, j: nat)
    requires j < |bars|
    requires forall i :: j < i < |bars| ==> bars[i].x != bars[j].x
    ensures Heights(bars)[bars[j].x] == bars[j].y
    ensures BarWidths(bars)[bars[j].x] == bars[j].width
    decreases |bars|
  {
    if j < |bars| - 1 {
      var front := bars[..|bars| - 1];
      assert front[j] == bars[j];
      LastBarWins(front, j);
    }
  }

  /** The dictionary after `if k not in m: m[k] = 0` for k = 1..xmax. */
  function FillZeros(m: map<int, int>, xmax: int): (r: map<int, int>)
    ensures forall k :: k in r <==> k in m || 1 <= k <= xmax
    decreases xmax
  {
    if xmax <= 0 then m
    else
      var r := FillZeros(m, xmax - 1);
      if xmax in r then r else r[xmax := 0]
  }

  /** The fill never overwrites an observed bar, and every label it adds
      holds 0. */
  lemma {:induction false} FillZerosValues(m: map<int, int>, xmax: int)
    ensures forall k :: k in m ==> FillZeros(m, xmax)[k] == m[k]
    ensures forall k :: k in FillZeros(m, xmax) && k !in m ==> FillZeros(m, xmax)[k] == 0
    decreases xmax
  {
    if xmax > 0 {
      FillZerosValues(m, xmax - 1);
    }
  }

  /** Inserts k into a strictly ascending list unless it is already there. */
  function Insert(r: seq<int>, k: int): (r': seq<int>)
    requires StrictlyIncreasing(r)
    ensures StrictlyIncreasing(r')
    ensures forall x :: x in r' <==> x in r || x == k
  {
    if |r| == 0 then [k]
    else if k < r[0] then [k] + r
    else if k == r[0] then r
    else
      var tail := Insert(r[1..], k);
      assert forall x :: x in r[1..] ==> r[0] < x;
      assert forall j :: 0 <= j < |tail| ==> r[0] < tail[j] by {
        forall j | 0 <= j < |tail| ensures r[0] < tail[j] {
          assert tail[j] in tail;
        }
      }
      [r[0]] + tail
  }

  /** sorted() of the distinct elements of ks. */
  function SortedDistinct(ks: seq<int>): (r: seq<int>)
    ensures StrictlyIncreasing(r)
    ensures forall x :: x in r <==> x in ks
  {
    if |ks| == 0 then []
    else
      var r := Insert(SortedDistinct(ks[..|ks| - 1]), ks[|ks| - 1]);
      assert forall x :: x in ks <==> x in ks[..|ks| - 1] || x == ks[|ks| - 1] by {
        assert ks == ks[..|ks| - 1] + [ks[|ks| - 1]];
      }
      r
  }

  lemma HeadIsLeast(s: seq<int>, x: int)
    requires StrictlyIncreasing(s) && x in s
    ensures s[0] <= x
  {
    var i :| 0 <= i < |s| && s[i] == x;
    if i > 0 { assert s[0] < s[i]; }
  }

  /** There is only one ascending listing of a set of keys, so sorting does
      not depend on the order the dictionary was filled in. */
  lemma {:induction false} SortedUnique(a: seq<int>, b: seq<int>)
    requires StrictlyIncreasing(a) && StrictlyIncreasing(b)
    requires forall x :: x in a <==> x in b
    ensures a == b
    decreases |a|
  {
    if |a| > 0 { assert a[0] in a; assert |b| > 0; }
    if |b| > 0 { assert b[0] in b; assert |a| > 0; }
    if |a| > 0 {
      assert a[0] in b && b[0] in a;
      HeadIsLeast(b, a[0]);
      HeadIsLeast(a, b[0]);
      forall x ensures x in a[1..] <==> x in b[1..] {
        if x in a[1..] { assert a[0] < x; assert x in b; assert x != b[0]; }
        if x in b[1..] { assert b[0] < x; assert x in a; assert x != a[0]; }
      }
      SortedUnique(a[1..], b[1..]);
      assert a == [a[0]] + a[1..] && b == [b[0]] + b[1..];
    }
  }

  /** The values of m listed in the order of ks. */
  function Lookup(m: map<int, int>, ks: seq<int>): (r: seq<int>)
    requires forall i :: 0 <= i < |ks| ==> ks[i] in m
    ensures |r| == |ks| && forall i :: 0 <= i < |ks| ==> r[i] == m[ks[i]]
  {
    seq(|ks|, i requires 0 <= i < |ks| => m[ks[i]])
  }

  /** The ascending keys of a dictionary filled from `bars` and, when
      `fill` holds, zero-filled over 1..xmax. */
  function Labels(bars: seq<Bar>, xmax: int, fill: bool): (r: seq<int>)
    ensures StrictlyIncreasing(r)
    ensures forall k :: k in r <==> k in Xs(bars) || (fill && 1 <= k <= xmax)
  {
    SortedDistinct(Xs(bars) + if fill then Range(1, xmax) else [])
  }

  /** The value dictionary after the fill step. */
  function FilledHeights(bars: seq<Bar>, xmax: int, policy: FillPolicy): map<int, int>
  {
    if policy == NoFill then Heights(bars) else FillZeros(Heights(bars), xmax)
  }

  /** The width dictionary after the fill step. */
  function FilledWidths(bars: seq<Bar>, xmax: int, policy: FillPolicy): map<int, int>
  {
    if policy == FillValuesAndWidths then FillZeros(BarWidths(bars), xmax) else BarWidths(bars)
  }

  /** The specification of the collection: what get_qscore_data returns. */
  function Collected(bars: seq<Bar>, xmax: int, policy: FillPolicy): (h: Histogram)
  {
    var vs := FilledHeights(bars, xmax, policy);
    var ws := FilledWidths(bars, xmax, policy);
    var ks := Labels(bars, xmax, policy != NoFill);
    var wks := Labels(bars, xmax, policy == FillValuesAndWidths);
    assert forall i :: 0 <= i < |ks| ==> ks[i] in ks;
    assert forall i :: 0 <= i < |wks| ==> wks[i] in wks;
    Histogram(ks, Lookup(vs, ks), Lookup(ws, wks))
  }

  /** The two dictionaries and the list of their keys (in insertion order)
      after the loops have visited `bars`. */
  ghost predicate Tracks(values: map<int, int>, widths: map<int, int>, order: seq<int>, bars: seq<Bar>)
  {
    values == Heights(bars) && widths == BarWidths(bars) &&
    forall k :: k in order <==> k in Xs(bars)
  }

  /** The inner loop: one series' bars written into both dictionaries. */
  method AddBars(values: map<int, int>, widths: map<int, int>, order: seq<int>, ghost done: seq<Bar>, bars: seq<Bar>)
    returns (values': map<int, int>, widths': map<int, int>, order': seq<int>)
    requires Tracks(values, widths, order, done)
    ensures Tracks(values', widths', order', done + bars)
  {
    values', widths', order' := values, widths, order;
    var j := 0;
    assert done + bars[..0] == done;
    while j < |bars|
      invariant 0 <= j <= |bars|
      invariant Tracks(values', widths', order', done + bars[..j])
    {
      var b := bars[j];
      assert done + bars[..j + 1] == (done + bars[..j]) + [b];
      assert Xs((done + bars[..j]) + [b]) == Xs(done + bars[..j]) + [b.x];
      if b.x !in values' {
        order' := order' + [b.x];
      }
      values' := values'[b.x := b.y];
      widths' := widths'[b.x := b.width];
      j := j + 1;
    }
    assert bars[..j] == bars;
  }

  /** The outer loop over the series of the histogram. */
  method CollectBars(series: seq<seq<Bar>>) returns (values: map<int, int>, widths: map<int, int>, order: seq<int>)
    ensures Tracks(values, widths, order, Flatten(series))
  {
    values, widths, order := map[], map[], [];
    var i := 0;
    while i < |series|
      invariant 0 <= i <= |series|
      invariant Tracks(values, widths, order, Flatten(series[..i]))
    {
      FlattenSnoc(series, i);
      values, widths, order := AddBars(values, widths, order, Flatten(series[..i]), series[i]);
      i := i + 1;
    }
    assert series[..i] == series;
  }

  /** The fill loop: every missing label 1..xmax gets a zero value (and a
      zero width when the widths are filled too); `order` and `worder` list
      the keys of the value dictionary (the width dictionary has the same
      keys when it is filled, the observed ones otherwise). */
  method FillMissing(values: map<int, int>, widths: map<int, int>, order: seq<int>, xmax: int, fillWidths: bool)
    returns (values': map<int, int>, widths': map<int, int>, order': seq<int>)
    requires forall k :: k in values <==> k in widths
    requires forall k :: k in order <==> k in values
    ensures values' == FillZeros(values, xmax)
    ensures widths' == if fillWidths then FillZeros(widths, xmax) else widths
    ensures forall k :: k in order' <==> k in values'
  {
    values', widths', order' := values, widths, order;
    var x := 0;
    while x < xmax
      invariant 0 <= x <= if xmax < 0 then 0 else xmax
      invariant values' == FillZeros(values, x)
      invariant widths' == if fillWidths then FillZeros(widths, x) else widths
      invariant forall k :: k in order' <==> k in values'
    {
      if x + 1 !in values' {
        values' := values'[x + 1 := 0];
        order' := order' + [x + 1];
        if fillWidths {
          widths' := widths'[x + 1 := 0];
        }
      }
      x := x + 1;
    }
  }

  /** get_qscore_data's collection: two dictionaries filled bar by bar, the
      optional zero fill, then the lists sorted by key. */
  method Collect(series: seq<seq<Bar>>, xmax: int, policy: FillPolicy) returns (h: Histogram)
    ensures h == Collected(Flatten(series), xmax, policy)
  {
    var values, widths, order := CollectBars(series);
    ghost var bars := Flatten(series);
    var observed := order;
    if policy != NoFill {
      values, widths, order := FillMissing(values, widths, order, xmax, policy == FillValuesAndWidths);
    }
    var worder := if policy == FillValuesAndWidths then order else observed;
    var ks := SortedDistinct(order);
    var wks := SortedDistinct(worder);
    ghost var spec := Collected(bars, xmax, policy);
    SortedUnique(ks, spec.xLabels);
    SortedUnique(wks, Labels(bars, xmax, policy == FillValuesAndWidths));
    assert forall i :: 0 <= i < |ks| ==> ks[i] in ks;
    assert forall i :: 0 <= i < |wks| ==> wks[i] in wks;
    h := Histogram(ks, Lookup(values, ks), Lookup(widths, wks));
  }

  /** Reference reading of the histogram: the height of the last bar at
      label k, 0 when no bar has that label. */
  function LastHeight(bars: seq<Bar>, k: int): int
  {
    if |bars| == 0 then 0
    else if bars[|bars| - 1].x == k then bars[|bars| - 1].y
    else LastHeight(bars[..|bars| - 1], k)
  }

  /** The width of the last bar at label k, 0 when no bar has that label. */
  function LastWidth(bars: seq<Bar>, k: int): int
  {
    if |bars| == 0 then 0
    else if bars[|bars| - 1].x == k then bars[|bars| - 1].width
    else LastWidth(bars[..|bars| - 1], k)
  }

  /** The labels some bar has, ascending. */
  function Observed(bars: seq<Bar>): (r: seq<int>)
    ensures StrictlyIncreasing(r)
    ensures forall k :: k in r <==> k in Xs(bars)
  {
    SortedDistinct(Xs(bars))
  }

  /** The dictionaries agree with the reference reading. */
  lemma {:induction false} DictionariesAreLastBar(bars: seq<Bar>, k: int)
    ensures k in Heights(bars) ==> Heights(bars)[k] == LastHeight(bars, k)
    ensures k in BarWidths(bars) ==> BarWidths(bars)[k] == LastWidth(bars, k)
    ensures k !in Xs(bars) ==> LastHeight(bars, k) == 0 && LastWidth(bars, k) == 0
  {
    if |bars| > 0 {
      var front := bars[..|bars| - 1];
      assert Xs(bars) == Xs(front) + [bars[|bars| - 1].x];
      DictionariesAreLastBar(front, k);
    }
  }

  lemma {:induction false} DistinctLength(a: seq<int>)
    requires StrictlyIncreasing(a)
    ensures |set x | x in a| == |a|
  {
    if |a| > 0 {
      var front := a[..|a| - 1];
      DistinctLength(front);
      assert (set x | x in a) == (set x | x in front) + {a[|a| - 1]};
      assert a[|a| - 1] !in front;
    }
  }

  lemma ShorterListing(a: seq<int>, b: seq<int>)
    requires StrictlyIncreasing(a) && StrictlyIncreasing(b)
    requires forall x :: x in a ==> x in b
    ensures |a| <= |b|
  {
    DistinctLength(a);
    DistinctLength(b);
    var sa, sb := set x | x in a, set x | x in b;
    assert sb == sa + (sb - sa);
    assert sa * (sb - sa) == {};
  }

  /** A filled dictionary entry is the reference reading of its label. */
  lemma FilledIsLastBar(bars: seq<Bar>, xmax: int, policy: FillPolicy, k: int)
    ensures k in FilledHeights(bars, xmax, policy) ==> FilledHeights(bars, xmax, policy)[k] == LastHeight(bars, k)
    ensures k in FilledWidths(bars, xmax, policy) ==> FilledWidths(bars, xmax, policy)[k] == LastWidth(bars, k)
  {
    FillZerosValues(Heights(bars), xmax);
    FillZerosValues(BarWidths(bars), xmax);
    DictionariesAreLastBar(bars, k);
  }

  /** The labels get_qscore_data returns are ascending and distinct, they
      are the observed labels plus, when the revision fills, every label
      1..int(xmax); each data entry is the height of the last bar at its
      label, 0 for a filled label. */
  lemma CollectedData(bars: seq<Bar>, xmax: int, policy: FillPolicy)
    ensures var h := Collected(bars, xmax, policy);
      && StrictlyIncreasing(h.xLabels)
      && |h.data| == |h.xLabels|
      && (forall k :: k in h.xLabels <==> k in Xs(bars) || (policy != NoFill && 1 <= k <= xmax))
      && (forall i :: 0 <= i < |h.data| ==> h.data[i] == LastHeight(bars, h.xLabels[i]))
  {
    var h := Collected(bars, xmax, policy);
    var vs := FilledHeights(bars, xmax, policy);
    var ks := Labels(bars, xmax, policy != NoFill);
    assert h.xLabels == ks && h.data == Lookup(vs, ks);
    forall i | 0 <= i < |h.data| ensures h.data[i] == LastHeight(bars, h.xLabels[i]) {
      FilledIsLastBar(bars, xmax, policy, ks[i]);
    }
  }

  /** When the widths are filled along with the values (or neither is),
      the widths line up with the labels; when only the values are filled
      the widths stay those of the observed labels, so the list can be
      shorter than the labels. */
  lemma CollectedWidths(bars: seq<Bar>, xmax: int, policy: FillPolicy)
    ensures var h := Collected(bars, xmax, policy);
      && (policy != FillValues ==>
            |h.widths| == |h.xLabels| &&
            forall i :: 0 <= i < |h.widths| ==> h.widths[i] == LastWidth(bars, h.xLabels[i]))
      && (policy == FillValues ==>
            |h.widths| <= |h.xLabels| && |h.widths| == |Observed(bars)| &&
            forall i :: 0 <= i < |h.widths| ==> h.widths[i] == LastWidth(bars, Observed(bars)[i]))
  {
    var h := Collected(bars, xmax, policy);
    var ws := FilledWidths(bars, xmax, policy);
    var ks := Labels(bars, xmax, policy != NoFill);
    var wks := Labels(bars, xmax, policy == FillValuesAndWidths);
    assert h.xLabels == ks && h.widths == Lookup(ws, wks);
    if policy != FillValues {
      SortedUnique(ks, wks);
    } else {
      SortedUnique(wks, Observed(bars));
      ShorterListing(wks, ks);
    }
    forall i | 0 <= i < |h.widths| ensures h.widths[i] == LastWidth(bars, wks[i]) {
      FilledIsLastBar(bars, xmax, policy, wks[i]);
    }
  }
}
