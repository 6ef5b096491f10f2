/** The status engine of API/api/functions/real_time_status.py: the inline
    completion-marker scan of get_latest_run_status, the result dictionary
    that run_info, metrics, summary and run_parameters fill in place, and
    the final status. The InterOp reads, XML parses and file stamps come in
    as the fields of RunData. */
module RealTimeStatus {
  import opened Wrappers
  import opened Text
  import opened Files
  import opened Dicts
  import opened Chart
  import opened Records
  import opened Qscore
  import CompletionTime
  import SavData
  import RealTimeFormat
  import LatestRuns
  import RtStatus
  import RunStatus
  import RunFolders

  /** What ET.parse raises on a completion file it cannot read. */
  const ParseError := "ParseError: completion file cannot be parsed"

  /** The three variables the marker scan reassigns; the error is the
      ErrorDescription text, None when that element has no text. */
  datatype Scan = Scan(status: string, completionDt: string, error: Option<string>)

  /** What the latest run folder holds as far as this revision reads it:
      its os.scandir entries, the parsed completion files (None when
      ET.parse raises), whether RunInfo.xml exists and what the InterOp
      collectors and run_parameters read. */
  datatype RunData = RunData(
    entries: seq<DirEntry>,
    nsDoc: Option<NsDoc>,
    msTime: Option<string>,
    hasRunInfo: bool,
    info: RunInfo,
    lastCycle: int,
    readList: seq<ReadEntry>,
    series: seq<seq<Bar>>,
    xmax: int,
    xTitle: string,
    yTitle: string,
    totals: Totals,
    params: RunParameters)

  // ---- The completion-marker scan ----

  /** The NextSeq branch: the status only ever becomes 'Completed on', but
      the date and the error are taken from the file whatever it says; a
      CompletionStatus without text makes .lower() raise. */
  function NsStep(s: Scan, path: string, nsFile: string, nsDoc: Option<NsDoc>): Result<Scan>
  {
    if !Has(path, nsFile) then Success(s)
    else if nsDoc.None? then Failure(ParseError)
    else if nsDoc.value.completionStatus.None? then Failure(NoneLower)
    else
      var doc := nsDoc.value;
      var status := if Has(Lower(doc.completionStatus.value), "completedasplanned") then "Completed on" else s.status;
      Success(Scan(status, doc.stamp, doc.errorDescription))
  }

  /** The MiSeq branch: 'Completed on' with the trimmed CompletionTime, or
      the IndexError of a text without 'T'. */
  function MsStep(s: Scan, path: string, msFile: string, msTime: Option<string>): Result<Scan>
  {
    if !Has(path, msFile) then Success(s)
    else if msTime.None? then Failure(ParseError)
    else
      var dt := CompletionTime.TrimCompletionTime(msTime.value);
      if dt.Failure? then Failure(dt.error) else Success(Scan("Completed on", dt.value, s.error))
  }

  /** One entry of os.scandir(last_run_dir): both tests run, NextSeq first. */
  function ScanEntry(s: Scan, path: string, nsFile: string, msFile: string, d: RunData): Result<Scan>
  {
    var a := NsStep(s, path, nsFile, d.nsDoc);
    if a.Failure? then a else MsStep(a.value, path, msFile, d.msTime)
  }

  /** The scan after the first n entries, from ('Idle', '', ''). */
  function ScanUpTo(nsFile: string, msFile: string, d: RunData, n: nat): Result<Scan>
    requires n <= |d.entries|
  {
    if n == 0 then Success(Scan("Idle", "", Some("")))
    else
      var prev := ScanUpTo(nsFile, msFile, d, n - 1);
      if prev.Failure? then prev else ScanEntry(prev.value, d.entries[n - 1].path, nsFile, msFile, d)
  }

  /** The scan over every entry. */
  function Scanned(nsFile: string, msFile: string, d: RunData): Result<Scan>
  {
    ScanUpTo(nsFile, msFile, d, |d.entries|)
  }

  /** The loop over os.scandir(last_run_dir). */
  method ScanMarkers(nsFile: string, msFile: string, d: RunData) returns (scan: Result<Scan>)
    ensures scan == Scanned(nsFile, msFile, d)
  {
    scan := Success(Scan("Idle", "", Some("")));
    var n := 0;
    while n < |d.entries| && scan.Success?
      invariant 0 <= n <= |d.entries|
      invariant scan == ScanUpTo(nsFile, msFile, d, n)
      invariant scan.Failure? ==> scan == ScanUpTo(nsFile, msFile, d, |d.entries|)
    {
      scan := VisitEntry(scan.value, d.entries[n].path, nsFile, msFile, d);
      if scan.Failure? {
        ScanFailureSticks(nsFile, msFile, d, n + 1, |d.entries|);
      }
      n := n + 1;
    }
  }

  /** The body of the scan loop for one entry. */
  method VisitEntry(s: Scan, path: string, nsFile: string, msFile: string, d: RunData) returns (r: Result<Scan>)
    ensures r == ScanEntry(s, path, nsFile, msFile, d)
  {
    var status, completionDt, error := s.status, s.completionDt, s.error;
    if Has(path, nsFile) {
      if d.nsDoc.None? {
        return Failure(ParseError);
      }
      var doc := d.nsDoc.value;
      if doc.completionStatus.None? {
        return Failure(NoneLower);
      }
      if Has(Lower(doc.completionStatus.value), "completedasplanned") {
        status := "Completed on";
      }
      completionDt := doc.stamp;
      error := doc.errorDescription;
    }
    if Has(path, msFile) {
      if d.msTime.None? {
        return Failure(ParseError);
      }
      var dt := CompletionTime.TrimCompletionTime(d.msTime.value);
      if dt.Failure? {
        return Failure(dt.error);
      }
      status := "Completed on";
      completionDt := dt.value;
    }
    r := Success(Scan(status, completionDt, error));
  }

  /** Once an entry has raised, later entries change nothing. */
  lemma {:induction false} ScanFailureSticks(nsFile: string, msFile: string, d: RunData, n: nat, m: nat)
    requires n <= m <= |d.entries| && ScanUpTo(nsFile, msFile, d, n).Failure?
    ensures ScanUpTo(nsFile, msFile, d, m) == ScanUpTo(nsFile, msFile, d, n)
    decreases m
  {
    if m > n {
      ScanFailureSticks(nsFile, msFile, d, n, m - 1);
    }
  }

  /** An entry whose path names a completion file. */
  predicate Marks(path: string, nsFile: string, msFile: string)
  {
    Contains(path, nsFile) || Contains(path, msFile)
  }

  /** An entry that makes the scan raise: a completion file that does not
      parse, a NextSeq CompletionStatus without text, or a MiSeq
      CompletionTime without 'T'. */
  predicate EntryRaises(path: string, nsFile: string, msFile: string, d: RunData)
  {
    (Contains(path, nsFile) && (d.nsDoc.None? || d.nsDoc.value.completionStatus.None?))
    || (Contains(path, msFile) && (d.msTime.None? || !Contains(d.msTime.value, "T")))
  }

  /** One entry raises exactly on EntryRaises, whatever the state before it. */
  lemma EntryFails(s: Scan, path: string, nsFile: string, msFile: string, d: RunData)
    ensures ScanEntry(s, path, nsFile, msFile, d).Failure? <==> EntryRaises(path, nsFile, msFile, d)
  {
    HasMeans(path, nsFile);
    HasMeans(path, msFile);
  }

  /** The scan raises exactly when one of its entries does. */
  lemma {:induction false} ScanFails(nsFile: string, msFile: string, d: RunData, n: nat)
    requires n <= |d.entries|
    ensures ScanUpTo(nsFile, msFile, d, n).Failure? <==>
      exists i :: 0 <= i < n && EntryRaises(d.entries[i].path, nsFile, msFile, d)
  {
    if n > 0 {
      ScanFails(nsFile, msFile, d, n - 1);
      var prev := ScanUpTo(nsFile, msFile, d, n - 1);
      if prev.Failure? {
        var i :| 0 <= i < n - 1 && EntryRaises(d.entries[i].path, nsFile, msFile, d);
        assert 0 <= i < n && EntryRaises(d.entries[i].path, nsFile, msFile, d);
      } else {
        EntryFails(prev.value, d.entries[n - 1].path, nsFile, msFile, d);
        if EntryRaises(d.entries[n - 1].path, nsFile, msFile, d) {
          assert 0 <= n - 1 < n && EntryRaises(d.entries[n - 1].path, nsFile, msFile, d);
        } else {
          forall i | 0 <= i < n ensures !EntryRaises(d.entries[i].path, nsFile, msFile, d) {
            if i < n - 1 {
              assert !(0 <= i < n - 1 && EntryRaises(d.entries[i].path, nsFile, msFile, d));
            }
          }
        }
      }
    }
  }

  /** A NextSeq completion file alone: the status becomes 'Completed on'
      exactly when the lower-cased CompletionStatus contains
      'completedasplanned' (otherwise it stays), while the date and the error
      are the file's in every case, an ErrorDescription without text
      included. */
  lemma NsMarker(s: Scan, path: string, nsFile: string, msFile: string, d: RunData)
    requires Contains(path, nsFile) && !Contains(path, msFile)
    requires d.nsDoc.Some? && d.nsDoc.value.completionStatus.Some?
    ensures var r := ScanEntry(s, path, nsFile, msFile, d);
      && r.Success?
      && (r.value.status == "Completed on" <==>
            Contains(Lower(d.nsDoc.value.completionStatus.value), "completedasplanned") || s.status == "Completed on")
      && (r.value.status != "Completed on" ==> r.value.status == s.status)
      && r.value.completionDt == d.nsDoc.value.stamp
      && r.value.error == d.nsDoc.value.errorDescription
  {
    HasMeans(path, nsFile);
    HasMeans(path, msFile);
    HasMeans(Lower(d.nsDoc.value.completionStatus.value), "completedasplanned");
  }

  /** A MiSeq completion file whose CompletionTime is D 'T' HH:MM:SS.f
      makes the run 'Completed on' D, three spaces, HH:MM, and keeps the
      error. */
  lemma MsMarker(s: Scan, path: string, nsFile: string, msFile: string, d: RunData,
                 date: string, hh: string, mm: string, ss: string, f: string)
    requires Contains(path, msFile) && !Contains(path, nsFile)
    requires 'T' !in date && 'T' !in hh && 'T' !in mm && 'T' !in ss && 'T' !in f
    requires ':' !in hh && ':' !in mm && ':' !in ss
    requires '.' !in hh && '.' !in mm && '.' !in ss
    requires d.msTime == Some(date + "T" + hh + ":" + mm + ":" + ss + "." + f)
    ensures ScanEntry(s, path, nsFile, msFile, d) == Success(Scan("Completed on", date + "   " + hh + ":" + mm, s.error))
  {
    HasMeans(path, nsFile);
    HasMeans(path, msFile);
    CompletionTime.TrimIsoTime(date, hh, mm, ss, f);
  }

  /** After a successful scan the status is 'Idle' or 'Completed on', a
      'Completed on' always has a date, and there is a date exactly when some
      entry named a completion file. */
  lemma {:induction false} ScanSpec(nsFile: string, msFile: string, d: RunData, n: nat)
    requires n <= |d.entries| && ScanUpTo(nsFile, msFile, d, n).Success?
    ensures var s := ScanUpTo(nsFile, msFile, d, n).value;
      && (s.status == "Idle" || s.status == "Completed on")
      && (s.status == "Completed on" ==> s.completionDt != "")
      && (s.completionDt != "" <==> exists i :: 0 <= i < n && Marks(d.entries[i].path, nsFile, msFile))
  {
    if n > 0 {
      ScanSpec(nsFile, msFile, d, n - 1);
      var path := d.entries[n - 1].path;
      HasMeans(path, nsFile);
      HasMeans(path, msFile);
      if Marks(path, nsFile, msFile) {
        assert 0 <= n - 1 < n && Marks(d.entries[n - 1].path, nsFile, msFile);
      } else {
        forall i | 0 <= i < n && Marks(d.entries[i].path, nsFile, msFile) ensures 0 <= i < n - 1 {
        }
      }
    }
  }

  // ---- The result dictionary ----

  /** The keys summary writes. */
  const SummaryKeys: set<string> :=
    {"reads", "q30_plot", "p_gt_q30", "total_yield", "percent_aligned", "cluster_density", "cluster_pf_percent"}

  /** The histogram get_qscore_data builds, and both bounds the chart needs. */
  lemma ChartReady(bars: seq<Bar>, xmax: int, isNextseq: bool)
    ensures var h := Collected(bars, xmax, SavData.Policy(isNextseq));
      && (isNextseq ==> |h.data| <= |h.widths|)
      && (!isNextseq ==> |h.data| <= |h.xLabels|)
  {
    SavData.QscoreData(bars, xmax, isNextseq);
  }

  /** result['q30_plot']: the formatted chart of the run's Q-score
      histogram. */
  function Q30Chart(d: RunData, isNextseq: bool): Plot
  {
    var h := Collected(Flatten(d.series), d.xmax, SavData.Policy(isNextseq));
    ChartReady(Flatten(d.series), d.xmax, isNextseq);
    RealTimeFormat.Q30Plot(h.xLabels, h.data, h.widths, d.xTitle, d.yTitle, isNextseq)
  }

  /** The dictionary after summary(data_folder, result, is_nextseq): this
      revision writes the reads, the chart and the five metrics and never
      touches the status. */
  function Summarized(f: Fields, readList: seq<ReadEntry>, chart: Plot, t: Totals): (g: Fields)
    ensures forall k :: k in g <==> k in f || k in SummaryKeys
    ensures forall k :: k in f && k !in SummaryKeys ==> g[k] == f[k]
    ensures g["reads"] == Reads(readList) && g["q30_plot"] == PlotValue(chart)
    ensures g["p_gt_q30"] == Str(t.gt30 + "%") && g["total_yield"] == Str(t.totalYield + "Gb")
    ensures g["percent_aligned"] == Str(t.percentAligned + "%") && g["cluster_density"] == Str(t.clusterDensity + "/mmÂ²")
    ensures g["cluster_pf_percent"] == Str(t.clusterPfPercent + "%")
  {
    f["reads" := Reads(readList)]
     ["q30_plot" := PlotValue(chart)]
     ["p_gt_q30" := Str(t.gt30 + "%")]
     ["total_yield" := Str(t.totalYield + "Gb")]
     ["percent_aligned" := Str(t.percentAligned + "%")]
     ["cluster_density" := Str(t.clusterDensity + "/mmÂ²")]
     ["cluster_pf_percent" := Str(t.clusterPfPercent + "%")]
  }

  /** summary(data_folder, result, is_nextseq) on the dictionary `r`: the
      reads one by one, then the chart of the formatted histogram, then the
      metrics. */
  method Summary(r: Record, d: RunData, isNextseq: bool)
    modifies r
    ensures r.fields == Summarized(old(r.fields), d.readList, Q30Chart(d, isNextseq), d.totals)
  {
    r.Put("reads", Reads([]));
    var entries: seq<ReadEntry> := [];
    var i := 0;
    while i < |d.readList|
      invariant 0 <= i <= |d.readList| && entries == d.readList[..i]
      invariant r.fields == old(r.fields)["reads" := Reads(entries)]
    {
      entries := entries + [d.readList[i]];
      r.Put("reads", Reads(entries));
      i := i + 1;
    }
    assert entries == d.readList;
    var h := SavData.GetQscoreData(d.series, d.xmax, isNextseq);
    ChartReady(Flatten(d.series), d.xmax, isNextseq);
    var input := new PlotInput(h.xLabels, h.data, h.widths, d.xTitle, d.yTitle);
    var p := RealTimeFormat.FormatQ30PlotData(input, isNextseq);
    r.Put("q30_plot", PlotValue(p));
    var t := d.totals;
    r.Put("p_gt_q30", Str(t.gt30 + "%"));
    r.Put("total_yield", Str(t.totalYield + "Gb"));
    r.Put("percent_aligned", Str(t.percentAligned + "%"));
    r.Put("cluster_density", Str(t.clusterDensity + "/mmÂ²"));
    r.Put("cluster_pf_percent", Str(t.clusterPfPercent + "%"));
  }

  /** result[seq] once run_info, metrics, summary and run_parameters have
      written into {}. */
  function Gathered(seqName: string, d: RunData): Fields
  {
    var afterMetrics := (map[] + InfoWrites(d.info))["last_cycle" := Int(d.lastCycle)];
    Summarized(afterMetrics, d.readList, Q30Chart(d, seqName == "NextSeq"), d.totals) + ParamWrites(d.params)
  }

  /** result[seq] after one iteration, or the exception that escapes it: the
      marker scan runs before RunInfo.xml is looked at. */
  function RunResult(seqName: string, nsFile: string, msFile: string, d: RunData): Result<Fields>
  {
    var scan := Scanned(nsFile, msFile, d);
    if scan.Failure? then Failure(scan.error)
    else if !d.hasRunInfo then Success(RtStatus.Placeholder(map[]))
    else
      Success(Settle(Gathered(seqName, d), scan.value, d.lastCycle, d.info.totalCycles))
  }

  /** The three keys written after the collectors. */
  const SettleKeys: set<string> := {"status", "error", "completion_dt"}

  /** The last three writes of an iteration: the status after the cycle
      checks, the error and the completion date of the scan. */
  function Settle(g: Fields, s: Scan, lastCycle: int, totalCycles: int): Fields
  {
    g["status" := Str(RunStatus.FinalStatus(s.status, lastCycle, totalCycles))]
     ["error" := TextValue(s.error)]
     ["completion_dt" := Str(s.completionDt)]
  }

  /** Settle writes exactly its three keys: the status is the marker status
      after the cycle checks, and everything else is left as it was. */
  lemma SettleSpec(g: Fields, s: Scan, lastCycle: int, totalCycles: int)
    ensures var r := Settle(g, s, lastCycle, totalCycles);
      && r["status"] == Str(RunStatus.FinalStatus(s.status, lastCycle, totalCycles))
      && r["error"] == TextValue(s.error)
      && r["completion_dt"] == Str(s.completionDt)
      && (forall k :: k in r <==> k in g || k in SettleKeys)
      && (forall k :: k in g && k !in SettleKeys ==> r[k] == g[k])
  {
  }

  /** One iteration of the loop over latest_runs. */
  method ProcessRun(seqName: string, nsFile: string, msFile: string, d: RunData) returns (out: Result<Fields>)
    ensures out == RunResult(seqName, nsFile, msFile, d)
  {
    var scan := ScanMarkers(nsFile, msFile, d);
    if scan.Failure? {
      return Failure(scan.error);
    }
    var status, completionDt, error := scan.value.status, scan.value.completionDt, scan.value.error;
    var r := new Record(map[]);
    if !d.hasRunInfo {
      r := RtStatus.HandleInitializingRun(r);
      return Success(r.fields);
    }
    r.Merge(InfoWrites(d.info));
    r.Put("last_cycle", Int(d.lastCycle));
    Summary(r, d, seqName == "NextSeq");
    r.Merge(ParamWrites(d.params));
    if d.lastCycle != d.info.totalCycles && status == "Idle" {
      status := "Running";
    }
    if d.lastCycle == 0 {
      status := "Initializing";
    }
    r.Put("status", Str(status));
    r.Put("error", TextValue(error));
    r.Put("completion_dt", Str(completionDt));
    out := Success(r.fields);
  }

  /** An iteration raises exactly when an entry of the run folder does, even
      for a run without RunInfo.xml: the scan comes first. */
  lemma RunFails(seqName: string, nsFile: string, msFile: string, d: RunData)
    ensures RunResult(seqName, nsFile, msFile, d).Failure? <==>
      exists i :: 0 <= i < |d.entries| && EntryRaises(d.entries[i].path, nsFile, msFile, d)
  {
    ScanFails(nsFile, msFile, d, |d.entries|);
  }

  /** Without RunInfo.xml the entry is the placeholder built from {}: it is
      Initializing and has no completion_dt, whatever the markers said. */
  lemma NoRunInfoIsPlaceholder(seqName: string, nsFile: string, msFile: string, d: RunData)
    requires RunResult(seqName, nsFile, msFile, d).Success? && !d.hasRunInfo
    ensures var r := RunResult(seqName, nsFile, msFile, d).value;
      && r == RtStatus.Placeholder(map[])
      && StatusOf(r) == "Initializing" && "completion_dt" !in r && "exp_name" !in r
  {
    assert "status" in RtStatus.InitWrites;
    RtStatus.PlaceholderKeeps(map[]);
  }

  /** With RunInfo.xml the marker status survives except that Idle becomes
      Running on mismatched cycles and a last cycle of 0 forces
      Initializing; error and completion_dt are the scan's, and every other
      key is the collectors'. */
  lemma SettledRun(seqName: string, nsFile: string, msFile: string, d: RunData)
    requires RunResult(seqName, nsFile, msFile, d).Success? && d.hasRunInfo
    ensures var r := RunResult(seqName, nsFile, msFile, d).value;
      var s := Scanned(nsFile, msFile, d).value;
      var g := Gathered(seqName, d);
      && r["status"] == Str(RunStatus.FinalStatus(s.status, d.lastCycle, d.info.totalCycles))
      && r["error"] == TextValue(s.error)
      && r["completion_dt"] == Str(s.completionDt)
      && (forall k :: k in r <==> k in g || k in SettleKeys)
      && (forall k :: k in g && k !in SettleKeys ==> r[k] == g[k])
  {
    SettleSpec(Gathered(seqName, d), Scanned(nsFile, msFile, d).value, d.lastCycle, d.info.totalCycles);
  }

  /** The step of GatheredFields that does not depend on how the chart is
      made: run_parameters leaves the earlier writes in place. */
  lemma CollectorsWrite(info: RunInfo, lastCycle: int, readList: seq<ReadEntry>, chart: Plot, t: Totals,
                        params: RunParameters)
    ensures var g := Summarized((map[] + InfoWrites(info))["last_cycle" := Int(lastCycle)], readList, chart, t)
                     + ParamWrites(params);
      && g["last_cycle"] == Int(lastCycle) && g["total_cycles"] == Int(info.totalCycles)
      && g["reads"] == Reads(readList)
      && g["q30_plot"] == PlotValue(chart)
      && g["cluster_density"] == Str(t.clusterDensity + "/mmÂ²")
      && g["exp_name"] == Str(params.expName)
  {
    var base := (map[] + InfoWrites(info))["last_cycle" := Int(lastCycle)];
    assert base["last_cycle"] == Int(lastCycle) && base["total_cycles"] == Int(info.totalCycles);
    assert "last_cycle" !in ParamWrites(params) && "total_cycles" !in ParamWrites(params);
    assert "reads" !in ParamWrites(params) && "q30_plot" !in ParamWrites(params);
    assert "cluster_density" !in ParamWrites(params);
  }

  /** The collected dictionary of a run holds its cycles, its reads, the
      chart of its Q-score histogram, its cluster density in /mmÂ² and its
      experiment name. */
  lemma GatheredFields(seqName: string, d: RunData)
    ensures var g := Gathered(seqName, d);
      && g["last_cycle"] == Int(d.lastCycle) && g["total_cycles"] == Int(d.info.totalCycles)
      && g["reads"] == Reads(d.readList)
      && g["q30_plot"] == PlotValue(Q30Chart(d, seqName == "NextSeq"))
      && g["cluster_density"] == Str(d.totals.clusterDensity + "/mmÂ²")
      && g["exp_name"] == Str(d.params.expName)
  {
    CollectorsWrite(d.info, d.lastCycle, d.readList, Q30Chart(d, seqName == "NextSeq"), d.totals, d.params);
  }

  /** A settled run is Idle, Running, Initializing or 'Completed on', and a
      'Completed on' run always has a completion date. */
  lemma SettledStatus(seqName: string, nsFile: string, msFile: string, d: RunData)
    requires RunResult(seqName, nsFile, msFile, d).Success? && d.hasRunInfo
    ensures var r := RunResult(seqName, nsFile, msFile, d).value;
      && StatusOf(r) in {"Idle", "Running", "Initializing", "Completed on"}
      && (StatusOf(r) == "Completed on" ==> r["completion_dt"] != Str(""))
  {
    ScanSpec(nsFile, msFile, d, |d.entries|);
    SettleSpec(Gathered(seqName, d), Scanned(nsFile, msFile, d).value, d.lastCycle, d.info.totalCycles);
  }

  // ---- The loop over latest_runs ----

  /** Each entry of latest_runs with its run's outcome. */
  function Outcomes(runs: seq<Entry<string>>, nsFile: string, msFile: string, data: string -> RunData)
    : (r: seq<Entry<Result<Fields>>>)
    ensures |r| == |runs| && Keys(r) == Keys(runs)
  {
    seq(|runs|, i requires 0 <= i < |runs| =>
      Entry(runs[i].key, RunResult(runs[i].key, nsFile, msFile, data(runs[i].value))))
  }

  /** The loop over latest_runs.items(). */
  method ParseLatestRuns(runs: seq<Entry<string>>, nsFile: string, msFile: string, data: string -> RunData)
    returns (result: Result<seq<Entry<Fields>>>)
    ensures result == Assigned(Outcomes(runs, nsFile, msFile, data), |runs|)
  {
    ghost var outs := Outcomes(runs, nsFile, msFile, data);
    result := Success([]);
    var n := 0;
    while n < |runs| && result.Success?
      invariant 0 <= n <= |runs|
      invariant result == Assigned(outs, n)
      invariant result.Failure? ==> result == Assigned(outs, |runs|)
    {
      result := NextRun(runs, nsFile, msFile, data, n, result.value);
      n := n + 1;
    }
  }

  /** One iteration: the state after run n, which is already the loop's
      result when that run raised. */
  method NextRun(runs: seq<Entry<string>>, nsFile: string, msFile: string, data: string -> RunData, n: nat,
                 prev: seq<Entry<Fields>>)
    returns (next: Result<seq<Entry<Fields>>>)
    requires n < |runs| && Assigned(Outcomes(runs, nsFile, msFile, data), n) == Success(prev)
    ensures next == Assigned(Outcomes(runs, nsFile, msFile, data), n + 1)
    ensures next.Failure? ==> next == Assigned(Outcomes(runs, nsFile, msFile, data), |runs|)
  {
    var o := NextOutcome(runs, nsFile, msFile, data, n);
    next := AssignNext(Outcomes(runs, nsFile, msFile, data), n, prev, runs[n].key, o);
  }

  /** The body of one iteration, up to its final assignment. */
  method NextOutcome(runs: seq<Entry<string>>, nsFile: string, msFile: string, data: string -> RunData, n: nat)
    returns (o: Result<Fields>)
    requires n < |runs|
    ensures Outcomes(runs, nsFile, msFile, data)[n] == Entry(runs[n].key, o)
  {
    o := ProcessRun(runs[n].key, nsFile, msFile, data(runs[n].value));
  }

  /** get_latest_run_status(path, ..., NS_completion_file,
      MS_completion_file, ...): `top` is os.scandir(path), listing(dir) is
      os.scandir(dir) and data(dir) what run folder dir holds. */
  method GetLatestRunStatus(top: seq<DirEntry>, listing: string -> seq<DirEntry>, nsFile: string, msFile: string,
                            data: string -> RunData)
    returns (result: Result<seq<Entry<Fields>>>)
    ensures var latest := LatestRuns.Latest(top, listing);
      && (latest.Failure? ==> result == Failure(latest.error))
      && (latest.Success? ==> result == Assigned(Outcomes(latest.value, nsFile, msFile, data), |latest.value|))
  {
    var latest := LatestRuns.GetLatestRuns(top, listing);
    if latest.Failure? {
      return Failure(latest.error);
    }
    result := ParseLatestRuns(latest.value, nsFile, msFile, data);
  }

  /** When latest_runs resolves, the status dictionary fails exactly when
      some run's iteration raises, and otherwise has one entry per
      sequencer, in the order of latest_runs, each holding its run's
      outcome. */
  lemma OneEntryPerRun(top: seq<DirEntry>, listing: string -> seq<DirEntry>, nsFile: string, msFile: string,
                       data: string -> RunData)
    requires LatestRuns.Latest(top, listing).Success?
    ensures var outs := Outcomes(LatestRuns.Latest(top, listing).value, nsFile, msFile, data);
      var r := Assigned(outs, |outs|);
      && (r.Failure? <==> exists i :: 0 <= i < |outs| && outs[i].value.Failure?)
      && (r.Success? ==> |r.value| == |outs|
                         && forall i :: 0 <= i < |outs| ==> outs[i].value.Success? && r.value[i] == Entry(outs[i].key, outs[i].value.value))
  {
    var seqDirs := RunFolders.Paths(Subdirs(top));
    LatestRuns.LatestSpec(seqDirs, listing, |seqDirs|);
    var runs := LatestRuns.Latest(top, listing).value;
    var outs := Outcomes(runs, nsFile, msFile, data);
    assert DistinctKeys(outs) by {
      forall i, j | 0 <= i < j < |outs| ensures outs[i].key != outs[j].key {
        assert Keys(outs)[i] == Keys(runs)[i] && Keys(outs)[j] == Keys(runs)[j];
      }
    }
    AssignedFails(outs, |outs|);
    if Assigned(outs, |outs|).Success? {
      AssignedValue(outs, |outs|);
    }
  }
}
