/** API/status/main.py: the "Run is initializing" placeholder and the status
    precedence of get_latest_run_status. What the InterOp library, the run
    folder's XML files and the filesystem report for a run comes in as a
    RunData value. */
module StatusMain {
  import opened Wrappers
  import opened Files
  import opened Dicts
  import opened Chart
  import opened Records
  import opened Text
  import opened Qscore
  import RunFolders
  import RunFiles
  import StatusInterop
  import RunStatus
  import Platform

  const InitMsg := "Run is initializing"

  /** The keys handle_initializing_run sets, with their values. */
  const InitWrites: Fields := map[
    "paired-end" := Str(InitMsg),
    "total_cycles" := Int(0),
    "last_cycles" := Int(0),
    "run-name" := Str(InitMsg),
    "flowcell_id" := Str(InitMsg),
    "inst_name" := Str(""),
    "date" := Str(""),
    "p_gt_q30" := Str(""),
    "total_yield" := Str(""),
    "percent_aligned" := Str(""),
    "cluster_density" := Str(""),
    "cluster_pf_percent" := Str(""),
    "reads" := Str(""),
    "status" := Str("Initializing"),
    "error" := Str(""),
    "q30_plot" := PlotValue(EmptyPlot)]

  /** handle_initializing_run(result): a new dictionary holding every key of
      `f`, overwritten where the placeholder sets it. */
  function HandleInitializingRun(f: Fields): (r: Fields)
    ensures forall k :: k in r <==> k in f || k in InitWrites
    ensures forall k :: k in r && k !in InitWrites ==> r[k] == f[k]
    ensures forall k :: k in InitWrites ==> r[k] == InitWrites[k]
  {
    f + InitWrites
  }

  /** The placeholder is Initializing, sets reads to '' and draws the
      empty chart. */
  lemma PlaceholderStatus(f: Fields)
    ensures var r := HandleInitializingRun(f);
      && StatusOf(r) == "Initializing" && r["reads"] == Str("") && r["q30_plot"] == PlotValue(EmptyPlot)
  {
  }

  /** The placeholder writes the keys last_cycles and run-name, with zero
      cycles. */
  lemma PlaceholderCycles(f: Fields)
    ensures var r := HandleInitializingRun(f);
      && r["last_cycles"] == Int(0) && r["total_cycles"] == Int(0) && r["run-name"] == Str(InitMsg)
  {
  }

  /** The placeholder writes neither last_cycle, run_name nor completion_dt:
      each is there exactly when it was before, with its old value. */
  lemma PlaceholderKeeps(f: Fields)
    ensures var r := HandleInitializingRun(f);
      && ("last_cycle" in r <==> "last_cycle" in f)
      && ("run_name" in r <==> "run_name" in f)
      && ("completion_dt" in r <==> "completion_dt" in f)
      && ("completion_dt" in f ==> r["completion_dt"] == f["completion_dt"])
  {
    assert "last_cycle" !in InitWrites && "run_name" !in InitWrites && "completion_dt" !in InitWrites;
  }

  /** Everything the collectors of one run folder report: whether RunInfo.xml
      exists, the run information, the last extracted cycle, the read
      summaries, the histogram bars and x axis maximum, the axis titles, the
      formatted metrics, the run parameters and the completion markers. */
  datatype RunData = RunData(
    hasRunInfo: bool,
    info: RunInfo,
    lastCycle: int,
    readList: seq<ReadEntry>,
    series: seq<seq<Bar>>,
    xmax: int,
    xTitle: string,
    yTitle: string,
    totals: Totals,
    params: RunParameters,
    copyComplete: Option<Stamp>,
    rtaComplete: Option<Stamp>)

  /** What summary needs of a MiSeq histogram: every bar at a label of at
      least 1. */
  predicate SummaryReady(seqName: string, d: RunData)
  {
    Platform.IsMiSeq(seqName) ==> StatusInterop.PositiveLabels(Flatten(d.series))
  }

  /** summary only runs when RunInfo.xml exists, so only then does the
      MiSeq histogram need its labels of at least 1. */
  predicate Readable(seqName: string, d: RunData)
  {
    d.hasRunInfo ==> SummaryReady(seqName, d)
  }

  /** Every run of latest_runs is Readable under its sequencer name. */
  predicate RunsReadable(runs: seq<Entry<string>>, data: string -> RunData)
  {
    forall i :: 0 <= i < |runs| ==> Readable(runs[i].key, data(runs[i].value))
  }

  /** result[seq] once run_info and metrics have written into
      {'status': 'Idle'}. */
  function Base(d: RunData): Fields
  {
    (map["status" := Str("Idle")] + InfoWrites(d.info))["last_cycle" := Int(d.lastCycle)]
  }

  /** run_info and metrics leave the status Idle. */
  lemma BaseIdle(d: RunData)
    ensures StatusOf(Base(d)) == "Idle"
  {
  }

  /** result[seq] once run_info, metrics, summary and run_parameters have
      written into {'status': 'Idle'}. */
  function Gathered(seqName: string, d: RunData): Fields
    requires SummaryReady(seqName, d)
  {
    StatusInterop.SummaryFields(Base(d), d.readList, Flatten(d.series), d.xmax, seqName, d.xTitle, d.yTitle, d.totals)
      + ParamWrites(d.params)
  }

  /** result[seq] at the end of one iteration of the loop over latest_runs. */
  function RunResult(seqName: string, d: RunData): Fields
    requires Readable(seqName, d)
  {
    if !d.hasRunInfo then HandleInitializingRun(map["status" := Str("Idle")])
    else
      var f := Gathered(seqName, d);
      if RunStatus.SaysInit(f) then HandleInitializingRun(f)
      else
        var c := RunFiles.CheckCompletionFiles(seqName, d.copyComplete, d.rtaComplete, "Idle");
        f["status" := Str(RunStatus.FinalStatus(c.status, d.lastCycle, d.info.totalCycles))]
         ["completion_dt" := Str(c.date)]
  }

  /** result[seq] = {'status': 'Idle'}, then run_info, metrics, summary and
      run_parameters writing into it in place. */
  method Gather(seqName: string, d: RunData) returns (r: Record)
    requires SummaryReady(seqName, d)
    ensures fresh(r) && r.fields == Gathered(seqName, d)
  {
    r := new Record(map["status" := Str("Idle")]);
    r.Merge(InfoWrites(d.info));
    r.Put("last_cycle", Int(d.lastCycle));
    StatusInterop.Summary(r, d.readList, d.series, d.xmax, seqName, d.xTitle, d.yTitle, d.totals);
    r.Merge(ParamWrites(d.params));
  }

  /** One iteration of the loop: the collectors write into result[seq] in
      place, then the status is settled. */
  method ProcessRun(seqName: string, d: RunData) returns (f: Fields)
    requires Readable(seqName, d)
    ensures f == RunResult(seqName, d)
  {
    var status := "Idle";
    if !d.hasRunInfo {
      f := HandleInitializingRun(map["status" := Str("Idle")]);
      return;
    }
    var r := Gather(seqName, d);
    var c := RunFiles.CheckCompletionFiles(seqName, d.copyComplete, d.rtaComplete, status);
    status := c.status;
    if RunStatus.SaysInit(r.fields) {
      f := HandleInitializingRun(r.fields);
      return;
    }
    if d.lastCycle != d.info.totalCycles && status == "Idle" {
      status := "Running";
    }
    if d.lastCycle == 0 {
      status := "Initializing";
    }
    r.Put("status", Str(status));
    r.Put("completion_dt", Str(c.date));
    f := r.fields;
  }

  /** Without RunInfo.xml the entry is the placeholder over {'status': 'Idle'},
      whatever the metrics and markers say. */
  lemma NoRunInfoIsPlaceholder(seqName: string, d: RunData, d': RunData)
    requires !d.hasRunInfo && !d'.hasRunInfo
    ensures RunResult(seqName, d) == RunResult(seqName, d')
    ensures StatusOf(RunResult(seqName, d)) == "Initializing"
    ensures "completion_dt" !in RunResult(seqName, d)
  {
    PlaceholderStatus(map["status" := Str("Idle")]);
    PlaceholderKeeps(map["status" := Str("Idle")]);
  }

  /** Neither the collectors' other writes nor run_parameters touch the
      status: it is Initializing exactly when the summary had no reads or its
      histogram no widths, and Idle otherwise. */
  lemma GatheredStatus(seqName: string, d: RunData)
    requires SummaryReady(seqName, d)
    ensures StatusOf(Gathered(seqName, d)) ==
      if Starved(seqName, d) then "Initializing" else "Idle"
  {
    var bars := Flatten(d.series);
    var f := Base(d);
    BaseIdle(d);
    var g := StatusInterop.SummaryFields(f, d.readList, bars, d.xmax, seqName, d.xTitle, d.yTitle, d.totals);
    assert "status" !in ParamWrites(d.params);
  }

  /** summary(...) returned early: no reads, or no histogram widths. */
  predicate Starved(seqName: string, d: RunData)
  {
    |d.readList| == 0 || |Collected(Flatten(d.series), d.xmax, StatusInterop.Policy(seqName)).widths| == 0
  }

  /** The 'init' test after summary succeeds exactly on a starved run. */
  lemma InitTestExactly(seqName: string, d: RunData)
    requires SummaryReady(seqName, d)
    ensures RunStatus.SaysInit(Gathered(seqName, d)) <==> Starved(seqName, d)
  {
    GatheredStatus(seqName, d);
    if Starved(seqName, d) {
      RunStatus.InitializingSaysInit(Gathered(seqName, d));
    } else {
      RunStatus.IdleSaysNoInit(Gathered(seqName, d));
    }
  }

  /** A starved run becomes the placeholder over what the collectors wrote,
      whatever its completion markers say. */
  lemma StarvedIsPlaceholder(seqName: string, d: RunData, copyComplete: Option<Stamp>, rtaComplete: Option<Stamp>)
    requires Readable(seqName, d)
    requires d.hasRunInfo && Starved(seqName, d)
    ensures RunResult(seqName, d) == HandleInitializingRun(Gathered(seqName, d))
    ensures RunResult(seqName, d) == RunResult(seqName, d.(copyComplete := copyComplete, rtaComplete := rtaComplete))
    ensures StatusOf(RunResult(seqName, d)) == "Initializing"
  {
    InitTestExactly(seqName, d);
    InitTestExactly(seqName, d.(copyComplete := copyComplete, rtaComplete := rtaComplete));
    PlaceholderStatus(Gathered(seqName, d));
  }

  /** Past both short-circuits the summary's reads and metrics are in the
      dictionary, and run_parameters does not disturb them. */
  lemma GatheredKeeps(seqName: string, d: RunData)
    requires SummaryReady(seqName, d)
    requires !Starved(seqName, d)
    ensures var g := Gathered(seqName, d);
      && "reads" in g && g["reads"] == Reads(d.readList)
      && "p_gt_q30" in g && g["p_gt_q30"] == Str(d.totals.gt30 + "%")
  {
    var bars := Flatten(d.series);
    var f := Base(d);
    var h := Collected(bars, d.xmax, StatusInterop.Policy(seqName));
    StatusInterop.SummaryComplete(f, d.readList, bars, d.xmax, seqName, d.xTitle, d.yTitle, d.totals);
    var g := StatusInterop.Complete(f["reads" := Reads(d.readList)], h, seqName, d.xTitle, d.yTitle, d.totals);
    StatusInterop.CompleteWrites(f["reads" := Reads(d.readList)], h, seqName, d.xTitle, d.yTitle, d.totals);
    assert "reads" !in ParamWrites(d.params);
    assert "p_gt_q30" !in ParamWrites(d.params);
  }

  /** Past both short-circuits the status is FinalStatus of the marker
      status, completion_dt is the marker date, and what the collectors
      wrote stays, even when a last cycle of 0 forces Initializing. */
  lemma SettledRun(seqName: string, d: RunData)
    requires Readable(seqName, d)
    requires d.hasRunInfo && !Starved(seqName, d)
    ensures var r := RunResult(seqName, d);
      var c := RunFiles.CheckCompletionFiles(seqName, d.copyComplete, d.rtaComplete, "Idle");
      && "status" in r && r["status"] == Str(RunStatus.FinalStatus(c.status, d.lastCycle, d.info.totalCycles))
      && (d.lastCycle == 0 ==> r["status"] == Str("Initializing"))
      && "completion_dt" in r && r["completion_dt"] == Str(c.date)
      && "reads" in r && r["reads"] == Reads(d.readList)
      && "p_gt_q30" in r && r["p_gt_q30"] == Str(d.totals.gt30 + "%")
  {
    InitTestExactly(seqName, d);
    GatheredKeeps(seqName, d);
  }

  /** result: one entry per entry of latest_runs, in the same order, holding
      that run's outcome. */
  function Outcomes(latest: seq<Entry<string>>, data: string -> RunData): (r: seq<Entry<Fields>>)
    requires RunsReadable(latest, data)
    ensures |r| == |latest| && Keys(r) == Keys(latest)
  {
    seq(|latest|, i requires 0 <= i < |latest| => Entry(latest[i].key, RunResult(latest[i].key, data(latest[i].value))))
  }

  /** The loop over latest_runs.items(), assigning result[seq] for each. */
  method ParseLatestRuns(runs: seq<Entry<string>>, data: string -> RunData) returns (out: seq<Entry<Fields>>)
    requires RunsReadable(runs, data)
    ensures out == PutAll(Outcomes(runs, data), |runs|)
  {
    out := [];
    var n := 0;
    while n < |runs|
      invariant 0 <= n <= |runs| && out == PutAll(Outcomes(runs, data), n)
    {
      var f := ProcessRun(runs[n].key, data(runs[n].value));
      OutcomeStep(runs, data, n, f);
      out := Put(out, runs[n].key, f);
      n := n + 1;
    }
  }

  /** Assigning the outcome of the next run extends the dictionary by that
      run's entry of Outcomes. */
  lemma OutcomeStep(runs: seq<Entry<string>>, data: string -> RunData, n: nat, f: Fields)
    requires RunsReadable(runs, data) && n < |runs|
    requires f == RunResult(runs[n].key, data(runs[n].value))
    ensures Put(PutAll(Outcomes(runs, data), n), runs[n].key, f) == PutAll(Outcomes(runs, data), n + 1)
  {
    assert Outcomes(runs, data)[n] == Entry(runs[n].key, f);
  }

  /** The outcomes carry the keys of latest_runs, so they repeat none. */
  lemma OutcomesDistinct(runs: seq<Entry<string>>, data: string -> RunData)
    requires RunsReadable(runs, data) && DistinctKeys(runs)
    ensures DistinctKeys(Outcomes(runs, data))
  {
    var outcomes := Outcomes(runs, data);
    forall i, j | 0 <= i < j < |outcomes| ensures outcomes[i].key != outcomes[j].key {
      assert Keys(outcomes)[i] == Keys(runs)[i] && Keys(outcomes)[j] == Keys(runs)[j];
    }
  }

  /** latest_runs as get_sequencer_rootdir and get_sequencer_latest_run
      compute it. */
  function LatestRuns(top: seq<DirEntry>, walk: string -> seq<string>, listing: string -> seq<DirEntry>,
                      seqList: seq<string>, seqNb: int): Result<seq<Entry<string>>>
  {
    var roots := RunFolders.RootsUpTo(RunFolders.Paths(Subdirs(top)), walk, seqList, seqNb, |Subdirs(top)|);
    RunFolders.LatestUpTo(roots, listing, |roots|)
  }

  /** get_latest_run_status(store_root, seq_list, seq_nb): `top` is
      os.scandir(store_root), walk and listing the filesystem, data(dir) what
      the collectors report for run folder dir. */
  method GetLatestRunStatus(top: seq<DirEntry>, walk: string -> seq<string>, listing: string -> seq<DirEntry>,
                            data: string -> RunData, seqList: seq<string>, seqNb: int)
    returns (result: Result<seq<Entry<Fields>>>)
    requires var latest := LatestRuns(top, walk, listing, seqList, seqNb);
      latest.Success? ==> RunsReadable(latest.value, data)
    ensures var latest := LatestRuns(top, walk, listing, seqList, seqNb);
      && (result.Failure? <==> latest.Failure?)
      && (result.Success? ==> result.value == Outcomes(latest.value, data))
  {
    var rootdirs := RunFolders.GetSequencerRootdir(top, walk, seqList, seqNb);
    var latest := RunFolders.GetSequencerLatestRun(rootdirs, listing);
    if latest.Failure? {
      return Failure(latest.error);
    }
    RunFolders.LatestDistinct(rootdirs, listing, |rootdirs|);
    var out := ParseLatestRuns(latest.value, data);
    OutcomesDistinct(latest.value, data);
    PutAllDistinct(Outcomes(latest.value, data), |latest.value|);
    result := Success(out);
  }
}
