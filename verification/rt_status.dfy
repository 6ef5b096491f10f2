/** API/api/test_api/rt_status.py: the placeholder that overwrites a result
    dictionary in place, and the status precedence of get_latest_run_status
    over the older run-folder and completion-marker code. The InterOp
    collectors it calls live in a file that is not part of this model: their
    writes come in as one dictionary. */
module RtStatus {
  import opened Wrappers
  import opened Files
  import opened Dicts
  import opened Chart
  import opened Records
  import RtRunfolders
  import RunFolders
  import RtRunfiles
  import RunStatus

  const InitMsg := "Run is initializing"

  /** The keys this revision's handle_initializing_run sets, with their
      values. */
  const InitWrites: Fields := map[
    "paired-end" := Str(InitMsg),
    "total_cycles" := Int(0),
    "last_cycle" := Int(0),
    "inst_name" := Str(""),
    "run_name" := Str(InitMsg),
    "date" := Str(""),
    "flowcell_id" := Str(InitMsg),
    "p_gt_q30" := Str(""),
    "total_yield" := Str(""),
    "percent_aligned" := Str(""),
    "cluster_density" := Str(""),
    "cluster_pf_percent" := Str(""),
    "reads" := Reads([]),
    "q30_plot" := PlotValue(EmptyPlot),
    "status" := Str("Initializing"),
    "error" := Str("")]

  /** The dictionary after the placeholder: every key of `f`, overwritten
      where the placeholder sets it. */
  function Placeholder(f: Fields): (r: Fields)
    ensures forall k :: k in r <==> k in f || k in InitWrites
    ensures forall k :: k in r && k !in InitWrites ==> r[k] == f[k]
    ensures forall k :: k in InitWrites ==> r[k] == InitWrites[k]
  {
    f + InitWrites
  }

  /** handle_initializing_run(result): the assignments act on `r` itself,
      which is also what comes back. */
  method HandleInitializingRun(r: Record) returns (same: Record)
    modifies r
    ensures same == r && r.fields == Placeholder(old(r.fields))
  {
    r.Merge(InitWrites);
    same := r;
  }

  /** The placeholder leaves completion_dt, exp_name and reagents alone. */
  lemma PlaceholderKeeps(f: Fields)
    ensures var r := Placeholder(f);
      && ("completion_dt" in r <==> "completion_dt" in f)
      && ("exp_name" in r <==> "exp_name" in f)
      && ("reagents" in r <==> "reagents" in f)
  {
    assert "completion_dt" !in InitWrites && "exp_name" !in InitWrites && "reagents" !in InitWrites;
  }

  /** What the run folder reports: whether RunInfo.xml exists, the writes of
      run_info, metrics and summary, the last and total cycles metrics
      returns, the run parameters and the completion markers. */
  datatype RunData = RunData(
    hasRunInfo: bool,
    collected: Fields,
    lastCycle: int,
    totalCycles: int,
    params: RunParameters,
    markers: RtRunfiles.Markers)

  /** result[seq] once the collectors and run_parameters have written into
      {'status': 'Idle'}. */
  function Gathered(d: RunData): Fields
  {
    map["status" := Str("Idle")] + d.collected + ParamWrites(d.params)
  }

  /** result[seq] after one iteration, or the exception that escapes it. */
  function RunResult(seqName: string, d: RunData): Result<Fields>
  {
    if !d.hasRunInfo then Success(Placeholder(map["status" := Str("Idle")]))
    else
      var f := Gathered(d);
      var c := RtRunfiles.CheckCompletionFiles(seqName, d.markers, "Idle");
      if c.Failure? then Failure(c.error)
      else if RunStatus.SaysInit(f) then Success(Placeholder(f))
      else
        Success(f["status" := Str(RunStatus.FinalStatus(c.value.status, d.lastCycle, d.totalCycles))]
                 ["completion_dt" := Str(c.value.date)])
  }

  /** One iteration of the loop over latest_runs. */
  method ProcessRun(seqName: string, d: RunData) returns (out: Result<Fields>)
    ensures out == RunResult(seqName, d)
  {
    var r := new Record(map["status" := Str("Idle")]);
    var status := "Idle";
    if !d.hasRunInfo {
      r := HandleInitializingRun(r);
      return Success(r.fields);
    }
    r.Merge(d.collected);
    r.Merge(ParamWrites(d.params));
    var c := RtRunfiles.CheckCompletionFiles(seqName, d.markers, status);
    if c.Failure? {
      return Failure(c.error);
    }
    status := c.value.status;
    if RunStatus.SaysInit(r.fields) {
      r := HandleInitializingRun(r);
      return Success(r.fields);
    }
    if d.lastCycle != d.totalCycles && status == "Idle" {
      status := "Running";
    }
    if d.lastCycle == 0 {
      status := "Initializing";
    }
    r.Put("status", Str(status));
    r.Put("completion_dt", Str(c.value.date));
    out := Success(r.fields);
  }

  /** An iteration raises exactly when the run has RunInfo.xml and its
      completion markers make check_completion_files raise, even when the
      run would have become the placeholder. */
  lemma RunFailsExactly(seqName: string, d: RunData)
    ensures RunResult(seqName, d).Failure? <==>
      d.hasRunInfo && RtRunfiles.CheckCompletionFiles(seqName, d.markers, "Idle").Failure?
  {
  }

  /** Without RunInfo.xml, or with a status the collectors left saying
      'init', the entry is the placeholder, whatever the markers say. */
  lemma InitIsPlaceholder(seqName: string, d: RunData)
    requires RunResult(seqName, d).Success?
    requires !d.hasRunInfo || RunStatus.SaysInit(Gathered(d))
    ensures RunResult(seqName, d).value ==
      Placeholder(if d.hasRunInfo then Gathered(d) else map["status" := Str("Idle")])
    ensures StatusOf(RunResult(seqName, d).value) == "Initializing"
  {
    assert "status" in InitWrites;
  }

  /** Otherwise the marker status survives except that Idle becomes Running
      on mismatched cycles, a last cycle of 0 forces Initializing, and
      completion_dt is the marker date. */
  lemma SettledRun(seqName: string, d: RunData)
    requires RunResult(seqName, d).Success?
    requires d.hasRunInfo && !RunStatus.SaysInit(Gathered(d))
    ensures var r := RunResult(seqName, d).value;
      var c := RtRunfiles.CheckCompletionFiles(seqName, d.markers, "Idle").value;
      && r["status"] == Str(RunStatus.FinalStatus(c.status, d.lastCycle, d.totalCycles))
      && (d.lastCycle == 0 ==> r["status"] == Str("Initializing"))
      && (d.lastCycle != 0 && c.status != "Idle" ==> r["status"] == Str(c.status))
      && r["completion_dt"] == Str(c.date)
  {
  }

  /** Each entry of latest_runs with its run's outcome. */
  function Outcomes(runs: seq<Entry<string>>, data: string -> RunData): (r: seq<Entry<Result<Fields>>>)
    ensures |r| == |runs| && Keys(r) == Keys(runs)
  {
    seq(|runs|, i requires 0 <= i < |runs| => Entry(runs[i].key, RunResult(runs[i].key, data(runs[i].value))))
  }

  /** The loop over latest_runs.items(). */
  method ParseLatestRuns(runs: seq<Entry<string>>, data: string -> RunData) returns (result: Result<seq<Entry<Fields>>>)
    ensures result == Assigned(Outcomes(runs, data), |runs|)
  {
    ghost var outs := Outcomes(runs, data);
    result := Success([]);
    var n := 0;
    while n < |runs| && result.Success?
      invariant 0 <= n <= |runs|
      invariant result == Assigned(outs, n)
      invariant result.Failure? ==> result == Assigned(outs, |runs|)
    {
      result := NextRun(runs, data, n, result.value);
      n := n + 1;
    }
  }

  /** One iteration: the state after run n, which is already the loop's
      result when that run raised. */
  method NextRun(runs: seq<Entry<string>>, data: string -> RunData, n: nat, prev: seq<Entry<Fields>>)
    returns (next: Result<seq<Entry<Fields>>>)
    requires n < |runs| && Assigned(Outcomes(runs, data), n) == Success(prev)
    ensures next == Assigned(Outcomes(runs, data), n + 1)
    ensures next.Failure? ==> next == Assigned(Outcomes(runs, data), |runs|)
  {
    var o := NextOutcome(runs, data, n);
    next := AssignNext(Outcomes(runs, data), n, prev, runs[n].key, o);
  }

  /** The body of one iteration, up to its final assignment. */
  method NextOutcome(runs: seq<Entry<string>>, data: string -> RunData, n: nat) returns (o: Result<Fields>)
    requires n < |runs|
    ensures Outcomes(runs, data)[n] == Entry(runs[n].key, o)
  {
    o := ProcessRun(runs[n].key, data(runs[n].value));
  }

  /** latest_runs as the older get_sequencer_rootdir("/storage/IN") and
      get_sequencer_latest_run compute it. */
  function LatestRuns(top: seq<DirEntry>, walk: string -> seq<string>, listing: string -> seq<DirEntry>)
    : Result<seq<Entry<string>>>
  {
    var roots := RtRunfolders.RootsUpTo(RunFolders.Paths(Subdirs(top)), walk, |Subdirs(top)|);
    RtRunfolders.LatestUpTo(roots, listing, |roots|)
  }

  /** get_latest_run_status(): `top` is os.scandir("/storage/IN"), walk and
      listing the filesystem, data(dir) what run folder dir reports. */
  method GetLatestRunStatus(top: seq<DirEntry>, walk: string -> seq<string>, listing: string -> seq<DirEntry>,
                            data: string -> RunData)
    returns (result: Result<seq<Entry<Fields>>>)
    ensures var latest := LatestRuns(top, walk, listing);
      && (latest.Failure? ==> result.Failure?)
      && (latest.Success? ==> result == Assigned(Outcomes(latest.value, data), |latest.value|))
  {
    var rootdirs := RtRunfolders.GetSequencerRootdir(top, walk);
    var latest := RtRunfolders.GetSequencerLatestRun(rootdirs, listing);
    if latest.Failure? {
      return Failure(latest.error);
    }
    result := ParseLatestRuns(latest.value, data);
  }

  /** When the run folders resolve, the status dictionary fails exactly when
      some run's iteration raises, and otherwise has exactly the keys of
      latest_runs, in order, each holding its run's outcome. */
  lemma OneEntryPerRun(top: seq<DirEntry>, walk: string -> seq<string>, listing: string -> seq<DirEntry>,
                       data: string -> RunData)
    requires LatestRuns(top, walk, listing).Success?
    ensures var outs := Outcomes(LatestRuns(top, walk, listing).value, data);
      var r := Assigned(outs, |outs|);
      && (r.Failure? <==> exists i :: 0 <= i < |outs| && outs[i].value.Failure?)
      && (r.Success? ==> |r.value| == |outs|
                         && forall i :: 0 <= i < |outs| ==> outs[i].value.Success? && r.value[i] == Entry(outs[i].key, outs[i].value.value))
  {
    var roots := RtRunfolders.RootsUpTo(RunFolders.Paths(Subdirs(top)), walk, |Subdirs(top)|);
    RtRunfolders.LatestDistinct(roots, listing, |roots|);
    var runs := LatestRuns(top, walk, listing).value;
    var outs := Outcomes(runs, data);
    assert DistinctKeys(outs) by {
      forall i, j | 0 <= i < j < |outs| ensures outs[i].key != outs[j].key {
        assert Keys(outs)[i] == Keys(runs)[i] && Keys(outs)[j] == Keys(runs)[j];
      }
    }
    AssignedFails(outs, |outs|);
    if Assigned(outs, |outs|).Success? {
      AssignedValue(outs, |outs|);
    }
  }
}
