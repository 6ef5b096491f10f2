/** running.py: the command-line status report. For every sequencer
    directory of the storage root it scans the newest run folder for the
    NextSeq tracking directory and the two completion files, lets a cycle
    mismatch override what the scan found, and prints the status and the
    error of each run. The InterOp cycle counts, the XML parses and the
    directory listings come in as the fields of RunData; what the loop
    prints is the sequence of reports it returns. */
module Running {
  import opened Wrappers
  import opened Text
  import opened Files
  import opened Dicts
  import LatestRuns
  import RunFolders

  /** The arguments the script passes, and its two module-level file names. */
  const StorageRoot := "/storage/IN/"
  const TrackDir := "InstrumentAnalyticsLogs"
  const NsCompletedFile := "RunCompletionStatus.xml"
  const MsCompletedFile := "CompletedJobInfo.xml"

  const IndexError := "IndexError: list index out of range"
  const ParseError := "ParseError: completion file cannot be parsed"
  const ScandirError := "FileNotFoundError: tracking directory cannot be listed"

  const CyclePrefix := "Nextseq Running - Current cycle : "
  const RunningPrefix := "Running - current cycle :"

  /** The two variables the loop reassigns and finally prints; either is
      None after a RunCompletionStatus.xml whose node has no text, and is
      then printed as None. */
  datatype Report = Report(status: Option<string>, error: Option<string>)

  /** What the newest run folder holds as far as this script reads it: its
      os.scandir entries, the listing of its tracking directory (None when
      os.scandir raises), the parsed completion files (None when ET.parse
      raises) and the cycle counts run_info and metrics return. */
  datatype RunData = RunData(
    entries: seq<DirEntry>,
    trackFiles: Option<seq<DirEntry>>,
    nsDoc: Option<NsDoc>,
    msTime: Option<string>,
    totalCycle: int,
    lastCycle: int)

  // ---- The tracking file name ----

  /** The name of a tracking file makes indexing raise: it has fewer than
      five '__'-fields, or a RunCycle field 4 without a field 5. */
  predicate TrackRaises(file: string)
  {
    var parts := Split(file, "__");
    |parts| < 5 || (parts[4] == "RunCycle" && |parts| < 6)
  }

  /** The status after the newest tracking file `file`: field 4 of its
      '__'-split decides, and any other value leaves `status` alone. */
  function TrackStatus(file: string, status: Option<string>): (r: Result<Option<string>>)
    ensures r.Failure? <==> TrackRaises(file)
  {
    var parts := Split(file, "__");
    if |parts| < 5 then Failure(IndexError)
    else if parts[4] == "RunCycle" then
      if |parts| < 6 then Failure(IndexError)
      else Success(Some(CyclePrefix + Split(parts[5], ".")[0]))
    else if parts[4] == "RunSetup" then Success(Some("Run starting"))
    else Success(status)
  }

  /** A '__'-field: no "__" inside and no '_' at its end, so the separator
      after it is the first one. */
  predicate Field(p: string)
  {
    !Contains(p, "__") && (|p| == 0 || p[|p| - 1] != '_')
  }

  /** A field followed by "__" splits off as the first part. */
  lemma FieldSplits(a: string, b: string)
    requires Field(a)
    ensures Split(a + "__" + b, "__") == [a] + Split(b, "__")
  {
    var s := a + "__" + b;
    forall i | 0 <= i < |a| ensures !OccursAt(s, "__", i) {
      assert s[i] == a[i];
      if i < |a| - 1 {
        assert s[i..i + 2] == a[i..i + 2];
        assert !OccursAt(a, "__", i);
      }
    }
    SplitAtSep(a, "__", b);
  }

  /** Fields joined with "__", the last one free of "__". */
  predicate Splittable(parts: seq<string>)
  {
    |parts| >= 1
    && (forall i :: 0 <= i < |parts| - 1 ==> Field(parts[i]))
    && !Contains(parts[|parts| - 1], "__")
  }

  /** Splitting a name made of '__'-joined fields gives the fields back. */
  lemma {:induction false} FieldsRoundTrip(parts: seq<string>)
    requires Splittable(parts)
    ensures Split(Join(parts, "__"), "__") == parts
    decreases |parts|
  {
    if |parts| == 1 {
      SplitWithoutSep(parts[0], "__");
    } else {
      var tail := parts[1..];
      assert Splittable(tail) by {
        forall i | 0 <= i < |tail| - 1 ensures Field(tail[i]) {
          assert tail[i] == parts[i + 1];
        }
      }
      FieldsRoundTrip(tail);
      assert Join(parts, "__") == parts[0] + "__" + Join(tail, "__");
      FieldSplits(parts[0], Join(tail, "__"));
      assert parts == [parts[0]] + tail;
    }
  }

  /** A RunCycle tracking file names the cycle: its field 5 up to the first
      '.' is what the status reports. */
  lemma CycleFromName(parts: seq<string>, n: string, ext: string, status: Option<string>)
    requires Splittable(parts) && |parts| >= 6
    requires parts[4] == "RunCycle" && parts[5] == n + "." + ext && '.' !in n
    ensures TrackStatus(Join(parts, "__"), status) == Success(Some(CyclePrefix + n))
  {
    FieldsRoundTrip(parts);
    SplitAtFirst(n, '.', ext);
  }

  /** A RunSetup tracking file means the run is starting. */
  lemma SetupFromName(parts: seq<string>, status: Option<string>)
    requires Splittable(parts) && |parts| >= 5 && parts[4] == "RunSetup"
    ensures TrackStatus(Join(parts, "__"), status) == Success(Some("Run starting"))
  {
    FieldsRoundTrip(parts);
  }

  /** Any other field 4 leaves the status as it was. */
  lemma OtherNameKeeps(parts: seq<string>, status: Option<string>)
    requires Splittable(parts) && |parts| >= 5 && parts[4] != "RunCycle" && parts[4] != "RunSetup"
    ensures TrackStatus(Join(parts, "__"), status) == Success(status)
  {
    FieldsRoundTrip(parts);
  }

  /** A name with fewer than five fields has no field 4, and indexing
      raises. */
  lemma ShortNameRaises(parts: seq<string>, status: Option<string>)
    requires Splittable(parts) && |parts| < 5
    ensures TrackStatus(Join(parts, "__"), status).Failure?
  {
    FieldsRoundTrip(parts);
  }

  // ---- The scan of the run folder ----

  /** The tracking-directory branch: the newest plain file of the tracking
      directory decides, max() raising when there is none. */
  function TrackStep(r: Report, path: string, trackDir: string, d: RunData): Result<Report>
  {
    if !Has(path, trackDir) then Success(r)
    else if d.trackFiles.None? then Failure(ScandirError)
    else
      var files := PlainFiles(d.trackFiles.value);
      if |files| == 0 then Failure(LatestRuns.EmptyMax)
      else
        var st := TrackStatus(files[MaxByMtime(files)].path, r.status);
        if st.Failure? then Failure(st.error) else Success(Report(st.value, r.error))
  }

  /** The NextSeq completion file: its CompletionStatus and ErrorDescription
      texts are taken verbatim, None included. */
  function NsStep(r: Report, path: string, d: RunData): Result<Report>
  {
    if !Has(path, NsCompletedFile) then Success(r)
    else if d.nsDoc.None? then Failure(ParseError)
    else Success(Report(d.nsDoc.value.completionStatus, d.nsDoc.value.errorDescription))
  }

  /** The MiSeq completion file: 'Run completed in <date> at <time>', with
      the time cut at its first '.'. */
  function MsStep(r: Report, path: string, d: RunData): Result<Report>
  {
    if !Has(path, MsCompletedFile) then Success(r)
    else if d.msTime.None? then Failure(ParseError)
    else
      var dt := Split(d.msTime.value, "T");
      if |dt| < 2 then Failure(IndexError)
      else Success(Report(Some("Run completed in " + dt[0] + " at " + Split(dt[1], ".")[0]), r.error))
  }

  /** One entry of os.scandir(last_run_dir): the three tests in order. */
  function ScanEntry(r: Report, path: string, trackDir: string, d: RunData): Result<Report>
  {
    var a := TrackStep(r, path, trackDir, d);
    if a.Failure? then a
    else
      var b := NsStep(a.value, path, d);
      if b.Failure? then b else MsStep(b.value, path, d)
  }

  /** The report after the first n entries, from ('Idle', ''). */
  function ScanUpTo(trackDir: string, d: RunData, n: nat): Result<Report>
    requires n <= |d.entries|
  {
    if n == 0 then Success(Report(Some("Idle"), Some("")))
    else
      var prev := ScanUpTo(trackDir, d, n - 1);
      if prev.Failure? then prev else ScanEntry(prev.value, d.entries[n - 1].path, trackDir, d)
  }

  /** The report after every entry. */
  function Scanned(trackDir: string, d: RunData): Result<Report>
  {
    ScanUpTo(trackDir, d, |d.entries|)
  }

  /** The loop over os.scandir(last_run_dir). */
  method ScanRun(trackDir: string, d: RunData) returns (scan: Result<Report>)
    ensures scan == Scanned(trackDir, d)
  {
    scan := Success(Report(Some("Idle"), Some("")));
    var n := 0;
    while n < |d.entries| && scan.Success?
      invariant 0 <= n <= |d.entries|
      invariant scan == ScanUpTo(trackDir, d, n)
      invariant scan.Failure? ==> scan == ScanUpTo(trackDir, d, |d.entries|)
    {
      scan := VisitEntry(scan.value, d.entries[n].path, trackDir, d);
      if scan.Failure? {
        ScanFailureSticks(trackDir, d, n + 1, |d.entries|);
      }
      n := n + 1;
    }
  }

  /** The body of the scan loop for one entry. */
  method VisitEntry(r: Report, path: string, trackDir: string, d: RunData) returns (next: Result<Report>)
    ensures next == ScanEntry(r, path, trackDir, d)
  {
    var status, error := r.status, r.error;
    if Has(path, trackDir) {
      if d.trackFiles.None? {
        return Failure(ScandirError);
      }
      var files := PlainFiles(d.trackFiles.value);
      if |files| == 0 {
        return Failure(LatestRuns.EmptyMax);
      }
      var parts := Split(files[MaxByMtime(files)].path, "__");
      if |parts| < 5 {
        return Failure(IndexError);
      }
      if parts[4] == "RunCycle" {
        if |parts| < 6 {
          return Failure(IndexError);
        }
        status := Some(CyclePrefix + Split(parts[5], ".")[0]);
      } else if parts[4] == "RunSetup" {
        status := Some("Run starting");
      }
    }
    if Has(path, NsCompletedFile) {
      if d.nsDoc.None? {
        return Failure(ParseError);
      }
      status := d.nsDoc.value.completionStatus;
      error := d.nsDoc.value.errorDescription;
    }
    if Has(path, MsCompletedFile) {
      if d.msTime.None? {
        return Failure(ParseError);
      }
      var dt := Split(d.msTime.value, "T");
      if |dt| < 2 {
        return Failure(IndexError);
      }
      status := Some("Run completed in " + dt[0] + " at " + Split(dt[1], ".")[0]);
    }
    next := Success(Report(status, error));
  }

  /** Once an entry has raised, later entries change nothing. */
  lemma {:induction false} ScanFailureSticks(trackDir: string, d: RunData, n: nat, m: nat)
    requires n <= m <= |d.entries| && ScanUpTo(trackDir, d, n).Failure?
    ensures ScanUpTo(trackDir, d, m) == ScanUpTo(trackDir, d, n)
    decreases m
  {
    if m > n {
      ScanFailureSticks(trackDir, d, n, m - 1);
    }
  }

  /** An entry whose path names none of the three things the scan looks
      for. */
  predicate Unmarked(path: string, trackDir: string)
  {
    !Contains(path, trackDir) && !Contains(path, NsCompletedFile) && !Contains(path, MsCompletedFile)
  }

  /** The status starts as Idle with no error, and a run folder none of
      whose entries is marked leaves it so. */
  lemma {:induction false} StartsIdle(trackDir: string, d: RunData, n: nat)
    requires n <= |d.entries|
    requires forall i :: 0 <= i < n ==> Unmarked(d.entries[i].path, trackDir)
    ensures ScanUpTo(trackDir, d, n) == Success(Report(Some("Idle"), Some("")))
  {
    if n > 0 {
      StartsIdle(trackDir, d, n - 1);
      var path := d.entries[n - 1].path;
      assert Unmarked(path, trackDir);
      HasMeans(path, trackDir);
      HasMeans(path, NsCompletedFile);
      HasMeans(path, MsCompletedFile);
    }
  }

  /** An entry that makes the scan raise. */
  predicate EntryRaises(path: string, trackDir: string, d: RunData)
  {
    (Contains(path, trackDir) &&
       (d.trackFiles.None? || |PlainFiles(d.trackFiles.value)| == 0
        || TrackRaises(PlainFiles(d.trackFiles.value)[MaxByMtime(PlainFiles(d.trackFiles.value))].path)))
    || (Contains(path, NsCompletedFile) && d.nsDoc.None?)
    || (Contains(path, MsCompletedFile) && (d.msTime.None? || !Contains(d.msTime.value, "T")))
  }

  /** One entry raises exactly on EntryRaises, whatever the report before
      it. */
  lemma EntryFails(r: Report, path: string, trackDir: string, d: RunData)
    ensures ScanEntry(r, path, trackDir, d).Failure? <==> EntryRaises(path, trackDir, d)
  {
    HasMeans(path, trackDir);
    HasMeans(path, NsCompletedFile);
    HasMeans(path, MsCompletedFile);
    if d.msTime.Some? {
      SplitParts(d.msTime.value, "T");
    }
  }

  /** The scan raises exactly when one of its entries does. */
  lemma {:induction false} ScanFails(trackDir: string, d: RunData, n: nat)
    requires n <= |d.entries|
    ensures ScanUpTo(trackDir, d, n).Failure? <==> exists i :: 0 <= i < n && EntryRaises(d.entries[i].path, trackDir, d)
  {
    if n > 0 {
      ScanFails(trackDir, d, n - 1);
      var prev := ScanUpTo(trackDir, d, n - 1);
      if prev.Failure? {
        var i :| 0 <= i < n - 1 && EntryRaises(d.entries[i].path, trackDir, d);
        assert 0 <= i < n && EntryRaises(d.entries[i].path, trackDir, d);
      } else {
        EntryFails(prev.value, d.entries[n - 1].path, trackDir, d);
        if EntryRaises(d.entries[n - 1].path, trackDir, d) {
          assert 0 <= n - 1 < n && EntryRaises(d.entries[n - 1].path, trackDir, d);
        } else {
          forall i | 0 <= i < n ensures !EntryRaises(d.entries[i].path, trackDir, d) {
            if i < n - 1 {
              assert !(0 <= i < n - 1 && EntryRaises(d.entries[i].path, trackDir, d));
            }
          }
        }
      }
    }
  }

  /** The NextSeq completion file overrides whatever the earlier entries
      said: its CompletionStatus text becomes the status verbatim and its
      ErrorDescription text the error, either of them possibly None. */
  lemma NsVerbatim(trackDir: string, d: RunData, n: nat)
    requires 0 < n <= |d.entries| && ScanUpTo(trackDir, d, n - 1).Success?
    requires Contains(d.entries[n - 1].path, NsCompletedFile) && d.nsDoc.Some?
    requires !Contains(d.entries[n - 1].path, trackDir) && !Contains(d.entries[n - 1].path, MsCompletedFile)
    ensures ScanUpTo(trackDir, d, n) == Success(Report(d.nsDoc.value.completionStatus, d.nsDoc.value.errorDescription))
  {
    var path := d.entries[n - 1].path;
    HasMeans(path, trackDir);
    HasMeans(path, NsCompletedFile);
    HasMeans(path, MsCompletedFile);
  }

  /** A MiSeq CompletionTime D 'T' HH:MM:SS.f reports 'Run completed in D at
      HH:MM:SS', keeping the error. */
  lemma MsCompleted(r: Report, path: string, trackDir: string, d: RunData, date: string, hms: string, f: string)
    requires Contains(path, MsCompletedFile) && !Contains(path, trackDir) && !Contains(path, NsCompletedFile)
    requires 'T' !in date && 'T' !in hms && 'T' !in f && '.' !in hms
    requires d.msTime == Some(date + "T" + hms + "." + f)
    ensures ScanEntry(r, path, trackDir, d) == Success(Report(Some("Run completed in " + date + " at " + hms), r.error))
  {
    HasMeans(path, trackDir);
    HasMeans(path, NsCompletedFile);
    HasMeans(path, MsCompletedFile);
    var rest := hms + "." + f;
    FirstCharAbsent(rest, "T");
    SplitWithoutSep(rest, "T");
    SplitAtFirst(date, 'T', rest);
    assert date + "T" + hms + "." + f == date + ['T'] + rest;
    SplitAtFirst(hms, '.', f);
  }

  // ---- The report of one run ----

  /** What is printed for a run: a mismatch between the last and the total
      cycle replaces the scanned status, and the error is always the
      scan's. */
  function Final(r: Report, lastCycle: int, totalCycle: int): (f: Report)
    ensures f.error == r.error
    ensures lastCycle == totalCycle ==> f == r
  {
    if lastCycle != totalCycle then Report(Some(RunningPrefix + IntToString(lastCycle)), r.error) else r
  }

  /** The report of one run, or the exception that escapes the scan. */
  function RunReport(trackDir: string, d: RunData): Result<Report>
  {
    var scan := Scanned(trackDir, d);
    if scan.Failure? then scan else Success(Final(scan.value, d.lastCycle, d.totalCycle))
  }

  /** One iteration of the loop over latest_runs. */
  method ProcessRun(trackDir: string, d: RunData) returns (out: Result<Report>)
    ensures out == RunReport(trackDir, d)
  {
    var scan := ScanRun(trackDir, d);
    if scan.Failure? {
      return scan;
    }
    var status, error := scan.value.status, scan.value.error;
    if d.lastCycle != d.totalCycle {
      status := Some(RunningPrefix + IntToString(d.lastCycle));
    }
    out := Success(Report(status, error));
  }

  /** The cycle override wins over every marker, and its text carries the
      last cycle in decimal, which reads back as that cycle. */
  lemma CycleOverride(trackDir: string, d: RunData)
    requires RunReport(trackDir, d).Success? && d.lastCycle != d.totalCycle && d.lastCycle >= 0
    ensures RunReport(trackDir, d).value.status == Some(RunningPrefix + NatToString(d.lastCycle))
    ensures var st := RunReport(trackDir, d).value.status.value;
      && StartsWith(st, RunningPrefix)
      && (forall i :: |RunningPrefix| <= i < |st| ==> IsDigit(st[i]))
      && ParseNat(st[|RunningPrefix|..]) == d.lastCycle
  {
    var st := RunReport(trackDir, d).value.status.value;
    assert st[|RunningPrefix|..] == NatToString(d.lastCycle);
    ParseNatToString(d.lastCycle);
  }

  /** The report fails exactly when an entry raises, and otherwise the
      status is the scan's unless the cycles disagree. */
  lemma RunReportSpec(trackDir: string, d: RunData)
    ensures RunReport(trackDir, d).Failure? <==>
      exists i :: 0 <= i < |d.entries| && EntryRaises(d.entries[i].path, trackDir, d)
    ensures RunReport(trackDir, d).Success? ==>
      var r, s := RunReport(trackDir, d).value, Scanned(trackDir, d).value;
      && r.error == s.error
      && (d.lastCycle == d.totalCycle ==> r.status == s.status)
  {
    ScanFails(trackDir, d, |d.entries|);
  }

  // ---- The loop over latest_runs ----

  /** Each entry of latest_runs with its run's report. */
  function Outcomes(runs: seq<Entry<string>>, trackDir: string, data: string -> RunData)
    : (r: seq<Entry<Result<Report>>>)
    ensures |r| == |runs| && Keys(r) == Keys(runs)
  {
    seq(|runs|, i requires 0 <= i < |runs| => Entry(runs[i].key, RunReport(trackDir, data(runs[i].value))))
  }

  /** The loop over latest_runs.items(); the reports are what it prints. */
  method ReportRuns(runs: seq<Entry<string>>, trackDir: string, data: string -> RunData)
    returns (reports: Result<seq<Entry<Report>>>)
    ensures reports == Assigned(Outcomes(runs, trackDir, data), |runs|)
  {
    ghost var outs := Outcomes(runs, trackDir, data);
    reports := Success([]);
    var n := 0;
    while n < |runs| && reports.Success?
      invariant 0 <= n <= |runs|
      invariant reports == Assigned(outs, n)
      invariant reports.Failure? ==> reports == Assigned(outs, |runs|)
    {
      reports := NextRun(runs, trackDir, data, n, reports.value);
      n := n + 1;
    }
  }

  /** One iteration: the reports after run n, which are already the loop's
      result when that run raised. */
  method NextRun(runs: seq<Entry<string>>, trackDir: string, data: string -> RunData, n: nat,
                 prev: seq<Entry<Report>>)
    returns (next: Result<seq<Entry<Report>>>)
    requires n < |runs| && Assigned(Outcomes(runs, trackDir, data), n) == Success(prev)
    ensures next == Assigned(Outcomes(runs, trackDir, data), n + 1)
    ensures next.Failure? ==> next == Assigned(Outcomes(runs, trackDir, data), |runs|)
  {
    var o := NextOutcome(runs, trackDir, data, n);
    next := AssignNext(Outcomes(runs, trackDir, data), n, prev, runs[n].key, o);
  }

  /** The body of one iteration. */
  method NextOutcome(runs: seq<Entry<string>>, trackDir: string, data: string -> RunData, n: nat)
    returns (o: Result<Report>)
    requires n < |runs|
    ensures Outcomes(runs, trackDir, data)[n] == Entry(runs[n].key, o)
  {
    o := ProcessRun(trackDir, data(runs[n].value));
  }

  /** get_latest_run_status(path, ns_tracking_files_dir, status): `top` is
      os.scandir(path), listing(dir) is os.scandir(dir) and data(dir) what
      run folder dir holds; the status argument is never read. */
  method GetLatestRunStatus(top: seq<DirEntry>, listing: string -> seq<DirEntry>, trackDir: string,
                            data: string -> RunData)
    returns (reports: Result<seq<Entry<Report>>>)
    ensures var latest := LatestRuns.Latest(top, listing);
      && (latest.Failure? ==> reports == Failure(latest.error))
      && (latest.Success? ==> reports == Assigned(Outcomes(latest.value, trackDir, data), |latest.value|))
  {
    var latest := LatestRuns.GetLatestRuns(top, listing);
    if latest.Failure? {
      return Failure(latest.error);
    }
    reports := ReportRuns(latest.value, trackDir, data);
  }

  /** When latest_runs resolves, the script fails exactly when some run's
      iteration raises, and otherwise prints one report per sequencer, in
      the order of latest_runs. */
  lemma OneReportPerRun(top: seq<DirEntry>, listing: string -> seq<DirEntry>, trackDir: string,
                        data: string -> RunData)
    requires LatestRuns.Latest(top, listing).Success?
    ensures var outs := Outcomes(LatestRuns.Latest(top, listing).value, trackDir, data);
      var r := Assigned(outs, |outs|);
      && (r.Failure? <==> exists i :: 0 <= i < |outs| && outs[i].value.Failure?)
      && (r.Success? ==> |r.value| == |outs|
                         && forall i :: 0 <= i < |outs| ==> outs[i].value.Success? && r.value[i] == Entry(outs[i].key, outs[i].value.value))
  {
    var seqDirs := RunFolders.Paths(Subdirs(top));
    LatestRuns.LatestSpec(seqDirs, listing, |seqDirs|);
    var runs := LatestRuns.Latest(top, listing).value;
    var outs := Outcomes(runs, trackDir, data);
    assert DistinctKeys(outs) by {
      forall i, j | 0 <= i < j < |outs| ensures outs[i].key != outs[j].key {
        assert Keys(outs)[i] == Keys(runs)[i] && Keys(outs)[j] == Keys(runs)[j];
      }
    }
    AssignedFails(outs, |outs|);
    if Assigned(outs, |outs|).Success? {
      AssignedValue(outs, |outs|);
    }
  }
}
