/** API/api/test_api/rt_methods/runfolders.py: the older run-folder
    resolution. The walk is the same as in API/status/lib/runfolders.py but
    with a fixed sequencer list and cap; the NovaSeq split writes both sides
    unconditionally, so a side without runs makes max() raise. */
module RtRunfolders {
  import opened Wrappers
  import opened Text
  import opened Platform
  import opened Files
  import opened Dicts
  import RunFolders

  /** seq_list: the directory names that mark a sequencer. */
  const SeqList: seq<string> := ["MiSeq", "NextSeq", "NovaSeq"]

  /** seq_nb: at most this many roots. */
  const SeqNb: int := 4

  /** The roots after the first n top-level directories, with the fixed list
      and cap. */
  function RootsUpTo(dirs: seq<string>, walk: string -> seq<string>, n: nat): seq<string>
    requires n <= |dirs|
  {
    RunFolders.RootsUpTo(dirs, walk, SeqList, SeqNb, n)
  }

  /** get_sequencer_rootdir(root): `top` is os.scandir(root) and walk(d) the
      paths os.walk(d) visits. */
  method GetSequencerRootdir(top: seq<DirEntry>, walk: string -> seq<string>) returns (roots: seq<string>)
    ensures roots == RootsUpTo(RunFolders.Paths(Subdirs(top)), walk, |Subdirs(top)|)
  {
    var dirs := RunFolders.Paths(Subdirs(top));
    roots := [];
    var n := 0;
    while n < |dirs|
      invariant 0 <= n <= |dirs|
      invariant roots == RootsUpTo(dirs, walk, n)
    {
      var seqDir := dirs[n];
      if RunFolders.MentionsAny(seqDir, SeqList) {
        roots := RunFolders.WalkOne(roots, walk(seqDir), SeqNb);
      }
      n := n + 1;
    }
  }

  /** At most four roots, none repeated, each the parent of a matching path
      walked from a directory whose path names MiSeq, NextSeq or NovaSeq;
      and each such directory whose walk meets a first match while fewer
      than four roots are listed contributes that match's parent. */
  lemma RootsBounded(dirs: seq<string>, walk: string -> seq<string>)
    ensures var r := RootsUpTo(dirs, walk, |dirs|);
      && NoDup(r) && |r| <= 4
      && (forall c :: c in r ==> exists i, k :: 0 <= i < |dirs| && 0 <= k < |walk(dirs[i])|
                                         && RunFolders.MentionsAny(dirs[i], SeqList)
                                         && RunFolders.RunFolderMatch(walk(dirs[i])[k])
                                         && c == RunFolders.Parent(walk(dirs[i])[k]))
      && (forall i, k :: && 0 <= i < |dirs| && 0 <= k < |walk(dirs[i])|
                         && RunFolders.MentionsAny(dirs[i], SeqList)
                         && |RootsUpTo(dirs, walk, i)| < 4
                         && RunFolders.FirstMatch(RootsUpTo(dirs, walk, i), walk(dirs[i]), k)
                         ==> RunFolders.Parent(walk(dirs[i])[k]) in r)
  {
    RunFolders.RootsSpec(dirs, walk, SeqList, SeqNb, |dirs|);
  }

  // ---- get_sequencer_latest_run ----

  /** latest_runs after one root whose run folders are `runs` and whose key
      is `name`: NovaSeq writes name_A then name_B, each needing runs on its
      side; the others write name. */
  function LatestStep(acc: seq<Entry<string>>, name: string, runs: seq<DirEntry>): (r: Result<seq<Entry<string>>>)
    requires |runs| > 0
    ensures r.Failure? <==> IsNovaSeq(name) && (|RunFolders.Side(runs, 'A')| == 0 || |RunFolders.Side(runs, 'B')| == 0)
  {
    if IsNovaSeq(name) then
      var a := RunFolders.LatestRunfolder(RunFolders.Side(runs, 'A'));
      var b := RunFolders.LatestRunfolder(RunFolders.Side(runs, 'B'));
      if a.Failure? then Failure(a.error)
      else if b.Failure? then Failure(b.error)
      else Success(Put(Put(acc, name + "_A", a.value), name + "_B", b.value))
    else Success(Put(acc, name, RunFolders.LatestRunfolder(runs).value))
  }

  /** A root makes the call raise: it has run folders and either lacks a
      fourth '/'-field or is a NovaSeq with an empty side. */
  predicate Raises(seqDir: string, entries: seq<DirEntry>)
  {
    var runs := Subdirs(entries);
    && |runs| > 0
    && (|Split(seqDir, "/")| < 4
        || (&& IsNovaSeq(RunFolders.SeqKey(seqDir).value)
            && (|RunFolders.Side(runs, 'A')| == 0 || |RunFolders.Side(runs, 'B')| == 0)))
  }

  /** latest_runs after one more root whose os.scandir is `entries`. */
  function LatestAfter(acc: Result<seq<Entry<string>>>, seqDir: string, entries: seq<DirEntry>): (r: Result<seq<Entry<string>>>)
    ensures acc.Failure? ==> r == acc
    ensures acc.Success? ==> (r.Failure? <==> Raises(seqDir, entries))
  {
    if acc.Failure? then acc
    else
      var runs := Subdirs(entries);
      if |runs| == 0 then acc
      else
        var key := RunFolders.SeqKey(seqDir);
        if key.Failure? then Failure(key.error) else LatestStep(acc.value, key.value, runs)
  }

  /** latest_runs after the first n roots; listing(d) is os.scandir(d). */
  function LatestUpTo(rootdirs: seq<string>, listing: string -> seq<DirEntry>, n: nat): Result<seq<Entry<string>>>
    requires n <= |rootdirs|
  {
    if n == 0 then Success([])
    else LatestAfter(LatestUpTo(rootdirs, listing, n - 1), rootdirs[n - 1], listing(rootdirs[n - 1]))
  }

  /** get_sequencer_latest_run(rootdirs). */
  method GetSequencerLatestRun(rootdirs: seq<string>, listing: string -> seq<DirEntry>)
    returns (latest: Result<seq<Entry<string>>>)
    ensures latest == LatestUpTo(rootdirs, listing, |rootdirs|)
  {
    latest := Success([]);
    var n := 0;
    while n < |rootdirs| && latest.Success?
      invariant 0 <= n <= |rootdirs|
      invariant latest == LatestUpTo(rootdirs, listing, n)
      invariant latest.Failure? ==> latest == LatestUpTo(rootdirs, listing, |rootdirs|)
    {
      latest := NextRoot(rootdirs, listing, n, latest.value);
      n := n + 1;
    }
  }

  /** One iteration: the state after root n, which is already the call's
      result when that root raised. */
  method NextRoot(rootdirs: seq<string>, listing: string -> seq<DirEntry>, n: nat, latestRuns: seq<Entry<string>>)
    returns (next: Result<seq<Entry<string>>>)
    requires n < |rootdirs| && LatestUpTo(rootdirs, listing, n) == Success(latestRuns)
    ensures next == LatestUpTo(rootdirs, listing, n + 1)
    ensures next.Failure? ==> next == LatestUpTo(rootdirs, listing, |rootdirs|)
  {
    next := VisitRoot(latestRuns, rootdirs[n], listing(rootdirs[n]));
    if next.Failure? {
      FailureSticks(rootdirs, listing, n + 1, |rootdirs|);
    }
  }

  /** The loop body: a root without run folders is skipped. */
  method VisitRoot(latestRuns: seq<Entry<string>>, seqDir: string, entries: seq<DirEntry>)
    returns (next: Result<seq<Entry<string>>>)
    ensures next == LatestAfter(Success(latestRuns), seqDir, entries)
  {
    var runDirs := Subdirs(entries);
    next := Success(latestRuns);
    if |runDirs| > 0 {
      var key := RunFolders.SeqKey(seqDir);
      if key.Failure? {
        return Failure(key.error);
      }
      next := AddRoot(latestRuns, key.value, runDirs);
    }
  }

  /** The loop body for a root with run folders: both NovaSeq sides are
      written, side A first. */
  method AddRoot(latestRuns: seq<Entry<string>>, name: string, runDirs: seq<DirEntry>)
    returns (r: Result<seq<Entry<string>>>)
    requires |runDirs| > 0
    ensures r == LatestStep(latestRuns, name, runDirs)
  {
    if IsNovaSeq(name) {
      var aSide := RunFolders.Side(runDirs, 'A');
      var bSide := RunFolders.Side(runDirs, 'B');
      var a := RunFolders.LatestRunfolder(aSide);
      if a.Failure? {
        return Failure(a.error);
      }
      var withA := Put(latestRuns, name + "_A", a.value);
      var b := RunFolders.LatestRunfolder(bSide);
      if b.Failure? {
        return Failure(b.error);
      }
      r := Success(Put(withA, name + "_B", b.value));
    } else {
      r := Success(Put(latestRuns, name, RunFolders.LatestRunfolder(runDirs).value));
    }
  }

  /** Once a root has raised, the call has failed with that error. */
  lemma {:induction false} FailureSticks(rootdirs: seq<string>, listing: string -> seq<DirEntry>, n: nat, m: nat)
    requires n <= m <= |rootdirs| && LatestUpTo(rootdirs, listing, n).Failure?
    ensures LatestUpTo(rootdirs, listing, m) == LatestUpTo(rootdirs, listing, n)
    decreases m
  {
    if m > n {
      FailureSticks(rootdirs, listing, n, m - 1);
    }
  }

  /** The call fails exactly when some root raises. */
  lemma {:induction false} LatestFails(rootdirs: seq<string>, listing: string -> seq<DirEntry>, n: nat)
    requires n <= |rootdirs|
    ensures LatestUpTo(rootdirs, listing, n).Failure? <==>
      exists i :: 0 <= i < n && Raises(rootdirs[i], listing(rootdirs[i]))
  {
    if n > 0 {
      LatestFails(rootdirs, listing, n - 1);
      if LatestUpTo(rootdirs, listing, n - 1).Failure? {
        var i :| 0 <= i < n - 1 && Raises(rootdirs[i], listing(rootdirs[i]));
        assert 0 <= i < n && Raises(rootdirs[i], listing(rootdirs[i]));
      } else if Raises(rootdirs[n - 1], listing(rootdirs[n - 1])) {
        assert 0 <= n - 1 < n && Raises(rootdirs[n - 1], listing(rootdirs[n - 1]));
      } else {
        NoneRaises(rootdirs, listing, n);
      }
    }
  }

  /** No root among the first n raises when none of the first n - 1 does and
      root n - 1 does not. */
  lemma NoneRaises(rootdirs: seq<string>, listing: string -> seq<DirEntry>, n: nat)
    requires 0 < n <= |rootdirs|
    requires !exists i :: 0 <= i < n - 1 && Raises(rootdirs[i], listing(rootdirs[i]))
    requires !Raises(rootdirs[n - 1], listing(rootdirs[n - 1]))
    ensures !exists i :: 0 <= i < n && Raises(rootdirs[i], listing(rootdirs[i]))
  {
    forall i | 0 <= i < n ensures !Raises(rootdirs[i], listing(rootdirs[i])) {
      if i < n - 1 {
        assert !(0 <= i < n - 1 && Raises(rootdirs[i], listing(rootdirs[i])));
      }
    }
  }

  /** A NovaSeq root that does not raise gets both name_A and name_B, each
      the newest run of its side, and no bare name key; any other sequencer
      gets its newest run under name. */
  lemma LatestStepSpec(acc: seq<Entry<string>>, name: string, runs: seq<DirEntry>)
    requires DistinctKeys(acc) && |runs| > 0
    ensures var r := LatestStep(acc, name, runs);
      && (r.Success? ==> DistinctKeys(r.value))
      && (IsNovaSeq(name) && r.Success? ==>
            && ToMap(r.value) == ToMap(acc)[name + "_A" := RunFolders.LatestRunfolder(RunFolders.Side(runs, 'A')).value]
                                           [name + "_B" := RunFolders.LatestRunfolder(RunFolders.Side(runs, 'B')).value]
            && (name in ToMap(r.value) <==> name in ToMap(acc)))
      && (!IsNovaSeq(name) ==> ToMap(r.value) == ToMap(acc)[name := RunFolders.LatestRunfolder(runs).value])
  {
    var r := LatestStep(acc, name, runs);
    if IsNovaSeq(name) {
      if r.Success? {
        var a := RunFolders.LatestRunfolder(RunFolders.Side(runs, 'A')).value;
        var b := RunFolders.LatestRunfolder(RunFolders.Side(runs, 'B')).value;
        PutSpec(acc, name + "_A", a);
        PutSpec(Put(acc, name + "_A", a), name + "_B", b);
        assert |name + "_A"| != |name| && |name + "_B"| != |name|;
      }
    } else {
      PutSpec(acc, name, RunFolders.LatestRunfolder(runs).value);
    }
  }

  /** latest_runs is a dict: its keys never repeat. */
  lemma {:induction false} LatestDistinct(rootdirs: seq<string>, listing: string -> seq<DirEntry>, n: nat)
    requires n <= |rootdirs|
    ensures LatestUpTo(rootdirs, listing, n).Success? ==> DistinctKeys(LatestUpTo(rootdirs, listing, n).value)
  {
    if n > 0 {
      LatestDistinct(rootdirs, listing, n - 1);
      var acc := LatestUpTo(rootdirs, listing, n - 1);
      var runs := Subdirs(listing(rootdirs[n - 1]));
      if acc.Success? && |runs| > 0 && RunFolders.SeqKey(rootdirs[n - 1]).Success? {
        LatestStepSpec(acc.value, RunFolders.SeqKey(rootdirs[n - 1]).value, runs);
      }
    }
  }
}
