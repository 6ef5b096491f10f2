/** The latest_runs dictionary that API/api/functions/real_time_status.py
    and running.py both build with the same five lines: every top-level
    directory of the storage root whose path does not contain LOGS is a
    sequencer directory, keyed by its last '/'-field, and its newest
    subdirectory is its latest run. */
module LatestRuns {
  import opened Wrappers
  import opened Text
  import opened Files
  import opened Dicts
  import RunFolders

  const EmptyMax := "ValueError: max() arg is an empty sequence"

  /** seq_dir.split('/')[-1]. */
  function SeqName(seqDir: string): string
  {
    var parts := Split(seqDir, "/");
    parts[|parts| - 1]
  }

  /** 'LOGS' not in seq_dir: the directory is a sequencer directory. */
  predicate Visited(seqDir: string)
  {
    !Has(seqDir, "LOGS")
  }

  /** max(run_dirs, key=os.path.getmtime) for a non-empty run_dirs. */
  function Newest(runDirs: seq<DirEntry>): string
    requires |runDirs| > 0
  {
    runDirs[MaxByMtime(runDirs)].path
  }

  /** A sequencer directory without subdirectories makes max() raise. */
  predicate Raises(seqDir: string, entries: seq<DirEntry>)
  {
    Visited(seqDir) && |Subdirs(entries)| == 0
  }

  /** latest_runs after one more top-level directory whose os.scandir is
      `entries`. */
  function LatestAfter(acc: seq<Entry<string>>, seqDir: string, entries: seq<DirEntry>): Result<seq<Entry<string>>>
  {
    if !Visited(seqDir) then Success(acc)
    else
      var runDirs := Subdirs(entries);
      if |runDirs| == 0 then Failure(EmptyMax) else Success(Put(acc, SeqName(seqDir), Newest(runDirs)))
  }

  /** latest_runs after the first n top-level directories; listing(d) is
      os.scandir(d). */
  function LatestUpTo(seqDirs: seq<string>, listing: string -> seq<DirEntry>, n: nat): Result<seq<Entry<string>>>
    requires n <= |seqDirs|
  {
    if n == 0 then Success([])
    else
      var prev := LatestUpTo(seqDirs, listing, n - 1);
      if prev.Failure? then prev else LatestAfter(prev.value, seqDirs[n - 1], listing(seqDirs[n - 1]))
  }

  /** The latest_runs of a storage root whose os.scandir is `top`. */
  function Latest(top: seq<DirEntry>, listing: string -> seq<DirEntry>): Result<seq<Entry<string>>>
  {
    var seqDirs := RunFolders.Paths(Subdirs(top));
    LatestUpTo(seqDirs, listing, |seqDirs|)
  }

  /** The loop that fills latest_runs. */
  method GetLatestRuns(top: seq<DirEntry>, listing: string -> seq<DirEntry>) returns (latest: Result<seq<Entry<string>>>)
    ensures latest == Latest(top, listing)
  {
    var seqDirs := RunFolders.Paths(Subdirs(top));
    latest := Success([]);
    var n := 0;
    while n < |seqDirs| && latest.Success?
      invariant 0 <= n <= |seqDirs|
      invariant latest == LatestUpTo(seqDirs, listing, n)
      invariant latest.Failure? ==> latest == LatestUpTo(seqDirs, listing, |seqDirs|)
    {
      latest := VisitDir(latest.value, seqDirs[n], listing);
      if latest.Failure? {
        FailureSticks(seqDirs, listing, n + 1, |seqDirs|);
      }
      n := n + 1;
    }
  }

  /** One iteration: a LOGS directory is skipped, any other one makes max()
      pick its newest subdirectory, or raise when there is none. */
  method VisitDir(acc: seq<Entry<string>>, seqDir: string, listing: string -> seq<DirEntry>)
    returns (next: Result<seq<Entry<string>>>)
    ensures next == LatestAfter(acc, seqDir, listing(seqDir))
  {
    next := Success(acc);
    if Visited(seqDir) {
      var runDirs := Subdirs(listing(seqDir));
      if |runDirs| == 0 {
        next := Failure(EmptyMax);
      } else {
        var lastRun := runDirs[MaxByMtime(runDirs)].path;
        next := Success(Put(acc, SeqName(seqDir), lastRun));
      }
    }
  }

  /** Once max() has raised, later directories change nothing. */
  lemma {:induction false} FailureSticks(seqDirs: seq<string>, listing: string -> seq<DirEntry>, n: nat, m: nat)
    requires n <= m <= |seqDirs| && LatestUpTo(seqDirs, listing, n).Failure?
    ensures LatestUpTo(seqDirs, listing, m) == LatestUpTo(seqDirs, listing, n)
    decreases m
  {
    if m > n {
      FailureSticks(seqDirs, listing, n, m - 1);
    }
  }

  /** The scan fails exactly when some sequencer directory has no
      subdirectory. */
  lemma {:induction false} LatestFails(seqDirs: seq<string>, listing: string -> seq<DirEntry>, n: nat)
    requires n <= |seqDirs|
    ensures LatestUpTo(seqDirs, listing, n).Failure? <==>
      exists i :: 0 <= i < n && Raises(seqDirs[i], listing(seqDirs[i]))
  {
    if n > 0 {
      LatestFails(seqDirs, listing, n - 1);
      if LatestUpTo(seqDirs, listing, n - 1).Failure? {
        var i :| 0 <= i < n - 1 && Raises(seqDirs[i], listing(seqDirs[i]));
        assert 0 <= i < n && Raises(seqDirs[i], listing(seqDirs[i]));
      } else if Raises(seqDirs[n - 1], listing(seqDirs[n - 1])) {
        assert 0 <= n - 1 < n && Raises(seqDirs[n - 1], listing(seqDirs[n - 1]));
      } else {
        forall i | 0 <= i < n ensures !Raises(seqDirs[i], listing(seqDirs[i])) {
          if i < n - 1 {
            assert !(0 <= i < n - 1 && Raises(seqDirs[i], listing(seqDirs[i])));
          }
        }
      }
    }
  }

  /** Directory i, when it is a sequencer directory, has its key in m. */
  predicate Listed(seqDirs: seq<string>, i: int, m: map<string, string>)
    requires 0 <= i < |seqDirs|
  {
    Visited(seqDirs[i]) ==> SeqName(seqDirs[i]) in m
  }

  /** Directory i is a sequencer directory whose key is k and whose newest
      run is v. */
  predicate Provides(seqDirs: seq<string>, listing: string -> seq<DirEntry>, i: int, k: string, v: string)
    requires 0 <= i < |seqDirs|
  {
    var runDirs := Subdirs(listing(seqDirs[i]));
    Visited(seqDirs[i]) && |runDirs| > 0 && SeqName(seqDirs[i]) == k && Newest(runDirs) == v
  }

  /** When the scan succeeds, latest_runs is a dict that has a key for every
      sequencer directory and no other, and each key holds the newest run of
      a sequencer directory of that name: LOGS directories contribute
      nothing. */
  lemma {:induction false} LatestSpec(seqDirs: seq<string>, listing: string -> seq<DirEntry>, n: nat)
    requires n <= |seqDirs| && LatestUpTo(seqDirs, listing, n).Success?
    ensures var m := ToMap(LatestUpTo(seqDirs, listing, n).value);
      && DistinctKeys(LatestUpTo(seqDirs, listing, n).value)
      && (forall i :: 0 <= i < n ==> Listed(seqDirs, i, m))
      && (forall k :: k in m ==> exists i :: 0 <= i < n && Provides(seqDirs, listing, i, k, m[k]))
  {
    if n > 0 {
      LatestSpec(seqDirs, listing, n - 1);
      var acc := LatestUpTo(seqDirs, listing, n - 1).value;
      var seqDir := seqDirs[n - 1];
      if Visited(seqDir) {
        var k := SeqName(seqDir);
        var v := Newest(Subdirs(listing(seqDir)));
        PutSpec(acc, k, v);
        PutStep(seqDirs, listing, n, acc, k, v);
      }
    }
  }

  /** Adding the entry of directory n - 1 keeps the membership and origin
      facts of the first n - 1 directories. */
  lemma PutStep(seqDirs: seq<string>, listing: string -> seq<DirEntry>, n: nat, acc: seq<Entry<string>>, k: string, v: string)
    requires 0 < n <= |seqDirs| && Provides(seqDirs, listing, n - 1, k, v)
    requires forall i :: 0 <= i < n - 1 ==> Listed(seqDirs, i, ToMap(acc))
    requires forall k' :: k' in ToMap(acc) ==> exists i :: 0 <= i < n - 1 && Provides(seqDirs, listing, i, k', ToMap(acc)[k'])
    ensures var m := ToMap(acc)[k := v];
      && (forall i :: 0 <= i < n ==> Listed(seqDirs, i, m))
      && (forall k' :: k' in m ==> exists i :: 0 <= i < n && Provides(seqDirs, listing, i, k', m[k']))
  {
    var m := ToMap(acc)[k := v];
    forall i | 0 <= i < n ensures Listed(seqDirs, i, m) {
      if i < n - 1 {
        assert Listed(seqDirs, i, ToMap(acc));
      }
    }
    forall k' | k' in m ensures exists i :: 0 <= i < n && Provides(seqDirs, listing, i, k', m[k']) {
      if k' == k {
        assert Provides(seqDirs, listing, n - 1, k', m[k']);
      } else {
        var i :| 0 <= i < n - 1 && Provides(seqDirs, listing, i, k', ToMap(acc)[k']);
        assert Provides(seqDirs, listing, i, k', m[k']);
      }
    }
  }

  /** The run picked for a sequencer directory is one of its subdirectories
      and none is newer. */
  lemma NewestSpec(runDirs: seq<DirEntry>)
    requires |runDirs| > 0
    ensures exists j :: 0 <= j < |runDirs| && runDirs[j].path == Newest(runDirs)
                        && forall i :: 0 <= i < |runDirs| ==> runDirs[i].mtime <= runDirs[j].mtime
  {
    MaxByMtimeSpec(runDirs);
    var j := MaxByMtime(runDirs);
    assert runDirs[j].path == Newest(runDirs);
  }
}
