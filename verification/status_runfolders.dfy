/** API/status/lib/runfolders.py: finding each sequencer's run root by
    walking the storage, and picking the newest run folder of each root.
    os.scandir becomes a list of directory entries, os.walk the paths it
    visits in order, and the regular expression a hand-written predicate. */
module RunFolders {
  import opened Wrappers
  import opened Text
  import opened Platform
  import opened Files
  import opened Dicts

  // ---- The run-folder pattern .*\d{6}_[\w\d]+_\d{4}_[\w\d]+ ----

  predicate IsAsciiDigit(c: char)
  {
    '0' <= c <= '9'
  }

  /** \w over ASCII: letters, digits and '_' (so [\w\d] is \w). */
  predicate IsWordChar(c: char)
  {
    'a' <= c <= 'z' || 'A' <= c <= 'Z' || IsAsciiDigit(c) || c == '_'
  }

  /** The pattern after its leading .*, with the six digits at i and the
      '_' before the four digits at j; the trailing [\w\d]+ needs only one
      character, since re.match does not anchor the end. */
  predicate PatternAt(s: string, i: int, j: int)
  {
    && 0 <= i && i + 7 < j && j + 6 < |s|
    && (forall k :: 0 <= k < i ==> s[k] != '\n')
    && (forall k :: i <= k < i + 6 ==> IsAsciiDigit(s[k]))
    && s[i + 6] == '_'
    && (forall k :: i + 7 <= k < j ==> IsWordChar(s[k]))
    && s[j] == '_'
    && (forall k :: j + 1 <= k < j + 5 ==> IsAsciiDigit(s[k]))
    && s[j + 5] == '_'
    && IsWordChar(s[j + 6])
  }

  /** regex.match(path) for the run-folder pattern: a match starting at the
      beginning of the path ('.' does not cross a newline). */
  predicate RunFolderMatch(s: string)
  {
    exists i, j :: 0 <= i < j < |s| && PatternAt(s, i, j)
  }

  /** '/'.join(path.split('/')[:-1]): the path minus its last component. */
  function Parent(path: string): string
  {
    var parts := Split(path, "/");
    Join(parts[..|parts| - 1], "/")
  }

  /** any([x in seq_dir for x in seq_list]) */
  predicate MentionsAny(dir: string, seqList: seq<string>)
  {
    exists i :: 0 <= i < |seqList| && Contains(dir, seqList[i])
  }

  // ---- get_sequencer_rootdir ----

  /** The roots after the walk of one sequencer directory visits `paths`:
      the walk stops at the cap, at a parent already listed, or at the first
      match, whose parent it appends. */
  function ScanWalk(roots: seq<string>, paths: seq<string>, seqNb: int): seq<string>
  {
    if |paths| == 0 then roots
    else
      var currentRoot := Parent(paths[0]);
      if |roots| >= seqNb then roots
      else if currentRoot in roots then roots
      else if RunFolderMatch(paths[0]) then roots + [currentRoot]
      else ScanWalk(roots, paths[1..], seqNb)
  }

  /** The roots after the first n top-level directories. */
  function RootsUpTo(dirs: seq<string>, walk: string -> seq<string>, seqList: seq<string>, seqNb: int, n: nat): seq<string>
    requires n <= |dirs|
  {
    if n == 0 then []
    else
      var roots := RootsUpTo(dirs, walk, seqList, seqNb, n - 1);
      if MentionsAny(dirs[n - 1], seqList) then ScanWalk(roots, walk(dirs[n - 1]), seqNb) else roots
  }

  /** The paths of the directory entries, in scan order. */
  function Paths(entries: seq<DirEntry>): (ps: seq<string>)
    ensures |ps| == |entries| && forall i :: 0 <= i < |entries| ==> ps[i] == entries[i].path
  {
    seq(|entries|, i requires 0 <= i < |entries| => entries[i].path)
  }

  /** get_sequencer_rootdir(root, seq_list, seq_nb): `top` is os.scandir(root)
      and walk(d) the paths os.walk(d) visits. */
  method GetSequencerRootdir(top: seq<DirEntry>, walk: string -> seq<string>, seqList: seq<string>, seqNb: int)
    returns (roots: seq<string>)
    ensures roots == RootsUpTo(Paths(Subdirs(top)), walk, seqList, seqNb, |Subdirs(top)|)
  {
    var dirs := Paths(Subdirs(top));
    roots := [];
    var n := 0;
    while n < |dirs|
      invariant 0 <= n <= |dirs|
      invariant roots == RootsUpTo(dirs, walk, seqList, seqNb, n)
    {
      var seqDir := dirs[n];
      if MentionsAny(seqDir, seqList) {
        roots := WalkOne(roots, walk(seqDir), seqNb);
      }
      n := n + 1;
    }
  }

  /** The inner loop over os.walk(seq_dir), with its three breaks. */
  method WalkOne(roots0: seq<string>, paths: seq<string>, seqNb: int) returns (roots: seq<string>)
    ensures roots == ScanWalk(roots0, paths, seqNb)
  {
    roots := roots0;
    var k := 0;
    while k < |paths|
      invariant 0 <= k <= |paths| && roots == roots0
      invariant ScanWalk(roots0, paths[k..], seqNb) == ScanWalk(roots0, paths, seqNb)
    {
      assert paths[k..][1..] == paths[k + 1..];
      var currentRoot := Parent(paths[k]);
      if |roots| >= seqNb { break; }
      if currentRoot in roots { break; }
      if RunFolderMatch(paths[k]) {
        roots := roots + [currentRoot];
        break;
      }
      k := k + 1;
    }
  }

  /** One walk adds nothing, or the parent of its first matching path,
      provided the cap is not reached and no earlier path's parent is
      already listed; and when those conditions hold it does add that
      parent. */
  lemma {:induction false} ScanWalkSpec(roots: seq<string>, paths: seq<string>, seqNb: int)
    ensures var r := ScanWalk(roots, paths, seqNb);
      && (|| r == roots
          || (&& |roots| < seqNb
              && exists k :: 0 <= k < |paths| && FirstMatch(roots, paths, k) && r == roots + [Parent(paths[k])]))
      && (forall k :: 0 <= k < |paths| && |roots| < seqNb && FirstMatch(roots, paths, k) ==> r == roots + [Parent(paths[k])])
  {
    if |paths| > 0 && |roots| < seqNb && Parent(paths[0]) !in roots {
      if RunFolderMatch(paths[0]) {
        assert FirstMatch(roots, paths, 0);
      } else {
        ScanWalkSpec(roots, paths[1..], seqNb);
        var r := ScanWalk(roots, paths[1..], seqNb);
        if r != roots {
          var k :| 0 <= k < |paths[1..]| && FirstMatch(roots, paths[1..], k) && r == roots + [Parent(paths[1..][k])];
          FirstMatchShift(roots, paths, k);
        }
      }
    }
    forall k | 0 <= k < |paths| && |roots| < seqNb && FirstMatch(roots, paths, k)
      ensures ScanWalk(roots, paths, seqNb) == roots + [Parent(paths[k])]
    {
      ScanWalkFinds(roots, paths, seqNb, k);
    }
  }

  /** Below the cap, a walk whose first match is paths[k] appends the parent
      of paths[k]: every earlier path neither matches nor has a listed
      parent, so none of them breaks the loop. */
  lemma {:induction false} ScanWalkFinds(roots: seq<string>, paths: seq<string>, seqNb: int, k: int)
    requires 0 <= k < |paths| && |roots| < seqNb && FirstMatch(roots, paths, k)
    ensures ScanWalk(roots, paths, seqNb) == roots + [Parent(paths[k])]
  {
    if k > 0 {
      assert !RunFolderMatch(paths[0]) && Parent(paths[0]) !in roots;
      forall j | 0 <= j < k - 1 ensures !RunFolderMatch(paths[1..][j]) && Parent(paths[1..][j]) !in roots {
        assert paths[1..][j] == paths[j + 1];
      }
      assert paths[1..][k - 1] == paths[k];
      ScanWalkFinds(roots, paths[1..], seqNb, k - 1);
    }
  }

  /** A first match after a path that neither matches nor has a listed
      parent is a first match of the longer walk. */
  lemma FirstMatchShift(roots: seq<string>, paths: seq<string>, k: int)
    requires 0 <= k < |paths| - 1
    requires !RunFolderMatch(paths[0]) && Parent(paths[0]) !in roots
    requires FirstMatch(roots, paths[1..], k)
    ensures FirstMatch(roots, paths, k + 1) && paths[1..][k] == paths[k + 1]
  {
    forall j | 0 <= j < k + 1 ensures !RunFolderMatch(paths[j]) && Parent(paths[j]) !in roots {
      if j > 0 {
        assert paths[j] == paths[1..][j - 1];
      }
    }
  }

  /** paths[k] is the first path of the walk that matches, and no path up to
      it has a parent already among the roots. */
  predicate FirstMatch(roots: seq<string>, paths: seq<string>, k: int)
    requires 0 <= k < |paths|
  {
    && RunFolderMatch(paths[k]) && Parent(paths[k]) !in roots
    && forall j :: 0 <= j < k ==> !RunFolderMatch(paths[j]) && Parent(paths[j]) !in roots
  }

  /** The roots never repeat, never exceed seq_nb, and each is the parent of
      a matching path walked from a directory that names a sequencer; and
      every directory that names a sequencer, whose walk meets a first match
      while the roots so far are below the cap, contributes that match's
      parent. */
  lemma {:induction false} RootsSpec(dirs: seq<string>, walk: string -> seq<string>, seqList: seq<string>, seqNb: int, n: nat)
    requires n <= |dirs|
    ensures var r := RootsUpTo(dirs, walk, seqList, seqNb, n);
      && NoDup(r)
      && |r| <= (if seqNb < 0 then 0 else seqNb)
      && (forall c :: c in r ==> exists i, k :: 0 <= i < n && 0 <= k < |walk(dirs[i])| && MentionsAny(dirs[i], seqList)
                                         && RunFolderMatch(walk(dirs[i])[k]) && c == Parent(walk(dirs[i])[k]))
      && (forall i, k :: && 0 <= i < n && 0 <= k < |walk(dirs[i])| && MentionsAny(dirs[i], seqList)
                         && |RootsUpTo(dirs, walk, seqList, seqNb, i)| < seqNb
                         && FirstMatch(RootsUpTo(dirs, walk, seqList, seqNb, i), walk(dirs[i]), k)
                         ==> Parent(walk(dirs[i])[k]) in r)
  {
    if n > 0 {
      RootsSpec(dirs, walk, seqList, seqNb, n - 1);
      var prev := RootsUpTo(dirs, walk, seqList, seqNb, n - 1);
      var r := RootsUpTo(dirs, walk, seqList, seqNb, n);
      if MentionsAny(dirs[n - 1], seqList) {
        var paths := walk(dirs[n - 1]);
        ScanWalkSpec(prev, paths, seqNb);
        if r != prev {
          var k :| 0 <= k < |paths| && FirstMatch(prev, paths, k) && r == prev + [Parent(paths[k])];
          forall c | c in r
            ensures exists i, k :: 0 <= i < n && 0 <= k < |walk(dirs[i])| && MentionsAny(dirs[i], seqList)
                                && RunFolderMatch(walk(dirs[i])[k]) && c == Parent(walk(dirs[i])[k])
          {
            if c !in prev {
              assert c == Parent(walk(dirs[n - 1])[k]);
            }
          }
        }
      }
      RootsGrowByOne(dirs, walk, seqList, seqNb, n);
    }
  }

  /** Each directory adds at most one root at the end, and a directory that
      names no sequencer adds none. */
  lemma RootsGrowByOne(dirs: seq<string>, walk: string -> seq<string>, seqList: seq<string>, seqNb: int, n: nat)
    requires 0 < n <= |dirs|
    ensures var prev := RootsUpTo(dirs, walk, seqList, seqNb, n - 1);
      var r := RootsUpTo(dirs, walk, seqList, seqNb, n);
      && prev <= r && |r| <= |prev| + 1
      && (!MentionsAny(dirs[n - 1], seqList) ==> r == prev)
  {
    var prev := RootsUpTo(dirs, walk, seqList, seqNb, n - 1);
    if MentionsAny(dirs[n - 1], seqList) {
      ScanWalkSpec(prev, walk(dirs[n - 1]), seqNb);
    }
  }

  // ---- get_latest_runfolder and get_sequencer_latest_run ----

  /** get_latest_runfolder(run_dirs): max by modification time, the first
      such entry; max() of an empty list raises. */
  function LatestRunfolder(runs: seq<DirEntry>): (r: Result<string>)
    ensures r.Failure? <==> |runs| == 0
  {
    if |runs| == 0 then Failure("ValueError: max() arg is an empty sequence")
    else Success(runs[MaxByMtime(runs)].path)
  }

  /** The folder picked has the largest modification time, and no earlier
      folder has the same. */
  lemma LatestRunfolderSpec(runs: seq<DirEntry>)
    requires |runs| > 0
    ensures exists k :: (&& 0 <= k < |runs| && LatestRunfolder(runs).value == runs[k].path
                         && (forall j :: 0 <= j < |runs| ==> runs[j].mtime <= runs[k].mtime)
                         && (forall j :: 0 <= j < k ==> runs[j].mtime < runs[k].mtime))
  {
    var k := MaxByMtime(runs);
    MaxByMtimeSpec(runs);
    assert LatestRunfolder(runs).value == runs[k].path;
  }

  /** seq_dir.split('/')[3], which raises on a path with fewer fields. */
  function SeqKey(dir: string): (r: Result<string>)
    ensures r.Failure? <==> |Split(dir, "/")| < 4
  {
    var parts := Split(dir, "/");
    if |parts| < 4 then Failure("IndexError: list index out of range") else Success(parts[3])
  }

  /** run.split('_')[-1].startswith(side) */
  predicate OnSide(run: DirEntry, side: char)
  {
    var parts := Split(run.path, "_");
    StartsWith(parts[|parts| - 1], [side])
  }

  /** [run for run in run_dirs if run.split('_')[-1].startswith(side)] */
  function Side(runs: seq<DirEntry>, side: char): (r: seq<DirEntry>)
    ensures |r| <= |runs|
  {
    if |runs| == 0 then []
    else
      var last := runs[|runs| - 1];
      Side(runs[..|runs| - 1], side) + (if OnSide(last, side) then [last] else [])
  }

  /** The runs kept for a side are exactly the runs on that side. */
  lemma {:induction false} SideMembers(runs: seq<DirEntry>, side: char)
    ensures forall e :: e in Side(runs, side) <==> e in runs && OnSide(e, side)
  {
    if |runs| > 0 {
      SideMembers(runs[..|runs| - 1], side);
      assert runs == runs[..|runs| - 1] + [runs[|runs| - 1]];
    }
  }

  /** latest_runs after one root whose run folders are `runs` and whose key
      is `name`: NovaSeq writes name_A and name_B for the sides that have runs,
      the others write name. */
  function LatestStep(acc: seq<Entry<string>>, name: string, runs: seq<DirEntry>): seq<Entry<string>>
    requires |runs| > 0
  {
    if IsNovaSeq(name) then
      var a := Side(runs, 'A');
      var b := Side(runs, 'B');
      var withA := if |a| > 0 then Put(acc, name + "_A", LatestRunfolder(a).value) else acc;
      if |b| > 0 then Put(withA, name + "_B", LatestRunfolder(b).value) else withA
    else Put(acc, name, LatestRunfolder(runs).value)
  }

  /** A root raises when it has run folders but no fourth '/'-field. */
  predicate Raises(seqDir: string, entries: seq<DirEntry>)
  {
    |Subdirs(entries)| > 0 && |Split(seqDir, "/")| < 4
  }

  /** latest_runs after one more root whose os.scandir is `entries`. */
  function LatestAfter(acc: Result<seq<Entry<string>>>, seqDir: string, entries: seq<DirEntry>): (r: Result<seq<Entry<string>>>)
    ensures acc.Failure? ==> r == acc
    ensures acc.Success? ==> (r.Failure? <==> Raises(seqDir, entries))
  {
    if acc.Failure? then acc
    else
      var runs := Subdirs(entries);
      if |runs| == 0 then acc
      else
        var key := SeqKey(seqDir);
        if key.Failure? then Failure(key.error) else Success(LatestStep(acc.value, key.value, runs))
  }

  /** latest_runs after the first n roots; listing(d) is os.scandir(d). */
  function LatestUpTo(rootdirs: seq<string>, listing: string -> seq<DirEntry>, n: nat): Result<seq<Entry<string>>>
    requires n <= |rootdirs|
  {
    if n == 0 then Success([])
    else LatestAfter(LatestUpTo(rootdirs, listing, n - 1), rootdirs[n - 1], listing(rootdirs[n - 1]))
  }

  /** get_sequencer_latest_run(rootdirs). */
  method GetSequencerLatestRun(rootdirs: seq<string>, listing: string -> seq<DirEntry>)
    returns (latest: Result<seq<Entry<string>>>)
    ensures latest == LatestUpTo(rootdirs, listing, |rootdirs|)
  {
    latest := Success([]);
    var n := 0;
    while n < |rootdirs| && latest.Success?
      invariant 0 <= n <= |rootdirs|
      invariant latest == LatestUpTo(rootdirs, listing, n)
      invariant latest.Failure? ==> latest == LatestUpTo(rootdirs, listing, |rootdirs|)
    {
      latest := NextRoot(rootdirs, listing, n, latest.value);
      n := n + 1;
    }
  }

  /** One iteration: the state after root n, which is already the call's
      result when that root raised. */
  method NextRoot(rootdirs: seq<string>, listing: string -> seq<DirEntry>, n: nat, latestRuns: seq<Entry<string>>)
    returns (next: Result<seq<Entry<string>>>)
    requires n < |rootdirs| && LatestUpTo(rootdirs, listing, n) == Success(latestRuns)
    ensures next == LatestUpTo(rootdirs, listing, n + 1)
    ensures next.Failure? ==> next == LatestUpTo(rootdirs, listing, |rootdirs|)
  {
    next := VisitRoot(latestRuns, rootdirs[n], listing(rootdirs[n]));
    if next.Failure? {
      FailureSticks(rootdirs, listing, n + 1, |rootdirs|);
    }
  }

  /** Once a root has raised, the call has failed with that error. */
  lemma {:induction false} FailureSticks(rootdirs: seq<string>, listing: string -> seq<DirEntry>, n: nat, m: nat)
    requires n <= m <= |rootdirs| && LatestUpTo(rootdirs, listing, n).Failure?
    ensures LatestUpTo(rootdirs, listing, m) == LatestUpTo(rootdirs, listing, n)
    decreases m
  {
    if m > n {
      FailureSticks(rootdirs, listing, n, m - 1);
    }
  }

  /** The loop body: a root without run folders is skipped, the others
      need a fourth '/'-field for their key. */
  method VisitRoot(latestRuns: seq<Entry<string>>, seqDir: string, entries: seq<DirEntry>)
    returns (next: Result<seq<Entry<string>>>)
    ensures next == LatestAfter(Success(latestRuns), seqDir, entries)
  {
    var runDirs := Subdirs(entries);
    next := Success(latestRuns);
    if |runDirs| > 0 {
      var key := SeqKey(seqDir);
      if key.Failure? {
        return Failure(key.error);
      }
      var updated := AddRoot(latestRuns, key.value, runDirs);
      next := Success(updated);
    }
  }

  /** The loop body for a root with run folders: the NovaSeq A/B split. */
  method AddRoot(latestRuns: seq<Entry<string>>, name: string, runDirs: seq<DirEntry>) returns (r: seq<Entry<string>>)
    requires |runDirs| > 0
    ensures r == LatestStep(latestRuns, name, runDirs)
  {
    r := latestRuns;
    if IsNovaSeq(name) {
      var aSide := Side(runDirs, 'A');
      var bSide := Side(runDirs, 'B');
      if |aSide| > 0 {
        r := Put(r, name + "_A", LatestRunfolder(aSide).value);
      }
      if |bSide| > 0 {
        r := Put(r, name + "_B", LatestRunfolder(bSide).value);
      }
    } else {
      r := Put(r, name, LatestRunfolder(runDirs).value);
    }
  }

  /** The call fails exactly when some root that has run folders has fewer
      than four '/'-fields. */
  lemma {:induction false} LatestFails(rootdirs: seq<string>, listing: string -> seq<DirEntry>, n: nat)
    requires n <= |rootdirs|
    ensures LatestUpTo(rootdirs, listing, n).Failure? <==>
      exists i :: 0 <= i < n && Raises(rootdirs[i], listing(rootdirs[i]))
  {
    if n > 0 {
      LatestFails(rootdirs, listing, n - 1);
      if LatestUpTo(rootdirs, listing, n - 1).Failure? {
        var i :| 0 <= i < n - 1 && Raises(rootdirs[i], listing(rootdirs[i]));
        assert 0 <= i < n && Raises(rootdirs[i], listing(rootdirs[i]));
      } else if Raises(rootdirs[n - 1], listing(rootdirs[n - 1])) {
        assert 0 <= n - 1 < n && Raises(rootdirs[n - 1], listing(rootdirs[n - 1]));
      } else {
        NoneRaises(rootdirs, listing, n);
      }
    }
  }

  /** No root among the first n raises when none of the first n - 1 does and
      root n - 1 does not. */
  lemma NoneRaises(rootdirs: seq<string>, listing: string -> seq<DirEntry>, n: nat)
    requires 0 < n <= |rootdirs|
    requires !exists i :: 0 <= i < n - 1 && Raises(rootdirs[i], listing(rootdirs[i]))
    requires !Raises(rootdirs[n - 1], listing(rootdirs[n - 1]))
    ensures !exists i :: 0 <= i < n && Raises(rootdirs[i], listing(rootdirs[i]))
  {
    forall i | 0 <= i < n ensures !Raises(rootdirs[i], listing(rootdirs[i])) {
      if i < n - 1 {
        assert !(0 <= i < n - 1 && Raises(rootdirs[i], listing(rootdirs[i])));
      }
    }
  }

  /** One root's effect on the dict: NovaSeq gets name_A / name_B exactly for
      the sides that have runs, each the newest run of that side, and no
      bare name key; any other sequencer gets its newest run under name. */
  lemma LatestStepSpec(acc: seq<Entry<string>>, name: string, runs: seq<DirEntry>)
    requires DistinctKeys(acc) && |runs| > 0
    ensures var r := LatestStep(acc, name, runs);
      var a := Side(runs, 'A');
      var b := Side(runs, 'B');
      && DistinctKeys(r)
      && (IsNovaSeq(name) ==>
            && ToMap(r) == (if |b| > 0 then (if |a| > 0 then ToMap(acc)[name + "_A" := LatestRunfolder(a).value] else ToMap(acc))[name + "_B" := LatestRunfolder(b).value]
                            else if |a| > 0 then ToMap(acc)[name + "_A" := LatestRunfolder(a).value] else ToMap(acc))
            && (name in ToMap(r) <==> name in ToMap(acc)))
      && (!IsNovaSeq(name) ==> ToMap(r) == ToMap(acc)[name := LatestRunfolder(runs).value])
  {
    if IsNovaSeq(name) {
      var a := Side(runs, 'A');
      var b := Side(runs, 'B');
      var withA := if |a| > 0 then Put(acc, name + "_A", LatestRunfolder(a).value) else acc;
      if |a| > 0 {
        PutSpec(acc, name + "_A", LatestRunfolder(a).value);
      }
      if |b| > 0 {
        PutSpec(withA, name + "_B", LatestRunfolder(b).value);
      }
      assert |name + "_A"| != |name| && |name + "_B"| != |name|;
    } else {
      PutSpec(acc, name, LatestRunfolder(runs).value);
    }
  }

  /** latest_runs is a dict: its keys never repeat. */
  lemma {:induction false} LatestDistinct(rootdirs: seq<string>, listing: string -> seq<DirEntry>, n: nat)
    requires n <= |rootdirs|
    ensures LatestUpTo(rootdirs, listing, n).Success? ==> DistinctKeys(LatestUpTo(rootdirs, listing, n).value)
  {
    if n > 0 {
      LatestDistinct(rootdirs, listing, n - 1);
      var acc := LatestUpTo(rootdirs, listing, n - 1);
      var runs := Subdirs(listing(rootdirs[n - 1]));
      if acc.Success? && |runs| > 0 && SeqKey(rootdirs[n - 1]).Success? {
        LatestStepSpec(acc.value, SeqKey(rootdirs[n - 1]).value, runs);
      }
    }
  }
}
