/** The filesystem as the status engine sees it: directory entries with the
    modification time os.path.getmtime would report, and formatted stamps. */
module Files {
  import opened Wrappers

  /** One entry of os.scandir: its full path, whether it is a directory and
      its modification time. */
  datatype DirEntry = DirEntry(path: string, isDir: bool, mtime: int)

  /** The text of datetime.fromtimestamp(t).strftime('%Y-%m-%d   %H:%M'):
      opaque, and never empty. */
  type Stamp = s: string | |s| > 0 witness "?"

  /** The nodes the status code reads from a RunCompletionStatus.xml:
      the texts of CompletionStatus and ErrorDescription (None for an
      element without text, as ElementTree reports it), with the file's
      formatted modification time. */
  datatype NsDoc = NsDoc(completionStatus: Option<string>, errorDescription: Option<string>, stamp: Stamp)

  /** What calling .lower() on a node text of None raises. */
  const NoneLower := "AttributeError: 'NoneType' object has no attribute 'lower'"

  /** What calling .split('T') on a node text of None raises. */
  const NoneSplit := "AttributeError: 'NoneType' object has no attribute 'split'"

  /** An XML file that is opened only when it exists: absent, present but
      raising when read (ET.parse rejects it, or a node it reads is missing,
      with the text of that exception), or read into the nodes it holds. */
  datatype XmlFile<T> = Absent | Unreadable(error: string) | Parsed(doc: T)

  /** The (status, completion date) pair check_completion_files returns. */
  datatype Completion = Completion(status: string, date: string)

  /** [e for e in entries if e.is_dir()], keeping scan order. */
  function Subdirs(entries: seq<DirEntry>): (r: seq<DirEntry>)
    ensures |r| <= |entries|
  {
    if |entries| == 0 then []
    else
      var last := entries[|entries| - 1];
      Subdirs(entries[..|entries| - 1]) + (if last.isDir then [last] else [])
  }

  /** The directories kept are exactly the entries that are directories. */
  lemma {:induction false} SubdirsMembers(entries: seq<DirEntry>)
    ensures forall e :: e in Subdirs(entries) <==> e in entries && e.isDir
  {
    if |entries| > 0 {
      SubdirsMembers(entries[..|entries| - 1]);
      assert entries == entries[..|entries| - 1] + [entries[|entries| - 1]];
    }
  }

  /** [e for e in entries if not e.is_dir()]: the plain files. */
  function PlainFiles(entries: seq<DirEntry>): (r: seq<DirEntry>)
    ensures |r| <= |entries|
    ensures forall e :: e in r <==> e in entries && !e.isDir
  {
    if |entries| == 0 then []
    else
      var last := entries[|entries| - 1];
      PlainFiles(entries[..|entries| - 1]) + (if last.isDir then [] else [last])
  }

  /** The index that Python's max(entries, key=getmtime) picks: the first
      entry with the largest modification time. */
  function MaxByMtime(entries: seq<DirEntry>): (k: nat)
    requires |entries| > 0
    ensures k < |entries|
  {
    if |entries| == 1 then 0
    else
      var k := MaxByMtime(entries[..|entries| - 1]);
      if entries[|entries| - 1].mtime > entries[k].mtime then |entries| - 1 else k
  }

  /** No entry is newer than the one picked, and every entry before it is
      strictly older. */
  lemma {:induction false} MaxByMtimeSpec(entries: seq<DirEntry>)
    requires |entries| > 0
    ensures var k := MaxByMtime(entries);
      && (forall j :: 0 <= j < |entries| ==> entries[j].mtime <= entries[k].mtime)
      && (forall j :: 0 <= j < k ==> entries[j].mtime < entries[k].mtime)
  {
    if |entries| > 1 {
      var init := entries[..|entries| - 1];
      MaxByMtimeSpec(init);
      forall j | 0 <= j < |entries| - 1 ensures entries[j] == init[j] { }
    }
  }
}
