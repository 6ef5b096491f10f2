/** API/api/test_api/rt_methods/runfiles.py: the older
    check_completion_files, which also reads NextSeq's
    RunCompletionStatus.xml and MiSeq's CompletedJobInfo.xml. */
module RtRunfiles {
  import opened Wrappers
  import opened Text
  import opened Platform
  import opened Files
  import opened CompletionTime

  /** What the run folder holds: RunCompletionStatus.xml (its
      CompletionStatus text and modification time), CompletedJobInfo.xml
      (the text of its CompletionTime, None for an element without text),
      and the modification time of RTAComplete.txt, None when that file
      does not exist. */
  datatype Markers = Markers(runCompletion: XmlFile<NsDoc>, completedJobInfo: XmlFile<Option<string>>,
                             rtaComplete: Option<Stamp>)

  /** The NextSeq step: the status changes only on CompletedAsPlanned, the
      date is set whenever the file exists; a file that cannot be read
      raises, and a CompletionStatus without text makes .lower() raise. */
  function NextSeqStep(seqName: string, m: Markers, status: string): Result<Completion>
  {
    if !IsNextSeq(seqName) || m.runCompletion.Absent? then Success(Completion(status, ""))
    else if m.runCompletion.Unreadable? then Failure(m.runCompletion.error)
    else
      var doc := m.runCompletion.doc;
      if doc.completionStatus.None? then Failure(NoneLower)
      else
        Success(Completion(if Contains(Lower(doc.completionStatus.value), "completedasplanned") then "Completed on" else status,
                           doc.stamp))
  }

  /** A RunCompletionStatus.xml whose CompletionStatus has no text, read on
      a NextSeq. */
  predicate NoStatusText(seqName: string, m: Markers)
  {
    IsNextSeq(seqName) && m.runCompletion.Parsed? && m.runCompletion.doc.completionStatus.None?
  }

  /** The NextSeq branch raises: its file cannot be read, or has no
      CompletionStatus text. */
  predicate NextSeqRaises(seqName: string, m: Markers)
  {
    IsNextSeq(seqName) && (m.runCompletion.Unreadable? || NoStatusText(seqName, m))
  }

  /** The MiSeq branch raises: CompletedJobInfo.xml cannot be read, its
      CompletionTime has no text, or that text has no 'T' for dt[1]. */
  predicate MiSeqRaises(seqName: string, m: Markers)
  {
    IsMiSeq(seqName) &&
      (m.completedJobInfo.Unreadable? ||
       (m.completedJobInfo.Parsed? &&
        (m.completedJobInfo.doc.None? || !Contains(m.completedJobInfo.doc.value, "T"))))
  }

  /** The MiSeq step: the trimmed CompletionTime, else the time of
      RTAComplete.txt; an unreadable file, a missing text or a text
      without 'T' raises. */
  function MiSeqStep(seqName: string, m: Markers, c: Completion): Result<Completion>
  {
    if !IsMiSeq(seqName) then Success(c)
    else
      match m.completedJobInfo
      case Unreadable(e) => Failure(e)
      case Parsed(text) =>
        if text.None? then Failure(NoneSplit)
        else
          var t := TrimCompletionTime(text.value);
          if t.Failure? then Failure(t.error) else Success(Completion(c.status, t.value))
      case Absent =>
        if m.rtaComplete.Some? then Success(Completion(c.status, m.rtaComplete.value)) else Success(c)
  }

  /** The completion date a call that does not raise ends with: the last
      one written, NovaSeq's RTAComplete.txt over MiSeq's CompletedJobInfo.xml
      (or else its RTAComplete.txt) over NextSeq's RunCompletionStatus.xml;
      empty when none was written. */
  function WrittenDate(seqName: string, m: Markers): string
  {
    if IsNovaSeq(seqName) && m.rtaComplete.Some? then m.rtaComplete.value
    else if IsMiSeq(seqName) && m.completedJobInfo.Parsed? && m.completedJobInfo.doc.Some?
            && Contains(m.completedJobInfo.doc.value, "T")
      then TrimCompletionTime(m.completedJobInfo.doc.value).value
    else if IsMiSeq(seqName) && m.completedJobInfo.Absent? && m.rtaComplete.Some? then m.rtaComplete.value
    else if IsNextSeq(seqName) && m.runCompletion.Parsed? then m.runCompletion.doc.stamp
    else ""
  }

  /** check_completion_files(seq, last_rundir, status). */
  function CheckCompletionFiles(seqName: string, m: Markers, status: string): (r: Result<Completion>)
    ensures r.Failure? <==> NextSeqRaises(seqName, m) || MiSeqRaises(seqName, m)
    ensures NextSeqRaises(seqName, m) && m.runCompletion.Unreadable? ==> r == Failure(m.runCompletion.error)
    ensures NoStatusText(seqName, m) ==> r == Failure(NoneLower)
    ensures !NextSeqRaises(seqName, m) && IsMiSeq(seqName) && m.completedJobInfo.Unreadable? ==>
      r == Failure(m.completedJobInfo.error)
    ensures !NextSeqRaises(seqName, m) && IsMiSeq(seqName) && m.completedJobInfo == Parsed(None) ==>
      r == Failure(NoneSplit)
    ensures r.Success? ==> r.value.status == "Completed on" || r.value.status == status
    ensures r.Success? ==> (r.value.date != "" ==> r.value.status == "Completed on")
    ensures r.Success? && r.value.date == "" ==> r.value.status == status
    ensures r.Success? ==> r.value.date == WrittenDate(seqName, m)
  {
    var ns := NextSeqStep(seqName, m, status);
    if ns.Failure? then ns
    else
      var ms := MiSeqStep(seqName, m, ns.value);
      if ms.Failure? then ms
      else
        var c := if IsNovaSeq(seqName) && m.rtaComplete.Some? then Completion(ms.value.status, m.rtaComplete.value) else ms.value;
        Success(if c.date != "" then Completion("Completed on", c.date) else c)
  }

  /** A completion date is set exactly when one of the name's platforms
      found its marker. */
  lemma CompletionDateSet(seqName: string, m: Markers, status: string)
    requires CheckCompletionFiles(seqName, m, status).Success?
    ensures CheckCompletionFiles(seqName, m, status).value.date != "" <==>
      (IsNextSeq(seqName) && m.runCompletion.Parsed?) ||
      (IsMiSeq(seqName) && (m.completedJobInfo.Parsed? || m.rtaComplete.Some?)) ||
      (IsNovaSeq(seqName) && m.rtaComplete.Some?)
  {
  }

  /** NextSeq: RunCompletionStatus.xml alone gives Completed on, whatever
      its CompletionStatus says, because its date is always set. */
  lemma NextSeqFileCompletes(seqName: string, m: Markers, status: string)
    requires IsNextSeq(seqName) && !IsMiSeq(seqName) && m.runCompletion.Parsed?
    requires m.runCompletion.doc.completionStatus.Some?
    ensures CheckCompletionFiles(seqName, m, status).Success?
    ensures CheckCompletionFiles(seqName, m, status).value.status == "Completed on"
  {
  }

  /** MiSeq: CompletedJobInfo.xml is preferred to RTAComplete.txt, and an ISO
      CompletionTime D 'T' HH:MM:SS.f becomes D, three spaces, HH:MM. */
  lemma MiSeqJobInfoDate(seqName: string, rta: Option<Stamp>, status: string,
                         d: string, hh: string, mm: string, ss: string, f: string)
    requires IsMiSeq(seqName) && !IsNovaSeq(seqName)
    requires 'T' !in d && 'T' !in hh && 'T' !in mm && 'T' !in ss && 'T' !in f
    requires ':' !in hh && ':' !in mm && ':' !in ss
    requires '.' !in hh && '.' !in mm && '.' !in ss
    ensures var m := Markers(Absent, Parsed(Some(d + "T" + hh + ":" + mm + ":" + ss + "." + f)), rta);
      CheckCompletionFiles(seqName, m, status) == Success(Completion("Completed on", d + "   " + hh + ":" + mm))
  {
    TrimIsoTime(d, hh, mm, ss, f);
    var date := d + "   " + hh + ":" + mm;
    assert date[|d|] == ' ';
  }

  /** MiSeq: an existing CompletedJobInfo.xml that cannot be read, or whose
      CompletionTime has no text, raises, even when RTAComplete.txt would
      have given a date. */
  lemma MiSeqJobInfoRaises(seqName: string, m: Markers, status: string)
    requires IsMiSeq(seqName) && !IsNextSeq(seqName)
    requires m.completedJobInfo.Unreadable? || m.completedJobInfo == Parsed(None)
    ensures CheckCompletionFiles(seqName, m, status).Failure?
    ensures CheckCompletionFiles(seqName, m, status)
      == Failure(if m.completedJobInfo.Unreadable? then m.completedJobInfo.error else NoneSplit)
  {
  }

  /** NovaSeq: RTAComplete.txt gives Completed on with its time, unless a
      name that is also a NextSeq name has already raised on its
      RunCompletionStatus.xml. */
  lemma NovaSeqRtaCompletes(seqName: string, m: Markers, status: string)
    requires IsNovaSeq(seqName) && !IsMiSeq(seqName) && m.rtaComplete.Some?
    ensures !NextSeqRaises(seqName, m) ==>
      CheckCompletionFiles(seqName, m, status) == Success(Completion("Completed on", m.rtaComplete.value))
  {
  }

  /** A name of none of the three platforms keeps its status, with no date. */
  lemma UnknownPlatform(seqName: string, m: Markers, status: string)
    requires !IsNextSeq(seqName) && !IsMiSeq(seqName) && !IsNovaSeq(seqName)
    ensures CheckCompletionFiles(seqName, m, status) == Success(Completion(status, ""))
  {
  }
}
