/** API/status/lib/runfiles.py: check_completion_files, which reads the
    completion markers of a run folder. The modification times of
    CopyComplete.txt and RTAComplete.txt come in already formatted, None
    when the file does not exist. */
module RunFiles {
  import opened Wrappers
  import opened Platform
  import opened Files

  /** check_completion_files(seq, last_rundir, status): MiSeq completes on
      RTAComplete.txt, the others on CopyComplete.txt; the others show
      Finalizing while only RTAComplete.txt is there. */
  function CheckCompletionFiles(seqName: string, copyComplete: Option<Stamp>, rtaComplete: Option<Stamp>,
                                status: string): (r: Completion)
    ensures r.date != "" <==> (if IsMiSeq(seqName) then rtaComplete.Some? else copyComplete.Some?)
    ensures r.date != "" ==> r.status == "Completed on"
    ensures r.date == "" ==> r.status == (if !IsMiSeq(seqName) && rtaComplete.Some? then "Finalizing" else status)
  {
    var completionFile := if IsMiSeq(seqName) then rtaComplete else copyComplete;
    var completionDt := if completionFile.Some? then completionFile.value else "";
    if completionDt != "" then Completion("Completed on", completionDt)
    else if rtaComplete.Some? && !IsMiSeq(seqName) then Completion("Finalizing", "")
    else Completion(status, "")
  }

  /** On MiSeq, CopyComplete.txt is never looked at, and Finalizing is never
      produced (unless it was the status passed in). */
  lemma MiSeqIgnoresCopyComplete(seqName: string, c1: Option<Stamp>, c2: Option<Stamp>, rta: Option<Stamp>, status: string)
    requires IsMiSeq(seqName)
    ensures CheckCompletionFiles(seqName, c1, rta, status) == CheckCompletionFiles(seqName, c2, rta, status)
    ensures CheckCompletionFiles(seqName, c1, rta, status).status in {"Completed on", status}
  {
  }

  /** The full-completion marker beats the partial one, and with neither
      the status passes through with an empty date. */
  lemma MarkerPrecedence(seqName: string, copyComplete: Option<Stamp>, rtaComplete: Option<Stamp>, status: string)
    ensures !IsMiSeq(seqName) && copyComplete.Some? ==>
      CheckCompletionFiles(seqName, copyComplete, rtaComplete, status) == Completion("Completed on", copyComplete.value)
    ensures copyComplete.None? && rtaComplete.None? ==>
      CheckCompletionFiles(seqName, copyComplete, rtaComplete, status) == Completion(status, "")
  {
  }
}
