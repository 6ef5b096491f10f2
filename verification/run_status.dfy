/** The status rules that API/status/main.py, API/api/test_api/rt_status.py
    and API/api/functions/real_time_status.py write the same way once the
    completion markers have been read. */
module RunStatus {
  import opened Text
  import opened Records

  /** The final status: a run whose last extracted cycle differs from its
      total turns only Idle into Running, and a last cycle of 0 means the
      run is still initializing, whatever the markers said. */
  function FinalStatus(marker: string, lastCycle: int, totalCycles: int): (s: string)
    ensures lastCycle == 0 ==> s == "Initializing"
    ensures lastCycle != 0 && marker != "Idle" ==> s == marker
    ensures lastCycle != 0 && marker == "Idle" && lastCycle != totalCycles ==> s == "Running"
    ensures lastCycle != 0 && marker == "Idle" && lastCycle == totalCycles ==> s == "Idle"
  {
    var status := if lastCycle != totalCycles && marker == "Idle" then "Running" else marker;
    if lastCycle == 0 then "Initializing" else status
  }

  /** 'init' in result[seq]['status'].lower(). */
  predicate SaysInit(f: Fields)
  {
    Contains(Lower(StatusOf(f)), "init")
  }

  /** Running is only ever reached from Idle, and Completed on or
      Finalizing from the markers survive unless the last cycle is 0. */
  lemma MarkerSurvives(marker: string, lastCycle: int, totalCycles: int)
    ensures FinalStatus(marker, lastCycle, totalCycles) == "Running" ==> marker == "Idle" || marker == "Running"
    ensures (marker == "Completed on" || marker == "Finalizing") ==>
      FinalStatus(marker, lastCycle, totalCycles) == (if lastCycle == 0 then "Initializing" else marker)
  {
  }

  /** A status of Initializing says 'init'. */
  lemma InitializingSaysInit(f: Fields)
    requires StatusOf(f) == "Initializing"
    ensures SaysInit(f)
  {
    var l := Lower("Initializing");
    assert l[..4] == "init";
    assert OccursAt(l, "init", 0);
  }

  /** A status of Idle does not. */
  lemma IdleSaysNoInit(f: Fields)
    requires StatusOf(f) == "Idle"
    ensures !SaysInit(f)
  {
    var l := Lower("Idle");
    assert l[1] == 'd';
    assert !OccursAt(l, "init", 0);
  }
}
