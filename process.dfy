/** The `Process` record the scheduler fills in (include/scheduler.h). */
module Processes {
  import opened CText

  /** The value a `start_time` holds until the process is first dispatched. */
  const Unset := -1

  /** The fields of `struct Process` that the scheduling code reads or writes. The clock is a
      logical integer tick counter. */
  datatype Process = Process(
    pid: CString,
    arrivalTime: int,
    burstTime: int,
    remainingTime: int,
    startTime: int,
    completionTime: int,
    priority: int)

  /** `q` describes the same job as `p`: no policy writes these fields. */
  predicate SameJob(p: Process, q: Process) {
    p.pid == q.pid && p.arrivalTime == q.arrivalTime && p.burstTime == q.burstTime
    && p.priority == q.priority
  }

  /** No process has been dispatched yet. */
  predicate Fresh(ps: seq<Process>) {
    forall i :: 0 <= i < |ps| ==> ps[i].startTime == Unset
  }

  predicate NonNegativeBursts(ps: seq<Process>) {
    forall i :: 0 <= i < |ps| ==> ps[i].burstTime >= 0
  }

  /** The latest arrival in the list (0 for an empty list). */
  function LatestArrival(ps: seq<Process>): (m: int)
    ensures forall i :: 0 <= i < |ps| ==> ps[i].arrivalTime <= m
  {
    if ps == [] then 0
    else
      var rest := LatestArrival(ps[1..]);
      if ps[0].arrivalTime < rest then rest else ps[0].arrivalTime
  }

  /** The latest arrival depends on arrival times only. */
  lemma {:induction false} LatestArrivalSameJobs(ps: seq<Process>, qs: seq<Process>)
    requires |ps| == |qs| && forall i :: 0 <= i < |ps| ==> SameJob(ps[i], qs[i])
    ensures LatestArrival(ps) == LatestArrival(qs)
  {
    if ps != [] {
      LatestArrivalSameJobs(ps[1..], qs[1..]);
    }
  }
}
