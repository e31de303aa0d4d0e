/** The per-process figures `print_table` derives (src/utils.cpp:12-18): turnaround and waiting
    time, and the two running totals. Integers are unbounded here; the C++ uses `int`. */
module Metrics {
  import opened Processes
  import Fcfs
  import NP = NonPreemptive
  import RR = RoundRobin

  /** Time from arrival to completion. */
  function Turnaround(p: Process): (t: int)
    ensures p.arrivalTime + t == p.completionTime
  {
    p.completionTime - p.arrivalTime
  }

  /** Turnaround less the burst, clamped up to 0. */
  function Waiting(p: Process): (w: int)
    ensures w >= 0 && w >= Turnaround(p) - p.burstTime
    ensures w == 0 || w == Turnaround(p) - p.burstTime
  {
    var w := Turnaround(p) - p.burstTime;
    if w < 0 then 0 else w
  }

  /** When a process has completed no sooner than `burst` after its arrival, the clamp does
      nothing and the waiting time lies between 0 and the turnaround. */
  lemma Unclamped(p: Process)
    requires p.burstTime >= 0 && p.completionTime >= p.arrivalTime + p.burstTime
    ensures Waiting(p) == Turnaround(p) - p.burstTime
    ensures 0 <= Waiting(p) <= Turnaround(p)
  {
  }

  /** A process that ran its burst in one piece, starting at `start`, waited exactly from its
      arrival until `start`. */
  lemma WaitedUntilStart(p: Process)
    requires p.arrivalTime <= p.startTime && p.completionTime == p.startTime + p.burstTime
    ensures Waiting(p) == p.startTime - p.arrivalTime
  {
  }

  /** Under FCFS every process waits from its arrival until its dispatch. */
  lemma FcfsWaiting(ps: seq<Process>)
    ensures forall i :: 0 <= i < |ps| ==>
      Waiting(Fcfs.Schedule(ps)[i]) == Fcfs.Schedule(ps)[i].startTime - ps[i].arrivalTime
  {
    var r := Fcfs.Schedule(ps);
    forall i | 0 <= i < |ps| ensures Waiting(r[i]) == r[i].startTime - ps[i].arrivalTime {
      WaitedUntilStart(r[i]);
    }
  }

  /** Under SJF and PRIORITY, likewise: they never preempt. */
  lemma NonPreemptiveWaiting(ps: seq<Process>, policy: NP.Policy)
    requires NP.KeysBelowSentinel(ps, policy) && Fresh(ps) && NonNegativeBursts(ps)
    ensures |NP.Run(ps, policy)| == |ps|
    ensures forall i :: 0 <= i < |ps| ==>
      Waiting(NP.Run(ps, policy)[i]) == NP.Run(ps, policy)[i].startTime - ps[i].arrivalTime
  {
    NP.Schedule(ps, policy);
    var r := NP.Run(ps, policy);
    forall i | 0 <= i < |ps| ensures Waiting(r[i]) == r[i].startTime - ps[i].arrivalTime {
      WaitedUntilStart(r[i]);
    }
  }

  /** Under round robin seeded by arrival, the clamp never fires: completion is at least burst
      after arrival. */
  lemma CorrectedRoundRobinUnclamped(ps: seq<Process>, quantum: int)
    requires quantum > 0 && RR.ResetWorkload(ps)
    ensures |RR.RunFromArrivals(ps, quantum)| == |ps|
    ensures forall i :: 0 <= i < |ps| ==>
      var r := RR.RunFromArrivals(ps, quantum)[i];
      Waiting(r) == Turnaround(r) - r.burstTime && 0 <= Waiting(r) <= Turnaround(r)
  {
    RR.CorrectedIsCausal(ps, quantum);
    var rs := RR.RunFromArrivals(ps, quantum);
    forall i | 0 <= i < |ps|
      ensures Waiting(rs[i]) == Turnaround(rs[i]) - rs[i].burstTime && 0 <= Waiting(rs[i]) <= Turnaround(rs[i])
    {
      Unclamped(rs[i]);
    }
  }

  function TotalWaiting(ps: seq<Process>): (t: int)
    ensures t >= 0
  {
    if ps == [] then 0 else TotalWaiting(ps[..|ps| - 1]) + Waiting(ps[|ps| - 1])
  }

  function TotalTurnaround(ps: seq<Process>): int {
    if ps == [] then 0 else TotalTurnaround(ps[..|ps| - 1]) + Turnaround(ps[|ps| - 1])
  }

  /** With every process unclamped, the total waiting time is the total turnaround less the
      total burst. */
  lemma {:induction false} TotalsUnclamped(ps: seq<Process>)
    requires forall i :: 0 <= i < |ps| ==>
      ps[i].burstTime >= 0 && ps[i].completionTime >= ps[i].arrivalTime + ps[i].burstTime
    ensures TotalWaiting(ps) == TotalTurnaround(ps) - TotalBurst(ps)
    ensures TotalWaiting(ps) <= TotalTurnaround(ps)
  {
    if ps != [] {
      TotalsUnclamped(ps[..|ps| - 1]);
      Unclamped(ps[|ps| - 1]);
    }
  }

  function TotalBurst(ps: seq<Process>): int {
    if ps == [] then 0 else TotalBurst(ps[..|ps| - 1]) + ps[|ps| - 1].burstTime
  }

  /** The accumulation loop of `print_table`, without the printing. */
  method Totals(ps: seq<Process>) returns (totalWaiting: int, totalTurnaround: int)
    ensures totalWaiting == TotalWaiting(ps) && totalTurnaround == TotalTurnaround(ps)
  {
    totalWaiting, totalTurnaround := 0, 0;
    for i := 0 to |ps|
      invariant totalWaiting == TotalWaiting(ps[..i]) && totalTurnaround == TotalTurnaround(ps[..i])
    {
      var p := ps[i];
      var tat := p.completionTime - p.arrivalTime;
      var wt := tat - p.burstTime;
      if wt < 0 {
        wt := 0;
      }
      totalWaiting := totalWaiting + wt;
      totalTurnaround := totalTurnaround + tat;
      assert ps[..i + 1][..i] == ps[..i];
    }
    assert ps[..|ps|] == ps;
  }
}
