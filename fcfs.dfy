/** First-come-first-served as `Scheduler::run_fcfs` does it: the list is run in its given order,
    each process starting when both the CPU is free and the process has arrived. */
module Fcfs {
  import opened Processes

  /** The clock after the first `i` processes have run, starting from 0. */
  function ClockAfter(ps: seq<Process>, i: nat): int
    requires i <= |ps|
    decreases i, 0
  {
    if i == 0 then 0 else DispatchTime(ps, i - 1) + ps[i - 1].burstTime
  }

  /** When `ps[i]` starts: the clock, moved up to the arrival time when the CPU would be early. */
  function DispatchTime(ps: seq<Process>, i: nat): int
    requires i < |ps|
    decreases i, 1
  {
    var time := ClockAfter(ps, i);
    if time < ps[i].arrivalTime then ps[i].arrivalTime else time
  }

  /** The clock starts at 0; `ps[i]` is dispatched at the later of the clock and its arrival, and
      the clock then stands at least its burst past its arrival. */
  lemma DispatchRule(ps: seq<Process>, i: nat)
    requires i < |ps|
    ensures ClockAfter(ps, 0) == 0
    ensures DispatchTime(ps, i) >= ps[i].arrivalTime && DispatchTime(ps, i) >= ClockAfter(ps, i)
    ensures DispatchTime(ps, i) == ps[i].arrivalTime || DispatchTime(ps, i) == ClockAfter(ps, i)
    ensures ClockAfter(ps, i + 1) >= ps[i].arrivalTime + ps[i].burstTime
  {
  }

  /** The list after `run_fcfs`. Each process starts no earlier than it arrives and no earlier than
      its predecessor completes, as soon as both hold, and runs its whole burst. */
  function Schedule(ps: seq<Process>): (r: seq<Process>)
    ensures |r| == |ps|
    ensures forall i :: 0 <= i < |ps| ==>
      SameJob(r[i], ps[i]) && r[i].remainingTime == ps[i].remainingTime
      && r[i].startTime >= ps[i].arrivalTime
      && r[i].completionTime == r[i].startTime + ps[i].burstTime
    ensures |ps| > 0 ==> r[0].startTime == if ps[0].arrivalTime < 0 then 0 else ps[0].arrivalTime
    ensures forall i :: 0 < i < |ps| ==>
      r[i].startTime == if ps[i].arrivalTime < r[i - 1].completionTime then r[i - 1].completionTime
                        else ps[i].arrivalTime
  {
    var r := seq(|ps|, i requires 0 <= i < |ps| =>
      ps[i].(startTime := DispatchTime(ps, i), completionTime := DispatchTime(ps, i) + ps[i].burstTime));
    forall i | 0 < i < |ps|
      ensures r[i].startTime == if ps[i].arrivalTime < r[i - 1].completionTime then r[i - 1].completionTime
                                else ps[i].arrivalTime
    {
      assert ClockAfter(ps, i) == r[i - 1].completionTime;
    }
    r
  }

  /** With non-negative bursts the clock never runs backwards, so completion times do not
      decrease along the list (src/scheduler.cpp:18-26). */
  lemma {:induction false} CompletionsNondecreasing(ps: seq<Process>, i: nat, j: nat)
    requires NonNegativeBursts(ps)
    requires i <= j < |ps|
    ensures Schedule(ps)[i].completionTime <= Schedule(ps)[j].completionTime
  {
    if i < j {
      CompletionsNondecreasing(ps, i, j - 1);
    }
  }

  /** No two processes overlap: each one starts after every earlier one has completed. */
  lemma NoOverlap(ps: seq<Process>, i: nat, j: nat)
    requires NonNegativeBursts(ps)
    requires i < j < |ps|
    ensures Schedule(ps)[i].completionTime <= Schedule(ps)[j].startTime
  {
    CompletionsNondecreasing(ps, i, j - 1);
  }

  lemma {:induction false} ClockSameJobs(ps: seq<Process>, qs: seq<Process>, i: nat)
    requires |ps| == |qs| && i <= |ps|
    requires forall k :: 0 <= k < |ps| ==> SameJob(ps[k], qs[k])
    ensures ClockAfter(ps, i) == ClockAfter(qs, i)
  {
    if i > 0 {
      ClockSameJobs(ps, qs, i - 1);
    }
  }

  /** Running FCFS again on its own output gives the same output: the times it writes depend
      only on the fields it never writes. */
  lemma Idempotent(ps: seq<Process>)
    ensures Schedule(Schedule(ps)) == Schedule(ps)
  {
    var r := Schedule(ps);
    forall i | 0 <= i < |ps| ensures DispatchTime(r, i) == DispatchTime(ps, i) {
      ClockSameJobs(r, ps, i);
    }
  }

  /** The three records of src/main.cpp:7-11, as their brace initialisers fill the fields:
      arrivals 0, 2, 4; bursts 5, 3, 1; remaining times 5, 3, 1; start times 2, 1, 3; the rest 0.
      FCFS overwrites the start times: they become 0, 5 and 8, and the completions 5, 8 and 9. */
  lemma MainExample()
    ensures var r := Schedule([Process([80, 49], 0, 5, 5, 2, 0, 0), Process([80, 50], 2, 3, 3, 1, 0, 0),
                               Process([80, 51], 4, 1, 1, 3, 0, 0)]);
      && r[0].startTime == 0 && r[1].startTime == 5 && r[2].startTime == 8
      && r[0].completionTime == 5 && r[1].completionTime == 8 && r[2].completionTime == 9
  {
  }
}
