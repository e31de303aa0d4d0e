/** `class Scheduler` (include/scheduler.h, src/scheduler.cpp): a working copy of the process list,
    the selected algorithm and the quantum, and one method per implemented policy. */
module Engine {
  import opened Processes
  import opened Flags
  import Fcfs
  import NP = NonPreemptive
  import RR = RoundRobin

  /** The `Algorithm` tags. Only the first four have a body in the scheduler. */
  datatype Algorithm = FCFS | SJF | PRIORITY | ROUND_ROBIN | MLFQ | ROUND_ROBIN_MULTICORE

  class Scheduler {
    var processes: seq<Process>
    const algo: Algorithm
    const quantum: int

    /** The constructor copies its arguments and resets nothing. */
    constructor (processes: seq<Process>, algo: Algorithm, quantum: int)
      ensures this.processes == processes && this.algo == algo && this.quantum == quantum
    {
      this.processes := processes;
      this.algo := algo;
      this.quantum := quantum;
    }

    /** Runs the selected policy; MLFQ and multi-core round robin have no case and change nothing. */
    method Run()
      requires algo == SJF ==> NP.KeysBelowSentinel(processes, NP.ShortestJob)
      requires algo == PRIORITY ==> NP.KeysBelowSentinel(processes, NP.HighestPriority)
      requires algo == ROUND_ROBIN ==> quantum > 0 && |processes| >= 1
      modifies this
      ensures algo == FCFS ==> processes == Fcfs.Schedule(old(processes))
      ensures algo == SJF ==> processes == NP.Run(old(processes), NP.ShortestJob)
      ensures algo == PRIORITY ==> processes == NP.Run(old(processes), NP.HighestPriority)
      ensures algo == ROUND_ROBIN ==>
        exists s :: RR.ArrivalOrderOf(s, RR.ResetRemaining(old(processes))) && processes == RR.Run(s, quantum)
      ensures algo == MLFQ || algo == ROUND_ROBIN_MULTICORE ==> processes == old(processes)
    {
      match algo {
        case FCFS => RunFcfs();
        case SJF => RunSjf();
        case PRIORITY => RunPriority();
        case ROUND_ROBIN => RunRr();
        case _ =>
      }
    }

    /** Walks the list in its given order; the clock waits for each arrival. */
    method RunFcfs()
      modifies this
      ensures processes == Fcfs.Schedule(old(processes))
    {
      var time := 0;
      var i := 0;
      while i < |processes|
        invariant 0 <= i <= |processes| == |old(processes)|
        invariant forall k :: 0 <= k < i ==> processes[k] == Fcfs.Schedule(old(processes))[k]
        invariant forall k :: i <= k < |processes| ==> processes[k] == old(processes)[k]
        invariant time == Fcfs.ClockAfter(old(processes), i)
      {
        var p := processes[i];
        if time < p.arrivalTime {
          time := p.arrivalTime;
        }
        p := p.(startTime := time);
        time := time + p.burstTime;
        p := p.(completionTime := time);
        processes := processes[i := p];
        i := i + 1;
      }
    }

    method RunSjf()
      requires NP.KeysBelowSentinel(processes, NP.ShortestJob)
      modifies this
      ensures processes == NP.Run(old(processes), NP.ShortestJob)
    {
      RunNonPreemptive(NP.ShortestJob);
    }

    method RunPriority()
      requires NP.KeysBelowSentinel(processes, NP.HighestPriority)
      modifies this
      ensures processes == NP.Run(old(processes), NP.HighestPriority)
    {
      RunNonPreemptive(NP.HighestPriority);
    }

    /** The body of `run_sjf` and `run_priority`: pick, then run whole or idle one tick, until
        every process is done. */
    method RunNonPreemptive(policy: NP.Policy)
      requires NP.KeysBelowSentinel(processes, policy)
      modifies this
      ensures processes == NP.Run(old(processes), policy)
    {
      var procs := processes;
      var time := 0;
      var completed := 0;
      var n := |procs|;
      var done := AllFalse(n);
      CountAllFalse(n);
      ghost var init := NP.Initial(procs);
      while completed < n
        invariant |procs| == |done| == n
        invariant NP.Valid(NP.State(procs, done, time), policy)
        invariant completed == CountTrue(done)
        invariant NP.RunFrom(NP.State(procs, done, time), policy) == NP.RunFrom(init, policy)
        decreases n - completed, LatestArrival(procs) - time
      {
        ghost var s := NP.State(procs, done, time);
        NP.StepProgress(s, policy);
        NP.RunFromStep(s, policy);
        var idx := NP.PickNext(procs, done, time, policy);
        if idx == -1 {
          time := time + 1;
          assert NP.State(procs, done, time) == NP.Step(s, policy);
        } else {
          var p := procs[idx];
          ghost var finished := NP.RunToCompletion(p, time);
          if p.startTime == Unset {
            p := p.(startTime := time);
          }
          time := time + p.burstTime;
          p := p.(completionTime := time);
          assert p == finished;
          procs := procs[idx := p];
          CountTrueSet(done, idx);
          done := done[idx := true];
          completed := completed + 1;
          assert NP.State(procs, done, time) == NP.Step(s, policy);
        }
      }
      processes := procs;
    }

    /** Resets the remaining times, sorts by arrival, then serves the ready queue in slices. */
    method RunRr()
      requires quantum > 0 && |processes| >= 1
      modifies this
      ensures exists s :: RR.ArrivalOrderOf(s, RR.ResetRemaining(old(processes))) && processes == RR.Run(s, quantum)
    {
      ghost var input := processes;
      var procs := RR.ResetAll(processes);
      procs := RR.SortByArrival(procs);
      ghost var sorted := procs;
      var n := |procs|;
      var added := AllFalse(n);
      var q: seq<nat> := [];
      q := q + [0];
      added := added[0 := true];
      assert RR.State(procs, q, added, 0, 0) == RR.Seeded(sorted);
      procs := RR.Serve(RR.State(procs, q, added, 0, 0), quantum);
      assert RR.ArrivalOrderOf(sorted, RR.ResetRemaining(input));
      processes := procs;
    }
  }
}
