/** The non-preemptive engine behind `Scheduler::run_sjf` and `Scheduler::run_priority`. The two
    bodies differ only in the field minimised: `burst_time` for SJF, `priority` for PRIORITY. */
module NonPreemptive {
  import opened Processes
  import opened Flags

  datatype Policy = ShortestJob | HighestPriority

  /** The value the selection loop minimises. */
  function Key(p: Process, policy: Policy): (k: int)
    ensures policy == ShortestJob ==> k == p.burstTime
    ensures policy == HighestPriority ==> k == p.priority
  {
    match policy
    case ShortestJob => p.burstTime
    case HighestPriority => p.priority
  }

  /** The initial minimum `1e9`: a process whose key is not below it is never selected. */
  const Sentinel := 1_000_000_000

  predicate KeysBelowSentinel(ps: seq<Process>, policy: Policy) {
    forall i :: 0 <= i < |ps| ==> Key(ps[i], policy) < Sentinel
  }

  /** Not yet done and already arrived. */
  predicate Eligible(ps: seq<Process>, done: seq<bool>, time: int, i: int)
    requires |done| == |ps|
  {
    0 <= i < |ps| && !done[i] && ps[i].arrivalTime <= time
  }

  /** `i` wins the selection against `j`: a smaller key, or an equal key and a lower index. */
  predicate Precedes(ps: seq<Process>, policy: Policy, i: int, j: int)
    requires 0 <= i < |ps| && 0 <= j < |ps|
  {
    Key(ps[i], policy) < Key(ps[j], policy) || (Key(ps[i], policy) == Key(ps[j], policy) && i < j)
  }

  /** The selection rule over the indices below `k`: `idx` is the eligible process that precedes
      every other eligible one, or -1 when none is eligible with a key below the sentinel. */
  predicate IsChoiceBelow(ps: seq<Process>, done: seq<bool>, time: int, policy: Policy, k: int, idx: int)
    requires |done| == |ps| && 0 <= k <= |ps|
  {
    if idx == -1 then
      forall j :: 0 <= j < k && Eligible(ps, done, time, j) ==> Key(ps[j], policy) >= Sentinel
    else
      0 <= idx < k && Eligible(ps, done, time, idx) && Key(ps[idx], policy) < Sentinel
      && forall j :: 0 <= j < k && j != idx && Eligible(ps, done, time, j) ==> Precedes(ps, policy, idx, j)
  }

  predicate IsChoice(ps: seq<Process>, done: seq<bool>, time: int, policy: Policy, idx: int)
    requires |done| == |ps|
  {
    IsChoiceBelow(ps, done, time, policy, |ps|, idx)
  }

  /** The index the scan has settled on after looking at the first `k` processes. */
  function ChoiceBelow(ps: seq<Process>, done: seq<bool>, time: int, policy: Policy, k: nat): (idx: int)
    requires |done| == |ps| && k <= |ps|
    ensures IsChoiceBelow(ps, done, time, policy, k, idx)
  {
    if k == 0 then -1
    else
      var idx := ChoiceBelow(ps, done, time, policy, k - 1);
      var best := if idx == -1 then Sentinel else Key(ps[idx], policy);
      if Eligible(ps, done, time, k - 1) && Key(ps[k - 1], policy) < best then k - 1 else idx
  }

  /** The process the scan at src/scheduler.cpp:40-47 (or 81-88) selects, -1 if none. */
  function Choice(ps: seq<Process>, done: seq<bool>, time: int, policy: Policy): (idx: int)
    requires |done| == |ps|
    ensures IsChoice(ps, done, time, policy, idx)
  {
    ChoiceBelow(ps, done, time, policy, |ps|)
  }

  /** The selection loop. */
  method PickNext(ps: seq<Process>, done: seq<bool>, time: int, policy: Policy) returns (idx: int)
    requires |done| == |ps|
    ensures idx == Choice(ps, done, time, policy)
    ensures IsChoice(ps, done, time, policy, idx)
  {
    idx := -1;
    var best := Sentinel;
    for i := 0 to |ps|
      invariant idx == ChoiceBelow(ps, done, time, policy, i)
      invariant best == if idx == -1 then Sentinel else Key(ps[idx], policy)
    {
      if !done[i] && ps[i].arrivalTime <= time {
        if Key(ps[i], policy) < best {
          best := Key(ps[i], policy);
          idx := i;
        }
      }
    }
  }

  /** The loop state of the outer `while (completed < n)` loop: the list, `done` and `time`. */
  datatype State = State(procs: seq<Process>, done: seq<bool>, time: int)

  predicate Valid(s: State, policy: Policy) {
    |s.done| == |s.procs| && KeysBelowSentinel(s.procs, policy)
  }

  function Initial(ps: seq<Process>): (s: State)
    ensures s.procs == ps && s.time == 0 && CountTrue(s.done) == 0
  {
    CountAllFalse(|ps|);
    State(ps, AllFalse(|ps|), 0)
  }

  /** The process `p` after being dispatched at `time` and run to completion: `start_time` is set
      only if it is still unset. */
  function RunToCompletion(p: Process, time: int): (r: Process)
    ensures SameJob(r, p) && r.remainingTime == p.remainingTime
    ensures p.startTime == Unset ==> r.startTime == time
    ensures p.startTime != Unset ==> r.startTime == p.startTime
    ensures r.completionTime == time + p.burstTime
  {
    p.(startTime := if p.startTime == Unset then time else p.startTime,
       completionTime := time + p.burstTime)
  }

  /** One iteration of the outer loop. With nothing eligible the clock ticks once and nothing else
      changes; otherwise the chosen process runs whole, is marked done, and the clock moves past it. */
  function Step(s: State, policy: Policy): (r: State)
    requires Valid(s, policy)
    ensures Valid(r, policy) && |r.procs| == |s.procs|
    ensures Choice(s.procs, s.done, s.time, policy) == -1 ==>
      r.procs == s.procs && r.done == s.done && r.time == s.time + 1
    ensures var idx := Choice(s.procs, s.done, s.time, policy);
      idx != -1 ==>
        !s.done[idx] && r.done == s.done[idx := true]
        && r.procs == s.procs[idx := RunToCompletion(s.procs[idx], s.time)]
        && r.time == s.time + s.procs[idx].burstTime
  {
    var idx := Choice(s.procs, s.done, s.time, policy);
    if idx == -1 then s.(time := s.time + 1)
    else
      var p := s.procs[idx];
      State(s.procs[idx := RunToCompletion(p, s.time)], s.done[idx := true], s.time + p.burstTime)
  }

  /** Each iteration either completes one more process, or idles while some process is still to
      arrive: the loop terminates. */
  lemma StepProgress(s: State, policy: Policy)
    requires Valid(s, policy) && CountTrue(s.done) < |s.procs|
    ensures var r := Step(s, policy);
      CountTrue(r.done) == CountTrue(s.done) + 1
      || (CountTrue(r.done) == CountTrue(s.done) && LatestArrival(r.procs) == LatestArrival(s.procs)
          && s.time < r.time <= LatestArrival(s.procs))
  {
    var idx := Choice(s.procs, s.done, s.time, policy);
    if idx == -1 {
      CountTrueFull(s.done);
      var j :| 0 <= j < |s.done| && !s.done[j];
      assert s.procs[j].arrivalTime > s.time;
    } else {
      CountTrueSet(s.done, idx);
    }
  }

  /** The outer loop run to the end, from state `s`. */
  function RunFrom(s: State, policy: Policy): (r: State)
    requires Valid(s, policy)
    ensures Valid(r, policy) && CountTrue(r.done) == |r.procs| == |s.procs|
    decreases |s.procs| - CountTrue(s.done), LatestArrival(s.procs) - s.time
  {
    if CountTrue(s.done) >= |s.procs| then s
    else
      StepProgress(s, policy);
      RunFrom(Step(s, policy), policy)
  }

  /** One turn of the loop leaves the final state unchanged. */
  lemma RunFromStep(s: State, policy: Policy)
    requires Valid(s, policy) && CountTrue(s.done) < |s.procs|
    ensures RunFrom(Step(s, policy), policy) == RunFrom(s, policy)
  {
  }

  /** The list after `run_sjf` (policy ShortestJob) or `run_priority` (policy HighestPriority). */
  function Run(ps: seq<Process>, policy: Policy): (r: seq<Process>)
    requires KeysBelowSentinel(ps, policy)
    ensures |r| == |ps|
  {
    RunFrom(Initial(ps), policy).procs
  }

  /** What the loop has established about the processes done so far, relative to the input `ps`. */
  ghost predicate Progress(s: State, ps: seq<Process>, policy: Policy) {
    && |s.procs| == |s.done| == |ps|
    && s.time >= 0
    && (forall i :: 0 <= i < |ps| ==>
          SameJob(s.procs[i], ps[i]) && s.procs[i].remainingTime == ps[i].remainingTime)
    && (forall i :: 0 <= i < |ps| && !s.done[i] ==> s.procs[i] == ps[i])
    && (forall i :: 0 <= i < |ps| && s.done[i] ==>
          0 <= s.procs[i].startTime && ps[i].arrivalTime <= s.procs[i].startTime
          && s.procs[i].completionTime == s.procs[i].startTime + ps[i].burstTime <= s.time)
    && (forall i, j :: 0 <= i < |ps| && 0 <= j < |ps| && i != j && s.done[i]
          && ps[j].arrivalTime <= s.procs[i].startTime
          && (!s.done[j] || s.procs[i].startTime < s.procs[j].startTime)
          ==> Precedes(ps, policy, i, j))
    && (forall i, j :: 0 <= i < |ps| && 0 <= j < |ps| && i != j && s.done[i] && s.done[j] ==>
          s.procs[i].completionTime <= s.procs[j].startTime
          || s.procs[j].completionTime <= s.procs[i].startTime)
  }

  /** A slice of a non-preemptive run: the chosen process starts at the clock, after every
      process done before it, and before any process it precedes could. */
  lemma DispatchKeepsProgress(s: State, ps: seq<Process>, policy: Policy)
    requires Valid(s, policy) && Progress(s, ps, policy)
    requires Fresh(ps) && NonNegativeBursts(ps)
    requires Choice(s.procs, s.done, s.time, policy) != -1
    ensures Progress(Step(s, policy), ps, policy)
  {
    var idx := Choice(s.procs, s.done, s.time, policy);
    var r := Step(s, policy);
    var t := s.time;
    assert r.procs[idx].startTime == t;
    forall i, j | 0 <= i < |ps| && 0 <= j < |ps| && i != j && r.done[i]
      && ps[j].arrivalTime <= r.procs[i].startTime
      && (!r.done[j] || r.procs[i].startTime < r.procs[j].startTime)
      ensures Precedes(ps, policy, i, j)
    {
      if i == idx {
        assert Eligible(s.procs, s.done, t, j);
      } else if j == idx {
        assert !s.done[j];
      }
    }
  }

  lemma StepKeepsProgress(s: State, ps: seq<Process>, policy: Policy)
    requires Valid(s, policy) && Progress(s, ps, policy)
    requires Fresh(ps) && NonNegativeBursts(ps)
    ensures Progress(Step(s, policy), ps, policy)
  {
    if Choice(s.procs, s.done, s.time, policy) != -1 {
      DispatchKeepsProgress(s, ps, policy);
    }
  }

  lemma {:induction false} RunKeepsProgress(s: State, ps: seq<Process>, policy: Policy)
    requires Valid(s, policy) && Progress(s, ps, policy)
    requires Fresh(ps) && NonNegativeBursts(ps)
    ensures Progress(RunFrom(s, policy), ps, policy)
    decreases |s.procs| - CountTrue(s.done), LatestArrival(s.procs) - s.time
  {
    if CountTrue(s.done) < |s.procs| {
      StepProgress(s, policy);
      StepKeepsProgress(s, ps, policy);
      RunKeepsProgress(Step(s, policy), ps, policy);
    }
  }

  /** What `run_sjf` and `run_priority` compute, for a workload not yet dispatched: every process
      is dispatched once, not before it arrives, and runs its whole burst without interruption;
      no two runs overlap; and a process dispatched at time t was chosen over every process that
      had arrived by t and was dispatched later, by smaller key or, on equal keys, lower index. */
  lemma Schedule(ps: seq<Process>, policy: Policy)
    requires KeysBelowSentinel(ps, policy) && Fresh(ps) && NonNegativeBursts(ps)
    ensures var r := Run(ps, policy);
      && |r| == |ps|
      && (forall i :: 0 <= i < |ps| ==>
            SameJob(r[i], ps[i]) && r[i].remainingTime == ps[i].remainingTime
            && 0 <= r[i].startTime && ps[i].arrivalTime <= r[i].startTime
            && r[i].completionTime == r[i].startTime + ps[i].burstTime)
      && (forall i, j :: 0 <= i < |ps| && 0 <= j < |ps| && i != j
            && ps[j].arrivalTime <= r[i].startTime < r[j].startTime
            ==> Precedes(ps, policy, i, j))
      && (forall i, j :: 0 <= i < |ps| && 0 <= j < |ps| && i != j ==>
            r[i].completionTime <= r[j].startTime || r[j].completionTime <= r[i].startTime)
  {
    var s0 := Initial(ps);
    RunKeepsProgress(s0, ps, policy);
    var f := RunFrom(s0, policy);
    CountTrueFull(f.done);
  }

  lemma {:induction false} RunKeepsStarts(s: State, ps: seq<Process>, policy: Policy)
    requires Valid(s, policy) && |s.procs| == |ps|
    requires forall i :: 0 <= i < |ps| && ps[i].startTime != Unset ==> s.procs[i].startTime == ps[i].startTime
    ensures var r := RunFrom(s, policy);
      forall i :: 0 <= i < |ps| && ps[i].startTime != Unset ==> r.procs[i].startTime == ps[i].startTime
    decreases |s.procs| - CountTrue(s.done), LatestArrival(s.procs) - s.time
  {
    if CountTrue(s.done) < |s.procs| {
      StepProgress(s, policy);
      RunKeepsStarts(Step(s, policy), ps, policy);
    }
  }

  /** A `start_time` already set is never overwritten (src/scheduler.cpp:56-57, 97-98). */
  lemma KeepsStarts(ps: seq<Process>, policy: Policy)
    requires KeysBelowSentinel(ps, policy)
    ensures forall i :: 0 <= i < |ps| && ps[i].startTime != Unset ==>
      Run(ps, policy)[i].startTime == ps[i].startTime
  {
    RunKeepsStarts(Initial(ps), ps, policy);
  }
}
