/** Round robin as `Scheduler::run_rr` does it: remaining times are reset to the bursts, the list
    is sorted by arrival, and a FIFO queue of indices hands out slices of at most `quantum` ticks. */
module RoundRobin {
  import opened Processes
  import opened Flags

  /* ---------------------------------------------------------------------------------------- */
  /* Sorting by arrival (`std::sort` with `a.arrival_time < b.arrival_time`).                 */

  /** Each process arrives no earlier than the one before it. */
  predicate SortedByArrival(ps: seq<Process>) {
    forall i :: 0 < i < |ps| ==> ps[i - 1].arrivalTime <= ps[i].arrivalTime
  }

  /** Sorted neighbour by neighbour means sorted pair by pair. */
  lemma {:induction false} SortedPairwise(ps: seq<Process>, i: nat, j: nat)
    requires SortedByArrival(ps) && i <= j < |ps|
    ensures ps[i].arrivalTime <= ps[j].arrivalTime
  {
    if i < j {
      SortedPairwise(ps, i, j - 1);
    }
  }

  /** `s` is an order `std::sort` may leave `ps` in: a permutation sorted by arrival. The sort is
      not stable, so nothing is said about the order of equal arrivals. */
  predicate ArrivalOrderOf(s: seq<Process>, ps: seq<Process>) {
    |s| == |ps| && SortedByArrival(s) && multiset(s) == multiset(ps)
  }

  /** A process arriving no later than the head of a sorted list can go in front of it. */
  lemma SortedCons(p: Process, ps: seq<Process>)
    requires SortedByArrival(ps) && (ps != [] ==> p.arrivalTime <= ps[0].arrivalTime)
    ensures SortedByArrival([p] + ps)
  {
    var r := [p] + ps;
    forall i | 0 < i < |r| ensures r[i - 1].arrivalTime <= r[i].arrivalTime {
      if i > 1 {
        assert r[i - 1] == ps[i - 2] && r[i] == ps[i - 1];
      }
    }
  }

  function InsertByArrival(ps: seq<Process>, p: Process): (r: seq<Process>)
    requires SortedByArrival(ps)
    ensures |r| == |ps| + 1 && SortedByArrival(r)
    ensures r[0] == p || (ps != [] && r[0] == ps[0])
    ensures multiset(r) == multiset(ps) + multiset{p}
  {
    if ps == [] then [p]
    else if p.arrivalTime <= ps[0].arrivalTime then SortedCons(p, ps); [p] + ps
    else
      var tail := ps[1..];
      assert ps == [ps[0]] + tail;
      assert SortedByArrival(tail) by {
        forall i | 0 < i < |tail| ensures tail[i - 1].arrivalTime <= tail[i].arrivalTime {
          assert tail[i - 1] == ps[i] && tail[i] == ps[i + 1];
        }
      }
      var rest := InsertByArrival(tail, p);
      SortedCons(ps[0], rest);
      [ps[0]] + rest
  }

  /** One sorted permutation by arrival (insertion sort; any other would do). */
  function SortByArrival(ps: seq<Process>): (r: seq<Process>)
    ensures ArrivalOrderOf(r, ps)
  {
    if ps == [] then []
    else
      assert ps == ps[..|ps| - 1] + [ps[|ps| - 1]];
      InsertByArrival(SortByArrival(ps[..|ps| - 1]), ps[|ps| - 1])
  }

  /** The list after the loop at src/scheduler.cpp:115-116. */
  function ResetRemaining(ps: seq<Process>): (r: seq<Process>)
    ensures |r| == |ps|
    ensures forall i :: 0 <= i < |ps| ==> r[i] == ps[i].(remainingTime := ps[i].burstTime)
  {
    seq(|ps|, i requires 0 <= i < |ps| => ps[i].(remainingTime := ps[i].burstTime))
  }

  /* ---------------------------------------------------------------------------------------- */
  /* The loop state and one iteration of `while (completed < n)`.                             */

  /** The list, the ready queue `q`, `added`, `time` and `completed`. */
  datatype State = State(procs: seq<Process>, queue: seq<nat>, added: seq<bool>, time: int, completed: int)

  predicate Shaped(s: State) {
    |s.added| == |s.procs| && forall k :: 0 <= k < |s.queue| ==> s.queue[k] < |s.procs|
  }

  /** The admission loop (src/scheduler.cpp:132-134 and 151-156) from index `i` on: every index
      not yet added whose process has arrived by `time` joins the tail of the queue, in index order. */
  function AdmitFrom(s: State, i: nat): (r: State)
    requires Shaped(s) && i <= |s.procs|
    ensures Shaped(r) && r.procs == s.procs && r.time == s.time && r.completed == s.completed
    ensures |s.queue| <= |r.queue| && r.queue[..|s.queue|] == s.queue
    ensures forall j :: 0 <= j < |s.procs| ==>
      r.added[j] == (s.added[j] || (i <= j && s.procs[j].arrivalTime <= s.time))
    decreases |s.procs| - i
  {
    if i == |s.procs| then s
    else if !s.added[i] && s.procs[i].arrivalTime <= s.time then
      var r := AdmitFrom(s.(queue := s.queue + [i], added := s.added[i := true]), i + 1);
      assert r.queue[..|s.queue|] == (r.queue[..|s.queue| + 1])[..|s.queue|];
      r
    else
      AdmitFrom(s, i + 1)
  }

  /** The entries admission appends are arrived indices not added before. */
  lemma {:induction false} AdmitFromAppends(s: State, i: nat)
    requires Shaped(s) && i <= |s.procs|
    ensures forall k :: |s.queue| <= k < |AdmitFrom(s, i).queue| ==>
      var x := AdmitFrom(s, i).queue[k]; i <= x && !s.added[x] && s.procs[x].arrivalTime <= s.time
    decreases |s.procs| - i
  {
    if i < |s.procs| {
      if !s.added[i] && s.procs[i].arrivalTime <= s.time {
        var s1 := s.(queue := s.queue + [i], added := s.added[i := true]);
        AdmitFromAppends(s1, i + 1);
        var r := AdmitFrom(s1, i + 1);
        assert r == AdmitFrom(s, i);
        assert r.queue[|s.queue|] == r.queue[..|s1.queue|][|s.queue|] == i;
        forall k | |s.queue| < k < |r.queue|
          ensures i <= r.queue[k] && !s.added[r.queue[k]] && s.procs[r.queue[k]].arrivalTime <= s.time
        {
          assert i + 1 <= r.queue[k] && !s1.added[r.queue[k]];
        }
      } else {
        AdmitFromAppends(s, i + 1);
        assert AdmitFrom(s, i + 1) == AdmitFrom(s, i);
      }
    }
  }

  /** ... and they are appended in increasing index order. */
  lemma {:induction false} AdmitFromIncreasing(s: State, i: nat)
    requires Shaped(s) && i <= |s.procs|
    ensures forall k, l :: |s.queue| <= k < l < |AdmitFrom(s, i).queue| ==>
      AdmitFrom(s, i).queue[k] < AdmitFrom(s, i).queue[l]
    decreases |s.procs| - i
  {
    if i < |s.procs| {
      if !s.added[i] && s.procs[i].arrivalTime <= s.time {
        var s1 := s.(queue := s.queue + [i], added := s.added[i := true]);
        AdmitFromIncreasing(s1, i + 1);
        AdmitFromAppends(s1, i + 1);
        var r := AdmitFrom(s1, i + 1);
        assert r == AdmitFrom(s, i);
        assert r.queue[|s.queue|] == r.queue[..|s1.queue|][|s.queue|] == i;
        forall k, l | |s.queue| <= k < l < |r.queue| ensures r.queue[k] < r.queue[l] {
          if k == |s.queue| {
            assert i + 1 <= r.queue[l];
          }
        }
      } else {
        AdmitFromIncreasing(s, i + 1);
        assert AdmitFrom(s, i + 1) == AdmitFrom(s, i);
      }
    }
  }

  /** Every index admission marks as added is appended to the queue. */
  lemma {:induction false} AdmitFromEnqueues(s: State, i: nat)
    requires Shaped(s) && i <= |s.procs|
    ensures forall j :: 0 <= j < |s.procs| && !s.added[j] && AdmitFrom(s, i).added[j] ==>
      j in AdmitFrom(s, i).queue[|s.queue|..]
    decreases |s.procs| - i
  {
    if i < |s.procs| {
      if !s.added[i] && s.procs[i].arrivalTime <= s.time {
        var s1 := s.(queue := s.queue + [i], added := s.added[i := true]);
        AdmitFromEnqueues(s1, i + 1);
        var r := AdmitFrom(s1, i + 1);
        assert r == AdmitFrom(s, i);
        assert r.queue[|s.queue|..] == [i] + r.queue[|s1.queue|..];
      } else {
        AdmitFromEnqueues(s, i + 1);
        assert AdmitFrom(s, i + 1) == AdmitFrom(s, i);
      }
    }
  }

  /** Admission adds to the count of added indices exactly as many as it appends to the queue. */
  lemma {:induction false} AdmitFromCounts(s: State, i: nat)
    requires Shaped(s) && i <= |s.procs|
    ensures CountTrue(AdmitFrom(s, i).added) == CountTrue(s.added) + |AdmitFrom(s, i).queue| - |s.queue|
    decreases |s.procs| - i
  {
    if i < |s.procs| {
      if !s.added[i] && s.procs[i].arrivalTime <= s.time {
        var s1 := s.(queue := s.queue + [i], added := s.added[i := true]);
        CountTrueSet(s.added, i);
        AdmitFromCounts(s1, i + 1);
        assert AdmitFrom(s1, i + 1) == AdmitFrom(s, i);
      } else {
        AdmitFromCounts(s, i + 1);
        assert AdmitFrom(s, i + 1) == AdmitFrom(s, i);
      }
    }
  }

  function Admit(s: State): (r: State)
    requires Shaped(s)
    ensures Shaped(r) && r.procs == s.procs && r.time == s.time && r.completed == s.completed
    ensures |s.queue| <= |r.queue| && r.queue[..|s.queue|] == s.queue
    ensures forall j :: 0 <= j < |s.procs| ==> r.added[j] == (s.added[j] || s.procs[j].arrivalTime <= s.time)
  {
    AdmitFrom(s, 0)
  }

  /** The admission loop as the source writes it: appends to the queue and sets `added`. */
  method AdmitArrivals(s: State) returns (r: State)
    requires Shaped(s)
    ensures r == Admit(s)
  {
    r := s;
    for i := 0 to |s.procs|
      invariant Shaped(r) && r.procs == s.procs && r.time == s.time && r.completed == s.completed
      invariant AdmitFrom(r, i) == Admit(s)
    {
      if !r.added[i] && r.procs[i].arrivalTime <= r.time {
        r := r.(queue := r.queue + [i], added := r.added[i := true]);
      }
    }
  }

  function Min(a: int, b: int): int {
    if a < b then a else b
  }

  /** The process at the head of the queue after its slice at `time`: `start_time` set if still
      unset, and `min(quantum, remaining_time)` ticks taken off. */
  function Slice(p: Process, time: int, quantum: int): (r: Process)
    ensures SameJob(r, p) && r.completionTime == p.completionTime
    ensures p.startTime == Unset ==> r.startTime == time
    ensures p.startTime != Unset ==> r.startTime == p.startTime
    ensures r.remainingTime == if p.remainingTime > quantum then p.remainingTime - quantum else 0
  {
    p.(startTime := if p.startTime == Unset then time else p.startTime,
       remainingTime := p.remainingTime - Min(quantum, p.remainingTime))
  }

  /** One iteration of the loop. With an empty queue the clock ticks once and arrivals are
      admitted. Otherwise the head runs one slice; arrivals up to the new clock are admitted; then
      the head goes back to the tail if it has time left, or gets the clock as completion time. */
  function Step(s: State, quantum: int): (r: State)
    requires Shaped(s)
    ensures Shaped(r) && |r.procs| == |s.procs|
  {
    if s.queue == [] then Admit(s.(time := s.time + 1))
    else
      var idx := s.queue[0];
      var p := Slice(s.procs[idx], s.time, quantum);
      var t := s.time + Min(quantum, s.procs[idx].remainingTime);
      var a := Admit(State(s.procs[idx := p], s.queue[1..], s.added, t, s.completed));
      if p.remainingTime > 0 then a.(queue := a.queue + [idx])
      else a.(procs := a.procs[idx := p.(completionTime := t)], completed := a.completed + 1)
  }

  /** `Step` on a non-empty queue, in terms of the admission result `a`. */
  lemma DispatchStep(s: State, quantum: int, a: State)
    requires Shaped(s) && s.queue != []
    requires var idx := s.queue[0];
      a == Admit(State(s.procs[idx := Slice(s.procs[idx], s.time, quantum)], s.queue[1..], s.added,
                       s.time + Min(quantum, s.procs[idx].remainingTime), s.completed))
    ensures var idx := s.queue[0];
      var p := Slice(s.procs[idx], s.time, quantum);
      && (p.remainingTime > 0 ==> Step(s, quantum) == a.(queue := a.queue + [idx]))
      && (p.remainingTime <= 0 ==>
            Step(s, quantum) == a.(procs := a.procs[idx := p.(completionTime := a.time)],
                                   completed := a.completed + 1))
  {
  }

  /** What one iteration does. An idle tick moves the clock by 1, admits what has arrived by then
      and changes no process. A slice changes only the head: it runs `min(quantum, remaining)`
      ticks, which the clock gains; the rest of the queue keeps its order ahead of the arrivals;
      the head goes to the tail if it has time left, and otherwise completes at the clock. */
  lemma StepEffect(s: State, quantum: int)
    requires Shaped(s)
    ensures var r := Step(s, quantum);
      s.queue == [] ==>
        && r.procs == s.procs && r.completed == s.completed && r.time == s.time + 1
        && forall j :: 0 <= j < |s.procs| ==> r.added[j] == (s.added[j] || s.procs[j].arrivalTime <= r.time)
    ensures var r := Step(s, quantum);
      s.queue != [] ==>
        var idx := s.queue[0];
        var p := s.procs[idx];
        && (forall i :: 0 <= i < |s.procs| && i != idx ==> r.procs[i] == s.procs[i])
        && r.time == s.time + (if p.remainingTime < quantum then p.remainingTime else quantum)
        && r.procs[idx].startTime == Slice(p, s.time, quantum).startTime
        && r.procs[idx].remainingTime == Slice(p, s.time, quantum).remainingTime
        && |s.queue| - 1 <= |r.queue| && r.queue[..|s.queue| - 1] == s.queue[1..]
        && (r.procs[idx].remainingTime > 0 ==>
              r.completed == s.completed && r.queue[|r.queue| - 1] == idx
              && r.procs[idx].completionTime == p.completionTime)
        && (r.procs[idx].remainingTime <= 0 ==>
              r.completed == s.completed + 1 && r.procs[idx].completionTime == r.time)
  {
    if s.queue != [] {
      var idx := s.queue[0];
      var mid := Middle(s, quantum);
      var a := Admit(mid);
      DispatchStep(s, quantum, a);
      assert a.queue[..|mid.queue|] == mid.queue;
    }
  }

  /** The dispatch branch of the loop body as the source writes it: the head of the queue runs
      one slice, arrivals are admitted, and the head is re-queued or completed. */
  method Dispatch(s: State, quantum: int) returns (r: State)
    requires Shaped(s) && s.queue != []
    ensures r == Step(s, quantum)
  {
    var procs, q, added, time, completed := s.procs, s.queue, s.added, s.time, s.completed;
    var idx := q[0];
    q := q[1..];
    var p := procs[idx];
    if p.startTime == Unset {
      p := p.(startTime := time);
    }
    var exec := Min(quantum, p.remainingTime);
    p := p.(remainingTime := p.remainingTime - exec);
    time := time + exec;
    assert p == Slice(s.procs[idx], s.time, quantum);
    procs := procs[idx := p];
    var a := AdmitArrivals(State(procs, q, added, time, completed));
    DispatchStep(s, quantum, a);
    q, added := a.queue, a.added;
    if p.remainingTime > 0 {
      q := q + [idx];
    } else {
      procs := procs[idx := p.(completionTime := time)];
      completed := completed + 1;
    }
    r := State(procs, q, added, time, completed);
  }

  /* ---------------------------------------------------------------------------------------- */
  /* Termination.                                                                             */

  /** The bookkeeping that makes the loop end: every added index is either queued or counted in
      `completed`, and an empty queue means every index not added is still to arrive. */
  predicate Counted(s: State) {
    && Shaped(s)
    && s.completed + |s.queue| == CountTrue(s.added)
    && (s.queue == [] ==>
          forall i :: 0 <= i < |s.procs| && !s.added[i] ==> s.procs[i].arrivalTime > s.time)
  }

  function Positive(x: int): nat {
    if x < 0 then 0 else x
  }

  /** The work still to do, in ticks. */
  function TotalRemaining(ps: seq<Process>): nat {
    if ps == [] then 0 else Positive(ps[0].remainingTime) + TotalRemaining(ps[1..])
  }

  lemma {:induction false} TotalRemainingUpdate(ps: seq<Process>, i: nat, p: Process)
    requires i < |ps|
    ensures TotalRemaining(ps[i := p])
         == TotalRemaining(ps) - Positive(ps[i].remainingTime) + Positive(p.remainingTime)
  {
    if i > 0 {
      assert ps[i := p][1..] == ps[1..][i - 1 := p];
      TotalRemainingUpdate(ps[1..], i - 1, p);
    } else {
      assert ps[i := p][1..] == ps[1..];
    }
  }

  /** Each iteration completes a process, or shortens the remaining work (the quantum is
      positive), or idles while some process is still to arrive. */
  lemma StepProgress(s: State, quantum: int)
    requires Counted(s) && quantum > 0 && s.completed < |s.procs|
    ensures var r := Step(s, quantum);
      && Counted(r)
      && (|| r.completed == s.completed + 1
          || (r.completed == s.completed && TotalRemaining(r.procs) < TotalRemaining(s.procs))
          || (&& r.completed == s.completed && r.procs == s.procs
              && s.time < r.time <= LatestArrival(s.procs)))
  {
    var r := Step(s, quantum);
    if s.queue == [] {
      AdmitFromCounts(s.(time := s.time + 1), 0);
      CountTrueFull(s.added);
      var j :| 0 <= j < |s.added| && !s.added[j];
      assert s.procs[j].arrivalTime > s.time;
    } else {
      var idx := s.queue[0];
      var p := Slice(s.procs[idx], s.time, quantum);
      TotalRemainingUpdate(s.procs, idx, p);
      AdmitFromCounts(State(s.procs[idx := p], s.queue[1..], s.added,
                              s.time + Min(quantum, s.procs[idx].remainingTime), s.completed), 0);
      if p.remainingTime <= 0 {
        assert r.completed == s.completed + 1;
      }
    }
  }

  /** The loop run to the end from `s`. */
  function RunFrom(s: State, quantum: int): (r: State)
    requires Counted(s) && quantum > 0
    ensures Counted(r) && r.completed >= |r.procs| == |s.procs|
    decreases |s.procs| - s.completed, TotalRemaining(s.procs), LatestArrival(s.procs) - s.time
  {
    if s.completed >= |s.procs| then s
    else
      StepProgress(s, quantum);
      RunFrom(Step(s, quantum), quantum)
  }

  /** One turn of the loop leaves the final state unchanged. */
  lemma RunFromStep(s: State, quantum: int)
    requires Counted(s) && quantum > 0 && s.completed < |s.procs|
    ensures Counted(Step(s, quantum)) && RunFrom(Step(s, quantum), quantum) == RunFrom(s, quantum)
  {
    StepProgress(s, quantum);
  }

  /** The state before the loop: index 0 queued and added at time 0 (src/scheduler.cpp:126-127),
      whatever its arrival time. */
  function Seeded(ps: seq<Process>): (s: State)
    requires |ps| >= 1
    ensures Counted(s) && s.procs == ps && s.completed == 0
    ensures s.queue == [0] && s.time == 0 && forall i :: 0 <= i < |ps| ==> (s.added[i] <==> i == 0)
  {
    CountAllFalse(|ps|);
    CountTrueSet(AllFalse(|ps|), 0);
    State(ps, [0], AllFalse(|ps|)[0 := true], 0, 0)
  }

  /** The list after the loop of `run_rr`, started from the reset and sorted list `ps`. */
  function Run(ps: seq<Process>, quantum: int): (r: seq<Process>)
    requires |ps| >= 1 && quantum > 0
    ensures |r| == |ps|
  {
    RunFrom(Seeded(ps), quantum).procs
  }

  /** The reset loop at src/scheduler.cpp:115-116. */
  method ResetAll(ps: seq<Process>) returns (r: seq<Process>)
    ensures r == ResetRemaining(ps)
  {
    r := ps;
    for i := 0 to |ps|
      invariant |r| == |ps|
      invariant forall k :: 0 <= k < i ==> r[k] == ResetRemaining(ps)[k]
      invariant forall k :: i <= k < |ps| ==> r[k] == ps[k]
    {
      r := r[i := r[i].(remainingTime := r[i].burstTime)];
    }
  }

  /** The loop `while (completed < n)` of src/scheduler.cpp:129-164 from state `s`, returning the
      list it leaves behind. */
  method Serve(s: State, quantum: int) returns (procs: seq<Process>)
    requires Counted(s) && quantum > 0
    ensures procs == RunFrom(s, quantum).procs
  {
    procs := s.procs;
    var q, added, time, completed := s.queue, s.added, s.time, s.completed;
    var n := |procs|;
    while completed < n
      invariant |procs| == n
      invariant Counted(State(procs, q, added, time, completed))
      invariant RunFrom(State(procs, q, added, time, completed), quantum) == RunFrom(s, quantum)
      decreases n - completed, TotalRemaining(procs), LatestArrival(procs) - time
    {
      var cur := State(procs, q, added, time, completed);
      StepProgress(cur, quantum);
      RunFromStep(cur, quantum);
      var r := Turn(cur, quantum);
      procs, q, added, time, completed := r.procs, r.queue, r.added, r.time, r.completed;
    }
  }

  /** The body of the loop: an idle tick followed by admission when the queue is empty,
      otherwise a slice for its head. */
  method Turn(s: State, quantum: int) returns (r: State)
    requires Shaped(s)
    ensures r == Step(s, quantum)
  {
    if s.queue == [] {
      r := AdmitArrivals(s.(time := s.time + 1));
    } else {
      r := Dispatch(s, quantum);
    }
  }

  /* ---------------------------------------------------------------------------------------- */
  /* What the loop keeps.                                                                     */

  /** A workload ready for the loop: not dispatched, non-negative bursts, remaining reset. */
  predicate ResetWorkload(ps: seq<Process>) {
    Fresh(ps) && NonNegativeBursts(ps)
    && forall i :: 0 <= i < |ps| ==> ps[i].remainingTime == ps[i].burstTime
  }

  /** Added, but no longer queued: the process has run to the end. */
  predicate Finished(s: State, i: int)
    requires Shaped(s) && 0 <= i < |s.procs|
  {
    s.added[i] && i !in s.queue
  }

  /** The queue holds each index at most once, and only added ones. */
  predicate QueueOk(s: State)
    requires Shaped(s)
  {
    && (forall k, l :: 0 <= k < l < |s.queue| ==> s.queue[k] != s.queue[l])
    && (forall k :: 0 <= k < |s.queue| ==> s.added[s.queue[k]])
  }

  /** One process `p` at `time`, relative to the record `orig` it started as; `added` and
      `finished` are its flags in the loop state. */
  predicate JobOk(p: Process, orig: Process, time: int, added: bool, finished: bool) {
    && SameJob(p, orig)
    && 0 <= p.remainingTime <= orig.burstTime
    && (!added ==> p == orig)
    && (p.startTime == Unset ==>
          p.remainingTime == orig.burstTime && p.completionTime == orig.completionTime)
    && (p.startTime != Unset ==>
          0 <= p.startTime && p.startTime + orig.burstTime - p.remainingTime <= time)
    && (finished ==>
          p.remainingTime == 0 && p.startTime != Unset
          && p.startTime + orig.burstTime <= p.completionTime <= time)
  }

  /** The per-process state relative to the workload `ps` the loop started from. */
  predicate Jobs(s: State, ps: seq<Process>)
    requires Shaped(s)
  {
    && |s.procs| == |ps|
    && s.time >= 0
    && forall i :: 0 <= i < |ps| ==> JobOk(s.procs[i], ps[i], s.time, s.added[i], Finished(s, i))
  }

  /** An untouched process stays in order as the clock advances and it is added, provided it
      does not become finished without having been so. */
  lemma JobOkLater(p: Process, orig: Process, time: int, time': int, added: bool, added': bool,
                   finished: bool, finished': bool)
    requires JobOk(p, orig, time, added, finished)
    requires time <= time' && (added ==> added') && (finished' ==> finished)
    ensures JobOk(p, orig, time', added', finished')
  {
  }

  /** The head of the queue after its slice: the clock gains what its remaining time loses. */
  lemma JobOkSlice(p: Process, orig: Process, time: int, quantum: int)
    requires JobOk(p, orig, time, true, false) && quantum > 0 && time >= 0
    ensures var q := Slice(p, time, quantum);
      var t := time + Min(quantum, p.remainingTime);
      && JobOk(q, orig, t, true, false)
      && (q.remainingTime <= 0 ==> JobOk(q.(completionTime := t), orig, t, true, true))
  {
  }

  /** What the loop keeps relative to the workload `ps` it started from. */
  ghost predicate Good(s: State, ps: seq<Process>) {
    Counted(s) && QueueOk(s) && Jobs(s, ps)
  }

  /** An idle tick only admits arrivals: nothing leaves the queue. */
  lemma IdleKeepsGood(s: State, ps: seq<Process>, quantum: int)
    requires Good(s, ps) && quantum > 0 && s.completed < |s.procs| && s.queue == []
    ensures Good(Step(s, quantum), ps)
  {
    StepProgress(s, quantum);
    var r := Step(s, quantum);
    var s1 := s.(time := s.time + 1);
    AdmitKeepsQueueOk(s1);
    AdmitFromEnqueues(s1, 0);
    forall i | 0 <= i < |ps| ensures JobOk(r.procs[i], ps[i], r.time, r.added[i], Finished(r, i)) {
      JobOkLater(s.procs[i], ps[i], s.time, r.time, s.added[i], r.added[i], Finished(s, i), Finished(r, i));
    }
  }

  /** The state in the middle of a slice: the head has run and left the queue. */
  function Middle(s: State, quantum: int): State
    requires Shaped(s) && s.queue != []
  {
    var idx := s.queue[0];
    State(s.procs[idx := Slice(s.procs[idx], s.time, quantum)], s.queue[1..], s.added,
          s.time + Min(quantum, s.procs[idx].remainingTime), s.completed)
  }

  /** Admission keeps the queue duplicate-free and added, and queues no index that was already
      added unless it was queued before. */
  lemma AdmitKeepsQueueOk(m: State)
    requires Shaped(m) && QueueOk(m)
    ensures QueueOk(Admit(m))
    ensures forall i :: i in Admit(m).queue && m.added[i] ==> i in m.queue
  {
    var a := Admit(m);
    AdmitFromAppends(m, 0);
    AdmitFromIncreasing(m, 0);
    assert a.queue[..|m.queue|] == m.queue;
    forall k, l | 0 <= k < l < |a.queue| ensures a.queue[k] != a.queue[l] {
      if l < |m.queue| {
        assert a.queue[k] == m.queue[k] && a.queue[l] == m.queue[l];
      } else if k < |m.queue| {
        assert a.queue[k] == m.queue[k];
      }
    }
    forall i | i in a.queue && m.added[i] ensures i in m.queue {
      var k :| 0 <= k < |a.queue| && a.queue[k] == i;
      assert k < |m.queue| && m.queue[k] == i;
    }
  }

  /** After a slice the queue is still duplicate-free and holds only added indices. */
  lemma DispatchKeepsQueue(s: State, quantum: int)
    requires Shaped(s) && QueueOk(s) && s.queue != []
    ensures QueueOk(Step(s, quantum))
  {
    var idx := s.queue[0];
    var mid := Middle(s, quantum);
    assert s.queue == [idx] + mid.queue;
    assert QueueOk(mid);
    var a := Admit(mid);
    AdmitKeepsQueueOk(mid);
    DispatchStep(s, quantum, a);
    assert idx !in a.queue;
  }

  /** Every index other than the head that is out of the queue for good after a slice was so
      before: admission only appends. */
  lemma DispatchKeepsFinished(s: State, quantum: int)
    requires Shaped(s) && s.queue != []
    ensures forall i :: 0 <= i < |s.procs| && i != s.queue[0] && Finished(Step(s, quantum), i) ==> Finished(s, i)
  {
    var idx := s.queue[0];
    var mid := Middle(s, quantum);
    assert s.queue == [idx] + mid.queue;
    var a := Admit(mid);
    AdmitFromEnqueues(mid, 0);
    DispatchStep(s, quantum, a);
    var r := Step(s, quantum);
    assert r.queue == a.queue + [idx] || r.queue == a.queue;
    assert a.queue[..|mid.queue|] == mid.queue;
    forall i | 0 <= i < |s.procs| && i != idx && Finished(r, i) ensures Finished(s, i) {
      assert i !in a.queue;
    }
  }

  /** A slice keeps the per-process state: the head's remaining time falls by the slice length,
      which the clock gains, and the head gets the clock as completion time when it reaches 0. */
  lemma DispatchKeepsJobs(s: State, ps: seq<Process>, quantum: int)
    requires Good(s, ps) && quantum > 0 && s.completed < |s.procs| && s.queue != []
    ensures Jobs(Step(s, quantum), ps)
  {
    DispatchKeepsFinished(s, quantum);
    var r := Step(s, quantum);
    var idx := s.queue[0];
    var mid := Middle(s, quantum);
    var a := Admit(mid);
    DispatchStep(s, quantum, a);
    AdmitKeepsQueueOk(mid);
    assert s.added[idx] && !Finished(s, idx);
    JobOkSlice(s.procs[idx], ps[idx], s.time, quantum);
    forall i | 0 <= i < |ps| ensures JobOk(r.procs[i], ps[i], r.time, r.added[i], Finished(r, i)) {
      if i != idx {
        JobOkLater(s.procs[i], ps[i], s.time, r.time, s.added[i], r.added[i], Finished(s, i), Finished(r, i));
      }
    }
  }

  lemma StepKeepsGood(s: State, ps: seq<Process>, quantum: int)
    requires Good(s, ps) && quantum > 0 && s.completed < |s.procs|
    ensures Good(Step(s, quantum), ps)
  {
    if s.queue == [] {
      IdleKeepsGood(s, ps, quantum);
    } else {
      StepProgress(s, quantum);
      DispatchKeepsQueue(s, quantum);
      DispatchKeepsJobs(s, ps, quantum);
    }
  }

  lemma {:induction false} RunKeepsGood(s: State, ps: seq<Process>, quantum: int)
    requires Good(s, ps) && quantum > 0
    ensures Good(RunFrom(s, quantum), ps)
    decreases |s.procs| - s.completed, TotalRemaining(s.procs), LatestArrival(s.procs) - s.time
  {
    if s.completed < |s.procs| {
      StepProgress(s, quantum);
      StepKeepsGood(s, ps, quantum);
      RunKeepsGood(Step(s, quantum), ps, quantum);
    }
  }

  /** At the end of the loop every index has been added and has left the queue. */
  lemma AllFinished(s: State, ps: seq<Process>)
    requires Good(s, ps) && s.completed >= |s.procs|
    ensures forall i :: 0 <= i < |ps| ==> Finished(s, i)
  {
    CountTrueFull(s.added);
  }

  /** What `run_rr` computes from a reset workload: every process runs its whole burst (its
      remaining time ends at 0), is dispatched at a time of at least 0, and completes no earlier
      than its burst after that first dispatch. */
  lemma Schedule(ps: seq<Process>, quantum: int)
    requires |ps| >= 1 && quantum > 0 && ResetWorkload(ps)
    ensures |Run(ps, quantum)| == |ps|
    ensures forall i :: 0 <= i < |ps| ==>
      var r := Run(ps, quantum)[i];
      SameJob(r, ps[i]) && r.remainingTime == 0 && 0 <= r.startTime
      && r.startTime + ps[i].burstTime <= r.completionTime
  {
    var s0 := Seeded(ps);
    RunKeepsGood(s0, ps, quantum);
    AllFinished(RunFrom(s0, quantum), ps);
  }

  /* ---------------------------------------------------------------------------------------- */
  /* Causality, and the seed at src/scheduler.cpp:126-127.                                    */

  /** Every queued process has arrived, and every dispatched one was dispatched after arriving. */
  predicate Causal(s: State)
    requires Shaped(s)
  {
    && (forall k :: 0 <= k < |s.queue| ==> s.procs[s.queue[k]].arrivalTime <= s.time)
    && (forall i :: 0 <= i < |s.procs| && s.procs[i].startTime != Unset ==>
          s.procs[i].arrivalTime <= s.procs[i].startTime)
  }

  /** An idle tick admits only processes that have arrived by the new clock. */
  lemma IdleKeepsCausal(s: State, quantum: int)
    requires Shaped(s) && Causal(s) && s.queue == []
    ensures Causal(Step(s, quantum))
  {
    AdmitFromAppends(s.(time := s.time + 1), 0);
  }

  /** A slice moves the clock forward, admits arrived processes only, and dispatches the head,
      which had arrived, at the clock. */
  lemma DispatchKeepsCausal(s: State, quantum: int)
    requires Shaped(s) && Causal(s) && quantum > 0 && s.queue != [] && s.procs[s.queue[0]].remainingTime >= 0
    ensures Causal(Step(s, quantum))
  {
    var idx := s.queue[0];
    var mid := Middle(s, quantum);
    var a := Admit(mid);
    AdmitFromAppends(mid, 0);
    DispatchStep(s, quantum, a);
    var r := Step(s, quantum);
    assert r.time == mid.time >= s.time;
    assert forall x :: 0 <= x < |s.procs| ==> r.procs[x].arrivalTime == s.procs[x].arrivalTime;
    forall k | 0 <= k < |r.queue| ensures r.procs[r.queue[k]].arrivalTime <= r.time {
      if k < |mid.queue| {
        assert r.queue[k] == a.queue[..|mid.queue|][k] == s.queue[k + 1];
      } else if k == |a.queue| {
        assert r.queue[k] == idx;
      }
    }
  }

  lemma StepKeepsCausal(s: State, ps: seq<Process>, quantum: int)
    requires Good(s, ps) && Causal(s) && quantum > 0 && s.completed < |s.procs|
    ensures Causal(Step(s, quantum))
  {
    if s.queue == [] {
      IdleKeepsCausal(s, quantum);
    } else {
      assert JobOk(s.procs[s.queue[0]], ps[s.queue[0]], s.time, s.added[s.queue[0]], Finished(s, s.queue[0]));
      DispatchKeepsCausal(s, quantum);
    }
  }

  lemma {:induction false} RunKeepsCausal(s: State, ps: seq<Process>, quantum: int)
    requires Good(s, ps) && Causal(s) && quantum > 0
    ensures Causal(RunFrom(s, quantum))
    decreases |s.procs| - s.completed, TotalRemaining(s.procs), LatestArrival(s.procs) - s.time
  {
    if s.completed < |s.procs| {
      StepProgress(s, quantum);
      StepKeepsGood(s, ps, quantum);
      StepKeepsCausal(s, ps, quantum);
      RunKeepsCausal(Step(s, quantum), ps, quantum);
    }
  }

  /** A `start_time` once set is never overwritten (src/scheduler.cpp:143-144). */
  lemma {:induction false} RunKeepsStarts(s: State, quantum: int)
    requires Counted(s) && quantum > 0
    ensures forall i :: 0 <= i < |s.procs| && s.procs[i].startTime != Unset ==>
      RunFrom(s, quantum).procs[i].startTime == s.procs[i].startTime
    decreases |s.procs| - s.completed, TotalRemaining(s.procs), LatestArrival(s.procs) - s.time
  {
    if s.completed < |s.procs| {
      StepProgress(s, quantum);
      RunKeepsStarts(Step(s, quantum), quantum);
    }
  }

  /** As written, the process that sorts first is dispatched at time 0 whatever its arrival time. */
  lemma FirstDispatchedAtZero(ps: seq<Process>, quantum: int)
    requires |ps| >= 1 && quantum > 0 && Fresh(ps)
    ensures Run(ps, quantum)[0].startTime == 0
  {
    var s0 := Seeded(ps);
    StepProgress(s0, quantum);
    var s1 := Step(s0, quantum);
    assert s1.procs[0].startTime == 0;
    RunKeepsStarts(s1, quantum);
  }

  /** As written, round robin respects arrival times exactly when the first process of the sorted
      list arrives at time 0 or before: otherwise that process runs before it has arrived. */
  lemma CausalIffFirstArrivesAtZero(ps: seq<Process>, quantum: int)
    requires |ps| >= 1 && quantum > 0 && ResetWorkload(ps)
    ensures (forall i :: 0 <= i < |ps| ==> ps[i].arrivalTime <= Run(ps, quantum)[i].startTime)
        <==> ps[0].arrivalTime <= 0
  {
    if ps[0].arrivalTime <= 0 {
      var s0 := Seeded(ps);
      RunKeepsGood(s0, ps, quantum);
      RunKeepsCausal(s0, ps, quantum);
      Schedule(ps, quantum);
    } else {
      FirstDispatchedAtZero(ps, quantum);
    }
  }

  /** The smallest input that shows it: one process arriving at 3 with burst 2 is dispatched at 0,
      before it arrives. */
  lemma RunsBeforeArrival()
    ensures var p := Process([80, 49], 3, 2, 2, Unset, 0, 0);
      Run([p], 2)[0].startTime == 0 < p.arrivalTime
  {
    var p := Process([80, 49], 3, 2, 2, Unset, 0, 0);
    FirstDispatchedAtZero([p], 2);
  }

  /** The evidently intended seed: admit at time 0 every process that has arrived by then, as
      every later admission does, instead of queueing index 0 unconditionally. */
  function SeededByArrival(ps: seq<Process>): (s: State)
    ensures Counted(s) && s.procs == ps && s.completed == 0 && s.time == 0
    ensures forall i :: 0 <= i < |ps| ==> (s.added[i] <==> ps[i].arrivalTime <= 0)
  {
    CountAllFalse(|ps|);
    var s0 := State(ps, [], AllFalse(|ps|), 0, 0);
    AdmitFromCounts(s0, 0);
    Admit(s0)
  }

  /** Round robin with the corrected seed. It also accepts an empty list. */
  function RunFromArrivals(ps: seq<Process>, quantum: int): (r: seq<Process>)
    requires quantum > 0
    ensures |r| == |ps|
  {
    RunFrom(SeededByArrival(ps), quantum).procs
  }

  /** The corrected seed queues exactly the processes that have arrived at time 0, untouched. */
  lemma SeededByArrivalGood(ps: seq<Process>)
    requires ResetWorkload(ps)
    ensures Good(SeededByArrival(ps), ps) && Causal(SeededByArrival(ps))
  {
    var e := State(ps, [], AllFalse(|ps|), 0, 0);
    var s := SeededByArrival(ps);
    AdmitKeepsQueueOk(e);
    AdmitFromAppends(e, 0);
    AdmitFromEnqueues(e, 0);
    forall i | 0 <= i < |ps| ensures JobOk(s.procs[i], ps[i], s.time, s.added[i], Finished(s, i)) {
      assert s.procs[i] == ps[i];
    }
  }

  /** With the corrected seed every process is dispatched no earlier than it arrives, and so
      completes no earlier than its arrival plus its burst. */
  lemma CorrectedIsCausal(ps: seq<Process>, quantum: int)
    requires quantum > 0 && ResetWorkload(ps)
    ensures |RunFromArrivals(ps, quantum)| == |ps|
    ensures forall i :: 0 <= i < |ps| ==>
      var r := RunFromArrivals(ps, quantum)[i];
      SameJob(r, ps[i]) && r.remainingTime == 0
      && ps[i].arrivalTime <= r.startTime && r.startTime + ps[i].burstTime <= r.completionTime
  {
    var s0 := SeededByArrival(ps);
    SeededByArrivalGood(ps);
    RunKeepsGood(s0, ps, quantum);
    RunKeepsCausal(s0, ps, quantum);
    AllFinished(RunFrom(s0, quantum), ps);
  }
}
