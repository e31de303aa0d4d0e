# MiniOS-Scheduler in Dafny

A model of the CPU-scheduling engine of MiniOS-Scheduler, with proofs about it. The engine is
`class Scheduler` in `src/scheduler.cpp`. It holds a vector of `Process` records, an `Algorithm`
tag and a time quantum. Its four single-core policies work on a logical integer clock. Each one
fills in `start_time`, `completion_time` and (round robin) `remaining_time` in place:

- `run_fcfs` walks the list in its given order.
- `run_sjf` and `run_priority` are non-preemptive. They pick, among the processes that have
  arrived and are not done, the one with the smallest `burst_time` or the smallest `priority`.
  Ties go to the lowest index. If nothing is eligible the clock ticks once.
- `run_rr` resets the remaining times and sorts the list by arrival. It then serves a FIFO
  ready queue of indices, giving each process at most one quantum per turn.

The model also covers the helpers in `src/utils.cpp` that compute values rather than print them:
- the turnaround and waiting figures of `print_table`;
- the colour `color` picks for a timeline label;
- the text `export_gantt_csv` writes.

Structure:
- `engine.dfy` (`Engine.Scheduler`) is a class holding the process list as a `seq<Process>`.
  Its methods keep the source's loops, flags and queue, and update the list in place.
- Each method is proved equal to a pure reference function: `Fcfs.Schedule`, `NonPreemptive.Run`
  and `RoundRobin.Run`. The scheduling properties are lemmas about those functions, in
  `fcfs.dfy`, `nonpreemptive.dfy` and `round_robin.dfy`.
- `metrics.dfy` holds the per-process figures.
- `gantt.dfy` holds colour selection and the CSV text.
- `text.dfy` models `std::string` as a sequence of signed `char` values (-128..127), with
  decimal output.
- `process.dfy` holds the `Process` record, with the fields the engine reads or writes.

`run_sjf` does not preempt: it selects by `burst_time`, not remaining time. SJF is sometimes
described as shortest-remaining-time-first; the model follows the code. The `-1` that
`start_time` must hold before a run is taken as the "not yet dispatched" value the code tests
for.

## Model

| member | source | states |
|---|---|---|
| Engine.Scheduler.constructor | src/scheduler.cpp:6-7 | the scheduler holds exactly the given list, algorithm and quantum |
| Engine.Scheduler.Run | src/scheduler.cpp:9-16 | FCFS, SJF, PRIORITY and ROUND_ROBIN leave the list as the matching policy does; MLFQ and ROUND_ROBIN_MULTICORE leave it unchanged |
| Engine.Scheduler.RunFcfs | src/scheduler.cpp:18-26 | the loop leaves the list equal to `Fcfs.Schedule` of the old list |
| Engine.Scheduler.RunSjf | src/scheduler.cpp:28-64 | the list becomes the non-preemptive run selecting by smallest burst |
| Engine.Scheduler.RunPriority | src/scheduler.cpp:67-106 | the list becomes the non-preemptive run selecting by smallest priority number |
| Engine.Scheduler.RunNonPreemptive | src/scheduler.cpp:35-63 | the pick/idle/run-whole loop, with its `done` flags and `completed` counter, ends in the state `NonPreemptive.Run` describes |
| Engine.Scheduler.RunRr | src/scheduler.cpp:109-165 | the list ends as the queue loop leaves some arrival-sorted permutation of the reset list; which permutation is unspecified because the sort is unstable |
| Fcfs.DispatchRule | src/scheduler.cpp:19-24 | the clock starts at 0; each process is dispatched at the later of the clock and its arrival; afterwards the clock stands at least its burst past its arrival |
| Fcfs.Schedule | src/scheduler.cpp:18-26 | list order and job fields are kept; the first process starts at max(0, arrival); every later one starts at the later of its predecessor's completion and its own arrival; each completes its whole burst after starting, so start >= arrival |
| Fcfs.CompletionsNondecreasing | src/scheduler.cpp:18-26 | with non-negative bursts, completion times never decrease along the list |
| Fcfs.NoOverlap | src/scheduler.cpp:18-26 | every process starts no earlier than any earlier process completes |
| Fcfs.Idempotent | src/scheduler.cpp:18-26 | running FCFS on its own output changes nothing |
| Fcfs.MainExample | src/main.cpp:7-11 | the three demo records get starts 0, 5, 8 and completions 5, 8, 9 |
| NonPreemptive.Key | src/scheduler.cpp:42 | SJF compares `burst_time`; PRIORITY compares `priority` (line 83) |
| NonPreemptive.Choice | src/scheduler.cpp:40-47 | the selected index is the eligible one with the smallest key below 1e9, ties to the lowest index, or -1 exactly when no eligible process has a key below 1e9 |
| NonPreemptive.ChoiceBelow | src/scheduler.cpp:40-47 | after scanning the first k indices, the candidate is the eligible index with the smallest key below 1e9 (ties to the lowest index), or -1 when no such index exists |
| NonPreemptive.PickNext | src/scheduler.cpp:36-47 | the selection loop returns the not-done, arrived process with the smallest key, ties to the lowest index, or -1 exactly when none is eligible below the 1e9 sentinel |
| NonPreemptive.RunToCompletion | src/scheduler.cpp:56-60 | the dispatched process keeps its job fields and remaining time, keeps a start already set or gets the clock, and completes at clock + burst |
| NonPreemptive.Step | src/scheduler.cpp:49-62 | with nothing eligible the clock advances by exactly 1 and nothing else changes; otherwise the chosen process was not done, is marked done, keeps a start already set or gets the clock, completes at clock + burst, and the clock moves to that completion |
| NonPreemptive.StepProgress | src/scheduler.cpp:35-63 | each iteration marks one more process done, or idles while some process is still to arrive, so the loop ends |
| NonPreemptive.RunFrom | src/scheduler.cpp:35-63 | the loop stops only with every process done |
| NonPreemptive.Run | src/scheduler.cpp:28-64 | the run from the initial state (clock 0, nothing done) keeps the list length; its properties are `NonPreemptive.Schedule` |
| NonPreemptive.Schedule | src/scheduler.cpp:28-106 | from a fresh list with non-negative bursts: job fields and remaining times are kept; start >= 0 and start >= arrival; completion = start + burst; no two runs overlap; a process dispatched while another had already arrived and was still waiting precedes it in the selection order |
| NonPreemptive.KeepsStarts | src/scheduler.cpp:56-57 | a `start_time` already set before the run is never overwritten |
| RoundRobin.ResetRemaining | src/scheduler.cpp:115-116 | every process gets `remaining_time` = `burst_time`, and nothing else changes |
| RoundRobin.SortByArrival | src/scheduler.cpp:122-123 | the result is a permutation of the input sorted by arrival |
| RoundRobin.AdmitFrom | src/scheduler.cpp:132-134 | admission appends to the queue and adds exactly the not-yet-added indices that have arrived by the clock; list, clock and count are untouched |
| RoundRobin.AdmitFromAppends | src/scheduler.cpp:151-156 | every appended index has arrived by the clock and was not added before |
| RoundRobin.AdmitFromIncreasing | src/scheduler.cpp:151-156 | the appended indices come in strictly increasing index order, so none is appended twice |
| RoundRobin.AdmitFromEnqueues | src/scheduler.cpp:151-156 | every newly added index is in the appended part of the queue |
| RoundRobin.AdmitFromCounts | src/scheduler.cpp:151-156 | the number of added indices grows by exactly the number appended to the queue |
| RoundRobin.AdmitKeepsQueueOk | src/scheduler.cpp:151-156 | admission keeps the queue duplicate-free and made of added indices, and queues no index added earlier unless it was queued already |
| RoundRobin.Admit | src/scheduler.cpp:151-156 | admission keeps the list, clock and count, only appends to the queue, and sets `added` for exactly the arrived indices (the same loop is at lines 132-134) |
| RoundRobin.AdmitArrivals | src/scheduler.cpp:151-156 | the admission loop computes `Admit` of the loop state |
| RoundRobin.ResetAll | src/scheduler.cpp:115-116 | the reset loop sets every `remaining_time` to its `burst_time` and changes nothing else |
| RoundRobin.Slice | src/scheduler.cpp:143-147 | the head keeps its job fields and completion time, gets the clock as start if unset, and is left with remaining − quantum, or 0 if that is not positive |
| RoundRobin.Step | src/scheduler.cpp:130-163 | an iteration keeps the state well formed: one `added` flag per process, queue entries in range, the same number of processes |
| RoundRobin.StepEffect | src/scheduler.cpp:130-163 | idle: the clock gains 1, no process changes, and exactly the processes arrived by the new clock are added; slice: only the head changes, the clock gains min(quantum, remaining), the rest of the queue keeps its order ahead of the arrivals, and the head goes to the tail with time left or completes at the clock with `completed` + 1 |
| RoundRobin.Turn | src/scheduler.cpp:130-163 | the loop body: with an empty queue, the clock ticks once and arrivals are admitted; otherwise the head runs one slice; either way the result is `Step` |
| RoundRobin.Serve | src/scheduler.cpp:129-164 | the `while (completed < n)` loop ends with the list `RunFrom` gives for its starting state |
| RoundRobin.Dispatch | src/scheduler.cpp:138-163 | the dispatch branch, written with the source's local updates, computes `Step` on a non-empty queue |
| RoundRobin.Seeded | src/scheduler.cpp:110-127 | as written the loop starts at clock 0 with nothing completed, the queue holding index 0 only, and only index 0 added |
| RoundRobin.RunFrom | src/scheduler.cpp:129-164 | the loop stops only once every process is completed, with the queue bookkeeping intact and the list length kept |
| RoundRobin.Run | src/scheduler.cpp:109-165 | the list after the loop from the as-written seed has the input's length; its properties are `RoundRobin.Schedule` |
| RoundRobin.StepProgress | src/scheduler.cpp:146-148 | each iteration completes a process, or (quantum > 0) strictly lowers the total remaining time, or idles while a process is still to arrive; the queue bookkeeping is kept |
| RoundRobin.StepKeepsGood | src/scheduler.cpp:129-164 | each iteration keeps the invariant: queue entries distinct and added; 0 <= remaining <= burst; job fields unchanged; unadded processes untouched; a dispatched one has start >= 0 and start + (burst − remaining) <= clock; a finished one has remaining 0 and start + burst <= completion <= clock |
| RoundRobin.StepKeepsCausal | src/scheduler.cpp:129-164 | if every queued process has arrived by the clock and every dispatched one started no earlier than it arrived, both still hold after an iteration |
| RoundRobin.Schedule | src/scheduler.cpp:109-165 | from a reset list with non-negative bursts, every process ends with remaining 0, start >= 0 and completion >= start + burst, job fields unchanged |
| RoundRobin.RunKeepsStarts | src/scheduler.cpp:143-144 | a `start_time` once set is never overwritten |
| RoundRobin.FirstDispatchedAtZero | src/scheduler.cpp:126-127 | as written, the first process of the sorted list starts at time 0 whatever its arrival |
| RoundRobin.CausalIffFirstArrivesAtZero | src/scheduler.cpp:126-127 | as written, every process starts no earlier than it arrives if and only if the earliest arrival is <= 0 |
| RoundRobin.RunsBeforeArrival | src/scheduler.cpp:126-127 | one process arriving at 3 (burst 2, quantum 2) is dispatched at time 0 |
| RoundRobin.SeededByArrival | src/scheduler.cpp:126-127 | the corrected seed starts at clock 0 with nothing completed and adds exactly the processes that have arrived by time 0 |
| RoundRobin.RunFromArrivals | src/scheduler.cpp:129-164 | the list after the loop from the corrected seed has the input's length; its properties are `RoundRobin.CorrectedIsCausal` |
| RoundRobin.SeededByArrivalGood | src/scheduler.cpp:126-127 | the corrected seed queues only processes that have arrived at time 0, leaves every process untouched, and starts the loop invariants |
| RoundRobin.CorrectedIsCausal | src/scheduler.cpp:126-127 | seeding the queue by admitting the processes arrived at time 0: every process starts no earlier than it arrives and completes no earlier than arrival + burst, with remaining 0 |
| Metrics.Turnaround | src/utils.cpp:13 | arrival + turnaround = completion |
| Metrics.Waiting | src/utils.cpp:13-15 | waiting is never negative, is at least turnaround − burst, and equals one of the two: turnaround − burst clamped up to 0 |
| Metrics.Unclamped | src/utils.cpp:13-15 | if burst >= 0 and completion >= arrival + burst, no clamping happens and 0 <= waiting <= turnaround |
| Metrics.WaitedUntilStart | src/utils.cpp:13-15 | a process that ran its whole burst from its start waited from arrival until start |
| Metrics.FcfsWaiting | src/utils.cpp:13-15 | under FCFS each process's waiting time is its start − arrival |
| Metrics.NonPreemptiveWaiting | src/utils.cpp:13-15 | under SJF and PRIORITY each process's waiting time is its start − arrival |
| Metrics.CorrectedRoundRobinUnclamped | src/utils.cpp:13-15 | under corrected round robin the clamp never fires |
| Metrics.TotalsUnclamped | src/utils.cpp:17-18 | when no process is clamped, total waiting = total turnaround − total burst <= total turnaround |
| Metrics.Totals | src/utils.cpp:12-18 | the accumulation loop sums waiting and turnaround over the list in order |
| Gantt.CRem6 | src/utils.cpp:39 | C++ `% 6`: strictly between −6 and 6, same residue as the operand, and the operand's sign |
| Gantt.Hash | src/utils.cpp:38-39 | the folded hash lies in −5..5 |
| Gantt.Color | src/utils.cpp:34-49 | `color` returns the label between its SGR colour sequence and the reset sequence |
| Gantt.SpecialLiterals | src/utils.cpp:35-36 | the two fixed strings are IDLE in colour 90 and CS in colour 37 |
| Gantt.ColorLiterals | src/utils.cpp:42-47 | the six switch prefixes and the suffix are the SGR sequences 31..36 and 0 |
| Gantt.CodeRange | src/utils.cpp:35-48 | every label gets 31..37 or 90; 90 exactly for IDLE; 37 only for CS, which is checked before hashing |
| Gantt.HashOfNonNegative | src/utils.cpp:38-39 | for non-negative characters the fold is the character sum modulo 6 |
| Gantt.CodeOfNonNegative | src/utils.cpp:41-47 | a label of non-negative characters other than IDLE and CS gets colour 31 + (sum mod 6) |
| Gantt.NegativeHashTakesDefault | src/utils.cpp:39-47 | a label other than IDLE and CS whose folded hash is negative falls to the default colour 36 |
| Gantt.NegativeByteTakesDefault | src/utils.cpp:39-47 | the one-byte label 0xC2 hashes to −2 and gets the default colour 36, where its byte sum modulo 6 would give 35 |
| Gantt.ColorRoundTrip | src/utils.cpp:42-47 | the label can be read back from what `color` returns |
| Gantt.ExportGanttCsv | src/utils.cpp:73-75 | the text written is the header, then one row per entry in order |
| Gantt.RowRoundTrip | src/utils.cpp:75 | a row `t,label` parses back to its label when the label has no line break |
| Gantt.GanttCsvRoundTrip | src/utils.cpp:73-75 | the CSV parses back to exactly the timeline: header `time,pid`, then one row per entry, numbered from 0 in order |
| CText.Decimal | src/utils.cpp:75 | the written time is one or more decimal digits, with no leading zero unless the value is 0 |
| CText.DecimalRoundTrip | src/utils.cpp:75 | reading the digits back gives the number |

## Left out

- MLFQ, aging, I/O blocking, multi-core round robin, context-switch overhead and Gantt recording: they are declared in `include/scheduler.h` but have no body; `run()` does nothing for MLFQ and ROUND_ROBIN_MULTICORE.
- The header's five-argument constructor and `run_rr(int)`: only the bodies in `src/scheduler.cpp` are modelled (three arguments, `run_rr()`).
- `current_time`, `cpu_busy_time`, `context_switch_time`, `num_cores`, `cores` and `gantt`: never assigned by the modelled code.
- The `Process` fields `waiting_time`, `turnaround_time`, `is_waiting_for_io`, `io_remaining`, `current_queue`, `wait_counter` and `state`: the modelled code never reads or writes them.
- `std::vector` becomes a `seq` reassigned whole. Aliasing through `Process &p` in `run_rr` is modelled as a read, local updates, and a write back.
- Integer width: every `int` is unbounded here; 32-bit overflow of the clock or of the totals is not modelled.
- Engine.Scheduler.RunRr: states the result up to the unspecified tie order of `std::sort`. It requires a non-empty list: `added[0]` is out of range otherwise.
- NonPreemptive.Run: requires every key below `1e9`. A process whose key is 1e9 or more is never selected (the comparison is a strict `<` against `1e9`), and the loop would not end.
- RoundRobin.Run: requires a positive quantum; with 0 the loop would not end.
- Metrics.Totals: the totals are exact integer sums. The source accumulates them in `double`, which equals these sums only while they stay below 2^53.
- Console output: `print_table` formatting, the `double` averages (which divide by the list size), `print_results`, `print_gantt` and `print_system_metrics`.
- The file write of `export_gantt_csv` and its console message: only the text written is modelled.
- `plot_results.py` (plotting) and `src/main.cpp` (a driver; its records appear only in `Fcfs.MainExample`).

## Findings

| source | as written | input that shows it | evidently intended | confidence | as-written member | corrected member |
|---|---|---|---|---|---|---|
| src/scheduler.cpp:126-127 | index 0 of the sorted list is queued at time 0 whatever its arrival time, so it is dispatched before it arrives | one process arriving at 3 with burst 2, quantum 2: `start_time` 0 < arrival 3 | seed the queue with the processes that have arrived by time 0, as every later admission does, so that no process starts before it arrives | not executed | RoundRobin.CausalIffFirstArrivesAtZero | RoundRobin.CorrectedIsCausal |

`RoundRobin.RunsBeforeArrival` shows the concrete input. `Engine.Scheduler.RunRr` keeps the source's seeding. `RoundRobin.RunFromArrivals` is the corrected round robin, and `Metrics.CorrectedRoundRobinUnclamped` uses it.
