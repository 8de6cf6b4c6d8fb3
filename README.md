# process-manager scheduling core in Dafny

The process manager is a single-page CPU scheduling simulator. The user enters processes, each with:
- a name;
- an arrival time;
- a burst time;
- a priority.

The user then picks one of four algorithms and steps through the log the simulator produced. This project models the part that computes that log:
- the four simulators:
  - first-come-first-served (FCFS);
  - non-preemptive shortest-job-first (SJF);
  - preemptive priority;
  - round robin (RR);
- the snapshot taken at every step;
- the dispatch in `startSimulation` on the selected algorithm's name;
- the round-robin quantum fallback;
- the Prev and Next guards on the step cursor.

Modules:
- `Processes` (processes.dfy). It defines the process record, the working copy the driver builds, and the arrival promotion pass. It also defines the two selection orders (by remaining time then arrival, and by priority then arrival then name) and `Select`, the head of the stably sorted Ready list.
- `StepLog` (step_log.dfy). A log is a sequence of steps. Each step has a clock value, an event and a snapshot of the working list. `ValidLog` is the grammar every simulator's log obeys:
  - it starts with a Start step at time 0 over the fresh list;
  - each later step changes statuses only along New→Ready→Running→Ready/Terminated;
  - a tick moves the clock by exactly one and takes one unit from exactly the process it names;
  - no arrived process stays New;
  - `0 <= remaining <= burst` holds throughout;
  - at most one process is Running, and only at a dispatch or a tick: the start, an advance of the clock, a termination, an expiry and the final step show none Running;
  - the log ends with one final step, taken when every process is Terminated.

  `Ordered(steps, scheme)` is the per-algorithm order of events. The module proves, from these alone:
  - the clock never goes back;
  - static fields never change;
  - statuses only move forward;
  - the ticks in a complete log add up to the total burst.
- `NonPreemptive`, `Fcfs`, `Selection`, `Sjf`, `Priority` and `RoundRobin`. Each simulator is a method whose loop variables are the source's variables (`t`, `procs`, `steps`, `queue`; RR's slice counter `q` is called `used`). Each method is proved to produce a `ValidLog` in its scheme's order. Further results:
  - FCFS serves processes in stable arrival order, and its final clock equals the sum of the bursts plus the idle gaps;
  - SJF and Priority always dispatch the best Ready process;
  - all four simulators dispatch on time. Each dispatch happens at the later of two clock values: the clock of the step before it, and the earliest arrival among the processes not yet Terminated. So the scheduler never idles while a process waits, and never dispatches before an arrival;
  - every FCFS jump of the clock lands exactly on the earliest arrival among the unfinished processes, which was still ahead of the clock. Every FCFS dispatch keeps the clock of the step before it, so a wait for a later arrival always appears in the log as a jump step of its own;
  - every RR dispatch takes the head of a FIFO queue replayed from the log alone: arrivals join in list order, an expired process rejoins at the tail, and each dispatch removes the head;
  - Priority runs exactly one tick per dispatch;
  - RR slices never exceed the quantum, an expiry follows a full quantum, and the queue never holds a duplicate, a Terminated process or the running process.
- `Driver` (driver.dfy). It models the quantum fallback, the dispatch on the algorithm's name and the page's session (the log and the cursor) as a class.

Each process is identified by its index in the working list; the source compares objects instead. Every simulator works on a private copy of its input, so an input `seq` stays unchanged by construction.

## Model

| member | source | states |
|---|---|---|
| Processes.WorkingCopy | script.js:248 | the copy keeps every process's static fields, gives it status New, keeps its length, and turns valid input into fresh records |
| Processes.WorkingCopyIdempotent | script.js:345-348 | preparing an already prepared list again (each simulator re-copies and resets to New) changes nothing |
| Processes.PromoteArrivals | script.js:399 | every New process whose arrival time has come becomes Ready, nothing else changes, and afterwards no arrived process is New |
| Processes.PromotedTwice | script.js:376 | promoting at t and then at a later time u is the same as promoting at u |
| Processes.Select | script.js:400-408 | returns None exactly when no process is Ready; otherwise the index of a Ready process that no Ready process beats and that beats every Ready process listed before it (the head of the stable sort) |
| Processes.BestReadyUnique | script.js:407-408 | the head of the stably sorted Ready list is unique |
| Processes.NameBeforeTotal | script.js:447 | the name tie-break orders any two distinct names one way or the other |
| Processes.NameBeforeTransitive | script.js:447 | the name tie-break is transitive |
| Processes.BeforeSplit | script.js:447 | the priority comparator is a strict weak order: if p precedes r, then any q follows p or precedes r |
| Processes.IdleBeforeLastArrival | script.js:401-404 | the clock is advanced with nothing Ready only before the latest arrival, so idle rounds cannot repeat forever |
| StepLog.Snapshot | script.js:31-33 | the logged copy equals the working list at the moment it is taken, field by field |
| StepLog.StepAt | script.js:351 | the first step is the Start step at time 0 over the fresh list; every later step fits the one before it |
| StepLog.TimesNonDecreasing | script.js:344-528 | along any log the clock is never negative and never decreases |
| StepLog.StaticFieldsKept | script.js:344-528 | every snapshot has the input's length, and each process keeps its name, arrival, burst and priority |
| StepLog.LifecycleForward | script.js:344-528 | a process's status only moves along New→Ready→Running→Ready/Terminated, Terminated is final, and remaining time never grows |
| StepLog.WorkConserved | script.js:344-528 | in a complete log the number of execution ticks equals the total burst of the input |
| StepLog.OnTimeAt | script.js:397-410 | in a log whose dispatches are all on time, the dispatch at any position k happens at the later of the previous step's clock and the earliest arrival among the processes unfinished there |
| StepLog.NoDispatchAhead | script.js:355-369 | in a log whose dispatches are on time and keep the previous step's clock, no dispatch happens while the earliest unfinished arrival is still ahead of the clock: the jump to it is logged first |
| StepLog.JumpAt | script.js:355-361 | in a log whose jumps are all on time, the jump of the clock at any position k lands on the earliest arrival among the processes unfinished at the step before it, and that arrival was later than that step's clock |
| StepLog.DispatchOnTime | script.js:399-410 | a Ready process dispatched at the top of a round is dispatched on time |
| StepLog.IdleNotLate | script.js:401-404 | the idle advance of the clock, with nothing Ready or Running, never passes a dispatch that was due |
| NonPreemptive.RunToCompletion | script.js:372-382 | the dispatched process runs `remaining` ticks in a row, each taking one unit at the next clock value; it is then Terminated with 0 left, the clock has advanced by its remaining time, and arrivals in between were promoted |
| NonPreemptive.TickStep | script.js:373-377 | one tick of the run-to-completion loop (script.js lines 414-418 in SJF): the clock and the running process's count move by one, every other process only has its arrival noticed, and the log gains the tick with the count going down while the dispatches logged stay the same |
| NonPreemptive.RunsUninterrupted | script.js:413-423 | in any FCFS or SJF log, the m-th step after a dispatch is that process's tick with m fewer units left at m more clock units; after the last tick comes its termination |
| NonPreemptive.TickFollows | script.js:372-378 | a tick of a process with work left is always followed by its next tick |
| NonPreemptive.FinishFollows | script.js:380-382 | the tick that leaves 0 is always followed by that process's termination |
| Fcfs.SortByArrival | script.js:347 | the sort result is a permutation of its input and is non-decreasing in arrival time |
| Fcfs.InsertSorted | script.js:347 | inserting into an arrival-sorted list keeps it sorted |
| Fcfs.SortStable | script.js:347 | processes with equal arrival times keep their input order |
| Fcfs.FcfsOrder | script.js:345-348 | the FCFS working list has the input's length, is a permutation of the working copy, is sorted by arrival, and is fresh for valid input |
| Fcfs.MarkArrivedReady | script.js:359 | every unfinished arrived process, except the one skipped, becomes Ready; nothing else changes |
| Fcfs.AdvanceTo | script.js:355-361 | the clock jumps to the next arrival; the marking pass runs and an Advance step is logged |
| Fcfs.StartNext | script.js:363-369 | process k becomes Running and the others that have arrived become Ready; the dispatch of k is logged |
| Fcfs.BeginService | script.js:355-369 | the clock becomes the later of t and k's arrival. Process k is Running with its whole burst, and its dispatch is logged right after the dispatches of 0 … k-1. Every other process is in place. The log gains exactly one step, the dispatch, when k has arrived, and otherwise exactly two: the jump of the clock to k's arrival, over the list with the arrived processes marked Ready, and then the dispatch. Over a sorted list both are on time |
| Fcfs.WaitForArrival | script.js:355-361 | when k has not arrived, the clock jumps to its arrival, every unfinished arrived process becomes Ready and exactly that jump step is appended; otherwise the list, clock and log are unchanged. Either way k has arrived afterwards and nothing is Running |
| Fcfs.EarliestInLoop | script.js:353-361 | over the arrival-sorted list, when the loop is at process k (those before it Terminated, those from it on waiting), the earliest arrival among the unfinished processes is k's own |
| Fcfs.ServiceOnTime | script.js:355-369 | over a sorted list, a jump of the clock to k's arrival taken while k has not arrived, or a dispatch of k at the current clock once it has, keeps every dispatch and every jump of the log on time |
| Fcfs.RunOnSchedule | script.js:372-382 | the ticks and the termination logged while a process runs to completion keep every dispatch and every jump on time |
| Fcfs.ServeNext | script.js:353-383 | one loop iteration serves process k: it ends Terminated, the processes after it are untouched, and the clock is `max(t, arrival) + burst`; over a sorted list the log stays on time |
| Fcfs.Conclude | script.js:385 | once every process is served, the final step completes a valid log at the current clock, still on time |
| Fcfs.ServeInOrder | script.js:349-385 | over a fresh list, the log is valid, dispatches indices 0, 1, …, n-1 in order, and ends at sum of bursts plus idle time. Every dispatch keeps the clock of the step before it. When the list is sorted by arrival, every dispatch is on time and every jump of the clock lands on the next arrival |
| Fcfs.SimulateFcfs | script.js:344-387 | simulateFCFS produces a valid FCFS log over the arrival-sorted working copy; each process is dispatched once in list order; the final clock is the sum of bursts plus idle gaps. Every dispatch is on time and keeps the clock of the step before it, so a wait for an arrival is logged as a jump step first. Every jump of the clock goes exactly to the earliest arrival still ahead. No process is shown Running except at its dispatch and its ticks |
| Fcfs.StartsInArrivalOrder | script.js:347-353 | processes are started in non-decreasing arrival order |
| Fcfs.NoIdleWhenAllArrived | script.js:355 | with every process already arrived, the clock never jumps |
| Selection.DispatchBest | script.js:407-410 | the process chosen is Select's best Ready process; it becomes Running and its dispatch is logged on time; the log stays valid and ordered, and every choice in it is best |
| Selection.IdleRound | script.js:401-404 | an empty Ready list keeps the loop invariant at t + 1 and happens only before the latest arrival |
| Selection.PromoteRound | script.js:399 | the promotion pass at the top of a round keeps the loop invariant and the total remaining work |
| Selection.ConcludeRounds | script.js:426 | once nothing is unfinished, the final step completes a valid log whose choices were all best |
| Sjf.RunChosen | script.js:407-423 | the process run is Select's shortest job, and the clock advances by its remaining time. It ends Terminated with 0 left, while every other process only has its arrival noticed. The log gains its dispatch first and its termination last. The invariant is kept and the remaining work strictly decreases |
| Sjf.SimulateSjf | script.js:390-428 | simulateSJF produces a valid, SJF-ordered log over the working copy. Every dispatch chose the minimum of (remaining, arrival) and happened on time. No process is shown Running except at its dispatch and its ticks |
| Priority.DispatchAndTick | script.js:446-466 | one round dispatches Select's best process by (priority, arrival, name) and moves the clock one unit. The new list is RoundResult and the steps logged are RoundLog (spelled out by RoundResultSpec and RoundLogSpec) |
| Priority.RoundResultSpec | script.js:452-466 | after a round the dispatched process has one unit less; it is Terminated exactly when none is left, and Ready otherwise. Every other process only has its arrival at t + 1 noticed, and the total work drops by one |
| Priority.RoundLogSpec | script.js:449-462 | a round logs the dispatch at t, the tick at t + 1 with one unit less, and the termination at t + 1 exactly when the last unit was used |
| Priority.RoundKept | script.js:438-466 | a whole round keeps the loop invariant (a valid, ordered log whose choices are all best and on time) and uses exactly one unit of work |
| Priority.SimulatePriority | script.js:431-471 | simulatePriorityPreemptive produces a valid log in Priority order; its every dispatch chose the best Ready process and happened on time. No process is shown Running except at its dispatch and its ticks |
| Priority.EveryTickChosen | script.js:446-457 | every tick directly follows a dispatch of the same process, one clock unit earlier, and that dispatch was the best choice |
| Priority.OneTickPerDispatch | script.js:452-466 | after each dispatch come exactly one tick of that process and then either its termination or the next dispatch: preemption is re-evaluated every tick |
| RoundRobin.Joining | script.js:484-489 | the processes a pass appends are exactly those that join, in increasing list order |
| RoundRobin.ArrivalsSpec | script.js:484-489 | the arrivals between two snapshots are exactly the processes that stopped being New, each once, in list order |
| RoundRobin.ArrivalsAreJoining | script.js:505-510 | while the queue holds exactly the Ready processes, the processes a pass appends are exactly the arrivals its snapshot shows, in the same order |
| RoundRobin.ServedAt | script.js:497 | in a log served in turn, each dispatch takes the head of the queue replayed from the steps before it |
| RoundRobin.DispatchInTurn | script.js:497-499 | dispatching the head of the queue is on time and in turn, and the replayed queue afterwards is the rest of the queue |
| RoundRobin.TickInTurn | script.js:503-511 | after a tick and its enqueue pass, the queue is still the one replayed from the log |
| RoundRobin.EnqueueArrivals | script.js:505-510 | the enqueue pass: each arrived New or Ready process not yet queued, not Terminated and not the running one is set Ready and appended at the tail |
| RoundRobin.PassIsPromotion | script.js:484-489 | while the queue is well formed, the pass is the plain arrival promotion; the queue stays duplicate-free, holds only Ready processes (so none Terminated, none running) and holds every Ready one |
| RoundRobin.ArrivalsAtTop | script.js:484-489 | the top-of-round pass keeps the loop invariant and the total remaining work |
| RoundRobin.IdleRound | script.js:491-495 | an empty queue moves the clock one unit, only before the latest arrival |
| RoundRobin.DispatchHead | script.js:497-499 | the head leaves the queue, becomes Running and is logged, on time and in turn; the running process is no longer in the queue, and the rest of the queue is the one replayed from the log |
| RoundRobin.SliceStep | script.js:503-511 | one tick of the slice: the slice counter and clock go up by one and the process loses one unit; newcomers join at the tail behind the existing queue; exactly the tick step is appended, and no other process's remaining time changes |
| RoundRobin.RunSlice | script.js:501-512 | the slice runs `min(quantum, remaining)` ticks. The log keeps every earlier step and gains exactly those ticks, the m-th with slice count m and m fewer units left. No other process's remaining time changes |
| RoundRobin.EndSlice | script.js:514-523 | a process with nothing left is Terminated and logged with the queue unchanged; otherwise it is set Ready, appended at the queue's tail and the expiry is logged |
| RoundRobin.ServeHead | script.js:497-523 | a round with a non-empty queue keeps the invariant and strictly decreases the remaining work |
| RoundRobin.Round | script.js:482-524 | each outer iteration either does work or idles one clock unit before the latest arrival |
| RoundRobin.Conclude | script.js:526 | the final step completes a valid RR log |
| RoundRobin.SimulateRoundRobin | script.js:474-528 | simulateRoundRobin with a positive quantum produces a valid log in round-robin order over the working copy. Every dispatch in it is on time and takes the head of the replayed FIFO queue. No process is shown Running except at its dispatch and its ticks |
| RoundRobin.SliceOpenedBy | script.js:501-512 | every slice tick carries the run's quantum and a count between 1 and the quantum; that many steps earlier is the dispatch of the same process, that many clock units earlier |
| RoundRobin.ExpiryAfterFullSlice | script.js:514-523 | an expiry comes exactly one full quantum after the dispatch it ends; the process is then Ready with work left |
| Driver.EffectiveQuantum | script.js:102-106 | the quantum is the parsed value when it is a positive integer, otherwise 2; it is always at least 1 |
| Driver.StepBack | script.js:216 | from a cursor on the log, Prev stays on the log and moves back at most one step; it stays put exactly at the first step |
| Driver.StepOn | script.js:217 | from a cursor on the log, Next stays on the log and moves on at most one step; it stays put exactly at the last step |
| Driver.RunAlgorithm | script.js:247-259 | an unknown name gives no steps. Each of the four names gives a complete, well-formed log of its own scheme over the fresh working copy (for FCFS, that copy sorted by arrival). FCFS dispatches 0, 1, …, n-1 on time at the clock of the step before, jumps the clock only to the next arrival, and ends at the sum of bursts plus idle gaps. SJF and Priority choose best and on time; RR dispatches on time and in queue order |
| Driver.NextReachesLast | script.js:217 | enough Next presses bring the cursor to the last step and keep it there |
| Driver.CursorMovesUndo | script.js:216-217 | Next then Prev returns to the same step unless Next was at the last one, and Prev then Next likewise unless Prev was at the first |
| Driver.CursorStaysInLog | script.js:216-217 | neither button moves the cursor off the log |
| Driver.Session.constructor | script.js:7-8 | no simulation yet: empty log, cursor at 0 |
| Driver.Session.Prev | script.js:216 | Prev moves the cursor back one step unless it is at the first; the log is untouched and the cursor stays on the log |
| Driver.Session.Next | script.js:217 | Next moves the cursor on one step unless it is at the last; the log is untouched and the cursor stays on the log |
| Driver.Session.Start | script.js:243-264 | with no algorithm selected or no processes, the state is unchanged with the matching error. Otherwise the log is replaced by the simulator's log for that name, with the same guarantees as Driver.RunAlgorithm. An empty log (unknown name) is reported and leaves the cursor alone; otherwise the cursor goes to step 0 |

## Left out

- The DOM, the forms, toasts, rendering of a step, the auto-play timer, reset, and the labels are not modelled. Nor are the per-step description strings: each step carries an event tag naming what happened instead.
- Process ids (`uid`) are not modelled. A process is identified by its index in the working list; the source's `queue.includes(p)` and `p !== cur` compare object identity, which the index captures.
- `localeCompare` is modelled as plain lexicographic order on characters. Locale collation is not modelled.
- The `Waiting` status is declared but never set by the simulators. Every log is proved free of it.
- Processes.WorkingCopy keeps each record's remaining time and resets only its status. The fallback to the burst when the remaining time is missing is not modelled: the form always sets the remaining time (script.js:168).
- Fcfs.SimulateFcfs, Sjf.SimulateSjf, Priority.SimulatePriority, RoundRobin.SimulateRoundRobin, Driver.RunAlgorithm and Driver.Session.Start require `ValidInput`: a positive burst and a remaining time equal to it. That is an assumption of the model. The form's check (script.js:158) rejects only a burst that is zero or not a number, so a negative burst can reach the simulators. Arrival times and priorities are unrestricted.
- Fcfs.ServeInOrder: two of its timing guarantees are stated only for a list sorted by arrival: dispatches on time, and jumps of the clock to the next arrival. That a dispatch keeps the previous step's clock holds for any list. That is the only list simulateFCFS hands to the loop; on an unsorted list the FCFS loop can idle while an earlier process waits.
- Non-positive bursts are not modelled. In the source, FCFS, SJF and RR dispatch such a process, run no tick, and mark it Terminated at once with 0 left. Priority runs one tick, taking its remaining time further below zero, and then marks it Terminated.
- RoundRobin.SimulateRoundRobin requires `quantum >= 1`. With a quantum of 0 or less, the source's loop makes no progress and never ends. Its only caller passes `getGlobalQuantum()`, which is always at least 1 (Driver.EffectiveQuantum).
- Driver.EffectiveQuantum takes the result of `parseInt` as an `Option<int>` (None for NaN). Reading the text field and parsing it are not modelled.
- Driver.Session.Start takes the selected algorithm as an `Option<string>` and the process list as a parameter. The source reads them from page globals.
- Processes are values, so the model has no aliasing between the working list and the snapshots. The source gets the same separation by copying (`deepSnapshot`, the spread copies).
