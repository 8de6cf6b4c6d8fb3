/**
  The append-only step log every simulator returns: one Step per event, each
  carrying the clock and a snapshot of every process. The predicates here are
  the conditions shared by all four simulators; the lemmas derive from them the
  log-wide facts (monotone clock, fixed static fields, one-way status
  lifecycle, conservation of work).
*/
module StepLog {
  import opened Wrappers
  import opened Processes

  /** The event a step records, in place of its narrative text. `proc` is the
      index of the process in the working list. */
  datatype Event =
    | Start                                                  // the opening step
    | Advance                                                // FCFS: clock jumps to an arrival
    | Dispatch(proc: nat)                                    // process selected, now Running
    | Execute(proc: nat, left: int)                          // one tick; `left` remaining after it
    | SliceTick(proc: nat, used: nat, quantum: nat, left: int) // Round-Robin tick `used`/`quantum`
    | Finish(proc: nat)                                      // process Terminated
    | QuantumExpired(proc: nat)                              // Round-Robin: back to Ready
    | AllDone                                                // every process has finished

  datatype Step = Step(time: int, event: Event, processes: seq<Process>)

  predicate IsTick(e: Event) {
    e.Execute? || e.SliceTick?
  }

  /** `deepSnapshot`: an independent field-by-field copy of the working list,
      equal to it at the moment of logging. */
  function Snapshot(ps: seq<Process>): (r: seq<Process>)
    ensures r == ps
  {
    seq(|ps|, i requires 0 <= i < |ps| =>
      Process(ps[i].id, ps[i].name, ps[i].arrivalTime, ps[i].burstTime,
              ps[i].remainingTime, ps[i].priority, ps[i].status))
  }

  // ---------------------------------------------------------------------
  // Status lifecycle
  // ---------------------------------------------------------------------

  /** The status changes visible between two consecutive snapshots. A New
      process may appear Running directly (it was promoted and selected
      before the step was logged); Ready never goes straight to Terminated;
      Terminated is final; Waiting never occurs. */
  predicate Edge(a: Status, b: Status) {
    match a
    case New => b == New || b == Ready || b == Running
    case Ready => b == Ready || b == Running
    case Running => b == Running || b == Ready || b == Terminated
    case Waiting => false
    case Terminated => b == Terminated
  }

  /** Statuses reachable by any chain of edges. */
  predicate Reachable(a: Status, b: Status) {
    match a
    case New => b != Waiting
    case Ready => b == Ready || b == Running || b == Terminated
    case Running => b == Ready || b == Running || b == Terminated
    case Waiting => false
    case Terminated => b == Terminated
  }

  lemma ReachableStep(a: Status, b: Status, c: Status)
    requires Reachable(a, b) && Edge(b, c)
    ensures Reachable(a, c)
  {
  }

  // ---------------------------------------------------------------------
  // Conditions on one step and on two consecutive steps
  // ---------------------------------------------------------------------

  /** Same processes, same static fields, legal status changes. */
  predicate Evolves(ps: seq<Process>, qs: seq<Process>) {
    |ps| == |qs| &&
    forall i :: 0 <= i < |ps| ==> SameStatic(ps[i], qs[i]) && Edge(ps[i].status, qs[i].status)
  }

  /** No remaining time changed. */
  predicate Unworked(ps: seq<Process>, qs: seq<Process>) {
    |ps| == |qs| && forall i :: 0 <= i < |ps| ==> qs[i].remainingTime == ps[i].remainingTime
  }

  /** Process i ran for one tick and nobody else ran. */
  predicate OneTick(ps: seq<Process>, qs: seq<Process>, i: int) {
    |ps| == |qs| && 0 <= i < |ps| &&
    qs[i].remainingTime == ps[i].remainingTime - 1 &&
    forall j :: 0 <= j < |ps| && j != i ==> qs[j].remainingTime == ps[j].remainingTime
  }

  /** The event agrees with the snapshot it is logged with. Only a dispatch
      or a tick shows a process Running: at the start, an advance of the
      clock, a termination, an expiry and the final step none is. */
  predicate EventOk(s: Step) {
    var ps := s.processes;
    match s.event
    case Start => AllFresh(ps)
    case Advance => NoneRunning(ps)
    case Dispatch(i) => i < |ps| && ps[i].status == Running
    case Execute(i, left) => i < |ps| && ps[i].status == Running && ps[i].remainingTime == left
    case SliceTick(i, used, q, left) =>
      i < |ps| && ps[i].status == Running && ps[i].remainingTime == left && 1 <= used <= q
    case Finish(i) => i < |ps| && ps[i].status == Terminated && NoneRunning(ps)
    case QuantumExpired(i) => i < |ps| && ps[i].status == Ready && 0 < ps[i].remainingTime && NoneRunning(ps)
    case AllDone => AllTerminated(ps)
  }

  /** Two consecutive steps: the clock never goes back, a tick advances it by
      exactly one and takes exactly one unit from the process it names, any
      other step leaves every remaining time alone, and terminations, quantum
      expiries and the final step are logged at the clock of the step before. */
  predicate StepOk(a: Step, b: Step) {
    && Evolves(a.processes, b.processes)
    && a.time <= b.time
    && (if IsTick(b.event) then b.time == a.time + 1 && OneTick(a.processes, b.processes, b.event.proc)
        else Unworked(a.processes, b.processes))
    && (b.event.Finish? || b.event.QuantumExpired? || b.event.AllDone? ==> b.time == a.time)
  }

  /** Step b may follow step a: nothing follows the final step, nothing but
      the first step is a start step, consecutive steps obey StepOk, the
      snapshot is well formed and agrees with its event, and no arrived
      process is still New. */
  ghost predicate Fits(a: Step, b: Step) {
    && a.event != AllDone
    && b.event != Start
    && StepOk(a, b)
    && StateOk(b.processes, b.time)
    && EventOk(b)
    && NoneOverdue(b.processes, b.time)
  }

  /** A log so far: it opens with the Start step at time 0 over the fresh
      working list `init`, and every step fits the one before it. */
  ghost predicate LogPrefix(init: seq<Process>, steps: seq<Step>)
    decreases |steps|
  {
    if |steps| <= 1 then steps == [Step(0, Start, init)] && AllFresh(init)
    else LogPrefix(init, steps[..|steps| - 1]) && Fits(steps[|steps| - 2], steps[|steps| - 1])
  }

  /** A complete log: at least the start and the final step, the final
      "all done" step last (and, by Fits, nowhere else). */
  ghost predicate ValidLog(init: seq<Process>, steps: seq<Step>) {
    |steps| >= 2 && LogPrefix(init, steps) && steps[|steps| - 1].event == AllDone
  }

  /** A log still being written: no "all done" step yet. */
  ghost predicate OpenLog(init: seq<Process>, steps: seq<Step>) {
    LogPrefix(init, steps) && |steps| >= 1 && steps[|steps| - 1].event != AllDone
  }

  function Last(steps: seq<Step>): Step
    requires |steps| > 0
  {
    steps[|steps| - 1]
  }

  /** Appending a step that fits the last one keeps the log well formed. */
  lemma Extend(init: seq<Process>, steps: seq<Step>, s: Step)
    requires OpenLog(init, steps)
    requires StepOk(Last(steps), s) && StateOk(s.processes, s.time) && EventOk(s)
    requires NoneOverdue(s.processes, s.time) && s.event != Start
    ensures LogPrefix(init, steps + [s])
    ensures s.event != AllDone ==> OpenLog(init, steps + [s])
    ensures s.event == AllDone ==> ValidLog(init, steps + [s])
  {
    assert (steps + [s])[..|steps|] == steps;
  }

  /** Every proper prefix of a log is a log. */
  lemma {:induction false} PrefixIsLog(init: seq<Process>, steps: seq<Step>, m: int)
    requires LogPrefix(init, steps) && 1 <= m <= |steps|
    ensures LogPrefix(init, steps[..m])
    decreases |steps|
  {
    if m < |steps| {
      PrefixIsLog(init, steps[..|steps| - 1], m);
      assert steps[..|steps| - 1][..m] == steps[..m];
    } else {
      assert steps[..m] == steps;
    }
  }

  /** What a log says about one step: the first is the Start step over
      `init`; every later one fits the step before it. */
  lemma {:induction false} StepAt(init: seq<Process>, steps: seq<Step>, k: int)
    requires LogPrefix(init, steps) && 0 <= k < |steps|
    ensures k == 0 ==> steps[0] == Step(0, Start, init) && AllFresh(init)
    ensures 0 < k ==> Fits(steps[k - 1], steps[k])
    ensures StateOk(steps[k].processes, steps[k].time) && EventOk(steps[k])
    decreases |steps|
  {
    if k < |steps| - 1 {
      StepAt(init, steps[..|steps| - 1], k);
      assert steps[..|steps| - 1][k] == steps[k];
      if 0 < k {
        assert steps[..|steps| - 1][k - 1] == steps[k - 1];
      }
    }
  }

  /** The first step of a simulation. */
  lemma Begin(init: seq<Process>)
    requires AllFresh(init)
    ensures OpenLog(init, [Step(0, Start, init)])
  {
  }

  // ---------------------------------------------------------------------
  // Event order
  // ---------------------------------------------------------------------

  /** The four scheduling algorithms, as far as the order of their log
      events is concerned. */
  datatype Scheme = FirstComeFirstServed | ShortestJobFirst | PriorityPreemptive | RoundRobinSlices(quantum: nat)

  /** Which event may follow which in a log of the given scheme.
      - FCFS and SJF: a tick follows the dispatch of its own process or that
        process's previous tick with one more unit left, and a termination
        follows the tick that left nothing;
      - Priority: a process runs one tick per dispatch, after which it either
        terminates or the scheduler chooses again;
      - Round Robin: the ticks of a slice are numbered from 1; a slice ends in
        a termination when nothing is left, or in an expiry after a full
        quantum with work left;
      - FCFS alone logs its clock jumps;
      - a dispatch follows the start, a termination, a clock jump (FCFS), an
        unfinished tick (Priority) or an expiry (Round Robin);
      - the final step follows the start or a termination. */
  predicate Follows(scheme: Scheme, a: Event, b: Event) {
    var runsThrough := scheme == FirstComeFirstServed || scheme == ShortestJobFirst;
    match b
    case Start => false
    case Advance => scheme == FirstComeFirstServed && (a.Start? || a.Finish?)
    case Dispatch(_) =>
      a.Start? || a.Finish? ||
      (scheme == FirstComeFirstServed && a.Advance?) ||
      (scheme == PriorityPreemptive && a.Execute? && a.left > 0) ||
      (scheme.RoundRobinSlices? && a.QuantumExpired?)
    case Execute(i, left) =>
      (runsThrough && (a == Dispatch(i) || a == Execute(i, left + 1))) ||
      (scheme == PriorityPreemptive && a == Dispatch(i))
    case SliceTick(i, used, q, left) =>
      scheme == RoundRobinSlices(q) &&
      (if used <= 1 then used == 1 && a == Dispatch(i) else a == SliceTick(i, used - 1, q, left + 1))
    case Finish(i) =>
      (!scheme.RoundRobinSlices? && a == Execute(i, 0)) ||
      (scheme.RoundRobinSlices? && a.SliceTick? && a.proc == i && a.left == 0)
    case QuantumExpired(i) =>
      scheme.RoundRobinSlices? && a.SliceTick? && a.proc == i && a.used == scheme.quantum && a.left > 0
    case AllDone => a.Start? || a.Finish?
  }

  ghost predicate Ordered(steps: seq<Step>, scheme: Scheme)
    decreases |steps|
  {
    |steps| <= 1 ||
    (Ordered(steps[..|steps| - 1], scheme) && Follows(scheme, steps[|steps| - 2].event, steps[|steps| - 1].event))
  }

  lemma OrderedAppend(steps: seq<Step>, s: Step, scheme: Scheme)
    requires Ordered(steps, scheme) && |steps| >= 1 && Follows(scheme, steps[|steps| - 1].event, s.event)
    ensures Ordered(steps + [s], scheme)
  {
    assert (steps + [s])[..|steps|] == steps;
  }

  lemma {:induction false} FollowsAt(steps: seq<Step>, scheme: Scheme, k: int)
    requires Ordered(steps, scheme) && 0 < k < |steps|
    ensures Follows(scheme, steps[k - 1].event, steps[k].event)
    decreases |steps|
  {
    if k < |steps| - 1 {
      FollowsAt(steps[..|steps| - 1], scheme, k);
      assert steps[..|steps| - 1][k] == steps[k] && steps[..|steps| - 1][k - 1] == steps[k - 1];
    }
  }

  /** The indices dispatched, in log order. */
  function Dispatched(steps: seq<Step>): seq<nat> {
    if |steps| == 0 then []
    else Dispatched(steps[..|steps| - 1]) +
         (if steps[|steps| - 1].event.Dispatch? then [steps[|steps| - 1].event.proc] else [])
  }

  lemma DispatchedAppend(steps: seq<Step>, s: Step)
    ensures Dispatched(steps + [s]) == Dispatched(steps) + (if s.event.Dispatch? then [s.event.proc] else [])
  {
    assert (steps + [s])[..|steps|] == steps;
  }

  /** The termination step logged after the tick that left nothing. */
  lemma FinishFits(init: seq<Process>, steps: seq<Step>, cur: nat, scheme: Scheme, s: Step)
    requires OpenLog(init, steps) && Ordered(steps, scheme) && |steps| > 1
    requires Follows(scheme, Last(steps).event, Finish(cur))
    requires cur < |Last(steps).processes|
    requires s == Step(Last(steps).time, Finish(cur),
                       Last(steps).processes[cur := Last(steps).processes[cur].(remainingTime := 0, status := Terminated)])
    ensures OpenLog(init, steps + [s]) && Ordered(steps + [s], scheme)
    ensures Dispatched(steps + [s]) == Dispatched(steps)
    ensures StateOk(s.processes, s.time) && NoneOverdue(s.processes, s.time) && NoneRunning(s.processes)
  {
    var last := Last(steps);
    StepAt(init, steps, |steps| - 1);
    forall j | 0 <= j < |s.processes| ensures s.processes[j].status != Running {
      if j != cur {
        assert last.processes[j].status != Running;
      }
    }
    Extend(init, steps, s);
    OrderedAppend(steps, s, scheme);
    DispatchedAppend(steps, s);
  }

  // ---------------------------------------------------------------------
  // Drift: unlogged changes between the last logged step and the state now
  // ---------------------------------------------------------------------

  /** Since the last logged step only statuses changed (along edges), and
      the clock did not go back. */
  ghost predicate Drift(last: Step, ps: seq<Process>, t: int) {
    Evolves(last.processes, ps) && Unworked(last.processes, ps) && last.time <= t
  }

  lemma DriftRefl(s: Step)
    requires forall i :: 0 <= i < |s.processes| ==> s.processes[i].status != Waiting
    ensures Drift(s, s.processes, s.time)
  {
  }

  /** Logging the current state as a non-tick step. */
  lemma DriftLogs(last: Step, ps: seq<Process>, t: int, e: Event)
    requires Drift(last, ps, t) && !IsTick(e)
    requires e.Finish? || e.QuantumExpired? || e.AllDone? ==> last.time == t
    ensures StepOk(last, Step(t, e, ps))
  {
  }

  /** Unlogged status changes among New, Ready and Running that end in Ready
      or Running (promotion, selection, the Priority reset) keep the drift:
      whatever was last logged for that process has an edge to the new status. */
  lemma DriftRestatus(last: Step, ps: seq<Process>, r: seq<Process>, t: int, u: int)
    requires Drift(last, ps, t) && t <= u && |r| == |ps|
    requires forall i :: 0 <= i < |ps| ==>
      SameStatic(ps[i], r[i]) && r[i].remainingTime == ps[i].remainingTime &&
      (r[i].status == ps[i].status ||
       ((ps[i].status == New || ps[i].status == Ready || ps[i].status == Running) &&
        (r[i].status == Ready || r[i].status == Running)))
    ensures Drift(last, r, u)
  {
    forall i | 0 <= i < |ps|
      ensures SameStatic(last.processes[i], r[i]) && Edge(last.processes[i].status, r[i].status)
    {
    }
  }

  /** One tick of the Running process i followed by the promotion pass at the
      new clock fits after the step that logged the state before the tick. */
  lemma TickFits(last: Step, i: int, r: seq<Process>, e: Event)
    requires StateOk(last.processes, last.time) && 0 <= i < |last.processes|
    requires last.processes[i].status == Running && last.processes[i].remainingTime > 0
    requires |r| == |last.processes|
    requires forall j :: 0 <= j < |r| ==>
      r[j] == Promoted(if j == i then last.processes[i].(remainingTime := last.processes[i].remainingTime - 1)
                       else last.processes[j], last.time + 1)
    requires IsTick(e) && e.proc == i
    ensures StepOk(last, Step(last.time + 1, e, r)) && StateOk(r, last.time + 1)
    ensures r[i] == last.processes[i].(remainingTime := last.processes[i].remainingTime - 1)
  {
    var ps := last.processes;
    forall a, b | 0 <= a < |r| && 0 <= b < |r| && r[a].status == Running && r[b].status == Running
      ensures a == b
    {
      assert ps[a].status == Running && ps[b].status == Running;
    }
  }

  /** The list between rounds, against the last logged step: nothing is
      Running, the changes since that step are unlogged status changes only,
      and the final step could be logged now unless work is left. */
  ghost predicate StateInv(init: seq<Process>, procs: seq<Process>, t: int, last: Step, scheme: Scheme) {
    && |procs| == |init| && (forall i :: 0 <= i < |procs| ==> SameStatic(init[i], procs[i]))
    && StateOk(procs, t) && NoneRunning(procs) && Drift(last, procs, t)
    && (AnyUnfinished(procs) || (last.time == t && Follows(scheme, last.event, AllDone)))
    && NotLate(last, procs, t)
  }

  /** Right after a step that leaves nothing Running, the list it logs is a
      state between rounds. */
  lemma LoggedStateInv(init: seq<Process>, steps: seq<Step>, scheme: Scheme)
    requires LogPrefix(init, steps) && |steps| > 0 && NoneRunning(Last(steps).processes)
    requires AnyUnfinished(Last(steps).processes) || Follows(scheme, Last(steps).event, AllDone)
    ensures StateInv(init, Last(steps).processes, Last(steps).time, Last(steps), scheme)
  {
    StepAt(init, steps, |steps| - 1);
    StaticFieldsKept(init, steps, |steps| - 1);
    DriftRefl(Last(steps));
  }

  // ---------------------------------------------------------------------
  // Timing: a dispatch comes as soon as the clock allows
  // ---------------------------------------------------------------------

  /** The earliest arrival among the processes that are not Terminated
      (None when all are). */
  function EarliestUnfinished(ps: seq<Process>): Option<int> {
    if |ps| == 0 then None
    else
      var rest := EarliestUnfinished(ps[..|ps| - 1]);
      var p := ps[|ps| - 1];
      if p.status == Terminated then rest
      else if rest.Some? && rest.value <= p.arrivalTime then rest
      else Some(p.arrivalTime)
  }

  /** EarliestUnfinished is the least arrival time among the unfinished
      processes, and exists exactly when one of them is unfinished. */
  lemma {:induction false} EarliestIsLeast(ps: seq<Process>)
    ensures EarliestUnfinished(ps).None? <==> !AnyUnfinished(ps)
    ensures EarliestUnfinished(ps).Some? ==>
      forall i :: 0 <= i < |ps| && ps[i].status != Terminated ==> EarliestUnfinished(ps).value <= ps[i].arrivalTime
    ensures EarliestUnfinished(ps).Some? ==>
      exists i :: 0 <= i < |ps| && ps[i].status != Terminated && ps[i].arrivalTime == EarliestUnfinished(ps).value
  {
    if |ps| > 0 {
      EarliestIsLeast(ps[..|ps| - 1]);
      assert forall i :: 0 <= i < |ps| - 1 ==> ps[..|ps| - 1][i] == ps[i];
    }
  }

  /** Step `b`, a dispatch, comes at the clock of step `a` when some
      unfinished process of `a` had arrived by then, and otherwise at the
      earliest arrival among them: the scheduler is never idle while a
      process waits, and never dispatches before an arrival. */
  predicate OnTime(a: Step, b: Step) {
    var e := EarliestUnfinished(a.processes);
    e.Some? && b.time == (if e.value <= a.time then a.time else e.value)
  }

  /** Every dispatch of the log is on time after the step before it. */
  predicate AllOnTime(steps: seq<Step>)
    decreases |steps|
  {
    |steps| <= 1 ||
    (AllOnTime(steps[..|steps| - 1]) &&
     (steps[|steps| - 1].event.Dispatch? ==> OnTime(steps[|steps| - 2], steps[|steps| - 1])))
  }

  lemma OnTimeAppend(steps: seq<Step>, s: Step)
    requires AllOnTime(steps)
    requires s.event.Dispatch? ==> |steps| > 0 && OnTime(Last(steps), s)
    ensures AllOnTime(steps + [s])
  {
    assert (steps + [s])[..|steps|] == steps;
  }

  /** Appending steps that are not dispatches keeps every dispatch on time. */
  lemma {:induction false} OnTimeExtend(steps: seq<Step>, steps': seq<Step>)
    requires AllOnTime(steps) && |steps| <= |steps'| && steps'[..|steps|] == steps
    requires forall m :: |steps| <= m < |steps'| ==> !steps'[m].event.Dispatch?
    ensures AllOnTime(steps')
    decreases |steps'|
  {
    if |steps'| == |steps| {
      assert steps' == steps'[..|steps|];
    } else {
      var front := steps'[..|steps'| - 1];
      assert front[..|steps|] == steps;
      OnTimeExtend(steps, front);
      assert front + [steps'[|steps'| - 1]] == steps';
      OnTimeAppend(front, steps'[|steps'| - 1]);
    }
  }

  /** In a log whose dispatches are all on time, the dispatch at position k
      is on time after the step before it. */
  lemma {:induction false} OnTimeAt(steps: seq<Step>, k: int)
    requires AllOnTime(steps) && 0 < k < |steps| && steps[k].event.Dispatch?
    ensures OnTime(steps[k - 1], steps[k])
    decreases |steps|
  {
    if k < |steps| - 1 {
      OnTimeAt(steps[..|steps| - 1], k);
      assert steps[..|steps| - 1][k] == steps[k] && steps[..|steps| - 1][k - 1] == steps[k - 1];
    }
  }

  /** Every dispatch of the log happens at the clock of the step before it:
      a simulator that lets the clock move before a dispatch logs the move
      as a step of its own. */
  predicate AllDispatchesPrompt(steps: seq<Step>)
    decreases |steps|
  {
    |steps| <= 1 ||
    (AllDispatchesPrompt(steps[..|steps| - 1]) &&
     (steps[|steps| - 1].event.Dispatch? ==> steps[|steps| - 1].time == steps[|steps| - 2].time))
  }

  lemma {:induction false} PromptAppend(steps: seq<Step>, s: Step)
    requires AllDispatchesPrompt(steps)
    requires s.event.Dispatch? ==> |steps| > 0 && s.time == Last(steps).time
    ensures AllDispatchesPrompt(steps + [s])
  {
    var all := steps + [s];
    assert all[..|steps|] == steps && all[|all| - 1] == s;
    if |steps| > 0 {
      assert all[|all| - 2] == Last(steps);
    }
  }

  /** Appending steps that are not dispatches keeps every dispatch prompt. */
  lemma {:induction false} PromptExtend(steps: seq<Step>, steps': seq<Step>)
    requires AllDispatchesPrompt(steps) && |steps| <= |steps'| && steps'[..|steps|] == steps
    requires forall m :: |steps| <= m < |steps'| ==> !steps'[m].event.Dispatch?
    ensures AllDispatchesPrompt(steps')
    decreases |steps'|
  {
    if |steps'| == |steps| {
      assert steps' == steps'[..|steps|];
    } else {
      var front := steps'[..|steps'| - 1];
      assert front[..|steps|] == steps;
      PromptExtend(steps, front);
      assert front + [steps'[|steps'| - 1]] == steps';
      PromptAppend(front, steps'[|steps'| - 1]);
    }
  }

  /** In a log whose dispatches are on time and prompt, no process is
      dispatched while the earliest arrival among the unfinished processes
      is still ahead of the clock: the jump to that arrival is logged first,
      and the dispatch keeps the clock of the step before it. */
  lemma {:induction false} NoDispatchAhead(steps: seq<Step>, k: int)
    requires AllOnTime(steps) && AllDispatchesPrompt(steps)
    requires 0 < k < |steps| && steps[k].event.Dispatch?
    ensures steps[k].time == steps[k - 1].time
    ensures EarliestUnfinished(steps[k - 1].processes).Some?
    ensures EarliestUnfinished(steps[k - 1].processes).value <= steps[k - 1].time
    decreases |steps|
  {
    OnTimeAt(steps, k);
    if k < |steps| - 1 {
      var front := steps[..|steps| - 1];
      assert front[k] == steps[k] && front[k - 1] == steps[k - 1];
      NoDispatchAhead(front, k);
    }
  }

  /** Step b, a jump of the clock after step a, lands exactly on the earliest
      arrival among the processes unfinished at a, which was still ahead:
      the clock never jumps past an arrival, and never jumps while a process
      that has arrived waits. */
  predicate JumpOnTime(a: Step, b: Step) {
    var e := EarliestUnfinished(a.processes);
    e.Some? && a.time < e.value && b.time == e.value
  }

  /** Every jump of the clock in the log is on time after the step before it. */
  predicate AllJumpsOnTime(steps: seq<Step>)
    decreases |steps|
  {
    |steps| <= 1 ||
    (AllJumpsOnTime(steps[..|steps| - 1]) &&
     (steps[|steps| - 1].event.Advance? ==> JumpOnTime(steps[|steps| - 2], steps[|steps| - 1])))
  }

  lemma JumpsAppend(steps: seq<Step>, s: Step)
    requires AllJumpsOnTime(steps)
    requires s.event.Advance? ==> |steps| > 0 && JumpOnTime(Last(steps), s)
    ensures AllJumpsOnTime(steps + [s])
  {
    assert (steps + [s])[..|steps|] == steps;
  }

  /** Appending steps that are not jumps keeps every jump on time. */
  lemma {:induction false} JumpsExtend(steps: seq<Step>, steps': seq<Step>)
    requires AllJumpsOnTime(steps) && |steps| <= |steps'| && steps'[..|steps|] == steps
    requires forall m :: |steps| <= m < |steps'| ==> !steps'[m].event.Advance?
    ensures AllJumpsOnTime(steps')
    decreases |steps'|
  {
    if |steps'| == |steps| {
      assert steps' == steps'[..|steps|];
    } else {
      var front := steps'[..|steps'| - 1];
      assert front[..|steps|] == steps;
      JumpsExtend(steps, front);
      assert front + [steps'[|steps'| - 1]] == steps';
      JumpsAppend(front, steps'[|steps'| - 1]);
    }
  }

  /** In a log whose jumps are all on time, the jump at position k lands on
      the earliest arrival still ahead after the step before it. */
  lemma {:induction false} JumpAt(steps: seq<Step>, k: int)
    requires AllJumpsOnTime(steps) && 0 < k < |steps| && steps[k].event.Advance?
    ensures JumpOnTime(steps[k - 1], steps[k])
    decreases |steps|
  {
    if k < |steps| - 1 {
      JumpAt(steps[..|steps| - 1], k);
      assert steps[..|steps| - 1][k] == steps[k] && steps[..|steps| - 1][k - 1] == steps[k - 1];
    }
  }

  /** Between rounds, against the last logged step: nothing finished
      unlogged, and the clock has not passed the moment at which a dispatch
      after that step is due. */
  predicate NotLate(last: Step, procs: seq<Process>, t: int) {
    && |procs| == |last.processes|
    && (forall i :: 0 <= i < |procs| && procs[i].status == Terminated ==> last.processes[i].status == Terminated)
    && (var e := EarliestUnfinished(last.processes); e.Some? ==> t <= last.time || t <= e.value)
  }

  /** A Ready process dispatched between rounds is dispatched on time. */
  lemma DispatchOnTime(init: seq<Process>, procs: seq<Process>, t: int, last: Step, scheme: Scheme,
                       cur: nat, s: Step)
    requires StateInv(init, procs, t, last, scheme) && cur < |procs| && procs[cur].status == Ready
    requires s.time == t
    ensures OnTime(last, s)
  {
    EarliestIsLeast(last.processes);
    assert Edge(last.processes[cur].status, procs[cur].status);
    assert ProcessOk(procs[cur], t) && SameStatic(last.processes[cur], procs[cur]);
  }

  /** With no process Ready or Running and every arrival noticed, the clock
      may move on one unit without passing a due dispatch. */
  lemma IdleNotLate(last: Step, procs: seq<Process>, t: int)
    requires NotLate(last, procs, t) && StateOk(procs, t) && NoneOverdue(procs, t) && Drift(last, procs, t)
    requires forall i :: 0 <= i < |procs| ==> procs[i].status != Ready && procs[i].status != Running
    ensures NotLate(last, procs, t + 1)
  {
    var e := EarliestUnfinished(last.processes);
    EarliestIsLeast(last.processes);
    if e.Some? {
      var i :| 0 <= i < |last.processes| && last.processes[i].status != Terminated &&
               last.processes[i].arrivalTime == e.value;
      assert procs[i].status != Terminated;
      assert ProcessOk(procs[i], t) && procs[i].status == New;
      assert SameStatic(last.processes[i], procs[i]);
    }
  }

  // ---------------------------------------------------------------------
  // Log-wide consequences
  // ---------------------------------------------------------------------

  /** The logged clock never decreases, and starts at 0. */
  lemma {:induction false} TimesNonDecreasing(init: seq<Process>, steps: seq<Step>, j: int, k: int)
    requires LogPrefix(init, steps) && 0 <= j <= k < |steps|
    ensures 0 <= steps[j].time <= steps[k].time
    decreases k, j
  {
    if j < k {
      TimesNonDecreasing(init, steps, j, k - 1);
      StepAt(init, steps, k);
    } else if 0 < j {
      TimesNonDecreasing(init, steps, 0, j);
    } else {
      StepAt(init, steps, 0);
    }
  }

  /** Every snapshot lists the same processes as the start step, with the
      same static fields. */
  lemma {:induction false} StaticFieldsKept(init: seq<Process>, steps: seq<Step>, k: int)
    requires LogPrefix(init, steps) && 0 <= k < |steps|
    ensures |steps[k].processes| == |init|
    ensures forall i :: 0 <= i < |init| ==> SameStatic(init[i], steps[k].processes[i])
  {
    StepAt(init, steps, k);
    if k > 0 {
      StaticFieldsKept(init, steps, k - 1);
    }
  }

  /** Between any two steps, each process's status moves only forward in its
      lifecycle and its remaining time never grows: once Terminated it stays
      Terminated, and once out of New it never returns to New. */
  lemma {:induction false} LifecycleForward(init: seq<Process>, steps: seq<Step>, j: int, k: int, i: int)
    requires LogPrefix(init, steps) && 0 <= j <= k < |steps| && 0 <= i < |init|
    ensures i < |steps[j].processes| && i < |steps[k].processes|
    ensures Reachable(steps[j].processes[i].status, steps[k].processes[i].status)
    ensures steps[k].processes[i].remainingTime <= steps[j].processes[i].remainingTime
    decreases k
  {
    StaticFieldsKept(init, steps, k);
    StaticFieldsKept(init, steps, j);
    StepAt(init, steps, j);
    if j < k {
      LifecycleForward(init, steps, j, k - 1, i);
      StepAt(init, steps, k);
      ReachableStep(steps[j].processes[i].status, steps[k - 1].processes[i].status, steps[k].processes[i].status);
    }
  }

  /** Number of tick steps in a log. */
  function Ticks(steps: seq<Step>): nat {
    if |steps| == 0 then 0
    else Ticks(steps[..|steps| - 1]) + (if IsTick(steps[|steps| - 1].event) then 1 else 0)
  }

  lemma {:induction false} WorkConservedUpTo(init: seq<Process>, steps: seq<Step>, k: int)
    requires LogPrefix(init, steps) && 0 <= k < |steps|
    ensures TotalRemaining(steps[k].processes) + Ticks(steps[..k + 1]) == TotalRemaining(init)
  {
    StepAt(init, steps, k);
    if k == 0 {
      assert steps[..1][..0] == [];
    } else {
      WorkConservedUpTo(init, steps, k - 1);
      assert steps[..k + 1][..k] == steps[..k];
      var a, b := steps[k - 1], steps[k];
      if IsTick(b.event) {
        var i := b.event.proc;
        TotalRemainingUpdate(a.processes, i, b.processes[i]);
        TotalRemainingPointwise(a.processes[i := b.processes[i]], b.processes);
      } else {
        TotalRemainingPointwise(a.processes, b.processes);
      }
    }
  }

  /** Every unit of burst is executed exactly once: a complete log holds as
      many tick steps as the processes' bursts add up to. */
  lemma WorkConserved(init: seq<Process>, steps: seq<Step>)
    requires ValidLog(init, steps)
    ensures Ticks(steps) == TotalRemaining(init)
  {
    var k := |steps| - 1;
    WorkConservedUpTo(init, steps, k);
    assert steps[..k + 1] == steps;
    StepAt(init, steps, k);
    var ps := steps[k].processes;
    assert forall i :: 0 <= i < |ps| ==> ps[i].status == Terminated && ProcessOk(ps[i], steps[k].time);
    TotalRemainingAllZero(ps);
  }
}
