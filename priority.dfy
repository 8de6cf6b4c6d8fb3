/**
  Priority, preemptive (`simulatePriorityPreemptive`): every round promotes
  the arrivals, picks the Ready process with the smallest priority number
  (ties: earlier arrival, then name, then list order) and runs it for a
  single tick; it is then Terminated if nothing is left, or set back to Ready
  so that the next round chooses afresh.
*/
module Priority {
  import opened Wrappers
  import opened Processes
  import opened StepLog
  import opened Selection

  /** The list logged by the tick of `cur` at clock t: `cur`, still
      Running, has one unit less, and every other process has had its
      arrival at t + 1 noticed. */
  function TickedList(procs: seq<Process>, t: int, cur: nat): seq<Process>
    requires cur < |procs|
  {
    seq(|procs|, i requires 0 <= i < |procs| =>
      if i == cur then procs[i].(remainingTime := procs[i].remainingTime - 1, status := Running)
      else Promoted(procs[i], t + 1))
  }

  /** The list once the tick of `cur` is over: `cur` is Terminated, with
      nothing left (never below 0), when its work ran out, and set back to
      Ready otherwise. */
  function SettledList(ticked: seq<Process>, cur: nat): seq<Process>
    requires cur < |ticked|
  {
    var left := ticked[cur].remainingTime;
    ticked[cur := ticked[cur].(status := if left <= 0 then Terminated else Ready,
                               remainingTime := if left <= 0 then 0 else left)]
  }

  /** What the end of a tick at clock t logs: the termination, when `cur`'s
      work ran out, and nothing otherwise. */
  function SettledLog(ticked: seq<Process>, t: int, cur: nat): seq<Step>
    requires cur < |ticked|
  {
    if ticked[cur].remainingTime <= 0 then [Step(t, Finish(cur), SettledList(ticked, cur))] else []
  }

  /** The list after a round that dispatched `cur` at clock t. */
  function RoundResult(procs: seq<Process>, t: int, cur: nat): seq<Process>
    requires cur < |procs|
  {
    SettledList(TickedList(procs, t, cur), cur)
  }

  /** The steps a round that dispatched `cur` at clock t logs: the choice,
      the tick one clock unit later, and the termination when the work ran
      out. */
  function RoundLog(procs: seq<Process>, t: int, cur: nat): seq<Step>
    requires cur < |procs|
  {
    [Step(t, Dispatch(cur), procs[cur := procs[cur].(status := Running)]),
     Step(t + 1, Execute(cur, procs[cur].remainingTime - 1), TickedList(procs, t, cur))] +
    SettledLog(TickedList(procs, t, cur), t + 1, cur)
  }

  /** What a round does to the list: the dispatched process has one unit
      less, and is Terminated exactly when none is left, Ready otherwise;
      every other process only has its arrival at t + 1 noticed; the total
      work left drops by one unit. */
  lemma RoundResultSpec(procs: seq<Process>, t: int, cur: nat)
    requires cur < |procs| && procs[cur].remainingTime > 0
    ensures var r := RoundResult(procs, t, cur);
      && |r| == |procs| && r[cur].remainingTime == procs[cur].remainingTime - 1
      && r[cur] == procs[cur].(remainingTime := r[cur].remainingTime,
                               status := if r[cur].remainingTime == 0 then Terminated else Ready)
      && (forall j :: 0 <= j < |procs| && j != cur ==> r[j] == Promoted(procs[j], t + 1))
      && TotalRemaining(r) == TotalRemaining(procs) - 1
  {
    var r := RoundResult(procs, t, cur);
    TotalRemainingPointwise(r, procs[cur := r[cur]]);
    TotalRemainingUpdate(procs, cur, r[cur]);
  }

  /** What a round logs: the dispatch of `cur` at clock t, its tick one
      clock unit later with one unit less left, and its termination at that
      same clock exactly when its work ran out. */
  lemma RoundLogSpec(procs: seq<Process>, t: int, cur: nat)
    requires cur < |procs| && procs[cur].remainingTime > 0
    ensures var l := RoundLog(procs, t, cur);
      && |l| == (if procs[cur].remainingTime == 1 then 3 else 2)
      && l[0].time == t && l[0].event == Dispatch(cur) && l[0].processes[cur].status == Running
      && l[1].time == t + 1 && l[1].event == Execute(cur, procs[cur].remainingTime - 1)
      && l[1].processes[cur].status == Running
      && (procs[cur].remainingTime == 1 ==> l[2] == Step(t + 1, Finish(cur), RoundResult(procs, t, cur)))
  {
    var l := RoundLog(procs, t, cur);
    assert TickedList(procs, t, cur)[cur].remainingTime == procs[cur].remainingTime - 1;
    assert l[1] == Step(t + 1, Execute(cur, procs[cur].remainingTime - 1), TickedList(procs, t, cur));
  }

  /** script.js lines 446-466: the best Ready process `cur` becomes Running
      and the choice is logged; it runs one tick, after which the clock
      moves on and the arrivals are promoted, and the tick is logged; it is
      then Terminated, and that logged too, when nothing is left, or else
      set back to Ready. The new list and the logged steps are those
      RoundResult and RoundLog give (RoundResultSpec and RoundLogSpec spell
      them out; RoundKept shows the next round can start from them). */
  method DispatchAndTick(procs: seq<Process>, t: int, steps: seq<Step>)
    returns (cur: nat, procs': seq<Process>, t': int, steps': seq<Step>)
    requires Select(HighestPriority, procs).Some?
    ensures cur == Select(HighestPriority, procs).value && cur < |procs| && t' == t + 1
    ensures procs' == RoundResult(procs, t, cur)
    ensures steps' == steps + RoundLog(procs, t, cur)
  {
    cur := Select(HighestPriority, procs).value;
    var running := procs[cur := procs[cur].(status := Running)];
    var dispatch := Step(t, Dispatch(cur), Snapshot(running));
    var worked := running[cur := running[cur].(remainingTime := running[cur].remainingTime - 1)];
    t' := t + 1;
    var ticked := PromoteArrivals(worked, t');
    assert ticked == TickedList(procs, t, cur);
    steps' := steps + [dispatch, Step(t', Execute(cur, ticked[cur].remainingTime), Snapshot(ticked))];
    if ticked[cur].remainingTime <= 0 {
      procs' := ticked[cur := ticked[cur].(remainingTime := 0, status := Terminated)];
      steps' := steps' + [Step(t', Finish(cur), Snapshot(procs'))];
    } else {
      procs' := ticked[cur := ticked[cur].(status := Ready)];
    }
    RoundLogSplit(procs, t, cur, steps);
  }

  /** A whole round, from the dispatch to the end of the tick, keeps the
      invariant and uses up one unit of work. */
  lemma RoundKept(init: seq<Process>, procs: seq<Process>, t: int, steps: seq<Step>, cur: nat)
    requires RoundInv(init, procs, t, steps, PriorityPreemptive, HighestPriority) && NoneOverdue(procs, t)
    requires Select(HighestPriority, procs).Some? && cur == Select(HighestPriority, procs).value
    ensures cur < |procs|
    ensures RoundInv(init, RoundResult(procs, t, cur), t + 1, steps + RoundLog(procs, t, cur),
                     PriorityPreemptive, HighestPriority)
    ensures 0 <= TotalRemaining(RoundResult(procs, t, cur)) == TotalRemaining(procs) - 1
  {
    var s := Step(t, Dispatch(cur), procs[cur := procs[cur].(status := Running)]);
    DispatchLogged(init, procs, t, steps, PriorityPreemptive, HighestPriority, cur, s);
    TickKept(init, procs, t, steps, s, cur);
    var ticked := TickedList(procs, t, cur);
    SettleKept(init, ticked, t + 1, steps + [s] + [Step(t + 1, Execute(cur, ticked[cur].remainingTime), ticked)], cur);
    RoundLogSplit(procs, t, cur, steps);
  }

  /** After the dispatch step `s` of `cur`, the tick of the Running process
      fits the log and uses up one unit of work. */
  lemma TickKept(init: seq<Process>, procs: seq<Process>, t: int, steps: seq<Step>, s: Step, cur: nat)
    requires cur < |procs| && s == Step(t, Dispatch(cur), procs[cur := procs[cur].(status := Running)])
    requires OpenLog(init, steps + [s]) && Ordered(steps + [s], PriorityPreemptive)
    requires AllChoicesBest(HighestPriority, steps + [s]) && AllOnTime(steps + [s])
    requires |procs| == |init| && forall i :: 0 <= i < |procs| ==> SameStatic(init[i], procs[i])
    requires procs[cur].remainingTime > 0
    ensures var ticked := TickedList(procs, t, cur);
      var e := Step(t + 1, Execute(cur, ticked[cur].remainingTime), ticked);
      && OpenLog(init, steps + [s] + [e]) && Ordered(steps + [s] + [e], PriorityPreemptive)
      && AllChoicesBest(HighestPriority, steps + [s] + [e]) && AllOnTime(steps + [s] + [e])
      && |ticked| == |init| && (forall i :: 0 <= i < |ticked| ==> SameStatic(init[i], ticked[i]))
      && TotalRemaining(ticked) == TotalRemaining(procs) - 1
  {
    var running := s.processes;
    TotalRemainingPointwise(procs, running);
    var ticked := TickedList(running, t, cur);
    assert ticked == TickedList(procs, t, cur);
    var e := Step(t + 1, Execute(cur, ticked[cur].remainingTime), ticked);
    TickLogged(init, running, t, steps + [s], cur, ticked, e);
  }

  /** RoundLog is the dispatch step, the tick step and the end of the tick. */
  lemma RoundLogSplit(procs: seq<Process>, t: int, cur: nat, steps: seq<Step>)
    requires cur < |procs|
    ensures var ticked := TickedList(procs, t, cur);
      steps + RoundLog(procs, t, cur)
      == steps + [Step(t, Dispatch(cur), procs[cur := procs[cur].(status := Running)])]
               + [Step(t + 1, Execute(cur, ticked[cur].remainingTime), ticked)]
               + SettledLog(ticked, t + 1, cur)
  {
    var ticked := TickedList(procs, t, cur);
    var a := Step(t, Dispatch(cur), procs[cur := procs[cur].(status := Running)]);
    var b := Step(t + 1, Execute(cur, ticked[cur].remainingTime), ticked);
    assert RoundLog(procs, t, cur) == [a, b] + SettledLog(ticked, t + 1, cur);
    assert steps + [a] + [b] + SettledLog(ticked, t + 1, cur) == steps + ([a, b] + SettledLog(ticked, t + 1, cur));
  }

  /** Ending the tick, by termination (logged) or by setting the process
      back to Ready (unlogged), keeps the invariant and the work left. */
  lemma SettleKept(init: seq<Process>, ticked: seq<Process>, t: int, steps: seq<Step>, cur: nat)
    requires OpenLog(init, steps) && Ordered(steps, PriorityPreemptive)
    requires AllChoicesBest(HighestPriority, steps) && AllOnTime(steps)
    requires |ticked| == |init| && forall i :: 0 <= i < |ticked| ==> SameStatic(init[i], ticked[i])
    requires cur < |ticked| && Last(steps) == Step(t, Execute(cur, ticked[cur].remainingTime), ticked)
    ensures RoundInv(init, SettledList(ticked, cur), t, steps + SettledLog(ticked, t, cur),
                     PriorityPreemptive, HighestPriority)
    ensures 0 <= TotalRemaining(SettledList(ticked, cur)) == TotalRemaining(ticked)
  {
    if ticked[cur].remainingTime <= 0 {
      AfterFinish(init, ticked, t, steps, cur, Step(t, Finish(cur), SettledList(ticked, cur)));
    } else {
      AfterSetBack(init, ticked, t, steps, cur);
      assert steps + SettledLog(ticked, t, cur) == steps;
    }
  }

  /** The tick step fits the log, and the total drops by the one unit worked. */
  lemma TickLogged(init: seq<Process>, procs: seq<Process>, t: int, steps: seq<Step>, cur: nat, r: seq<Process>, s: Step)
    requires OpenLog(init, steps) && Ordered(steps, PriorityPreemptive) && AllChoicesBest(HighestPriority, steps) && AllOnTime(steps)
    requires |procs| == |init| && forall i :: 0 <= i < |procs| ==> SameStatic(init[i], procs[i])
    requires cur < |procs| && Last(steps) == Step(t, Dispatch(cur), procs) && procs[cur].remainingTime > 0
    requires |r| == |procs|
    requires forall i :: 0 <= i < |procs| ==>
      r[i] == Promoted(procs[cur := procs[cur].(remainingTime := procs[cur].remainingTime - 1)][i], t + 1)
    requires s == Step(t + 1, Execute(cur, r[cur].remainingTime), r)
    ensures OpenLog(init, steps + [s]) && Ordered(steps + [s], PriorityPreemptive)
    ensures AllChoicesBest(HighestPriority, steps + [s]) && AllOnTime(steps + [s])
    ensures s == Step(t + 1, Execute(cur, procs[cur].remainingTime - 1), r)
    ensures forall i :: 0 <= i < |procs| ==> SameStatic(init[i], r[i])
    ensures r[cur] == procs[cur].(remainingTime := procs[cur].remainingTime - 1)
    ensures TotalRemaining(r) == TotalRemaining(procs) - 1
  {
    StepAt(init, steps, |steps| - 1);
    TickFits(Last(steps), cur, r, s.event);
    TickAppended(init, steps, s);
    TickedTotal(procs, cur, r, t + 1);
  }

  /** A tick that fits after a dispatch keeps the log well formed, in order,
      with its choices best and its dispatches on time. */
  lemma TickAppended(init: seq<Process>, steps: seq<Step>, s: Step)
    requires OpenLog(init, steps) && Ordered(steps, PriorityPreemptive) && AllChoicesBest(HighestPriority, steps) && AllOnTime(steps)
    requires Follows(PriorityPreemptive, Last(steps).event, s.event) && s.event.Execute?
    requires StepOk(Last(steps), s) && StateOk(s.processes, s.time) && EventOk(s) && NoneOverdue(s.processes, s.time)
    ensures OpenLog(init, steps + [s]) && Ordered(steps + [s], PriorityPreemptive)
    ensures AllChoicesBest(HighestPriority, steps + [s]) && AllOnTime(steps + [s])
  {
    Extend(init, steps, s);
    OrderedAppend(steps, s, PriorityPreemptive);
    ChoicesAppend(HighestPriority, steps, s);
    OnTimeAppend(steps, s);
  }

  lemma TickedTotal(procs: seq<Process>, cur: nat, r: seq<Process>, u: int)
    requires cur < |procs| && |r| == |procs|
    requires forall i :: 0 <= i < |procs| ==>
      r[i] == Promoted(procs[cur := procs[cur].(remainingTime := procs[cur].remainingTime - 1)][i], u)
    ensures TotalRemaining(r) == TotalRemaining(procs) - 1
  {
    var ticked := procs[cur := procs[cur].(remainingTime := procs[cur].remainingTime - 1)];
    TotalRemainingPointwise(r, ticked);
    TotalRemainingUpdate(procs, cur, ticked[cur]);
  }

  lemma AfterFinish(init: seq<Process>, procs: seq<Process>, t: int, steps: seq<Step>, cur: nat, f: Step)
    requires OpenLog(init, steps) && Ordered(steps, PriorityPreemptive) && AllChoicesBest(HighestPriority, steps) && AllOnTime(steps)
    requires |procs| == |init| && forall i :: 0 <= i < |procs| ==> SameStatic(init[i], procs[i])
    requires cur < |procs| && Last(steps) == Step(t, Execute(cur, procs[cur].remainingTime), procs)
    requires procs[cur].remainingTime <= 0
    requires f == Step(t, Finish(cur), procs[cur := procs[cur].(remainingTime := 0, status := Terminated)])
    ensures RoundInv(init, f.processes, t, steps + [f], PriorityPreemptive, HighestPriority)
    ensures 0 <= TotalRemaining(f.processes) == TotalRemaining(procs)
  {
    FinishFits(init, steps, cur, PriorityPreemptive, f);
    ChoicesAppend(HighestPriority, steps, f);
    OnTimeAppend(steps, f);
    FinishedState(init, procs, cur, f);
  }

  lemma FinishedState(init: seq<Process>, procs: seq<Process>, cur: nat, f: Step)
    requires |procs| == |init| && forall i :: 0 <= i < |procs| ==> SameStatic(init[i], procs[i])
    requires cur < |procs| && f == Step(f.time, Finish(cur), procs[cur := procs[cur].(remainingTime := 0, status := Terminated)])
    requires StateOk(f.processes, f.time) && NoneRunning(f.processes)
    ensures StateInv(init, f.processes, f.time, f, PriorityPreemptive)
    ensures 0 <= TotalRemaining(f.processes) == TotalRemaining(procs) - procs[cur].remainingTime
  {
    DriftRefl(f);
    TotalRemainingUpdate(procs, cur, f.processes[cur]);
    TotalRemainingOfState(f.processes, f.time);
  }

  /** script.js line 465: setting the ticked process back to Ready, unlogged, leaves a
      state the next round can start from. */
  lemma AfterSetBack(init: seq<Process>, procs: seq<Process>, t: int, steps: seq<Step>, cur: nat)
    requires OpenLog(init, steps) && Ordered(steps, PriorityPreemptive) && AllChoicesBest(HighestPriority, steps) && AllOnTime(steps)
    requires |procs| == |init| && forall i :: 0 <= i < |procs| ==> SameStatic(init[i], procs[i])
    requires cur < |procs| && Last(steps) == Step(t, Execute(cur, procs[cur].remainingTime), procs)
    requires procs[cur].remainingTime > 0
    ensures RoundInv(init, procs[cur := procs[cur].(status := Ready)], t, steps, PriorityPreemptive, HighestPriority)
    ensures 0 <= TotalRemaining(procs[cur := procs[cur].(status := Ready)]) == TotalRemaining(procs)
  {
    var r := procs[cur := procs[cur].(status := Ready)];
    StepAt(init, steps, |steps| - 1);
    var s := Last(steps);
    DriftRefl(s);
    DriftRestatus(s, procs, r, t, t);
    assert r[cur].status != Terminated;
    TotalRemainingPointwise(r, procs);
    TotalRemainingOfState(r, t);
  }

  /** `simulatePriorityPreemptive`. The log is well formed (so at most one
      process is Running at any step), and each dispatch took the Ready
      process with the smallest priority number, the earliest arrival among
      equals, then the first name in lexicographic order, then the first in
      list order. */
  method SimulatePriority(input: seq<Process>) returns (steps: seq<Step>)
    requires ValidInput(input)
    ensures ValidLog(WorkingCopy(input), steps) && Ordered(steps, PriorityPreemptive)
    ensures AllChoicesBest(HighestPriority, steps) && AllOnTime(steps)
  {
    var procs := WorkingCopy(input);
    ghost var init := procs;
    var t := 0;
    steps := [Step(0, Start, Snapshot(procs))];
    FirstRound(init, PriorityPreemptive, HighestPriority);
    while AnyUnfinished(procs)
      invariant RoundInv(init, procs, t, steps, PriorityPreemptive, HighestPriority)
      decreases TotalRemaining(procs), MaxArrival(init) - t
    {
      procs := PromoteRound(init, procs, t, steps, PriorityPreemptive, HighestPriority);
      if Select(HighestPriority, procs).None? {
        IdleRound(init, procs, t, steps, PriorityPreemptive, HighestPriority);
        t := t + 1;
      } else {
        var cur, procs', t', steps' := DispatchAndTick(procs, t, steps);
        RoundKept(init, procs, t, steps, cur);
        procs, t, steps := procs', t', steps';
      }
    }
    steps := ConcludeRounds(init, procs, t, steps, PriorityPreemptive, HighestPriority);
  }

  /** Every tick in a Priority log comes straight after a dispatch of the
      same process that chose the best Ready process: the process that runs
      in each clock unit is the best one Ready at its start. */
  lemma EveryTickChosen(init: seq<Process>, steps: seq<Step>, k: int)
    requires LogPrefix(init, steps) && Ordered(steps, PriorityPreemptive) && AllChoicesBest(HighestPriority, steps)
    requires 0 <= k < |steps| && steps[k].event.Execute?
    ensures 0 < k && steps[k - 1].event == Dispatch(steps[k].event.proc)
    ensures steps[k].time == steps[k - 1].time + 1
    ensures ChoseBest(HighestPriority, steps[k - 1])
  {
    StepAt(init, steps, k);
    FollowsAt(steps, PriorityPreemptive, k);
    ChoiceAt(HighestPriority, steps, k - 1);
  }

  /** A dispatch runs its process for exactly one tick, after which the
      process terminates or the scheduler chooses again. */
  lemma OneTickPerDispatch(init: seq<Process>, steps: seq<Step>, k: int)
    requires ValidLog(init, steps) && Ordered(steps, PriorityPreemptive)
    requires 0 <= k < |steps| && steps[k].event.Dispatch?
    ensures k + 2 < |steps|
    ensures steps[k + 1].event.Execute? && steps[k + 1].event.proc == steps[k].event.proc
    ensures steps[k + 2].event == Finish(steps[k].event.proc) || steps[k + 2].event.Dispatch?
  {
    assert k + 1 < |steps|;
    FollowsAt(steps, PriorityPreemptive, k + 1);
    assert k + 2 < |steps|;
    FollowsAt(steps, PriorityPreemptive, k + 2);
  }
}
