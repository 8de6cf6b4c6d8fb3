/**
  Shortest-Job-First, non-preemptive (`simulateSJF`): every round promotes
  the arrivals and picks the Ready process with the least remaining time
  (ties: earlier arrival, then list order), which then runs to completion.
*/
module Sjf {
  import opened Wrappers
  import opened Processes
  import opened StepLog
  import opened NonPreemptive
  import opened Selection

  /** The steps a run to completion appends are ticks and a termination:
      none is a dispatch. */
  lemma RunAddsNoDispatch(steps: seq<Step>, steps': seq<Step>)
    requires |steps| <= |steps'|
    requires forall m :: |steps| <= m < |steps'| - 1 ==> steps'[m].event.Execute?
    requires |steps'| > |steps| ==> Last(steps').event.Finish?
    ensures forall m :: |steps| <= m < |steps'| ==> !steps'[m].event.Dispatch?
  {
    forall m | |steps| <= m < |steps'| ensures !steps'[m].event.Dispatch? {
      assert m == |steps'| - 1 ==> steps'[m] == Last(steps');
    }
  }

  /** script.js lines 407-423: the chosen process `cur`, the best Ready one,
      becomes Running and the choice is logged; it runs to completion, the
      clock advancing by its remaining time, while every other process only
      has its arrival noticed; its termination is logged last. The next round
      can start, with less work left. */
  method RunChosen(ghost init: seq<Process>, procs: seq<Process>, t: int, steps: seq<Step>)
    returns (cur: nat, procs': seq<Process>, t': int, steps': seq<Step>)
    requires RoundInv(init, procs, t, steps, ShortestJobFirst, ShortestRemaining) && NoneOverdue(procs, t)
    requires Select(ShortestRemaining, procs).Some?
    ensures cur == Select(ShortestRemaining, procs).value && cur < |procs|
    ensures t' == t + procs[cur].remainingTime
    ensures |procs'| == |procs| && procs'[cur] == procs[cur].(remainingTime := 0, status := Terminated)
    ensures forall j :: 0 <= j < |procs| && j != cur ==> procs'[j] == Promoted(procs[j], t')
    ensures |steps'| > |steps| + 1 && steps'[..|steps|] == steps
    ensures steps'[|steps|] == Step(t, Dispatch(cur), procs[cur := procs[cur].(status := Running)])
    ensures Last(steps') == Step(t', Finish(cur), procs')
    ensures RoundInv(init, procs', t', steps', ShortestJobFirst, ShortestRemaining)
    ensures 0 <= TotalRemaining(procs') < TotalRemaining(procs)
  {
    var dispatched, steps1;
    cur, dispatched, steps1 := DispatchBest(init, procs, t, steps, ShortestJobFirst, ShortestRemaining);
    procs', t', steps' := RunToCompletion(init, dispatched, t, steps1, cur, ShortestJobFirst);
    AfterRun(init, procs, t, steps, cur, steps1, procs', t', steps');
  }

  /** What RunChosen proves about the log and list it leaves. */
  lemma AfterRun(init: seq<Process>, procs: seq<Process>, t: int, steps: seq<Step>, cur: nat,
                 steps1: seq<Step>, procs': seq<Process>, t': int, steps': seq<Step>)
    requires |procs| == |init| && forall i :: 0 <= i < |procs| ==> SameStatic(init[i], procs[i])
    requires cur < |procs| && procs[cur].status == Ready
    requires OpenLog(init, steps1) && AllChoicesBest(ShortestRemaining, steps1) && AllOnTime(steps1)
    requires steps1 == steps + [Step(t, Dispatch(cur), procs[cur := procs[cur].(status := Running)])]
    requires OpenLog(init, steps') && Ordered(steps', ShortestJobFirst)
    requires |procs'| == |procs| && SameStatic(procs[cur], procs'[cur])
    requires procs'[cur].remainingTime == 0 && procs[cur].remainingTime > 0
    requires forall j :: 0 <= j < |procs| && j != cur ==> procs'[j] == Promoted(procs[j], t')
    requires StateOk(procs', t') && NoneRunning(procs')
    requires |steps'| > |steps1| && steps'[..|steps1|] == steps1
    requires forall m :: |steps1| <= m < |steps'| - 1 ==> steps'[m].event.Execute?
    requires Last(steps') == Step(t', Finish(cur), procs')
    ensures steps'[..|steps|] == steps && steps'[|steps|] == steps1[|steps|]
    ensures RoundInv(init, procs', t', steps', ShortestJobFirst, ShortestRemaining)
    ensures 0 <= TotalRemaining(procs') < TotalRemaining(procs)
  {
    RunLogKept(steps, steps1, steps');
    LoggedStateInv(init, steps', ShortestJobFirst);
    StaticAfterRun(init, procs, procs', cur, t');
    TotalRemainingDrops(procs, procs', cur);
    TotalRemainingNonNegative(procs');
  }

  /** The run keeps the log's earlier steps, its choices and their timing. */
  lemma RunLogKept(steps: seq<Step>, steps1: seq<Step>, steps': seq<Step>)
    requires AllChoicesBest(ShortestRemaining, steps1) && AllOnTime(steps1) && |steps1| == |steps| + 1
    requires steps1[..|steps|] == steps
    requires |steps'| > |steps1| && steps'[..|steps1|] == steps1
    requires forall m :: |steps1| <= m < |steps'| - 1 ==> steps'[m].event.Execute?
    requires Last(steps').event.Finish?
    ensures steps'[..|steps|] == steps && steps'[|steps|] == steps1[|steps|]
    ensures AllChoicesBest(ShortestRemaining, steps') && AllOnTime(steps')
  {
    assert steps'[..|steps|] == steps1[..|steps|];
    RunAddsNoDispatch(steps1, steps');
    ChoicesExtend(ShortestRemaining, steps1, steps');
    OnTimeExtend(steps1, steps');
  }

  lemma StaticAfterRun(init: seq<Process>, ps: seq<Process>, r: seq<Process>, cur: nat, u: int)
    requires |ps| == |init| && forall i :: 0 <= i < |ps| ==> SameStatic(init[i], ps[i])
    requires cur < |ps| && |r| == |ps| && SameStatic(ps[cur], r[cur])
    requires forall j :: 0 <= j < |ps| && j != cur ==> r[j] == Promoted(ps[j], u)
    ensures forall i :: 0 <= i < |r| ==> SameStatic(init[i], r[i])
    ensures forall j :: 0 <= j < |ps| && j != cur ==> r[j].remainingTime == ps[j].remainingTime
  {
  }

  /** `simulateSJF`. The log is well formed (so each process runs once, to
      completion, after it arrived), no process is interrupted, and each
      dispatch took the Ready process with the least remaining time, the
      earliest arrival among equals and then the first in list order. */
  method SimulateSjf(input: seq<Process>) returns (steps: seq<Step>)
    requires ValidInput(input)
    ensures ValidLog(WorkingCopy(input), steps) && Ordered(steps, ShortestJobFirst)
    ensures AllChoicesBest(ShortestRemaining, steps) && AllOnTime(steps)
  {
    var procs := WorkingCopy(input);
    ghost var init := procs;
    var t := 0;
    steps := [Step(0, Start, Snapshot(procs))];
    FirstRound(init, ShortestJobFirst, ShortestRemaining);
    while AnyUnfinished(procs)
      invariant RoundInv(init, procs, t, steps, ShortestJobFirst, ShortestRemaining)
      decreases TotalRemaining(procs), MaxArrival(init) - t
    {
      procs := PromoteRound(init, procs, t, steps, ShortestJobFirst, ShortestRemaining);
      if Select(ShortestRemaining, procs).None? {
        IdleRound(init, procs, t, steps, ShortestJobFirst, ShortestRemaining);
        t := t + 1;
      } else {
        var cur;
        cur, procs, t, steps := RunChosen(init, procs, t, steps);
      }
    }
    steps := ConcludeRounds(init, procs, t, steps, ShortestJobFirst, ShortestRemaining);
  }
}
