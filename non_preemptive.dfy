/**
  What FCFS and SJF share: once a process is marked Running it executes tick
  by tick until nothing remains, then it is Terminated; no other process is
  selected in between. The loop that runs one process to completion lives
  here.
*/
module NonPreemptive {
  import opened Processes
  import opened StepLog

  /** script.js lines 372-382 (FCFS) and 413-423 (SJF): run the dispatched process `cur`
      one tick at a time, promoting arrivals after every tick and logging each
      tick, then mark it Terminated and log that. The clock advances by
      exactly the remaining time; every other process only has its arrival
      noticed; the log gains that many ticks of `cur` with the counts going
      down to 0, then its termination. */
  method RunToCompletion(ghost init: seq<Process>, procs: seq<Process>, t: int, steps: seq<Step>,
                         cur: nat, ghost scheme: Scheme)
    returns (procs': seq<Process>, t': int, steps': seq<Step>)
    requires scheme == FirstComeFirstServed || scheme == ShortestJobFirst
    requires OpenLog(init, steps) && Ordered(steps, scheme)
    requires cur < |procs| && Last(steps) == Step(t, Dispatch(cur), procs)
    requires procs[cur].remainingTime > 0
    ensures OpenLog(init, steps') && Ordered(steps', scheme)
    ensures t' == t + procs[cur].remainingTime
    ensures |procs'| == |procs|
    ensures procs'[cur] == procs[cur].(remainingTime := 0, status := Terminated)
    ensures forall j :: 0 <= j < |procs| && j != cur ==> procs'[j] == Promoted(procs[j], t')
    ensures StateOk(procs', t') && NoneOverdue(procs', t') && NoneRunning(procs')
    ensures |steps'| == |steps| + procs[cur].remainingTime + 1 && steps'[..|steps|] == steps
    ensures forall m :: |steps| <= m < |steps'| - 1 ==>
      steps'[m].event == Execute(cur, procs[cur].remainingTime - (m - |steps| + 1))
    ensures Last(steps') == Step(t', Finish(cur), procs')
    ensures Dispatched(steps') == Dispatched(steps)
  {
    var n := |steps|;
    var burst := procs[cur].remainingTime;
    assert n > 1;
    assert StateOk(procs, t) && NoneOverdue(procs, t) by {
      assert steps[n - 1] == Last(steps);
    }
    PromotedNoneDue(procs, t);
    procs', t', steps' := procs, t, steps;
    while procs'[cur].remainingTime > 0
      invariant |procs'| == |procs| && t <= t'
      invariant t' - t + procs'[cur].remainingTime == burst
      invariant procs'[cur] == procs[cur].(remainingTime := procs'[cur].remainingTime)
      invariant forall j :: 0 <= j < |procs| && j != cur ==> procs'[j] == Promoted(procs[j], t')
      invariant StateOk(procs', t')
      invariant OpenLog(init, steps') && Ordered(steps', scheme)
      invariant Last(steps') == Step(t', if t' == t then Dispatch(cur) else Execute(cur, procs'[cur].remainingTime), procs')
      invariant |steps'| == n + (t' - t) && steps'[..n] == steps
      invariant forall m :: n <= m < |steps'| ==> steps'[m].event == Execute(cur, burst - (m - n + 1))
      invariant Dispatched(steps') == Dispatched(steps)
      decreases procs'[cur].remainingTime
    {
      t', procs', steps' := TickStep(init, procs, t, steps, cur, scheme, procs', t', steps');
    }
    var s := Step(t', Finish(cur), Snapshot(procs'[cur := procs'[cur].(remainingTime := 0, status := Terminated)]));
    FinishFits(init, steps', cur, scheme, s);
    assert (steps' + [s])[..n] == steps'[..n];
    procs', steps' := s.processes, steps' + [s];
  }

  /** One iteration of the tick loop of RunToCompletion. */
  method TickStep(ghost init: seq<Process>, procs: seq<Process>, t: int, steps: seq<Step>,
                  cur: nat, ghost scheme: Scheme, procs': seq<Process>, t': int, steps': seq<Step>)
    returns (t'': int, procs'': seq<Process>, steps'': seq<Step>)
    requires scheme == FirstComeFirstServed || scheme == ShortestJobFirst
    requires cur < |procs| && |procs'| == |procs| && t <= t'
    requires 0 < procs'[cur].remainingTime
    requires t' - t + procs'[cur].remainingTime == procs[cur].remainingTime
    requires procs'[cur] == procs[cur].(remainingTime := procs'[cur].remainingTime)
    requires procs[cur].status == Running
    requires forall j :: 0 <= j < |procs| && j != cur ==> procs'[j] == Promoted(procs[j], t')
    requires StateOk(procs', t')
    requires OpenLog(init, steps') && Ordered(steps', scheme)
    requires Last(steps') == Step(t', if t' == t then Dispatch(cur) else Execute(cur, procs'[cur].remainingTime), procs')
    requires |steps| <= |steps'| == |steps| + (t' - t) && steps'[..|steps|] == steps
    requires forall m :: |steps| <= m < |steps'| ==> steps'[m].event == Execute(cur, procs[cur].remainingTime - (m - |steps| + 1))
    requires Dispatched(steps') == Dispatched(steps)
    ensures t'' == t' + 1 && |procs''| == |procs|
    ensures t'' - t + procs''[cur].remainingTime == procs[cur].remainingTime
    ensures procs''[cur] == procs[cur].(remainingTime := procs''[cur].remainingTime)
    ensures forall j :: 0 <= j < |procs| && j != cur ==> procs''[j] == Promoted(procs[j], t'')
    ensures StateOk(procs'', t'')
    ensures OpenLog(init, steps'') && Ordered(steps'', scheme)
    ensures Last(steps'') == Step(t'', Execute(cur, procs''[cur].remainingTime), procs'')
    ensures |steps''| == |steps| + (t'' - t) && steps''[..|steps|] == steps
    ensures forall m :: |steps| <= m < |steps''| ==> steps''[m].event == Execute(cur, procs[cur].remainingTime - (m - |steps| + 1))
    ensures Dispatched(steps'') == Dispatched(steps)
  {
    var ticked := procs'[cur := procs'[cur].(remainingTime := procs'[cur].remainingTime - 1)];
    procs'' := PromoteArrivals(ticked, t' + 1);
    var s := Step(t' + 1, Execute(cur, procs''[cur].remainingTime), Snapshot(procs''));
    TickedState(procs, t, cur, procs', t', procs'');
    TickLogged(init, steps', cur, scheme, s);
    TickHistory(steps, steps', cur, procs[cur].remainingTime, t' - t, s);
    t'', steps'' := t' + 1, steps' + [s];
  }

  /** After a tick and the promotion pass, `cur` has one unit less and every
      other process has only had its arrival noticed. */
  lemma TickedState(procs: seq<Process>, t: int, cur: nat, procs': seq<Process>, t': int, r: seq<Process>)
    requires cur < |procs| && |procs'| == |procs| && procs[cur].status == Running
    requires t' - t + procs'[cur].remainingTime == procs[cur].remainingTime
    requires procs'[cur] == procs[cur].(remainingTime := procs'[cur].remainingTime)
    requires forall j :: 0 <= j < |procs| && j != cur ==> procs'[j] == Promoted(procs[j], t')
    requires |r| == |procs'| && forall i :: 0 <= i < |procs'| ==>
      r[i] == Promoted(procs'[cur := procs'[cur].(remainingTime := procs'[cur].remainingTime - 1)][i], t' + 1)
    ensures t' + 1 - t + r[cur].remainingTime == procs[cur].remainingTime
    ensures r[cur] == procs[cur].(remainingTime := r[cur].remainingTime)
    ensures forall j :: 0 <= j < |procs| && j != cur ==> r[j] == Promoted(procs[j], t' + 1)
  {
    forall j | 0 <= j < |procs| && j != cur
      ensures r[j] == Promoted(procs[j], t' + 1)
    {
      PromotedTwice(procs[j], t', t' + 1);
    }
  }

  /** The tick step fits the log and keeps it in the scheme's order; it is not
      a dispatch. */
  lemma TickLogged(init: seq<Process>, steps: seq<Step>, cur: nat, scheme: Scheme, s: Step)
    requires scheme == FirstComeFirstServed || scheme == ShortestJobFirst
    requires OpenLog(init, steps) && Ordered(steps, scheme)
    requires var last := Last(steps);
      && StateOk(last.processes, last.time) && cur < |last.processes|
      && last.event == (if last.event.Dispatch? then Dispatch(cur) else Execute(cur, last.processes[cur].remainingTime))
      && last.processes[cur].status == Running && last.processes[cur].remainingTime > 0
    requires var ps := Last(steps).processes;
      && |s.processes| == |ps| && s.time == Last(steps).time + 1 && NoneOverdue(s.processes, s.time)
      && s.event == Execute(cur, s.processes[cur].remainingTime)
      && forall i :: 0 <= i < |ps| ==>
           s.processes[i] == Promoted(ps[cur := ps[cur].(remainingTime := ps[cur].remainingTime - 1)][i], s.time)
    ensures OpenLog(init, steps + [s]) && Ordered(steps + [s], scheme)
    ensures StateOk(s.processes, s.time) && Dispatched(steps + [s]) == Dispatched(steps)
  {
    TickFits(Last(steps), cur, s.processes, s.event);
    Extend(init, steps, s);
    OrderedAppend(steps, s, scheme);
    DispatchedAppend(steps, s);
  }

  /** The log so far is the log before the dispatch followed by `ticks`
      counted-down ticks of `cur`; one more tick extends that by one. */
  lemma TickHistory(steps: seq<Step>, steps': seq<Step>, cur: nat, burst: int, ticks: int, s: Step)
    requires 0 <= ticks && |steps'| == |steps| + ticks && steps'[..|steps|] == steps
    requires forall m :: |steps| <= m < |steps'| ==> steps'[m].event == Execute(cur, burst - (m - |steps| + 1))
    requires s.event == Execute(cur, burst - (ticks + 1))
    ensures |steps' + [s]| == |steps| + (ticks + 1) && (steps' + [s])[..|steps|] == steps
    ensures forall m :: |steps| <= m < |steps' + [s]| ==> (steps' + [s])[m].event == Execute(cur, burst - (m - |steps| + 1))
  {
    assert (steps' + [s])[..|steps|] == steps'[..|steps|];
  }

  /** In an FCFS or SJF log, a dispatch or tick of process i with l > 0 units
      left is followed by a tick of i leaving l - 1, one clock unit later. */
  lemma TickFollows(init: seq<Process>, steps: seq<Step>, scheme: Scheme, j: int, i: nat, l: int)
    requires scheme == FirstComeFirstServed || scheme == ShortestJobFirst
    requires ValidLog(init, steps) && Ordered(steps, scheme)
    requires 0 <= j < |steps| && (steps[j].event == Dispatch(i) || steps[j].event == Execute(i, l))
    requires i < |steps[j].processes| && steps[j].processes[i].remainingTime == l > 0
    ensures j + 1 < |steps| && steps[j + 1].event == Execute(i, l - 1) && i < |steps[j + 1].processes|
    ensures steps[j + 1].time == steps[j].time + 1 && steps[j + 1].processes[i].remainingTime == l - 1
  {
    assert j + 1 < |steps|;
    FollowsAt(steps, scheme, j + 1);
    StepAt(init, steps, j + 1);
  }

  /** ... and the tick that leaves nothing is followed by the termination. */
  lemma FinishFollows(init: seq<Process>, steps: seq<Step>, scheme: Scheme, j: int, i: nat)
    requires scheme == FirstComeFirstServed || scheme == ShortestJobFirst
    requires ValidLog(init, steps) && Ordered(steps, scheme)
    requires 0 <= j < |steps| && steps[j].event == Execute(i, 0)
    ensures j + 1 < |steps| && steps[j + 1].event == Finish(i)
  {
    assert j + 1 < |steps|;
    FollowsAt(steps, scheme, j + 1);
    StepAt(init, steps, j + 1);
  }

  /** A dispatched process is never interrupted: in a complete FCFS or SJF log,
      the dispatch of process i with r units left is followed by exactly r
      ticks of i (counting down to 0, one clock unit each) and then by the
      termination of i. */
  lemma {:induction false} RunsUninterrupted(init: seq<Process>, steps: seq<Step>, scheme: Scheme, k: int, i: nat, m: int)
    requires scheme == FirstComeFirstServed || scheme == ShortestJobFirst
    requires ValidLog(init, steps) && Ordered(steps, scheme)
    requires 0 <= k < |steps| && steps[k].event == Dispatch(i) && i < |steps[k].processes|
    requires 0 < m <= steps[k].processes[i].remainingTime
    ensures k + m + 1 < |steps|
    ensures steps[k + m].event == Execute(i, steps[k].processes[i].remainingTime - m)
    ensures steps[k + m].time == steps[k].time + m
    ensures m == steps[k].processes[i].remainingTime ==> steps[k + m + 1].event == Finish(i)
  {
    var r := steps[k].processes[i].remainingTime;
    if m == 1 {
      TickFollows(init, steps, scheme, k, i, r);
    } else {
      RunsUninterrupted(init, steps, scheme, k, i, m - 1);
      var j := k + m - 1;
      StaticFieldsKept(init, steps, j);
      assert steps[j].processes[i].remainingTime == r - m + 1 by { StepAt(init, steps, j); }
      TickFollows(init, steps, scheme, j, i, r - m + 1);
    }
    if m == r {
      FinishFollows(init, steps, scheme, k + m, i);
    } else {
      StaticFieldsKept(init, steps, k + m);
      assert steps[k + m].processes[i].remainingTime == r - m by { StepAt(init, steps, k + m); }
      TickFollows(init, steps, scheme, k + m, i, r - m);
    }
  }
}
