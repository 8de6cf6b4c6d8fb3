/**
  What SJF and Priority share. Each round of their loop promotes the arrivals,
  then takes the best Ready process under the algorithm's order (the
  `filter`, stable `sort` and `[0]` of the source), marks it Running and logs
  the choice; with nothing Ready the clock moves on by one unit and nothing
  is logged.
*/
module Selection {
  import opened Wrappers
  import opened Processes
  import opened StepLog

  /** At a dispatch step, the dispatched process was the best Ready process
      of the list as it stood just before it was marked Running. */
  predicate ChoseBest(policy: Policy, s: Step) {
    s.event.Dispatch? && s.event.proc < |s.processes| ==>
      IsBestReady(policy, s.processes[s.event.proc := s.processes[s.event.proc].(status := Ready)], s.event.proc)
  }

  /** Every dispatch of the log chose the best Ready process. */
  predicate AllChoicesBest(policy: Policy, steps: seq<Step>)
    decreases |steps|
  {
    |steps| == 0 || (AllChoicesBest(policy, steps[..|steps| - 1]) && ChoseBest(policy, steps[|steps| - 1]))
  }

  /** The dispatch at any position k of such a log chose the best Ready
      process. */
  lemma {:induction false} ChoiceAt(policy: Policy, steps: seq<Step>, k: int)
    requires AllChoicesBest(policy, steps) && 0 <= k < |steps|
    ensures ChoseBest(policy, steps[k])
    decreases |steps|
  {
    if k < |steps| - 1 {
      ChoiceAt(policy, steps[..|steps| - 1], k);
      assert steps[..|steps| - 1][k] == steps[k];
    }
  }

  /** Appending steps that are not dispatches records no new choice. */
  lemma {:induction false} ChoicesExtend(policy: Policy, steps: seq<Step>, steps': seq<Step>)
    requires AllChoicesBest(policy, steps) && |steps| <= |steps'| && steps'[..|steps|] == steps
    requires forall m :: |steps| <= m < |steps'| ==> !steps'[m].event.Dispatch?
    ensures AllChoicesBest(policy, steps')
    decreases |steps'|
  {
    if |steps'| == |steps| {
      assert steps' == steps'[..|steps|];
    } else {
      var front := steps'[..|steps'| - 1];
      assert front[..|steps|] == steps;
      ChoicesExtend(policy, steps, front);
      assert front + [steps'[|steps'| - 1]] == steps';
      ChoicesAppend(policy, front, steps'[|steps'| - 1]);
    }
  }

  /** The log at the top of a round: open, in the scheme's event order, its
      choices all best and on time, and ready for the next dispatch. */
  ghost predicate LogInv(init: seq<Process>, steps: seq<Step>, scheme: Scheme, policy: Policy) {
    && OpenLog(init, steps) && Ordered(steps, scheme) && AllChoicesBest(policy, steps) && AllOnTime(steps)
    && Follows(scheme, Last(steps).event, Dispatch(0))
  }

  ghost predicate RoundInv(init: seq<Process>, procs: seq<Process>, t: int, steps: seq<Step>,
                           scheme: Scheme, policy: Policy) {
    LogInv(init, steps, scheme, policy) && StateInv(init, procs, t, Last(steps), scheme)
  }

  /** The first round starts from the logged initial list at time 0. */
  lemma FirstRound(init: seq<Process>, scheme: Scheme, policy: Policy)
    requires AllFresh(init)
    ensures RoundInv(init, init, 0, [Step(0, Start, init)], scheme, policy)
  {
    Begin(init);
    DriftRefl(Step(0, Start, init));
    assert [Step(0, Start, init)][..0] == [];
    assert AllChoicesBest(policy, [Step(0, Start, init)][..0]);
  }

  /** The promotion pass at the top of a round keeps the round state and
      leaves no arrived process New. */
  method PromoteRound(ghost init: seq<Process>, procs: seq<Process>, t: int, ghost steps: seq<Step>,
                      ghost scheme: Scheme, ghost policy: Policy)
    returns (procs': seq<Process>)
    requires RoundInv(init, procs, t, steps, scheme, policy)
    ensures RoundInv(init, procs', t, steps, scheme, policy) && NoneOverdue(procs', t)
    ensures |procs'| == |procs| && forall i :: 0 <= i < |procs| ==> procs'[i] == Promoted(procs[i], t)
    ensures TotalRemaining(procs') == TotalRemaining(procs)
  {
    procs' := PromoteArrivals(procs, t);
    PromotedKeepsRound(Last(steps), procs, procs', t);
    TotalRemainingPointwise(procs, procs');
  }

  lemma PromotedKeepsRound(last: Step, ps: seq<Process>, r: seq<Process>, t: int)
    requires StateOk(ps, t) && NoneRunning(ps) && Drift(last, ps, t)
    requires |r| == |ps| && forall i :: 0 <= i < |ps| ==> r[i] == Promoted(ps[i], t)
    ensures StateOk(r, t) && NoneRunning(r) && Drift(last, r, t)
    ensures forall i :: 0 <= i < |ps| ==> SameStatic(ps[i], r[i]) && r[i].remainingTime == ps[i].remainingTime
    ensures AnyUnfinished(ps) ==> AnyUnfinished(r)
  {
    PromotedStateOk(ps, r, t);
    DriftRestatus(last, ps, r, t, t);
    if AnyUnfinished(ps) {
      var i :| 0 <= i < |ps| && ps[i].status != Terminated;
      assert r[i].status != Terminated;
    }
  }

  /** Nothing is Ready: the clock moves on one unit, unlogged. This happens
      only while some process has yet to arrive. */
  lemma IdleRound(init: seq<Process>, procs: seq<Process>, t: int, steps: seq<Step>,
                  scheme: Scheme, policy: Policy)
    requires RoundInv(init, procs, t, steps, scheme, policy) && NoneOverdue(procs, t)
    requires AnyUnfinished(procs) && Select(policy, procs).None?
    ensures RoundInv(init, procs, t + 1, steps, scheme, policy)
    ensures t < MaxArrival(init)
  {
    IdleBeforeLastArrival(procs, t);
    IdleNotLate(Last(steps), procs, t);
    var i :| 0 <= i < |procs| && procs[i].status != Terminated;
    assert ProcessOk(procs[i], t) && procs[i].status == New;
    assert SameStatic(init[i], procs[i]);
  }

  /** script.js lines 407-410 (SJF) and 446-450 (Priority): the best Ready
      process becomes Running and the choice is logged, on time. */
  method DispatchBest(ghost init: seq<Process>, procs: seq<Process>, t: int, steps: seq<Step>,
                      ghost scheme: Scheme, policy: Policy)
    returns (cur: nat, procs': seq<Process>, steps': seq<Step>)
    requires RoundInv(init, procs, t, steps, scheme, policy) && NoneOverdue(procs, t)
    requires Select(policy, procs).Some?
    ensures cur == Select(policy, procs).value && cur < |procs|
    ensures procs' == procs[cur := procs[cur].(status := Running)] && procs'[cur].remainingTime > 0
    ensures |procs'| == |init| && forall i :: 0 <= i < |procs'| ==> SameStatic(init[i], procs'[i])
    ensures OpenLog(init, steps') && Ordered(steps', scheme) && AllChoicesBest(policy, steps') && AllOnTime(steps')
    ensures steps' == steps + [Step(t, Dispatch(cur), procs')]
  {
    cur := Select(policy, procs).value;
    procs' := procs[cur := procs[cur].(status := Running)];
    var s := Step(t, Dispatch(cur), Snapshot(procs'));
    DispatchLogged(init, procs, t, steps, scheme, policy, cur, s);
    steps' := steps + [s];
  }

  /** The dispatch step of DispatchBest extends the log. */
  lemma DispatchLogged(init: seq<Process>, procs: seq<Process>, t: int, steps: seq<Step>,
                       scheme: Scheme, policy: Policy, cur: nat, s: Step)
    requires RoundInv(init, procs, t, steps, scheme, policy) && NoneOverdue(procs, t)
    requires IsBestReady(policy, procs, cur)
    requires s == Step(t, Dispatch(cur), procs[cur := procs[cur].(status := Running)])
    ensures procs[cur].remainingTime > 0
    ensures OpenLog(init, steps + [s]) && Ordered(steps + [s], scheme)
    ensures AllChoicesBest(policy, steps + [s]) && AllOnTime(steps + [s])
  {
    ChoiceFits(Last(steps), procs, t, policy, cur);
    Extend(init, steps, s);
    OrderedAppend(steps, s, scheme);
    ChoicesAppend(policy, steps, s);
    DispatchOnTime(init, procs, t, Last(steps), scheme, cur, s);
    OnTimeAppend(steps, s);
  }

  /** Marking the best Ready process Running gives a dispatch step that fits
      the last logged step and records a best choice. */
  lemma ChoiceFits(last: Step, ps: seq<Process>, t: int, policy: Policy, cur: nat)
    requires StateOk(ps, t) && NoneRunning(ps) && Drift(last, ps, t) && NoneOverdue(ps, t)
    requires IsBestReady(policy, ps, cur)
    ensures var r := ps[cur := ps[cur].(status := Running)];
      StepOk(last, Step(t, Dispatch(cur), r)) && StateOk(r, t) && NoneOverdue(r, t) &&
      EventOk(Step(t, Dispatch(cur), r)) && ChoseBest(policy, Step(t, Dispatch(cur), r)) &&
      r[cur].remainingTime > 0
  {
    var r := ps[cur := ps[cur].(status := Running)];
    assert r[cur := r[cur].(status := Ready)] == ps;
    MarkRunningFits(last, ps, t, cur);
  }

  /** Marking a Ready process Running, with nothing else Running, gives a
      dispatch step that fits the last logged step. */
  lemma MarkRunningFits(last: Step, ps: seq<Process>, t: int, cur: nat)
    requires StateOk(ps, t) && NoneRunning(ps) && Drift(last, ps, t) && NoneOverdue(ps, t)
    requires cur < |ps| && ps[cur].status == Ready
    ensures var r := ps[cur := ps[cur].(status := Running)];
      StepOk(last, Step(t, Dispatch(cur), r)) && StateOk(r, t) && NoneOverdue(r, t) &&
      EventOk(Step(t, Dispatch(cur), r)) && r[cur].remainingTime > 0
  {
    var r := ps[cur := ps[cur].(status := Running)];
    assert ProcessOk(ps[cur], t);
    DriftRestatus(last, ps, r, t, t);
    DriftLogs(last, r, t, Dispatch(cur));
  }

  lemma ChoicesAppend(policy: Policy, steps: seq<Step>, s: Step)
    requires AllChoicesBest(policy, steps) && ChoseBest(policy, s)
    ensures AllChoicesBest(policy, steps + [s])
  {
    assert (steps + [s])[..|steps|] == steps;
  }

  /** script.js line 426 (SJF) and 469 (Priority): the final step, once no work is left. */
  method ConcludeRounds(ghost init: seq<Process>, procs: seq<Process>, t: int, steps: seq<Step>,
                        ghost scheme: Scheme, ghost policy: Policy)
    returns (steps': seq<Step>)
    requires RoundInv(init, procs, t, steps, scheme, policy) && !AnyUnfinished(procs)
    ensures ValidLog(init, steps') && Ordered(steps', scheme) && AllChoicesBest(policy, steps') && AllOnTime(steps')
    ensures steps' == steps + [Step(t, AllDone, procs)]
  {
    var s := Step(t, AllDone, Snapshot(procs));
    DriftLogs(Last(steps), procs, t, AllDone);
    Extend(init, steps, s);
    OrderedAppend(steps, s, scheme);
    steps' := steps + [s];
  }
}
