/**
  First-Come-First-Served (`simulateFCFS`): the working list is stably sorted
  by arrival time, and each process in turn runs to completion; when the clock
  is behind the next process's arrival it jumps straight to it.
*/
module Fcfs {
  import opened Wrappers
  import opened Processes
  import opened StepLog
  import opened NonPreemptive

  // ---------------------------------------------------------------------
  // The arrival-time sort (a stable sort, as JavaScript's Array.sort is)
  // ---------------------------------------------------------------------

  predicate SortedByArrival(ps: seq<Process>) {
    forall i, j :: 0 <= i < j < |ps| ==> ps[i].arrivalTime <= ps[j].arrivalTime
  }

  /** Insert p behind every element that does not arrive later than it. */
  function InsertByArrival(p: Process, s: seq<Process>): (r: seq<Process>)
    ensures |r| == |s| + 1
    ensures multiset(r) == multiset(s) + multiset{p}
    ensures forall i :: 0 <= i < |r| ==> r[i] == p || r[i] in s
  {
    if |s| == 0 then [p]
    else if p.arrivalTime < s[0].arrivalTime then [p] + s
    else
      assert s == [s[0]] + s[1..];
      [s[0]] + InsertByArrival(p, s[1..])
  }

  lemma {:induction false} InsertSorted(p: Process, s: seq<Process>)
    requires SortedByArrival(s)
    ensures SortedByArrival(InsertByArrival(p, s))
  {
    if |s| > 0 && s[0].arrivalTime <= p.arrivalTime {
      InsertSorted(p, s[1..]);
      var rest := InsertByArrival(p, s[1..]);
      forall i | 0 <= i < |rest| ensures s[0].arrivalTime <= rest[i].arrivalTime {
        if rest[i] != p {
          var j :| 0 <= j < |s[1..]| && s[1..][j] == rest[i];
          assert s[1..][j] == s[j + 1];
        }
      }
    }
  }

  /** The stable sort of the working list by arrival time, as insertion sort. */
  function SortByArrival(s: seq<Process>): (r: seq<Process>)
    ensures |r| == |s| && multiset(r) == multiset(s) && SortedByArrival(r)
  {
    if |s| == 0 then []
    else
      assert s == s[..|s| - 1] + [s[|s| - 1]];
      var sorted := SortByArrival(s[..|s| - 1]);
      InsertSorted(s[|s| - 1], sorted);
      InsertByArrival(s[|s| - 1], sorted)
  }

  /** The processes of s arriving at time a, in the order of s. */
  function ArrivingAt(s: seq<Process>, a: int): seq<Process> {
    if |s| == 0 then [] else (if s[0].arrivalTime == a then [s[0]] else []) + ArrivingAt(s[1..], a)
  }

  lemma {:induction false} ArrivingAtAppend(s: seq<Process>, u: seq<Process>, a: int)
    ensures ArrivingAt(s + u, a) == ArrivingAt(s, a) + ArrivingAt(u, a)
  {
    if |s| > 0 {
      assert (s + u)[1..] == s[1..] + u;
      ArrivingAtAppend(s[1..], u, a);
    } else {
      assert s + u == u;
    }
  }

  lemma {:induction false} ArrivingAtNone(s: seq<Process>, a: int)
    requires forall i :: 0 <= i < |s| ==> a < s[i].arrivalTime
    ensures ArrivingAt(s, a) == []
  {
    if |s| > 0 {
      ArrivingAtNone(s[1..], a);
    }
  }

  lemma {:induction false} InsertStable(p: Process, s: seq<Process>, a: int)
    requires SortedByArrival(s)
    ensures ArrivingAt(InsertByArrival(p, s), a) == ArrivingAt(s, a) + ArrivingAt([p], a)
  {
    if |s| == 0 {
    } else if p.arrivalTime < s[0].arrivalTime {
      InsertFrontStable(p, s, a);
    } else {
      InsertStable(p, s[1..], a);
      var r := InsertByArrival(p, s);
      assert r[0] == s[0] && r[1..] == InsertByArrival(p, s[1..]);
      var head := if s[0].arrivalTime == a then [s[0]] else [];
      assert ArrivingAt(r, a) == head + ArrivingAt(r[1..], a);
      assert ArrivingAt(s, a) == head + ArrivingAt(s[1..], a);
      Regroup(head, ArrivingAt(s[1..], a), ArrivingAt([p], a));
    }
  }

  lemma Regroup(x: seq<Process>, y: seq<Process>, z: seq<Process>)
    ensures x + (y + z) == (x + y) + z
  {
  }

  /** Inserting before every element of a sorted list puts the new element
      behind none of those arriving at its own time. */
  lemma {:induction false} InsertFrontStable(p: Process, s: seq<Process>, a: int)
    requires SortedByArrival(s) && |s| > 0 && p.arrivalTime < s[0].arrivalTime
    ensures ArrivingAt([p] + s, a) == ArrivingAt(s, a) + ArrivingAt([p], a)
  {
    ArrivingAtAppend([p], s, a);
    if p.arrivalTime == a {
      ArrivingAtNone(s, a);
    } else {
      assert ArrivingAt([p], a) == [] by { assert [p][1..] == []; }
    }
  }

  /** The sort is stable: for every arrival time, the processes arriving at
      that time keep their input order. */
  lemma {:induction false} SortStable(s: seq<Process>, a: int)
    ensures ArrivingAt(SortByArrival(s), a) == ArrivingAt(s, a)
  {
    if |s| > 0 {
      var init, last := s[..|s| - 1], s[|s| - 1];
      SortStable(init, a);
      InsertStable(last, SortByArrival(init), a);
      ArrivingAtAppend(init, [last], a);
      assert init + [last] == s;
    }
  }

  lemma SortKeepsFresh(s: seq<Process>)
    requires AllFresh(s)
    ensures AllFresh(SortByArrival(s))
  {
    var r := SortByArrival(s);
    forall i | 0 <= i < |r|
      ensures r[i].status == New && 0 < r[i].burstTime && r[i].remainingTime == r[i].burstTime
    {
      assert r[i] in multiset(r);
      assert r[i] in s;
    }
  }

  /** The working list FCFS runs: copies reset to New, sorted by arrival.
      It holds the same records as the working copy, and fresh ones when
      the input is valid. */
  function FcfsOrder(input: seq<Process>): (r: seq<Process>)
    ensures |r| == |input| && multiset(r) == multiset(WorkingCopy(input)) && SortedByArrival(r)
    ensures ValidInput(input) ==> AllFresh(r)
  {
    var w := WorkingCopy(input);
    if ValidInput(input) then SortKeepsFresh(w); SortByArrival(w) else SortByArrival(w)
  }

  // ---------------------------------------------------------------------
  // Completion time: the bursts plus the idle gaps before arrivals
  // ---------------------------------------------------------------------

  function SumBursts(ps: seq<Process>): int {
    if |ps| == 0 then 0 else ps[0].burstTime + SumBursts(ps[1..])
  }

  /** The idle time before each process of ps when they are run in order from
      clock t: the clock jumps to an arrival it has not reached. */
  function IdleTime(ps: seq<Process>, t: int): int {
    if |ps| == 0 then 0
    else
      var start := if t < ps[0].arrivalTime then ps[0].arrivalTime else t;
      (start - t) + IdleTime(ps[1..], start + ps[0].burstTime)
  }

  lemma {:induction false} IdleTimeNonNegative(ps: seq<Process>, t: int)
    requires forall i :: 0 <= i < |ps| ==> 0 <= ps[i].burstTime
    ensures 0 <= IdleTime(ps, t)
  {
    if |ps| > 0 {
      var start := if t < ps[0].arrivalTime then ps[0].arrivalTime else t;
      IdleTimeNonNegative(ps[1..], start + ps[0].burstTime);
    }
  }

  /** When every process has arrived by clock t, FCFS is never idle. */
  lemma {:induction false} NoIdleWhenAllArrived(ps: seq<Process>, t: int)
    requires forall i :: 0 <= i < |ps| ==> ps[i].arrivalTime <= t && 0 <= ps[i].burstTime
    ensures IdleTime(ps, t) == 0
  {
    if |ps| > 0 {
      NoIdleWhenAllArrived(ps[1..], t + ps[0].burstTime);
    }
  }

  // ---------------------------------------------------------------------
  // The marking passes of script.js lines 359 and 368
  // ---------------------------------------------------------------------

  /** The marking rule of FCFS: an unfinished process that has arrived by
      clock t is Ready. */
  function MarkedReady(p: Process, t: int): Process {
    if p.status != Terminated && p.arrivalTime <= t then p.(status := Ready) else p
  }

  /** Mark every arrived, unfinished process Ready, except the one at index
      `skip` when there is one (the process just set Running). */
  method MarkArrivedReady(ps: seq<Process>, t: int, skip: Option<nat>) returns (r: seq<Process>)
    ensures |r| == |ps|
    ensures forall i :: 0 <= i < |ps| ==> r[i] == if skip == Some(i) then ps[i] else MarkedReady(ps[i], t)
  {
    r := ps;
    var i := 0;
    while i < |r|
      invariant 0 <= i <= |r| == |ps|
      invariant forall j :: 0 <= j < i ==> r[j] == if skip == Some(j) then ps[j] else MarkedReady(ps[j], t)
      invariant forall j :: i <= j < |r| ==> r[j] == ps[j]
    {
      if skip != Some(i) && r[i].status != Terminated && r[i].arrivalTime <= t {
        r := r[i := r[i].(status := Ready)];
      }
      i := i + 1;
    }
  }

  // ---------------------------------------------------------------------
  // The simulator
  // ---------------------------------------------------------------------

  /** The numbers 0 .. n-1 in order. */
  function Upto(n: nat): seq<nat> {
    if n == 0 then [] else Upto(n - 1) + [n - 1]
  }

  /** The marking pass of script.js line 359 after the clock jumps from t to u keeps
      the per-step conditions and leaves no arrived process New. */
  lemma AdvanceOk(last: Step, ps: seq<Process>, r: seq<Process>, t: int, u: int)
    requires StateOk(ps, t) && NoneRunning(ps) && Drift(last, ps, t) && t <= u
    requires |r| == |ps| && forall i :: 0 <= i < |ps| ==> r[i] == MarkedReady(ps[i], u)
    ensures Drift(last, r, u) && StateOk(r, u) && NoneRunning(r) && NoneOverdue(r, u)
  {
    forall i | 0 <= i < |ps|
      ensures ProcessOk(r[i], u) && r[i].status != Running
      ensures r[i].status == ps[i].status || ((ps[i].status == New || ps[i].status == Ready) && r[i].status == Ready)
    {
      assert ProcessOk(ps[i], t);
    }
    DriftRestatus(last, ps, r, t, u);
  }

  /** script.js lines 363-368: k becomes Running and every other arrived unfinished
      process Ready; the per-step conditions still hold. */
  lemma DispatchOk(last: Step, ps: seq<Process>, r: seq<Process>, t: int, k: int)
    requires StateOk(ps, t) && NoneRunning(ps) && Drift(last, ps, t)
    requires 0 <= k < |ps| && ps[k].arrivalTime <= t && (ps[k].status == New || ps[k].status == Ready)
    requires |r| == |ps| && r[k] == ps[k].(status := Running)
    requires forall i :: 0 <= i < |ps| && i != k ==> r[i] == MarkedReady(ps[i], t)
    ensures Drift(last, r, t) && StateOk(r, t) && NoneOverdue(r, t) && EventOk(Step(t, Dispatch(k), r))
  {
    forall i | 0 <= i < |ps|
      ensures ProcessOk(r[i], t) && (i != k ==> r[i].status != Running)
      ensures r[i].status == ps[i].status || ((ps[i].status == New || ps[i].status == Ready) && (r[i].status == Ready || r[i].status == Running))
    {
      assert ProcessOk(ps[i], t);
    }
    DriftRestatus(last, ps, r, t, t);
  }

  /** script.js lines 355-361: jump the clock to the arrival of the next process,
      mark the arrived processes Ready and log the jump. */
  method AdvanceTo(ghost init: seq<Process>, procs: seq<Process>, t: int, steps: seq<Step>, k: nat)
    returns (procs': seq<Process>, t': int, steps': seq<Step>)
    requires OpenLog(init, steps) && Ordered(steps, FirstComeFirstServed)
    requires Last(steps).event.Start? || Last(steps).event.Finish?
    requires StateOk(procs, t) && NoneRunning(procs) && Drift(Last(steps), procs, t)
    requires k < |procs| && t < procs[k].arrivalTime
    ensures t' == procs[k].arrivalTime
    ensures |procs'| == |procs| && forall i :: 0 <= i < |procs| ==> procs'[i] == MarkedReady(procs[i], t')
    ensures OpenLog(init, steps') && Ordered(steps', FirstComeFirstServed) && Dispatched(steps') == Dispatched(steps)
    ensures steps' == steps + [Step(t', Advance, procs')]
  {
    t' := procs[k].arrivalTime;
    procs' := MarkArrivedReady(procs, t', None);
    var s := Step(t', Advance, Snapshot(procs'));
    AdvanceOk(Last(steps), procs, procs', t, t');
    DriftLogs(Last(steps), procs', t', Advance);
    Extend(init, steps, s);
    OrderedAppend(steps, s, FirstComeFirstServed);
    DispatchedAppend(steps, s);
    steps' := steps + [s];
  }

  /** script.js lines 363-369: the next process becomes Running, every other arrived
      unfinished process Ready, and the dispatch is logged. */
  method StartNext(ghost init: seq<Process>, procs: seq<Process>, t: int, steps: seq<Step>, k: nat)
    returns (procs': seq<Process>, steps': seq<Step>)
    requires OpenLog(init, steps) && Ordered(steps, FirstComeFirstServed)
    requires Last(steps).event.Start? || Last(steps).event.Finish? || Last(steps).event.Advance?
    requires StateOk(procs, t) && NoneRunning(procs) && Drift(Last(steps), procs, t)
    requires k < |procs| && procs[k].arrivalTime <= t
    requires procs[k].status == New || procs[k].status == Ready
    ensures |procs'| == |procs| && procs'[k] == procs[k].(status := Running)
    ensures forall i :: 0 <= i < |procs| && i != k ==> procs'[i] == MarkedReady(procs[i], t)
    ensures OpenLog(init, steps') && Ordered(steps', FirstComeFirstServed)
    ensures Dispatched(steps') == Dispatched(steps) + [k]
    ensures steps' == steps + [Step(t, Dispatch(k), procs')]
  {
    var p := procs;
    if p[k].status == New && p[k].arrivalTime <= t {
      p := p[k := p[k].(status := Ready)];
    }
    p := p[k := p[k].(status := Running)];
    procs' := MarkArrivedReady(p, t, Some(k));
    var s := Step(t, Dispatch(k), Snapshot(procs'));
    DispatchOk(Last(steps), procs, procs', t, k);
    DriftLogs(Last(steps), procs', t, s.event);
    Extend(init, steps, s);
    OrderedAppend(steps, s, FirstComeFirstServed);
    DispatchedAppend(steps, s);
    steps' := steps + [s];
  }

  /** A process the loop has not reached yet: not started, whole burst left. */
  predicate Waits(p: Process) {
    (p.status == New || p.status == Ready) && p.remainingTime == p.burstTime
  }

  /** Process i of the working list as the loop over it finds it at step k:
      the static fields of init, finished if before k, waiting if after. */
  predicate InPlace(init: seq<Process>, procs: seq<Process>, k: int, i: int)
    requires 0 <= i < |init| == |procs|
  {
    SameStatic(init[i], procs[i]) &&
    (i < k ==> procs[i].status == Terminated) &&
    (k <= i ==> Waits(procs[i]))
  }

  /** What holds at the head of each iteration of the loop over `procs`:
      the first k processes are done, the rest wait with their full burst. */
  ghost predicate LoopInv(init: seq<Process>, procs: seq<Process>, t: int, steps: seq<Step>, k: int) {
    && 0 <= k <= |procs| == |init|
    && OpenLog(init, steps) && Ordered(steps, FirstComeFirstServed)
    && (Last(steps).event.Start? || Last(steps).event.Finish?) && Last(steps).time == t
    && StateOk(procs, t) && NoneRunning(procs) && Drift(Last(steps), procs, t)
    && (forall i :: 0 <= i < |procs| ==> InPlace(init, procs, k, i))
    && Dispatched(steps) == Upto(k)
    && Last(steps).processes == procs
    && OnSchedule(init, steps)
  }

  /** Every dispatch is logged at the clock of the step before it, so a wait
      for an arrival shows up as a jump of the clock of its own. A log of the
      sorted list is moreover on time: every dispatch comes as soon as its
      process has arrived and the one before it has finished, and every jump
      of the clock lands on the next arrival. */
  predicate OnSchedule(init: seq<Process>, steps: seq<Step>) {
    && AllDispatchesPrompt(steps)
    && (SortedByArrival(init) ==> AllOnTime(steps) && AllJumpsOnTime(steps))
  }

  /** With the list sorted by arrival and the loop at k, the earliest arrival
      among the unfinished processes is that of process k. */
  lemma EarliestInLoop(init: seq<Process>, procs: seq<Process>, k: int)
    requires SortedByArrival(init) && |procs| == |init| && 0 <= k < |procs|
    requires forall i :: 0 <= i < |procs| ==> InPlace(init, procs, k, i)
    ensures EarliestUnfinished(procs) == Some(init[k].arrivalTime)
  {
    EarliestIsLeast(procs);
    assert InPlace(init, procs, k, k);
    var i :| 0 <= i < |procs| && procs[i].status != Terminated && procs[i].arrivalTime == EarliestUnfinished(procs).value;
    assert InPlace(init, procs, k, i);
  }

  /** A jump of the clock to the arrival of process k, logged while k has not
      arrived, a dispatch of k once it has, or any other step, keeps the log
      on time. */
  lemma ServiceOnTime(init: seq<Process>, procs: seq<Process>, k: int, steps: seq<Step>, s: Step)
    requires |procs| == |init| && 0 <= k
    requires s.event.Advance? || s.event.Dispatch? ==>
      k < |procs| && forall i :: 0 <= i < |procs| ==> InPlace(init, procs, k, i)
    requires OnSchedule(init, steps) && |steps| > 0 && Last(steps).processes == procs
    requires s.event.Advance? ==> Last(steps).time < init[k].arrivalTime == s.time
    requires s.event.Dispatch? ==> init[k].arrivalTime <= Last(steps).time == s.time
    ensures OnSchedule(init, steps + [s])
  {
    PromptAppend(steps, s);
    if SortedByArrival(init) {
      if s.event.Advance? || s.event.Dispatch? {
        EarliestInLoop(init, procs, k);
      }
      OnTimeAppend(steps, s);
      JumpsAppend(steps, s);
    }
  }

  /** Running a process to completion logs neither a dispatch nor a jump of
      the clock, so the log stays on time. */
  lemma RunOnSchedule(init: seq<Process>, steps: seq<Step>, steps': seq<Step>)
    requires OnSchedule(init, steps) && |steps| < |steps'| && steps'[..|steps|] == steps
    requires forall m :: |steps| <= m < |steps'| - 1 ==> steps'[m].event.Execute?
    requires Last(steps').event.Finish?
    ensures OnSchedule(init, steps')
  {
    forall m | |steps| <= m < |steps'| ensures !steps'[m].event.Dispatch? && !steps'[m].event.Advance? {
      if m == |steps'| - 1 {
        assert steps'[m] == Last(steps');
      }
    }
    PromptExtend(steps, steps');
    if SortedByArrival(init) {
      OnTimeExtend(steps, steps');
      JumpsExtend(steps, steps');
    }
  }

  /** Process k, next in the loop, has arrived: the loop's bookkeeping holds
      and nothing is Running, so k can be dispatched at the current clock. */
  ghost predicate Arrived(init: seq<Process>, procs: seq<Process>, t: int, steps: seq<Step>, k: int) {
    && 0 <= k < |procs| == |init|
    && OpenLog(init, steps) && Ordered(steps, FirstComeFirstServed)
    && (Last(steps).event.Start? || Last(steps).event.Finish? || Last(steps).event.Advance?)
    && Last(steps).time == t && Last(steps).processes == procs
    && StateOk(procs, t) && NoneRunning(procs) && Drift(Last(steps), procs, t)
    && init[k].arrivalTime <= t
    && (forall i :: 0 <= i < |procs| ==> InPlace(init, procs, k, i))
    && Dispatched(steps) == Upto(k) && OnSchedule(init, steps)
  }

  /** script.js lines 355-361: if process k has not arrived yet, jump the clock to
      its arrival, mark the arrived processes Ready and log the jump;
      otherwise change nothing. */
  method WaitForArrival(ghost init: seq<Process>, procs: seq<Process>, t: int, steps: seq<Step>, k: nat)
    returns (procs': seq<Process>, t': int, steps': seq<Step>)
    requires LoopInv(init, procs, t, steps, k) && k < |procs|
    ensures t' == if t < init[k].arrivalTime then init[k].arrivalTime else t
    ensures t < init[k].arrivalTime ==>
      && |procs'| == |procs| && (forall i :: 0 <= i < |procs| ==> procs'[i] == MarkedReady(procs[i], t'))
      && steps' == steps + [Step(t', Advance, procs')]
    ensures init[k].arrivalTime <= t ==> procs' == procs && steps' == steps
    ensures Arrived(init, procs', t', steps', k)
  {
    assert InPlace(init, procs, k, k);
    StepAt(init, steps, 0);
    procs', t', steps' := procs, t, steps;
    if t < procs[k].arrivalTime {
      procs', t', steps' := AdvanceTo(init, procs, t, steps, k);
      AdvanceOk(Last(steps), procs, procs', t, t');
      DriftRefl(Last(steps'));
      MarkedInPlace(init, procs, procs', k, -1, t');
      ServiceOnTime(init, procs, k, steps, Step(t', Advance, procs'));
    }
  }

  /** script.js lines 355-369: jump the clock if process k has not arrived yet, then
      make k Running and log its dispatch. */
  method BeginService(ghost init: seq<Process>, procs: seq<Process>, t: int, steps: seq<Step>, k: nat)
    returns (procs': seq<Process>, t': int, steps': seq<Step>)
    requires LoopInv(init, procs, t, steps, k) && k < |procs|
    ensures t' == if t < init[k].arrivalTime then init[k].arrivalTime else t
    ensures OpenLog(init, steps') && Ordered(steps', FirstComeFirstServed)
    ensures Dispatched(steps') == Upto(k) + [k]
    ensures |procs'| == |procs| && Last(steps') == Step(t', Dispatch(k), procs')
    ensures SameStatic(init[k], procs'[k]) && procs'[k].remainingTime == init[k].burstTime > 0
    ensures forall i :: 0 <= i < |procs| && i != k ==> InPlace(init, procs', k, i)
    ensures OnSchedule(init, steps')
    ensures |steps'| == |steps| + (if t < init[k].arrivalTime then 2 else 1) && steps'[..|steps|] == steps
    ensures t < init[k].arrivalTime ==>
      && steps'[|steps|].time == t' && steps'[|steps|].event == Advance
      && |steps'[|steps|].processes| == |procs|
      && forall i :: 0 <= i < |procs| ==> steps'[|steps|].processes[i] == MarkedReady(procs[i], t')
  {
    procs', t', steps' := WaitForArrival(init, procs, t, steps, k);
    ghost var p1, s1 := procs', steps';
    assert InPlace(init, p1, k, k);
    procs', steps' := StartNext(init, procs', t', steps', k);
    MarkedInPlace(init, p1, procs', k, k, t');
    ServiceOnTime(init, p1, k, s1, Step(t', Dispatch(k), procs'));
    ServiceShape(steps, s1, steps', t < init[k].arrivalTime, Step(t', Advance, p1), Step(t', Dispatch(k), procs'));
  }

  /** The log after an optional jump step and a dispatch step. */
  lemma ServiceShape(steps: seq<Step>, s1: seq<Step>, steps': seq<Step>, waited: bool, jump: Step, dispatch: Step)
    requires s1 == if waited then steps + [jump] else steps
    requires steps' == s1 + [dispatch]
    ensures |steps'| == |steps| + (if waited then 2 else 1) && steps'[..|steps|] == steps
    ensures waited ==> steps'[|steps|] == jump
  {
    assert steps'[..|steps|] == s1[..|steps|];
  }

  /** The marking passes keep every process other than `skip` in place. */
  lemma MarkedInPlace(init: seq<Process>, ps: seq<Process>, r: seq<Process>, k: int, skip: int, u: int)
    requires |init| == |ps| == |r|
    requires forall i :: 0 <= i < |ps| ==> InPlace(init, ps, k, i)
    requires forall i :: 0 <= i < |ps| && i != skip ==> r[i] == MarkedReady(ps[i], u)
    ensures forall i :: 0 <= i < |ps| && i != skip ==> InPlace(init, r, k, i)
  {
    forall i | 0 <= i < |ps| && i != skip ensures InPlace(init, r, k, i) {
      assert InPlace(init, ps, k, i);
    }
  }

  /** One iteration of the loop of script.js lines 353-383: serve process k. */
  method ServeNext(ghost init: seq<Process>, procs: seq<Process>, t: int, steps: seq<Step>, k: nat)
    returns (procs': seq<Process>, t': int, steps': seq<Step>)
    requires LoopInv(init, procs, t, steps, k) && k < |procs|
    ensures LoopInv(init, procs', t', steps', k + 1)
    ensures t' == (if t < init[k].arrivalTime then init[k].arrivalTime else t) + init[k].burstTime
  {
    procs', t', steps' := BeginService(init, procs, t, steps, k);
    ghost var p2 := procs';
    ghost var s2 := steps';
    procs', t', steps' := RunToCompletion(init, procs', t', steps', k, FirstComeFirstServed);
    RunOnSchedule(init, s2, steps');
    ghost var k' := k + 1;
    forall i | 0 <= i < |procs| ensures InPlace(init, procs', k', i) {
      if i != k {
        assert InPlace(init, p2, k, i);
      }
    }
    DriftRefl(Last(steps'));
    assert Upto(k + 1) == Upto(k) + [k];
  }

  /** One step of the completion-time formula: serving the head of ps from
      clock t leaves the rest to be served from the new clock. */
  lemma IdleTimeStep(ps: seq<Process>, t: int, t': int, k: nat)
    requires k < |ps|
    requires t' == (if t < ps[k].arrivalTime then ps[k].arrivalTime else t) + ps[k].burstTime
    ensures t + SumBursts(ps[k..]) + IdleTime(ps[k..], t) == t' + SumBursts(ps[k + 1..]) + IdleTime(ps[k + 1..], t')
  {
    assert ps[k..] == [ps[k]] + ps[k + 1..];
    assert ps[k..][1..] == ps[k + 1..];
  }

  /** script.js line 385: the final step, once every process is Terminated. */
  method Conclude(ghost init: seq<Process>, procs: seq<Process>, t: int, steps: seq<Step>)
    returns (steps': seq<Step>)
    requires LoopInv(init, procs, t, steps, |procs|)
    ensures ValidLog(init, steps') && Ordered(steps', FirstComeFirstServed) && Dispatched(steps') == Dispatched(steps)
    ensures Last(steps').time == t
    ensures OnSchedule(init, steps')
  {
    var s := Step(t, AllDone, Snapshot(procs));
    ServiceOnTime(init, procs, 0, steps, s);
    forall i | 0 <= i < |procs| ensures procs[i].status == Terminated {
      assert InPlace(init, procs, |procs|, i);
    }
    DriftLogs(Last(steps), procs, t, AllDone);
    Extend(init, steps, s);
    OrderedAppend(steps, s, FirstComeFirstServed);
    DispatchedAppend(steps, s);
    steps' := steps + [s];
  }

  /** script.js lines 345-351 and 353-385 on the prepared working list `procs`: log
      the start, serve every process in list order, log the end. */
  method ServeInOrder(procs: seq<Process>) returns (steps: seq<Step>)
    requires AllFresh(procs)
    ensures ValidLog(procs, steps) && Ordered(steps, FirstComeFirstServed)
    ensures Dispatched(steps) == Upto(|procs|)
    ensures Last(steps).time == SumBursts(procs) + IdleTime(procs, 0)
    ensures AllDispatchesPrompt(steps)
    ensures SortedByArrival(procs) ==> AllOnTime(steps) && AllJumpsOnTime(steps)
  {
    ghost var init := procs;
    var current := procs;
    var t := 0;
    steps := [Step(0, Start, Snapshot(procs))];
    StartInv(init);
    var k := 0;
    while k < |current|
      invariant LoopInv(init, current, t, steps, k)
      invariant t + SumBursts(init[k..]) + IdleTime(init[k..], t) == SumBursts(init) + IdleTime(init, 0)
    {
      var t0 := t;
      current, t, steps := ServeNext(init, current, t, steps, k);
      IdleTimeStep(init, t0, t, k);
      k := k + 1;
    }
    assert init[k..] == [];
    steps := Conclude(init, current, t, steps);
  }

  lemma StartInv(init: seq<Process>)
    requires AllFresh(init)
    ensures LoopInv(init, init, 0, [Step(0, Start, init)], 0)
  {
    Begin(init);
    DriftRefl(Step(0, Start, init));
    forall i | 0 <= i < |init| ensures InPlace(init, init, 0, i) {
    }
  }

  /** `simulateFCFS`. The log is well formed; its dispatches are the sorted
      working list in order, each process exactly once, each running to
      completion before the next starts; the final clock is the sum of the
      bursts plus the idle gaps before arrivals. */
  method SimulateFcfs(input: seq<Process>) returns (steps: seq<Step>)
    requires ValidInput(input)
    ensures ValidLog(FcfsOrder(input), steps)
    ensures Ordered(steps, FirstComeFirstServed)
    ensures Dispatched(steps) == Upto(|input|)
    ensures Last(steps).time == SumBursts(FcfsOrder(input)) + IdleTime(FcfsOrder(input), 0)
    ensures AllOnTime(steps) && AllJumpsOnTime(steps) && AllDispatchesPrompt(steps)
  {
    var procs := SortByArrival(WorkingCopy(input));
    SortKeepsFresh(WorkingCopy(input));
    steps := ServeInOrder(procs);
  }

  lemma {:induction false} UptoIndices(n: nat)
    ensures |Upto(n)| == n && forall a :: 0 <= a < n ==> Upto(n)[a] == a
  {
    if n > 0 {
      UptoIndices(n - 1);
    }
  }

  /** In an FCFS log, the processes are dispatched each once, one after the
      other in the order of the sorted list, so no process starts before one
      that arrived earlier. */
  lemma StartsInArrivalOrder(input: seq<Process>, steps: seq<Step>)
    requires Dispatched(steps) == Upto(|input|)
    ensures var order, d := FcfsOrder(input), Dispatched(steps);
      && |d| == |order| == |input|
      && (forall a :: 0 <= a < |d| ==> d[a] == a)
      && (forall a, b :: 0 <= a < b < |d| ==> order[d[a]].arrivalTime <= order[d[b]].arrivalTime)
  {
    UptoIndices(|input|);
  }
}
