/**
  Round Robin (`simulateRoundRobin`): a FIFO queue of process indices. Every
  round enqueues the arrivals, takes the head of the queue and runs it for at
  most `quantum` ticks, enqueueing arrivals after each tick; the process then
  terminates, or goes back to Ready at the tail of the queue.
*/
module RoundRobin {
  import opened Wrappers
  import opened Processes
  import opened StepLog
  import opened Selection

  // ---------------------------------------------------------------------
  // The enqueue pass (script.js lines 484-489 and 505-510)
  // ---------------------------------------------------------------------

  /** The condition of the enqueue pass: New or Ready, arrived, not queued,
      not Terminated, and not the process now running (`skip`). */
  predicate Joins(ps: seq<Process>, queue: seq<nat>, t: int, skip: Option<nat>, i: nat)
    requires i < |ps|
  {
    (ps[i].status == New || ps[i].status == Ready) && ps[i].arrivalTime <= t &&
    i !in queue && ps[i].status != Terminated && skip != Some(i)
  }

  /** The indices below n that the pass appends to the queue, in list order. */
  function Joining(ps: seq<Process>, queue: seq<nat>, t: int, skip: Option<nat>, n: nat): (r: seq<nat>)
    requires n <= |ps|
    ensures forall x: nat :: x in r <==> x < n && Joins(ps, queue, t, skip, x)
    ensures forall a, b :: 0 <= a < b < |r| ==> r[a] < r[b]
  {
    if n == 0 then []
    else
      var m: nat := n - 1;
      var earlier := Joining(ps, queue, t, skip, m);
      assert forall a :: 0 <= a < |earlier| ==> earlier[a] in earlier;
      earlier + (if Joins(ps, queue, t, skip, m) then [m] else [])
  }

  /** A process after the pass: Ready if it joined the queue. */
  function AfterPass(ps: seq<Process>, queue: seq<nat>, t: int, skip: Option<nat>, i: nat): Process
    requires i < |ps|
  {
    if Joins(ps, queue, t, skip, i) then ps[i].(status := Ready) else ps[i]
  }

  /** The enqueue pass: each process that joins becomes Ready and is appended
      to the queue, in list order; nothing else changes. */
  method EnqueueArrivals(ps: seq<Process>, queue: seq<nat>, t: int, skip: Option<nat>)
    returns (r: seq<Process>, queue': seq<nat>)
    ensures |r| == |ps| && forall i :: 0 <= i < |ps| ==> r[i] == AfterPass(ps, queue, t, skip, i)
    ensures queue' == queue + Joining(ps, queue, t, skip, |ps|)
  {
    r, queue' := ps, queue;
    var i := 0;
    while i < |r|
      invariant 0 <= i <= |ps| && Passed(ps, queue, t, skip, i, r, queue')
      decreases |ps| - i
    {
      var p := r[i];
      ghost var r0, q0 := r, queue';
      var joins := (p.status == New || p.status == Ready) && p.arrivalTime <= t && i !in queue' &&
                   p.status != Terminated && skip != Some(i);
      if joins {
        if p.status == New {
          r := r[i := p.(status := Ready)];
        }
        queue' := queue' + [i];
      }
      PassOn(ps, queue, t, skip, i, r0, q0, joins, r, queue');
      i := i + 1;
    }
  }

  /** The pass has looked at the indices below i. */
  ghost predicate Passed(ps: seq<Process>, queue: seq<nat>, t: int, skip: Option<nat>, i: nat,
                         r: seq<Process>, q: seq<nat>) {
    && i <= |ps| && |r| == |ps|
    && (forall j :: 0 <= j < |r| ==> r[j] == if j < i then AfterPass(ps, queue, t, skip, j) else ps[j])
    && q == queue + Joining(ps, queue, t, skip, i)
  }

  /** One more index looked at: it joins exactly when Joins holds (it is not
      yet queued when the pass reaches it), at the tail. */
  lemma PassOn(ps: seq<Process>, queue: seq<nat>, t: int, skip: Option<nat>, i: nat,
               r0: seq<Process>, q0: seq<nat>, joins: bool, r1: seq<Process>, q1: seq<nat>)
    requires i < |ps| && Passed(ps, queue, t, skip, i, r0, q0)
    requires joins == ((r0[i].status == New || r0[i].status == Ready) && r0[i].arrivalTime <= t &&
                       i !in q0 && r0[i].status != Terminated && skip != Some(i))
    requires joins ==> q1 == q0 + [i] &&
                       r1 == if r0[i].status == New then r0[i := r0[i].(status := Ready)] else r0
    requires !joins ==> r1 == r0 && q1 == q0
    ensures Passed(ps, queue, t, skip, i + 1, r1, q1)
  {
    JoiningNext(ps, queue, t, skip, i);
    assert r0[i] == ps[i];
    assert joins == Joins(ps, queue, t, skip, i);
  }

  lemma JoiningNext(ps: seq<Process>, queue: seq<nat>, t: int, skip: Option<nat>, i: nat)
    requires i < |ps|
    ensures i in queue + Joining(ps, queue, t, skip, i) <==> i in queue
    ensures queue + Joining(ps, queue, t, skip, i + 1) ==
            (queue + Joining(ps, queue, t, skip, i)) + (if Joins(ps, queue, t, skip, i) then [i] else [])
  {
    var earlier := Joining(ps, queue, t, skip, i);
    var tail: seq<nat> := if Joins(ps, queue, t, skip, i) then [i] else [];
    assert Joining(ps, queue, t, skip, i + 1) == earlier + tail;
    assert queue + (earlier + tail) == (queue + earlier) + tail;
  }

  /** The queue holds exactly the Ready processes, each once. */
  predicate QueueOk(ps: seq<Process>, queue: seq<nat>) {
    (forall k :: 0 <= k < |queue| ==> queue[k] < |ps| && ps[queue[k]].status == Ready) &&
    (forall i :: 0 <= i < |ps| && ps[i].status == Ready ==> i in queue) &&
    (forall j, k :: 0 <= j < k < |queue| ==> queue[j] != queue[k])
  }

  /** While the queue is in order, the pass is the plain arrival promotion
      (the process running, if any, is not New), it keeps the queue in order,
      and it leaves no arrived process New. */
  lemma PassIsPromotion(ps: seq<Process>, queue: seq<nat>, t: int, skip: Option<nat>, r: seq<Process>)
    requires QueueOk(ps, queue)
    requires skip.Some? ==> skip.value < |ps| && ps[skip.value].status == Running
    requires |r| == |ps| && forall i :: 0 <= i < |ps| ==> r[i] == AfterPass(ps, queue, t, skip, i)
    ensures forall i :: 0 <= i < |ps| ==> r[i] == Promoted(ps[i], t)
    ensures QueueOk(r, queue + Joining(ps, queue, t, skip, |ps|))
    ensures NoneOverdue(r, t)
  {
    var joined := Joining(ps, queue, t, skip, |ps|);
    var q := queue + joined;
    forall k | 0 <= k < |q| ensures q[k] < |r| && r[q[k]].status == Ready {
      if k < |queue| {
        assert q[k] == queue[k];
      } else {
        assert q[k] == joined[k - |queue|];
        assert q[k] in joined;
      }
    }
    forall i | 0 <= i < |r| && r[i].status == Ready ensures i in q {
      if ps[i].status == Ready {
        assert i in queue;
      } else {
        assert i in joined;
      }
    }
    forall j, k | 0 <= j < k < |q| ensures q[j] != q[k] {
      if k < |queue| {
        assert q[j] == queue[j] && q[k] == queue[k];
      } else if j < |queue| {
        assert q[j] == queue[j] && q[k] in joined;
      } else {
        assert q[j] == joined[j - |queue|] && q[k] == joined[k - |queue|];
      }
    }
  }

  // ---------------------------------------------------------------------
  // The queue, replayed from the log
  // ---------------------------------------------------------------------

  /** The indices below n that are New in snapshot `a` and no longer New in
      snapshot `b`, in list order: the arrivals an enqueue pass between the
      two snapshots appended to the queue. */
  function Arrivals(a: seq<Process>, b: seq<Process>, n: nat): seq<nat>
    requires n <= |a| && n <= |b|
  {
    if n == 0 then []
    else
      var m: nat := n - 1;
      Arrivals(a, b, m) + (if a[m].status == New && b[m].status != New then [m] else [])
  }

  /** The arrivals are exactly the indices below n that stop being New, each
      once, in increasing order. */
  lemma {:induction false} ArrivalsSpec(a: seq<Process>, b: seq<Process>, n: nat)
    requires n <= |a| && n <= |b|
    ensures var r := Arrivals(a, b, n);
      && (forall x: nat :: x in r <==> x < n && a[x].status == New && b[x].status != New)
      && (forall j, k :: 0 <= j < k < |r| ==> r[j] < r[k])
  {
    if n > 0 {
      var m: nat := n - 1;
      ArrivalsSpec(a, b, m);
      var earlier := Arrivals(a, b, m);
      assert forall j :: 0 <= j < |earlier| ==> earlier[j] in earlier;
    }
  }

  /** The queue after step b, from the queue q after step a: a dispatch
      takes the head off the queue once the arrivals seen in its snapshot
      have joined; the arrivals seen after a tick join at the tail; an
      expired process goes back to the tail; nothing else moves the queue. */
  function Replay(q: seq<nat>, a: Step, b: Step): seq<nat> {
    var joined := if |a.processes| == |b.processes| then Arrivals(a.processes, b.processes, |a.processes|) else [];
    match b.event
    case Dispatch(_) => if |q + joined| == 0 then [] else (q + joined)[1..]
    case SliceTick(_, _, _, _) => q + joined
    case QuantumExpired(i) => q + [i]
    case _ => q
  }

  /** The queue after the first n steps of a log, replayed from its start. */
  ghost function PendingTo(steps: seq<Step>, n: nat): seq<nat>
    requires n <= |steps|
    decreases n
  {
    if n <= 1 then [] else Replay(PendingTo(steps, n - 1), steps[n - 2], steps[n - 1])
  }

  /** The queue after the last step of a log. */
  ghost function Pending(steps: seq<Step>): seq<nat> {
    PendingTo(steps, |steps|)
  }

  /** Step b, after step a with the queue q, dispatches the head of the
      queue as it stands once the arrivals seen in b have joined. */
  predicate InTurn(q: seq<nat>, a: Step, b: Step) {
    b.event.Dispatch? ==>
      var joined := if |a.processes| == |b.processes| then Arrivals(a.processes, b.processes, |a.processes|) else [];
      |q + joined| > 0 && (q + joined)[0] == b.event.proc
  }

  /** Every dispatch among the first n steps serves the head of the
      replayed queue. */
  ghost predicate ServedTo(steps: seq<Step>, n: nat)
    requires n <= |steps|
    decreases n
  {
    n <= 1 || (ServedTo(steps, n - 1) && InTurn(PendingTo(steps, n - 1), steps[n - 2], steps[n - 1]))
  }

  /** Every dispatch of the log serves the head of the replayed queue. */
  ghost predicate ServedInTurn(steps: seq<Step>) {
    ServedTo(steps, |steps|)
  }

  /** Appending a step changes neither the queue replayed from the steps
      before it nor whether they were served in turn. */
  lemma {:induction false} PrefixKept(steps: seq<Step>, s: Step, n: nat)
    requires n <= |steps|
    ensures PendingTo(steps + [s], n) == PendingTo(steps, n)
    ensures ServedTo(steps + [s], n) == ServedTo(steps, n)
    decreases n
  {
    if n > 1 {
      PrefixKept(steps, s, n - 1);
      assert (steps + [s])[n - 2] == steps[n - 2] && (steps + [s])[n - 1] == steps[n - 1];
    }
  }

  lemma PendingAppend(steps: seq<Step>, s: Step)
    requires |steps| >= 1
    ensures Pending(steps + [s]) == Replay(Pending(steps), Last(steps), s)
  {
    PrefixKept(steps, s, |steps|);
    assert (steps + [s])[|steps| - 1] == Last(steps) && (steps + [s])[|steps|] == s;
  }

  lemma ServedAppend(steps: seq<Step>, s: Step)
    requires ServedInTurn(steps) && |steps| >= 1 && InTurn(Pending(steps), Last(steps), s)
    ensures ServedInTurn(steps + [s])
  {
    PrefixKept(steps, s, |steps|);
    assert (steps + [s])[|steps| - 1] == Last(steps) && (steps + [s])[|steps|] == s;
  }

  /** The dispatch at k of a log served in turn took the head of the queue
      replayed from the k steps before it. */
  lemma {:induction false} ServedAt(steps: seq<Step>, k: nat)
    requires ServedInTurn(steps) && 0 < k < |steps|
    ensures InTurn(PendingTo(steps, k), steps[k - 1], steps[k])
  {
    ServedToAt(steps, |steps|, k);
  }

  lemma {:induction false} ServedToAt(steps: seq<Step>, n: nat, k: nat)
    requires n <= |steps| && ServedTo(steps, n) && 0 < k < n
    ensures InTurn(PendingTo(steps, k), steps[k - 1], steps[k])
    decreases n
  {
    if k < n - 1 {
      ServedToAt(steps, n - 1, k);
    }
  }

  /** Snapshots that agree on which processes are New give the same
      arrivals. */
  lemma {:induction false} ArrivalsAlike(a: seq<Process>, a': seq<Process>, b: seq<Process>, b': seq<Process>, n: nat)
    requires n <= |a| && n <= |a'| && n <= |b| && n <= |b'|
    requires forall i :: 0 <= i < n ==> (a[i].status == New <==> a'[i].status == New)
    requires forall i :: 0 <= i < n ==> (b[i].status == New <==> b'[i].status == New)
    ensures Arrivals(a, b, n) == Arrivals(a', b', n)
  {
    if n > 0 {
      ArrivalsAlike(a, a', b, b', n - 1);
    }
  }

  /** Nothing arrives between a snapshot and itself. */
  lemma {:induction false} NoArrivals(a: seq<Process>, n: nat)
    requires n <= |a|
    ensures Arrivals(a, a, n) == []
  {
    if n > 0 {
      NoArrivals(a, n - 1);
    }
  }

  /** While the queue holds exactly the Ready processes and the process
      skipped is Running, the processes an enqueue pass appends are exactly
      the arrivals it makes, in the same order. */
  lemma {:induction false} ArrivalsAreJoining(ps: seq<Process>, queue: seq<nat>, t: int, skip: Option<nat>,
                                              r: seq<Process>, n: nat)
    requires n <= |ps| && QueueOk(ps, queue)
    requires skip.Some? ==> skip.value < |ps| && ps[skip.value].status == Running
    requires |r| == |ps| && forall i :: 0 <= i < |ps| ==> r[i] == AfterPass(ps, queue, t, skip, i)
    ensures Arrivals(ps, r, n) == Joining(ps, queue, t, skip, n)
  {
    if n > 0 {
      var m: nat := n - 1;
      ArrivalsAreJoining(ps, queue, t, skip, r, m);
      assert Joins(ps, queue, t, skip, m) <==> ps[m].status == New && r[m].status != New;
    }
  }

  // ---------------------------------------------------------------------
  // The simulator
  // ---------------------------------------------------------------------

  /** The log between slices: well formed, in the Round Robin order, every
      dispatch on time and serving the head of the queue. */
  ghost predicate LoopLog(init: seq<Process>, steps: seq<Step>, quantum: nat) {
    && OpenLog(init, steps) && Ordered(steps, RoundRobinSlices(quantum))
    && Follows(RoundRobinSlices(quantum), Last(steps).event, Dispatch(0))
    && AllOnTime(steps) && ServedInTurn(steps)
  }

  /** The log, list and queue at the top of each round: the list is the one
      last logged, and the queue is the one replayed from the log. */
  ghost predicate LoopInv(init: seq<Process>, procs: seq<Process>, queue: seq<nat>, t: int,
                          steps: seq<Step>, quantum: nat) {
    && LoopLog(init, steps, quantum)
    && StateInv(init, procs, t, Last(steps), RoundRobinSlices(quantum))
    && QueueOk(procs, queue)
    && procs == Last(steps).processes && queue == Pending(steps)
  }

  /** The same after the enqueue pass at the top of a round: the queue is
      the replayed one followed by the arrivals the pass made. */
  ghost predicate PassedInv(init: seq<Process>, procs: seq<Process>, queue: seq<nat>, t: int,
                            steps: seq<Step>, quantum: nat) {
    && LoopLog(init, steps, quantum)
    && StateInv(init, procs, t, Last(steps), RoundRobinSlices(quantum))
    && QueueOk(procs, queue) && NoneOverdue(procs, t)
    && |procs| == |Last(steps).processes|
    && queue == Pending(steps) + Arrivals(Last(steps).processes, procs, |procs|)
  }

  /** script.js lines 484-489: the enqueue pass at the top of a round. When
      nothing joins, nothing changes. */
  method ArrivalsAtTop(ghost init: seq<Process>, procs: seq<Process>, queue: seq<nat>, t: int,
                       ghost steps: seq<Step>, ghost quantum: nat)
    returns (procs': seq<Process>, queue': seq<nat>)
    requires LoopInv(init, procs, queue, t, steps, quantum)
    ensures PassedInv(init, procs', queue', t, steps, quantum)
    ensures queue' == queue + Joining(procs, queue, t, None, |procs|)
    ensures |queue'| == 0 ==> procs' == procs && queue == []
    ensures TotalRemaining(procs') == TotalRemaining(procs)
  {
    procs', queue' := EnqueueArrivals(procs, queue, t, None);
    TopPass(init, procs, queue, t, steps, quantum, procs');
  }

  lemma TopPass(init: seq<Process>, procs: seq<Process>, queue: seq<nat>, t: int,
                steps: seq<Step>, quantum: nat, r: seq<Process>)
    requires LoopInv(init, procs, queue, t, steps, quantum)
    requires |r| == |procs| && forall i :: 0 <= i < |procs| ==> r[i] == AfterPass(procs, queue, t, None, i)
    ensures PassedInv(init, r, queue + Joining(procs, queue, t, None, |procs|), t, steps, quantum)
    ensures |Joining(procs, queue, t, None, |procs|)| == 0 ==> r == procs
    ensures TotalRemaining(r) == TotalRemaining(procs)
  {
    PassIsPromotion(procs, queue, t, None, r);
    PromotedKeepsState(init, procs, r, t, Last(steps), RoundRobinSlices(quantum));
    TotalRemainingPointwise(procs, r);
    ArrivalsAreJoining(procs, queue, t, None, r, |procs|);
    if |Joining(procs, queue, t, None, |procs|)| == 0 {
      assert forall i :: 0 <= i < |procs| ==> !Joins(procs, queue, t, None, i);
    }
  }

  lemma PromotedKeepsState(init: seq<Process>, ps: seq<Process>, r: seq<Process>, t: int, last: Step, scheme: Scheme)
    requires StateInv(init, ps, t, last, scheme)
    requires |r| == |ps| && forall i :: 0 <= i < |ps| ==> r[i] == Promoted(ps[i], t)
    ensures StateInv(init, r, t, last, scheme)
  {
    PromotedKeepsRound(last, ps, r, t);
  }

  /** script.js lines 491-495: with the queue empty the clock moves on one
      unit, unlogged; this happens only while some process has yet to
      arrive. */
  lemma IdleRound(init: seq<Process>, procs: seq<Process>, queue: seq<nat>, t: int, t': int,
                  steps: seq<Step>, quantum: nat)
    requires LoopInv(init, procs, queue, t, steps, quantum) && NoneOverdue(procs, t) && AnyUnfinished(procs)
    requires |queue| == 0 && t' == t + 1
    ensures LoopInv(init, procs, queue, t', steps, quantum)
    ensures t < MaxArrival(init)
  {
    IdleBeforeLastArrival(procs, t);
    IdleNotLate(Last(steps), procs, t);
    var i :| 0 <= i < |procs| && procs[i].status != Terminated;
    assert ProcessOk(procs[i], t) && procs[i].status == New;
    assert SameStatic(init[i], procs[i]);
  }

  /** What holds after the `used`-th tick of a slice of `cur`, which
      started at clock t0 with r0 units of its own and w0 units in all left,
      and with the queue queue0: the list, ... */
  ghost predicate SliceState(init: seq<Process>, procs: seq<Process>, t: int, quantum: nat, cur: nat,
                             t0: int, r0: int, w0: int, used: nat) {
    && |procs| == |init| && (forall i :: 0 <= i < |procs| ==> SameStatic(init[i], procs[i]))
    && cur < |procs| && procs[cur].status == Running
    && used <= quantum && t == t0 + used && procs[cur].remainingTime == r0 - used
    && StateOk(procs, t) && NoneOverdue(procs, t)
    && TotalRemaining(procs) == w0 - used
  }

  /** ... the log, whose last step is the dispatch or the latest tick ... */
  ghost predicate SliceLog(init: seq<Process>, procs: seq<Process>, t: int, steps: seq<Step>, quantum: nat,
                           cur: nat, r0: int, used: nat) {
    && OpenLog(init, steps) && Ordered(steps, RoundRobinSlices(quantum))
    && AllOnTime(steps) && ServedInTurn(steps)
    && Last(steps) == Step(t, if used == 0 then Dispatch(cur) else SliceTick(cur, used, quantum, r0 - used), procs)
  }

  /** ... and the queue, which still starts with queue0 (and is the one
      replayed from the log). */
  predicate SliceQueue(procs: seq<Process>, queue: seq<nat>, queue0: seq<nat>) {
    QueueOk(procs, queue) && |queue0| <= |queue| && queue[..|queue0|] == queue0
  }

  ghost predicate SliceInv(init: seq<Process>, procs: seq<Process>, queue: seq<nat>, t: int, steps: seq<Step>,
                           quantum: nat, cur: nat, t0: int, r0: int, w0: int, queue0: seq<nat>, used: nat) {
    && SliceState(init, procs, t, quantum, cur, t0, r0, w0, used)
    && SliceLog(init, procs, t, steps, quantum, cur, r0, used)
    && SliceQueue(procs, queue, queue0) && queue == Pending(steps)
  }

  /** script.js lines 497-499: the head of the queue becomes Running and is
      logged. */
  method DispatchHead(ghost init: seq<Process>, procs: seq<Process>, queue: seq<nat>, t: int,
                      steps: seq<Step>, ghost quantum: nat)
    returns (cur: nat, procs': seq<Process>, queue': seq<nat>, steps': seq<Step>)
    requires PassedInv(init, procs, queue, t, steps, quantum) && |queue| > 0
    ensures cur == queue[0] && queue' == queue[1..] && cur < |procs|
    ensures procs' == procs[cur := procs[cur].(status := Running)] && procs'[cur].remainingTime > 0
    ensures steps' == steps + [Step(t, Dispatch(cur), procs')]
    ensures SliceInv(init, procs', queue', t, steps', quantum, cur, t, procs[cur].remainingTime,
                     TotalRemaining(procs), queue', 0)
  {
    cur := queue[0];
    queue' := queue[1..];
    procs' := procs;
    if procs'[cur].status != Terminated {
      procs' := procs'[cur := procs'[cur].(status := Running)];
    }
    steps' := steps + [Step(t, Dispatch(cur), Snapshot(procs'))];
    DispatchOpensSlice(init, procs, queue, t, steps, quantum);
    DispatchLogsSlice(init, procs, queue, t, steps, quantum);
  }

  /** script.js lines 498-499: the head of the queue is Ready, has work left,
      and marking it Running opens a slice with the rest of the queue ... */
  lemma DispatchOpensSlice(init: seq<Process>, procs: seq<Process>, queue: seq<nat>, t: int,
                           steps: seq<Step>, quantum: nat)
    requires PassedInv(init, procs, queue, t, steps, quantum) && |queue| > 0
    ensures queue[0] < |procs| && procs[queue[0]].status == Ready
    ensures var cur := queue[0];
      var r := procs[cur := procs[cur].(status := Running)];
      r[cur].remainingTime > 0 &&
      SliceState(init, r, t, quantum, cur, t, procs[cur].remainingTime, TotalRemaining(procs), 0) &&
      SliceQueue(r, queue[1..], queue[1..])
  {
    var cur := queue[0];
    var r := procs[cur := procs[cur].(status := Running)];
    assert procs[cur].status == Ready;
    MarkRunningFits(Last(steps), procs, t, cur);
    HeadLeavesQueue(procs, queue, cur, r);
    TotalRemainingPointwise(procs, r);
  }

  /** ... and logs the dispatch, on time and in turn, leaving the rest of
      the queue as the one replayed from the log. */
  lemma DispatchLogsSlice(init: seq<Process>, procs: seq<Process>, queue: seq<nat>, t: int,
                          steps: seq<Step>, quantum: nat)
    requires PassedInv(init, procs, queue, t, steps, quantum) && |queue| > 0
    requires queue[0] < |procs| && procs[queue[0]].status == Ready
    ensures var cur := queue[0];
      var r := procs[cur := procs[cur].(status := Running)];
      SliceLog(init, r, t, steps + [Step(t, Dispatch(cur), r)], quantum, cur, procs[cur].remainingTime, 0) &&
      queue[1..] == Pending(steps + [Step(t, Dispatch(cur), r)])
  {
    DispatchInTurn(init, steps, procs, queue, t, quantum);
    DispatchLogged(init, procs, t, steps, quantum, queue[0]);
  }

  /** The dispatch step of a Ready process fits the log and the Round Robin
      order. */
  lemma DispatchLogged(init: seq<Process>, procs: seq<Process>, t: int, steps: seq<Step>, quantum: nat, cur: nat)
    requires OpenLog(init, steps) && Ordered(steps, RoundRobinSlices(quantum))
    requires Follows(RoundRobinSlices(quantum), Last(steps).event, Dispatch(0))
    requires StateOk(procs, t) && NoneRunning(procs) && Drift(Last(steps), procs, t) && NoneOverdue(procs, t)
    requires cur < |procs| && procs[cur].status == Ready
    ensures var r := procs[cur := procs[cur].(status := Running)];
      var s := Step(t, Dispatch(cur), r);
      OpenLog(init, steps + [s]) && Ordered(steps + [s], RoundRobinSlices(quantum)) &&
      StateOk(r, t) && NoneOverdue(r, t) && r[cur].remainingTime > 0
  {
    var r := procs[cur := procs[cur].(status := Running)];
    var s := Step(t, Dispatch(cur), r);
    MarkRunningFits(Last(steps), procs, t, cur);
    Extend(init, steps, s);
    OrderedAppend(steps, s, RoundRobinSlices(quantum));
  }

  /** The dispatch of the head of the queue serves it in turn and on time,
      and leaves the rest of the queue as the one replayed from the log. */
  lemma DispatchInTurn(init: seq<Process>, steps: seq<Step>, procs: seq<Process>, queue: seq<nat>, t: int,
                       quantum: nat)
    requires |steps| >= 1 && ServedInTurn(steps) && AllOnTime(steps)
    requires StateInv(init, procs, t, Last(steps), RoundRobinSlices(quantum))
    requires |procs| == |Last(steps).processes|
    requires queue == Pending(steps) + Arrivals(Last(steps).processes, procs, |procs|)
    requires |queue| > 0 && queue[0] < |procs| && procs[queue[0]].status == Ready
    ensures var cur := queue[0];
      var s := Step(t, Dispatch(cur), procs[cur := procs[cur].(status := Running)]);
      AllOnTime(steps + [s]) && ServedInTurn(steps + [s]) && Pending(steps + [s]) == queue[1..]
  {
    var cur := queue[0];
    var r := procs[cur := procs[cur].(status := Running)];
    var s := Step(t, Dispatch(cur), r);
    DispatchOnTime(init, procs, t, Last(steps), RoundRobinSlices(quantum), cur, s);
    OnTimeAppend(steps, s);
    ArrivalsAlike(Last(steps).processes, Last(steps).processes, procs, r, |procs|);
    PendingAppend(steps, s);
    ServedAppend(steps, s);
  }

  /** Taking the head off the queue and marking it Running keeps the queue
      holding exactly the Ready processes. */
  lemma HeadLeavesQueue(ps: seq<Process>, queue: seq<nat>, cur: nat, r: seq<Process>)
    requires QueueOk(ps, queue) && |queue| > 0 && cur == queue[0]
    requires r == ps[cur := ps[cur].(status := Running)]
    ensures QueueOk(r, queue[1..])
  {
    forall k | 0 <= k < |queue[1..]| ensures queue[1..][k] != cur {
      assert queue[1..][k] == queue[k + 1];
    }
    forall i | 0 <= i < |r| && r[i].status == Ready ensures i in queue[1..] {
      assert i in queue && i != queue[0];
    }
  }

  /** script.js lines 503-511: one tick of the running process, the enqueue pass (which
      passes over the running process) and the log entry with the tick's
      number within the slice. */
  method SliceStep(ghost init: seq<Process>, procs: seq<Process>, queue: seq<nat>, t: int, steps: seq<Step>,
                   quantum: nat, cur: nat, ghost t0: int, ghost r0: int, ghost w0: int, ghost queue0: seq<nat>,
                   used: nat, ghost procs0: seq<Process>, ghost steps0: seq<Step>)
    returns (procs': seq<Process>, queue': seq<nat>, t': int, steps': seq<Step>, used': nat)
    requires SliceInv(init, procs, queue, t, steps, quantum, cur, t0, r0, w0, queue0, used)
    requires used < quantum && procs[cur].remainingTime > 0
    requires SliceTicks(steps0, steps, cur, quantum, r0, used) && OthersKept(procs0, procs, cur)
    ensures used' == used + 1
    ensures SliceInv(init, procs', queue', t', steps', quantum, cur, t0, r0, w0, queue0, used')
    ensures queue' == queue + Joining(Ticked(procs, cur), queue, t + 1, Some(cur), |procs|)
    ensures steps' == steps + [Step(t', SliceTick(cur, used', quantum, procs'[cur].remainingTime), procs')]
    ensures OthersKept(procs, procs', cur)
    ensures SliceTicks(steps0, steps', cur, quantum, r0, used') && OthersKept(procs0, procs', cur)
  {
    t' := t + 1;
    var ticked := Ticked(procs, cur);
    procs', queue' := EnqueueArrivals(ticked, queue, t', Some(cur));
    var s := Step(t', SliceTick(cur, used + 1, quantum, procs'[cur].remainingTime), Snapshot(procs'));
    used' := used + 1;
    SliceTicked(init, procs, queue, t, steps, quantum, cur, t0, r0, w0, queue0, used, procs', queue', t', s, used');
    PassKeepsRemaining(ticked, queue, t', Some(cur), procs');
    steps' := steps + [s];
    SliceTicksStep(steps0, steps, s, cur, quantum, r0, used, procs0, procs, procs');
  }

  /** Every process other than `cur` has the remaining time it had. */
  predicate OthersKept(procs: seq<Process>, procs': seq<Process>, cur: nat) {
    |procs'| == |procs| && forall i :: 0 <= i < |procs| && i != cur ==> procs'[i].remainingTime == procs[i].remainingTime
  }

  /** The enqueue pass changes statuses only. */
  lemma PassKeepsRemaining(ps: seq<Process>, queue: seq<nat>, t: int, skip: Option<nat>, r: seq<Process>)
    requires |r| == |ps| && forall i :: 0 <= i < |ps| ==> r[i] == AfterPass(ps, queue, t, skip, i)
    ensures forall i :: 0 <= i < |ps| ==> r[i].remainingTime == ps[i].remainingTime
  {
  }

  /** `steps'` is `steps` followed by the first `used` ticks of a slice of
      process `cur`, which had `r0` units left when it was dispatched. */
  predicate SliceTicks(steps: seq<Step>, steps': seq<Step>, cur: nat, quantum: nat, r0: int, used: nat) {
    |steps'| == |steps| + used && steps'[..|steps|] == steps &&
    forall m :: |steps| <= m < |steps'| ==>
      steps'[m].event == SliceTick(cur, m - |steps| + 1, quantum, r0 - (m - |steps| + 1))
  }

  /** One more tick of the slice, and one more pass that keeps the others'
      remaining times, extend both facts. */
  lemma SliceTicksStep(steps: seq<Step>, steps1: seq<Step>, s: Step, cur: nat, quantum: nat, r0: int, used: nat,
                       procs: seq<Process>, procs1: seq<Process>, procs2: seq<Process>)
    requires SliceTicks(steps, steps1, cur, quantum, r0, used)
    requires OthersKept(procs, procs1, cur) && cur < |procs1| && procs1[cur].remainingTime == r0 - used
    requires |procs2| == |procs1| &&
      forall i :: 0 <= i < |procs1| ==> procs2[i].remainingTime == Ticked(procs1, cur)[i].remainingTime
    requires s.event == SliceTick(cur, used + 1, quantum, procs2[cur].remainingTime)
    ensures SliceTicks(steps, steps1 + [s], cur, quantum, r0, used + 1)
    ensures OthersKept(procs1, procs2, cur) && OthersKept(procs, procs2, cur)
  {
    assert (steps1 + [s])[..|steps|] == steps1[..|steps|];
    forall i | 0 <= i < |procs1| && i != cur ensures procs2[i].remainingTime == procs1[i].remainingTime {
      assert Ticked(procs1, cur)[i] == procs1[i];
    }
  }

  /** The list after one tick of process `cur`. */
  function Ticked(procs: seq<Process>, cur: nat): (r: seq<Process>)
    requires cur < |procs|
    ensures |r| == |procs| && r[cur].remainingTime == procs[cur].remainingTime - 1
    ensures forall i :: 0 <= i < |procs| && i != cur ==> r[i] == procs[i]
  {
    procs[cur := procs[cur].(remainingTime := procs[cur].remainingTime - 1)]
  }

  lemma SliceTicked(init: seq<Process>, procs: seq<Process>, queue: seq<nat>, t: int, steps: seq<Step>,
                    quantum: nat, cur: nat, t0: int, r0: int, w0: int, queue0: seq<nat>, used: nat,
                    r: seq<Process>, q: seq<nat>, t': int, s: Step, used': nat)
    requires SliceInv(init, procs, queue, t, steps, quantum, cur, t0, r0, w0, queue0, used)
    requires used < quantum && procs[cur].remainingTime > 0
    requires |r| == |procs| && forall i :: 0 <= i < |procs| ==> r[i] == AfterPass(Ticked(procs, cur), queue, t + 1, Some(cur), i)
    requires q == queue + Joining(Ticked(procs, cur), queue, t + 1, Some(cur), |procs|)
    requires t' == t + 1 && used' == used + 1
    requires s == Step(t', SliceTick(cur, used', quantum, r[cur].remainingTime), r)
    ensures SliceInv(init, r, q, t', steps + [s], quantum, cur, t0, r0, w0, queue0, used')
  {
    TickQueue(procs, queue, queue0, t', cur, r, q);
    TickInTurn(procs, queue, t', steps, cur, r, q, s);
    TickLogged(init, procs, t, steps, quantum, cur, r0, used, r, t', s, used');
    TickState(init, procs, t, quantum, cur, t0, r0, w0, used, r, t', used');
  }

  /** The enqueue pass after a tick keeps the queue in order, and keeps its
      front. */
  lemma TickQueue(procs: seq<Process>, queue: seq<nat>, queue0: seq<nat>, t: int, cur: nat, r: seq<Process>,
                  q: seq<nat>)
    requires SliceQueue(procs, queue, queue0) && cur < |procs| && procs[cur].status == Running
    requires |r| == |procs| && forall i :: 0 <= i < |procs| ==> r[i] == AfterPass(Ticked(procs, cur), queue, t, Some(cur), i)
    requires q == queue + Joining(Ticked(procs, cur), queue, t, Some(cur), |procs|)
    ensures SliceQueue(r, q, queue0)
    ensures forall i :: 0 <= i < |procs| ==> r[i] == Promoted(Ticked(procs, cur)[i], t)
    ensures NoneOverdue(r, t)
  {
    var ticked := Ticked(procs, cur);
    assert QueueOk(ticked, queue);
    PassIsPromotion(ticked, queue, t, Some(cur), r);
    assert q[..|queue0|] == queue[..|queue0|];
  }

  /** The arrivals the pass after a tick appends are those the tick's
      snapshot shows, so the queue is still the one replayed from the log. */
  lemma TickInTurn(procs: seq<Process>, queue: seq<nat>, t: int, steps: seq<Step>, cur: nat,
                   r: seq<Process>, q: seq<nat>, s: Step)
    requires |steps| >= 1 && Last(steps).processes == procs && queue == Pending(steps) && QueueOk(procs, queue)
    requires cur < |procs| && procs[cur].status == Running
    requires |r| == |procs| && forall i :: 0 <= i < |procs| ==> r[i] == AfterPass(Ticked(procs, cur), queue, t, Some(cur), i)
    requires q == queue + Joining(Ticked(procs, cur), queue, t, Some(cur), |procs|)
    requires s.event.SliceTick? && s.processes == r
    ensures Pending(steps + [s]) == q
  {
    var ticked := Ticked(procs, cur);
    assert QueueOk(ticked, queue);
    ArrivalsAreJoining(ticked, queue, t, Some(cur), r, |procs|);
    ArrivalsAlike(procs, ticked, r, r, |procs|);
    PendingAppend(steps, s);
  }

  /** The tick step fits the log. */
  lemma TickLogged(init: seq<Process>, procs: seq<Process>, t: int, steps: seq<Step>, quantum: nat,
                   cur: nat, r0: int, used: nat, r: seq<Process>, t': int, s: Step, used': nat)
    requires SliceLog(init, procs, t, steps, quantum, cur, r0, used)
    requires StateOk(procs, t) && cur < |procs| && procs[cur].status == Running
    requires used < quantum && procs[cur].remainingTime == r0 - used > 0
    requires t' == t + 1 && used' == used + 1
    requires |r| == |procs| && forall i :: 0 <= i < |procs| ==> r[i] == Promoted(Ticked(procs, cur)[i], t')
    requires NoneOverdue(r, t')
    requires s == Step(t', SliceTick(cur, used', quantum, r[cur].remainingTime), r)
    ensures SliceLog(init, r, t', steps + [s], quantum, cur, r0, used')
    ensures StateOk(r, t') && r[cur] == Ticked(procs, cur)[cur]
  {
    TickFits(Last(steps), cur, r, s.event);
    Extend(init, steps, s);
    OrderedAppend(steps, s, RoundRobinSlices(quantum));
    OnTimeAppend(steps, s);
    ServedAppend(steps, s);
  }

  /** After the tick the running process has one unit less, and so has the
      total. */
  lemma TickState(init: seq<Process>, procs: seq<Process>, t: int, quantum: nat, cur: nat,
                  t0: int, r0: int, w0: int, used: nat, r: seq<Process>, t': int, used': nat)
    requires SliceState(init, procs, t, quantum, cur, t0, r0, w0, used)
    requires used < quantum && t' == t + 1 && used' == used + 1
    requires |r| == |procs| && forall i :: 0 <= i < |procs| ==> r[i] == Promoted(Ticked(procs, cur)[i], t')
    requires StateOk(r, t') && NoneOverdue(r, t') && r[cur] == Ticked(procs, cur)[cur]
    ensures SliceState(init, r, t', quantum, cur, t0, r0, w0, used')
  {
    var ticked := Ticked(procs, cur);
    TotalRemainingUpdate(procs, cur, ticked[cur]);
    TotalRemainingPointwise(ticked, r);
  }

  /** script.js lines 501-512: the slice loop. It runs `min(quantum, remaining)` ticks;
      arrivals join the queue behind the processes already in it. */
  method RunSlice(ghost init: seq<Process>, procs: seq<Process>, queue: seq<nat>, t: int, steps: seq<Step>,
                  quantum: nat, cur: nat, ghost r0: int, ghost w0: int)
    returns (procs': seq<Process>, queue': seq<nat>, t': int, steps': seq<Step>, used: nat)
    requires SliceInv(init, procs, queue, t, steps, quantum, cur, t, r0, w0, queue, 0)
    requires quantum >= 1 && r0 > 0
    ensures 1 <= used == if r0 < quantum then r0 else quantum
    ensures SliceInv(init, procs', queue', t', steps', quantum, cur, t, r0, w0, queue, used)
    ensures |steps'| == |steps| + used && steps'[..|steps|] == steps
    ensures forall m :: |steps| <= m < |steps'| ==>
      steps'[m].event == SliceTick(cur, m - |steps| + 1, quantum, r0 - (m - |steps| + 1))
    ensures |procs'| == |procs| && forall i :: 0 <= i < |procs| && i != cur ==> procs'[i].remainingTime == procs[i].remainingTime
  {
    assert steps[..|steps|] == steps;
    procs', queue', t', steps', used := procs, queue, t, steps, 0;
    while used < quantum && procs'[cur].remainingTime > 0
      invariant SliceInv(init, procs', queue', t', steps', quantum, cur, t, r0, w0, queue, used)
      invariant used <= r0
      invariant SliceTicks(steps, steps', cur, quantum, r0, used) && OthersKept(procs, procs', cur)
      decreases quantum - used
    {
      procs', queue', t', steps', used :=
        SliceStep(init, procs', queue', t', steps', quantum, cur, t, r0, w0, queue, used, procs, steps);
    }
  }

  /** script.js lines 514-523: the slice ends in a termination when nothing is left;
      otherwise the process goes back to Ready at the tail of the queue. */
  method EndSlice(ghost init: seq<Process>, procs: seq<Process>, queue: seq<nat>, t: int, steps: seq<Step>,
                  quantum: nat, cur: nat, ghost t0: int, ghost r0: int, ghost w0: int, ghost queue0: seq<nat>,
                  used: nat)
    returns (procs': seq<Process>, queue': seq<nat>, steps': seq<Step>)
    requires SliceInv(init, procs, queue, t, steps, quantum, cur, t0, r0, w0, queue0, used)
    requires used >= 1 && (used == quantum || procs[cur].remainingTime <= 0)
    ensures LoopInv(init, procs', queue', t, steps', quantum)
    ensures 0 <= TotalRemaining(procs') == w0 - used
    ensures procs[cur].remainingTime <= 0 ==>
      procs' == procs[cur := procs[cur].(remainingTime := 0, status := Terminated)] && queue' == queue &&
      steps' == steps + [Step(t, Finish(cur), procs')]
    ensures procs[cur].remainingTime > 0 ==>
      procs' == procs[cur := procs[cur].(status := Ready)] && queue' == queue + [cur] &&
      steps' == steps + [Step(t, QuantumExpired(cur), procs')]
  {
    if procs[cur].remainingTime <= 0 {
      procs' := procs[cur := procs[cur].(remainingTime := 0, status := Terminated)];
      queue' := queue;
      steps' := steps + [Step(t, Finish(cur), Snapshot(procs'))];
      SliceFinished(init, procs, queue, t, steps, quantum, cur, t0, r0, w0, queue0, used);
    } else {
      procs' := procs[cur := procs[cur].(status := Ready)];
      queue' := queue + [cur];
      steps' := steps + [Step(t, QuantumExpired(cur), Snapshot(procs'))];
      SliceExpired(init, procs, queue, t, steps, quantum, cur, t0, r0, w0, queue0, used);
    }
  }

  /** script.js lines 514-517: the termination that ends a slice. */
  lemma SliceFinished(init: seq<Process>, procs: seq<Process>, queue: seq<nat>, t: int, steps: seq<Step>,
                      quantum: nat, cur: nat, t0: int, r0: int, w0: int, queue0: seq<nat>, used: nat)
    requires SliceInv(init, procs, queue, t, steps, quantum, cur, t0, r0, w0, queue0, used)
    requires used >= 1 && procs[cur].remainingTime <= 0
    ensures var r := procs[cur := procs[cur].(remainingTime := 0, status := Terminated)];
      LoopInv(init, r, queue, t, steps + [Step(t, Finish(cur), r)], quantum) &&
      0 <= TotalRemaining(r) == w0 - used
  {
    var r := procs[cur := procs[cur].(remainingTime := 0, status := Terminated)];
    var f := Step(t, Finish(cur), r);
    FinishLogged(init, procs, t, steps, quantum, cur, r0, used);
    OnTimeAppend(steps, f);
    ServedAppend(steps, f);
    PendingAppend(steps, f);
    FinishedQueue(procs, queue, cur, r);
    TotalRemainingPointwise(procs, r);
    TotalRemainingOfState(r, t);
  }

  lemma FinishLogged(init: seq<Process>, procs: seq<Process>, t: int, steps: seq<Step>, quantum: nat,
                     cur: nat, r0: int, used: nat)
    requires SliceLog(init, procs, t, steps, quantum, cur, r0, used)
    requires used >= 1 && cur < |procs| && procs[cur].remainingTime <= 0
    ensures var r := procs[cur := procs[cur].(remainingTime := 0, status := Terminated)];
      var s := Step(t, Finish(cur), r);
      OpenLog(init, steps + [s]) && Ordered(steps + [s], RoundRobinSlices(quantum)) &&
      StateInv(init, r, t, s, RoundRobinSlices(quantum)) && StateOk(r, t)
  {
    var r := procs[cur := procs[cur].(remainingTime := 0, status := Terminated)];
    var s := Step(t, Finish(cur), r);
    StepAt(init, steps, 0);
    StepAt(init, steps, |steps| - 1);
    assert ProcessOk(procs[cur], t);
    FinishFits(init, steps, cur, RoundRobinSlices(quantum), s);
    LoggedStateInv(init, steps + [s], RoundRobinSlices(quantum));
  }

  /** script.js lines 518-523: the expiry that ends a full slice with work left. */
  lemma SliceExpired(init: seq<Process>, procs: seq<Process>, queue: seq<nat>, t: int, steps: seq<Step>,
                     quantum: nat, cur: nat, t0: int, r0: int, w0: int, queue0: seq<nat>, used: nat)
    requires SliceInv(init, procs, queue, t, steps, quantum, cur, t0, r0, w0, queue0, used)
    requires used >= 1 && used == quantum && procs[cur].remainingTime > 0
    ensures var r := procs[cur := procs[cur].(status := Ready)];
      LoopInv(init, r, queue + [cur], t, steps + [Step(t, QuantumExpired(cur), r)], quantum) &&
      0 <= TotalRemaining(r) == w0 - used
  {
    var r := procs[cur := procs[cur].(status := Ready)];
    var s := Step(t, QuantumExpired(cur), r);
    ExpiredFits(init, steps, cur, quantum, s);
    OnTimeAppend(steps, s);
    ServedAppend(steps, s);
    PendingAppend(steps, s);
    RequeuedQueue(procs, queue, cur, r);
    assert r[cur].status != Terminated;
    LoggedStateInv(init, steps + [s], RoundRobinSlices(quantum));
    TotalRemainingPointwise(procs, r);
    TotalRemainingOfState(r, t);
  }

  lemma FinishedQueue(ps: seq<Process>, queue: seq<nat>, cur: nat, r: seq<Process>)
    requires QueueOk(ps, queue) && cur < |ps| && ps[cur].status == Running
    requires r == ps[cur := ps[cur].(remainingTime := 0, status := Terminated)]
    ensures QueueOk(r, queue)
  {
    forall k | 0 <= k < |queue| ensures queue[k] != cur {
      assert ps[queue[k]].status == Ready;
    }
  }

  lemma RequeuedQueue(ps: seq<Process>, queue: seq<nat>, cur: nat, r: seq<Process>)
    requires QueueOk(ps, queue) && cur < |ps| && ps[cur].status == Running
    requires r == ps[cur := ps[cur].(status := Ready)]
    ensures QueueOk(r, queue + [cur])
  {
    forall k | 0 <= k < |queue| ensures queue[k] != cur {
      assert ps[queue[k]].status == Ready;
    }
    var q := queue + [cur];
    forall k | 0 <= k < |q| ensures q[k] < |r| && r[q[k]].status == Ready {
      if k < |queue| {
        assert q[k] == queue[k];
      }
    }
    forall j, k | 0 <= j < k < |q| ensures q[j] != q[k] {
      if k < |queue| {
        assert q[j] == queue[j] && q[k] == queue[k];
      } else {
        assert q[j] == queue[j];
      }
    }
  }

  /** script.js lines 520-522: the expiry step after a full quantum with work left. */
  lemma ExpiredFits(init: seq<Process>, steps: seq<Step>, cur: nat, quantum: nat, s: Step)
    requires OpenLog(init, steps) && Ordered(steps, RoundRobinSlices(quantum))
    requires Last(steps).event.SliceTick? && Last(steps).event.proc == cur
    requires Last(steps).event.used == quantum && Last(steps).event.left > 0
    requires cur < |Last(steps).processes| && StateOk(Last(steps).processes, Last(steps).time)
    requires NoneOverdue(Last(steps).processes, Last(steps).time)
    requires Last(steps).processes[cur].status == Running && Last(steps).processes[cur].remainingTime > 0
    requires s == Step(Last(steps).time, QuantumExpired(cur),
                       Last(steps).processes[cur := Last(steps).processes[cur].(status := Ready)])
    ensures OpenLog(init, steps + [s]) && Ordered(steps + [s], RoundRobinSlices(quantum))
    ensures StateOk(s.processes, s.time) && NoneRunning(s.processes)
  {
    var last := Last(steps);
    DriftRefl(last);
    DriftRestatus(last, last.processes, s.processes, s.time, s.time);
    DriftLogs(last, s.processes, s.time, s.event);
    Extend(init, steps, s);
    OrderedAppend(steps, s, RoundRobinSlices(quantum));
  }

  /** script.js lines 497-523: one round with a non-empty queue: the head is
      dispatched, runs its slice and then terminates or goes back to the
      tail of the queue; at least one unit of work is done. */
  method ServeHead(ghost init: seq<Process>, procs: seq<Process>, queue: seq<nat>, t: int,
                   steps: seq<Step>, quantum: nat)
    returns (procs': seq<Process>, queue': seq<nat>, t': int, steps': seq<Step>)
    requires PassedInv(init, procs, queue, t, steps, quantum) && |queue| > 0
    requires quantum >= 1
    ensures LoopInv(init, procs', queue', t', steps', quantum)
    ensures 0 <= TotalRemaining(procs') < TotalRemaining(procs)
  {
    var cur, p1, q1, s1 := DispatchHead(init, procs, queue, t, steps, quantum);
    var used;
    procs', queue', t', steps', used := RunSlice(init, p1, q1, t, s1, quantum, cur, procs[cur].remainingTime,
                                                 TotalRemaining(procs));
    procs', queue', steps' := EndSlice(init, procs', queue', t', steps', quantum, cur, t, procs[cur].remainingTime,
                                       TotalRemaining(procs), q1, used);
  }

  /** script.js lines 482-524: one iteration of the outer loop. Either some work is
      done, or the clock moves on by one unit towards the last arrival. */
  method Round(ghost init: seq<Process>, procs: seq<Process>, queue: seq<nat>, t: int,
               steps: seq<Step>, quantum: nat)
    returns (procs': seq<Process>, queue': seq<nat>, t': int, steps': seq<Step>)
    requires LoopInv(init, procs, queue, t, steps, quantum) && AnyUnfinished(procs) && quantum >= 1
    ensures LoopInv(init, procs', queue', t', steps', quantum)
    ensures 0 <= TotalRemaining(procs') < TotalRemaining(procs) ||
            (TotalRemaining(procs') == TotalRemaining(procs) && t < MaxArrival(init) && t' == t + 1)
  {
    procs', queue' := ArrivalsAtTop(init, procs, queue, t, steps, quantum);
    if |queue'| == 0 {
      t' := t + 1;
      steps' := steps;
      IdleRound(init, procs', queue', t, t', steps, quantum);
    } else {
      procs', queue', t', steps' := ServeHead(init, procs', queue', t, steps, quantum);
    }
  }

  /** script.js lines 475-480: the first round starts from the logged fresh list at
      time 0, with the queue empty. */
  lemma FirstRound(init: seq<Process>, quantum: nat)
    requires AllFresh(init)
    ensures LoopInv(init, init, [], 0, [Step(0, Start, init)], quantum)
  {
    Begin(init);
    DriftRefl(Step(0, Start, init));
  }

  /** script.js line 526: the final step, once every process is Terminated. */
  method Conclude(ghost init: seq<Process>, procs: seq<Process>, queue: seq<nat>, t: int, steps: seq<Step>,
                  ghost quantum: nat)
    returns (steps': seq<Step>)
    requires LoopInv(init, procs, queue, t, steps, quantum) && !AnyUnfinished(procs)
    ensures ValidLog(init, steps') && Ordered(steps', RoundRobinSlices(quantum))
    ensures AllOnTime(steps') && ServedInTurn(steps')
    ensures steps' == steps + [Step(t, AllDone, procs)]
  {
    var s := Step(t, AllDone, Snapshot(procs));
    DriftLogs(Last(steps), procs, t, AllDone);
    Extend(init, steps, s);
    OrderedAppend(steps, s, RoundRobinSlices(quantum));
    OnTimeAppend(steps, s);
    ServedAppend(steps, s);
    steps' := steps + [s];
  }

  /** `simulateRoundRobin`. The log is well formed (so the input is left
      alone, the clock is monotone, at most one process is Running, and the
      final step comes only once every process is Terminated) and follows the
      Round Robin event order: every slice is a dispatch followed by at most
      `quantum` ticks of that process, numbered from 1, ending in its
      termination or, after exactly `quantum` ticks with work left, in its
      expiry. */
  method SimulateRoundRobin(input: seq<Process>, quantum: nat) returns (steps: seq<Step>)
    requires ValidInput(input) && quantum >= 1
    ensures ValidLog(WorkingCopy(input), steps) && Ordered(steps, RoundRobinSlices(quantum))
    ensures AllOnTime(steps) && ServedInTurn(steps)
  {
    var procs := WorkingCopy(input);
    ghost var init := procs;
    var t := 0;
    var queue: seq<nat> := [];
    steps := [Step(0, Start, Snapshot(procs))];
    FirstRound(init, quantum);
    while AnyUnfinished(procs)
      invariant LoopInv(init, procs, queue, t, steps, quantum)
      decreases TotalRemaining(procs), MaxArrival(init) - t
    {
      procs, queue, t, steps := Round(init, procs, queue, t, steps, quantum);
    }
    steps := Conclude(init, procs, queue, t, steps, quantum);
  }

  // ---------------------------------------------------------------------
  // Slices in the log
  // ---------------------------------------------------------------------

  /** Every tick of a Round Robin log belongs to a slice opened by the
      dispatch of the same process `used` steps (and `used` clock units)
      earlier, with `used` at most the quantum. */
  lemma {:induction false} SliceOpenedBy(init: seq<Process>, steps: seq<Step>, quantum: nat, k: int)
    requires LogPrefix(init, steps) && Ordered(steps, RoundRobinSlices(quantum))
    requires 0 <= k < |steps| && steps[k].event.SliceTick?
    ensures var e := steps[k].event;
      && e.quantum == quantum && 1 <= e.used <= quantum && e.used <= k
      && steps[k - e.used].event == Dispatch(e.proc)
      && steps[k].time == steps[k - e.used].time + e.used
    decreases steps[k].event.used
  {
    StepAt(init, steps, k);
    assert k > 0;
    FollowsAt(steps, RoundRobinSlices(quantum), k);
    if steps[k].event.used > 1 {
      SliceOpenedBy(init, steps, quantum, k - 1);
    }
  }

  /** A process goes back to the queue only after a full quantum of ticks,
      with work left: the expiry at k closes a slice that was dispatched
      `quantum` clock units earlier. */
  lemma ExpiryAfterFullSlice(init: seq<Process>, steps: seq<Step>, quantum: nat, k: int)
    requires LogPrefix(init, steps) && Ordered(steps, RoundRobinSlices(quantum))
    requires 0 <= k < |steps| && steps[k].event.QuantumExpired?
    ensures quantum < k && steps[k - 1 - quantum].event == Dispatch(steps[k].event.proc)
    ensures steps[k].time == steps[k - 1 - quantum].time + quantum
    ensures var i := steps[k].event.proc;
      i < |steps[k].processes| && steps[k].processes[i].status == Ready && steps[k].processes[i].remainingTime > 0
  {
    StepAt(init, steps, k);
    assert k > 0;
    FollowsAt(steps, RoundRobinSlices(quantum), k);
    SliceOpenedBy(init, steps, quantum, k - 1);
  }
}
