/** Option type shared by the scheduler modules. */
module Wrappers {
  datatype Option<+T> = None | Some(value: T)

  datatype Result<+R, +E> = Success(value: R) | Failure(error: E)
}

/**
  The process record of the scheduler, its five-value status, the working copy
  every simulator starts from, the per-process well-formedness conditions, and
  the two selection orders (shortest remaining time, highest priority).
*/
module Processes {
  import opened Wrappers

  datatype Status = New | Ready | Running | Waiting | Terminated

  /** One schedulable unit. `id` is an opaque identifier; only `status` and
      `remainingTime` ever change during a simulation. */
  datatype Process = Process(
    id: int,
    name: string,
    arrivalTime: int,
    burstTime: int,
    remainingTime: int,
    priority: int,
    status: Status)

  /** What the process form guarantees of every stored process: a positive
      burst, and a remaining time equal to it (set at creation). */
  predicate ValidProcess(p: Process) {
    p.burstTime > 0 && p.remainingTime == p.burstTime
  }

  predicate ValidInput(ps: seq<Process>) {
    forall i :: 0 <= i < |ps| ==> ValidProcess(ps[i])
  }

  /** The fields a simulation never changes. */
  predicate SameStatic(p: Process, q: Process) {
    p.id == q.id && p.name == q.name && p.arrivalTime == q.arrivalTime &&
    p.burstTime == q.burstTime && p.priority == q.priority
  }

  /** Every process is New and has its whole burst still to run. */
  predicate AllFresh(ps: seq<Process>) {
    forall i :: 0 <= i < |ps| ==>
      ps[i].status == New && 0 < ps[i].burstTime && ps[i].remainingTime == ps[i].burstTime
  }

  /** The working copy each simulation starts from: a copy of every process,
      reset to New, with its remaining time kept. */
  function WorkingCopy(ps: seq<Process>): (w: seq<Process>)
    ensures |w| == |ps|
    ensures forall i :: 0 <= i < |ps| ==>
      SameStatic(ps[i], w[i]) && w[i].status == New && w[i].remainingTime == ps[i].remainingTime
    ensures ValidInput(ps) ==> AllFresh(w) && ValidInput(w)
  {
    seq(|ps|, i requires 0 <= i < |ps| => ps[i].(status := New))
  }

  /** Copying an already prepared list changes nothing. */
  lemma WorkingCopyIdempotent(ps: seq<Process>)
    ensures WorkingCopy(WorkingCopy(ps)) == WorkingCopy(ps)
  {
    var w := WorkingCopy(ps);
    assert forall i :: 0 <= i < |w| ==> w[i].(status := New) == w[i];
  }

  /** Per-process conditions that hold in every logged snapshot at clock `t`. */
  predicate ProcessOk(p: Process, t: int) {
    && 0 <= p.remainingTime <= p.burstTime
    && p.status != Waiting
    && (p.status != New ==> p.arrivalTime <= t)
    && (p.status == New ==> p.remainingTime == p.burstTime)
    && (p.status == New || p.status == Ready ==> 0 < p.remainingTime)
    && (p.status == Terminated ==> p.remainingTime == 0)
  }

  predicate AtMostOneRunning(ps: seq<Process>) {
    forall i, j :: 0 <= i < |ps| && 0 <= j < |ps| && ps[i].status == Running && ps[j].status == Running ==> i == j
  }

  predicate NoneRunning(ps: seq<Process>) {
    forall i :: 0 <= i < |ps| ==> ps[i].status != Running
  }

  predicate StateOk(ps: seq<Process>, t: int) {
    (forall i :: 0 <= i < |ps| ==> ProcessOk(ps[i], t)) && AtMostOneRunning(ps)
  }

  /** A process still New has not arrived yet: arrivals are noticed at once. */
  predicate NoneOverdue(ps: seq<Process>, t: int) {
    forall i :: 0 <= i < |ps| && ps[i].status == New ==> t < ps[i].arrivalTime
  }

  predicate AllTerminated(ps: seq<Process>) {
    forall i :: 0 <= i < |ps| ==> ps[i].status == Terminated
  }

  /** The loop condition of every simulator: some process is not yet
      Terminated. */
  predicate AnyUnfinished(ps: seq<Process>)
    ensures AnyUnfinished(ps) <==> !AllTerminated(ps)
  {
    exists i :: 0 <= i < |ps| && ps[i].status != Terminated
  }

  /** StateOk survives the clock moving forward. */
  lemma StateOkLater(ps: seq<Process>, t: int, u: int)
    requires StateOk(ps, t) && t <= u
    ensures StateOk(ps, u)
  {
  }

  // ---------------------------------------------------------------------
  // Total remaining work (the termination measure of the simulators)
  // ---------------------------------------------------------------------

  function TotalRemaining(ps: seq<Process>): int {
    if |ps| == 0 then 0 else TotalRemaining(ps[..|ps| - 1]) + ps[|ps| - 1].remainingTime
  }

  lemma {:induction false} TotalRemainingNonNegative(ps: seq<Process>)
    requires forall i :: 0 <= i < |ps| ==> 0 <= ps[i].remainingTime
    ensures 0 <= TotalRemaining(ps)
  {
    if |ps| > 0 {
      TotalRemainingNonNegative(ps[..|ps| - 1]);
    }
  }

  lemma TotalRemainingOfState(ps: seq<Process>, t: int)
    requires StateOk(ps, t)
    ensures 0 <= TotalRemaining(ps)
  {
    forall i | 0 <= i < |ps| ensures 0 <= ps[i].remainingTime {
      assert ProcessOk(ps[i], t);
    }
    TotalRemainingNonNegative(ps);
  }

  /** Replacing one process changes the total by the change of its remaining time. */
  lemma {:induction false} TotalRemainingUpdate(ps: seq<Process>, i: int, p: Process)
    requires 0 <= i < |ps|
    ensures TotalRemaining(ps[i := p]) == TotalRemaining(ps) - ps[i].remainingTime + p.remainingTime
  {
    var n := |ps|;
    if i < n - 1 {
      assert ps[i := p][..n - 1] == ps[..n - 1][i := p];
      TotalRemainingUpdate(ps[..n - 1], i, p);
    } else {
      assert ps[i := p][..n - 1] == ps[..n - 1];
    }
  }

  /** Two lists whose remaining times agree pointwise have the same total. */
  lemma {:induction false} TotalRemainingPointwise(ps: seq<Process>, qs: seq<Process>)
    requires |ps| == |qs|
    requires forall i :: 0 <= i < |ps| ==> ps[i].remainingTime == qs[i].remainingTime
    ensures TotalRemaining(ps) == TotalRemaining(qs)
  {
    if |ps| > 0 {
      TotalRemainingPointwise(ps[..|ps| - 1], qs[..|qs| - 1]);
    }
  }

  /** Finishing off one process with work left lowers the total. */
  lemma TotalRemainingDrops(ps: seq<Process>, r: seq<Process>, i: int)
    requires |r| == |ps| && 0 <= i < |ps| && r[i].remainingTime < ps[i].remainingTime
    requires forall j :: 0 <= j < |ps| && j != i ==> r[j].remainingTime == ps[j].remainingTime
    ensures TotalRemaining(r) < TotalRemaining(ps)
  {
    TotalRemainingPointwise(r, ps[i := r[i]]);
    TotalRemainingUpdate(ps, i, r[i]);
  }

  /** When every process is Terminated with nothing left, no work remains. */
  lemma {:induction false} TotalRemainingAllZero(ps: seq<Process>)
    requires forall i :: 0 <= i < |ps| ==> ps[i].remainingTime == 0
    ensures TotalRemaining(ps) == 0
  {
    if |ps| > 0 {
      TotalRemainingAllZero(ps[..|ps| - 1]);
    }
  }

  /** The latest arrival time of the list (0 for the empty list). */
  function MaxArrival(ps: seq<Process>): (r: int)
    ensures forall i :: 0 <= i < |ps| ==> ps[i].arrivalTime <= r
  {
    if |ps| == 0 then 0
    else
      var rest := MaxArrival(ps[..|ps| - 1]);
      if ps[|ps| - 1].arrivalTime <= rest then rest else ps[|ps| - 1].arrivalTime
  }

  /** The CPU is idle (nothing Running or Ready while work is left) only
      before some arrival, so an idle clock is below the latest arrival. */
  lemma IdleBeforeLastArrival(ps: seq<Process>, t: int)
    requires StateOk(ps, t) && NoneOverdue(ps, t) && NoneRunning(ps) && AnyUnfinished(ps)
    requires forall j :: 0 <= j < |ps| ==> ps[j].status != Ready
    ensures t < MaxArrival(ps)
  {
    var i :| 0 <= i < |ps| && ps[i].status != Terminated;
    assert ProcessOk(ps[i], t);
  }

  // ---------------------------------------------------------------------
  // Arrival promotion (the forEach loops of the simulators)
  // ---------------------------------------------------------------------

  /** The promotion rule: a New process that has arrived by clock t becomes
      Ready; any other process is left as it is. */
  function Promoted(p: Process, t: int): Process {
    if p.status == New && p.arrivalTime <= t then p.(status := Ready) else p
  }

  /** The promotion pass run after every clock change (and at the top of the
      SJF and Priority loops): each arrived New process becomes Ready. */
  method PromoteArrivals(ps: seq<Process>, t: int) returns (r: seq<Process>)
    ensures |r| == |ps|
    ensures forall i :: 0 <= i < |ps| ==> r[i] == Promoted(ps[i], t)
    ensures NoneOverdue(r, t)
  {
    r := ps;
    var i := 0;
    while i < |r|
      invariant 0 <= i <= |r| == |ps|
      invariant forall j :: 0 <= j < i ==> r[j] == Promoted(ps[j], t)
      invariant forall j :: i <= j < |r| ==> r[j] == ps[j]
    {
      if r[i].status == New && r[i].arrivalTime <= t {
        r := r[i := r[i].(status := Ready)];
      }
      i := i + 1;
    }
  }

  /** Promoting at t and then at a later u is promoting at u. */
  lemma PromotedTwice(p: Process, t: int, u: int)
    requires t <= u
    ensures Promoted(Promoted(p, t), u) == Promoted(p, u)
  {
  }

  /** With every New process still in the future, promotion changes nothing. */
  lemma PromotedNoneDue(ps: seq<Process>, t: int)
    requires NoneOverdue(ps, t)
    ensures forall i :: 0 <= i < |ps| ==> Promoted(ps[i], t) == ps[i]
  {
  }

  /** Promotion keeps every per-process condition and adds no Running process. */
  lemma PromotedStateOk(ps: seq<Process>, r: seq<Process>, t: int)
    requires StateOk(ps, t) && |r| == |ps|
    requires forall i :: 0 <= i < |ps| ==> r[i] == Promoted(ps[i], t)
    ensures StateOk(r, t)
    ensures forall i :: 0 <= i < |ps| ==> SameStatic(ps[i], r[i]) && r[i].remainingTime == ps[i].remainingTime
  {
    forall i, j | 0 <= i < |r| && 0 <= j < |r| && r[i].status == Running && r[j].status == Running
      ensures i == j
    {
      assert ps[i].status == Running && ps[j].status == Running;
    }
  }

  // ---------------------------------------------------------------------
  // Selection orders
  // ---------------------------------------------------------------------

  /** Plain lexicographic order on names (the model of `localeCompare`). */
  predicate NameBefore(a: string, b: string) {
    if |a| == 0 then |b| != 0
    else if |b| == 0 then false
    else if a[0] != b[0] then a[0] < b[0]
    else NameBefore(a[1..], b[1..])
  }

  lemma {:induction false} NameBeforeIrreflexive(a: string)
    ensures !NameBefore(a, a)
  {
    if |a| > 0 {
      NameBeforeIrreflexive(a[1..]);
    }
  }

  lemma {:induction false} NameBeforeTransitive(a: string, b: string, c: string)
    requires NameBefore(a, b) && NameBefore(b, c)
    ensures NameBefore(a, c)
  {
    if |a| > 0 && |b| > 0 && |c| > 0 && a[0] == b[0] && b[0] == c[0] {
      NameBeforeTransitive(a[1..], b[1..], c[1..]);
    }
  }

  /** Distinct names are always ordered one way or the other. */
  lemma {:induction false} NameBeforeTotal(a: string, b: string)
    ensures a == b || NameBefore(a, b) || NameBefore(b, a)
  {
    if |a| > 0 && |b| > 0 && a[0] == b[0] {
      NameBeforeTotal(a[1..], b[1..]);
      if a[1..] == b[1..] {
        assert a == [a[0]] + a[1..] && b == [b[0]] + b[1..];
      }
    }
  }

  datatype Policy = ShortestRemaining | HighestPriority

  /** Strict "is chosen before" of the two comparators:
      SJF compares (remainingTime, arrivalTime);
      Priority compares (priority, arrivalTime, name). */
  predicate Before(policy: Policy, p: Process, q: Process) {
    match policy
    case ShortestRemaining =>
      p.remainingTime < q.remainingTime ||
      (p.remainingTime == q.remainingTime && p.arrivalTime < q.arrivalTime)
    case HighestPriority =>
      p.priority < q.priority ||
      (p.priority == q.priority &&
        (p.arrivalTime < q.arrivalTime ||
         (p.arrivalTime == q.arrivalTime && NameBefore(p.name, q.name))))
  }

  lemma BeforeIrreflexive(policy: Policy, p: Process)
    ensures !Before(policy, p, p)
  {
    NameBeforeIrreflexive(p.name);
  }

  lemma BeforeTransitive(policy: Policy, p: Process, q: Process, r: Process)
    requires Before(policy, p, q) && Before(policy, q, r)
    ensures Before(policy, p, r)
  {
    if policy == HighestPriority && p.priority == q.priority == r.priority &&
       p.arrivalTime == q.arrivalTime == r.arrivalTime {
      NameBeforeTransitive(p.name, q.name, r.name);
    }
  }

  /** If p comes before r, any q comes after p or before r. */
  lemma BeforeSplit(policy: Policy, p: Process, q: Process, r: Process)
    requires Before(policy, p, r)
    ensures Before(policy, p, q) || Before(policy, q, r)
  {
    if policy == HighestPriority {
      NameBeforeTotal(p.name, q.name);
      NameBeforeTotal(q.name, r.name);
      if NameBefore(q.name, p.name) && NameBefore(r.name, q.name) {
        NameBeforeTransitive(r.name, q.name, p.name);
        NameBeforeIrreflexive(r.name);
        if NameBefore(p.name, r.name) {
          NameBeforeTransitive(p.name, r.name, p.name);
          NameBeforeIrreflexive(p.name);
        }
      }
      if q.name == p.name && NameBefore(r.name, q.name) && NameBefore(p.name, r.name) {
        NameBeforeTransitive(p.name, r.name, p.name);
        NameBeforeIrreflexive(p.name);
      }
      if q.name == r.name && NameBefore(q.name, p.name) && NameBefore(p.name, r.name) {
        NameBeforeTransitive(p.name, r.name, p.name);
        NameBeforeIrreflexive(p.name);
      }
    }
  }

  /** Index i is the head of the Ready processes stably sorted by the policy's
      comparator: no Ready process comes strictly before it, and every Ready
      process listed earlier comes strictly after it. */
  predicate IsBestReady(policy: Policy, ps: seq<Process>, i: int) {
    0 <= i < |ps| && ps[i].status == Ready &&
    forall j :: 0 <= j < |ps| && ps[j].status == Ready ==>
      !Before(policy, ps[j], ps[i]) && (j < i ==> Before(policy, ps[i], ps[j]))
  }

  /** The index of the first Ready process in the order `policy` ranks them
      by, or None when nothing is Ready. */
  function Select(policy: Policy, ps: seq<Process>): (r: Option<nat>)
    ensures r.None? <==> forall j :: 0 <= j < |ps| ==> ps[j].status != Ready
    ensures r.Some? ==> IsBestReady(policy, ps, r.value)
  {
    if |ps| == 0 then None
    else
      var last := |ps| - 1;
      var best := Select(policy, ps[..last]);
      if ps[last].status == Ready && (best.None? || Before(policy, ps[last], ps[best.value])) then
        SelectLastIsBest(policy, ps, best);
        Some(last)
      else
        SelectKeepIsBest(policy, ps, best);
        best
  }

  lemma SelectLastIsBest(policy: Policy, ps: seq<Process>, best: Option<nat>)
    requires |ps| > 0 && ps[|ps| - 1].status == Ready
    requires best.None? <==> forall j :: 0 <= j < |ps| - 1 ==> ps[j].status != Ready
    requires best.Some? ==> IsBestReady(policy, ps[..|ps| - 1], best.value)
    requires best.None? || Before(policy, ps[|ps| - 1], ps[best.value])
    ensures IsBestReady(policy, ps, |ps| - 1)
  {
    var last := |ps| - 1;
    BeforeIrreflexive(policy, ps[last]);
    forall j | 0 <= j < |ps| && ps[j].status == Ready
      ensures !Before(policy, ps[j], ps[last]) && (j < last ==> Before(policy, ps[last], ps[j]))
    {
      if j < last {
        var b := best.value;
        assert ps[..last][j] == ps[j] && ps[..last][b] == ps[b];
        assert !Before(policy, ps[j], ps[b]);
        BeforeSplit(policy, ps[last], ps[j], ps[b]);
        if Before(policy, ps[j], ps[last]) {
          BeforeTransitive(policy, ps[j], ps[last], ps[b]);
        }
      }
    }
  }

  lemma SelectKeepIsBest(policy: Policy, ps: seq<Process>, best: Option<nat>)
    requires |ps| > 0
    requires best.None? <==> forall j :: 0 <= j < |ps| - 1 ==> ps[j].status != Ready
    requires best.Some? ==> IsBestReady(policy, ps[..|ps| - 1], best.value)
    requires !(ps[|ps| - 1].status == Ready && (best.None? || Before(policy, ps[|ps| - 1], ps[best.value])))
    ensures best.None? <==> forall j :: 0 <= j < |ps| ==> ps[j].status != Ready
    ensures best.Some? ==> IsBestReady(policy, ps, best.value)
  {
    var last := |ps| - 1;
    if best.Some? {
      var b := best.value;
      forall j | 0 <= j < |ps| && ps[j].status == Ready
        ensures !Before(policy, ps[j], ps[b]) && (j < b ==> Before(policy, ps[b], ps[j]))
      {
        if j < last {
          assert ps[..last][j] == ps[j] && ps[..last][b] == ps[b];
        }
      }
    } else {
      forall j | 0 <= j < |ps|
        ensures ps[j].status != Ready
      {
        if j < last {
          assert ps[..last][j] == ps[j];
        }
      }
    }
  }

  /** The choice is unique: two indices that both head the stably sorted
      Ready list are the same index. */
  lemma BestReadyUnique(policy: Policy, ps: seq<Process>, i: int, j: int)
    requires IsBestReady(policy, ps, i) && IsBestReady(policy, ps, j)
    ensures i == j
  {
  }
}
