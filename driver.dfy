/**
  The simulation driver: the round-robin quantum read from the settings
  field, the dispatch on the selected algorithm's name in `startSimulation`,
  and the step cursor that the Prev and Next buttons move over the log.
*/
module Driver {
  import opened Wrappers
  import opened Processes
  import opened StepLog
  import opened Selection
  import Fcfs
  import Sjf
  import Priority
  import RoundRobin

  // ---------------------------------------------------------------------
  // The quantum (script.js line 105)
  // ---------------------------------------------------------------------

  /** `getGlobalQuantum`: the parsed field value when it is a positive
      number, 2 otherwise; `parsed` is None when the field does not parse as
      an integer. The result is always a usable quantum. */
  function EffectiveQuantum(parsed: Option<int>): (q: nat)
    ensures q >= 1
    ensures parsed.Some? && parsed.value > 0 ==> q == parsed.value
    ensures !(parsed.Some? && parsed.value > 0) ==> q == 2
  {
    if parsed.Some? && parsed.value > 0 then parsed.value else 2
  }

  // ---------------------------------------------------------------------
  // The dispatch on the algorithm's name (script.js lines 248-259)
  // ---------------------------------------------------------------------

  predicate KnownAlgorithm(name: string) {
    name == "FCFS" || name == "SJF" || name == "Priority" || name == "RoundRobin"
  }

  /** script.js lines 248-259: copy the processes into fresh working records, then run
      the simulator the name selects; any other name gives no steps. Every
      known name gives a complete, well-formed log of its own scheme over
      the working copy (for FCFS, the copy sorted by arrival). */
  method RunAlgorithm(name: string, processes: seq<Process>, parsedQuantum: Option<int>)
    returns (steps: seq<Step>)
    requires ValidInput(processes)
    ensures !KnownAlgorithm(name) <==> steps == []
    ensures name == "FCFS" ==>
      ValidLog(Fcfs.FcfsOrder(processes), steps) && Ordered(steps, FirstComeFirstServed) &&
      Dispatched(steps) == Fcfs.Upto(|processes|) &&
      Last(steps).time == Fcfs.SumBursts(Fcfs.FcfsOrder(processes)) + Fcfs.IdleTime(Fcfs.FcfsOrder(processes), 0) &&
      AllOnTime(steps) && AllJumpsOnTime(steps) && AllDispatchesPrompt(steps)
    ensures name == "SJF" ==>
      ValidLog(WorkingCopy(processes), steps) && Ordered(steps, ShortestJobFirst) &&
      AllChoicesBest(ShortestRemaining, steps) && AllOnTime(steps)
    ensures name == "Priority" ==>
      ValidLog(WorkingCopy(processes), steps) && Ordered(steps, PriorityPreemptive) &&
      AllChoicesBest(HighestPriority, steps) && AllOnTime(steps)
    ensures name == "RoundRobin" ==>
      ValidLog(WorkingCopy(processes), steps) &&
      Ordered(steps, RoundRobinSlices(EffectiveQuantum(parsedQuantum))) &&
      AllOnTime(steps) && RoundRobin.ServedInTurn(steps)
  {
    var working := WorkingCopy(processes);
    WorkingCopyIdempotent(processes);
    if name == "FCFS" {
      steps := Fcfs.SimulateFcfs(working);
    } else if name == "SJF" {
      steps := Sjf.SimulateSjf(working);
    } else if name == "Priority" {
      steps := Priority.SimulatePriority(working);
    } else if name == "RoundRobin" {
      var q := EffectiveQuantum(parsedQuantum);
      steps := RoundRobin.SimulateRoundRobin(working, q);
    } else {
      steps := [];
    }
  }

  // ---------------------------------------------------------------------
  // The step cursor (script.js lines 216-217)
  // ---------------------------------------------------------------------

  /** The Prev button: back one step unless at the first. */
  function StepBack(current: int): (c: int)
    ensures 0 <= current ==> 0 <= c <= current && (c == current <==> current == 0)
  {
    if current > 0 then current - 1 else current
  }

  /** The Next button: on one step unless at the last of `count`. */
  function StepOn(current: int, count: nat): (c: int)
    ensures 0 <= current < count ==>
      current <= c <= current + 1 && c < count && (c == current <==> current == count - 1)
  {
    if current < count - 1 then current + 1 else current
  }

  /** Both buttons keep the cursor on a step of the log. */
  lemma CursorStaysInLog(current: int, count: nat)
    requires 0 <= current < count
    ensures 0 <= StepBack(current) < count && 0 <= StepOn(current, count) < count
  {
  }

  /** Next then Prev comes back to the same step, unless Next was already at
      the last step; Prev then Next likewise, unless Prev was at the first. */
  lemma CursorMovesUndo(current: int, count: nat)
    requires 0 <= current < count
    ensures current < count - 1 ==> StepBack(StepOn(current, count)) == current
    ensures current > 0 ==> StepOn(StepBack(current), count) == current
  {
  }

  /** Repeated Next reaches the last step and stays there. */
  lemma {:induction false} NextReachesLast(current: int, count: nat, presses: nat)
    requires 0 <= current < count && current + presses >= count - 1
    ensures Pressed(current, count, presses) == count - 1
    decreases presses
  {
    if presses > 0 && current < count - 1 {
      NextReachesLast(StepOn(current, count), count, presses - 1);
    } else if presses > 0 {
      NextReachesLast(current, count, presses - 1);
    }
  }

  /** The cursor after `presses` presses of Next. */
  function Pressed(current: int, count: nat, presses: nat): int
    decreases presses
  {
    if presses == 0 then current else Pressed(StepOn(current, count), count, presses - 1)
  }

  datatype Failure = NoAlgorithm | NoProcesses | NoSteps

  /** The page's simulation state: the log of the last simulation and the
      step shown. */
  class Session {
    var steps: seq<Step>
    var current: int

    /** script.js lines 7-8: nothing simulated yet. */
    constructor ()
      ensures steps == [] && current == 0
    {
      steps := [];
      current := 0;
    }

    /** The cursor is on a step of the log. */
    predicate OnStep()
      reads this
    {
      0 <= current < |steps|
    }

    /** script.js line 216. */
    method Prev()
      modifies this
      ensures steps == old(steps) && current == StepBack(old(current))
      ensures old(OnStep()) ==> OnStep()
    {
      if current > 0 {
        current := current - 1;
      }
    }

    /** script.js line 217. */
    method Next()
      modifies this
      ensures steps == old(steps) && current == StepOn(old(current), |steps|)
      ensures old(OnStep()) ==> OnStep()
    {
      if current < |steps| - 1 {
        current := current + 1;
      }
    }

    /** `startSimulation` (script.js lines 243-268): no algorithm selected (null or the
        empty name) or no process leaves the state alone; otherwise the log
        is replaced by the selected simulation's, and the cursor goes back to
        its first step unless that log is empty. */
    method Start(selected: Option<string>, processes: seq<Process>, parsedQuantum: Option<int>)
      returns (r: Result<(), Failure>)
      modifies this
      requires ValidInput(processes)
      ensures selected.None? || selected.value == [] ==>
        r == Failure(NoAlgorithm) && steps == old(steps) && current == old(current)
      ensures selected.Some? && selected.value != [] && |processes| == 0 ==>
        r == Failure(NoProcesses) && steps == old(steps) && current == old(current)
      ensures selected.Some? && selected.value != [] && |processes| > 0 ==>
        && (steps == [] <==> !KnownAlgorithm(selected.value))
        && (steps == [] ==> r == Failure(NoSteps) && current == old(current))
        && (steps != [] ==> r == Success(()) && current == 0 && OnStep())
        && (selected.value == "FCFS" ==>
              ValidLog(Fcfs.FcfsOrder(processes), steps) && Ordered(steps, FirstComeFirstServed) &&
              Dispatched(steps) == Fcfs.Upto(|processes|) &&
              Last(steps).time ==
                Fcfs.SumBursts(Fcfs.FcfsOrder(processes)) + Fcfs.IdleTime(Fcfs.FcfsOrder(processes), 0) &&
              AllOnTime(steps) && AllJumpsOnTime(steps) && AllDispatchesPrompt(steps))
        && (selected.value == "SJF" ==>
              ValidLog(WorkingCopy(processes), steps) && Ordered(steps, ShortestJobFirst) &&
              AllChoicesBest(ShortestRemaining, steps) && AllOnTime(steps))
        && (selected.value == "Priority" ==>
              ValidLog(WorkingCopy(processes), steps) && Ordered(steps, PriorityPreemptive) &&
              AllChoicesBest(HighestPriority, steps) && AllOnTime(steps))
        && (selected.value == "RoundRobin" ==>
              ValidLog(WorkingCopy(processes), steps) &&
              Ordered(steps, RoundRobinSlices(EffectiveQuantum(parsedQuantum))) &&
              AllOnTime(steps) && RoundRobin.ServedInTurn(steps))
    {
      if selected.None? || selected.value == [] {
        return Failure(NoAlgorithm);
      }
      if |processes| == 0 {
        return Failure(NoProcesses);
      }
      var log := RunAlgorithm(selected.value, processes, parsedQuantum);
      steps := log;
      if |steps| == 0 {
        return Failure(NoSteps);
      }
      current := 0;
      r := Success(());
    }
  }
}
