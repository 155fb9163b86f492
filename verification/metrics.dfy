/**
 * The presentation metrics of one simulation run
 * (fs_deadlock_sim/metrics.py): step, completion, deadlock and waiting
 * counters, and the summary figures derived from them.
 */
module Metrics {
  import opened Models

  /** The processes' states, in list order. */
  function States(ps: seq<Process>): (ss: seq<ProcessState>)
    reads ps`state
    ensures |ss| == |ps| && forall i {:trigger ss[i]} :: 0 <= i < |ps| ==> ss[i] == ps[i].state
  {
    StatesTo(ps, |ps|)
  }

  function StatesTo(ps: seq<Process>, k: nat): (ss: seq<ProcessState>)
    requires k <= |ps|
    reads ps`state
    ensures |ss| == k && forall i {:trigger ss[i]} :: 0 <= i < k ==> ss[i] == ps[i].state
  {
    if k == 0 then [] else StatesTo(ps, k - 1) + [ps[k - 1].state]
  }

  /** The processes' waiting steps, in list order. */
  function Waits(ps: seq<Process>): (ws: seq<nat>)
    reads ps`waitingSteps
    ensures |ws| == |ps| && forall i :: 0 <= i < |ps| ==> ws[i] == ps[i].waitingSteps
  {
    WaitsTo(ps, |ps|)
  }

  function WaitsTo(ps: seq<Process>, k: nat): (ws: seq<nat>)
    requires k <= |ps|
    reads ps`waitingSteps
    ensures |ws| == k && forall i :: 0 <= i < k ==> ws[i] == ps[i].waitingSteps
  {
    if k == 0 then [] else WaitsTo(ps, k - 1) + [ps[k - 1].waitingSteps]
  }

  /** How many entries of `ss` are `s`. */
  function Count(ss: seq<ProcessState>, s: ProcessState): (n: nat)
    ensures n <= |ss|
  {
    if ss == [] then 0 else Count(ss[..|ss| - 1], s) + (if ss[|ss| - 1] == s then 1 else 0)
  }

  /** How many of the first `k` entries of `ss` are `s`. */
  function CountTo(ss: seq<ProcessState>, k: nat, s: ProcessState): nat
    requires k <= |ss|
  {
    if k == 0 then 0 else CountTo(ss, k - 1, s) + (if ss[k - 1] == s then 1 else 0)
  }

  lemma {:induction false} CountToAll(ss: seq<ProcessState>, s: ProcessState)
    ensures CountTo(ss, |ss|, s) == Count(ss, s)
  {
    if ss != [] {
      var n := |ss| - 1;
      CountToAll(ss[..n], s);
      CountToSame(ss[..n], ss, n, s);
    }
  }

  /** The count of the first `k` entries depends on nothing after them. */
  lemma {:induction false} CountToSame(a: seq<ProcessState>, b: seq<ProcessState>, k: nat, s: ProcessState)
    requires k <= |a| && k <= |b| && forall i :: 0 <= i < k ==> a[i] == b[i]
    ensures CountTo(a, k, s) == CountTo(b, k, s)
  {
    if k > 0 {
      CountToSame(a, b, k - 1, s);
    }
  }

  /** No entry is `s` exactly when the count of `s` is zero. */
  lemma {:induction false} CountZero(ss: seq<ProcessState>, s: ProcessState)
    ensures Count(ss, s) == 0 <==> s !in ss
  {
    if ss != [] {
      var n := |ss| - 1;
      CountZero(ss[..n], s);
      assert ss == ss[..n] + [ss[n]];
    }
  }

  function Sum(ws: seq<nat>): nat
  {
    if ws == [] then 0 else Sum(ws[..|ws| - 1]) + ws[|ws| - 1]
  }

  /** How many entries of `ws` are positive: the processes that waited at all. */
  function Positives(ws: seq<nat>): (n: nat)
    ensures n <= |ws|
  {
    if ws == [] then 0 else Positives(ws[..|ws| - 1]) + (if ws[|ws| - 1] > 0 then 1 else 0)
  }

  /** Every process that waited at all waited at least one step, and only those contribute. */
  lemma {:induction false} WaitedBounds(ws: seq<nat>)
    ensures Positives(ws) <= Sum(ws)
    ensures Positives(ws) == 0 <==> Sum(ws) == 0
  {
    if ws != [] {
      WaitedBounds(ws[..|ws| - 1]);
    }
  }

  /** Nothing waited: the sum is zero. */
  lemma {:induction false} SumZeros(ws: seq<nat>)
    requires forall i :: 0 <= i < |ws| ==> ws[i] == 0
    ensures Sum(ws) == 0
  {
    if ws != [] {
      SumZeros(ws[..|ws| - 1]);
    }
  }

  /** One waiting step more for each BLOCKED process adds the number of BLOCKED processes to the total. */
  lemma {:induction false} SumBumped(before: seq<nat>, ss: seq<ProcessState>, after: seq<nat>)
    requires |before| == |ss| == |after|
    requires forall i :: 0 <= i < |after| ==> after[i] == before[i] + (if ss[i] == Blocked then 1 else 0)
    ensures Sum(after) == Sum(before) + Count(ss, Blocked)
  {
    if after != [] {
      var n := |after| - 1;
      SumBumped(before[..n], ss[..n], after[..n]);
    }
  }

  /** Changes that keep whether each entry is `s` keep the count of `s`. */
  lemma {:induction false} CountSame(a: seq<ProcessState>, b: seq<ProcessState>, s: ProcessState)
    requires |a| == |b| && forall i :: 0 <= i < |a| ==> (a[i] == s <==> b[i] == s)
    ensures Count(a, s) == Count(b, s)
  {
    if a != [] {
      var n := |a| - 1;
      CountSame(a[..n], b[..n], s);
    }
  }

  /** Turning one entry into `s`, and no other entry into or out of `s`, adds one to the count. */
  lemma {:induction false} CountOneMore(a: seq<ProcessState>, b: seq<ProcessState>, k: nat, s: ProcessState)
    requires |a| == |b| && k < |a| && a[k] != s && b[k] == s
    requires forall i :: 0 <= i < |a| && i != k ==> (a[i] == s <==> b[i] == s)
    ensures Count(b, s) == Count(a, s) + 1
  {
    var n := |a| - 1;
    if k < n {
      CountOneMore(a[..n], b[..n], k, s);
    } else {
      CountSame(a[..n], b[..n], s);
    }
  }

  /** The process-steps of `steps` steps over `n` processes, counted one step at a time. */
  function Slots(steps: nat, n: nat): nat
  {
    if steps == 0 then 0 else Slots(steps - 1, n) + n
  }

  lemma {:induction false} SlotsProduct(steps: nat, n: nat)
    ensures Slots(steps, n) == steps * n
  {
    if steps > 0 {
      SlotsProduct(steps - 1, n);
      assert steps * n == (steps - 1) * n + n;
    }
  }

  /** A step adds at most one blocked process-step per process. */
  lemma StepBound(blocked: nat, added: nat, steps: nat, n: nat)
    requires blocked <= Slots(steps, n) && added <= n
    ensures blocked + added <= Slots(steps + 1, n)
  {
  }

  /** The `as_dict` report; the two averages are exact (the source rounds them for display). */
  datatype Report = Report(
    mode: string,
    processes: nat,
    resources: nat,
    stepsExecuted: nat,
    completedProcesses: nat,
    deadlocksDetected: nat,
    averageWaitingTime: real,
    timeBlockedPct: real)

  class MetricsCollector {
    const mode: string
    const numProcesses: nat
    const numResources: nat
    var steps: nat
    var completed: nat
    var deadlocks: nat
    var totalWaitTime: nat
    var blockedSteps: nat

    constructor (mode: string, numProcesses: nat, numResources: nat)
      ensures this.mode == mode && this.numProcesses == numProcesses && this.numResources == numResources
      ensures steps == 0 && completed == 0 && deadlocks == 0 && totalWaitTime == 0 && blockedSteps == 0
    {
      this.mode := mode;
      this.numProcesses := numProcesses;
      this.numResources := numResources;
      steps := 0;
      completed := 0;
      deadlocks := 0;
      totalWaitTime := 0;
      blockedSteps := 0;
    }

    /**
     * The counters of a run over `n` processes agree: the two waiting
     * counters move together, and at most every process is blocked at
     * every step.
     */
    ghost predicate Valid(n: nat)
      reads this`totalWaitTime, this`blockedSteps, this`steps
    {
      totalWaitTime == blockedSteps && blockedSteps <= Slots(steps, n)
    }

    /**
     * `record_step`: one more step, and one more waiting step for the run
     * and for each process that is BLOCKED now.
     */
    method RecordStep(processes: seq<Process>)
      requires DistinctPids(processes)
      modifies this`steps, this`totalWaitTime, this`blockedSteps, processes`waitingSteps
      ensures steps == old(steps) + 1
      ensures blockedSteps == old(blockedSteps) + Count(States(processes), Blocked)
      ensures totalWaitTime == old(totalWaitTime) + Count(States(processes), Blocked)
      ensures forall i :: 0 <= i < |processes| ==>
        processes[i].waitingSteps == old(processes[i].waitingSteps) + (if processes[i].state == Blocked then 1 else 0)
      ensures old(Valid(|processes|)) ==> Valid(|processes|)
    {
      if Valid(|processes|) {
        StepBound(blockedSteps, Count(States(processes), Blocked), steps, |processes|);
      }
      steps := steps + 1;
      RecordWaiting(processes);
    }

    /** The loop of `record_step`: one waiting step for the run and for each BLOCKED process. */
    method RecordWaiting(processes: seq<Process>)
      requires DistinctPids(processes)
      modifies this`totalWaitTime, this`blockedSteps, processes`waitingSteps
      ensures blockedSteps == old(blockedSteps) + Count(States(processes), Blocked)
      ensures totalWaitTime == old(totalWaitTime) + Count(States(processes), Blocked)
      ensures forall i :: 0 <= i < |processes| ==>
        processes[i].waitingSteps == old(processes[i].waitingSteps) + (if processes[i].state == Blocked then 1 else 0)
    {
      ghost var ss := States(processes);
      for k := 0 to |processes|
        invariant blockedSteps == old(blockedSteps) + CountTo(ss, k, Blocked)
        invariant totalWaitTime == old(totalWaitTime) + CountTo(ss, k, Blocked)
        invariant forall i :: 0 <= i < k ==>
          processes[i].waitingSteps == old(processes[i].waitingSteps) + (if ss[i] == Blocked then 1 else 0)
        invariant forall i :: k <= i < |processes| ==> processes[i].waitingSteps == old(processes[i].waitingSteps)
      {
        var process := processes[k];
        assert forall i :: 0 <= i < |processes| && i != k ==> processes[i] != process;
        Wait(process);
      }
      CountToAll(ss, Blocked);
    }

    /** One process's share of `record_step`: a BLOCKED process waits one more step, and so does the run. */
    method Wait(process: Process)
      modifies this`totalWaitTime, this`blockedSteps, process`waitingSteps
      ensures blockedSteps == old(blockedSteps) + (if process.state == Blocked then 1 else 0)
      ensures totalWaitTime == old(totalWaitTime) + (if process.state == Blocked then 1 else 0)
      ensures process.waitingSteps == old(process.waitingSteps) + (if process.state == Blocked then 1 else 0)
    {
      if process.state == Blocked {
        totalWaitTime := totalWaitTime + 1;
        blockedSteps := blockedSteps + 1;
        process.waitingSteps := process.waitingSteps + 1;
      }
    }

    /** `record_completion`. */
    method RecordCompletion()
      modifies this`completed
      ensures completed == old(completed) + 1
    {
      completed := completed + 1;
    }

    /** `record_deadlock`. */
    method RecordDeadlock()
      modifies this`deadlocks
      ensures deadlocks == old(deadlocks) + 1
    {
      deadlocks := deadlocks + 1;
    }

    /**
     * `as_dict`: the counters, the average number of waiting steps over
     * the processes that waited at all (0 when none did), and the
     * percentage of process-steps spent blocked (0 for no processes).
     */
    function AsDict(processes: seq<Process>): (r: Report)
      reads this, processes
      ensures r.stepsExecuted == steps && r.completedProcesses == completed && r.deadlocksDetected == deadlocks
      ensures r.averageWaitingTime == 0.0 <==> Sum(Waits(processes)) == 0
      ensures Sum(Waits(processes)) > 0 ==> r.averageWaitingTime >= 1.0
      ensures r.timeBlockedPct >= 0.0
      ensures blockedSteps <= Slots(steps, |processes|) ==> r.timeBlockedPct <= 100.0
      ensures processes == [] || blockedSteps == 0 ==> r.timeBlockedPct == 0.0
    {
      WaitedBounds(Waits(processes));
      SlotsProduct(steps, |processes|);
      Report(mode, numProcesses, numResources, steps, completed, deadlocks,
             AverageWait(Sum(Waits(processes)), Positives(Waits(processes))),
             BlockedPct(blockedSteps, steps, |processes|))
    }
  }

  /** `total / waited if waited else 0.0`, for `waited` processes that waited `total` steps in all. */
  function AverageWait(total: nat, waited: nat): (avg: real)
    requires waited <= total && (waited == 0 <==> total == 0)
    ensures avg == 0.0 <==> total == 0
    ensures total > 0 ==> avg >= 1.0
  {
    if waited > 0 then (total as real) / (waited as real) else 0.0
  }

  /** `blocked / (max(1, steps) * n) * 100 if n else 0.0`. */
  function BlockedPct(blocked: nat, steps: nat, n: nat): (pct: real)
    ensures pct >= 0.0
    ensures blocked <= steps * n ==> pct <= 100.0
    ensures n == 0 || blocked == 0 ==> pct == 0.0
  {
    if n > 0 then
      PctBound(blocked, steps, n);
      (blocked as real) / ((Max1(steps) * n) as real) * 100.0
    else 0.0
  }

  function Max1(n: nat): (m: nat)
    ensures m >= 1 && m >= n
  {
    if n < 1 then 1 else n
  }

  /** At most all `n` processes are blocked at each of `steps` steps: the share is at most 100%. */
  lemma PctBound(blocked: nat, steps: nat, n: nat)
    requires n > 0
    ensures blocked <= steps * n ==> (blocked as real) / ((Max1(steps) * n) as real) * 100.0 <= 100.0
  {
    if blocked <= steps * n {
      assert steps * n <= Max1(steps) * n;
    }
  }
}
