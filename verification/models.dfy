/**
 * The process and resource records shared by the lock manager, the step
 * scheduler and the metrics collector. Their defining file
 * (fs_deadlock_sim/models.py) is not part of this model: their shape and
 * the contracts below are the ones their callers rely on.
 */
module Models {
  import opened Wrappers
  import Text

  type Pid = string
  type Rid = string

  datatype ProcessState = Ready | Running | Blocked | Deadlocked | Finished

  /** A unit resource: at most one owner at a time. */
  class Resource {
    const rid: Rid
    var heldBy: Option<Pid>

    constructor (rid: Rid)
      ensures this.rid == rid && heldBy == None
    {
      this.rid := rid;
      heldBy := None;
    }
  }

  /** A simulated process with its acquisition plan and its ownership record. */
  class Process {
    const pid: Pid
    const plan: seq<Rid>
    var heldResources: set<Rid>
    var state: ProcessState
    var currentRequest: Option<Rid>
    var waitingSteps: nat

    /** A new process holds nothing and is ready to issue requests, so the scheduler treats it as running. */
    constructor (pid: Pid, plan: seq<Rid>)
      ensures this.pid == pid && this.plan == plan
      ensures heldResources == {} && state == Running && currentRequest == None && waitingSteps == 0
    {
      this.pid := pid;
      this.plan := plan;
      heldResources := {};
      state := Running;
      currentRequest := None;
      waitingSteps := 0;
    }

    /** The process waits for `rid`: it becomes BLOCKED with `rid` as its outstanding request. */
    method MarkBlocked(rid: Rid)
      modifies this`state, this`currentRequest
      ensures state == Blocked && currentRequest == Some(rid)
    {
      state := Blocked;
      currentRequest := Some(rid);
    }

    /** The process got what it asked for: it runs again with no outstanding request. */
    method Resume()
      modifies this`state, this`currentRequest
      ensures state == Running && currentRequest == None
    {
      state := Running;
      currentRequest := None;
    }

    /** The process has given everything back and is done: FINISHED is terminal. */
    method Finish()
      modifies this`heldResources, this`currentRequest, this`state
      ensures heldResources == {} && currentRequest == None && state == Finished
    {
      heldResources := {};
      currentRequest := None;
      state := Finished;
    }

    /** The process is part of a detected cycle: DEADLOCKED is terminal. */
    method MarkDeadlocked()
      modifies this`state
      ensures state == Deadlocked
    {
      state := Deadlocked;
    }

    /** True iff every resource of the plan is held. */
    predicate HasAllResources()
      reads this`heldResources
    {
      forall rid :: rid in plan ==> rid in heldResources
    }

    /**
     * The next resource to ask for: a planned resource not yet held, the
     * least one by string order in ordered mode and the first one in plan
     * order otherwise; none only when the whole plan is held.
     */
    function NextRequest(ordered: bool): (r: Option<Rid>)
      reads this`heldResources
      ensures r.None? <==> HasAllResources()
      ensures r.Some? ==> r.value in plan && r.value !in heldResources
      ensures r.Some? && ordered ==>
        forall x :: x in plan && x !in heldResources ==> !Text.Less(x, r.value)
      ensures r.Some? && !ordered ==>
        exists k :: 0 <= k < |plan| && plan[k] == r.value && forall j :: 0 <= j < k ==> plan[j] in heldResources
    {
      if ordered then LeastUnheld(plan, heldResources) else FirstUnheld(plan, heldResources)
    }
  }

  /** The pids of `ps`. */
  function Pids(ps: seq<Process>): set<Pid>
  {
    set i | 0 <= i < |ps| :: ps[i].pid
  }

  /** No two processes share a pid (hence no process appears twice). */
  predicate DistinctPids(ps: seq<Process>)
  {
    forall i, j :: 0 <= i < j < |ps| ==> ps[i].pid != ps[j].pid
  }

  /** The first entry of `plan` outside `held`. */
  function FirstUnheld(plan: seq<Rid>, held: set<Rid>): (r: Option<Rid>)
    ensures r.None? <==> forall x :: x in plan ==> x in held
    ensures r.Some? ==>
      exists k :: 0 <= k < |plan| && plan[k] == r.value && r.value !in held &&
        forall j :: 0 <= j < k ==> plan[j] in held
  {
    if plan == [] then None
    else if plan[0] !in held then Some(plan[0])
    else
      var r := FirstUnheld(plan[1..], held);
      if r.Some? then
        var k :| 0 <= k < |plan[1..]| && plan[1..][k] == r.value && r.value !in held &&
          forall j :: 0 <= j < k ==> plan[1..][j] in held;
        assert plan[k + 1] == r.value;
        r
      else
        r
  }

  /** The least entry of `plan` outside `held`, by string order. */
  function LeastUnheld(plan: seq<Rid>, held: set<Rid>): (r: Option<Rid>)
    ensures r.None? <==> forall x :: x in plan ==> x in held
    ensures r.Some? ==> r.value in plan && r.value !in held
    ensures r.Some? ==> forall x :: x in plan && x !in held ==> !Text.Less(x, r.value)
  {
    if plan == [] then None
    else
      var rest := LeastUnheld(plan[1..], held);
      if plan[0] in held then rest
      else if rest.None? then
        Text.LessIrreflexive(plan[0]);
        Some(plan[0])
      else if Text.Less(plan[0], rest.value) then
        LeastAfter(plan, held, rest.value);
        Some(plan[0])
      else
        Text.LessIrreflexive(rest.value);
        rest
  }

  lemma LeastAfter(plan: seq<Rid>, held: set<Rid>, m: Rid)
    requires plan != [] && plan[0] !in held && Text.Less(plan[0], m)
    requires forall x :: x in plan[1..] && x !in held ==> !Text.Less(x, m)
    ensures forall x :: x in plan && x !in held ==> !Text.Less(x, plan[0])
  {
    forall x | x in plan && x !in held
      ensures !Text.Less(x, plan[0])
    {
      if x == plan[0] {
        Text.LessIrreflexive(x);
      } else {
        assert x in plan[1..];
        if Text.Less(x, plan[0]) {
          Text.LessTransitive(x, plan[0], m);
        }
      }
    }
  }
}
