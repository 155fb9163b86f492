/**
 * Exclusive ownership of unit resources by simulated processes
 * (fs_deadlock_sim/lock_manager.py). In "banker" mode a free resource is
 * granted only when, after the grant, every live process could still be
 * retired one after another (module Retirement); in every other mode a
 * free resource is granted at once.
 */
module LockManager {
  import opened Wrappers
  import opened Models
  import opened Events
  import Text
  import Retirement

  /** `set(xs)`. */
  function SetOf(xs: seq<Rid>): (s: set<Rid>)
    ensures forall x :: x in s <==> x in xs
  {
    set x | x in xs
  }

  /** The pids of the processes that have not finished. */
  function LivePids(ps: seq<Process>): set<Pid>
    reads ps
  {
    set i | 0 <= i < |ps| && ps[i].state != Finished :: ps[i].pid
  }

  /** The held set of each unfinished process, keyed by pid (a later process overwrites an earlier one). */
  function LiveHeld(ps: seq<Process>): map<Pid, set<Rid>>
    reads ps
  {
    if ps == [] then map[]
    else
      var m := LiveHeld(ps[..|ps| - 1]);
      var p := ps[|ps| - 1];
      if p.state != Finished then m[p.pid := p.heldResources] else m
  }

  /** The plan of each unfinished process as a set, keyed by pid. */
  function LivePlans(ps: seq<Process>): map<Pid, set<Rid>>
    reads ps
  {
    if ps == [] then map[]
    else
      var m := LivePlans(ps[..|ps| - 1]);
      var p := ps[|ps| - 1];
      if p.state != Finished then m[p.pid := SetOf(p.plan)] else m
  }

  lemma LivePidsSnoc(ps: seq<Process>)
    requires ps != []
    ensures LivePids(ps) ==
      LivePids(ps[..|ps| - 1]) + (if ps[|ps| - 1].state != Finished then {ps[|ps| - 1].pid} else {})
  {
    var n := |ps| - 1;
    var init := ps[..n];
    forall x | x in LivePids(ps)
      ensures x in LivePids(init) + (if ps[n].state != Finished then {ps[n].pid} else {})
    {
      var i :| 0 <= i < |ps| && ps[i].state != Finished && ps[i].pid == x;
      if i < n {
        assert init[i] == ps[i];
      }
    }
    forall x | x in LivePids(init)
      ensures x in LivePids(ps)
    {
      var i :| 0 <= i < n && init[i].state != Finished && init[i].pid == x;
      assert ps[i] == init[i];
    }
  }

  /** The pid-keyed views are keyed by exactly the unfinished processes' pids. */
  lemma {:induction false} LiveKeysExact(ps: seq<Process>)
    ensures LiveHeld(ps).Keys == LivePids(ps) && LivePlans(ps).Keys == LivePids(ps)
    decreases |ps|
  {
    if ps != [] {
      LiveKeysExact(ps[..|ps| - 1]);
      LivePidsSnoc(ps);
    }
  }

  /** With distinct pids, a live process's entries in the pid-keyed views are its own. */
  lemma {:induction false} LiveEntries(ps: seq<Process>, i: nat)
    requires DistinctPids(ps) && i < |ps| && ps[i].state != Finished
    ensures ps[i].pid in LiveHeld(ps) && LiveHeld(ps)[ps[i].pid] == ps[i].heldResources
    ensures ps[i].pid in LivePlans(ps) && LivePlans(ps)[ps[i].pid] == SetOf(ps[i].plan)
    decreases |ps|
  {
    var n := |ps| - 1;
    if i < n {
      var init := ps[..n];
      assert init[i] == ps[i];
      LiveEntries(init, i);
    }
  }

  /** With distinct pids, a process whose pid is live is itself unfinished. */
  lemma LiveIndex(ps: seq<Process>, i: nat)
    requires DistinctPids(ps) && i < |ps| && ps[i].pid in LivePids(ps)
    ensures ps[i].state != Finished
  {
    var j :| 0 <= j < |ps| && ps[j].state != Finished && ps[j].pid == ps[i].pid;
    assert i == j;
  }

  lemma LiveKeys(ps: seq<Process>)
    ensures LivePids(ps) <= LivePlans(ps).Keys
  {
    LiveKeysExact(ps);
  }

  function Stamp(t: nat): string
  {
    "[t=" + Text.Show(t) + "] "
  }

  function StrValues(xs: seq<string>): (vs: seq<Value>)
    ensures |vs| == |xs| && forall i :: 0 <= i < |xs| ==> vs[i] == VStr(xs[i])
  {
    if xs == [] then [] else [VStr(xs[0])] + StrValues(xs[1..])
  }

  /** The event of a grant; a Banker-mode grant says it was found safe. */
  function AcquireEvent(pid: Pid, rid: Rid, t: nat, banker: bool): (e: Event)
    ensures e.t == t && e.kind == Acquire && e.data.Some? && "pid" in e.data.value && e.data.value["pid"] == VStr(pid)
  {
    if banker then
      Event(t, Acquire, Stamp(t) + pid + " acquired " + rid + " (Banker's safe)",
            Some(map["pid" := VStr(pid), "resource" := VStr(rid), "banker_safe" := VBool(true)]))
    else
      Event(t, Acquire, Stamp(t) + pid + " acquired " + rid,
            Some(map["pid" := VStr(pid), "resource" := VStr(rid)]))
  }

  /** The event of a request for a resource another process holds. */
  function HeldEvent(pid: Pid, rid: Rid, t: nat, holder: Pid): (e: Event)
    ensures e.t == t && e.kind == BlockedOn && e.data.Some? && "pid" in e.data.value && e.data.value["pid"] == VStr(pid)
  {
    Event(t, BlockedOn, Stamp(t) + pid + " requested " + rid + " but it is held by " + holder + "; BLOCKED",
          Some(map["pid" := VStr(pid), "resource" := VStr(rid), "held_by" := VStr(holder)]))
  }

  /** The event of a Banker-mode refusal of a free resource. */
  function UnsafeEvent(pid: Pid, rid: Rid, t: nat): (e: Event)
    ensures e.t == t && e.kind == BlockedOn && e.data.Some? && "pid" in e.data.value && e.data.value["pid"] == VStr(pid)
  {
    Event(t, BlockedOn, Stamp(t) + pid + " requested " + rid + " but grant is unsafe by Banker's algorithm; BLOCKED",
          Some(map["pid" := VStr(pid), "resource" := VStr(rid), "held_by" := VNull, "banker_safe" := VBool(false)]))
  }

  /** The event of a release, listing the released ids in sorted order. */
  function ReleaseEvent(pid: Pid, t: nat, held: set<Rid>): (e: Event)
    ensures e.t == t && e.kind == Release && e.data.Some? && "pid" in e.data.value && e.data.value["pid"] == VStr(pid)
  {
    var ids := Text.Sorted(held);
    Event(t, Release, Stamp(t) + pid + " releasing " + Text.Join(ids, ", "),
          Some(map["pid" := VStr(pid), "resources" := VList(StrValues(ids))]))
  }

  class LockManager {
    const resources: map<Rid, Resource>
    const processes: seq<Process>
    const mode: string
    const logger: Option<EventLog>

    constructor (resources: map<Rid, Resource>, processes: seq<Process>, mode: string, logger: Option<EventLog>)
      ensures this.resources == resources && this.processes == processes
      ensures this.mode == mode && this.logger == logger
    {
      this.resources := resources;
      this.processes := processes;
      this.mode := mode;
      this.logger := logger;
    }

    /** The event sink, when there is one. */
    function Sinks(): set<EventLog>
    {
      if logger.Some? then {logger.value} else {}
    }

    /**
     * Every resource is filed under its own id, pids are distinct, a
     * resource names a process as its holder exactly when that process
     * lists it among its held resources, and every holder is one of the
     * processes.
     */
    ghost predicate Valid()
      reads processes`heldResources, resources.Values`heldBy
    {
      && (forall rid :: rid in resources ==> resources[rid].rid == rid)
      && DistinctPids(processes)
      && (forall i :: 0 <= i < |processes| ==> processes[i].heldResources <= resources.Keys)
      && (forall i, rid :: 0 <= i < |processes| && rid in resources ==>
            (resources[rid].heldBy == Some(processes[i].pid) <==> rid in processes[i].heldResources))
      && (forall rid :: rid in resources && resources[rid].heldBy.Some? ==> resources[rid].heldBy.value in Pids(processes))
    }

    /** The ids of the resources nobody holds. */
    function FreeIds(): set<Rid>
      reads resources.Values
    {
      set rid | rid in resources && resources[rid].heldBy.None?
    }

    /** Every live process's held set, with `rid` added to the requester's. */
    function SimulatedHeld(process: Process, rid: Rid): map<Pid, set<Rid>>
      reads processes, process
    {
      var live := LiveHeld(processes);
      var base := if process.pid in live then live[process.pid] else process.heldResources;
      live[process.pid := base + {rid}]
    }

    /** Granting `rid` to `process` leaves an order in which every live process can finish. */
    ghost predicate SafeToGrant(process: Process, rid: Rid)
      reads processes, process, resources.Values
    {
      Retirement.CanRetireAll(FreeIds() - {rid}, LivePlans(processes), SimulatedHeld(process, rid), LivePids(processes))
    }

    twostate predicate Logged(e: Event)
      reads Sinks()`events
    {
      logger.Some? ==> logger.value.events == old(logger.value.events) + [e]
    }

    twostate predicate Quiet()
      reads Sinks()`events
    {
      logger.Some? ==> logger.value.events == old(logger.value.events)
    }

    /** `rid` now belongs to `process`, which runs again with no outstanding request. */
    twostate predicate Acquired(process: Process, rid: Rid)
      requires rid in resources
      reads process, {resources[rid]}`heldBy
    {
      && resources[rid].heldBy == Some(process.pid)
      && process.heldResources == old(process.heldResources) + {rid}
      && process.state == Running && process.currentRequest == None
    }

    /** `process` is blocked waiting for `rid`; no ownership changes. */
    twostate predicate WaitsFor(process: Process, rid: Rid)
      requires rid in resources
      reads process, {resources[rid]}`heldBy
    {
      && resources[rid].heldBy == old(resources[rid].heldBy)
      && process.heldResources == old(process.heldResources)
      && process.state == Blocked && process.currentRequest == Some(rid)
    }

    twostate predicate Untouched(process: Process, rid: Rid)
      requires rid in resources
      reads process, {resources[rid]}`heldBy
    {
      && resources[rid].heldBy == old(resources[rid].heldBy)
      && process.heldResources == old(process.heldResources)
      && process.state == old(process.state) && process.currentRequest == old(process.currentRequest)
    }

    /** A request for a resource the requester already holds succeeds and changes nothing. */
    twostate predicate HeldOutcome(process: Process, rid: Rid, t: nat, granted: bool)
      requires rid in resources
      reads process, {resources[rid]}`heldBy, Sinks()`events
    {
      match old(resources[rid].heldBy)
      case None => true
      case Some(holder) =>
        if holder == process.pid then granted && Untouched(process, rid) && Quiet()
        else !granted && WaitsFor(process, rid) && Logged(HeldEvent(process.pid, rid, t, holder))
    }

    twostate predicate BasicOutcome(process: Process, rid: Rid, t: nat, granted: bool)
      requires rid in resources
      reads process, {resources[rid]}`heldBy, Sinks()`events
    {
      && HeldOutcome(process, rid, t, granted)
      && (old(resources[rid].heldBy).None? ==>
            granted && Acquired(process, rid) && Logged(AcquireEvent(process.pid, rid, t, false)))
    }

    twostate predicate BankerOutcome(process: Process, rid: Rid, t: nat, granted: bool, safe: bool)
      requires rid in resources
      reads process, {resources[rid]}`heldBy, Sinks()`events
    {
      && HeldOutcome(process, rid, t, granted)
      && (old(resources[rid].heldBy).None? && safe ==>
            granted && Acquired(process, rid) && Logged(AcquireEvent(process.pid, rid, t, true)))
      && (old(resources[rid].heldBy).None? && !safe ==>
            !granted && WaitsFor(process, rid) && Logged(UnsafeEvent(process.pid, rid, t)))
    }

    /** `_log`: forwards to the sink, if any, with an empty payload for a missing one. */
    method Log(message: string, t: nat, kind: EventKind, data: Option<Payload>)
      modifies Sinks()`events
      ensures Logged(Event(t, kind, message, if data.Some? && data.value != map[] then data else None))
    {
      if logger.Some? {
        var payload := if data.Some? then data.value else map[];
        logger.value.LogEvent(message, t, kind, Some(payload));
      }
    }

    method LogOne(e: Event, t: nat)
      requires e.t == t && e.data.Some? && "pid" in e.data.value
      modifies Sinks()`events
      ensures Logged(e)
    {
      Log(e.message, t, e.kind, e.data);
    }

    /** Dispatches on the mode: Banker admission in "banker" mode, immediate grants otherwise. */
    method Request(process: Process, rid: Rid, t: nat) returns (granted: bool)
      requires Valid() && process in processes && rid in resources
      modifies process`heldResources, process`state, process`currentRequest, {resources[rid]}`heldBy, Sinks()`events
      ensures Valid()
      ensures mode == "banker" ==> BankerOutcome(process, rid, t, granted, old(SafeToGrant(process, rid)))
      ensures mode != "banker" ==> BasicOutcome(process, rid, t, granted)
      ensures process.state == old(process.state) || process.state == Running || process.state == Blocked
      ensures process.currentRequest == old(process.currentRequest) || process.currentRequest == None ||
              process.currentRequest == Some(rid)
      ensures logger.Some? ==> old(logger.value.events) <= logger.value.events
    {
      if mode == "banker" {
        granted := RequestBanker(process, rid, t);
      } else {
        granted := RequestBasic(process, rid, t);
      }
    }

    /** Grants a free resource, succeeds again for the holder, and blocks the requester otherwise. */
    method RequestBasic(process: Process, rid: Rid, t: nat) returns (granted: bool)
      requires Valid() && process in processes && rid in resources
      modifies process`heldResources, process`state, process`currentRequest, {resources[rid]}`heldBy, Sinks()`events
      ensures Valid()
      ensures BasicOutcome(process, rid, t, granted)
    {
      var resource := resources[rid];
      if resource.heldBy.None? {
        Grant(process, rid, t, false);
        return true;
      }
      if resource.heldBy == Some(process.pid) {
        return true;
      }
      var holder := resource.heldBy.value;
      Block(process, rid, t, HeldEvent(process.pid, rid, t, holder));
      return false;
    }

    /** As RequestBasic, except that a free resource is granted only when the grant is safe. */
    method RequestBanker(process: Process, rid: Rid, t: nat) returns (granted: bool)
      requires Valid() && process in processes && rid in resources
      modifies process`heldResources, process`state, process`currentRequest, {resources[rid]}`heldBy, Sinks()`events
      ensures Valid()
      ensures BankerOutcome(process, rid, t, granted, old(SafeToGrant(process, rid)))
    {
      var resource := resources[rid];
      if resource.heldBy == Some(process.pid) {
        return true;
      }
      if resource.heldBy.None? {
        var safe := IsSafeToGrant(process, rid);
        if safe {
          Grant(process, rid, t, true);
          return true;
        }
        Block(process, rid, t, UnsafeEvent(process.pid, rid, t));
        return false;
      }
      var holder := resource.heldBy.value;
      Block(process, rid, t, HeldEvent(process.pid, rid, t, holder));
      return false;
    }

    /** The shared blocking branch: the process waits for `rid` and the event `e` is logged. */
    method Block(process: Process, rid: Rid, t: nat, e: Event)
      requires Valid() && process in processes && rid in resources
      requires e.t == t && e.data.Some? && "pid" in e.data.value
      modifies process`state, process`currentRequest, Sinks()`events
      ensures Valid()
      ensures WaitsFor(process, rid) && Logged(e)
    {
      process.MarkBlocked(rid);
      LogOne(e, t);
    }

    /** The shared grant branch of both request paths. */
    method Grant(process: Process, rid: Rid, t: nat, banker: bool)
      requires Valid() && process in processes && rid in resources && resources[rid].heldBy.None?
      modifies process`heldResources, process`state, process`currentRequest, {resources[rid]}`heldBy, Sinks()`events
      ensures Valid()
      ensures Acquired(process, rid) && Logged(AcquireEvent(process.pid, rid, t, banker))
    {
      Take(process, rid);
      process.Resume();
      LogOne(AcquireEvent(process.pid, rid, t, banker), t);
    }

    /** The ownership half of a grant: the free resource names `process` as holder, and `process` lists it. */
    method Take(process: Process, rid: Rid)
      requires Valid() && process in processes && rid in resources && resources[rid].heldBy.None?
      modifies process`heldResources, {resources[rid]}`heldBy
      ensures Valid()
      ensures resources[rid].heldBy == Some(process.pid) && process.heldResources == old(process.heldResources) + {rid}
    {
      var resource := resources[rid];
      resource.heldBy := Some(process.pid);
      process.heldResources := process.heldResources + {rid};
    }

    /**
     * `_is_safe_to_grant`: retires processes greedily, always the first
     * one in list order whose missing resources are all available, and
     * answers whether every live process was retired.
     */
    method IsSafeToGrant(process: Process, rid: Rid) returns (safe: bool)
      requires DistinctPids(processes)
      ensures safe == SafeToGrant(process, rid)
    {
      var simulatedHeld := SimulatedHeld(process, rid);
      var available := FreeIds() - {rid};
      var unfinished := LivePids(processes);
      ghost var order: seq<Pid> := [];
      ScanStart(process, rid);
      var progress := true;
      while progress
        invariant ScanInv(process, rid, simulatedHeld, available, unfinished, order)
        invariant !progress ==> Stuck(simulatedHeld, available, unfinished, |processes|)
        decreases |unfinished| + (if progress then 1 else 0)
      {
        progress := false;
        var found := FirstRetirable(simulatedHeld, available, unfinished);
        if found.Some? {
          var proc := processes[found.value];
          var held := Retirement.Get(simulatedHeld, proc.pid);
          ScanStep(process, rid, simulatedHeld, available, unfinished, order, found.value);
          progress := true;
          unfinished := unfinished - {proc.pid};
          available := available + held;
          order := order + [proc.pid];
        }
      }
      ScanVerdict(process, rid, simulatedHeld, available, unfinished, order);
      safe := unfinished == {};
    }

    /**
     * What the scan keeps: the processes it has retired, in `order`, are
     * exactly the live ones no longer unfinished, each covered in turn, and
     * `available` is the free set plus everything they gave back.
     */
    ghost predicate ScanInv(process: Process, rid: Rid, simulatedHeld: map<Pid, set<Rid>>, available: set<Rid>,
                            unfinished: set<Pid>, order: seq<Pid>)
      reads processes, process, resources.Values
    {
      && DistinctPids(processes)
      && simulatedHeld == SimulatedHeld(process, rid)
      && unfinished <= LivePids(processes) <= LivePlans(processes).Keys
      && (forall p :: p in LivePids(processes) && p !in unfinished ==> p in order)
      && Retirement.Covers(FreeIds() - {rid}, LivePlans(processes), simulatedHeld, LivePids(processes), order)
      && available == FreeIds() - {rid} + Retirement.Released(simulatedHeld, order)
    }

    /** Before the first pass nothing is retired and every live process is unfinished. */
    lemma ScanStart(process: Process, rid: Rid)
      requires DistinctPids(processes)
      ensures ScanInv(process, rid, SimulatedHeld(process, rid), FreeIds() - {rid}, LivePids(processes), [])
    {
      LiveKeys(processes);
    }

    /** Retiring the unfinished, retirable process at index `i` keeps the scan invariant. */
    lemma ScanStep(process: Process, rid: Rid, simulatedHeld: map<Pid, set<Rid>>, available: set<Rid>,
                   unfinished: set<Pid>, order: seq<Pid>, i: nat)
      requires ScanInv(process, rid, simulatedHeld, available, unfinished, order)
      requires i < |processes| && processes[i].pid in unfinished && Retirable(processes[i], simulatedHeld, available)
      ensures ScanInv(process, rid, simulatedHeld, available + Retirement.Get(simulatedHeld, processes[i].pid),
                      unfinished - {processes[i].pid}, order + [processes[i].pid])
    {
      var avail0, plans, pending := FreeIds() - {rid}, LivePlans(processes), LivePids(processes);
      PlanAt(i);
      Retirement.CoversExtend(avail0, plans, simulatedHeld, pending, order, processes[i].pid);
      Retirement.RetiredStep(pending, unfinished, order, processes[i].pid);
    }

    /** When the scan stops, the grant is safe exactly when no live process is left unretired. */
    lemma ScanVerdict(process: Process, rid: Rid, simulatedHeld: map<Pid, set<Rid>>, available: set<Rid>,
                      unfinished: set<Pid>, order: seq<Pid>)
      requires ScanInv(process, rid, simulatedHeld, available, unfinished, order)
      requires Stuck(simulatedHeld, available, unfinished, |processes|)
      ensures (unfinished == {}) == SafeToGrant(process, rid)
    {
      var avail0, plans, pending := FreeIds() - {rid}, LivePlans(processes), LivePids(processes);
      if unfinished == {} {
        assert Retirement.IsRetireOrder(avail0, plans, simulatedHeld, pending, order);
      } else {
        Retirement.RetirableImpliesProgress(avail0, plans, simulatedHeld, pending, order, unfinished);
        forall p | p in unfinished
          ensures !(Retirement.Need(plans, simulatedHeld, p) <= available)
        {
          var i :| 0 <= i < |processes| && processes[i].state != Finished && processes[i].pid == p;
          PlanAt(i);
        }
      }
    }

    /** Every resource in the plan of `p` that it does not hold is available. */
    predicate Retirable(p: Process, simulatedHeld: map<Pid, set<Rid>>, available: set<Rid>)
    {
      SetOf(p.plan) - Retirement.Get(simulatedHeld, p.pid) <= available
    }

    /** No unfinished process can be retired with `available`. */
    predicate Stuck(simulatedHeld: map<Pid, set<Rid>>, available: set<Rid>, unfinished: set<Pid>, upTo: nat)
      requires upTo <= |processes|
    {
      forall i :: 0 <= i < upTo && processes[i].pid in unfinished ==> !Retirable(processes[i], simulatedHeld, available)
    }

    /** One pass of the scan: the first process in list order that is unfinished and retirable. */
    method FirstRetirable(simulatedHeld: map<Pid, set<Rid>>, available: set<Rid>, unfinished: set<Pid>)
      returns (found: Option<nat>)
      ensures found.Some? ==>
        found.value < |processes| && processes[found.value].pid in unfinished &&
        Retirable(processes[found.value], simulatedHeld, available) &&
        Stuck(simulatedHeld, available, unfinished, found.value)
      ensures found.None? ==> Stuck(simulatedHeld, available, unfinished, |processes|)
    {
      for idx := 0 to |processes|
        invariant Stuck(simulatedHeld, available, unfinished, idx)
      {
        var proc := processes[idx];
        if proc.pid !in unfinished {
          continue;
        }
        var held := Retirement.Get(simulatedHeld, proc.pid);
        var needed := SetOf(proc.plan) - held;
        if needed <= available {
          return Some(idx);
        }
      }
      return None;
    }

    /** A live process's pid-keyed plan entry is its own plan. */
    lemma PlanAt(i: nat)
      requires DistinctPids(processes) && i < |processes| && processes[i].pid in LivePids(processes)
      ensures processes[i].state != Finished && processes[i].pid in LivePlans(processes)
      ensures LivePlans(processes)[processes[i].pid] == SetOf(processes[i].plan)
    {
      LiveIndex(processes, i);
      LiveEntries(processes, i);
    }

    /**
     * `release_all`: frees every resource the process holds, clears its
     * record and marks it FINISHED; a release event is logged only when
     * it held something.
     */
    method ReleaseAll(process: Process, t: nat)
      requires Valid() && process in processes
      modifies process`heldResources, process`state, process`currentRequest, resources.Values`heldBy, Sinks()`events
      ensures Valid()
      ensures forall rid :: rid in resources ==>
        resources[rid].heldBy == (if old(resources[rid].heldBy) == Some(process.pid) then None else old(resources[rid].heldBy))
      ensures process.heldResources == {} && process.currentRequest == None && process.state == Finished
      ensures old(process.heldResources) != {} ==> Logged(ReleaseEvent(process.pid, t, old(process.heldResources)))
      ensures old(process.heldResources) == {} ==> Quiet()
      ensures logger.Some? ==> old(logger.value.events) <= logger.value.events
    {
      if process.heldResources != {} {
        LogOne(ReleaseEvent(process.pid, t, process.heldResources), t);
      }
      FreeAndFinish(process);
    }

    /** The part of `release_all` after the log entry: free what the process holds, then clear its record. */
    method FreeAndFinish(process: Process)
      requires Valid() && process in processes
      modifies process`heldResources, process`state, process`currentRequest, resources.Values`heldBy
      ensures Valid()
      ensures forall rid :: rid in resources ==>
        resources[rid].heldBy == (if old(resources[rid].heldBy) == Some(process.pid) then None else old(resources[rid].heldBy))
      ensures process.heldResources == {} && process.currentRequest == None && process.state == Finished
    {
      var toRelease := process.heldResources;
      while toRelease != {}
        invariant toRelease <= process.heldResources
        invariant forall rid :: rid in resources ==>
          resources[rid].heldBy ==
            (if old(resources[rid].heldBy) == Some(process.pid) && rid !in toRelease then None
             else old(resources[rid].heldBy))
        modifies resources.Values`heldBy
        decreases toRelease
      {
        var rid :| rid in toRelease;
        var resource := resources[rid];
        if resource.heldBy == Some(process.pid) {
          resource.heldBy := None;
        }
        toRelease := toRelease - {rid};
      }
      process.Finish();
      ReleaseKeepsValid(process);
    }

    /** Freeing what `process` held and clearing its record keeps ownership consistent. */
    twostate lemma ReleaseKeepsValid(process: Process)
      requires old(Valid()) && process in processes
      requires forall rid :: rid in resources ==>
        resources[rid].heldBy == (if old(resources[rid].heldBy) == Some(process.pid) then None else old(resources[rid].heldBy))
      requires process.heldResources == {}
      requires forall i :: 0 <= i < |processes| && processes[i] != process ==>
        processes[i].heldResources == old(processes[i].heldResources)
      ensures Valid()
    {
    }
  }
}
