/**
 * The discrete-step scheduler (fs_deadlock_sim/simulator.py). Each step
 * visits the processes in list order (re-requesting for a BLOCKED one,
 * completing or advancing a RUNNING one), completes every RUNNING process
 * that now holds its whole plan, records a state-table entry and asks the
 * deadlock detector about the state; a reported cycle marks its processes
 * DEADLOCKED and ends the run. The detector is a parameter: a function of
 * the state table.
 */
module Simulator {
  import opened Wrappers
  import opened Models
  import opened Events
  import Text
  import LM = LockManager
  import opened Metrics
  import Scenarios

  /** One row of the state table: pid, held ids in sorted order, outstanding request, state. */
  datatype Row = Row(pid: Pid, held: seq<Rid>, requested: Option<Rid>, state: ProcessState)

  /** One state-table entry: the step and a row per process, in list order. */
  datatype StateRecord = StateRecord(t: nat, processes: seq<Row>)

  /** The detector's answer: whether there is a deadlock, the wait-for edges, and a cycle of pids. */
  datatype Detection = Detection(deadlock: bool, edges: seq<(Pid, Pid)>, cycle: seq<Pid>)

  datatype DeadlockInfo = DeadlockInfo(t: nat, edges: seq<(Pid, Pid)>, cycle: seq<Pid>)

  /** What a step did with one process. */
  datatype Action =
    | Skip                            // terminal, or nothing to do
    | Retry(rid: Rid, granted: bool)  // a BLOCKED process asked again for its outstanding request
    | Complete                        // a RUNNING process holding its whole plan finished
    | Ask(rid: Rid, granted: bool)    // a RUNNING process asked for its next resource

  /** Python truthiness of an optional id: a missing id and the empty id are both false. */
  predicate Truthy(r: Option<Rid>)
  {
    r.Some? && r.value != ""
  }

  /** What a step's acquisition pass looks at in a process before its turn. */
  datatype View = View(state: ProcessState, request: Option<Rid>, hasAll: bool, next: Option<Rid>)

  function ViewOf(p: Process, ordered: bool): View
    reads p`state, p`currentRequest, p`heldResources
  {
    View(p.state, p.currentRequest, p.HasAllResources(), p.NextRequest(ordered))
  }

  /** The views of the first `k` processes. */
  function Views(ps: seq<Process>, ordered: bool, k: nat): (vs: seq<View>)
    requires k <= |ps|
    reads ps`state, ps`currentRequest, ps`heldResources
    ensures |vs| == k && forall i {:trigger vs[i]} :: 0 <= i < k ==> vs[i] == ViewOf(ps[i], ordered)
  {
    if k == 0 then [] else Views(ps, ordered, k - 1) + [ViewOf(ps[k - 1], ordered)]
  }

  /**
   * The action the acquisition pass takes for a process seen as `v`: a
   * BLOCKED process with a (truthy) outstanding request asks for it again;
   * a RUNNING one completes when it holds its whole plan and otherwise
   * asks for its next resource; anything else is skipped.
   */
  predicate Planned(a: Action, v: View)
  {
    if v.state == Blocked && Truthy(v.request) then a.Retry? && a.rid == v.request.value
    else if v.state == Running && v.hasAll then a == Action.Complete
    else if v.state == Running && Truthy(v.next) then a.Ask? && a.rid == v.next.value
    else a == Skip
  }

  /** Each process's action is the planned one for its view. */
  predicate Fits(actions: seq<Action>, views: seq<View>)
  {
    |actions| == |views| && forall i :: 0 <= i < |views| ==> Planned(actions[i], views[i])
  }

  /** The first `k` processes' actions are the planned ones for their views. */
  predicate FitsUpTo(actions: seq<Action>, views: seq<View>, k: nat)
  {
    |actions| == k <= |views| && forall i :: 0 <= i < k ==> Planned(actions[i], views[i])
  }

  /** One more visit in list order extends the fit by one process; all of them make a fit. */
  lemma FitsSnoc(actions: seq<Action>, views: seq<View>, k: nat, a: Action)
    requires FitsUpTo(actions, views, k) && k < |views| && Planned(a, views[k])
    ensures FitsUpTo(actions + [a], views, k + 1)
    ensures k + 1 == |views| ==> Fits(actions + [a], views)
  {
    forall i | 0 <= i < k + 1
      ensures Planned((actions + [a])[i], views[i])
    {
      if i < k {
        assert (actions + [a])[i] == actions[i];
      }
    }
  }

  /** A process's mutable fields: its state, the ids it holds and its outstanding request. */
  datatype Snap = Snap(state: ProcessState, held: set<Rid>, request: Option<Rid>)

  function SnapOf(p: Process): Snap
    reads p`state, p`heldResources, p`currentRequest
  {
    Snap(p.state, p.heldResources, p.currentRequest)
  }

  /** The fields of the first `k` processes. */
  function Snaps(ps: seq<Process>, k: nat): (ss: seq<Snap>)
    requires k <= |ps|
    reads ps`state, ps`heldResources, ps`currentRequest
    ensures |ss| == k && forall i {:trigger ss[i]} :: 0 <= i < k ==> ss[i] == SnapOf(ps[i])
  {
    if k == 0 then [] else Snaps(ps, k - 1) + [SnapOf(ps[k - 1])]
  }

  /**
   * What a request for `rid` answered `granted` did to the requester: a
   * grant adds `rid` to its held ids and lets it run with no outstanding
   * request (or changes nothing when it already held `rid`); a refusal
   * blocks it on `rid` with its held ids unchanged.
   */
  predicate Requested(before: Snap, after: Snap, rid: Rid, granted: bool)
  {
    if granted then after == Snap(Running, before.held + {rid}, None) || (rid in before.held && after == before)
    else after == Snap(Blocked, before.held, Some(rid))
  }

  /** The effect of a process's turn on its fields, for the action the turn took. */
  predicate Did(before: Snap, after: Snap, a: Action)
  {
    match a
    case Skip => after == before
    case Complete => after == Snap(Finished, {}, None)
    case Retry(rid, granted) => Requested(before, after, rid, granted)
    case Ask(rid, granted) => Requested(before, after, rid, granted)
  }

  /**
   * Every process's fields when process `k` takes its turn in the
   * acquisition pass: as `mid` (after their own turn) for the processes
   * before it, as `before` (at the start of the step) for the rest.
   */
  function AtTurn(before: seq<Snap>, mid: seq<Snap>, k: nat): (at: seq<Snap>)
    requires k <= |mid| && k <= |before|
    ensures |at| == |before| && forall j :: 0 <= j < |before| ==> at[j] == if j < k then mid[j] else before[j]
  {
    seq(|before|, j requires 0 <= j < |before| => if j < k then mid[j] else before[j])
  }

  /**
   * The lock manager's answer to process `k`'s request for `rid`, against
   * what every process holds (`at`): granted when `k` already holds it,
   * refused when another process holds it, and, outside "banker" mode,
   * granted whenever no other process holds it.
   */
  predicate Obeys(at: seq<Snap>, k: nat, rid: Rid, granted: bool, banker: bool)
    requires k < |at|
  {
    var othersFree := forall j :: 0 <= j < |at| && j != k ==> rid !in at[j].held;
    && (rid in at[k].held ==> granted)
    && (granted ==> othersFree)
    && (!banker && othersFree ==> granted)
  }

  /** Every request of the acquisition pass, in `actions`, was answered by the lock manager's rule at its turn. */
  predicate Ruled(before: seq<Snap>, mid: seq<Snap>, actions: seq<Action>, banker: bool)
    requires |actions| <= |mid| && |actions| <= |before|
  {
    forall k :: 0 <= k < |actions| && (actions[k].Retry? || actions[k].Ask?) ==>
      Obeys(AtTurn(before, mid, k), k, actions[k].rid, actions[k].granted, banker)
  }

  /**
   * The lock manager's answer, decided on the holder of `rid`, follows the
   * rule on the holdings when the holder agrees with them.
   */
  lemma ObeysByHolder(at: seq<Snap>, k: nat, rid: Rid, holder: Option<Pid>, pid: Pid, granted: bool, banker: bool)
    requires k < |at|
    requires holder == Some(pid) <==> rid in at[k].held
    requires forall j :: 0 <= j < |at| && j != k && rid in at[j].held ==> holder.Some? && holder != Some(pid)
    requires holder.Some? && holder != Some(pid) ==> exists j :: 0 <= j < |at| && j != k && rid in at[j].held
    requires holder == Some(pid) ==> granted
    requires holder.Some? && holder != Some(pid) ==> !granted
    requires holder.None? && !banker ==> granted
    ensures Obeys(at, k, rid, granted, banker)
  {
  }

  /** A turn answered by the rule at its own turn extends the rule to one more action. */
  lemma RuledSnoc(before: seq<Snap>, mid: seq<Snap>, actions: seq<Action>, banker: bool, a: Action, m: Snap)
    requires |actions| == |mid| < |before| && Ruled(before, mid, actions, banker)
    requires (a.Retry? || a.Ask?) ==> Obeys(AtTurn(before, mid, |mid|), |mid|, a.rid, a.granted, banker)
    ensures Ruled(before, mid + [m], actions + [a], banker)
  {
    var mid', actions' := mid + [m], actions + [a];
    forall k | 0 <= k < |actions'|
      ensures AtTurn(before, mid', k) == AtTurn(before, mid, k) && actions'[k] == if k < |actions| then actions[k] else a
    {
      assert forall j :: 0 <= j < k ==> mid'[j] == mid[j];
    }
  }

  /**
   * Part way through the acquisition pass, with processes' fields `now`:
   * the first `i` have had their turn as `done` says, leaving them as in
   * `mid`, every request among them was answered by the rule at its turn,
   * and the rest still look as in `before`.
   */
  predicate Tracked(now: seq<Snap>, before: seq<Snap>, done: seq<Action>, mid: seq<Snap>, i: nat, banker: bool)
  {
    && |before| == |now| && |done| == |mid| == i <= |now|
    && (forall j :: 0 <= j < i ==> now[j] == mid[j] && Did(before[j], mid[j], done[j]))
    && (forall j :: i <= j < |now| ==> now[j] == before[j])
    && Ruled(before, mid, done, banker)
  }

  /** Part way through the pass, the fields now are the ones process `i` sees at its turn. */
  lemma AtTurnTracked(now: seq<Snap>, before: seq<Snap>, done: seq<Action>, mid: seq<Snap>, i: nat, banker: bool)
    requires Tracked(now, before, done, mid, i, banker) && i < |now|
    ensures now == AtTurn(before, mid, i)
  {
  }

  /** A turn that changes only process `i`, as its action says and by the rule at its turn, extends the pass by one. */
  lemma TrackedSnoc(now: seq<Snap>, next: seq<Snap>, before: seq<Snap>, done: seq<Action>, mid: seq<Snap>, i: nat,
                    banker: bool, a: Action)
    requires Tracked(now, before, done, mid, i, banker) && i < |now| == |next|
    requires forall j :: 0 <= j < |next| && j != i ==> next[j] == now[j]
    requires Did(now[i], next[i], a)
    requires (a.Retry? || a.Ask?) ==> Obeys(now, i, a.rid, a.granted, banker)
    ensures Tracked(next, before, done + [a], mid + [next[i]], i + 1, banker)
  {
    AtTurnTracked(now, before, done, mid, i, banker);
    RuledSnoc(before, mid, done, banker, a, next[i]);
  }

  /** A RUNNING process that holds its whole plan: the completion sweep completes it. */
  predicate Ripe(s: Snap, plan: seq<Rid>)
  {
    s.state == Running && forall rid :: rid in plan ==> rid in s.held
  }

  /** The completion sweep's effect on a process: one RUNNING with its whole plan held completes; any other is left alone. */
  function Swept(s: Snap, plan: seq<Rid>): Snap
  {
    if Ripe(s, plan) then Snap(Finished, {}, None) else s
  }

  /** How many of the snapshots are FINISHED. */
  function Finishes(ss: seq<Snap>): (n: nat)
    ensures n <= |ss|
  {
    if ss == [] then 0 else Finishes(ss[..|ss| - 1]) + (if ss[|ss| - 1].state == Finished then 1 else 0)
  }

  /** How many of the first `k` processes are FINISHED. */
  function FinishedAmong(ps: seq<Process>, k: nat): nat
    requires k <= |ps|
    reads ps`state
  {
    if k == 0 then 0 else FinishedAmong(ps, k - 1) + (if ps[k - 1].state == Finished then 1 else 0)
  }

  /** Counting the processes and counting their snapshots agree. */
  lemma {:induction false} FinishedAmongSnaps(ps: seq<Process>, k: nat)
    requires k <= |ps|
    ensures FinishedAmong(ps, k) == Finishes(Snaps(ps, k))
  {
    if k > 0 {
      FinishedAmongSnaps(ps, k - 1);
      assert Snaps(ps, k)[..k - 1] == Snaps(ps, k - 1);
    }
  }

  /** How many of the actions complete their process. */
  function Completes(actions: seq<Action>): (n: nat)
    ensures n <= |actions|
  {
    if actions == [] then 0
    else Completes(actions[..|actions| - 1]) + (if actions[|actions| - 1] == Action.Complete then 1 else 0)
  }

  /** How many of the snapshots are ripe for the completion sweep under their plans. */
  function Ripened(ss: seq<Snap>, plans: seq<seq<Rid>>): (n: nat)
    requires |plans| == |ss|
    ensures n <= |ss|
  {
    if ss == [] then 0
    else Ripened(ss[..|ss| - 1], plans[..|ss| - 1]) + (if Ripe(ss[|ss| - 1], plans[|ss| - 1]) then 1 else 0)
  }

  /** The processes' plans, in list order. */
  function Plans(ps: seq<Process>): (plans: seq<seq<Rid>>)
    ensures |plans| == |ps| && forall i {:trigger plans[i]} :: 0 <= i < |ps| ==> plans[i] == ps[i].plan
  {
    if ps == [] then [] else Plans(ps[..|ps| - 1]) + [ps[|ps| - 1].plan]
  }

  lemma CompletesSnoc(actions: seq<Action>, a: Action)
    ensures Completes(actions + [a]) == Completes(actions) + (if a == Action.Complete then 1 else 0)
  {
    assert (actions + [a])[..|actions|] == actions;
  }

  lemma RipenedSnoc(ss: seq<Snap>, plans: seq<seq<Rid>>, i: nat)
    requires |plans| == |ss| && i < |ss|
    ensures Ripened(ss[..i + 1], plans[..i + 1]) == Ripened(ss[..i], plans[..i]) + (if Ripe(ss[i], plans[i]) then 1 else 0)
  {
    assert ss[..i + 1][..i] == ss[..i] && plans[..i + 1][..i] == plans[..i];
  }

  /** No process has finished yet: none counts. */
  lemma {:induction false} FinishesNone(ss: seq<Snap>)
    requires forall i :: 0 <= i < |ss| ==> ss[i].state != Finished
    ensures Finishes(ss) == 0
  {
    if ss != [] {
      FinishesNone(ss[..|ss| - 1]);
    }
  }

  /** Two lists FINISHED at the same places count as many FINISHED. */
  lemma {:induction false} FinishesSame(a: seq<Snap>, b: seq<Snap>)
    requires |a| == |b| && forall i :: 0 <= i < |a| ==> (a[i].state == Finished <==> b[i].state == Finished)
    ensures Finishes(a) == Finishes(b)
  {
    if a != [] {
      FinishesSame(a[..|a| - 1], b[..|b| - 1]);
    }
  }

  /**
   * An acquisition pass whose every process took its planned action adds
   * one FINISHED process per completion and no other: a completing process
   * was RUNNING, and a retry or a request leaves its process RUNNING or BLOCKED.
   */
  lemma {:induction false} FinishesActed(before: seq<Snap>, mid: seq<Snap>, actions: seq<Action>, views: seq<View>)
    requires |before| == |mid| == |actions| == |views|
    requires forall i :: 0 <= i < |views| ==> Planned(actions[i], views[i]) && views[i].state == before[i].state
    requires forall i :: 0 <= i < |views| ==> Did(before[i], mid[i], actions[i])
    ensures Finishes(mid) == Finishes(before) + Completes(actions)
  {
    if before != [] {
      var n := |before| - 1;
      FinishesActed(before[..n], mid[..n], actions[..n], views[..n]);
      assert Planned(actions[n], views[n]) && Did(before[n], mid[n], actions[n]);
    }
  }

  /** The completion sweep adds one FINISHED process per ripe one and no other. */
  lemma {:induction false} FinishesSwept(before: seq<Snap>, after: seq<Snap>, plans: seq<seq<Rid>>)
    requires |before| == |after| == |plans|
    requires forall i :: 0 <= i < |before| ==> after[i] == Swept(before[i], plans[i])
    ensures Finishes(after) == Finishes(before) + Ripened(before, plans)
  {
    if before != [] {
      var n := |before| - 1;
      FinishesSwept(before[..n], after[..n], plans[..n]);
    }
  }

  /** A state-table row shows process `pid` with fields `s`. */
  ghost predicate Shows(r: Row, pid: Pid, s: Snap)
  {
    r.pid == pid && r.state == s.state && r.requested == s.request && forall x :: x in r.held <==> x in s.held
  }

  /** Every row of a state-table entry is FINISHED. */
  predicate RowsFinished(rows: seq<Row>)
  {
    forall j :: 0 <= j < |rows| ==> rows[j].state == Finished
  }

  function RowOf(p: Process): (r: Row)
    reads p
    ensures r.pid == p.pid && r.requested == p.currentRequest && r.state == p.state
    ensures forall x :: x in r.held <==> x in p.heldResources
  {
    Row(p.pid, Text.Sorted(p.heldResources), p.currentRequest, p.state)
  }

  /** The rows of the first `k` processes. */
  function Rows(ps: seq<Process>, k: nat): (rows: seq<Row>)
    requires k <= |ps|
    reads ps
    ensures |rows| == k && forall i {:trigger rows[i]} :: 0 <= i < k ==> rows[i] == RowOf(ps[i])
  {
    if k == 0 then [] else Rows(ps, k - 1) + [RowOf(ps[k - 1])]
  }

  /**
   * Wait-for edges leave BLOCKED processes only, so every pid of a
   * reported cycle is the pid of a BLOCKED row.
   */
  ghost predicate CyclesAmongBlocked(detect: seq<Row> -> Detection)
  {
    forall rows: seq<Row>, pid :: pid in detect(rows).cycle ==>
      exists k :: 0 <= k < |rows| && rows[k].pid == pid && rows[k].state == Blocked
  }

  /** `{r.rid: r for r in resources}`: every id of `rs` is a key, mapped to a resource of `rs` with that id. */
  function ByRid(rs: seq<Resource>): map<Rid, Resource>
  {
    if rs == [] then map[] else ByRid(rs[..|rs| - 1])[rs[|rs| - 1].rid := rs[|rs| - 1]]
  }

  lemma {:induction false} ByRidKeys(rs: seq<Resource>)
    ensures forall k :: 0 <= k < |rs| ==> rs[k].rid in ByRid(rs)
    ensures forall rid :: rid in ByRid(rs) ==> ByRid(rs)[rid].rid == rid && ByRid(rs)[rid] in rs
  {
    if rs != [] {
      var n := |rs| - 1;
      var front := rs[..n];
      ByRidKeys(front);
      forall k | 0 <= k < n
        ensures rs[k].rid in ByRid(rs)
      {
        assert front[k] == rs[k];
      }
      forall rid | rid in ByRid(rs) && rid != rs[n].rid
        ensures ByRid(rs)[rid] in rs
      {
        assert rid in ByRid(front) && ByRid(rs)[rid] == ByRid(front)[rid] && ByRid(front)[rid] in front;
        var k :| 0 <= k < |front| && front[k] == ByRid(front)[rid];
        assert rs[k] == front[k];
      }
    }
  }

  /** The comprehension keeps the last resource with each id. */
  lemma {:induction false} ByRidLastWins(rs: seq<Resource>, k: nat)
    requires k < |rs| && forall j :: k < j < |rs| ==> rs[j].rid != rs[k].rid
    ensures rs[k].rid in ByRid(rs) && ByRid(rs)[rs[k].rid] == rs[k]
  {
    var n := |rs| - 1;
    if k < n {
      assert rs[..n][k] == rs[k];
      ByRidLastWins(rs[..n], k);
    }
  }

  predicate AllFinished(ps: seq<Process>)
    reads ps`state
  {
    forall i :: 0 <= i < |ps| ==> ps[i].state == Finished
  }

  function StartMessage(processes: nat, resources: nat, mode: string): string
  {
    "Running simulation with " + Text.Show(processes) + " processes and " + Text.Show(resources) +
    " resources in mode '" + mode + "'"
  }

  /** The event of a completion, listing what the process held in sorted order. */
  function CompleteEvent(pid: Pid, t: nat, held: set<Rid>): (e: Event)
    ensures e.t == t && e.kind == Events.Complete && e.data.Some? && "pid" in e.data.value && e.data.value["pid"] == VStr(pid)
  {
    Event(t, Events.Complete, LM.Stamp(t) + pid + " completed its work; releasing resources",
          Some(map["pid" := VStr(pid), "held" := VList(LM.StrValues(Text.Sorted(held)))]))
  }

  /** What the lock manager's `release_all` logs: one release event, and only when something was held. */
  function ReleaseLog(pid: Pid, t: nat, held: set<Rid>): (es: seq<Event>)
    ensures |es| == (if held == {} then 0 else 1)
  {
    if held != {} then [LM.ReleaseEvent(pid, t, held)] else []
  }

  /** Each wait-for edge as a two-element list of pids. */
  function EdgeValues(edges: seq<(Pid, Pid)>): (vs: seq<Value>)
    ensures |vs| == |edges| && forall i :: 0 <= i < |edges| ==> vs[i] == VList([VStr(edges[i].0), VStr(edges[i].1)])
  {
    if edges == [] then [] else [VList([VStr(edges[0].0), VStr(edges[0].1)])] + EdgeValues(edges[1..])
  }

  function InfoPayload(info: DeadlockInfo): Payload
  {
    map["t" := VInt(info.t),
        "edges" := VList(EdgeValues(info.edges)),
        "cycle" := VList(LM.StrValues(info.cycle))]
  }

  function DeadlockEvent(info: DeadlockInfo): Event
  {
    Event(info.t, Events.Deadlock, "*** Deadlock detected at t=" + Text.Show(info.t) + " ***", Some(InfoPayload(info)))
  }

  function FinishEvent(t: nat): Event
  {
    Event(t, Finish, "All processes finished by t=" + Text.Show(t), None)
  }

  /** A pid of `cycle` found among the BLOCKED rows of `ps`'s state table is, by distinct pids, the pid of a BLOCKED process. */
  lemma CycleBlocked(ps: seq<Process>, rows: seq<Row>, cycle: seq<Pid>)
    requires DistinctPids(ps) && |rows| == |ps|
    requires forall k :: 0 <= k < |ps| ==> rows[k].pid == ps[k].pid
    requires forall pid :: pid in cycle ==> exists k :: 0 <= k < |rows| && rows[k].pid == pid && rows[k].state == Blocked
    ensures forall i :: 0 <= i < |ps| && ps[i].pid in cycle ==> rows[i].state == Blocked
  {
    forall i | 0 <= i < |ps| && ps[i].pid in cycle
      ensures rows[i].state == Blocked
    {
      var k :| 0 <= k < |rows| && rows[k].pid == ps[i].pid && rows[k].state == Blocked;
      assert k == i;
    }
  }

  class Simulator {
    const processes: seq<Process>
    const resources: map<Rid, Resource>
    const mode: string
    const maxSteps: int
    const detect: seq<Row> -> Detection
    const log: EventLog
    const lm: LM.LockManager
    const metrics: MetricsCollector
    var stateHistory: seq<StateRecord>
    var deadlockInfo: Option<DeadlockInfo>

    /**
     * The lock manager works on this simulator's processes, resources,
     * mode and event log, and keeps ownership consistent; every planned
     * and every requested id names a resource.
     */
    ghost predicate Inv()
      reads processes`heldResources, processes`currentRequest, resources.Values`heldBy
    {
      Wired() && lm.Valid() && Known()
    }

    /** The waiting counters agree, with at most one blocked process-step per process per step. */
    ghost predicate Counted()
      reads metrics`totalWaitTime, metrics`blockedSteps, metrics`steps
    {
      metrics.Valid(|processes|)
    }

    /** The completion counter is the number of FINISHED processes. */
    ghost predicate Tallied()
      reads processes`state, metrics`completed
    {
      metrics.completed == FinishedAmong(processes, |processes|)
    }

    /** The lock manager is this simulator's, and every planned id names a resource. */
    ghost predicate Wired()
    {
      && (lm.processes, lm.resources, lm.mode, lm.logger) == (processes, resources, mode, Some(log))
      && (forall i :: 0 <= i < |processes| ==> forall rid :: rid in processes[i].plan ==> rid in resources)
    }

    /** Every outstanding request names a resource. */
    ghost predicate Known()
      reads processes`currentRequest
    {
      forall i :: 0 <= i < |processes| && processes[i].currentRequest.Some? ==>
        processes[i].currentRequest.value in resources
    }

    /**
     * A simulator over processes and resources as the scenario builder
     * makes them: distinct pids, nothing held or requested, no waiting,
     * every process running, every resource free, every plan within the
     * resources.
     */
    constructor (processes: seq<Process>, resources: seq<Resource>, mode: string, maxSteps: int,
                 detect: seq<Row> -> Detection)
      requires DistinctPids(processes)
      requires forall i :: 0 <= i < |processes| ==> Scenarios.Initial(processes[i], processes[i].pid, processes[i].plan)
      requires forall i :: 0 <= i < |resources| ==> resources[i].heldBy == None
      requires forall i :: 0 <= i < |processes| ==> forall rid :: rid in processes[i].plan ==> rid in ByRid(resources)
      requires CyclesAmongBlocked(detect)
      ensures Inv() && Counted() && Tallied()
      ensures this.processes == processes && this.resources == ByRid(resources) && this.mode == mode
      ensures this.maxSteps == maxSteps && this.detect == detect
      ensures fresh(log) && log.events == [] && stateHistory == [] && deadlockInfo == None
      ensures fresh(metrics) && metrics.numProcesses == |processes| && metrics.numResources == |resources|
      ensures metrics.steps == 0 && metrics.completed == 0 && metrics.deadlocks == 0
    {
      var byRid := ByRid(resources);
      ByRidKeys(resources);
      this.processes := processes;
      this.resources := byRid;
      this.mode := mode;
      this.maxSteps := maxSteps;
      this.detect := detect;
      var log := new EventLog();
      this.log := log;
      lm := new LM.LockManager(byRid, processes, mode, Some(log));
      metrics := new MetricsCollector(mode, |processes|, |resources|);
      stateHistory := [];
      deadlockInfo := None;
      new;
      FinishesNone(Snaps(processes, |processes|));
      FinishedAmongSnaps(processes, |processes|);
    }

    /** `log_event`: appends one event, with its payload only when that is non-empty. */
    method LogEvent(message: string, t: int, kind: EventKind, data: Option<Payload>)
      modifies log`events
      ensures log.events == old(log.events) + [Event(t, kind, message, if data.Some? && data.value != map[] then data else None)]
    {
      log.LogEvent(message, t, kind, data);
    }

    /** `_process_by_id`: the first process with `pid`, if any. */
    method ProcessById(pid: Pid) returns (found: Option<Process>)
      ensures found.None? <==> forall i :: 0 <= i < |processes| ==> processes[i].pid != pid
      ensures found.Some? ==>
        exists i :: (0 <= i < |processes| && processes[i] == found.value &&
          processes[i].pid == pid && forall j :: 0 <= j < i ==> processes[j].pid != pid)
    {
      for i := 0 to |processes|
        invariant forall j :: 0 <= j < i ==> processes[j].pid != pid
      {
        if processes[i].pid == pid {
          return Some(processes[i]);
        }
      }
      return None;
    }

    /** The state-table entry of `print_state_table`: one row per process, appended to the history. */
    method RecordState(t: nat, ghost pre: seq<Snap>) returns (rows: seq<Row>)
      requires pre == Snaps(processes, |processes|)
      modifies this`stateHistory
      ensures rows == Rows(processes, |processes|)
      ensures Pictured(rows, pre)
      ensures stateHistory == old(stateHistory) + [StateRecord(t, rows)]
    {
      rows := [];
      for i := 0 to |processes|
        invariant rows == Rows(processes, i)
      {
        var process := processes[i];
        rows := rows + [Row(process.pid, Text.Sorted(process.heldResources), process.currentRequest, process.state)];
      }
      stateHistory := stateHistory + [StateRecord(t, rows)];
    }

    /**
     * `_complete_process`: logs the completion with the sorted held ids,
     * releases everything (the process becomes FINISHED) and counts one
     * more completed process.
     */
    method CompleteProcess(i: nat, process: Process, t: nat)
      requires Inv() && i < |processes| && process == processes[i] && process.state != Finished
      modifies process`heldResources, process`state, process`currentRequest, resources.Values`heldBy, log`events,
               metrics`completed
      ensures Inv()
      ensures processes[i].state == Finished && processes[i].heldResources == {} && processes[i].currentRequest == None
      ensures forall rid :: rid in resources ==>
        resources[rid].heldBy == (if old(resources[rid].heldBy) == Some(process.pid) then None else old(resources[rid].heldBy))
      ensures metrics.completed == old(metrics.completed) + 1
      ensures log.events == old(log.events) + [CompleteEvent(process.pid, t, old(process.heldResources))] +
                            ReleaseLog(process.pid, t, old(process.heldResources))
    {
      Tell(CompleteEvent(process.pid, t, process.heldResources));
      Release(i, process, t);
      metrics.RecordCompletion();
    }

    /** Logs an event that carries a payload, keeping the invariant. */
    method Tell(e: Event)
      requires Inv() && e.data.Some? && "pid" in e.data.value
      modifies log`events
      ensures Inv()
      ensures log.events == old(log.events) + [e]
    {
      LogEvent(e.message, e.t, e.kind, e.data);
    }

    /** The release half of `_complete_process`: the lock manager's `release_all`, keeping the invariant. */
    method Release(i: nat, process: Process, t: nat)
      requires Inv() && i < |processes| && process == processes[i]
      modifies process`heldResources, process`state, process`currentRequest, resources.Values`heldBy, log`events
      ensures Inv()
      ensures process.state == Finished && process.heldResources == {} && process.currentRequest == None
      ensures forall rid :: rid in resources ==>
        resources[rid].heldBy == (if old(resources[rid].heldBy) == Some(process.pid) then None else old(resources[rid].heldBy))
      ensures log.events == old(log.events) + ReleaseLog(process.pid, t, old(process.heldResources))
    {
      lm.ReleaseAll(process, t);
    }

    /** The requester's outcome as the lock manager promises it in this mode. */
    twostate predicate Answered(process: Process, rid: Rid, t: nat, granted: bool)
      requires rid in lm.resources
      reads process, {lm.resources[rid]}`heldBy, lm.Sinks()`events
    {
      && (lm.mode == "banker" ==> lm.BankerOutcome(process, rid, t, granted, old(lm.SafeToGrant(process, rid))))
      && (lm.mode != "banker" ==> lm.BasicOutcome(process, rid, t, granted))
    }

    /**
     * One process's turn within a step: a DEADLOCKED or FINISHED process
     * is left alone; a BLOCKED one re-issues its outstanding request; a
     * RUNNING one holding its whole plan completes, and otherwise asks for
     * its next resource (the least one in "ordered" mode).
     */
    method Visit(i: nat, process: Process, t: nat, ghost at: seq<Snap>) returns (action: Action)
      requires Inv() && i < |processes| && process == processes[i] && at == Snaps(processes, |processes|)
      modifies process`heldResources, process`state, process`currentRequest, resources.Values`heldBy, log`events,
               metrics`completed
      ensures Inv()
      ensures Planned(action, old(ViewOf(process, mode == "ordered")))
      ensures Did(old(SnapOf(process)), SnapOf(process), action)
      ensures (action.Retry? || action.Ask?) ==> action.rid in resources && Answered(process, action.rid, t, action.granted)
      ensures (action.Retry? || action.Ask?) ==> Obeys(at, i, action.rid, action.granted, mode == "banker")
      ensures action == Action.Complete ==>
        && (forall rid :: rid in resources ==>
              resources[rid].heldBy == (if old(resources[rid].heldBy) == Some(process.pid) then None else old(resources[rid].heldBy)))
        && log.events == old(log.events) + [CompleteEvent(process.pid, t, old(process.heldResources))] +
                         ReleaseLog(process.pid, t, old(process.heldResources))
      ensures action == Skip ==> Unmoved(process) && log.events == old(log.events)
      ensures metrics.completed == old(metrics.completed) + (if action == Action.Complete then 1 else 0)
      ensures old(log.events) <= log.events
    {
      if process.state == Deadlocked || process.state == Finished {
        return Skip;
      }
      if process.state == Blocked && Truthy(process.currentRequest) {
        var rid := process.currentRequest.value;
        var granted := IssueRequest(i, process, rid, t, at);
        return Retry(rid, granted);
      } else if process.state == Running {
        if process.HasAllResources() {
          CompleteProcess(i, process, t);
          return Action.Complete;
        }
        var target := process.NextRequest(mode == "ordered");
        if Truthy(target) {
          var granted := IssueRequest(i, process, target.value, t, at);
          return Action.Ask(target.value, granted);
        }
      }
      return Skip;
    }

    /**
     * Process `i` asks the lock manager for `rid`; the invariant survives
     * because the requester stays RUNNING or BLOCKED and asks only for
     * known resources.
     */
    method IssueRequest(i: nat, process: Process, rid: Rid, t: nat, ghost at: seq<Snap>) returns (granted: bool)
      requires Inv() && i < |processes| && process == processes[i] && rid in resources
      requires process.state != Finished && at == Snaps(processes, |processes|)
      modifies process`heldResources, process`state, process`currentRequest, {resources[rid]}`heldBy, log`events
      ensures Inv()
      ensures Answered(process, rid, t, granted)
      ensures Requested(old(SnapOf(process)), SnapOf(process), rid, granted)
      ensures Obeys(at, i, rid, granted, mode == "banker")
      ensures old(log.events) <= log.events
    {
      assert resources[rid].heldBy == Some(process.pid) ==> rid in process.heldResources;
      granted := Consult(i, process, rid, t, at);
    }

    /** The lock manager's `request`, in this simulator's terms. */
    method Consult(i: nat, process: Process, rid: Rid, t: nat, ghost at: seq<Snap>) returns (granted: bool)
      requires Inv() && i < |processes| && process == processes[i] && rid in resources
      requires at == Snaps(processes, |processes|)
      modifies process`heldResources, process`state, process`currentRequest, {resources[rid]}`heldBy, log`events
      ensures Inv()
      ensures Answered(process, rid, t, granted)
      ensures Obeys(at, i, rid, granted, mode == "banker")
      ensures old(log.events) <= log.events
    {
      ghost var holder := resources[rid].heldBy;
      Holding(i, rid, at);
      granted := lm.Request(process, rid, t);
      ObeysByHolder(at, i, rid, holder, process.pid, granted, mode == "banker");
    }

    /** What the holder of `rid` says about the holdings: it is process `i` exactly when `i` holds it, and otherwise another process or nobody. */
    lemma Holding(i: nat, rid: Rid, at: seq<Snap>)
      requires Inv() && i < |processes| && rid in resources && at == Snaps(processes, |processes|)
      ensures resources[rid].heldBy == Some(processes[i].pid) <==> rid in at[i].held
      ensures forall j :: 0 <= j < |at| && j != i && rid in at[j].held ==>
        resources[rid].heldBy.Some? && resources[rid].heldBy != Some(processes[i].pid)
      ensures resources[rid].heldBy.Some? && resources[rid].heldBy != Some(processes[i].pid) ==>
        exists j :: 0 <= j < |at| && j != i && rid in at[j].held
    {
      var holder := resources[rid].heldBy;
      if holder.Some? && holder != Some(processes[i].pid) {
        var j :| 0 <= j < |processes| && processes[j].pid == holder.value;
        assert j != i && rid in at[j].held;
      }
    }

    /** The acquisition pass of `step`: every process's turn, in list order. */
    method AcquisitionPass(t: nat) returns (ghost actions: seq<Action>, ghost before: seq<Snap>, ghost mid: seq<Snap>)
      requires Inv()
      modifies processes`heldResources, processes`state, processes`currentRequest, resources.Values`heldBy, log`events, metrics`completed
      ensures Inv()
      ensures Fits(actions, old(Views(processes, mode == "ordered", |processes|)))
      ensures forall i :: 0 <= i < |processes| ==> Did(old(SnapOf(processes[i])), SnapOf(processes[i]), actions[i])
      ensures |before| == |mid| == |processes|
      ensures forall i :: 0 <= i < |processes| ==> before[i] == old(SnapOf(processes[i])) && mid[i] == SnapOf(processes[i])
      ensures Ruled(before, mid, actions, mode == "banker")
      ensures before == old(Snaps(processes, |processes|))
      ensures metrics.completed == old(metrics.completed) + Completes(actions)
      ensures old(log.events) <= log.events
    {
      ghost var views := Views(processes, mode == "ordered", |processes|);
      before := Snaps(processes, |processes|);
      actions, mid := [], [];
      for i := 0 to |processes|
        invariant Inv()
        invariant FitsUpTo(actions, views, i)
        invariant Progress(before, actions, mid, i)
        invariant metrics.completed == old(metrics.completed) + Completes(actions)
        invariant old(log.events) <= log.events
      {
        assert SnapOf(processes[i]) == Snaps(processes, |processes|)[i] == before[i];
        assert ViewOf(processes[i], mode == "ordered") == views[i];
        var a := Turn(i, processes[i], t, views, before, actions, mid);
        CompletesSnoc(actions, a);
        actions, mid := actions + [a], mid + [SnapOf(processes[i])];
      }
    }

    /** The first `i` processes have had their turn, as `done` says, and the rest still look as in `before`. */
    ghost predicate Progress(before: seq<Snap>, done: seq<Action>, mid: seq<Snap>, i: nat)
      reads processes`state, processes`heldResources, processes`currentRequest
    {
      Tracked(Snaps(processes, |processes|), before, done, mid, i, mode == "banker")
    }

    /** Process `i`'s visit, seen only through the action it took and the rule that answered it. */
    method Play(i: nat, process: Process, t: nat, ghost at: seq<Snap>) returns (action: Action)
      requires Inv() && i < |processes| && process == processes[i] && at == Snaps(processes, |processes|)
      modifies process`heldResources, process`state, process`currentRequest, resources.Values`heldBy, log`events,
               metrics`completed
      ensures Inv()
      ensures Planned(action, old(ViewOf(process, mode == "ordered")))
      ensures Did(at[i], SnapOf(process), action)
      ensures (action.Retry? || action.Ask?) ==> Obeys(at, i, action.rid, action.granted, mode == "banker")
      ensures forall j :: 0 <= j < |processes| && j != i ==> Unmoved(processes[j])
      ensures metrics.completed == old(metrics.completed) + (if action == Action.Complete then 1 else 0)
      ensures old(log.events) <= log.events
    {
      assert forall j :: 0 <= j < |processes| && j != i ==> processes[j] != process;
      action := Visit(i, process, t, at);
    }

    /** Process `i`'s turn in the acquisition pass: only process `i` changes, as its action says. */
    method Turn(i: nat, process: Process, t: nat, ghost views: seq<View>, ghost before: seq<Snap>, ghost done: seq<Action>,
                ghost mid: seq<Snap>)
      returns (action: Action)
      requires Inv() && i < |processes| && process == processes[i]
      requires FitsUpTo(done, views, i) && i < |views| && views[i] == ViewOf(process, mode == "ordered")
      requires Progress(before, done, mid, i)
      modifies process`heldResources, process`state, process`currentRequest, resources.Values`heldBy, log`events, metrics`completed
      ensures Inv()
      ensures FitsUpTo(done + [action], views, i + 1)
      ensures Progress(before, done + [action], mid + [SnapOf(process)], i + 1)
      ensures metrics.completed == old(metrics.completed) + (if action == Action.Complete then 1 else 0)
      ensures old(log.events) <= log.events
    {
      ghost var at := Snaps(processes, |processes|);
      AtTurnTracked(at, before, done, mid, i, mode == "banker");
      action := Play(i, process, t, at);
      FitsSnoc(done, views, i, action);
      ghost var now := Snaps(processes, |processes|);
      TrackedSnoc(at, now, before, done, mid, i, mode == "banker", action);
    }

    twostate predicate Unmoved(p: Process)
      reads p
    {
      p.state == old(p.state) && p.heldResources == old(p.heldResources) && p.currentRequest == old(p.currentRequest)
    }

    /** The completion sweep of `step`: every RUNNING process that holds its whole plan completes, and no other changes. */
    method CompletionSweep(t: nat)
      requires Inv() && Tallied()
      modifies processes`heldResources, processes`state, processes`currentRequest, resources.Values`heldBy, log`events, metrics`completed
      ensures Inv() && Tallied()
      ensures forall i :: 0 <= i < |processes| ==> SnapOf(processes[i]) == Swept(old(SnapOf(processes[i])), processes[i].plan)
      ensures forall i :: 0 <= i < |processes| ==> !(processes[i].state == Running && processes[i].HasAllResources())
      ensures old(log.events) <= log.events
    {
      ghost var before := Snaps(processes, |processes|);
      ghost var plans := Plans(processes);
      FinishedAmongSnaps(processes, |processes|);
      for i := 0 to |processes|
        invariant Inv()
        invariant SweptUpTo(before, i)
        invariant metrics.completed == old(metrics.completed) + Ripened(before[..i], plans[..i])
        invariant old(log.events) <= log.events
      {
        Settle(i, processes[i], t, before);
        RipenedSnoc(before, plans, i);
      }
      assert before[..|processes|] == before && plans[..|processes|] == plans;
      SweptTally(before, plans);
    }

    /** After the sweep, the FINISHED processes are those that were, plus the ripe ones it completed. */
    lemma SweptTally(before: seq<Snap>, plans: seq<seq<Rid>>)
      requires SweptUpTo(before, |processes|) && plans == Plans(processes)
      ensures FinishedAmong(processes, |processes|) == Finishes(before) + Ripened(before, plans)
    {
      FinishesSwept(before, Snaps(processes, |processes|), plans);
      FinishedAmongSnaps(processes, |processes|);
    }

    /** The first `i` processes have been swept from `before`, and the rest still look as in `before`. */
    ghost predicate SweptUpTo(before: seq<Snap>, i: nat)
      reads processes`state, processes`heldResources, processes`currentRequest
    {
      && |before| == |processes| && i <= |processes|
      && (forall j :: 0 <= j < i ==>
            SnapOf(processes[j]) == Swept(before[j], processes[j].plan)
            && !(processes[j].state == Running && processes[j].HasAllResources()))
      && (forall j :: i <= j < |processes| ==> SnapOf(processes[j]) == before[j])
    }

    /** The completion sweep's visit to process `i`: completes it when it is RUNNING and holds its whole plan. */
    method Settle(i: nat, process: Process, t: nat, ghost before: seq<Snap>)
      requires Inv() && i < |processes| && process == processes[i] && SweptUpTo(before, i)
      modifies process`heldResources, process`state, process`currentRequest, resources.Values`heldBy, log`events,
               metrics`completed
      ensures Inv()
      ensures SweptUpTo(before, i + 1)
      ensures metrics.completed == old(metrics.completed) + (if Ripe(before[i], process.plan) then 1 else 0)
      ensures old(log.events) <= log.events
    {
      assert forall j :: 0 <= j < |processes| && j != i ==> processes[j] != process;
      if process.state == Running && process.HasAllResources() {
        Retire(i, process, t);
      }
    }

    /** `_complete_process` as the completion sweep sees it: the process ends FINISHED, holding and requesting nothing. */
    method Retire(i: nat, process: Process, t: nat)
      requires Inv() && i < |processes| && process == processes[i] && process.state != Finished
      modifies process`heldResources, process`state, process`currentRequest, resources.Values`heldBy, log`events,
               metrics`completed
      ensures Inv()
      ensures SnapOf(process) == Snap(Finished, {}, None)
      ensures metrics.completed == old(metrics.completed) + 1
      ensures old(log.events) <= log.events
    {
      CompleteProcess(i, process, t);
    }

    /** The marking loop of `step`: every process whose pid is in the cycle becomes DEADLOCKED. */
    method MarkCycle(cycle: seq<Pid>, ghost pre: seq<Snap>)
      requires DistinctPids(processes) && pre == Snaps(processes, |processes|)
      modifies processes`state
      ensures forall i :: 0 <= i < |processes| ==>
        processes[i].state == (if processes[i].pid in cycle then Deadlocked else old(processes[i].state))
      ensures Marked(pre, true, cycle)
    {
      for c := 0 to |cycle|
        invariant forall i :: 0 <= i < |processes| ==>
          processes[i].state == (if processes[i].pid in cycle[..c] then Deadlocked else old(processes[i].state))
      {
        var found := ProcessById(cycle[c]);
        if found.Some? {
          found.value.MarkDeadlocked();
        }
        assert cycle[..c + 1] == cycle[..c] + [cycle[c]];
      }
      assert cycle[..|cycle|] == cycle;
    }

    /**
     * The deadlock branch of `step`: count the deadlock, record its
     * details, log them and mark the cycle, whose processes are all
     * BLOCKED.
     */
    method Report(t: nat, d: Detection, ghost pre: seq<Snap>)
      requires Inv() && Tallied() && pre == Snaps(processes, |processes|)
      requires forall i :: 0 <= i < |processes| && processes[i].pid in d.cycle ==> pre[i].state == Blocked
      modifies this`deadlockInfo, processes`state, log`events, metrics`deadlocks
      ensures Inv() && Tallied()
      ensures deadlockInfo == Some(DeadlockInfo(t, d.edges, d.cycle))
      ensures metrics.deadlocks == old(metrics.deadlocks) + 1
      ensures log.events == old(log.events) + [DeadlockEvent(DeadlockInfo(t, d.edges, d.cycle))]
      ensures Marked(pre, true, d.cycle)
    {
      FinishedAmongSnaps(processes, |processes|);
      Note(DeadlockInfo(t, d.edges, d.cycle));
      Freeze(d.cycle, pre);
      MarkedTally(pre, d.cycle);
    }

    /** Marking a cycle of BLOCKED processes DEADLOCKED leaves the FINISHED ones as they were. */
    lemma MarkedTally(pre: seq<Snap>, cycle: seq<Pid>)
      requires Marked(pre, true, cycle)
      requires forall i :: 0 <= i < |processes| && processes[i].pid in cycle ==> pre[i].state == Blocked
      ensures FinishedAmong(processes, |processes|) == Finishes(pre)
    {
      forall i | 0 <= i < |processes|
        ensures pre[i].state == Finished <==> processes[i].state == Finished
      {
        if processes[i].pid !in cycle {
          assert SnapOf(processes[i]) == pre[i];
        }
      }
      FinishesSame(pre, Snaps(processes, |processes|));
      FinishedAmongSnaps(processes, |processes|);
    }

    /** With `ss` holding the processes' fields, the FINISHED processes are those `ss` counts. */
    lemma SnapsTally(ss: seq<Snap>)
      requires |ss| == |processes| && forall i :: 0 <= i < |processes| ==> ss[i] == SnapOf(processes[i])
      ensures FinishedAmong(processes, |processes|) == Finishes(ss)
    {
      FinishedAmongSnaps(processes, |processes|);
      assert ss == Snaps(processes, |processes|);
    }

    /** The marking loop of `step`, keeping the invariant. */
    method Freeze(cycle: seq<Pid>, ghost pre: seq<Snap>)
      requires Inv() && pre == Snaps(processes, |processes|)
      modifies processes`state
      ensures Inv()
      ensures Marked(pre, true, cycle)
    {
      MarkCycle(cycle, pre);
    }

    /** Counts, records and logs a deadlock. */
    method Note(info: DeadlockInfo)
      requires Inv()
      modifies this`deadlockInfo, log`events, metrics`deadlocks
      ensures Inv()
      ensures deadlockInfo == Some(info)
      ensures metrics.deadlocks == old(metrics.deadlocks) + 1
      ensures log.events == old(log.events) + [DeadlockEvent(info)]
    {
      metrics.RecordDeadlock();
      deadlockInfo := Some(info);
      var e := DeadlockEvent(info);
      assert "t" in e.data.value;
      LogEvent(e.message, info.t, e.kind, e.data);
    }

    /**
     * The two passes of `step` that run before the detector: after the
     * acquisition pass each process's fields are `mid`, as its action
     * says, and the completion sweep then completes exactly the RUNNING
     * ones holding their whole plan.
     */
    method Advance(t: nat) returns (ghost actions: seq<Action>, ghost before: seq<Snap>, ghost mid: seq<Snap>, ghost swept: seq<Snap>)
      requires Inv() && Tallied()
      modifies processes`heldResources, processes`state, processes`currentRequest, resources.Values`heldBy, log`events, metrics`completed
      ensures Inv() && Tallied()
      ensures Fits(actions, old(Views(processes, mode == "ordered", |processes|)))
      ensures |before| == |mid| == |swept| == |processes|
      ensures forall i :: 0 <= i < |processes| ==> before[i] == old(SnapOf(processes[i]))
      ensures forall i :: 0 <= i < |processes| ==> Did(old(SnapOf(processes[i])), mid[i], actions[i])
      ensures Ruled(before, mid, actions, mode == "banker")
      ensures forall i :: 0 <= i < |processes| ==> swept[i] == Swept(mid[i], processes[i].plan)
      ensures swept == Snaps(processes, |processes|)
      ensures forall i :: 0 <= i < |processes| && processes[i].state == Running ==> !processes[i].HasAllResources()
      ensures old(log.events) <= log.events
    {
      ghost var views := Views(processes, mode == "ordered", |processes|);
      FinishedAmongSnaps(processes, |processes|);
      actions, before, mid := AcquisitionPass(t);
      FinishesActed(before, mid, actions, views);
      SnapsTally(mid);
      CompletionSweep(t);
      swept := Snaps(processes, |processes|);
    }

    /**
     * The part of `step` after the two passes: one state-table entry, the
     * detector's verdict on it, and the deadlock branch when it reports one.
     */
    method Inspect(t: nat, ghost pre: seq<Snap>) returns (deadlock: bool)
      requires Inv() && Tallied() && CyclesAmongBlocked(detect) && pre == Snaps(processes, |processes|)
      modifies this`stateHistory, this`deadlockInfo, processes`state, log`events, metrics`deadlocks
      ensures Inv() && Tallied()
      ensures |stateHistory| == |old(stateHistory)| + 1 && stateHistory == old(stateHistory) + [Last()]
      ensures Last().t == t && |Last().processes| == |processes|
      ensures deadlock == detect(Last().processes).deadlock
      ensures !deadlock ==> deadlockInfo == old(deadlockInfo) && metrics.deadlocks == old(metrics.deadlocks)
      ensures !deadlock ==> log.events == old(log.events)
      ensures deadlock ==>
        var d := detect(Last().processes);
        && deadlockInfo == Some(DeadlockInfo(t, d.edges, d.cycle))
        && metrics.deadlocks == old(metrics.deadlocks) + 1
        && log.events == old(log.events) + [DeadlockEvent(DeadlockInfo(t, d.edges, d.cycle))]
        && forall i :: 0 <= i < |processes| && processes[i].pid in d.cycle ==> processes[i].state == Deadlocked && pre[i].state == Blocked
      ensures Pictured(Last().processes, pre)
      ensures Marked(pre, deadlock, detect(Last().processes).cycle)
      ensures !deadlock ==> (AllFinished(processes) <==> RowsFinished(Last().processes))
    {
      var rows := RecordState(t, pre);
      assert Last().processes == rows;
      deadlock := Respond(t, rows, pre);
    }

    /** The detector's verdict on the state-table row just recorded, and the deadlock branch when it reports one. */
    method Respond(t: nat, rows: seq<Row>, ghost pre: seq<Snap>) returns (deadlock: bool)
      requires Inv() && Tallied() && CyclesAmongBlocked(detect) && rows == Rows(processes, |processes|)
      requires pre == Snaps(processes, |processes|)
      modifies this`deadlockInfo, processes`state, log`events, metrics`deadlocks
      ensures Inv() && Tallied()
      ensures deadlock == detect(rows).deadlock
      ensures !deadlock ==> deadlockInfo == old(deadlockInfo) && metrics.deadlocks == old(metrics.deadlocks)
      ensures !deadlock ==> log.events == old(log.events)
      ensures deadlock ==>
        var d := detect(rows);
        && deadlockInfo == Some(DeadlockInfo(t, d.edges, d.cycle))
        && metrics.deadlocks == old(metrics.deadlocks) + 1
        && log.events == old(log.events) + [DeadlockEvent(DeadlockInfo(t, d.edges, d.cycle))]
        && forall i :: 0 <= i < |processes| && processes[i].pid in d.cycle ==> processes[i].state == Deadlocked && pre[i].state == Blocked
      ensures Marked(pre, deadlock, detect(rows).cycle)
      ensures !deadlock ==> (AllFinished(processes) <==> RowsFinished(rows))
    {
      var d := detect(rows);
      if d.deadlock {
        CycleBlocked(processes, rows, d.cycle);
        Report(t, d, pre);
        return true;
      }
      FinishedShown(rows, pre, d.cycle);
      return false;
    }

    /** The state-table entry `rows` shows each process `i` with fields `pre[i]`. */
    ghost predicate Pictured(rows: seq<Row>, pre: seq<Snap>)
    {
      |rows| == |pre| == |processes| && forall i :: 0 <= i < |processes| ==> Shows(rows[i], processes[i].pid, pre[i])
    }

    /** Without a deadlock, the state-table entry shows every process FINISHED exactly when every process is. */
    lemma FinishedShown(rows: seq<Row>, pre: seq<Snap>, cycle: seq<Pid>)
      requires Pictured(rows, pre) && Marked(pre, false, cycle)
      ensures AllFinished(processes) <==> RowsFinished(rows)
    {
      assert forall i :: 0 <= i < |processes| ==> rows[i].state == pre[i].state == processes[i].state;
    }

    /** Each process's fields are `pre[i]`, except that with `deadlock` one whose pid is in `cycle` is DEADLOCKED. */
    ghost predicate Marked(pre: seq<Snap>, deadlock: bool, cycle: seq<Pid>)
      reads processes`state, processes`heldResources, processes`currentRequest
    {
      |pre| == |processes| &&
      forall i :: 0 <= i < |processes| ==>
        SnapOf(processes[i]) == if deadlock && processes[i].pid in cycle then pre[i].(state := Deadlocked) else pre[i]
    }

    /**
     * `step`: the acquisition pass, the completion sweep, one state-table
     * entry, then the detector; a reported deadlock is counted, recorded,
     * logged, marks its cycle DEADLOCKED and makes the step return true.
     */
    method Step(t: nat) returns (deadlock: bool, ghost actions: seq<Action>, ghost before: seq<Snap>, ghost mid: seq<Snap>,
                                 ghost swept: seq<Snap>)
      requires Inv() && Tallied() && CyclesAmongBlocked(detect)
      modifies this`stateHistory, this`deadlockInfo, processes`heldResources, processes`state, processes`currentRequest,
               resources.Values`heldBy, log`events, metrics`completed, metrics`deadlocks
      ensures Inv() && Tallied()
      ensures |before| == |mid| == |swept| == |processes|
      ensures Fits(actions, old(Views(processes, mode == "ordered", |processes|)))
      ensures |stateHistory| == |old(stateHistory)| + 1 && stateHistory == old(stateHistory) + [Last()]
      ensures Last().t == t && |Last().processes| == |processes|
      ensures deadlock == detect(Last().processes).deadlock
      ensures !deadlock ==> deadlockInfo == old(deadlockInfo) && metrics.deadlocks == old(metrics.deadlocks)
      ensures deadlock ==>
        var d := detect(Last().processes);
        && deadlockInfo == Some(DeadlockInfo(t, d.edges, d.cycle))
        && metrics.deadlocks == old(metrics.deadlocks) + 1
        && log.events != [] && log.events[|log.events| - 1] == DeadlockEvent(deadlockInfo.value)
        && forall i :: 0 <= i < |processes| && processes[i].pid in d.cycle ==> processes[i].state == Deadlocked && swept[i].state == Blocked
      ensures old(log.events) <= log.events
      ensures forall i :: 0 <= i < |processes| ==> before[i] == old(SnapOf(processes[i]))
      ensures forall i :: 0 <= i < |processes| ==> Did(old(SnapOf(processes[i])), mid[i], actions[i])
      ensures Ruled(before, mid, actions, mode == "banker")
      ensures forall i :: 0 <= i < |processes| ==> swept[i] == Swept(mid[i], processes[i].plan)
      ensures Pictured(Last().processes, swept)
      ensures Marked(swept, deadlock, detect(Last().processes).cycle)
      ensures !deadlock ==> (AllFinished(processes) <==> RowsFinished(Last().processes))
    {
      actions, before, mid, swept := Advance(t);
      deadlock := Inspect(t, swept);
    }

    function Last(): StateRecord
      requires stateHistory != []
      reads this
    {
      stateHistory[|stateHistory| - 1]
    }

    /**
     * `run` without the report output: logs the start, then executes at
     * most `maxSteps` steps, recording the metrics after each, and stops
     * after a step that found a deadlock or once every process is
     * FINISHED (logging that).
     */
    method Run() returns (executed: nat, deadlockFound: bool)
      requires Inv() && Counted() && Tallied() && CyclesAmongBlocked(detect)
      modifies this`stateHistory, this`deadlockInfo, processes`heldResources, processes`state, processes`currentRequest,
               processes`waitingSteps, resources.Values`heldBy, log`events,
               metrics`completed, metrics`deadlocks, metrics`steps, metrics`totalWaitTime, metrics`blockedSteps
      ensures Inv() && Counted() && Tallied()
      ensures executed <= Scenarios.Count(maxSteps)
      ensures metrics.steps == old(metrics.steps) + executed
      ensures |stateHistory| == |old(stateHistory)| + executed
      ensures metrics.deadlocks == old(metrics.deadlocks) + (if deadlockFound then 1 else 0)
      ensures deadlockFound ==> 0 < executed && deadlockInfo.Some? && deadlockInfo.value.t == executed - 1
      ensures executed < Scenarios.Count(maxSteps) ==> deadlockFound || AllFinished(processes)
      ensures !deadlockFound && 0 < executed && AllFinished(processes) ==>
        log.events != [] && log.events[|log.events| - 1] == FinishEvent(executed - 1)
      ensures |old(log.events)| < |log.events| &&
        log.events[|old(log.events)|] == Event(0, Start, StartMessage(|processes|, |resources|, mode), Some(map["mode" := VStr(mode)]))
      ensures old(stateHistory) <= stateHistory
      ensures WentOn(stateHistory, |old(stateHistory)|, |stateHistory| - 1)
      ensures deadlockFound ==> detect(Last().processes).deadlock
    {
      Announce();
      executed, deadlockFound := Loop();
    }

    /** The start event `run` logs first. */
    method Announce()
      modifies log`events
      ensures log.events == old(log.events) + [Event(0, Start, StartMessage(|processes|, |resources|, mode), Some(map["mode" := VStr(mode)]))]
    {
      var data := map["mode" := VStr(mode)];
      assert "mode" in data;
      LogEvent(StartMessage(|processes|, |resources|, mode), 0, Start, Some(data));
    }

    /** The loop of `run`: steps until a deadlock, until every process is FINISHED, or until `max_steps`. */
    method Loop() returns (executed: nat, deadlockFound: bool)
      requires Inv() && Counted() && Tallied() && CyclesAmongBlocked(detect)
      modifies this`stateHistory, this`deadlockInfo, processes`heldResources, processes`state, processes`currentRequest,
               processes`waitingSteps, resources.Values`heldBy, log`events,
               metrics`completed, metrics`deadlocks, metrics`steps, metrics`totalWaitTime, metrics`blockedSteps
      ensures Inv() && Counted() && Tallied()
      ensures executed <= Scenarios.Count(maxSteps)
      ensures metrics.steps == old(metrics.steps) + executed
      ensures |stateHistory| == |old(stateHistory)| + executed
      ensures metrics.deadlocks == old(metrics.deadlocks) + (if deadlockFound then 1 else 0)
      ensures deadlockFound ==> 0 < executed && deadlockInfo.Some? && deadlockInfo.value.t == executed - 1
      ensures executed < Scenarios.Count(maxSteps) ==> deadlockFound || AllFinished(processes)
      ensures !deadlockFound && 0 < executed && AllFinished(processes) ==>
        log.events != [] && log.events[|log.events| - 1] == FinishEvent(executed - 1)
      ensures old(log.events) <= log.events
      ensures old(stateHistory) <= stateHistory
      ensures WentOn(stateHistory, |old(stateHistory)|, |stateHistory| - 1)
      ensures deadlockFound ==> detect(Last().processes).deadlock
    {
      executed, deadlockFound := 0, false;
      var stop := false;
      while executed < Scenarios.Count(maxSteps) && !stop
        invariant executed <= Scenarios.Count(maxSteps)
        invariant Inv() && Counted() && Tallied()
        invariant metrics.steps == old(metrics.steps) + executed
        invariant |stateHistory| == |old(stateHistory)| + executed
        invariant metrics.deadlocks == old(metrics.deadlocks) + (if deadlockFound then 1 else 0)
        invariant deadlockFound ==> stop && 0 < executed && deadlockInfo.Some? && deadlockInfo.value.t == executed - 1
        invariant !stop && 0 < executed ==> !AllFinished(processes)
        invariant stop && !deadlockFound ==>
          0 < executed && Ended(executed - 1)
        invariant old(log.events) <= log.events
        invariant old(stateHistory) <= stateHistory
        invariant WentOn(stateHistory, |old(stateHistory)|, |stateHistory| - (if stop then 1 else 0))
        invariant deadlockFound ==> detect(Last().processes).deadlock
      {
        ghost var before := stateHistory;
        var found, finished := Tick(executed);
        WentOnSnoc(before, stateHistory, |old(stateHistory)|, !found && !finished);
        executed := executed + 1;
        deadlockFound := found;
        stop := found || finished;
      }
    }

    /**
     * One iteration of `run`'s loop: a step, the metrics' `record_step`,
     * and, when the step found no deadlock and every process is FINISHED,
     * the finish event.
     */
    method Tick(t: nat) returns (found: bool, finished: bool)
      requires Inv() && Counted() && Tallied() && CyclesAmongBlocked(detect)
      modifies this`stateHistory, this`deadlockInfo, processes`heldResources, processes`state, processes`currentRequest,
               processes`waitingSteps, resources.Values`heldBy, log`events,
               metrics`completed, metrics`deadlocks, metrics`steps, metrics`totalWaitTime, metrics`blockedSteps
      ensures Inv() && Counted() && Tallied()
      ensures metrics.steps == old(metrics.steps) + 1
      ensures |stateHistory| == |old(stateHistory)| + 1
      ensures metrics.deadlocks == old(metrics.deadlocks) + (if found then 1 else 0)
      ensures found ==> deadlockInfo.Some? && deadlockInfo.value.t == t
      ensures finished <==> !found && AllFinished(processes)
      ensures old(log.events) <= log.events
      ensures finished ==> Ended(t)
      ensures stateHistory == old(stateHistory) + [Last()]
      ensures found == detect(Last().processes).deadlock
      ensures !found ==> (finished <==> RowsFinished(Last().processes))
    {
      found := RunStep(t);
      finished := Conclude(t, found);
    }

    /** Every process is FINISHED and the last event logged is the finish event of step `t`. */
    ghost predicate Ended(t: nat)
      reads processes`state, log`events
    {
      AllFinished(processes) && log.events != [] && log.events[|log.events| - 1] == FinishEvent(t)
    }

    /** `step` as `run`'s loop sees it: one more state-table entry, the detector's verdict on it, and the deadlock count. */
    method RunStep(t: nat) returns (found: bool)
      requires Inv() && Tallied() && CyclesAmongBlocked(detect)
      modifies this`stateHistory, this`deadlockInfo, processes`heldResources, processes`state, processes`currentRequest,
               resources.Values`heldBy, log`events, metrics`completed, metrics`deadlocks
      ensures Inv() && Tallied()
      ensures |stateHistory| == |old(stateHistory)| + 1 && stateHistory == old(stateHistory) + [Last()]
      ensures metrics.deadlocks == old(metrics.deadlocks) + (if found then 1 else 0)
      ensures found ==> deadlockInfo.Some? && deadlockInfo.value.t == t
      ensures old(log.events) <= log.events
      ensures found == detect(Last().processes).deadlock
      ensures !found ==> (AllFinished(processes) <==> RowsFinished(Last().processes))
    {
      ghost var actions, before, mid, swept;
      found, actions, before, mid, swept := Step(t);
    }

    /** A state-table entry after which `run` goes on: the detector finds no deadlock and some process is not FINISHED. */
    predicate GoesOn(rows: seq<Row>)
    {
      !detect(rows).deadlock && !RowsFinished(rows)
    }

    /** `run` went on after each of the entries `lo` up to (not including) `hi` of `history`. */
    predicate WentOn(history: seq<StateRecord>, lo: nat, hi: int)
    {
      hi <= |history| && forall k :: lo <= k < hi ==> GoesOn(history[k].processes)
    }

    /** One more entry keeps the entries `run` went on after, and adds the new one when `run` went on after it. */
    lemma WentOnSnoc(history: seq<StateRecord>, longer: seq<StateRecord>, lo: nat, go: bool)
      requires WentOn(history, lo, |history|)
      requires |longer| == |history| + 1 && longer == history + [longer[|history|]]
      requires go ==> GoesOn(longer[|history|].processes)
      ensures WentOn(longer, lo, |longer| - (if go then 0 else 1))
    {
      forall k | lo <= k < |history|
        ensures longer[k] == history[k]
      {
      }
    }

    /** The rest of one iteration of `run`'s loop after the step: `record_step`, then the finish check. */
    method Conclude(t: nat, found: bool) returns (finished: bool)
      requires Inv() && Counted()
      modifies processes`waitingSteps, log`events, metrics`steps, metrics`totalWaitTime, metrics`blockedSteps
      ensures Inv() && Counted()
      ensures metrics.steps == old(metrics.steps) + 1
      ensures finished <==> !found && AllFinished(processes)
      ensures log.events == old(log.events) + (if finished then [FinishEvent(t)] else [])
    {
      RecordStep(t);
      finished := CheckFinished(t, found);
    }

    /** The end-of-iteration check of `run`: with no deadlock and every process FINISHED, log the finish. */
    method CheckFinished(t: nat, found: bool) returns (finished: bool)
      modifies log`events
      ensures finished <==> !found && AllFinished(processes)
      ensures log.events == old(log.events) + (if finished then [FinishEvent(t)] else [])
    {
      finished := !found && AllFinished(processes);
      if finished {
        LogEvent("All processes finished by t=" + Text.Show(t), t, Finish, None);
      }
    }

    /** The metrics' `record_step` after step `t`, keeping the invariant. */
    method RecordStep(t: nat)
      requires Inv() && Counted()
      modifies processes`waitingSteps, metrics`steps, metrics`totalWaitTime, metrics`blockedSteps
      ensures Inv() && Counted()
      ensures metrics.steps == old(metrics.steps) + 1
      ensures metrics.blockedSteps == old(metrics.blockedSteps) + Count(States(processes), Blocked)
    {
      metrics.RecordStep(processes);
    }
  }

}
