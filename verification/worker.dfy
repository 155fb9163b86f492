/**
 * The integer bookkeeping of the workers (core/worker.py): the retry
 * counter every worker keeps, the partial requests a Banker worker makes,
 * and the remaining need it tracks between grants. Locks, sleeps, logging
 * and the metrics queue are not modelled; the random generator's choices
 * are given as draws, and the lock acquisitions of a retrying worker as
 * their outcomes.
 */
module Workers {
  import opened Wrappers
  import opened BankerSafety
  import B = Banker
  import Scenarios

  /** The state common to all workers: a name and the number of retries so far. */
  class Worker {
    const name: string
    var retries: nat

    constructor (name: string)
      ensures this.name == name && retries == 0
    {
      this.name := name;
      retries := 0;
    }

    /** `increment_retry`. */
    method IncrementRetry()
      modifies this`retries
      ensures retries == old(retries) + 1
    {
      retries := retries + 1;
    }
  }

  function Max0(n: int): (m: int)
    ensures m >= 0 && m >= n
  {
    if n < 0 then 0 else n
  }

  predicate AllZero(v: Vec)
  {
    forall i | 0 <= i < |v| :: v[i] == 0
  }

  /** The `i`-th draw, 0 when there are fewer. */
  function DrawAt(draws: seq<nat>, i: nat): nat
  {
    if i < |draws| then draws[i] else 0
  }

  /** `randint(1, need)` as the draw `d` selects it. */
  function Between1(need: int, d: nat): (v: int)
    requires need > 0
    ensures 1 <= v <= need
  {
    1 + d % need
  }

  /** The per-entry amounts before the all-zero patch: 0 where nothing is needed, a draw in `[1, need]` elsewhere. */
  function Drawn(remaining: Vec, draws: seq<nat>): (v: Vec)
    ensures |v| == |remaining| && NonNeg(v)
    ensures forall i :: 0 <= i < |v| ==> (v[i] == 0 <==> remaining[i] <= 0)
    ensures forall i :: 0 <= i < |v| && remaining[i] > 0 ==> 1 <= v[i] <= remaining[i]
  {
    seq(|remaining|, i requires 0 <= i < |remaining| =>
      if remaining[i] <= 0 then 0 else Between1(remaining[i], DrawAt(draws, i)))
  }

  /**
   * The request `_build_request` forms from `remaining`: each positive
   * need gets an amount between 1 and the need, other entries get 0; when
   * that leaves everything 0, the entry at `pick % len(remaining)` is set
   * to 1. An empty `remaining` has no entry to set (the source raises),
   * which is `None` here.
   */
  function ShapedRequest(remaining: Vec, draws: seq<nat>, pick: nat): (r: Option<Vec>)
    ensures r.None? <==> remaining == []
    ensures r.Some? ==> |r.value| == |remaining| && NonNeg(r.value) && !AllZero(r.value)
    ensures r.Some? ==> forall i :: 0 <= i < |remaining| && remaining[i] > 0 ==> 1 <= r.value[i] <= remaining[i]
    ensures r.Some? && (exists i :: 0 <= i < |remaining| && remaining[i] > 0) ==>
      forall i :: 0 <= i < |remaining| && remaining[i] <= 0 ==> r.value[i] == 0
    ensures r.Some? && (forall i :: 0 <= i < |remaining| ==> remaining[i] <= 0) ==>
      r.value == Zeros(|remaining|)[pick % |remaining| := 1]
  {
    var base := Drawn(remaining, draws);
    if !AllZero(base) then Some(base)
    else if remaining == [] then None
    else
      assert forall i :: 0 <= i < |remaining| ==> remaining[i] <= 0 by {
        forall i | 0 <= i < |remaining|
          ensures remaining[i] <= 0
        {
          assert base[i] == 0;
        }
      }
      assert base == Zeros(|remaining|);
      var patched := base[pick % |remaining| := 1];
      assert patched[pick % |remaining|] == 1;
      Some(patched)
  }

  /**
   * Every request of that shape is one `_build_request` can make: the
   * draws rule out none of the generator's outcomes.
   */
  lemma ShapedRequestComplete(remaining: Vec, request: Vec)
    requires |request| == |remaining|
    requires forall i :: 0 <= i < |remaining| && remaining[i] > 0 ==> 1 <= request[i] <= remaining[i]
    requires forall i :: 0 <= i < |remaining| && remaining[i] <= 0 ==> request[i] == 0
    requires exists i :: 0 <= i < |remaining| && remaining[i] > 0
    ensures exists draws :: ShapedRequest(remaining, draws, 0) == Some(request)
  {
    var draws := DrawsOf(remaining, request);
    DrawnFromDrawsOf(remaining, request);
    var j :| 0 <= j < |remaining| && remaining[j] > 0;
    assert request[j] != 0;
    assert ShapedRequest(remaining, draws, 0) == Some(request);
  }

  lemma ModBelow(d: int, n: int)
    requires 0 <= d < n
    ensures d % n == d
  {
  }

  /** Replaying the draws of `DrawsOf` reproduces the request. */
  lemma DrawnFromDrawsOf(remaining: Vec, request: Vec)
    requires |request| == |remaining|
    requires forall i :: 0 <= i < |remaining| && remaining[i] > 0 ==> 1 <= request[i] <= remaining[i]
    requires forall i :: 0 <= i < |remaining| && remaining[i] <= 0 ==> request[i] == 0
    ensures Drawn(remaining, DrawsOf(remaining, request)) == request
  {
    var draws := DrawsOf(remaining, request);
    var base := Drawn(remaining, draws);
    forall i | 0 <= i < |remaining|
      ensures base[i] == request[i]
    {
      if remaining[i] > 0 {
        var d := DrawAt(draws, i);
        assert d == request[i] - 1 < remaining[i];
        ModBelow(d, remaining[i]);
        assert base[i] == Between1(remaining[i], d);
      }
    }
  }

  /** The draws that make `randint(1, need)` return `request[i] - 1 + 1` at each positive need. */
  function DrawsOf(remaining: Vec, request: Vec): (draws: seq<nat>)
    requires |request| == |remaining|
    requires forall i :: 0 <= i < |remaining| && remaining[i] > 0 ==> 1 <= request[i]
    ensures |draws| == |remaining|
    ensures forall i :: 0 <= i < |remaining| && remaining[i] > 0 ==> draws[i] == request[i] - 1
  {
    seq(|remaining|, i requires 0 <= i < |remaining| => if remaining[i] > 0 then request[i] - 1 else 0)
  }

  /** `_build_request`: the loop over `remaining`, then the all-zero patch. */
  method BuildRequest(remaining: Vec, draws: seq<nat>, pick: nat) returns (request: Option<Vec>)
    ensures request == ShapedRequest(remaining, draws, pick)
  {
    var req: Vec := [];
    for i := 0 to |remaining|
      invariant req == Drawn(remaining, draws)[..i]
    {
      if remaining[i] <= 0 {
        req := req + [0];
      } else {
        req := req + [1 + DrawAt(draws, i) % remaining[i]];
      }
    }
    assert req == Drawn(remaining, draws);
    if AllZero(req) {
      if |remaining| == 0 {
        return None;
      }
      req := req[pick % |remaining| := 1];
    }
    request := Some(req);
  }

  /** `[max(need - req, 0) for need, req in zip(remaining, request)]`. */
  function Shrink(remaining: Vec, request: Vec): (r: Vec)
    ensures |r| == Scenarios.Min(|remaining|, |request|)
    ensures forall i :: 0 <= i < |r| ==> r[i] >= 0 && (r[i] == 0 <==> remaining[i] <= request[i])
    ensures forall i :: 0 <= i < |r| && request[i] >= 0 ==> r[i] <= Max0(remaining[i])
  {
    seq(Scenarios.Min(|remaining|, |request|), i requires 0 <= i < Scenarios.Min(|remaining|, |request|) =>
      Max0(remaining[i] - request[i]))
  }

  /**
   * After a grant, shrinking the need by the request gives exactly the
   * allocator's new need: a worker's `remaining` keeps mirroring its row
   * of the Banker's need.
   */
  lemma ShrinkTracksNeed(s: State, pid: nat, request: Vec)
    requires s.WellFormed() && pid < |s.allocation|
    requires B.Admissible(s, pid, request)
    ensures Shrink(s.Need(pid), request) == Granted(s, pid, request).Need(pid)
  {
    var g := Granted(s, pid, request);
    forall i | 0 <= i < |request|
      ensures Shrink(s.Need(pid), request)[i] == g.Need(pid)[i]
    {
      assert g.allocation[pid][i] == s.allocation[pid][i] + request[i];
    }
  }

  /** How a Banker worker's run ended. */
  datatype Outcome =
    | Finished(released: Vec)   // every need met: everything released, status "ok"
    | Failed                    // `_build_request` raised (an empty claim): status "erro"
    | OutOfDraws                // the draws ran out before the need was met

  /** The generator's choices for one attempt: one draw per entry and the patch index. */
  datatype Draw = Draw(amounts: seq<nat>, pick: nat)

  /** What one attempt leaves of `remaining`: the request `draw` shapes, subtracted when it is `granted`. */
  function Next(remaining: Vec, draw: Draw, granted: bool): Vec
  {
    var request := ShapedRequest(remaining, draw.amounts, draw.pick);
    if granted && request.Some? then Shrink(remaining, request.value) else remaining
  }

  /** `remaining` before the first attempt and after each answered one, for the answers `answers` to the draws. */
  function Trail(claim: Vec, attempts: seq<Draw>, answers: seq<bool>): (trail: seq<Vec>)
    requires |answers| <= |attempts|
    ensures |trail| == |answers| + 1 && trail[0] == claim
  {
    if answers == [] then [claim]
    else
      var k := |answers| - 1;
      var before := Trail(claim, attempts, answers[..k]);
      before + [Next(before[k], attempts[k], answers[k])]
  }

  /** One more answer extends the trail by the attempt it answers. */
  lemma TrailSnoc(claim: Vec, attempts: seq<Draw>, answers: seq<bool>, granted: bool)
    requires |answers| < |attempts|
    ensures Trail(claim, attempts, answers + [granted]) ==
            Trail(claim, attempts, answers) + [Next(Trail(claim, attempts, answers)[|answers|], attempts[|answers|], granted)]
  {
    assert (answers + [granted])[..|answers|] == answers;
  }

  /**
   * `remaining` is what the answers `answers` leave of the claim, and none
   * of the first `upto` answers was a grant that left nothing to ask for.
   */
  ghost predicate Replays(claim: Vec, attempts: seq<Draw>, answers: seq<bool>, remaining: Vec, upto: nat)
  {
    && |answers| <= |attempts| && upto <= |answers|
    && remaining == Trail(claim, attempts, answers)[|answers|]
    && forall j :: 0 <= j < upto ==> !(answers[j] && AllZero(Trail(claim, attempts, answers)[j + 1]))
  }

  /** An answered attempt extends the replay; it stays complete unless that answer was the grant that met the need. */
  lemma ReplaysSnoc(claim: Vec, attempts: seq<Draw>, answers: seq<bool>, remaining: Vec, granted: bool, remaining': Vec)
    requires Replays(claim, attempts, answers, remaining, |answers|) && |answers| < |attempts|
    requires remaining' == Next(remaining, attempts[|answers|], granted)
    ensures Replays(claim, attempts, answers + [granted], remaining', |answers|)
    ensures !(granted && AllZero(remaining')) ==> Replays(claim, attempts, answers + [granted], remaining', |answers| + 1)
    ensures CountFalse(answers + [granted]) == CountFalse(answers) + (if granted then 0 else 1)
  {
    TrailSnoc(claim, attempts, answers, granted);
    CountFalseSnoc(answers, granted);
    var longer := answers + [granted];
    forall j | 0 <= j < |answers|
      ensures longer[j] == answers[j]
      ensures Trail(claim, attempts, longer)[j + 1] == Trail(claim, attempts, answers)[j + 1]
    {
    }
  }

  /**
   * The allocator's answer `granted` to `request` from `pid` in state `s`,
   * with `s'` the state after it: a grant is admissible, safe and moves
   * exactly the request; a denial changes nothing; on a bounded state the
   * grant happens exactly when the request is admissible and the granted
   * state safe, and the state stays bounded.
   */
  ghost predicate Answers(s: State, pid: nat, request: Vec, granted: bool, s': State)
  {
    && s.WellFormed() && pid < |s.allocation|
    && (granted ==> B.Admissible(s, pid, request) && s' == Granted(s, pid, request) && Safe(s'))
    && (!granted ==> s' == s)
    && (s.Bounded() ==> s'.WellFormed() && s'.Bounded() &&
                        (granted <==> B.Admissible(s, pid, request) && Safe(Granted(s, pid, request))))
  }

  /**
   * `states[j]` is the allocator's state when attempt `j` was made, and
   * `answers[j]` its answer, leading to `states[j + 1]`, to the request
   * that attempt shaped from `trail[j]`, what was then left of the claim.
   */
  ghost predicate Negotiated(pid: nat, trail: seq<Vec>, attempts: seq<Draw>, answers: seq<bool>, states: seq<State>)
  {
    && |answers| <= |attempts| && |trail| == |states| == |answers| + 1
    && forall j :: 0 <= j < |answers| ==> Answered(pid, trail[j], attempts[j], answers[j], states[j], states[j + 1])
  }

  /** The allocator, in state `s`, answered `granted` to the request `draw` shapes from `remaining`, leaving `s'`. */
  ghost predicate Answered(pid: nat, remaining: Vec, draw: Draw, granted: bool, s: State, s': State)
  {
    var request := ShapedRequest(remaining, draw.amounts, draw.pick);
    request.Some? && Answers(s, pid, request.value, granted, s')
  }

  /** One more answered attempt, made in the last state, extends the negotiation. */
  lemma NegotiatedSnoc(pid: nat, trail: seq<Vec>, attempts: seq<Draw>, answers: seq<bool>, states: seq<State>,
                       left: Vec, granted: bool, s': State)
    requires Negotiated(pid, trail, attempts, answers, states) && |answers| < |attempts|
    requires Answered(pid, trail[|answers|], attempts[|answers|], granted, states[|answers|], s')
    ensures Negotiated(pid, trail + [left], attempts, answers + [granted], states + [s'])
  {
    var trail', answers', states' := trail + [left], answers + [granted], states + [s'];
    forall j | 0 <= j < |answers'|
      ensures Answered(pid, trail'[j], attempts[j], answers'[j], states'[j], states'[j + 1])
    {
      if j < |answers| {
        assert trail'[j] == trail[j] && answers'[j] == answers[j] && states'[j] == states[j] && states'[j + 1] == states[j + 1];
      }
    }
  }

  /** One more answer adds one to the denials exactly when it is a denial. */
  lemma CountFalseSnoc(answers: seq<bool>, granted: bool)
    ensures CountFalse(answers + [granted]) == CountFalse(answers) + (if granted then 0 else 1)
  {
    assert (answers + [granted])[..|answers|] == answers;
  }

  /** A worker negotiating with a Banker allocator for its claim, in partial requests. */
  class BankerWorker {
    const base: Worker
    const banker: B.Banker
    const processId: nat
    const claim: Vec

    constructor (name: string, banker: B.Banker, processId: nat, claim: Vec)
      ensures this.banker == banker && this.processId == processId && this.claim == claim
      ensures fresh(base) && base.name == name && base.retries == 0
    {
      base := new Worker(name);
      this.banker := banker;
      this.processId := processId;
      this.claim := claim;
    }

    /**
     * `run`, one attempt per draw: build a request, ask the allocator; a
     * grant shrinks `remaining` and, once nothing remains, the worker
     * releases everything and stops; a denial counts as a retry. The
     * attempts are `Negotiate`; the release that ends the loop follows it.
     */
    method Run(attempts: seq<Draw>) returns (outcome: Outcome, remaining: Vec, denied: nat, ghost answers: seq<bool>,
                                             ghost states: seq<State>)
      requires banker.Valid() && processId < banker.processCount
      modifies banker, base`retries
      ensures banker.Valid()
      ensures outcome.Finished? ==> answers != [] && answers[|answers| - 1]
      ensures Accounted(attempts, answers, states, remaining, denied, if outcome.Finished? then |answers| - 1 else |answers|)
      ensures states[0] == old(banker.Snapshot()) && base.retries == old(base.retries) + denied
      ensures banker.Snapshot() == if outcome.Finished? then ReleasedAll(states[|answers|], processId) else states[|answers|]
      ensures outcome.OutOfDraws? ==> |answers| == |attempts| && !(answers != [] && answers[|answers| - 1] && AllZero(remaining))
      ensures outcome.Failed? ==> answers == []
      ensures outcome.Failed? <==> claim == [] && attempts != []
      ensures |remaining| == |claim|
      ensures forall i :: 0 <= i < |remaining| ==> remaining[i] <= Max0(claim[i])
      ensures outcome.Finished? ==> AllZero(remaining) && banker.allocation[processId] == Zeros(banker.resourceCount)
      ensures old(banker.NeedFor(processId) == claim) ==>
        (outcome.Finished? || remaining == banker.NeedFor(processId))
      ensures old(banker.NeedFor(processId) == claim) && outcome.Finished? ==>
        outcome.released == Add(old(banker.allocation[processId]), claim)
    {
      ghost var mirror := banker.NeedFor(processId) == claim;
      ghost var row0 := banker.allocation[processId];
      var failed, met;
      failed, met, remaining, denied, answers, states := Negotiate(attempts, mirror, row0);
      if failed {
        outcome := Failed;
      } else if met {
        var released := ReleaseAll(remaining, mirror, row0);
        outcome := Finished(released);
      } else {
        outcome := OutOfDraws;
      }
    }

    /**
     * The attempts of a run, up to the one whose grant meets the need
     * (`met`), or until the draws run out, or until no request can be
     * built (`failed`).
     */
    method Negotiate(attempts: seq<Draw>, ghost mirror: bool, ghost row0: Vec)
      returns (failed: bool, met: bool, remaining: Vec, denied: nat, ghost answers: seq<bool>, ghost states: seq<State>)
      requires Tracks(claim, mirror, row0) && (mirror <==> banker.NeedFor(processId) == claim)
      requires row0 == banker.allocation[processId]
      modifies banker, base`retries
      ensures Tracks(remaining, mirror, row0)
      ensures met ==> !failed && answers != [] && answers[|answers| - 1] && AllZero(remaining)
      ensures Accounted(attempts, answers, states, remaining, denied, if met then |answers| - 1 else |answers|)
      ensures states[0] == old(banker.Snapshot()) && base.retries == old(base.retries) + denied
      ensures banker.Snapshot() == states[|answers|]
      ensures !failed && !met ==> |answers| == |attempts| && !(answers != [] && answers[|answers| - 1] && AllZero(remaining))
      ensures failed ==> answers == []
      ensures failed <==> claim == [] && attempts != []
    {
      ghost var s0 := banker.Snapshot();
      remaining := claim;
      denied := 0;
      answers := [];
      states := [s0];
      failed, met := false, false;
      var k := 0;
      while k < |attempts|
        invariant k <= |attempts| && |answers| == k
        invariant Accounted(attempts, answers, states, remaining, denied, k)
        invariant states[0] == s0 && base.retries == old(base.retries) + denied
        invariant banker.Snapshot() == states[k]
        invariant Tracks(remaining, mirror, row0)
        invariant k > 0 ==> claim != []
      {
        var request := BuildRequest(remaining, attempts[k].amounts, attempts[k].pick);
        if request.None? {
          failed := true;
          return;
        }
        var granted;
        granted, remaining, denied, answers, states := Bid(attempts, request.value, remaining, denied, mirror, row0, answers, states);
        if granted && AllZero(remaining) {
          met := true;
          return;
        }
        k := k + 1;
      }
    }

    /**
     * Attempt `|answers|` of a run: the allocator's answer extends the
     * replay and the negotiation by one, and a denial counts as a retry.
     */
    method Bid(attempts: seq<Draw>, request: Vec, remaining: Vec, denied: nat, ghost mirror: bool, ghost row0: Vec,
               ghost answers: seq<bool>, ghost states: seq<State>)
      returns (granted: bool, remaining': Vec, denied': nat, ghost answers': seq<bool>, ghost states': seq<State>)
      requires |answers| < |attempts| && Tracks(remaining, mirror, row0)
      requires Accounted(attempts, answers, states, remaining, denied, |answers|) && banker.Snapshot() == states[|answers|]
      requires ShapedRequest(remaining, attempts[|answers|].amounts, attempts[|answers|].pick) == Some(request)
      modifies banker, base`retries
      ensures Tracks(remaining', mirror, row0)
      ensures answers' == answers + [granted] && |states'| == |answers'| + 1
      ensures base.retries == old(base.retries) + (denied' - denied)
      ensures states'[0] == states[0] && banker.Snapshot() == states'[|answers'|]
      ensures Accounted(attempts, answers', states', remaining', denied', |answers|)
      ensures !(granted && AllZero(remaining')) ==> Accounted(attempts, answers', states', remaining', denied', |answers'|)
    {
      granted, remaining' := Attempt(request, remaining, mirror, row0, attempts[|answers|]);
      ReplaysSnoc(claim, attempts, answers, remaining, granted, remaining');
      TrailSnoc(claim, attempts, answers, granted);
      NegotiatedSnoc(processId, Trail(claim, attempts, answers), attempts, answers, states, remaining', granted, banker.Snapshot());
      answers' := answers + [granted];
      states' := states + [banker.Snapshot()];
      denied' := denied;
      if !granted {
        base.IncrementRetry();
        denied' := denied + 1;
      }
    }

    /**
     * The bookkeeping of a run after the answers `answers`: `remaining` is
     * their replay, none of the first `upto` met the need, each is the
     * allocator's answer in the state `states` records, and `denied`
     * counts the denials.
     */
    ghost predicate Accounted(attempts: seq<Draw>, answers: seq<bool>, states: seq<State>, remaining: Vec, denied: nat, upto: nat)
    {
      && Replays(claim, attempts, answers, remaining, upto)
      && Negotiated(processId, Trail(claim, attempts, answers), attempts, answers, states)
      && states[|answers|].WellFormed() && processId < |states[|answers|].allocation|
      && denied == CountFalse(answers)
    }

    /**
     * What a run keeps true: `remaining` is as long as the claim and never
     * above it, and when the run started with the claim as the worker's
     * need, `remaining` is still the allocator's need for the worker.
     */
    ghost predicate Tracks(remaining: Vec, mirror: bool, row0: Vec)
      reads banker
    {
      && banker.Valid() && processId < banker.processCount
      && |remaining| == |claim|
      && (forall i :: 0 <= i < |remaining| ==> remaining[i] <= Max0(claim[i]))
      && (mirror ==> remaining == banker.NeedFor(processId) && |row0| == |claim| &&
                     Add(row0, claim) == banker.maxClaims[processId])
    }

    /** One request to the allocator; a grant shrinks `remaining`, a denial changes nothing. */
    method Attempt(request: Vec, remaining: Vec, ghost mirror: bool, ghost row0: Vec, ghost draw: Draw)
      returns (granted: bool, remaining': Vec)
      requires Tracks(remaining, mirror, row0)
      requires ShapedRequest(remaining, draw.amounts, draw.pick) == Some(request)
      modifies banker
      ensures Tracks(remaining', mirror, row0)
      ensures remaining' == Next(remaining, draw, granted)
      ensures granted ==> remaining' == Shrink(remaining, request)
      ensures !granted ==> remaining' == remaining && banker.Snapshot() == old(banker.Snapshot())
      ensures Answers(old(banker.Snapshot()), processId, request, granted, banker.Snapshot())
    {
      ghost var s := banker.Snapshot();
      granted := banker.RequestResources(processId, request);
      if !granted {
        return granted, remaining;
      }
      remaining' := Shrink(remaining, request);
      forall i | 0 <= i < |remaining'|
        ensures remaining'[i] <= Max0(claim[i])
      {
        assert remaining'[i] <= Max0(remaining[i]);
      }
      if mirror {
        assert s.Need(processId) == remaining;
        ShrinkTracksNeed(s, processId, request);
        assert banker.NeedFor(processId) == banker.Snapshot().Need(processId);
      }
    }

    /** The release once nothing remains: with the mirror, the row given back is the starting row plus the claim. */
    method ReleaseAll(remaining: Vec, ghost mirror: bool, ghost row0: Vec) returns (released: Vec)
      requires Tracks(remaining, mirror, row0) && AllZero(remaining)
      modifies banker
      ensures banker.Valid()
      ensures banker.allocation[processId] == Zeros(banker.resourceCount)
      ensures banker.Snapshot() == ReleasedAll(old(banker.Snapshot()), processId)
      ensures mirror ==> released == Add(row0, claim)
    {
      assert mirror ==> banker.allocation[processId] == Add(row0, claim);
      released := banker.ReleaseAll(processId);
    }
  }

  /** Whether a retrying worker got its first lock, and then its second, within the timeout. */
  datatype Acquire = Acquire(gotFirst: bool, gotSecond: bool)

  predicate Succeeds(a: Acquire)
  {
    a.gotFirst && a.gotSecond
  }

  /** A worker that gives up a lock it cannot complete with and tries again. */
  class RetryWorker {
    const base: Worker

    constructor (name: string)
      ensures fresh(base) && base.name == name && base.retries == 0
    {
      base := new Worker(name);
    }

    /**
     * `run`, one attempt per acquisition outcome: a missed first lock or a
     * missed second lock counts one retry and starts over; getting both
     * ends the run. `used` attempts were made.
     */
    method Run(tries: seq<Acquire>) returns (done: bool, used: nat)
      modifies base`retries
      ensures used <= |tries|
      ensures done <==> exists i :: 0 <= i < |tries| && Succeeds(tries[i])
      ensures done ==> 0 < used && Succeeds(tries[used - 1])
      ensures forall i :: 0 <= i < |tries| && Succeeds(tries[i]) ==> used - 1 <= i
      ensures !done ==> used == |tries|
      ensures base.retries == old(base.retries) + (if done then used - 1 else used)
    {
      used := 0;
      while used < |tries|
        invariant used <= |tries|
        invariant forall i :: 0 <= i < used ==> !Succeeds(tries[i])
        invariant base.retries == old(base.retries) + used
      {
        var attempt := tries[used];
        used := used + 1;
        if !attempt.gotFirst {
          base.IncrementRetry();
          continue;
        }
        if attempt.gotSecond {
          return true, used;
        }
        base.IncrementRetry();
      }
      done := false;
    }
  }
}
