/**
 * The counted Banker's allocator: a free vector, an allocation matrix and
 * a claim matrix, updated in place by atomic request and release
 * operations. The lock that makes each operation a critical section is
 * not modelled: every method runs as one sequential step.
 */
module Banker {
  import opened BankerSafety

  /** A request the allocator may consider at all: right length, non-negative, within need and within availability. */
  predicate Admissible(s: State, pid: nat, request: Vec)
    requires s.WellFormed() && pid < |s.allocation|
  {
    && |request| == |s.available|
    && NonNeg(request)
    && Le(request, s.Need(pid))
    && Le(request, s.available)
  }

  class Banker {
    const resourceCount: nat
    const processCount: nat
    var available: seq<int>
    var allocation: seq<seq<int>>
    const maxClaims: seq<seq<int>>
    /** The free vector given at construction: the total of every resource type. */
    ghost const total: seq<int>

    /** Shapes agree and, for every type, free plus held units equal the initial total. */
    ghost predicate Valid()
      reads this
    {
      && |available| == resourceCount && |total| == resourceCount
      && |allocation| == processCount && |maxClaims| == processCount
      && State(available, allocation, maxClaims).WellFormed()
      && forall r :: 0 <= r < resourceCount ==> Units(State(available, allocation, maxClaims), r) == total[r]
    }

    /** A copy of the three tables. */
    function Snapshot(): (s: State)
      reads this
      ensures Valid() ==> s.WellFormed() && |s.available| == resourceCount && |s.allocation| == processCount
      ensures Valid() ==> forall r :: 0 <= r < resourceCount ==> Units(s, r) == total[r]
    {
      State(available, allocation, maxClaims)
    }

    /** Everything free, nothing allocated; `available` fixes the totals. */
    constructor (available: seq<int>, maxClaims: seq<seq<int>>)
      requires forall p :: 0 <= p < |maxClaims| ==> |maxClaims[p]| == |available|
      ensures Valid() && total == available
      ensures Snapshot() == State(available, seq(|maxClaims|, _ => Zeros(|available|)), maxClaims)
      ensures Snapshot().Bounded() <==> NonNeg(available) && forall p :: 0 <= p < |maxClaims| ==> NonNeg(maxClaims[p])
    {
      resourceCount := |available|;
      processCount := |maxClaims|;
      this.available := available;
      this.maxClaims := maxClaims;
      allocation := seq(|maxClaims|, _ => Zeros(|available|));
      total := available;
      new;
      forall r | 0 <= r < resourceCount
        ensures Units(State(this.available, allocation, this.maxClaims), r) == total[r]
      {
        AllocatedZero(allocation, r, processCount);
      }
      var s := Snapshot();
      if NonNeg(available) && forall p :: 0 <= p < |maxClaims| ==> NonNeg(maxClaims[p]) {
        forall p | 0 <= p < processCount
          ensures Le(s.allocation[p], s.maxClaims[p])
        {
          assert NonNeg(maxClaims[p]);
        }
      }
      if s.Bounded() {
        forall p | 0 <= p < processCount
          ensures NonNeg(maxClaims[p])
        {
          assert Le(s.allocation[p], s.maxClaims[p]);
        }
      }
    }

    /** Need of `pid`: what it may still ask for before reaching its claim. */
    function NeedFor(pid: nat): (need: seq<int>)
      reads this
      requires Valid() && pid < processCount
      ensures |need| == resourceCount
      ensures forall i :: 0 <= i < resourceCount ==> allocation[pid][i] + need[i] == maxClaims[pid][i]
    {
      Sub(maxClaims[pid], allocation[pid])
    }

    /** True iff adding the request (compared over the common length) keeps row `pid` within its claim. */
    function WithinNeed(pid: nat, request: seq<int>): (b: bool)
      reads this
      requires Valid() && pid < processCount
      ensures b <==> forall i :: 0 <= i < |request| && i < resourceCount ==> allocation[pid][i] + request[i] <= maxClaims[pid][i]
    {
      var need := NeedFor(pid);
      forall i | 0 <= i < |request| && i < |need| :: request[i] <= need[i]
    }

    /** True iff taking the request (compared over the common length) leaves no free count negative. */
    function FitsAvailable(request: seq<int>): (b: bool)
      reads this
      requires Valid()
      ensures b <==> forall i :: 0 <= i < |request| && i < resourceCount ==> available[i] - request[i] >= 0
    {
      forall i | 0 <= i < |request| && i < |available| :: request[i] <= available[i]
    }

    /**
     * The work/finish scan on a copy of the tables with the request
     * applied. It changes nothing (no modifies clause). A true answer
     * means the granted state is safe; when that state's allocations are
     * non-negative, a false answer means it is not.
     */
    method SafeIfGranted(pid: nat, request: seq<int>) returns (safe: bool)
      requires Valid() && pid < processCount && |request| == resourceCount
      ensures safe ==> Safe(Granted(Snapshot(), pid, request))
      ensures Granted(Snapshot(), pid, request).AllocationNonNeg() ==> (Safe(Granted(Snapshot(), pid, request)) ==> safe)
    {
      var available := this.available;
      var allocation := this.allocation;
      var maxClaims := this.maxClaims;
      for idx := 0 to resourceCount
        invariant |available| == resourceCount && |allocation| == processCount && |allocation[pid]| == resourceCount
        invariant allocation == this.allocation[pid := allocation[pid]]
        invariant forall i :: 0 <= i < idx ==> available[i] == this.available[i] - request[i]
        invariant forall i :: 0 <= i < idx ==> allocation[pid][i] == this.allocation[pid][i] + request[i]
        invariant forall i :: idx <= i < resourceCount ==> available[i] == this.available[i]
        invariant forall i :: idx <= i < resourceCount ==> allocation[pid][i] == this.allocation[pid][i]
      {
        available := available[idx := available[idx] - request[idx]];
        allocation := allocation[pid := allocation[pid][idx := allocation[pid][idx] + request[idx]]];
      }
      assert allocation[pid] == Add(this.allocation[pid], request);
      var g := State(available, allocation, maxClaims);
      assert g == Granted(Snapshot(), pid, request);

      var need := seq(processCount, p requires 0 <= p < processCount => Sub(maxClaims[p], allocation[p]));
      var work := available;
      var finish := seq(processCount, _ => false);
      ghost var order: seq<nat> := [];
      WorkNoneFinished(g, finish);

      while true
        invariant ScanInv(g, need, work, finish, order)
        decreases CountFalse(finish)
      {
        var progressed;
        work, finish, order, progressed := ScanPass(g, need, work, finish, order);
        if !progressed {
          break;
        }
      }
      safe := forall p | 0 <= p < processCount :: finish[p];
      if safe {
        ScanOrderIsSafe(g, order, finish);
      } else if g.AllocationNonNeg() {
        NoSafeSequenceWhenStuck(g, finish);
      }
    }

    /**
     * Grants `request` to `pid` iff it has one entry per type, none
     * negative, fits within the need and within the free units, and the
     * granted state passes the safety scan; a grant moves exactly
     * `request` from `available` to row `pid`, a denial changes nothing.
     */
    method RequestResources(pid: nat, request: seq<int>) returns (granted: bool)
      requires Valid() && pid < processCount
      modifies this
      ensures Valid()
      ensures granted ==> Admissible(old(Snapshot()), pid, request)
      ensures granted ==> Snapshot() == Granted(old(Snapshot()), pid, request)
      ensures granted ==> Safe(Snapshot())
      ensures !granted ==> Snapshot() == old(Snapshot())
      ensures old(Snapshot().Bounded()) ==>
        (granted <==> Admissible(old(Snapshot()), pid, request) && Safe(Granted(old(Snapshot()), pid, request)))
      ensures old(Snapshot().Bounded()) ==> Snapshot().Bounded()
    {
      if |request| != resourceCount || exists i | 0 <= i < |request| :: request[i] < 0 {
        return false;
      }
      ghost var s := Snapshot();
      if !WithinNeed(pid, request) {
        return false;
      }
      if !FitsAvailable(request) {
        return false;
      }
      assert Admissible(s, pid, request);
      var ok := SafeIfGranted(pid, request);
      if !ok {
        if s.Bounded() {
          GrantedNonNeg(s, pid, request);
        }
        return false;
      }
      Apply(pid, request);
      granted := true;
    }

    /** The grant itself: `request` moves from `available` to row `pid`, type by type. */
    method Apply(pid: nat, request: seq<int>)
      requires Valid() && pid < processCount && Admissible(Snapshot(), pid, request)
      modifies this
      ensures Valid()
      ensures Snapshot() == Granted(old(Snapshot()), pid, request)
      ensures old(Snapshot().Bounded()) ==> Snapshot().Bounded()
    {
      ghost var s := Snapshot();
      for idx := 0 to resourceCount
        invariant |available| == resourceCount && |allocation| == processCount && |allocation[pid]| == resourceCount
        invariant allocation == s.allocation[pid := allocation[pid]]
        invariant forall i :: 0 <= i < idx ==> available[i] == s.available[i] - request[i]
        invariant forall i :: 0 <= i < idx ==> allocation[pid][i] == s.allocation[pid][i] + request[i]
        invariant forall i :: idx <= i < resourceCount ==> available[i] == s.available[i]
        invariant forall i :: idx <= i < resourceCount ==> allocation[pid][i] == s.allocation[pid][i]
      {
        available := available[idx := available[idx] - request[idx]];
        allocation := allocation[pid := allocation[pid][idx := allocation[pid][idx] + request[idx]]];
      }
      assert allocation[pid] == Add(s.allocation[pid], request);
      assert Snapshot() == Granted(s, pid, request);
      GrantConserves(s, pid, request);
      if s.Bounded() {
        GrantKeepsBounds(s, pid, request);
      }
    }

    /** Returns row `pid` as it was, adds it back to `available` and zeroes it. */
    method ReleaseAll(pid: nat) returns (released: seq<int>)
      requires Valid() && pid < processCount
      modifies this
      ensures Valid()
      ensures released == old(allocation[pid])
      ensures Snapshot() == ReleasedAll(old(Snapshot()), pid)
      ensures old(Snapshot().Bounded()) ==> Snapshot().Bounded()
    {
      ghost var s := Snapshot();
      released := [];
      for idx := 0 to resourceCount
        invariant |available| == resourceCount && |allocation| == processCount && |allocation[pid]| == resourceCount
        invariant allocation == s.allocation[pid := allocation[pid]]
        invariant released == s.allocation[pid][..idx]
        invariant forall i :: 0 <= i < idx ==> available[i] == s.available[i] + s.allocation[pid][i]
        invariant forall i :: 0 <= i < idx ==> allocation[pid][i] == 0
        invariant forall i :: idx <= i < resourceCount ==> available[i] == s.available[i]
        invariant forall i :: idx <= i < resourceCount ==> allocation[pid][i] == s.allocation[pid][i]
      {
        var amount := allocation[pid][idx];
        released := released + [amount];
        available := available[idx := available[idx] + amount];
        allocation := allocation[pid := allocation[pid][idx := 0]];
      }
      assert released == s.allocation[pid];
      assert allocation[pid] == Zeros(resourceCount);
      assert Snapshot() == ReleasedAll(s, pid);
      ReleaseConserves(s, pid);
      if s.Bounded() {
        ReleaseKeepsBounds(s, pid);
      }
    }
  }

  /**
   * What the scan keeps true: `need` is the need matrix of `g`, `work` is
   * the free vector plus the allocations of the finished processes, and
   * `order` lists the finished processes in an order in which each could
   * finish.
   */
  ghost predicate ScanInv(g: State, need: seq<Vec>, work: Vec, finish: seq<bool>, order: seq<nat>)
  {
    && g.WellFormed()
    && |need| == |g.allocation| && (forall q :: 0 <= q < |need| ==> need[q] == g.Need(q))
    && |work| == |g.available| && |finish| == |g.allocation|
    && work == Work(g, finish)
    && (forall p :: 0 <= p < |finish| ==> (finish[p] <==> p in order))
    && (forall k :: 0 <= k < |order| ==> order[k] < |g.allocation|)
    && (forall k :: 0 <= k < |order| ==> Le(g.Need(order[k]), Work(g, MaskOf(|g.allocation|, order[..k]))))
  }

  /** Finishing an unfinished process whose need fits keeps the scan invariant. */
  lemma FinishKeepsScanInv(g: State, need: seq<Vec>, work: Vec, finish: seq<bool>, order: seq<nat>, p: nat)
    requires ScanInv(g, need, work, finish, order)
    requires p < |finish| && !finish[p] && Le(need[p], work)
    ensures ScanInv(g, need, Add(work, g.allocation[p]), finish[p := true], order + [p])
    ensures CountFalse(finish[p := true]) < CountFalse(finish)
  {
    var m := |g.allocation|;
    var order' := order + [p];
    assert MaskOf(m, order) == finish;
    forall k | 0 <= k < |order'|
      ensures Le(g.Need(order'[k]), Work(g, MaskOf(m, order'[..k])))
    {
      if k < |order| {
        assert order'[..k] == order[..k];
      } else {
        assert order'[..k] == order;
      }
    }
    WorkAfterFinish(g, finish, p);
    CountFalseSet(finish, p);
  }

  /**
   * One pass of the scan: visits the processes in index order and
   * finishes every unfinished one whose need fits the current work
   * vector, adding its allocation to the work vector.
   */
  method ScanPass(g: State, need: seq<Vec>, work: Vec, finish: seq<bool>, ghost order: seq<nat>)
    returns (work': Vec, finish': seq<bool>, ghost order': seq<nat>, progressed: bool)
    requires ScanInv(g, need, work, finish, order)
    ensures ScanInv(g, need, work', finish', order')
    ensures progressed ==> CountFalse(finish') < CountFalse(finish)
    ensures !progressed ==> forall q :: 0 <= q < |finish'| && !finish'[q] ==> !Le(need[q], work')
  {
    work', finish', order', progressed := work, finish, order, false;
    for proc := 0 to |finish|
      invariant ScanInv(g, need, work', finish', order')
      invariant CountFalse(finish') <= CountFalse(finish)
      invariant progressed ==> CountFalse(finish') < CountFalse(finish)
      invariant !progressed ==> forall q :: 0 <= q < proc && !finish'[q] ==> !Le(need[q], work')
    {
      if finish'[proc] {
        continue;
      }
      if Le(need[proc], work') {
        FinishKeepsScanInv(g, need, work', finish', order', proc);
        work' := AddRow(work', g.allocation[proc]);
        finish' := finish'[proc := true];
        order' := order' + [proc];
        progressed := true;
      }
    }
  }

  /** The finished process returns its allocation: `work[r] += row[r]` for every type. */
  method AddRow(work: Vec, row: Vec) returns (work': Vec)
    requires |work| == |row|
    ensures work' == Add(work, row)
  {
    work' := work;
    for r := 0 to |work|
      invariant |work'| == |work|
      invariant forall i :: 0 <= i < r ==> work'[i] == work[i] + row[i]
      invariant forall i :: r <= i < |work| ==> work'[i] == work[i]
    {
      work' := work'[r := work'[r] + row[r]];
    }
  }

  lemma {:induction false} AllocatedZero(alloc: Matrix, r: nat, k: nat)
    requires k <= |alloc| && forall p :: 0 <= p < |alloc| ==> r < |alloc[p]| && alloc[p][r] == 0
    ensures Allocated(alloc, r, k) == 0
  {
    if k > 0 {
      AllocatedZero(alloc, r, k - 1);
    }
  }

  /** Before any process has finished, the work vector is the free vector. */
  lemma WorkNoneFinished(s: State, finish: seq<bool>)
    requires s.WellFormed() && |finish| == |s.allocation| && forall p :: 0 <= p < |finish| ==> !finish[p]
    ensures Work(s, finish) == s.available
  {
    forall r | 0 <= r < |s.available|
      ensures MaskedSum(s.allocation, finish, r, |finish|) == 0
    {
      MaskedSumNone(s.allocation, finish, r, |finish|);
    }
  }

  lemma {:induction false} MaskedSumNone(alloc: Matrix, mask: seq<bool>, r: nat, k: nat)
    requires k <= |alloc| && k <= |mask| && forall p :: 0 <= p < k ==> r < |alloc[p]| && !mask[p]
    ensures MaskedSum(alloc, mask, r, k) == 0
  {
    if k > 0 {
      MaskedSumNone(alloc, mask, r, k - 1);
    }
  }

  /** From a bounded state, a non-negative request leaves every allocation non-negative. */
  lemma GrantedNonNeg(s: State, pid: nat, request: Vec)
    requires s.WellFormed() && pid < |s.allocation| && |request| == |s.available|
    requires s.Bounded() && NonNeg(request)
    ensures Granted(s, pid, request).AllocationNonNeg()
  {
    var g := Granted(s, pid, request);
    forall p | 0 <= p < |g.allocation|
      ensures NonNeg(g.allocation[p])
    {
      assert NonNeg(s.allocation[p]);
    }
  }
}
