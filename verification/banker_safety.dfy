/**
 * The Banker's-algorithm state as a value, its safety notion and the facts
 * the counted allocator in module Banker relies on: conservation of units
 * under a grant or a release, preservation of the bounds, and the two
 * directions connecting the work/finish scan with the existence of a safe
 * completion order.
 */
module BankerSafety {

  type Vec = seq<int>
  type Matrix = seq<seq<int>>

  /** Componentwise `a <= b`. */
  predicate Le(a: Vec, b: Vec)
    requires |a| == |b|
  {
    forall i | 0 <= i < |a| :: a[i] <= b[i]
  }

  predicate NonNeg(a: Vec)
  {
    forall i | 0 <= i < |a| :: a[i] >= 0
  }

  function Add(a: Vec, b: Vec): (c: Vec)
    requires |a| == |b|
    ensures |c| == |a| && forall i :: 0 <= i < |a| ==> c[i] == a[i] + b[i]
  {
    seq(|a|, i requires 0 <= i < |a| => a[i] + b[i])
  }

  function Sub(a: Vec, b: Vec): (c: Vec)
    requires |a| == |b|
    ensures |c| == |a| && forall i :: 0 <= i < |a| ==> c[i] == a[i] - b[i]
  {
    seq(|a|, i requires 0 <= i < |a| => a[i] - b[i])
  }

  function Zeros(n: nat): (z: Vec)
    ensures |z| == n && forall i :: 0 <= i < n ==> z[i] == 0
  {
    seq(n, _ => 0)
  }

  /** The three tables of the allocator: free units, units held per process, declared maximum per process. */
  datatype State = State(available: Vec, allocation: Matrix, maxClaims: Matrix)
  {
    /** One allocation row and one claim row per process, each as long as `available`. */
    predicate WellFormed()
    {
      && |allocation| == |maxClaims|
      && (forall p :: 0 <= p < |allocation| ==> |allocation[p]| == |available|)
      && (forall p :: 0 <= p < |maxClaims| ==> |maxClaims[p]| == |available|)
    }

    /** What process `p` may still ask for: its claim minus its allocation. */
    function Need(p: nat): (r: Vec)
      requires WellFormed() && p < |allocation|
      ensures |r| == |available|
      ensures forall i :: 0 <= i < |r| ==> allocation[p][i] + r[i] == maxClaims[p][i]
    {
      Sub(maxClaims[p], allocation[p])
    }

    predicate AllocationNonNeg()
      requires WellFormed()
    {
      forall p :: 0 <= p < |allocation| ==> NonNeg(allocation[p])
    }

    /** No negative free count, and every allocation between zero and the claim. */
    predicate Bounded()
      requires WellFormed()
    {
      && NonNeg(available)
      && AllocationNonNeg()
      && (forall p :: 0 <= p < |allocation| ==> Le(allocation[p], maxClaims[p]))
    }
  }

  /** The state with `request` moved from `available` into row `pid`. */
  function Granted(s: State, pid: nat, request: Vec): (g: State)
    requires s.WellFormed() && pid < |s.allocation| && |request| == |s.available|
    ensures g.WellFormed() && |g.allocation| == |s.allocation| && |g.available| == |s.available|
  {
    State(Sub(s.available, request), s.allocation[pid := Add(s.allocation[pid], request)], s.maxClaims)
  }

  /** The state with row `pid` returned to `available` and zeroed. */
  function ReleasedAll(s: State, pid: nat): (g: State)
    requires s.WellFormed() && pid < |s.allocation|
    ensures g.WellFormed() && |g.allocation| == |s.allocation| && |g.available| == |s.available|
  {
    State(Add(s.available, s.allocation[pid]), s.allocation[pid := Zeros(|s.available|)], s.maxClaims)
  }

  // ---------------------------------------------------------------------
  // Conservation

  /** Units of type `r` held by processes `0 .. k-1`. */
  function Allocated(alloc: Matrix, r: nat, k: nat): int
    requires k <= |alloc| && forall p :: 0 <= p < k ==> r < |alloc[p]|
  {
    if k == 0 then 0 else Allocated(alloc, r, k - 1) + alloc[k - 1][r]
  }

  /** Total units of type `r`: free plus held. */
  function Units(s: State, r: nat): int
    requires s.WellFormed() && r < |s.available|
  {
    s.available[r] + Allocated(s.allocation, r, |s.allocation|)
  }

  lemma {:induction false} AllocatedUpdate(alloc: Matrix, pid: nat, row: Vec, r: nat, k: nat)
    requires pid < |alloc| && k <= |alloc| && r < |row|
    requires forall p :: 0 <= p < |alloc| ==> r < |alloc[p]|
    ensures Allocated(alloc[pid := row], r, k) ==
            Allocated(alloc, r, k) + (if pid < k then row[r] - alloc[pid][r] else 0)
  {
    if k > 0 {
      AllocatedUpdate(alloc, pid, row, r, k - 1);
    }
  }

  /** A grant moves units from free to held: the total of every type is unchanged. */
  lemma GrantConserves(s: State, pid: nat, request: Vec)
    requires s.WellFormed() && pid < |s.allocation| && |request| == |s.available|
    ensures forall r :: 0 <= r < |s.available| ==> Units(Granted(s, pid, request), r) == Units(s, r)
  {
    forall r | 0 <= r < |s.available|
      ensures Units(Granted(s, pid, request), r) == Units(s, r)
    {
      AllocatedUpdate(s.allocation, pid, Add(s.allocation[pid], request), r, |s.allocation|);
    }
  }

  /** A release moves units from held to free: the total of every type is unchanged. */
  lemma ReleaseConserves(s: State, pid: nat)
    requires s.WellFormed() && pid < |s.allocation|
    ensures forall r :: 0 <= r < |s.available| ==> Units(ReleasedAll(s, pid), r) == Units(s, r)
  {
    forall r | 0 <= r < |s.available|
      ensures Units(ReleasedAll(s, pid), r) == Units(s, r)
    {
      AllocatedUpdate(s.allocation, pid, Zeros(|s.available|), r, |s.allocation|);
    }
  }

  /** A non-negative request within need and within availability keeps every bound. */
  lemma GrantKeepsBounds(s: State, pid: nat, request: Vec)
    requires s.WellFormed() && pid < |s.allocation| && |request| == |s.available|
    requires s.Bounded() && NonNeg(request) && Le(request, s.Need(pid)) && Le(request, s.available)
    ensures Granted(s, pid, request).Bounded()
  {
    var g := Granted(s, pid, request);
    forall p | 0 <= p < |g.allocation|
      ensures NonNeg(g.allocation[p]) && Le(g.allocation[p], g.maxClaims[p])
    {
      if p == pid {
        assert forall i :: 0 <= i < |request| ==> request[i] <= s.Need(pid)[i];
      } else {
        assert g.allocation[p] == s.allocation[p];
      }
    }
  }

  /** Releasing a bounded row keeps every bound. */
  lemma ReleaseKeepsBounds(s: State, pid: nat)
    requires s.WellFormed() && pid < |s.allocation| && s.Bounded()
    ensures ReleasedAll(s, pid).Bounded()
  {
    var g := ReleasedAll(s, pid);
    forall p | 0 <= p < |g.allocation|
      ensures NonNeg(g.allocation[p]) && Le(g.allocation[p], g.maxClaims[p])
    {
      if p == pid {
        assert NonNeg(s.allocation[pid]) && Le(s.allocation[pid], s.maxClaims[pid]);
      } else {
        assert g.allocation[p] == s.allocation[p];
      }
    }
  }

  // ---------------------------------------------------------------------
  // Safety

  /** Units of type `r` held by the processes among `0 .. k-1` that `mask` marks. */
  function MaskedSum(alloc: Matrix, mask: seq<bool>, r: nat, k: nat): int
    requires k <= |alloc| && k <= |mask| && forall p :: 0 <= p < k ==> r < |alloc[p]|
  {
    if k == 0 then 0 else MaskedSum(alloc, mask, r, k - 1) + (if mask[k - 1] then alloc[k - 1][r] else 0)
  }

  /** Free units once every process marked in `mask` has finished and returned its allocation. */
  function Work(s: State, mask: seq<bool>): (w: Vec)
    requires s.WellFormed() && |mask| == |s.allocation|
    ensures |w| == |s.available|
    ensures forall r :: 0 <= r < |w| ==> w[r] == s.available[r] + MaskedSum(s.allocation, mask, r, |mask|)
  {
    seq(|s.available|, r requires 0 <= r < |s.available| => s.available[r] + MaskedSum(s.allocation, mask, r, |mask|))
  }

  /** The mask of the processes listed in `xs`. */
  function MaskOf(m: nat, xs: seq<nat>): (mask: seq<bool>)
    ensures |mask| == m && forall p :: 0 <= p < m ==> (mask[p] <==> p in xs)
  {
    seq(m, p => p in xs)
  }

  /**
   * `order` lists every process, and each process in turn can obtain its
   * whole remaining need from what is free once the processes before it
   * have finished and returned their allocations.
   */
  ghost predicate IsSafeSequence(s: State, order: seq<nat>)
    requires s.WellFormed()
  {
    && (forall k :: 0 <= k < |order| ==> order[k] < |s.allocation|)
    && (forall p :: 0 <= p < |s.allocation| ==> p in order)
    && (forall k :: 0 <= k < |order| ==> Le(s.Need(order[k]), Work(s, MaskOf(|s.allocation|, order[..k]))))
  }

  /** A safe state: some completion order lets every process finish. */
  ghost predicate Safe(s: State)
    requires s.WellFormed()
  {
    exists order :: IsSafeSequence(s, order)
  }

  /** Number of processes not yet marked finished. */
  function CountFalse(mask: seq<bool>): nat
  {
    if mask == [] then 0 else CountFalse(mask[..|mask| - 1]) + (if mask[|mask| - 1] then 0 else 1)
  }

  lemma {:induction false} CountFalseSet(mask: seq<bool>, p: nat)
    requires p < |mask| && !mask[p]
    ensures CountFalse(mask[p := true]) + 1 == CountFalse(mask)
  {
    var n := |mask|;
    if p < n - 1 {
      assert mask[p := true][..n - 1] == mask[..n - 1][p := true];
      CountFalseSet(mask[..n - 1], p);
    } else {
      assert mask[p := true][..n - 1] == mask[..n - 1];
    }
  }

  lemma {:induction false} MaskedSumSet(alloc: Matrix, mask: seq<bool>, r: nat, k: nat, p: nat)
    requires k <= |alloc| && k <= |mask| && p < |mask| && !mask[p]
    requires forall q :: 0 <= q < |alloc| ==> r < |alloc[q]|
    requires p < |alloc|
    ensures MaskedSum(alloc, mask[p := true], r, k) == MaskedSum(alloc, mask, r, k) + (if p < k then alloc[p][r] else 0)
  {
    if k > 0 {
      MaskedSumSet(alloc, mask, r, k - 1, p);
    }
  }

  /** Finishing process `p` adds exactly its allocation to the work vector. */
  lemma WorkAfterFinish(s: State, mask: seq<bool>, p: nat)
    requires s.WellFormed() && |mask| == |s.allocation| && p < |mask| && !mask[p]
    ensures Work(s, mask[p := true]) == Add(Work(s, mask), s.allocation[p])
  {
    forall r | 0 <= r < |s.available|
      ensures Work(s, mask[p := true])[r] == Add(Work(s, mask), s.allocation[p])[r]
    {
      MaskedSumSet(s.allocation, mask, r, |mask|, p);
    }
  }

  lemma {:induction false} MaskedSumMonotone(alloc: Matrix, m1: seq<bool>, m2: seq<bool>, r: nat, k: nat)
    requires k <= |alloc| && k <= |m1| && k <= |m2|
    requires forall q :: 0 <= q < k ==> r < |alloc[q]| && alloc[q][r] >= 0
    requires forall q :: 0 <= q < k && m1[q] ==> m2[q]
    ensures MaskedSum(alloc, m1, r, k) <= MaskedSum(alloc, m2, r, k)
  {
    if k > 0 {
      MaskedSumMonotone(alloc, m1, m2, r, k - 1);
    }
  }

  /**
   * Any safe order has a first process the scan has not finished; every
   * process before it is finished, so (allocations being non-negative) its
   * need also fits the scan's larger work vector.
   */
  lemma SafeImpliesProgress(s: State, finish: seq<bool>)
    requires s.WellFormed() && s.AllocationNonNeg() && |finish| == |s.allocation|
    requires exists q :: 0 <= q < |finish| && !finish[q]
    ensures Safe(s) ==> exists q :: 0 <= q < |finish| && !finish[q] && Le(s.Need(q), Work(s, finish))
  {
    var m := |s.allocation|;
    if order :| IsSafeSequence(s, order) {
      var q :| 0 <= q < m && !finish[q];
      assert q in order;
      var idx :| 0 <= idx < |order| && order[idx] == q;
      var k := 0;
      while finish[order[k]]
        invariant 0 <= k <= idx
        invariant forall j :: 0 <= j < k ==> finish[order[j]]
        decreases idx - k
      {
        k := k + 1;
      }
      var prefix := MaskOf(m, order[..k]);
      forall r | 0 <= r < |s.available|
        ensures Work(s, prefix)[r] <= Work(s, finish)[r]
      {
        forall p | 0 <= p < m && prefix[p]
          ensures finish[p]
        {
          var j :| 0 <= j < k && order[..k][j] == p;
        }
        forall p | 0 <= p < m
          ensures s.allocation[p][r] >= 0
        {
          assert NonNeg(s.allocation[p]);
        }
        MaskedSumMonotone(s.allocation, prefix, finish, r, m);
      }
      assert Le(s.Need(order[k]), Work(s, prefix));
      assert Le(s.Need(order[k]), Work(s, finish));
    }
  }

  /**
   * Completeness of the scan: when some process is unfinished and no
   * unfinished process fits in the work vector, no safe order exists.
   */
  lemma NoSafeSequenceWhenStuck(s: State, finish: seq<bool>)
    requires s.WellFormed() && s.AllocationNonNeg() && |finish| == |s.allocation|
    requires exists q :: 0 <= q < |finish| && !finish[q]
    requires forall q :: 0 <= q < |finish| && !finish[q] ==> !Le(s.Need(q), Work(s, finish))
    ensures !Safe(s)
  {
    SafeImpliesProgress(s, finish);
  }

  /** Soundness of the scan: the order in which it finished processes is a safe order. */
  lemma ScanOrderIsSafe(s: State, order: seq<nat>, finish: seq<bool>)
    requires s.WellFormed() && |finish| == |s.allocation|
    requires forall p :: 0 <= p < |finish| ==> finish[p]
    requires forall p :: 0 <= p < |finish| ==> (finish[p] <==> p in order)
    requires forall k :: 0 <= k < |order| ==> order[k] < |s.allocation|
    requires forall k :: 0 <= k < |order| ==> Le(s.Need(order[k]), Work(s, MaskOf(|s.allocation|, order[..k])))
    ensures Safe(s)
  {
    assert IsSafeSequence(s, order);
  }
}
