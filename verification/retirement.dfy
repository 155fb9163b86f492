/**
 * The safety notion the lock manager's Banker mode uses for unit
 * resources, stated declaratively: a grant is safe when the live
 * processes can be retired one after another, each finding every
 * resource of its plan it does not hold among the free resources plus
 * those given back by the processes retired before it.
 */
module Retirement {
  import opened Models

  /** `d.get(k, set())`. */
  function Get(m: map<Pid, set<Rid>>, k: Pid): set<Rid>
  {
    if k in m then m[k] else {}
  }

  /** What process `p` still lacks: its planned resources it does not hold. */
  function Need(plans: map<Pid, set<Rid>>, held: map<Pid, set<Rid>>, p: Pid): set<Rid>
    requires p in plans
  {
    plans[p] - Get(held, p)
  }

  /** The resources given back by the processes of `xs`. */
  function Released(held: map<Pid, set<Rid>>, xs: seq<Pid>): (r: set<Rid>)
    ensures forall x :: x in xs ==> Get(held, x) <= r
  {
    if xs == [] then {}
    else
      var init := xs[..|xs| - 1];
      assert forall x :: x in xs ==> x in init || x == xs[|xs| - 1];
      Released(held, init) + Get(held, xs[|xs| - 1])
  }

  /** Each process of `order` is pending and can finish once its predecessors have released. */
  ghost predicate Covers(avail: set<Rid>, plans: map<Pid, set<Rid>>, held: map<Pid, set<Rid>>,
                         pending: set<Pid>, order: seq<Pid>)
  {
    forall k :: 0 <= k < |order| ==>
      order[k] in pending && order[k] in plans &&
      Need(plans, held, order[k]) <= avail + Released(held, order[..k])
  }

  /** `order` retires every pending process. */
  ghost predicate IsRetireOrder(avail: set<Rid>, plans: map<Pid, set<Rid>>, held: map<Pid, set<Rid>>,
                                pending: set<Pid>, order: seq<Pid>)
  {
    Covers(avail, plans, held, pending, order) && forall p :: p in pending ==> p in order
  }

  ghost predicate CanRetireAll(avail: set<Rid>, plans: map<Pid, set<Rid>>, held: map<Pid, set<Rid>>,
                               pending: set<Pid>)
  {
    exists order :: IsRetireOrder(avail, plans, held, pending, order)
  }

  /** Releasing the processes of a subsequence gives back no more than releasing the whole. */
  lemma ReleasedSubset(held: map<Pid, set<Rid>>, xs: seq<Pid>, ys: seq<Pid>)
    requires forall x :: x in xs ==> x in ys
    ensures Released(held, xs) <= Released(held, ys)
    decreases |xs|
  {
    if xs != [] {
      var init := xs[..|xs| - 1];
      ReleasedSubset(held, init, ys);
    }
  }

  /** Retiring one more process whose need is covered keeps the order covering. */
  lemma {:induction false} CoversExtend(avail: set<Rid>, plans: map<Pid, set<Rid>>, held: map<Pid, set<Rid>>,
                                        pending: set<Pid>, order: seq<Pid>, p: Pid)
    requires Covers(avail, plans, held, pending, order)
    requires p in pending && p in plans && Need(plans, held, p) <= avail + Released(held, order)
    ensures Covers(avail, plans, held, pending, order + [p])
    ensures Released(held, order + [p]) == Released(held, order) + Get(held, p)
  {
    var o := order + [p];
    assert o[..|order|] == order;
    forall k | 0 <= k < |order|
      ensures o[..k] == order[..k]
    {
    }
  }

  /** Moving `x` from the unfinished set to the end of the order keeps every retired process in the order. */
  lemma RetiredStep(pending: set<Pid>, unfinished: set<Pid>, order: seq<Pid>, x: Pid)
    requires forall p :: p in pending && p !in unfinished ==> p in order
    ensures forall p :: p in pending && p !in unfinished - {x} ==> p in order + [x]
  {
  }

  /**
   * If every pending process can be retired, then among the processes not
   * yet retired by a scan there is one whose need is covered by what the
   * scan's retired processes gave back: a scan that finds none can stop
   * with the answer "unsafe".
   */
  lemma {:induction false} RetirableImpliesProgress(avail: set<Rid>, plans: map<Pid, set<Rid>>,
                                                     held: map<Pid, set<Rid>>, pending: set<Pid>,
                                                     done: seq<Pid>, unfinished: set<Pid>)
    requires unfinished != {} && unfinished <= pending && unfinished <= plans.Keys
    requires forall p :: p in pending && p !in unfinished ==> p in done
    ensures CanRetireAll(avail, plans, held, pending) ==>
      exists p :: p in unfinished && Need(plans, held, p) <= avail + Released(held, done)
  {
    if CanRetireAll(avail, plans, held, pending) {
      var order :| IsRetireOrder(avail, plans, held, pending, order);
      var k := FirstIn(order, unfinished);
      forall x | x in order[..k]
        ensures x in done
      {
        var j :| 0 <= j < k && order[j] == x;
        assert order[j] in pending;
      }
      ReleasedSubset(held, order[..k], done);
      assert Need(plans, held, order[k]) <= avail + Released(held, done);
    }
  }

  /** The first position of `xs` holding an element of the non-empty set `s`, all of whose elements occur in `xs`. */
  lemma FirstIn(xs: seq<Pid>, s: set<Pid>) returns (k: nat)
    requires s != {} && forall p :: p in s ==> p in xs
    ensures k < |xs| && xs[k] in s
    ensures forall j :: 0 <= j < k ==> xs[j] !in s
  {
    var u :| u in s;
    assert u in xs;
    k := 0;
    while xs[k] !in s
      invariant k < |xs|
      invariant exists j :: k <= j < |xs| && xs[j] in s
      invariant forall j :: 0 <= j < k ==> xs[j] !in s
      decreases |xs| - k
    {
      k := k + 1;
    }
  }
}
