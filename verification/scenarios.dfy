/**
 * Building the processes and resources of a simulation
 * (fs_deadlock_sim/scenarios.py): numbered resource ids, typed resource
 * families A/B/C, the per-scenario defaults, and one random sample of
 * resource ids as each process's plan. The random generator is replaced
 * by explicit draws; `Sample` turns any draws into a sample without
 * replacement, and every such sample arises from some draws.
 */
module Scenarios {
  import opened Wrappers
  import opened Models
  import Text

  /** `len(range(n))`. */
  function Count(n: int): nat
  {
    if n < 0 then 0 else n
  }

  /** Python's `x or d` for an optional integer: a missing value and 0 are both falsy. */
  function Or(x: Option<int>, d: int): (r: int)
    ensures (x.Some? && x.value != 0) ==> r == x.value
    ensures (x.None? || x.value == 0) ==> r == d
  {
    if x.Some? && x.value != 0 then x.value else d
  }

  /** `f"{prefix}{i + 1}"`. */
  function NumberedId(prefix: char, i: nat): (id: string)
    ensures |id| >= 2 && id[0] == prefix
  {
    [prefix] + Text.Show(i + 1)
  }

  /** Numbered ids never collide: the prefix and the number can be read back. */
  lemma NumberedIdInjective(p: char, q: char, i: nat, j: nat)
    ensures NumberedId(p, i) == NumberedId(q, j) <==> p == q && i == j
  {
    if NumberedId(p, i) == NumberedId(q, j) {
      assert Text.Show(i + 1) == NumberedId(p, i)[1..] == NumberedId(q, j)[1..] == Text.Show(j + 1);
      Text.ShowInjective(i + 1, j + 1);
    }
  }

  /** `[f"{prefix}{i + 1}" for i in range(n)]`. */
  function NumberedIds(prefix: char, n: nat): (ids: seq<Rid>)
    ensures |ids| == n && forall i :: 0 <= i < n ==> ids[i] == NumberedId(prefix, i)
  {
    seq(n, i requires 0 <= i => NumberedId(prefix, i))
  }

  predicate Distinct(xs: seq<string>)
  {
    forall i, j :: 0 <= i < j < |xs| ==> xs[i] != xs[j]
  }

  /** The ids of the typed resources: A1.., then B1.., then C1... */
  function TypedIds(a: int, b: int, c: int): (ids: seq<Rid>)
    ensures |ids| == Count(a) + Count(b) + Count(c)
  {
    NumberedIds('A', Count(a)) + NumberedIds('B', Count(b)) + NumberedIds('C', Count(c))
  }

  /** Within a family and across families, resource ids are distinct. */
  lemma TypedIdsDistinct(a: int, b: int, c: int)
    ensures Distinct(TypedIds(a, b, c))
  {
    var ra, rb, rc := NumberedIds('A', Count(a)), NumberedIds('B', Count(b)), NumberedIds('C', Count(c));
    NumberedIdsDistinct('A', Count(a));
    NumberedIdsDistinct('B', Count(b));
    NumberedIdsDistinct('C', Count(c));
    DistinctAppend(ra, rb);
    forall i, j | 0 <= i < |ra + rb| && 0 <= j < |rc|
      ensures (ra + rb)[i] != rc[j]
    {
      assert rc[j][0] == 'C';
      if i < |ra| {
        assert (ra + rb)[i][0] == 'A';
      } else {
        assert (ra + rb)[i] == rb[i - |ra|];
      }
    }
    DistinctAppend(ra + rb, rc);
  }

  /** Two distinct lists with no element in common concatenate to a distinct list. */
  lemma DistinctAppend(xs: seq<string>, ys: seq<string>)
    requires Distinct(xs) && Distinct(ys)
    requires forall i, j :: 0 <= i < |xs| && 0 <= j < |ys| ==> xs[i] != ys[j]
    ensures Distinct(xs + ys)
  {
    forall i, j | 0 <= i < j < |xs + ys|
      ensures (xs + ys)[i] != (xs + ys)[j]
    {
      if j < |xs| {
      } else if i < |xs| {
        assert (xs + ys)[j] == ys[j - |xs|];
      } else {
        assert (xs + ys)[i] == ys[i - |xs|] && (xs + ys)[j] == ys[j - |xs|];
      }
    }
  }

  lemma NumberedIdsDistinct(prefix: char, n: nat)
    ensures Distinct(NumberedIds(prefix, n))
  {
    forall i, j | 0 <= i < j < n
      ensures NumberedIds(prefix, n)[i] != NumberedIds(prefix, n)[j]
    {
      NumberedIdInjective(prefix, prefix, i, j);
    }
  }

  /** The sizes and resource ids a build settles on before drawing plans. */
  datatype Setup = Setup(numProcesses: int, numResources: int, resourceIds: seq<Rid>)

  /** The typed family sizes: a missing count is 0, and an all-zero total becomes one of each. */
  function TypedCounts(resA: Option<int>, resB: Option<int>, resC: Option<int>): (counts: (int, int, int))
    ensures Or(resA, 0) + Or(resB, 0) + Or(resC, 0) == 0 ==> counts == (1, 1, 1)
    ensures Or(resA, 0) + Or(resB, 0) + Or(resC, 0) != 0 ==> counts == (Or(resA, 0), Or(resB, 0), Or(resC, 0))
  {
    var a, b, c := Or(resA, 0), Or(resB, 0), Or(resC, 0);
    if a + b + c == 0 then (1, 1, 1) else (a, b, c)
  }

  /** The default process and resource counts of a scenario. */
  function Defaults(scenario: Option<string>): (d: (int, int))
  {
    if scenario == Some("low") then (3, 10)
    else if scenario == Some("high") then (10, 3)
    else (5, 5)
  }

  /**
   * The non-demo setup: typed resources when any typed count is given
   * (the plain resource count is then ignored), numbered R-resources
   * otherwise; counts that are missing or 0 fall back to the scenario's
   * defaults.
   */
  function ResolveSetup(numProcesses: Option<int>, numResources: Option<int>,
                        resA: Option<int>, resB: Option<int>, resC: Option<int>,
                        scenario: Option<string>): (s: Setup)
    ensures Distinct(s.resourceIds)
    ensures s.numProcesses == Or(numProcesses, Defaults(scenario).0)
    ensures (resA.Some? || resB.Some? || resC.Some?) ==>
      var counts := TypedCounts(resA, resB, resC);
      s.resourceIds == TypedIds(counts.0, counts.1, counts.2) &&
      s.numResources == Or(Some(|s.resourceIds|), Defaults(scenario).1)
    ensures (resA.None? && resB.None? && resC.None?) ==>
      s.numResources == Or(numResources, Defaults(scenario).1) &&
      s.resourceIds == NumberedIds('R', Count(s.numResources))
  {
    var typed := resA.Some? || resB.Some? || resC.Some?;
    var counts := TypedCounts(resA, resB, resC);
    var typedIds := TypedIds(counts.0, counts.1, counts.2);
    var given := if typed then Some(|typedIds|) else numResources;
    var defaults := Defaults(scenario);
    var np := Or(numProcesses, defaults.0);
    var nr := Or(given, defaults.1);
    TypedIdsDistinct(counts.0, counts.1, counts.2);
    NumberedIdsDistinct('R', Count(nr));
    Setup(np, nr, if typed then typedIds else NumberedIds('R', Count(nr)))
  }

  /** Each process asks for two resources when there are at least two, otherwise for one. */
  function NeedCount(numResources: int): nat
  {
    if numResources >= 2 then 2 else 1
  }

  function Min(a: nat, b: nat): nat
  {
    if a <= b then a else b
  }

  /**
   * `random.sample(pool, k)`, with the generator's choices given as
   * `draws`: each pick takes the element at `draw % len(remaining)` out of
   * the remaining pool (a missing draw counts as 0).
   */
  function Sample(pool: seq<Rid>, k: nat, draws: seq<nat>): (s: seq<Rid>)
    ensures |s| == Min(k, |pool|)
    ensures forall x :: x in s ==> x in pool
    ensures Distinct(pool) ==> Distinct(s)
    decreases k
  {
    if k == 0 || pool == [] then []
    else
      var i := (if draws == [] then 0 else draws[0]) % |pool|;
      RemoveAtFacts(pool, i);
      [pool[i]] + Sample(RemoveAt(pool, i), k - 1, if draws == [] then [] else draws[1..])
  }

  /** `pool` without its `i`-th element. */
  function RemoveAt(pool: seq<Rid>, i: nat): (rest: seq<Rid>)
    requires i < |pool|
    ensures |rest| == |pool| - 1
  {
    pool[..i] + pool[i + 1..]
  }

  /** Removing one element keeps exactly the others, and keeps them distinct. */
  lemma RemoveAtFacts(pool: seq<Rid>, i: nat)
    requires i < |pool|
    ensures forall x :: x in RemoveAt(pool, i) ==> x in pool
    ensures forall x :: x in pool && x != pool[i] ==> x in RemoveAt(pool, i)
    ensures Distinct(pool) ==> Distinct(RemoveAt(pool, i)) && pool[i] !in RemoveAt(pool, i)
  {
    var rest := RemoveAt(pool, i);
    forall x | x in pool && x != pool[i]
      ensures x in rest
    {
      var j :| 0 <= j < |pool| && pool[j] == x;
      if j < i {
        assert rest[j] == x;
      } else {
        assert rest[j - 1] == x;
      }
    }
    if Distinct(pool) {
      forall a, b | 0 <= a < b < |rest|
        ensures rest[a] != rest[b]
      {
        var a', b' := if a < i then a else a + 1, if b < i then b else b + 1;
        assert rest[a] == pool[a'] && rest[b] == pool[b'];
      }
      forall j | 0 <= j < |rest|
        ensures rest[j] != pool[i]
      {
        var j' := if j < i then j else j + 1;
        assert rest[j] == pool[j'];
      }
    }
  }

  /** The position of `x` in `xs`. */
  function IndexOf(xs: seq<Rid>, x: Rid): (i: nat)
    requires x in xs
    ensures i < |xs| && xs[i] == x
  {
    if xs[0] == x then 0 else 1 + IndexOf(xs[1..], x)
  }

  /**
   * Every ordered selection of distinct pool elements is the sample of
   * some draws: the draws model the generator without ruling out any
   * outcome `random.sample` can produce.
   */
  lemma {:induction false} SampleComplete(pool: seq<Rid>, s: seq<Rid>) returns (draws: seq<nat>)
    requires Distinct(pool) && Distinct(s)
    requires forall x :: x in s ==> x in pool
    ensures Sample(pool, |s|, draws) == s
    decreases |s|
  {
    if s == [] {
      draws := [];
    } else {
      var i := IndexOf(pool, s[0]);
      var rest := RemoveAt(pool, i);
      TailInRest(pool, s, i);
      var tail := SampleComplete(rest, s[1..]);
      draws := [i] + tail;
      SampleFirst(pool, |s|, i, tail);
      assert s == [s[0]] + s[1..];
    }
  }

  /** With a first draw below the pool size, the sample starts with that element. */
  lemma SampleFirst(pool: seq<Rid>, k: nat, i: nat, tail: seq<nat>)
    requires 0 < k && i < |pool|
    ensures Sample(pool, k, [i] + tail) == [pool[i]] + Sample(RemoveAt(pool, i), k - 1, tail)
  {
    assert ([i] + tail)[0] % |pool| == i;
    assert ([i] + tail)[1..] == tail;
  }

  /** Once the first pick is taken out of the pool, the rest of the selection is a selection from what remains. */
  lemma TailInRest(pool: seq<Rid>, s: seq<Rid>, i: nat)
    requires Distinct(pool) && Distinct(s) && s != []
    requires forall x :: x in s ==> x in pool
    requires i < |pool| && pool[i] == s[0]
    ensures Distinct(RemoveAt(pool, i)) && Distinct(s[1..])
    ensures forall x :: x in s[1..] ==> x in RemoveAt(pool, i)
  {
    RemoveAtFacts(pool, i);
    forall x | x in s[1..]
      ensures x in RemoveAt(pool, i)
    {
      var k :| 0 <= k < |s[1..]| && s[1..][k] == x;
      assert s[k + 1] == x;
    }
  }

  /** The draws for the `i`-th process (none when the list runs short). */
  function DrawsFor(samples: seq<seq<nat>>, i: nat): seq<nat>
  {
    if i < |samples| then samples[i] else []
  }

  /** A process as constructed: its own pid and plan, nothing held, running. */
  predicate Initial(p: Process, pid: Pid, plan: seq<Rid>)
    reads p
  {
    p.pid == pid && p.plan == plan && p.heldResources == {} && p.state == Running &&
    p.currentRequest == None && p.waitingSteps == 0
  }

  /** The ids of `resources`, in order. */
  function Rids(resources: seq<Resource>): (ids: seq<Rid>)
    ensures |ids| == |resources| && forall i :: 0 <= i < |ids| ==> ids[i] == resources[i].rid
  {
    if resources == [] then [] else [resources[0].rid] + Rids(resources[1..])
  }

  lemma {:induction false} RidsAppend(xs: seq<Resource>, ys: seq<Resource>)
    ensures Rids(xs + ys) == Rids(xs) + Rids(ys)
  {
    assert |Rids(xs + ys)| == |Rids(xs) + Rids(ys)|;
    forall i | 0 <= i < |xs + ys|
      ensures Rids(xs + ys)[i] == (Rids(xs) + Rids(ys))[i]
    {
      if i >= |xs| {
        assert (xs + ys)[i] == ys[i - |xs|];
      }
    }
  }

  /** `make_resources` and each typed family: `n` free resources numbered 1..n under `prefix`. */
  method MakeNumbered(prefix: char, n: int) returns (resources: seq<Resource>)
    ensures Rids(resources) == NumberedIds(prefix, Count(n))
    ensures forall i :: 0 <= i < |resources| ==> resources[i].heldBy == None
  {
    resources := [];
    for i := 0 to Count(n)
      invariant |resources| == i
      invariant forall j :: 0 <= j < i ==> resources[j].rid == NumberedId(prefix, j) && resources[j].heldBy == None
    {
      var r := new Resource(NumberedId(prefix, i));
      resources := resources + [r];
    }
  }

  /** `make_resources`: R1..Rn. */
  method MakeResources(n: int) returns (resources: seq<Resource>)
    ensures Rids(resources) == NumberedIds('R', Count(n))
    ensures forall i :: 0 <= i < |resources| ==> resources[i].heldBy == None
  {
    resources := MakeNumbered('R', n);
  }

  /** `make_typed_resources`: A1..Aa, then B1..Bb, then C1..Cc. */
  method MakeTypedResources(a: int, b: int, c: int) returns (resources: seq<Resource>)
    ensures Rids(resources) == TypedIds(a, b, c)
    ensures forall i :: 0 <= i < |resources| ==> resources[i].heldBy == None
  {
    var ra := MakeNumbered('A', a);
    var rb := MakeNumbered('B', b);
    var rc := MakeNumbered('C', c);
    resources := ra + rb + rc;
    RidsAppend(ra, rb);
    RidsAppend(ra + rb, rc);
  }

  /** `demo_scenario`: P1 takes R1 then R2, P2 takes R2 then R1, P3 takes R1. */
  method DemoScenario() returns (processes: seq<Process>, resources: seq<Resource>)
    ensures |resources| == 2 && resources[0].rid == "R1" && resources[1].rid == "R2"
    ensures resources[0].heldBy == None && resources[1].heldBy == None
    ensures |processes| == 3
    ensures Initial(processes[0], "P1", ["R1", "R2"])
    ensures Initial(processes[1], "P2", ["R2", "R1"])
    ensures Initial(processes[2], "P3", ["R1"])
    ensures DistinctPids(processes)
  {
    resources := MakeResources(2);
    assert NumberedId('R', 0) == "R1" && NumberedId('R', 1) == "R2";
    var p1 := new Process("P1", ["R1", "R2"]);
    var p2 := new Process("P2", ["R2", "R1"]);
    var p3 := new Process("P3", ["R1"]);
    processes := [p1, p2, p3];
  }

  /** The plans of the first `n` processes: one sample per process, each from its own draws. */
  function Plans(resIds: seq<Rid>, needCount: nat, samples: seq<seq<nat>>, n: nat): (plans: seq<seq<Rid>>)
    ensures |plans| == n
    ensures forall i :: 0 <= i < n ==> plans[i] == Sample(resIds, needCount, DrawsFor(samples, i))
  {
    if n == 0 then [] else Plans(resIds, needCount, samples, n - 1) + [Sample(resIds, needCount, DrawsFor(samples, n - 1))]
  }

  /** The process loop of a build: P1..Pn, each with a plan sampled from `resIds`. */
  method MakeProcesses(n: int, resIds: seq<Rid>, needCount: nat, samples: seq<seq<nat>>)
    returns (processes: seq<Process>)
    ensures |processes| == Count(n)
    ensures forall i :: 0 <= i < |processes| ==>
      Initial(processes[i], NumberedId('P', i), Plans(resIds, needCount, samples, Count(n))[i])
    ensures DistinctPids(processes)
  {
    var plans := Plans(resIds, needCount, samples, Count(n));
    processes := [];
    for i := 0 to Count(n)
      invariant |processes| == i
      invariant forall j :: 0 <= j < i ==> Initial(processes[j], NumberedId('P', j), plans[j])
    {
      var p := new Process(NumberedId('P', i), plans[i]);
      processes := processes + [p];
    }
    NumberedPidsDistinct(processes);
  }

  /** Processes numbered P1, P2, ... in order have distinct pids. */
  lemma NumberedPidsDistinct(processes: seq<Process>)
    requires forall i :: 0 <= i < |processes| ==> processes[i].pid == NumberedId('P', i)
    ensures DistinctPids(processes)
  {
    forall a, b | 0 <= a < b < |processes|
      ensures processes[a].pid != processes[b].pid
    {
      NumberedIdInjective('P', 'P', a, b);
    }
  }

  /**
   * `build_processes_and_resources`: the demo scenario when asked for,
   * otherwise the resolved resources and, for each of the requested
   * processes, a plan sampled from the resource ids.
   */
  method BuildProcessesAndResources(numProcesses: Option<int>, numResources: Option<int>,
                                    resA: Option<int>, resB: Option<int>, resC: Option<int>,
                                    scenario: Option<string>, demo: bool, samples: seq<seq<nat>>)
    returns (processes: seq<Process>, resources: seq<Resource>)
    ensures DistinctPids(processes)
    ensures forall i :: 0 <= i < |resources| ==> resources[i].heldBy == None
    ensures demo ==> |resources| == 2 && resources[0].rid == "R1" && resources[1].rid == "R2"
    ensures demo ==> |processes| == 3 && Initial(processes[0], "P1", ["R1", "R2"]) &&
                     Initial(processes[1], "P2", ["R2", "R1"]) && Initial(processes[2], "P3", ["R1"])
    ensures !demo ==> BuiltAs(ResolveSetup(numProcesses, numResources, resA, resB, resC, scenario), samples, processes, resources)
  {
    if demo {
      processes, resources := DemoScenario();
      return;
    }
    var s := ResolveSetup(numProcesses, numResources, resA, resB, resC, scenario);
    if resA.Some? || resB.Some? || resC.Some? {
      var counts := TypedCounts(resA, resB, resC);
      resources := MakeTypedResources(counts.0, counts.1, counts.2);
    } else {
      resources := MakeResources(s.numResources);
    }
    processes := MakeProcesses(s.numProcesses, s.resourceIds, NeedCount(s.numResources), samples);
  }

  /** The outcome of a non-demo build with setup `s`. */
  ghost predicate BuiltAs(s: Setup, samples: seq<seq<nat>>, processes: seq<Process>, resources: seq<Resource>)
    reads processes, resources
  {
    && Rids(resources) == s.resourceIds
    && |processes| == Count(s.numProcesses)
    && forall i :: 0 <= i < |processes| ==>
         Initial(processes[i], NumberedId('P', i), Sample(s.resourceIds, NeedCount(s.numResources), DrawsFor(samples, i)))
  }
}
