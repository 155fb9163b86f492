# Deadlock simulation: resource allocation and deadlock analysis in Dafny

This project models the core of the deadlock simulator. Processes compete
for exclusive resources. They can be granted naively, in a global order,
or only when the Banker's algorithm calls the grant safe. It has two parts.

**The discrete-step simulator** (`fs_deadlock_sim/`):
- Resources are unit resources, and processes follow acquisition plans.
- A lock manager grants, blocks or refuses requests and logs every decision.
- A scheduler runs numbered steps. In each step it gives every process a
  turn in list order, completes the processes that hold their whole plan,
  records a state-table entry, and asks a deadlock detector about the state.
  A reported cycle marks its processes DEADLOCKED and ends the run.
- A metrics collector counts steps, completions, deadlocks and blocked
  process-steps.
- A scenario builder makes the resources and the processes.

**The threaded demonstration** (`core/`):
- A multi-unit Banker allocator with an available vector, a max-claim matrix
  and an allocation matrix.
- The integer bookkeeping of its workers: the retry counter, the partial
  requests a Banker worker makes, and the need it still has.

How the model is built:
- Objects that the source updates in place are classes: `Banker`,
  `LockManager`, `Simulator`, `MetricsCollector`, `Process`, `Resource`,
  `EventLog` and the workers. Their methods carry `modifies` clauses, and
  their contracts state the new value of what they change, except where
  "## Left out" names a member and what it leaves open.
- The simulator keeps an invariant: its completion counter equals the
  number of FINISHED processes (`Tallied`). Every step keeps it.
- The safety notions are stated declaratively and the scanning loops are
  proved against them:
  - `BankerSafety.Safe`: an order exists in which every process's need fits
    the work available to it.
  - `Retirement.CanRetireAll`: an order exists in which every live process
    finds the rest of its plan among the free resources.
- The detector, the random generator and the lock timeouts are parameters:
  - a function from state-table rows to a `Detection`;
  - sequences of draws;
  - sequences of acquisition outcomes.

Source files:
- `fs_deadlock_sim/models.py` (the `Process` and `Resource` records) and
  `fs_deadlock_sim/deadlock_detector.py` are not part of this model.
- The `Models` module gives processes and resources the shape and the
  contracts that their callers rely on.
- A new process starts RUNNING, because `step` advances only RUNNING and
  BLOCKED processes.

## Model

| member | source | states |
|---|---|---|
| Banker.Banker.constructor | core/banker.py:10-16 | Sizes come from the inputs. Every allocation row is zero and the available vector is copied. The state is bounded iff availability and every claim are non-negative. |
| Banker.Banker.Snapshot | core/banker.py:46-53 | The snapshot is well-formed and has the allocator's sizes. For every resource type, available plus allocated units equals the fixed total. |
| Banker.Banker.NeedFor | core/banker.py:94-95 | Per resource, allocation plus need equals the max claim. |
| Banker.Banker.SafeIfGranted | core/banker.py:63-92 | A true answer means the state after the grant has a safe sequence. Conversely, when that state's allocations are non-negative and it is safe, the answer is true. |
| Banker.ScanPass | core/banker.py:79-90 | One pass keeps the scan invariant (finished processes form a valid prefix of a safe order). Progress finishes at least one more process. No progress means no unfinished process's need fits the work. |
| Banker.Banker.RequestResources | core/banker.py:18-33 | A grant implies: the request is admissible (length, non-negative, within need, fits available); the new state is exactly the granted state; and the new state is safe. A refusal changes nothing. Boundedness is preserved. |
| Banker.Banker.Apply | core/banker.py:30-32 | Applying the request subtracts it from the available vector and adds it to the process's allocation row. Conservation and bounds are kept. |
| Banker.Banker.ReleaseAll | core/banker.py:35-44 | Returns the old allocation row. The new state is the state with that row released (row zeroed, units returned). Bounds are kept. |
| Banker.GrantedNonNeg | core/banker.py:20-32 | Granting a non-negative request from a bounded state leaves every allocation non-negative. This is the premise under which the scan is complete. |
| BankerSafety.GrantConserves | core/banker.py:30-32 | A grant keeps available plus allocated constant per resource type. |
| BankerSafety.ReleaseConserves | core/banker.py:39-43 | A release keeps available plus allocated constant per resource type. |
| BankerSafety.GrantKeepsBounds | core/banker.py:24-32 | An admissible grant keeps availability non-negative and every allocation between zero and its claim. |
| BankerSafety.ReleaseKeepsBounds | core/banker.py:39-43 | A release keeps the state bounded. |
| BankerSafety.WorkAfterFinish | core/banker.py:85-87 | Finishing process p adds exactly p's allocation to the work vector. |
| BankerSafety.SafeImpliesProgress | core/banker.py:79-92 | In a safe state with non-negative allocations, some unfinished process's need fits the current work. |
| BankerSafety.NoSafeSequenceWhenStuck | core/banker.py:89-92 | When no unfinished process fits the work, the state is not safe, so the scan's "false" is correct. |
| BankerSafety.ScanOrderIsSafe | core/banker.py:79-92 | An order in which every process finished, each fitting the work left by its predecessors, is a safe sequence. |
| LockManager.LockManager.constructor | fs_deadlock_sim/lock_manager.py:9-19 | Stores the shared resource map, the process list, the mode and the optional logger. |
| LockManager.LockManager.Request | fs_deadlock_sim/lock_manager.py:21-24 | In "banker" mode the result is the Banker outcome; in any other mode it is the basic outcome. Ownership stays consistent, and the log only grows. |
| LockManager.LockManager.RequestBasic | fs_deadlock_sim/lock_manager.py:26-44 | A free resource is granted and logged as an acquire. A resource held by the requester returns true and changes nothing. Otherwise the requester is BLOCKED on it and a "held by" event is logged. |
| LockManager.LockManager.RequestBanker | fs_deadlock_sim/lock_manager.py:46-79 | A self-held resource returns true and changes nothing. A free resource is granted iff the grant is safe; otherwise the requester is BLOCKED with an "unsafe" event. A resource held by another process blocks the requester. |
| LockManager.LockManager.Grant | fs_deadlock_sim/lock_manager.py:29-33 | The resource names the requester as holder and joins its held set. The requester runs with no outstanding request, and exactly the acquire event is logged. |
| LockManager.LockManager.Take | fs_deadlock_sim/lock_manager.py:29-30 | Sets the holder and adds the id to the held set, keeping ownership consistent. |
| LockManager.LockManager.Block | fs_deadlock_sim/lock_manager.py:37-43 | The requester is BLOCKED on the id, nothing changes owner, and exactly the given event is logged. |
| LockManager.LockManager.IsSafeToGrant | fs_deadlock_sim/lock_manager.py:81-106 | The answer is true iff the live processes can be retired one by one. The simulated state has the request granted and the requested id removed from the free set. |
| LockManager.LockManager.FirstRetirable | fs_deadlock_sim/lock_manager.py:95-104 | Returns the first unfinished process, in list order, whose missing plan fits the available set. None means no unfinished process fits. |
| LockManager.LockManager.ScanStart | fs_deadlock_sim/lock_manager.py:82-92 | The initial simulated holdings, free set and unfinished set satisfy the scan invariant. |
| LockManager.LockManager.ScanStep | fs_deadlock_sim/lock_manager.py:100-104 | Retiring a process that fits keeps the scan invariant: its holdings join the available set and it leaves the unfinished set. |
| LockManager.LockManager.ScanVerdict | fs_deadlock_sim/lock_manager.py:92-106 | When the scan stops, "nothing unfinished" equals the declarative safety. |
| LockManager.LockManager.ReleaseAll | fs_deadlock_sim/lock_manager.py:108-123 | Every resource the process held becomes free and the others are untouched. The process is FINISHED with nothing held or requested. A release event with the sorted ids is logged iff it held something. |
| LockManager.LockManager.FreeAndFinish | fs_deadlock_sim/lock_manager.py:117-123 | Frees exactly the resources held by the process and finishes it, keeping ownership consistent. |
| LockManager.LockManager.Log | fs_deadlock_sim/lock_manager.py:125-127 | With a logger, exactly one event is appended, and an empty payload is dropped. Without one, nothing changes. |
| LockManager.LiveKeysExact | fs_deadlock_sim/lock_manager.py:82-91 | The simulated holdings and the plans are keyed by exactly the pids of the unfinished processes. |
| LockManager.LiveEntries | fs_deadlock_sim/lock_manager.py:82-84 | A live process's entry is its own held set and its own plan set. |
| Retirement.RetirableImpliesProgress | fs_deadlock_sim/lock_manager.py:93-106 | If all live processes can be retired, some unfinished one fits the free resources plus those released so far, so a stuck scan proves the grant unsafe. |
| Retirement.CoversExtend | fs_deadlock_sim/lock_manager.py:100-103 | Appending a process that fits extends a valid retirement prefix, and the released set grows by that process's holdings. |
| Simulator.Simulator.constructor | fs_deadlock_sim/simulator.py:14-32 | Resources are indexed by id. A fresh empty event log, empty history, no deadlock info and fresh zeroed metrics are created. The lock manager shares the processes, the resources, the mode and the log. The completion counter starts at zero, the number of FINISHED processes. |
| Simulator.ByRidKeys | fs_deadlock_sim/simulator.py:23 | Every resource's id is a key, and every key maps to a resource of the list with that id. |
| Simulator.ByRidLastWins | fs_deadlock_sim/simulator.py:23 | When ids repeat, the id maps to the last resource carrying it, as a dict comprehension does. |
| Events.EventLog.LogEvent | fs_deadlock_sim/simulator.py:141-145 | Appends exactly one event with t, kind and message. The payload is kept only when it is a non-empty dictionary. |
| Simulator.Simulator.LogEvent | fs_deadlock_sim/simulator.py:141-145 | The simulator's event list grows by exactly that event. |
| Simulator.Simulator.ProcessById | fs_deadlock_sim/simulator.py:110-114 | None iff no process has the pid. Otherwise the result is the first process with it. |
| Simulator.RowOf | fs_deadlock_sim/simulator.py:119-128 | A row has the process's pid, request and state, and exactly its held ids. |
| Simulator.Simulator.RecordState | fs_deadlock_sim/simulator.py:116-129 | Appends one entry for step t holding a row per process in list order, and returns those rows. |
| Simulator.Simulator.CompleteProcess | fs_deadlock_sim/simulator.py:100-108 | Logs the completion with the held ids, then the release (if anything was held). The process becomes FINISHED with nothing held, and completions grow by one. |
| Simulator.Simulator.Release | fs_deadlock_sim/simulator.py:107 | Frees exactly what the process held, finishes it, and logs the release event iff something was held. |
| Simulator.Simulator.Visit | fs_deadlock_sim/simulator.py:67-77 | The action taken is the one the process's state before its turn calls for. DEADLOCKED or FINISHED: skip. BLOCKED with a non-empty request: retry it. RUNNING with the whole plan: complete. Otherwise RUNNING: ask for the next resource, the least unheld one in "ordered" mode. The process's fields change as the action says. A skip changes nothing. A retry or an ask gets the lock manager's outcome: a grant adds the resource and leaves the process RUNNING with no request (or changes nothing when it already held it), and a refusal blocks it on that resource. A completion leaves it FINISHED holding nothing, frees exactly what it held, and logs the completion and then the release. A retry or an ask is answered by the lock manager's rule against what every process holds at that turn: granted when the process already holds the resource, refused when another process holds it, and outside "banker" mode granted whenever no other process holds it. The completion counter grows by one for a completion and is unchanged otherwise. |
| Simulator.Simulator.IssueRequest | fs_deadlock_sim/simulator.py:70 | The requester gets exactly the lock manager's outcome for the simulator's mode. On its own fields: a grant adds the resource and leaves it RUNNING with no request, or changes nothing when it already held it. A refusal blocks it on that resource with its held ids unchanged. The answer follows the lock manager's rule against what every process holds: granted when the process already holds the resource, refused when another process holds it, and outside "banker" mode granted whenever no other process holds it. |
| Simulator.Simulator.Consult | fs_deadlock_sim/lock_manager.py:21-79 | The requester gets the lock manager's outcome for the mode, and the answer follows the rule against what every process holds: granted when the process already holds the resource, refused when another process holds it, and outside "banker" mode granted whenever no other process holds it. |
| Simulator.ObeysByHolder | fs_deadlock_sim/lock_manager.py:26-79 | An answer decided on the resource's holder (granted to the holder, refused when someone else holds it, granted when free outside "banker" mode) is the rule on the holdings, once the holder agrees with them. |
| Simulator.TrackedSnoc | fs_deadlock_sim/simulator.py:66-77 | A turn that changes only its own process, as its action says and by the rule at its turn, extends the record of the pass by one process. |
| Simulator.Simulator.AcquisitionPass | fs_deadlock_sim/simulator.py:66-77 | The actions taken, in list order, are the ones the processes' states at the start of the step call for. Each process's fields change exactly as its own action says. Every retry or ask of the pass was answered by the lock manager's rule against the holdings at its turn: the processes before it as they were after their own turn, the rest as at the start of the step. The completion counter grows by the number of completions in the pass. |
| Simulator.Simulator.CompletionSweep | fs_deadlock_sim/simulator.py:80-82 | Exactly the processes that were RUNNING and held their whole plan become FINISHED, holding and requesting nothing. Every other process keeps its fields. Afterwards no RUNNING process holds its whole plan. The completion counter stays equal to the number of FINISHED processes. |
| Simulator.FinishesActed | fs_deadlock_sim/simulator.py:66-77 | In a pass where every process took its planned action, the FINISHED processes afterwards are those before plus one per completion: a completing process was RUNNING, and a retry or an ask leaves its process RUNNING or BLOCKED. |
| Simulator.FinishesSwept | fs_deadlock_sim/simulator.py:80-82 | After the sweep, the FINISHED processes are those before plus one per RUNNING process that held its whole plan. |
| Simulator.Simulator.SweptTally | fs_deadlock_sim/simulator.py:80-82 | With the sweep done, the FINISHED processes are those counted before it plus the ones it completed. |
| Simulator.Simulator.Settle | fs_deadlock_sim/simulator.py:81-82 | Extends the sweep by process i: a RUNNING process holding its whole plan becomes FINISHED with nothing held or requested. Any other process is left as it was, and so are the processes after it. The completion counter grows by one exactly when process i was completed. |
| Simulator.Simulator.Advance | fs_deadlock_sim/simulator.py:66-82 | The actions fit the start-of-step states. Each process's fields after the acquisition pass are as its action says. The completion sweep then finishes exactly the RUNNING processes that hold their whole plan. No RUNNING process holds its whole plan at the end. Every retry or ask of the pass was answered by the lock manager's rule against the holdings at its turn: the processes before it as they were after their own turn, the rest as at the start of the step. The completion counter stays equal to the number of FINISHED processes. |
| Simulator.Simulator.Inspect | fs_deadlock_sim/simulator.py:84-98 | Appends one state-table entry for t, showing every process as it was. Returns the detector's verdict on that entry. Without a deadlock nothing else changes. With one, the info, the deadlock event and the count are recorded, and exactly the processes of the cycle (all BLOCKED) become DEADLOCKED. Without a deadlock, the entry shows all processes FINISHED iff they all are. The completion counter stays equal to the number of FINISHED processes. |
| Simulator.Simulator.FinishedShown | fs_deadlock_sim/simulator.py:45-46 | Without a deadlock the state-table entry shows every process FINISHED exactly when every process is FINISHED. |
| Simulator.Simulator.Respond | fs_deadlock_sim/simulator.py:87-98 | Acts on the detector's verdict on the given rows, as Inspect states. The completion counter stays equal to the number of FINISHED processes. |
| Simulator.Simulator.Report | fs_deadlock_sim/simulator.py:87-96 | Stores the deadlock info, counts one deadlock and logs the deadlock event. Exactly the processes of the cycle become DEADLOCKED. No other field of any process changes. Given that the cycle's processes are BLOCKED, the completion counter stays equal to the number of FINISHED processes. |
| Simulator.Simulator.MarkedTally | fs_deadlock_sim/simulator.py:93-96 | Marking a cycle of BLOCKED processes DEADLOCKED leaves the number of FINISHED processes unchanged. |
| Simulator.Simulator.Note | fs_deadlock_sim/simulator.py:88-90 | Stores the info, counts one deadlock and appends exactly the deadlock event. |
| Simulator.Simulator.MarkCycle | fs_deadlock_sim/simulator.py:93-96 | A process becomes DEADLOCKED iff its pid is in the cycle. The others keep their state, and no held ids or requests change. |
| Simulator.CycleBlocked | fs_deadlock_sim/simulator.py:93-96 | Under the detector's contract, every process named in the cycle is BLOCKED in the recorded rows. |
| Simulator.Simulator.Step | fs_deadlock_sim/simulator.py:65-98 | The actions fit the start-of-step states. Each process's fields after the acquisition pass (mid) are as its action says. After the completion sweep (swept) exactly the RUNNING processes holding their whole plan are FINISHED. One history entry for t is added and shows every process as swept. The result is the detector's verdict on that entry. With a deadlock, the info and count are recorded, the deadlock event is logged last, and exactly the cycle's processes, all BLOCKED after the sweep, become DEADLOCKED. Otherwise every process ends as swept and the info and count are unchanged. Every retry or ask of the pass was answered by the lock manager's rule against the holdings at its turn: the processes before it as they were after their own turn, the rest as at the start of the step. The completion counter stays equal to the number of FINISHED processes. |
| Simulator.Simulator.Run | fs_deadlock_sim/simulator.py:34-47 | The start event comes first. At most max(0, max_steps) steps run, each counted once in the metrics and once in the history. The earlier history is kept. A deadlock is counted once, recorded at the last step, and was found in the last entry. Stopping early means a deadlock or all processes FINISHED, and the finish event is the last one logged. After every entry but the last, the detector found no deadlock and some process was not FINISHED, so the run did not stop before. The completion counter equals the number of FINISHED processes throughout. |
| Simulator.Simulator.Announce | fs_deadlock_sim/simulator.py:35-38 | Appends exactly the start event with the process count, the resource count and the mode. |
| Simulator.Simulator.Loop | fs_deadlock_sim/simulator.py:39-47 | The step loop's promises, as for Run, after the start event. Every entry it added, except the last, is one after which the loop had to go on. The completion counter stays equal to the number of FINISHED processes. |
| Simulator.Simulator.Tick | fs_deadlock_sim/simulator.py:41-47 | One step plus its metrics, adding one history entry. The result is the detector's verdict on it. Without a deadlock, the step finishes the run iff that entry shows every process FINISHED, and then the finish event is logged last. The completion counter stays equal to the number of FINISHED processes. |
| Simulator.Simulator.WentOnSnoc | fs_deadlock_sim/simulator.py:39-47 | One more history entry keeps the entries after which the run went on, and adds the new one when the run goes on after it. |
| Simulator.Simulator.Conclude | fs_deadlock_sim/simulator.py:42-47 | Counts the step, then logs the finish event iff there was no deadlock and all processes are FINISHED. |
| Simulator.Simulator.CheckFinished | fs_deadlock_sim/simulator.py:45-47 | True iff there was no deadlock and every process is FINISHED. Exactly then the finish event is appended. |
| Simulator.Simulator.RecordStep | fs_deadlock_sim/simulator.py:42 | The step is counted and the blocked process-steps grow by the number of BLOCKED processes. The metrics invariant is kept. |
| Metrics.MetricsCollector.constructor | fs_deadlock_sim/metrics.py:8-16 | Stores mode and sizes, with every counter at zero. |
| Metrics.MetricsCollector.RecordStep | fs_deadlock_sim/metrics.py:18-24 | Steps grow by one. The total wait and the blocked steps grow by the number of BLOCKED processes. Exactly the BLOCKED processes wait one step more. Blocked steps stay within steps times the process count. |
| Metrics.MetricsCollector.RecordWaiting | fs_deadlock_sim/metrics.py:20-24 | The loop counts exactly the BLOCKED processes and bumps exactly their waiting steps. |
| Metrics.SumBumped | fs_deadlock_sim/metrics.py:20-24 | Bumping every BLOCKED process's wait by one raises the total wait by the BLOCKED count. |
| Metrics.StepBound | fs_deadlock_sim/metrics.py:18-24 | If blocked steps fit steps times n before a step, they still fit after adding at most n. |
| Metrics.MetricsCollector.RecordCompletion | fs_deadlock_sim/metrics.py:26-27 | Completions grow by one. |
| Metrics.MetricsCollector.RecordDeadlock | fs_deadlock_sim/metrics.py:29-30 | Deadlocks grow by one. |
| Metrics.MetricsCollector.AsDict | fs_deadlock_sim/metrics.py:32-50 | Copies the counters. The average wait is 0 iff no process waited, and at least 1 otherwise. The blocked percentage is non-negative and at most 100 when blocked steps fit the slots. It is 0 for no processes or no blocked steps. |
| Metrics.AverageWait | fs_deadlock_sim/metrics.py:33-35 | Zero iff the total wait is zero; at least one step otherwise. |
| Metrics.WaitedBounds | fs_deadlock_sim/metrics.py:33-35 | The number of processes that waited is at most the total wait, and zero exactly when the total is. |
| Metrics.BlockedPct | fs_deadlock_sim/metrics.py:36-40 | Non-negative. At most 100 when blocked steps fit steps times n. Zero with no processes or no blocked steps. |
| Metrics.PctBound | fs_deadlock_sim/metrics.py:36-40 | Dividing by max(1, steps) times n keeps a fitting blocked count within 100 percent. |
| Metrics.CountZero | fs_deadlock_sim/metrics.py:20-24 | No state is counted iff it does not occur. |
| Scenarios.NumberedIdInjective | fs_deadlock_sim/scenarios.py:8 | Two generated ids (prefix plus i+1 in decimal) are equal iff prefix and index are equal. |
| Text.ShowInjective | fs_deadlock_sim/scenarios.py:8 | Decimal rendering of naturals is injective. |
| Text.Show | fs_deadlock_sim/scenarios.py:8 | The rendering is non-empty, all digits, and a single digit iff the number is below 10. |
| Scenarios.NumberedIdsDistinct | fs_deadlock_sim/scenarios.py:7-8 | The ids R1..Rn are pairwise distinct. |
| Scenarios.MakeResources | fs_deadlock_sim/scenarios.py:7-8 | The resources are free and carry the ids R1..Rn, in order, for max(0, n). |
| Scenarios.MakeNumbered | fs_deadlock_sim/scenarios.py:7-8 | The resources are free and carry the numbered ids of the prefix, in order. |
| Scenarios.MakeTypedResources | fs_deadlock_sim/scenarios.py:11-19 | The resources are free and carry A1..Aa, then B1..Bb, then C1..Cc. |
| Scenarios.TypedIdsDistinct | fs_deadlock_sim/scenarios.py:11-19 | The typed ids are pairwise distinct. |
| Scenarios.DemoScenario | fs_deadlock_sim/scenarios.py:22-30 | Returns two free resources R1 and R2 and three fresh processes. P1 plans R1,R2; P2 plans R2,R1; P3 plans R1. The pids are distinct. |
| Scenarios.Or | fs_deadlock_sim/scenarios.py:49-51 | `x or d`: the value when present and non-zero, the default otherwise. |
| Scenarios.TypedCounts | fs_deadlock_sim/scenarios.py:49-56 | Missing counts become 0, and an all-zero total becomes one of each type. |
| Scenarios.ResolveSetup | fs_deadlock_sim/scenarios.py:48-74 | Typed counts, when any is given, replace num_resources and fix the ids (A…, B…, C…). Otherwise the ids are R1..Rn. The scenario's defaults fill in a missing or zero process or resource count. The resource ids are distinct. |
| Scenarios.Sample | fs_deadlock_sim/scenarios.py:82 | Draws min(k, pool size) ids from the pool without replacement. They are distinct when the pool is. |
| Scenarios.SampleComplete | fs_deadlock_sim/scenarios.py:82 | Every distinct selection from a distinct pool is produced by some draws, so modelling the generator as draws loses no outcome. |
| Scenarios.SampleFirst | fs_deadlock_sim/scenarios.py:82 | The first draw picks a pool entry, and the rest are drawn from the pool without it. |
| Scenarios.Plans | fs_deadlock_sim/scenarios.py:80-83 | Plan i is the sample drawn with the i-th draws. |
| Scenarios.MakeProcesses | fs_deadlock_sim/scenarios.py:80-83 | Process i is fresh with pid P(i+1) and plan i. The pids are distinct. |
| Scenarios.BuildProcessesAndResources | fs_deadlock_sim/scenarios.py:33-85 | Demo mode yields exactly the demo scenario: resources R1 and R2, then P1 planning R1, R2, P2 planning R2, R1 and P3 planning R1, all fresh. Otherwise the processes and resources are built from the resolved setup and the draws. Pids are distinct and every resource is free. |
| Text.Sorted | fs_deadlock_sim/lock_manager.py:110 | Contains exactly the set's elements, in strictly increasing string order. |
| Models.Process.NextRequest | fs_deadlock_sim/simulator.py:75 | None iff the whole plan is held. Otherwise a planned, unheld id: the least such in ordered mode, the first such in plan order otherwise. |
| Models.Process.MarkBlocked | fs_deadlock_sim/lock_manager.py:37 | The process is BLOCKED with the id as its outstanding request. |
| Models.Process.Resume | fs_deadlock_sim/lock_manager.py:31-32 | The process is RUNNING with no outstanding request. |
| Models.Process.Finish | fs_deadlock_sim/lock_manager.py:121-123 | Nothing held, nothing requested, FINISHED. |
| Models.Process.MarkDeadlocked | fs_deadlock_sim/simulator.py:96 | The process is DEADLOCKED. |
| Workers.Worker.constructor | core/worker.py:18-36 | The name is stored with no retries yet. |
| Workers.Worker.IncrementRetry | core/worker.py:57-58 | Retries grow by one. |
| Workers.Drawn | core/worker.py:172-177 | An entry is zero iff its need is not positive. Otherwise it is between 1 and the need. |
| Workers.ShapedRequest | core/worker.py:170-181 | None (the source raises) iff the remaining vector is empty. Otherwise the request is non-negative, not all zero, and within each positive need, with a 1 patched in when every draw was zero. |
| Workers.ShapedRequestComplete | core/worker.py:170-181 | Every request of that shape is produced by some draws. |
| Workers.BuildRequest | core/worker.py:170-181 | The loop builds exactly the shaped request. |
| Workers.Shrink | core/worker.py:191 | An entry is zero iff the request covered the need, and never exceeds the old positive need. |
| Workers.ShrinkTracksNeed | core/worker.py:189-191 | After a granted non-negative request within need, shrinking the worker's need gives the allocator's new need. |
| Workers.BankerWorker.constructor | core/worker.py:143-168 | Stores the allocator, the process id and the claim, with a fresh base worker and no retries. |
| Workers.BankerWorker.Run | core/worker.py:183-217 | The ghost answers are the allocator's answers, one per attempt made, and the ghost states are the allocator's states between them: the first is the state at the start of the run, and each answer is the allocator's decision on the request its draw shapes in the state before it, leaving the next one. The allocator ends in the last recorded state, or with the worker's row released from it when the run finished. Remaining is what those answers leave of the claim, attempt by attempt (Trail). Retries grow by the number of denials. Failure happens iff the claim is empty and there was an attempt, and then nothing was asked. A finished run ends on a grant, and no earlier grant had met the need. Running out of draws means every draw was answered and the last one did not meet the need. Remaining never exceeds the claim. When the claim is the allocator's need, a run that did not finish leaves remaining equal to the allocator's need afterwards. A finished run has released the claim plus the initial allocation, and holds nothing. |
| Workers.BankerWorker.Negotiate | core/worker.py:186-207 | The attempts of a run: each answer is the allocator's decision in the recorded state before it, remaining is their replay, retries grow by the denials, and the loop stops at the grant that meets the need, when the draws run out, or when no request can be built (iff the claim is empty). |
| Workers.BankerWorker.Bid | core/worker.py:188-207 | One more attempt: its answer and the allocator's new state extend the record, and a denial counts one retry. |
| Workers.NegotiatedSnoc | core/worker.py:188-189 | One more answer, decided by the allocator in the last recorded state, extends the record of decisions. |
| Workers.Trail | core/worker.py:185-191 | Starts from the claim and has one entry more than there are answers. Each next entry is the previous one minus the request its draw shapes, floored at 0, when the answer is a grant, and unchanged otherwise. |
| Workers.ReplaysSnoc | core/worker.py:186-207 | An answered attempt extends the replay by Next. The run may go on unless that answer was the grant that met the need. The denial count grows by one exactly for a denial. |
| Workers.BankerWorker.Attempt | core/worker.py:188-191 | The answer is the allocator's decision: a grant means the request was admissible and leaves the allocator in the granted state, which is safe; a denial changes nothing; on a well-formed bounded state the request is granted iff it is admissible and the granted state is safe. A grant shrinks remaining by the request, and a denial leaves it. |
| Workers.BankerWorker.ReleaseAll | core/worker.py:199-205 | The allocation row becomes zero. When mirroring, what is released is the initial row plus the claim. |
| Workers.RetryWorker.constructor | core/worker.py:91-104 | A fresh base worker with the name and no retries. |
| Workers.RetryWorker.Run | core/worker.py:106-137 | Done iff some attempt got both locks, and the run stops at the first such attempt. Every earlier attempt counts one retry. |

## Left out

- Threads, process pools and the allocator's mutex are not modelled. Every operation is one atomic call. Sleeps, hold times, back-off and the worker's start/end timestamps and metrics queue are also left out.
- The random generator is not modelled. Its choices are given as draws:
  - `Between1` maps a draw d to `1 + d % need`;
  - `pick % len` gives the patched index;
  - `Sample` takes draws without replacement.
  `SampleComplete` and `ShapedRequestComplete` show that no outcome is lost. The seeding calls are not modelled.
- The `while True` loops of the workers consume one element of a finite sequence of draws or acquisition outcomes per iteration. A run that exhausts them ends as `OutOfDraws` (or not done).
- `fs_deadlock_sim/deadlock_detector.py` is not part of this model. The detector is a function of the state-table rows. The simulator assumes (as `CyclesAmongBlocked`) that every reported cycle consists of pids of BLOCKED processes.
- `fs_deadlock_sim/models.py` is not part of this model. `Process` and `Resource` carry the shape and behaviour their callers rely on.
- Printing is not modelled. That covers the text summary (`summary`), the printed state table, `print_wait_for_graph`, the JSON report file and the console echo of `log_event`.
- Float rounding in `as_dict` (`round(…, 2)`, `round(…, 1)`) is not modelled. The values are exact reals.
- `NaiveWorker.run` is not modelled. It performs only blocking lock calls and has no bookkeeping beyond start/end records.
- Simulator.Simulator.constructor: requires the processes and resources as the scenario builder makes them (distinct pids, fresh processes, free resources, plans within the resources). The source accepts any lists.
- Simulator.Simulator.Inspect: the detector is consulted on the recorded state-table rows. Both it and the table read the same state, so the order of the two calls does not matter.
- Simulator.Simulator.AcquisitionPass: in "banker" mode, the answer to a request for a free resource is tied to the Banker safety check only in Visit and Consult (through `LockManager.SafeToGrant` on the live objects). At the level of the pass it is left open; the other cases of the rule are stated.
- Simulator.Simulator.Advance: the same as AcquisitionPass for a free resource in "banker" mode.
- Simulator.Simulator.Step: the same as AcquisitionPass for a free resource in "banker" mode.
- Simulator.Simulator.AcquisitionPass: the log is stated only to grow. The events of each turn are stated per call by `Visit` (a completion and its release) and by `LockManager.LockManager.Request`, whose outcome `IssueRequest` passes on (the lock manager's decision).
- Simulator.Simulator.CompletionSweep: the log is stated only to grow. The completion and release events of each completed process are stated per call by `CompleteProcess`.
- Simulator.Simulator.Settle: the log is stated only to grow, as for CompletionSweep.
- Simulator.Simulator.Advance: the log is stated only to grow, as for AcquisitionPass and CompletionSweep.
- Simulator.Simulator.Step: the log events of the two passes are stated only as a growing prefix. The deadlock event is stated to come last.
- Models.Process.NextRequest: which unheld planned id comes next is a stand-in. In ordered mode it is the least one in string order, and otherwise the first in plan order. `fs_deadlock_sim/models.py`, which defines `next_request`, is not part of this model.
- Banker.Banker.SafeIfGranted: completeness (safe implies true) is stated only when the allocations after the grant are non-negative. `request_resources` (core/banker.py:20) checks only that the request is non-negative. The allocations are non-negative because they start at zero and every grant adds a non-negative request (`GrantedNonNeg`).
- LockManager.LockManager.IsSafeToGrant: requires distinct pids. The source keys its simulated state by pid, so duplicate pids would merge.
- Workers.RetryWorker.Run: ignores the first and second lock objects. Only whether each acquisition succeeded within the timeout is modelled.
