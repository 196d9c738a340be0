# Verification of the Rayon batch executor

A Dafny model of `RayonBatchExecutor`, the batch scheduler on a shared thread pool, and of `ActiveBatchGuard`,
the thread-local guard that decides which calls may enter the pool. It proves what the protocol keeps in every
interleaving, for every batch size, worker count, source and call tree.

`dafny verify dfyconfig.toml` checks everything.

## How the model is organised

- `Basics.dfy`: sums over sequences, sizes of sets.
- `Protocol.dfy`: one parallel batch as a state machine. The producer converts the source, spawns `W` worker
  loops, drops the original receiver, pulls, sends into a FIFO channel of capacity `W`, and drops the sender;
  each loop waits for a pool thread, receives, runs, and exits or unwinds; the scope joins. A sequence of labels
  is one interleaving. Results of pulls and tasks are free here, so the safety theorems hold for all user code.
- `Sources.dfy`: task sources, and the interleavings in which every pull and every task ends as its source says.
- `Guarantees.dfy`: dispatch order, admission window, conservation, draining, unwinding; progress, completion and
  termination over any source.
- `Outcomes.dfy`: the recorder and its index-sorted report, the classification of how a batch ended, the
  sequential executor as reference, and the refinement theorems between the two paths.
- `Guard.dfy`: the per-thread vector of active pools with its guards, as a class, and its behaviour under any
  sequence of enters and drops, which the class carries out.
- `Routing.dfy`: the routing decision and call trees in which user code calls back.
- `ParallelRun.dfy`: the parallel path as imperative code, with the spawn loop, the send loop and the worker loop
  as loops over the objects of one batch. Between any two operations the other threads take arbitrary steps.
- `Reports.dfy`: what a caller is told, in terms of the call's own source, count and limit.
- `Executor.dfy`: `call_with_count`, `execute_with_count` and the sequential fallback as methods over a thread's
  registry, running the nested calls of a call tree.
- `PoolSystem.dfy`: external threads, several pools with FIFO job queues, and nested batches, each of them a
  `Protocol` machine over its own source. A call takes its guard on the calling thread, lends the thread's registry to
  its source, gets it back when the batch has joined, and drops the guard. A call that unwinds, on either path,
  discards the code around it up to where it is caught.
- `SystemRegistries.dfy`: every thread's registry is restored in such runs, whatever calls what and whatever unwinds.
- `SystemRuns.dfy`: whatever the calls, runs are bounded, project onto runs of their batches, and batches that join
  have drained and report what they should.
- `SystemVisits.dfy`, `SystemCalls.dfy`: the calls made in such runs are those of the program's call trees, in the
  right contexts; when everything runs to its end, exactly as often as the trees say.
- `SystemRanks.dfy`, `SystemProgress.dfy`: calls that climb a ranking of the pools; no reachable state is stuck.
- `Schedules.dfy`, `Verdicts.dfy`, `Witnesses.dfy`: interleavings built on purpose. They give exactly the verdicts
  that a batch can report and the exact condition under which the two paths must agree, and show that the bounds are
  reached.

## What is assumed

- The channel is a linearizable bounded FIFO that knows when one side is fully dropped.
- The scope waits for every spawned job, and then re-raises a job's unwind before it returns the closure's value.
- The batch coordinator and the sequential executor are not part of this repository. The model gives them only
  what this repository documents: admission, exhaustion and draining (`doc/user_guide.md:506-513`), labels
  (`doc/user_guide.md:420-427`), count validation (`src/rayon_batch_executor.rs:311-322`), deferred conversion
  (`src/rayon_batch_executor.rs:353-354`). An item that arrives after admission was stopped may be accepted or
  discarded.
- A reporter failure is the step "stop admission", possible at any time.
- User code terminates: a conversion, a pull and a task end as their source says once the calls they make are over.
  What unwinds into it may be caught at any later point of it.

## Where the code and its documentation differ

The API documentation (`src/rayon_batch_executor.rs:385-388`) lists `ScheduleFailed` and `IncompleteSchedule` as
results. `Outcomes.SchedulerErrorsUnreachable` shows that a joined parallel batch returns neither: a send can fail
only after every worker loop has unwound, and an accepted task can be left unexecuted only in that case, and then
the scope re-raises the unwind instead.

## Where the two paths agree

The sequential executor is the reference. Under the continue policy every interleaving reports what it reports. Under
a failure limit that is false: a worker loop may still be running the task that trips the limit while the producer
goes on. `Witnesses.VerdictsAgreeExactly` gives the exact condition on source, count and limit: all interleavings
report the sequential verdict if and only if the policy does not stop the sequential executor on that source.

`Verdicts.PossibleVerdicts` says what else can be reported: the verdict on the first `m` tasks, for exactly those `m`
and labels that the failures before `m` allow. With tasks that do not unwind and a working reporter, the producer can
begin to pull position `i` if and only if fewer than `limit + W - 1` of the first `i - W - 1` tasks fail: `W` tasks
wait in the channel, one has just been dispatched, and `W - 1` loops can hold failing tasks back.

## Model

| member | source | states |
|---|---|---|
| Protocol.ReachableInv | src/rayon_batch_executor.rs:430-452 | The invariant of the batch protocol holds after every interleaving: shape, dispatch order, exclusive ownership of tokens, worker ends, admission flags, admission cap after a policy stop |
| Guarantees.DispatchOrder | src/rayon_batch_executor.rs:434-448 | When a loop receives token i, the earlier tokens are exactly those ended or running, the channel holds i and its successors in order, and at most W-1 earlier tasks are unfinished |
| Guarantees.AdmissionWindow | src/rayon_batch_executor.rs:430-448 | Items pulled or being pulled and not ended never exceed 2W+1, and at most count+1 items are ever pulled |
| Guarantees.StopsAdmission | doc/user_guide.md:506-513 | From the moment the limit is reached or the reporter fails, at most the pull under way then adds to the items pulled, in every continuation |
| Guarantees.NoPullBegins | doc/user_guide.md:506-513 | From that moment no step of any continuation begins a pull |
| Witnesses.WindowFills | tests/runtime_contract_tests.rs:358-414 | The bound 2W+1 is exact: for every W and limit, over every source with that many items, some run has 2W+1 tasks accepted and none ended |
| Guarantees.Conservation | src/rayon_batch_executor.rs:433-451 | In every reachable state each accepted token is in exactly one place (log, one loop, channel, producer's hand) and no other token exists |
| Guarantees.ExactlyOnceDrain | src/rayon_batch_executor.rs:433-451 | A join without unwound loops leaves every accepted token executed exactly once, and at most one more item was pulled than tasks ended |
| Guarantees.UnwindDichotomy | src/rayon_batch_executor.rs:435-448 | If one loop survives everything accepted is executed; a failed send means that all W loops unwound; at most W+1 accepted tokens are ever lost |
| Guarantees.DisconnectNeedsAllUnwound | src/rayon_batch_executor.rs:444-448 | While the producer holds a token, the disconnect branch is enabled if and only if every worker loop has unwound |
| Guarantees.SourceUnwindDrains | src/rayon_batch_executor.rs:444-451 | After a source unwind at any pull the sender is gone, every loop is over, and what was accepted is executed unless a loop unwound |
| Guarantees.WorkConservation | src/rayon_batch_executor.rs:434-440 | A blocked producer always faces a live loop, and while it is blocked or anything is queued every idle started loop can receive |
| Guarantees.EarlyReceiverDropReleases | src/rayon_batch_executor.rs:442 | With all loops unwound and the channel full the send fails; with the original receiver still alive no step but a reporter failure would be left |
| Witnesses.AllLoopsUnwind | src/rayon_batch_executor.rs:442 | That state is reached: for every W some run leaves the producer at a full channel with every loop unwound |
| Witnesses.LossFills | src/rayon_batch_executor.rs:435-448 | The bound W+1 on lost tasks is exact: for every W some joined run loses that many |
| Witnesses.SplitChannelsIdle | doc/performance.md:178-188 | The rejected design with a channel per worker reaches a state where the producer is blocked, a loop idles, and only another task's end is possible |
| Guarantees.Progress | src/rayon_batch_executor.rs:430-452 | No reachable state before the join is stuck: a step other than a reporter failure is enabled, and it is one in which the source yields what it yields and a task ends as it ends |
| Guarantees.StepDecreases | src/rayon_batch_executor.rs:430-452 | Every step lowers the weighted measure over unpulled, held, queued, running and live work |
| Guarantees.Terminates | src/rayon_batch_executor.rs:430-452 | Every run has at most 3W+5count+10 steps, whatever the source; a run over a source has a step that follows the source, other than a reporter failure, exactly until the scope has joined |
| Guarantees.Completes | src/rayon_batch_executor.rs:430-452 | Every interleaving over a source extends to one over the same source that joins, without a reporter failure and without losing anything recorded |
| Sources.RunAgrees | src/rayon_batch_executor.rs:470-481 | In a run over a given source, everything recorded (log, exhaustion, excess, unwind) is true of that source and its tasks |
| Outcomes.ReportIgnoresOrder | src/rayon_batch_executor.rs:305-307 | Counters, sorted failures and sorted outputs do not depend on the order of completion |
| Outcomes.ReportIsConsistent | doc/user_guide.md:439-443 | Each counter equals the number of details of its kind (failures that are errors, failures that are panics, outputs), the details are strictly sorted by index, and they contain exactly the recorded failures and successes |
| Outcomes.VerdictMeaning | src/rayon_batch_executor.rs:382-394 | What each label says about source and execution, with its numbers: shortfall exactly if exhaustion was seen early, excess observed and never executed, policy stop only without exhaustion and with the limit reached, finished only at the true end |
| Outcomes.SchedulerErrorsUnreachable | src/rayon_batch_executor.rs:385-388 | A joined batch never reports a schedule failure or an incomplete schedule; a lost token or failed send always re-raises |
| Outcomes.RefinesSequential | src/rayon_batch_executor.rs:423-452 | A parallel run in which the failure limit was not reached has exactly the verdict (label, counters, failures, outputs, re-raise) of the sequential executor on the same source |
| Outcomes.UnstoppedRefinesSequential | src/rayon_batch_executor.rs:423-452 | Over a source on which the policy does not stop the sequential executor, every joined interleaving has the sequential verdict, also one that trips by running ahead of an unwinding task |
| Witnesses.VerdictsAgreeExactly | doc/user_guide.md:420-427 | For every configuration and source: the sequential verdict is the only possible one if and only if the policy does not stop the sequential executor on that source |
| Outcomes.ContinueRefinesSequential | tests/internal/backend_contract_tests.rs:19-119 | Under the continue policy every interleaving over every source reports what the sequential path reports |
| Outcomes.TripPoint | doc/user_guide.md:198-203 | The completion that trips the limit: the first after which `limit` failures are recorded |
| Outcomes.StopLimitRefines | doc/user_guide.md:198-203 | Under a limit L every joined run, re-raising or not, executed exactly the first tasks with their own results, at most 2W of them after any point at which L failures were recorded, with at most L+2W failures; the sequential run executes a prefix of them; equal sets give equal reports |
| Witnesses.OvershootFills | doc/user_guide.md:198-203 | Both bounds are exact: for every W and L some run completes 2W tasks after the trip and records L+2W failures |
| Witnesses.EndSeenBeforeTrip | doc/user_guide.md:420-423 | Whenever the policy stops the sequential executor just before the end of the source, some interleaving has the same report under CountShortfall or Finished instead |
| Witnesses.LabelsCanDiffer | tests/termination_semantics_tests.rs:18-28 | One failing task under a limit of one can be reported as Finished, while the sequential label is StoppedByTaskFailurePolicy |
| Outcomes.SequentialEnds | tests/termination_semantics_tests.rs:31-49 | The sequential executor ends at the first position where the policy stops it, the source ends or unwinds, an item is in excess, or a task unwinds, and its flags tell which |
| Guard.ActivePools.Enter | src/internal/active_batch_guard.rs:54-68 | Returns null exactly when the pool is registered, leaving the vector alone; otherwise appends it and hands out a fresh live guard; it carries out the enter of the registry model |
| Guard.ActivePools.Drop | src/internal/active_batch_guard.rs:78-85 | Dropping any live guard removes exactly its pool, at its last occurrence, keeps the order of the rest, and keeps vector and live guards in step; it carries out the drop of the registry model |
| Guard.ActivePools.Rposition | src/internal/active_batch_guard.rs:81 | The search from the end finds the last occurrence, or reports that there is none |
| Guard.RegistryListsLiveGuards | src/internal/active_batch_guard.rs:54-85 | After any sequence of enters and drops, in any drop order, the vector has no duplicates and lists exactly the pools of the live guards, oldest first |
| Guard.NestingRestores | src/internal/active_batch_guard.rs:54-85 | Any balanced nesting of enters and drops gives back the exact vector |
| Routing.RayonBatchExecutor.WorkerCount | src/rayon_batch_executor.rs:258-260 | The smaller of the actual pool capacity and the declared count |
| Routing.ParallelRunsHaveWorkers | src/rayon_batch_executor.rs:421-430 | Every call routed to the parallel path has at least one worker and one channel slot, and no more workers than pool threads |
| Routing.ReentryIsSequential | src/rayon_batch_executor.rs:345-347 | In a call tree of any depth every call runs sequentially if and only if its thread is inside a batch of that pool or works for it, or the batch is small or one-threaded; parallel frames on a stack are for distinct pools |
| Routing.EveryCallVisited | src/rayon_batch_executor.rs:345-347 | Every call of the tree, at any depth, is among those visits and so routed |
| SystemVisits.CallsAreVisits | src/internal/active_batch_guard.rs:54-68 | In every reachable state of the system, whoever is about to make a call makes one of the program's call trees, with exactly the registry and on exactly the path that the tree says |
| SystemVisits.ReentryInSystem | src/rayon_batch_executor.rs:421-427 | In every reachable state the registry of a thread that makes a call lists exactly the calls it is inside of, run in place or as batches, and the call is sequential if and only if it is inside of one for its pool, works for it, or is small or one-threaded |
| ParallelRun.Batch.Execute | src/rayon_batch_executor.rs:430-453 | The whole parallel path joins, returns a verdict that some interleaving gives, never a scheduler error, and the sequential verdict whenever the policy does not stop the sequential executor on that source |
| ParallelRun.Batch.SpawnLoops | src/rayon_batch_executor.rs:435-442 | The spawn loop ends with W loops queued and the original receiver dropped |
| ParallelRun.Batch.SendLoop | src/rayon_batch_executor.rs:444-449 | The send loop terminates with the sender dropped, by the end of the source, its unwind, or a failed send |
| ParallelRun.Batch.SendToken | src/rayon_batch_executor.rs:445-447 | The blocking send terminates; it fails only when every worker loop has unwound |
| ParallelRun.Batch.Next | doc/user_guide.md:506-513 | The admission-controlled pull ends in an accepted task, in the end of the source, or in an unwind, and makes progress |
| ParallelRun.Batch.RunRayonWorker | src/rayon_batch_executor.rs:470-481 | With everything else running in between, the loop terminates, runs new tokens in increasing order, records each as the source says, and returns only when the channel is empty and disconnected or its last task unwound |
| ParallelRun.SenderCanMove | src/rayon_batch_executor.rs:475-480 | While a loop waits on an empty connected channel the producer can take a step, so a receive never waits for its own loop |
| ParallelRun.ReraiseHasCause | src/rayon_batch_executor.rs:400-404 | Only an unwinding source or a runnable whose destruction unwinds makes a batch re-raise |
| ParallelRun.LimitedVerdict | doc/user_guide.md:198-203 | Under a limit every possible verdict reports the first m tasks, for some m that covers the sequential run, with at most L+2W failures |
| Verdicts.PossibleVerdicts | doc/user_guide.md:420-427 | For every configuration, source and verdict: some interleaving reports it if and only if it is the verdict on the first m tasks for an m and a label that the condition on source, count, limit and W allows, or a re-raise that the producer can get to |
| Verdicts.RunPulls | doc/user_guide.md:198-203 | In every run a pull begins only where fewer than L+W-1 of the tasks more than W+1 positions back fail |
| Executor.RunSequential | src/rayon_batch_executor.rs:424-427 | The sequential loop computes the sequential verdict: policy before every pull, count validation, each task at once |
| Reports.ParallelTruthful | src/rayon_batch_executor.rs:433-452 | Every verdict of the parallel path is true of the call's own source, count and limit: the first m tasks with their own results, a callable that unwinds when destroyed as a panic, the label with its numbers, and at most L + 2 min(pool threads, count) failures |
| Reports.SequentialTruthful | src/rayon_batch_executor.rs:424-427 | The same for the sequential path, with at most L failures |
| Executor.ExecuteWithCount | src/rayon_batch_executor.rs:411-453 | Routes as specified, makes exactly the nested visits of the call tree (run in sequence, after a parallel batch and before a sequential one), restores the thread's registry, and reports a truthful verdict: the sequential one, or that of an interleaving; a re-raise is a verdict here, and unwinding through guards is RegistriesRestored |
| Executor.CallWithCount | src/rayon_batch_executor.rs:334-357 | The same for callables, each with its own result in terms of the caller's source; the guard is dropped before delegating, the delegate routes as the outer decision did, and only the source can make the verdict a re-raise |
| Executor.CallablesReraiseSourcesOnly | doc/user_guide.md:446-450 | A callable batch re-raises only if its conversion or iteration unwinds |
| SystemRanks.GuardedDisciplined | src/rayon_batch_executor.rs:423-428 | A call, run in place or waited for, keeps the calling code's discipline: what it calls climbs the ranks or re-enters a pool its thread holds, and what follows it holds what it held |
| SystemRanks.MoveKeepsInv | src/rayon_batch_executor.rs:421-452 | Every move of threads, pools, channels and nested batches, unwinding calls included, keeps the system invariant: batches agree with their sources, and code waits only for batches of higher-ranked pools |
| SystemProgress.SystemProgresses | src/rayon_batch_executor.rs:421-452 | Cross-pool progress: if calls climb the ranks, no reachable state with an unjoined batch or an unreturned thread is stuck, with every pull and task ending as its own source says |
| SystemRuns.MoveLowersSize | src/rayon_batch_executor.rs:421-452 | Every move lowers the size of the remaining program, nested calls included, whatever the calls |
| SystemRuns.RunsAreBounded | src/rayon_batch_executor.rs:421-452 | Every run of every program, cyclic calls across pools included, has at most as many moves as the program's size, and keeps every batch to its protocol and source |
| SystemProgress.EveryRunFinishes | doc/user_guide.md:279-283 | If calls climb the ranks, no move is left exactly when every batch has joined and every thread has returned, and before that a move other than a reporter failure is possible |
| SystemProgress.SharedPoolFinishes | doc/user_guide.md:334-340 | The same for any number of threads calling clones with user code that calls only clones on its own pool, at any depth, whatever the sources and the pool sizes |
| SystemRuns.BatchIsOwnRun | doc/user_guide.md:334-336 | Whatever other batches do, the steps of a batch in a system run form a single-batch run over its own source that leads to exactly its state |
| SystemRuns.JoinedBatchesDrained | src/rayon_batch_executor.rs:433-451 | In every run of every program, each batch that has joined without unwound loops, nested or not and whatever else still runs, executed each accepted task exactly once |
| SystemRuns.JoinedBatchesReport | tests/internal/backend_contract_tests.rs:19-119 | In every run of every program, each batch that has joined reports what is true of its own source, count and limit, and, if the policy does not stop that source, what the sequential executor reports; none reports a scheduler error |
| SystemRuns.BatchesHaveWorkers | src/rayon_batch_executor.rs:430-442 | In every reachable state a batch past its spawn phase has exactly min(pool threads, count) loops, and never more |
| SystemRuns.PoolsAreBounded | src/rayon_batch_executor.rs:433-440 | In every reachable state no pool has more started jobs than threads |
| SystemRanks.LoopsStartInOrder | src/rayon_batch_executor.rs:435-440 | In every reachable state a worker loop starts only after all loops of its batch that were spawned before it |
| SystemRuns.CallsAreSynchronous | src/rayon_batch_executor.rs:433-451 | In every reachable state each batch that has not joined is being waited for by the code that called it |
| SystemRuns.ReraisesUnwind | src/rayon_batch_executor.rs:398-404 | Code moves on from a batch only when it has joined, and unwinds exactly when the batch lost a loop or its source unwound |
| SystemRuns.InlineRaises | src/rayon_batch_executor.rs:398-404 | A call run in place unwinds into its caller if and only if its verdict is to re-raise |
| SystemCalls.CallsMade | src/rayon_batch_executor.rs:421-452 | When no source unwinds, no policy stops a batch and no reporter fails, every finished run has made each call of the program's trees exactly as often as the sequential executor would, from the same thread context and on the same path, whatever the interleaving |
| SystemRegistries.RegistriesRestored | src/internal/active_batch_guard.rs:78-85 | Whatever calls what and whatever unwinds, on either path and wherever it is caught, code with nothing left to do has its thread's registry exactly as it was: an external thread's as it began, a source's with its pool registered, a pool thread's empty |

## Left out

- Progress reporting: intervals, events, reporter threads and reporter panics; a failing reporter only stops admission, and only on the parallel path.
- The precedence of a reporter error over a count error or a policy stop that is seen in the same batch is not documented; the model reports the count error first, then the reporter error.
- The builder, its validation, thread names, stack size, defaults, getters and error formatting.
- The pool's own scheduling: work stealing, injector order, and the cooperative wait of a pool thread inside a scope. Pool threads run jobs to completion from a FIFO queue. For call cycles across pools no progress is claimed; boundedness, draining, reports and registries are.
- The internals of the channel and memory ordering.
- Fairness and timeliness between clones, and barriers or locks inside user code.
- Process aborts, thread-creation failure, and reuse of a pool's address.
- Executor.ExecuteWithCount: does not interleave the nested calls with the batch's own steps, because the registry they touch belongs to one thread each, and has no unwinding control flow: a re-raise is a verdict. The nested calls of a tree are those that were actually made. Interleaved nested batches and unwinding through guards are the subject of the system model.
- Executor.CallWithCount: models the nested calls and re-raises in the same way.
- ParallelRun.Batch.Execute: advances worker loops step by step, and ParallelRun.Batch.RunRayonWorker advances the producer step by step; both are the same machine seen from two threads.
- SystemProgress.EveryRunFinishes: treats user code as finite lists of calls per pull and per task; since no source is pulled more than count+1 times, this covers endless sources.
- The values that a nested call returns to the user code that made it.
