/**
 The executor's entry points as imperative code over a thread's registry. The calls that user code makes
 are run where the source or the tasks make them; the batch itself is an interleaved `Batch` or the
 sequential loop.
 */
module Executor {
  import opened Basics
  import opened Protocol
  import opened Sources
  import opened Outcomes
  import opened Guard
  import opened Routing
  import opened Reports
  import opened ParallelRun

  /** What both entry points promise about the verdict, whichever path they took. */
  ghost predicate Reported(c: Call, parallel: bool, reporterMayFail: bool, verdict: Verdict) {
    var e, src := c.executor, Effective(c);
    && !verdict.ScheduleFailed? && !verdict.IncompleteSchedule?
    && Truthful(c, parallel, reporterMayFail, verdict)
    && (!parallel || (!reporterMayFail && !PolicyStops(src, c.count, e.limit)) ==>
          verdict == SequentialVerdict(src, c.count, e.limit))
    && (parallel ==> e.ConfigFor(c.count).Valid() && Possible(e.ConfigFor(c.count), src, reporterMayFail, verdict))
  }

  ghost function View(worker: Option<nat>, pools: seq<nat>, frames: seq<Frame>): ThreadView {
    ThreadView(Context(worker, pools), frames)
  }

  /** The sequential fallback: check the policy, pull, validate the count, run at once. */
  method RunSequential(src: Source, count: nat, limit: Option<nat>) returns (verdict: Verdict)
    requires limit.Some? ==> limit.value >= 1
    ensures verdict == SequentialVerdict(src, count, limit)
    ensures !verdict.ScheduleFailed? && !verdict.IncompleteSchedule?
  {
    if !src.converts {
      return Reraised;
    }
    var log: seq<Entry> := [];
    var failures := 0;
    while limit.None? || failures < limit.value
      invariant |log| <= count && log == Prefix(src, |log|) && failures == Failures(log)
      invariant SequentialFrom(src, count, limit, 0) == SequentialFrom(src, count, limit, |log|)
      decreases count - |log|
    {
      match src.at(|log|) {
        case End => return Classify(count, |log|, true, false, false, log);
        case Unwinds => return Reraised;
        case Item(task) =>
          if |log| == count {
            return Classify(count, |log|, false, true, false, log);
          }
          if task.RunThenUnwind? {
            return Reraised;
          }
          SumAppend(FailureOne, log, Entry(|log|, task));
          failures := failures + FailureOne(Entry(|log|, task));
          log := log + [Entry(|log|, task)];
      }
    }
    verdict := Classify(count, |log|, false, false, false, log);
  }

  /**
   Counted callables. The guard taken for the routing decision is dropped before delegating, since the
   delegate takes it again around the deferred conversion; both decisions agree.
   */
  method CallWithCount(thread: ActivePools, worker: Option<nat>, ghost frames: seq<Frame>, c: Call,
                       reporterMayFail: bool)
    returns (verdict: Verdict, parallel: bool, ghost visits: seq<Visit>)
    requires thread.Valid() && ValidCall(c) && c.callable
    modifies thread
    ensures thread.Valid() && thread.pools == old(thread.pools) && thread.live == old(thread.live)
    ensures parallel <==> !RunsSequentially(Context(worker, old(thread.pools)), c.executor, c.count)
    ensures visits == Visits(View(worker, old(thread.pools), frames), c)
    ensures Reported(c, parallel, reporterMayFail, verdict)
    ensures verdict == Reraised ==> !c.source.converts || exists i: nat :: c.source.at(i).Unwinds?
    decreases c, 2
  {
    var e := c.executor;
    ghost var pools, live := thread.pools, thread.live;
    var guard := thread.Enter(e.pool);
    var reentrant := guard == null || worker == Some(e.pool);
    if reentrant || c.count <= e.sequentialThreshold || e.threadCount <= 1 {
      parallel := false;
      verdict, visits := Sequentially(thread, worker, frames, c, guard, pools, live, reporterMayFail);
    } else {
      Release(thread, guard, pools, live);
      verdict, parallel, visits := ExecuteWithCount(thread, worker, frames, c, reporterMayFail);
      assert parallel;
    }
    if verdict == Reraised {
      CallablesReraiseSourcesOnly(c, parallel, reporterMayFail, verdict);
    }
  }

  /** Counted tasks: guard, route, and run the batch with the pool registered on this thread. */
  method ExecuteWithCount(thread: ActivePools, worker: Option<nat>, ghost frames: seq<Frame>, c: Call,
                          reporterMayFail: bool)
    returns (verdict: Verdict, parallel: bool, ghost visits: seq<Visit>)
    requires thread.Valid() && ValidCall(c)
    modifies thread
    ensures thread.Valid() && thread.pools == old(thread.pools) && thread.live == old(thread.live)
    ensures parallel <==> !RunsSequentially(Context(worker, old(thread.pools)), c.executor, c.count)
    ensures visits == Visits(View(worker, old(thread.pools), frames), c)
    ensures Reported(c, parallel, reporterMayFail, verdict)
    decreases c, 1
  {
    var e := c.executor;
    ghost var pools, live := thread.pools, thread.live;
    var guard := thread.Enter(e.pool);
    var reentrant := guard == null || worker == Some(e.pool);
    if reentrant || c.count <= e.sequentialThreshold || e.threadCount <= 1 {
      parallel := false;
      verdict, visits := Sequentially(thread, worker, frames, c, guard, pools, live, reporterMayFail);
    } else {
      parallel := true;
      verdict, visits := InParallel(thread, worker, frames, c, guard, pools, live, reporterMayFail);
    }
  }

  /** The parallel branch: the guard is held around the source, the scope and the join. */
  method InParallel(thread: ActivePools, worker: Option<nat>, ghost frames: seq<Frame>, c: Call,
                    guard: ActiveBatchGuard, ghost pools: seq<nat>, ghost live: seq<ActiveBatchGuard>,
                    reporterMayFail: bool)
    returns (verdict: Verdict, ghost visits: seq<Visit>)
    requires thread.Valid() && ValidCall(c) && !RunsSequentially(Context(worker, pools), c.executor, c.count)
    requires thread.pools == pools + [c.executor.pool]
    requires thread.live == live + [guard] && guard.poolId == c.executor.pool
    modifies thread
    ensures thread.Valid() && thread.pools == pools && thread.live == live
    ensures visits == Visits(View(worker, pools, frames), c)
    ensures Reported(c, true, reporterMayFail, verdict)
    decreases c, 0, 1
  {
    ParallelRunsHaveWorkers(Context(worker, pools), c.executor, c.count);
    verdict := RunParallel(c, reporterMayFail);
    visits := UserCode(thread, worker, frames + [Frame(c.executor.pool, true)], c, true, reporterMayFail);
    visits := [Visit(View(worker, pools, frames), c.executor, c.count, true)] + visits;
    Release(thread, guard, pools, live);
  }

  method RunParallel(c: Call, reporterMayFail: bool) returns (verdict: Verdict)
    requires c.executor.ConfigFor(c.count).Valid()
    ensures Reported(c, true, reporterMayFail, verdict)
  {
    var batch := new Batch(c.executor.ConfigFor(c.count), Effective(c), reporterMayFail);
    verdict := batch.Execute();
    ParallelTruthful(c, reporterMayFail, verdict);
  }

  method RunHere(c: Call, reporterMayFail: bool) returns (verdict: Verdict)
    requires c.executor.Valid()
    ensures Reported(c, false, reporterMayFail, verdict)
  {
    verdict := RunSequential(Effective(c), c.count, c.executor.limit);
    SequentialTruthful(c, reporterMayFail);
  }

  /** The sequential branch of both entry points; the guard, if there is one, is held throughout. */
  method Sequentially(thread: ActivePools, worker: Option<nat>, ghost frames: seq<Frame>, c: Call,
                      guard: ActiveBatchGuard?, ghost pools: seq<nat>, ghost live: seq<ActiveBatchGuard>,
                      reporterMayFail: bool)
    returns (verdict: Verdict, ghost visits: seq<Visit>)
    requires thread.Valid() && ValidCall(c) && RunsSequentially(Context(worker, pools), c.executor, c.count)
    requires thread.pools == Entered(pools, c.executor.pool)
    requires guard == null ==> c.executor.pool in pools && thread.live == live
    requires guard != null ==>
      c.executor.pool !in pools && thread.live == live + [guard] && guard.poolId == c.executor.pool
    modifies thread
    ensures thread.Valid() && thread.pools == pools && thread.live == live
    ensures visits == Visits(View(worker, pools, frames), c)
    ensures Reported(c, false, reporterMayFail, verdict)
    decreases c, 0, 1
  {
    visits := UserCode(thread, worker, frames + [Frame(c.executor.pool, false)], c, false, reporterMayFail);
    visits := [Visit(View(worker, pools, frames), c.executor, c.count, false)] + visits;
    verdict := RunHere(c, reporterMayFail);
    if guard != null {
      Release(thread, guard, pools, live);
    }
  }

  /** The guard taken last is dropped. */
  method Release(thread: ActivePools, guard: ActiveBatchGuard, ghost pools: seq<nat>, ghost live: seq<ActiveBatchGuard>)
    requires thread.Valid() && thread.pools == pools + [guard.poolId] && thread.live == live + [guard]
    modifies thread
    ensures thread.Valid() && thread.pools == pools && thread.live == live
  {
    thread.Drop(guard);
    DropRestores(pools, live, guard, thread.pools, thread.live);
  }

  /** The calls made while a batch runs: source code on this thread, tasks here or on pool threads. */
  method UserCode(thread: ActivePools, worker: Option<nat>, ghost frames: seq<Frame>, c: Call, parallel: bool,
                  reporterMayFail: bool)
    returns (ghost visits: seq<Visit>)
    requires thread.Valid() && ValidCall(c)
    modifies thread
    ensures thread.Valid() && thread.pools == old(thread.pools) && thread.live == old(thread.live)
    ensures
      var here := View(worker, old(thread.pools), frames);
      visits == VisitsAll(here, c.conversion)
                + VisitsItems(here, if parallel then OnWorker(c.executor.pool) else here, c.items)
    decreases c, 0, 0
  {
    ghost var here := View(worker, thread.pools, frames);
    ghost var there := if parallel then OnWorker(c.executor.pool) else here;
    visits := RunCalls(thread, worker, frames, c.conversion, reporterMayFail);
    ghost var itemVisits: seq<Visit> := [];
    for k := 0 to |c.items|
      invariant thread.Valid() && thread.pools == old(thread.pools) && thread.live == old(thread.live)
      invariant itemVisits == VisitsItems(here, there, c.items[..k])
    {
      ghost var pullVisits := RunCalls(thread, worker, frames, c.items[k].pull, reporterMayFail);
      ghost var taskVisits;
      if parallel {
        var workerThread := new ActivePools();
        taskVisits := RunCalls(workerThread, Some(c.executor.pool), [], c.items[k].task, reporterMayFail);
      } else {
        taskVisits := RunCalls(thread, worker, frames, c.items[k].task, reporterMayFail);
      }
      assert c.items[..k + 1][..k] == c.items[..k];
      itemVisits := itemVisits + pullVisits + taskVisits;
    }
    assert c.items[..|c.items|] == c.items;
    visits := visits + itemVisits;
  }

  method RunCalls(thread: ActivePools, worker: Option<nat>, ghost frames: seq<Frame>, calls: seq<Call>,
                  reporterMayFail: bool)
    returns (ghost visits: seq<Visit>)
    requires thread.Valid() && forall d <- calls :: ValidCall(d)
    modifies thread
    ensures thread.Valid() && thread.pools == old(thread.pools) && thread.live == old(thread.live)
    ensures visits == VisitsAll(View(worker, old(thread.pools), frames), calls)
    decreases calls
  {
    visits := [];
    for k := 0 to |calls|
      invariant thread.Valid() && thread.pools == old(thread.pools) && thread.live == old(thread.live)
      invariant visits == VisitsAll(View(worker, thread.pools, frames), calls[..k])
    {
      var verdict, parallel;
      ghost var inner;
      if calls[k].callable {
        verdict, parallel, inner := CallWithCount(thread, worker, frames, calls[k], reporterMayFail);
      } else {
        verdict, parallel, inner := ExecuteWithCount(thread, worker, frames, calls[k], reporterMayFail);
      }
      assert calls[..k + 1][..k] == calls[..k];
      visits := visits + inner;
    }
    assert calls[..|calls|] == calls;
  }

  // ----- facts -----

  lemma DropRestores(pools: seq<nat>, live: seq<ActiveBatchGuard>, guard: ActiveBatchGuard, after: seq<nat>,
                     liveAfter: seq<ActiveBatchGuard>)
    requires NoDuplicates(PoolIds(live + [guard]))
    requires after == Dropped(pools + [guard.poolId], guard.poolId)
    requires exists k :: 0 <= k < |live| + 1 && (live + [guard])[k] == guard && liveAfter == RemoveAt(live + [guard], k)
    ensures after == pools && liveAfter == live
  {
    DropUndoesEnter(pools, guard.poolId);
    var k :| 0 <= k < |live| + 1 && (live + [guard])[k] == guard && liveAfter == RemoveAt(live + [guard], k);
    assert PoolIds(live + [guard])[k] == PoolIds(live + [guard])[|live|];
  }

  /** A captured callable never unwinds, so only the source can make a callable batch re-raise. */
  lemma CallablesReraiseSourcesOnly(c: Call, parallel: bool, reporterMayFail: bool, verdict: Verdict)
    requires c.callable && Reported(c, parallel, reporterMayFail, verdict) && verdict == Reraised
    ensures !c.source.converts || exists i: nat :: c.source.at(i).Unwinds?
  {
    var src := Effective(c);
    if parallel {
      ReraiseHasCause(c.executor.ConfigFor(c.count), src, reporterMayFail);
    } else if src.converts {
      SequentialReraiseHasCause(src, c.count, c.executor.limit, 0);
    }
    if i: nat :| src.at(i).Unwinds? || src.at(i) == Item(RunThenUnwind) {
      assert c.source.at(i).Unwinds?;
    }
  }

  lemma {:induction false} SequentialReraiseHasCause(src: Source, count: nat, limit: Option<nat>, k: nat)
    requires k <= count && SequentialFrom(src, count, limit, k).unwound
    ensures exists i: nat :: src.at(i).Unwinds? || src.at(i) == Item(RunThenUnwind)
    decreases count - k
  {
    if !LimitReached(limit, Prefix(src, k)) && src.at(k).Item? && k < count && !src.at(k).task.RunThenUnwind? {
      SequentialReraiseHasCause(src, count, limit, k + 1);
    }
  }
}
