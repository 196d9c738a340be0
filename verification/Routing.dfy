/**
 Which calls run in parallel: the routing decision, call trees in which user code calls back into
 executors, and what the guard makes true of every call in such a tree.
 */
module Routing {
  import opened Basics
  import opened Protocol
  import opened Sources

  /** The executor's configuration; clones share the pool and are equal values. */
  datatype RayonBatchExecutor = RayonBatchExecutor(
    pool: nat,
    poolThreads: nat,  // actual pool capacity
    threadCount: nat,  // configured capacity
    sequentialThreshold: nat,
    limit: Option<nat>)
  {
    predicate Valid() {
      poolThreads >= 1 && threadCount >= 1 && (limit.Some? ==> limit.value >= 1)
    }

    function WorkerCount(count: nat): (n: nat)
      ensures n <= poolThreads && n <= count
      ensures n == poolThreads || n == count
    {
      if poolThreads < count then poolThreads else count
    }

    function ConfigFor(count: nat): Config {
      Config(WorkerCount(count), count, limit)
    }
  }

  /** What routing can see of a thread: the pool it works for, if any, and its registered pools. */
  datatype Context = Context(worker: Option<nat>, active: seq<nat>)

  predicate Reentrant(ctx: Context, pool: nat) {
    pool in ctx.active || ctx.worker == Some(pool)
  }

  predicate RunsSequentially(ctx: Context, e: RayonBatchExecutor, count: nat) {
    Reentrant(ctx, e.pool) || count <= e.sequentialThreshold || e.threadCount <= 1
  }

  function Entered(active: seq<nat>, pool: nat): seq<nat> {
    if pool in active then active else active + [pool]
  }

  /** Every parallel run has a worker and a channel slot, and no more workers than pool threads. */
  lemma ParallelRunsHaveWorkers(ctx: Context, e: RayonBatchExecutor, count: nat)
    requires e.Valid() && !RunsSequentially(ctx, e, count)
    ensures e.ConfigFor(count).Valid() && 1 <= e.ConfigFor(count).workers <= e.poolThreads
  {
  }

  // ----- call trees -----

  /**
   A call together with the calls that user code makes while it runs: in the source's conversion, in the
   pull of each item, and in each task. `callable` calls enter through `call_with_count`.
   */
  datatype Call = Call(
    executor: RayonBatchExecutor,
    callable: bool,
    count: nat,
    source: Source,
    conversion: seq<Call>,
    items: seq<ItemCalls>)

  datatype ItemCalls = ItemCalls(pull: seq<Call>, task: seq<Call>)

  /** Callable adapters destroy the callable inside the captured boundary: its panic is a task panic. */
  function Captured(src: Source): Source {
    Source(src.converts, (i: nat) => match src.at(i) case Item(RunThenUnwind) => Item(Panic) case other => other)
  }

  /** What the batch sees of the call's source and tasks. */
  function Effective(c: Call): Source {
    if c.callable then Captured(c.source) else c.source
  }

  ghost predicate ValidCall(c: Call)
    decreases c
  {
    && c.executor.Valid()
    && (forall d <- c.conversion :: ValidCall(d))
    && (forall i <- c.items :: (forall d <- i.pull :: ValidCall(d)) && (forall d <- i.task :: ValidCall(d)))
  }

  /** A batch call in progress on a thread. */
  datatype Frame = Frame(pool: nat, parallel: bool)

  /** A thread as user code runs on it: its context, and the batch calls on its stack, outermost first. */
  datatype ThreadView = ThreadView(ctx: Context, frames: seq<Frame>)

  /** A call that was made, where it was made, and which path it took. */
  datatype Visit = Visit(thread: ThreadView, executor: RayonBatchExecutor, count: nat, parallel: bool)

  function Inside(t: ThreadView, e: RayonBatchExecutor, parallel: bool): ThreadView {
    ThreadView(Context(t.ctx.worker, Entered(t.ctx.active, e.pool)), t.frames + [Frame(e.pool, parallel)])
  }

  /** A pool thread that starts running a task has nothing registered and no batch call on its stack. */
  function OnWorker(pool: nat): ThreadView {
    ThreadView(Context(Some(pool), []), [])
  }

  /** Every call made in the tree of `c` when it is made on thread `t`. */
  ghost function Visits(t: ThreadView, c: Call): seq<Visit>
    decreases c
  {
    var parallel := !RunsSequentially(t.ctx, c.executor, c.count);
    var inside := Inside(t, c.executor, parallel);
    var tasks := if parallel then OnWorker(c.executor.pool) else inside;
    [Visit(t, c.executor, c.count, parallel)]
    + VisitsAll(inside, c.conversion)
    + VisitsItems(inside, tasks, c.items)
  }

  ghost function VisitsAll(t: ThreadView, calls: seq<Call>): seq<Visit>
    decreases calls
  {
    if calls == [] then []
    else VisitsAll(t, calls[..|calls| - 1]) + Visits(t, calls[|calls| - 1])
  }

  ghost function VisitsItems(pulls: ThreadView, tasks: ThreadView, items: seq<ItemCalls>): seq<Visit>
    decreases items
  {
    if items == [] then []
    else
      var n := |items| - 1;
      VisitsItems(pulls, tasks, items[..n]) + VisitsAll(pulls, items[n].pull) + VisitsAll(tasks, items[n].task)
  }

  ghost predicate HasFrame(frames: seq<Frame>, pool: nat) {
    exists k :: 0 <= k < |frames| && frames[k].pool == pool
  }

  /**
   The registered pools are those of the batch calls on the stack, and the parallel ones among them are
   for different pools, none of them the pool that the thread works for.
   */
  ghost predicate WellGuarded(t: ThreadView) {
    && NoDuplicates(t.ctx.active)
    && (forall p :: p in t.ctx.active <==> HasFrame(t.frames, p))
    && (forall j, k :: 0 <= j < k < |t.frames| && t.frames[j].parallel && t.frames[k].parallel ==>
          t.frames[j].pool != t.frames[k].pool)
    && (forall k :: 0 <= k < |t.frames| && t.frames[k].parallel ==> t.ctx.worker != Some(t.frames[k].pool))
  }

  /** A call runs sequentially exactly when it re-enters a pool on its thread, is small, or has one thread. */
  ghost predicate RoutedRightly(v: Visit) {
    && WellGuarded(v.thread)
    && (!v.parallel <==>
          || HasFrame(v.thread.frames, v.executor.pool)
          || v.thread.ctx.worker == Some(v.executor.pool)
          || v.count <= v.executor.sequentialThreshold
          || v.executor.threadCount <= 1)
  }

  lemma InsideWellGuarded(t: ThreadView, e: RayonBatchExecutor, count: nat)
    requires WellGuarded(t)
    ensures WellGuarded(Inside(t, e, !RunsSequentially(t.ctx, e, count)))
  {
    var inside := Inside(t, e, !RunsSequentially(t.ctx, e, count));
    assert inside.frames[|t.frames|].pool == e.pool;
    assert forall k :: 0 <= k < |t.frames| ==> inside.frames[k] == t.frames[k];
    forall p ensures p in inside.ctx.active <==> HasFrame(inside.frames, p) {
      if HasFrame(t.frames, p) {
        var k :| 0 <= k < |t.frames| && t.frames[k].pool == p;
        assert inside.frames[k].pool == p;
      }
    }
  }

  /**
   Reentry: in a call tree of any depth, whatever code makes a call, it takes the sequential path exactly
   when its own thread is already inside a batch of that pool, works for it, or the batch is small; so no
   thread ever has two parallel calls for one pool on its stack.
   */
  lemma {:induction false} ReentryIsSequential(t: ThreadView, c: Call)
    requires WellGuarded(t)
    ensures forall v <- Visits(t, c) :: RoutedRightly(v)
    decreases c
  {
    var parallel := !RunsSequentially(t.ctx, c.executor, c.count);
    var inside := Inside(t, c.executor, parallel);
    InsideWellGuarded(t, c.executor, c.count);
    ReentryInAll(inside, c.conversion);
    ReentryInItems(inside, if parallel then OnWorker(c.executor.pool) else inside, c.items);
    assert RoutedRightly(Visit(t, c.executor, c.count, parallel));
  }

  lemma {:induction false} ReentryInAll(t: ThreadView, calls: seq<Call>)
    requires WellGuarded(t)
    ensures forall v <- VisitsAll(t, calls) :: RoutedRightly(v)
    decreases calls
  {
    if calls != [] {
      ReentryInAll(t, calls[..|calls| - 1]);
      ReentryIsSequential(t, calls[|calls| - 1]);
    }
  }

  lemma {:induction false} ReentryInItems(pulls: ThreadView, tasks: ThreadView, items: seq<ItemCalls>)
    requires WellGuarded(pulls) && WellGuarded(tasks)
    ensures forall v <- VisitsItems(pulls, tasks, items) :: RoutedRightly(v)
    decreases items
  {
    if items != [] {
      var n := |items| - 1;
      ReentryInItems(pulls, tasks, items[..n]);
      ReentryInAll(pulls, items[n].pull);
      ReentryInAll(tasks, items[n].task);
    }
  }

  // ----- every call of a tree is visited -----

  /** `d` is a call that user code of `c` makes. */
  ghost predicate MadeBy(c: Call, d: Call) {
    d in c.conversion || exists i <- c.items :: Makes(i, d)
  }

  ghost predicate Makes(i: ItemCalls, d: Call) {
    d in i.pull || d in i.task
  }

  /** The view from which user code of `c` makes its calls when `c` is called on `t`. */
  ghost function SourceView(t: ThreadView, c: Call): ThreadView {
    Inside(t, c.executor, !RunsSequentially(t.ctx, c.executor, c.count))
  }

  ghost function TaskView(t: ThreadView, c: Call): ThreadView {
    if RunsSequentially(t.ctx, c.executor, c.count) then SourceView(t, c) else OnWorker(c.executor.pool)
  }

  ghost predicate Covers(more: seq<Visit>, visits: seq<Visit>) {
    forall v <- visits :: v in more
  }

  lemma {:induction false} CallsCovered(t: ThreadView, calls: seq<Call>, d: Call)
    requires d in calls
    ensures Covers(VisitsAll(t, calls), Visits(t, d))
  {
    var n := |calls| - 1;
    if d != calls[n] {
      assert calls == calls[..n] + [calls[n]];
      CallsCovered(t, calls[..n], d);
    }
  }

  lemma {:induction false} ItemsCovered(pulls: ThreadView, tasks: ThreadView, items: seq<ItemCalls>, i: ItemCalls)
    requires i in items
    ensures Covers(VisitsItems(pulls, tasks, items), VisitsAll(pulls, i.pull))
    ensures Covers(VisitsItems(pulls, tasks, items), VisitsAll(tasks, i.task))
  {
    var n := |items| - 1;
    if i != items[n] {
      assert items == items[..n] + [items[n]];
      ItemsCovered(pulls, tasks, items[..n], i);
    }
  }

  /** The visits of a call include those of every call that its user code makes, from the view it makes it. */
  lemma NestedCovered(t: ThreadView, c: Call)
    ensures forall d <- c.conversion :: Covers(Visits(t, c), Visits(SourceView(t, c), d))
    ensures forall i <- c.items, d <- i.pull :: Covers(Visits(t, c), Visits(SourceView(t, c), d))
    ensures forall i <- c.items, d <- i.task :: Covers(Visits(t, c), Visits(TaskView(t, c), d))
  {
    forall d | d in c.conversion ensures Covers(Visits(t, c), Visits(SourceView(t, c), d)) {
      CallsCovered(SourceView(t, c), c.conversion, d);
    }
    forall i, d | i in c.items && d in i.pull ensures Covers(Visits(t, c), Visits(SourceView(t, c), d)) {
      ItemsCovered(SourceView(t, c), TaskView(t, c), c.items, i);
      CallsCovered(SourceView(t, c), i.pull, d);
    }
    forall i, d | i in c.items && d in i.task ensures Covers(Visits(t, c), Visits(TaskView(t, c), d)) {
      ItemsCovered(SourceView(t, c), TaskView(t, c), c.items, i);
      CallsCovered(TaskView(t, c), i.task, d);
    }
  }

  /** `d` is `c` or is made, at any depth, by its user code. */
  ghost predicate InTree(c: Call, d: Call)
    decreases c
  {
    || c == d
    || (exists e <- c.conversion :: InTree(e, d))
    || (exists i <- c.items :: (exists e <- i.pull :: InTree(e, d)) || (exists e <- i.task :: InTree(e, d)))
  }

  /** Every call of the tree is made somewhere, and is routed by the calls that it is inside of on its thread. */
  lemma {:induction false} EveryCallVisited(t: ThreadView, c: Call, d: Call)
    requires WellGuarded(t) && InTree(c, d)
    ensures exists v <- Visits(t, c) :: v.executor == d.executor && v.count == d.count && RoutedRightly(v)
    decreases c
  {
    ReentryIsSequential(t, c);
    NestedCovered(t, c);
    InsideWellGuarded(t, c.executor, c.count);
    if c == d {
      var first := Visits(t, c)[0];
      assert first in Visits(t, c);
    } else if e :| e in c.conversion && InTree(e, d) {
      EveryCallVisited(SourceView(t, c), e, d);
    } else {
      var i :| i in c.items && ((exists e <- i.pull :: InTree(e, d)) || (exists e <- i.task :: InTree(e, d)));
      if e :| e in i.pull && InTree(e, d) {
        EveryCallVisited(SourceView(t, c), e, d);
      } else {
        var e :| e in i.task && InTree(e, d);
        EveryCallVisited(TaskView(t, c), e, d);
      }
    }
  }

  /** Direct reentry: a call for the same pool, made by the source or by a task of `c`, runs sequentially. */
  lemma DirectReentry(t: ThreadView, c: Call, d: Call)
    requires d.executor.pool == c.executor.pool
    ensures
      var parallel := !RunsSequentially(t.ctx, c.executor, c.count);
      var inside := Inside(t, c.executor, parallel);
      && !Visits(inside, d)[0].parallel
      && !Visits(if parallel then OnWorker(c.executor.pool) else inside, d)[0].parallel
  {
  }
}
