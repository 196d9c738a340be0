/**
 Calls that climb a ranking of the pools: what code running for a batch may call, and the invariant of the whole
 system under which code waits only for batches of higher-ranked pools.
 */
module SystemRanks {
  import opened Basics
  import opened Protocol
  import opened Guard
  import opened Routing
  import opened PoolSystem
  import opened SystemRegistries
  import opened SystemRuns

  // ----- which programs are considered -----

  /** Calls made from within a batch of `outer`'s pool stay in that pool or go to a higher-ranked one. */
  ghost predicate Climbs(rank: nat -> nat, outer: Call, inner: Call) {
    inner.executor.pool == outer.executor.pool || rank(inner.executor.pool) > rank(outer.executor.pool)
  }

  ghost predicate WellFormed(sizes: nat -> nat, rank: nat -> nat, c: Call)
    decreases c
  {
    && c.executor.Valid() && c.executor.poolThreads == sizes(c.executor.pool)
    && (forall d <- c.conversion :: Climbs(rank, c, d) && WellFormed(sizes, rank, d))
    && (forall i <- c.items ::
          && (forall d <- i.pull :: Climbs(rank, c, d) && WellFormed(sizes, rank, d))
          && (forall d <- i.task :: Climbs(rank, c, d) && WellFormed(sizes, rank, d)))
  }

  /** A thread registers or works for `pool` when it reaches position `k` of its code. */
  ghost predicate Holds(a: Activity, k: nat, pool: nat)
    requires k <= |a.code|
  {
    a.ctx.worker == Some(pool) || (pool in a.ctx.active && Leave(pool) !in a.code[..k])
  }

  /** User code that runs for a batch of `base`: what it still calls climbs, or re-enters a pool it holds. */
  ghost predicate Disciplined(sizes: nat -> nat, rank: nat -> nat, a: Activity, base: nat) {
    && Holds(a, |a.code|, base)
    && (forall k :: 0 <= k < |a.code| && a.code[k].Invoke? ==>
          var c := a.code[k].call;
          && WellFormed(sizes, rank, c)
          && rank(c.executor.pool) >= rank(base)
          && (rank(c.executor.pool) > rank(base) || Holds(a, k, c.executor.pool)))
  }

  /** The code of an external thread may call any pool. */
  ghost predicate Unconstrained(sizes: nat -> nat, rank: nat -> nat, a: Activity) {
    forall k :: 0 <= k < |a.code| && a.code[k].Invoke? ==> WellFormed(sizes, rank, a.code[k].call)
  }

  /** Code of a batch of `base` waits only for batches of higher-ranked pools. */
  ghost predicate ChildAbove(rank: nat -> nat, batches: seq<BatchCall>, a: Activity, base: nat) {
    a.child.Some? ==> a.child.value < |batches| && rank(batches[a.child.value].Pool()) > rank(base)
  }

  ghost predicate GoodCode(sizes: nat -> nat, rank: nat -> nat, batches: seq<BatchCall>, a: Activity, base: nat) {
    Disciplined(sizes, rank, a, base) && ChildAbove(rank, batches, a, base)
  }

  // ----- the invariant -----

  ghost predicate RankedBatch(sizes: nat -> nat, rank: nat -> nat, batches: seq<BatchCall>, b: BatchCall) {
    && WellFormed(sizes, rank, b.call)
    && GoodCode(sizes, rank, batches, b.source, b.Pool())
    && (forall w :: 0 <= w < |b.tasks| ==> GoodCode(sizes, rank, batches, b.tasks[w], b.Pool()))
  }

  ghost predicate Ranked(sizes: nat -> nat, rank: nat -> nat, sys: Sys) {
    && (forall k :: 0 <= k < |sys.threads| ==> Unconstrained(sizes, rank, sys.threads[k]))
    && (forall b :: 0 <= b < |sys.batches| ==> RankedBatch(sizes, rank, sys.batches, sys.batches[b]))
  }

  /** The queue holds exactly the jobs that no pool thread has taken, each once. */
  ghost predicate QueueOk(sys: Sys) {
    && NoDuplicates(sys.queue)
    && (forall t <- sys.queue ::
          && t.batch < |sys.batches| && t.job < |sys.batches[t.batch].state.jobs|
          && sys.batches[t.batch].state.jobs[t.job].Queued? && sys.batches[t.batch].Pool() == t.pool)
    && (forall b, w ::
          && 0 <= b < |sys.batches| && 0 <= w < |sys.batches[b].state.jobs|
          && sys.batches[b].state.jobs[w].Queued? ==>
          Ticket(sys.batches[b].Pool(), b, w) in sys.queue)
  }

  ghost predicate SysInv(sizes: nat -> nat, rank: nat -> nat, sys: Sys) {
    Sound(sys) && Ranked(sizes, rank, sys) && QueueOk(sys)
  }

  lemma RankedKept(sizes: nat -> nat, rank: nat -> nat, before: seq<BatchCall>, after: seq<BatchCall>)
    requires SameCalls(before, after)
    ensures forall a, base :: GoodCode(sizes, rank, before, a, base) ==> GoodCode(sizes, rank, after, a, base)
    ensures forall b :: RankedBatch(sizes, rank, before, b) ==> RankedBatch(sizes, rank, after, b)
  {
    forall b | RankedBatch(sizes, rank, before, b) ensures RankedBatch(sizes, rank, after, b) {
      assert GoodCode(sizes, rank, before, b.source, b.Pool());
      forall w | 0 <= w < |b.tasks| ensures GoodCode(sizes, rank, after, b.tasks[w], b.Pool()) {
        assert GoodCode(sizes, rank, before, b.tasks[w], b.Pool());
      }
    }
  }

  /** The code satisfies what its owner demands. */
  ghost predicate GoodFor(sizes: nat -> nat, rank: nat -> nat, sys: Sys, who: Who, a: Activity)
    requires Active(sys, who)
  {
    if who.Thread? then Unconstrained(sizes, rank, a)
    else GoodCode(sizes, rank, sys.batches, a, sys.batches[who.batch].Pool())
  }

  lemma GetIsGood(sizes: nat -> nat, rank: nat -> nat, sys: Sys, who: Who)
    requires Ranked(sizes, rank, sys) && Active(sys, who)
    ensures GoodFor(sizes, rank, sys, who, Get(sys, who))
  {
    if !who.Thread? {
      assert RankedBatch(sizes, rank, sys.batches, sys.batches[who.batch]);
    }
  }

  lemma SetKeepsRanked(sizes: nat -> nat, rank: nat -> nat, sys: Sys, who: Who, a: Activity)
    requires Ranked(sizes, rank, sys) && Active(sys, who) && GoodFor(sizes, rank, sys, who, a)
    ensures Ranked(sizes, rank, Set(sys, who, a))
  {
    SetKeepsCalls(sys, who, a);
    RankedKept(sizes, rank, sys.batches, Set(sys, who, a).batches);
    if !who.Thread? {
      assert RankedBatch(sizes, rank, sys.batches, sys.batches[who.batch]);
      assert RankedBatch(sizes, rank, sys.batches, Set(sys, who, a).batches[who.batch]);
    }
  }

  // ----- user code keeps its discipline -----

  lemma MadeByClimbs(sizes: nat -> nat, rank: nat -> nat, c: Call, d: Call)
    requires WellFormed(sizes, rank, c) && MadeBy(c, d)
    ensures WellFormed(sizes, rank, d) && Climbs(rank, c, d)
  {
  }

  /** Code of a batch of `c` that starts on a thread holding `c`'s pool is disciplined. */
  lemma FreshCodeDisciplined(sizes: nat -> nat, rank: nat -> nat, c: Call, a: Activity)
    requires WellFormed(sizes, rank, c) && CallsOf(c, a.code) && Holds(a, 0, c.executor.pool)
    ensures Disciplined(sizes, rank, a, c.executor.pool)
  {
    assert a.code[..|a.code|] == a.code;
    assert forall k :: 0 <= k < |a.code| ==> a.code[k] in a.code && !a.code[k].Leave?;
    forall k | 0 <= k < |a.code| && a.code[k].Invoke?
      ensures WellFormed(sizes, rank, a.code[k].call) && Climbs(rank, c, a.code[k].call)
    {
      assert a.code[k] in a.code;
      MadeByClimbs(sizes, rank, c, a.code[k].call);
    }
  }

  lemma GuardedDisciplined(sizes: nat -> nat, rank: nat -> nat, a: Activity, base: nat,
                           body: seq<Instr>, child: Option<nat>)
    requires Disciplined(sizes, rank, a, base)
    requires a.code != [] && a.code[0].Invoke? && CallsOf(a.code[0].call, body)
    ensures Disciplined(sizes, rank, Guarded(a, body, child), base)
  {
    var c := a.code[0].call;
    var pool := c.executor.pool;
    var b := Guarded(a, body, child);
    var guard := if pool in a.ctx.active then [] else [Leave(pool)];
    forall k | 0 <= k < |b.code| && b.code[k].Invoke?
      ensures
        var d := b.code[k].call;
        && WellFormed(sizes, rank, d) && rank(d.executor.pool) >= rank(base)
        && (rank(d.executor.pool) > rank(base) || Holds(b, k, d.executor.pool))
    {
      if k < |body| {
        assert b.code[k] == body[k] && body[k] in body;
        assert forall j :: 0 <= j < k ==> b.code[j] == body[j] && body[j] in body;
        MadeByClimbs(sizes, rank, c, b.code[k].call);
      } else {
        var i := k - |body| - |guard| + 1;
        assert b.code[k] == a.code[i];
        if Holds(a, i, a.code[i].call.executor.pool) {
          GuardedHolds(a, body, child, i, a.code[i].call.executor.pool);
        }
      }
    }
    GuardedHolds(a, body, child, |a.code|, base);
  }

  /** What a thread holds at a later point of its code is not changed by a call before it. */
  lemma GuardedHolds(a: Activity, body: seq<Instr>, child: Option<nat>, i: nat, pool: nat)
    requires a.code != [] && a.code[0].Invoke? && NoLeave(body)
    requires 1 <= i <= |a.code| && Holds(a, i, pool)
    ensures
      var b := Guarded(a, body, child);
      var k := |b.code| - |a.code| + i;
      k <= |b.code| && Holds(b, k, pool)
  {
    var called := a.code[0].call.executor.pool;
    var b := Guarded(a, body, child);
    var guard := if called in a.ctx.active then [] else [Leave(called)];
    var k := |b.code| - |a.code| + i;
    assert b.code[..k] == body + guard + a.code[1..i];
    assert a.code[..i] == [a.code[0]] + a.code[1..i];
  }

  lemma LeftDisciplined(sizes: nat -> nat, rank: nat -> nat, a: Activity, base: nat)
    requires Disciplined(sizes, rank, a, base) && a.code != [] && a.code[0].Leave?
    ensures Disciplined(sizes, rank, Left(a), base)
  {
    var b := Left(a);
    forall i: nat, pool: nat | 1 <= i <= |a.code| && Holds(a, i, pool) ensures Holds(b, i - 1, pool) {
      assert a.code[..i] == [a.code[0]] + b.code[..i - 1];
      if a.ctx.worker != Some(pool) {
        assert a.code[0] in a.code[..i];
        DroppedKeepsOthers(a.ctx.active, a.code[0].pool, pool);
      }
    }
    assert Holds(b, |a.code| - 1, base);
    forall k | 0 <= k < |b.code| && b.code[k].Invoke?
      ensures
        var d := b.code[k].call;
        && WellFormed(sizes, rank, d) && rank(d.executor.pool) >= rank(base)
        && (rank(d.executor.pool) > rank(base) || Holds(b, k, d.executor.pool))
    {
      assert b.code[k] == a.code[k + 1];
      if Holds(a, k + 1, a.code[k + 1].call.executor.pool) {
        assert Holds(b, k + 1 - 1, a.code[k + 1].call.executor.pool);
      }
    }
  }

  /** Wherever unwinding is caught, the code after that point runs with the guards it would have had. */
  lemma CaughtDisciplined(sizes: nat -> nat, rank: nat -> nat, a: Activity, base: nat, caught: nat)
    requires Disciplined(sizes, rank, a, base) && caught <= |a.code|
    ensures Disciplined(sizes, rank, Caught(a, caught), base)
  {
    var kept := Guards(a.code[..caught]);
    var b := Caught(a, caught);
    GuardsOnly(a.code[..caught]);
    forall i: nat, pool: nat | caught <= i <= |a.code| && Holds(a, i, pool)
      ensures Holds(b, |kept| + i - caught, pool)
    {
      assert b.code[..|kept| + i - caught] == kept + a.code[caught..i];
      assert a.code[..i] == a.code[..caught] + a.code[caught..i];
    }
    assert Holds(b, |kept| + |a.code| - caught, base);
    forall j | 0 <= j < |kept| ensures !b.code[j].Invoke? {
      assert kept[j] in kept;
    }
    forall k | 0 <= k < |b.code| && b.code[k].Invoke?
      ensures
        var d := b.code[k].call;
        && WellFormed(sizes, rank, d) && rank(d.executor.pool) >= rank(base)
        && (rank(d.executor.pool) > rank(base) || Holds(b, k, d.executor.pool))
    {
      var i := k - |kept| + caught;
      assert b.code[k] == a.code[i];
      if Holds(a, i, a.code[i].call.executor.pool) {
        assert Holds(b, |kept| + i - caught, a.code[i].call.executor.pool);
      }
    }
  }

  // ----- every move keeps the invariant -----

  /** A call that is not sequential goes to a pool that the calling code's batch ranks below. */
  lemma WaitIsGood(sizes: nat -> nat, rank: nat -> nat, sys: Sys, who: Who)
    requires Ranked(sizes, rank, sys) && CanMove(sizes, sys, CallParallel(who))
    ensures
      var more := sys.(batches := Batches(sizes, sys, CallParallel(who)));
      GoodFor(sizes, rank, more, who, NewCode(sizes, sys, CallParallel(who)))
  {
    GetIsGood(sizes, rank, sys, who);
    var a := Get(sys, who);
    if !who.Thread? {
      var base := sys.batches[who.batch].Pool();
      assert !Holds(a, 0, a.code[0].call.executor.pool);
      GuardedDisciplined(sizes, rank, a, base, [], Some(|sys.batches|));
    }
  }

  lemma InlinedIsGood(sizes: nat -> nat, rank: nat -> nat, sys: Sys, who: Who)
    requires Ranked(sizes, rank, sys) && CanMove(sizes, sys, CallInline(who))
    ensures GoodFor(sizes, rank, sys, who, NewCode(sizes, sys, CallInline(who)))
  {
    GetIsGood(sizes, rank, sys, who);
    var a := Get(sys, who);
    var c := a.code[0].call;
    InlineIsCallsOf(c);
    if who.Thread? {
      forall i | i in InlineCode(c) && i.Invoke? ensures WellFormed(sizes, rank, i.call) {
        MadeByClimbs(sizes, rank, c, i.call);
      }
    } else {
      GuardedDisciplined(sizes, rank, a, sys.batches[who.batch].Pool(), InlineCode(c), None);
    }
  }

  lemma UnwoundIsGood(sizes: nat -> nat, rank: nat -> nat, sys: Sys, who: Who, caught: nat)
    requires Balanced(sys) && Ranked(sizes, rank, sys) && CanMove(sizes, sys, Unwind(who, caught))
    ensures GoodFor(sizes, rank, sys, who, NewCode(sizes, sys, Unwind(who, caught)))
  {
    GetIsGood(sizes, rank, sys, who);
    HandedBackSame(sys, who);
    var a := Get(sys, who).(child := None);
    if who.Thread? {
      var kept := Guards(a.code[..caught]);
      GuardsOnly(a.code[..caught]);
      forall k | 0 <= k < |kept| ensures !kept[k].Invoke? {
        assert kept[k] in kept;
      }
    } else {
      CaughtDisciplined(sizes, rank, a, sys.batches[who.batch].Pool(), caught);
    }
  }

  lemma NewCodeIsGood(sizes: nat -> nat, rank: nat -> nat, sys: Sys, m: Move)
    requires Balanced(sys) && Ranked(sizes, rank, sys) && CanMove(sizes, sys, m) && !m.BatchStep?
    ensures GoodFor(sizes, rank, sys.(batches := Batches(sizes, sys, m)), m.who, NewCode(sizes, sys, m))
  {
    GetIsGood(sizes, rank, sys, m.who);
    match m
    case CallInline(who) => InlinedIsGood(sizes, rank, sys, who);
    case CallParallel(who) => WaitIsGood(sizes, rank, sys, who);
    case LeaveGuard(who) =>
      if !who.Thread? {
        LeftDisciplined(sizes, rank, Get(sys, who), sys.batches[who.batch].Pool());
      }
    case Resume(who) => HandedBackSame(sys, who);
    case Unwind(who, caught) => UnwoundIsGood(sizes, rank, sys, who, caught);
  }

  lemma NewBatchRanked(sizes: nat -> nat, rank: nat -> nat, batches: seq<BatchCall>, a: Activity)
    requires a.code != [] && a.code[0].Invoke? && WellFormed(sizes, rank, a.code[0].call)
    ensures RankedBatch(sizes, rank, batches, NewBatch(a))
  {
    var c := a.code[0].call;
    InvokesAreCallsOf(c, c.conversion);
    FreshCodeDisciplined(sizes, rank, c, NewBatch(a).source);
  }

  lemma CodeMoveKeepsRanked(sizes: nat -> nat, rank: nat -> nat, sys: Sys, m: Move)
    requires Balanced(sys) && Ranked(sizes, rank, sys) && CanMove(sizes, sys, m) && !m.BatchStep?
    ensures Ranked(sizes, rank, MoveTo(sizes, sys, m))
  {
    var more := sys.(batches := Batches(sizes, sys, m));
    RankedKept(sizes, rank, sys.batches, more.batches);
    if m.CallParallel? {
      GetIsGood(sizes, rank, sys, m.who);
      NewBatchRanked(sizes, rank, more.batches, Get(sys, m.who));
    }
    NewCodeIsGood(sizes, rank, sys, m);
    SetKeepsRanked(sizes, rank, more, m.who, NewCode(sizes, sys, m));
  }

  lemma CodeMoveKeepsQueue(sizes: nat -> nat, sys: Sys, m: Move)
    requires QueueOk(sys) && CanMove(sizes, sys, m) && !m.BatchStep?
    ensures QueueOk(MoveTo(sizes, sys, m))
  {
    var more := sys.(batches := Batches(sizes, sys, m));
    SetKeepsQueue(more, m.who, NewCode(sizes, sys, m));
  }

  lemma SetKeepsQueue(sys: Sys, who: Who, a: Activity)
    requires QueueOk(sys) && Active(sys, who)
    ensures QueueOk(Set(sys, who, a))
  {
  }

  lemma StepRanked(sizes: nat -> nat, rank: nat -> nat, batches: seq<BatchCall>, b: BatchCall, l: Label)
    requires RankedBatch(sizes, rank, batches, b) && Enabled(b.Cfg(), b.state, l) && |b.tasks| == |b.state.jobs|
    requires l.BeginPull? ==> b.source.Done()
    ensures RankedBatch(sizes, rank, batches, StepBatch(b, l))
  {
    var t := StepBatch(b, l);
    if l.BeginPull? {
      PullAndTaskCode(b.call, b.state.accepted);
      FreshCodeDisciplined(sizes, rank, b.call, t.source);
    } else if l.Receive? {
      PullAndTaskCode(b.call, b.state.chan[0]);
      FreshCodeDisciplined(sizes, rank, b.call, t.tasks[l.job]);
    }
  }

  lemma SpawnQueueOk(sizes: nat -> nat, sys: Sys, b: nat)
    requires QueueOk(sys) && CanMove(sizes, sys, BatchStep(b, SpawnJob))
    ensures QueueOk(MoveTo(sizes, sys, BatchStep(b, SpawnJob)))
  {
    var t := MoveTo(sizes, sys, BatchStep(b, SpawnJob));
    var ticket := Ticket(sys.batches[b].Pool(), b, |sys.batches[b].state.jobs|);
    assert t.queue == sys.queue + [ticket];
    assert ticket !in sys.queue;
  }

  lemma RemovedMembers(queue: seq<Ticket>, k: nat)
    requires k < |queue| && NoDuplicates(queue)
    ensures NoDuplicates(RemoveAt(queue, k))
    ensures forall t :: t in RemoveAt(queue, k) <==> t in queue && t != queue[k]
  {
    var after := RemoveAt(queue, k);
    forall t ensures t in after <==> t in queue && t != queue[k] {
      if t in after {
        var j :| 0 <= j < |after| && after[j] == t;
        assert t == queue[if j < k then j else j + 1];
      }
      if t in queue && t != queue[k] {
        var j :| 0 <= j < |queue| && queue[j] == t;
        assert after[if j < k then j else j - 1] == t;
      }
    }
  }

  lemma StartQueueOk(sizes: nat -> nat, sys: Sys, b: nat, w: nat)
    requires QueueOk(sys) && CanMove(sizes, sys, BatchStep(b, StartJob(w)))
    ensures QueueOk(MoveTo(sizes, sys, BatchStep(b, StartJob(w))))
  {
    var t := MoveTo(sizes, sys, BatchStep(b, StartJob(w)));
    var ticket := Ticket(sys.batches[b].Pool(), b, w);
    var k: nat :| Oldest(sys.queue, k) && sys.queue[k] == ticket && t.queue == RemoveAt(sys.queue, k);
    RemovedMembers(sys.queue, k);
    StartedQueueOk(sys, t, b, w);
  }

  lemma StartedQueueOk(sys: Sys, t: Sys, b: nat, w: nat)
    requires QueueOk(sys) && b < |sys.batches| && w < |sys.batches[b].state.jobs|
    requires |t.batches| == |sys.batches|
    requires forall c :: 0 <= c < |t.batches| ==> t.batches[c].call == sys.batches[c].call
    requires forall c :: 0 <= c < |t.batches| && c != b ==> t.batches[c] == sys.batches[c]
    requires t.batches[b].state.jobs == sys.batches[b].state.jobs[w := Idle]
    requires NoDuplicates(t.queue)
    requires forall ticket ::
      ticket in t.queue <==> ticket in sys.queue && ticket != Ticket(sys.batches[b].Pool(), b, w)
    ensures QueueOk(t)
  {
  }

  lemma OtherQueueOk(sizes: nat -> nat, sys: Sys, b: nat, l: Label)
    requires QueueOk(sys) && CanMove(sizes, sys, BatchStep(b, l)) && !l.SpawnJob? && !l.StartJob?
    ensures QueueOk(MoveTo(sizes, sys, BatchStep(b, l)))
  {
    var t := MoveTo(sizes, sys, BatchStep(b, l));
    var before, after := sys.batches[b].state.jobs, t.batches[b].state.jobs;
    assert |after| == |before| && forall w :: 0 <= w < |after| ==> (after[w].Queued? <==> before[w].Queued?);
  }

  lemma StepQueueOk(sizes: nat -> nat, sys: Sys, b: nat, l: Label)
    requires QueueOk(sys) && CanMove(sizes, sys, BatchStep(b, l))
    ensures QueueOk(MoveTo(sizes, sys, BatchStep(b, l)))
  {
    match l
    case SpawnJob => SpawnQueueOk(sizes, sys, b);
    case StartJob(w) => StartQueueOk(sizes, sys, b, w);
    case _ => OtherQueueOk(sizes, sys, b, l);
  }

  lemma BatchStepKeepsRanked(sizes: nat -> nat, rank: nat -> nat, sys: Sys, b: nat, l: Label)
    requires Balanced(sys) && Ranked(sizes, rank, sys) && CanMove(sizes, sys, BatchStep(b, l))
    ensures Ranked(sizes, rank, MoveTo(sizes, sys, BatchStep(b, l)))
  {
    var after := sys.batches[b := StepBatch(sys.batches[b], l)];
    assert BatchBalanced(sys.batches, sys.batches[b]);
    StepRanked(sizes, rank, sys.batches, sys.batches[b], l);
    RankedKept(sizes, rank, sys.batches, after);
    assert MoveTo(sizes, sys, BatchStep(b, l)).batches == after;
  }

  lemma MoveKeepsInv(sizes: nat -> nat, rank: nat -> nat, sys: Sys, m: Move)
    requires SysInv(sizes, rank, sys) && CanMove(sizes, sys, m)
    ensures SysInv(sizes, rank, MoveTo(sizes, sys, m))
  {
    MoveKeepsSound(sizes, sys, m);
    match m
    case BatchStep(b, l) =>
      BatchStepKeepsRanked(sizes, rank, sys, b, l);
      StepQueueOk(sizes, sys, b, l);
    case _ =>
      CodeMoveKeepsRanked(sizes, rank, sys, m);
      CodeMoveKeepsQueue(sizes, sys, m);
  }

  // ----- the order in which loops start -----

  /** The waiting jobs of each batch are in the order in which they were spawned. */
  ghost predicate InSpawnOrder(queue: seq<Ticket>) {
    forall j, k :: 0 <= j < k < |queue| && queue[j].batch == queue[k].batch ==> queue[j].job < queue[k].job
  }

  lemma RemovedInOrder(queue: seq<Ticket>, k: nat)
    requires k < |queue| && InSpawnOrder(queue)
    ensures InSpawnOrder(RemoveAt(queue, k))
  {
  }

  lemma BatchStepKeepsOrder(sizes: nat -> nat, sys: Sys, b: nat, l: Label)
    requires QueueOk(sys) && InSpawnOrder(sys.queue) && CanMove(sizes, sys, BatchStep(b, l))
    ensures InSpawnOrder(MoveTo(sizes, sys, BatchStep(b, l)).queue)
  {
    if l.SpawnJob? {
      assert forall t <- sys.queue :: t.batch == b ==> t.job < |sys.batches[b].state.jobs|;
    } else if l.StartJob? {
      var ticket := Ticket(sys.batches[b].Pool(), b, l.job);
      var after := MoveTo(sizes, sys, BatchStep(b, l)).queue;
      var k: nat :| Oldest(sys.queue, k) && sys.queue[k] == ticket && after == RemoveAt(sys.queue, k);
      RemovedInOrder(sys.queue, k);
    }
  }

  lemma MoveKeepsQueue(sizes: nat -> nat, sys: Sys, m: Move)
    requires QueueOk(sys) && InSpawnOrder(sys.queue) && CanMove(sizes, sys, m)
    ensures QueueOk(MoveTo(sizes, sys, m)) && InSpawnOrder(MoveTo(sizes, sys, m).queue)
  {
    match m
    case BatchStep(b, l) =>
      StepQueueOk(sizes, sys, b, l);
      BatchStepKeepsOrder(sizes, sys, b, l);
    case _ =>
      CodeMoveKeepsQueue(sizes, sys, m);
      assert MoveTo(sizes, sys, m).queue == sys.queue;
  }

  lemma {:induction false} RunKeepsQueue(sizes: nat -> nat, start: Sys, moves: seq<Move>)
    requires AtStart(start) && SysRun(sizes, start, moves)
    ensures QueueOk(SysAfter(sizes, start, moves)) && InSpawnOrder(SysAfter(sizes, start, moves).queue)
  {
    if moves != [] {
      var n := |moves| - 1;
      var before := SysRunInit(sizes, start, moves);
      RunKeepsQueue(sizes, start, moves[..n]);
      MoveKeepsQueue(sizes, before, moves[n]);
    }
  }

  /** In every reachable state a loop starts only after all loops of its batch that were spawned before it. */
  lemma LoopsStartInOrder(sizes: nat -> nat, start: Sys, moves: seq<Move>, b: nat, w: nat)
    requires AtStart(start) && SysRun(sizes, start, moves)
    requires CanMove(sizes, SysAfter(sizes, start, moves), BatchStep(b, StartJob(w)))
    ensures forall v :: 0 <= v < w ==> !SysAfter(sizes, start, moves).batches[b].state.jobs[v].Queued?
  {
    RunKeepsQueue(sizes, start, moves);
    var sys := SysAfter(sizes, start, moves);
    var pool := sys.batches[b].Pool();
    var k: nat :| Oldest(sys.queue, k) && sys.queue[k] == Ticket(pool, b, w);
    var jobs := sys.batches[b].state.jobs;
    forall v: nat | v < |jobs| && jobs[v].Queued? ensures w <= v {
      OldestIsFirst(sys.queue, k, Ticket(pool, b, v));
    }
  }

  lemma OldestIsFirst(queue: seq<Ticket>, k: nat, ticket: Ticket)
    requires InSpawnOrder(queue) && Oldest(queue, k) && ticket in queue
    requires ticket.pool == queue[k].pool && ticket.batch == queue[k].batch
    ensures queue[k].job <= ticket.job
  {
    var j :| 0 <= j < |queue| && queue[j] == ticket;
  }
}
