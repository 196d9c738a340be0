/**
 No reachable state of the whole system is stuck when calls climb the ranks, and every run ends with every batch
 joined and every thread returned.
 */
module SystemProgress {
  import opened Basics
  import opened Protocol
  import opened Guarantees
  import opened Routing
  import opened PoolSystem
  import opened SystemRegistries
  import opened SystemRuns
  import opened SystemRanks

  // ----- no reachable state is stuck -----

  /** Nothing is left to do: every external thread has returned and every batch has joined. */
  ghost predicate AllReturned(sys: Sys) {
    && (forall k :: 0 <= k < |sys.threads| ==> sys.threads[k].Done())
    && (forall b :: 0 <= b < |sys.batches| ==> sys.batches[b].state.joined)
  }

  ghost predicate Unjoined(sys: Sys, b: nat) {
    b < |sys.batches| && !sys.batches[b].state.joined
  }

  ghost predicate CanProgress(sizes: nat -> nat, sys: Sys) {
    exists m :: CanMove(sizes, sys, m) && !(m.BatchStep? && m.step.StopAdmission?)
  }

  /** User code that is not done moves, unless it waits for a batch that has not joined. */
  lemma CodeMoves(sizes: nat -> nat, sys: Sys, who: Who)
    requires Active(sys, who) && !Get(sys, who).Done()
    requires Get(sys, who).child.Some? ==> ChildJoined(sys, who)
    ensures CanProgress(sizes, sys)
  {
    var a := Get(sys, who);
    if a.child.Some? {
      assert CanMove(sizes, sys, if Reraises(sys.batches[a.child.value]) then Unwind(who, 0) else Resume(who));
    } else if a.code[0].Raise? {
      assert CanMove(sizes, sys, Unwind(who, 1));
    } else if a.code[0].Leave? {
      assert CanMove(sizes, sys, LeaveGuard(who));
    } else if AtSequentialCall(sys, who) {
      assert CanMove(sizes, sys, CallInline(who));
    } else {
      assert CanMove(sizes, sys, CallParallel(who));
    }
  }

  lemma {:induction false} HighestUnjoined(rank: nat -> nat, sys: Sys, n: nat) returns (top: nat)
    requires n <= |sys.batches| && exists b: nat :: b < n && Unjoined(sys, b)
    ensures top < n && Unjoined(sys, top)
    ensures forall b: nat :: b < n && Unjoined(sys, b) ==> rank(sys.batches[b].Pool()) <= rank(sys.batches[top].Pool())
  {
    if exists b: nat :: b < n - 1 && Unjoined(sys, b) {
      top := HighestUnjoined(rank, sys, n - 1);
      if Unjoined(sys, n - 1) && rank(sys.batches[n - 1].Pool()) > rank(sys.batches[top].Pool()) {
        top := n - 1;
      }
    } else {
      top := n - 1;
    }
  }

  /** `pool` has the highest rank among the pools with unjoined batches. */
  ghost predicate Highest(rank: nat -> nat, sys: Sys, pool: nat) {
    forall b: nat :: Unjoined(sys, b) ==> rank(sys.batches[b].Pool()) <= rank(pool)
  }

  /** Code of a batch of the highest pool waits for nothing but joined batches. */
  lemma HighestCodeMoves(sizes: nat -> nat, rank: nat -> nat, sys: Sys, who: Who)
    requires SysInv(sizes, rank, sys) && !who.Thread? && Active(sys, who) && !Get(sys, who).Done()
    requires Highest(rank, sys, sys.batches[who.batch].Pool())
    ensures CanProgress(sizes, sys)
  {
    GetIsGood(sizes, rank, sys, who);
    GetLends(sys, who);
    CodeMoves(sizes, sys, who);
  }

  /** A producer of the highest pool that is not blocked by a full channel moves. */
  lemma ProducerMoves(sizes: nat -> nat, rank: nat -> nat, sys: Sys, b: nat)
    requires SysInv(sizes, rank, sys) && Unjoined(sys, b) && Highest(rank, sys, sys.batches[b].Pool())
    requires
      var s := sys.batches[b].state;
      !s.producer.Over() && (s.producer.Holding? ==> |s.chan| < sys.batches[b].Cfg().workers || !ReceiversAlive(s))
    ensures CanProgress(sizes, sys)
  {
    var batch := sys.batches[b];
    if RunsCode(batch.state.producer) && !batch.source.Done() {
      HighestCodeMoves(sizes, rank, sys, SourceOf(b));
    } else {
      assert CanMove(sizes, sys, BatchStep(b, ProducerStep(batch.Cfg(), batch.Src(), batch.state)));
    }
  }

  /** A started job of the highest pool moves, or the producer it waits for does. */
  lemma StartedJobMoves(sizes: nat -> nat, rank: nat -> nat, sys: Sys, b: nat, w: nat)
    requires SysInv(sizes, rank, sys) && b < |sys.batches| && Highest(rank, sys, sys.batches[b].Pool())
    requires w < |sys.batches[b].state.jobs| && StartedOne(sys.batches[b].state.jobs[w]) == 1
    ensures CanProgress(sizes, sys)
  {
    var batch := sys.batches[b];
    var s := batch.state;
    assert Unjoined(sys, b);
    if s.jobs[w].Running? && !batch.tasks[w].Done() {
      HighestCodeMoves(sizes, rank, sys, TaskOf(b, w));
    } else if s.jobs[w].Running? || s.chan != [] || !SenderAlive(s) {
      assert CanMove(sizes, sys, BatchStep(b, LoopStep(batch.Cfg(), batch.Src(), s, w)));
    } else {
      ProducerMoves(sizes, rank, sys, b);
    }
  }

  /** Some job is started on the pool, or none of its threads is occupied. */
  lemma IdlePool(sys: Sys, pool: nat)
    ensures
      || Busy(sys, pool) == 0
      || exists b, w :: 0 <= b < |sys.batches| && sys.batches[b].Pool() == pool
           && 0 <= w < |sys.batches[b].state.jobs| && StartedOne(sys.batches[b].state.jobs[w]) == 1
  {
    var f := (b: BatchCall) => StartedOn(pool, b);
    SumZero(f, sys.batches);
    if Busy(sys, pool) != 0 {
      var b :| 0 <= b < |sys.batches| && f(sys.batches[b]) != 0;
      SumZero(StartedOne, sys.batches[b].state.jobs);
    }
  }

  lemma {:induction false} OldestOf(queue: seq<Ticket>, pool: nat, j: nat) returns (k: nat)
    requires j < |queue| && queue[j].pool == pool
    ensures Oldest(queue, k) && queue[k].pool == pool
    decreases j
  {
    if i: nat :| i < j && queue[i].pool == pool {
      k := OldestOf(queue, pool, i);
    } else {
      k := j;
    }
  }

  /** With no started job on a pool, its oldest waiting job starts. */
  lemma WaitingJobStarts(sizes: nat -> nat, rank: nat -> nat, sys: Sys, b: nat, w: nat)
    requires SysInv(sizes, rank, sys) && b < |sys.batches| && Busy(sys, sys.batches[b].Pool()) == 0
    requires w < |sys.batches[b].state.jobs| && sys.batches[b].state.jobs[w].Queued?
    ensures CanProgress(sizes, sys)
  {
    var pool := sys.batches[b].Pool();
    assert Ticket(pool, b, w) in sys.queue;
    var j :| 0 <= j < |sys.queue| && sys.queue[j] == Ticket(pool, b, w);
    var k := OldestOf(sys.queue, pool, j);
    OldestStarts(sizes, rank, sys, k);
  }

  lemma OldestStarts(sizes: nat -> nat, rank: nat -> nat, sys: Sys, k: nat)
    requires SysInv(sizes, rank, sys) && Oldest(sys.queue, k) && Busy(sys, sys.queue[k].pool) == 0
    ensures CanProgress(sizes, sys)
  {
    var t := sys.queue[k];
    assert t in sys.queue;
    assert SoundBatch(sys.batches[t.batch]);
    assert Enabled(sys.batches[t.batch].Cfg(), sys.batches[t.batch].state, StartJob(t.job));
    assert CanMove(sizes, sys, BatchStep(t.batch, StartJob(t.job)));
  }

  /** With no started and no waiting job, the batch itself moves. */
  lemma IdlePoolMoves(sizes: nat -> nat, rank: nat -> nat, sys: Sys, b: nat)
    requires SysInv(sizes, rank, sys) && Unjoined(sys, b) && Highest(rank, sys, sys.batches[b].Pool())
    requires Busy(sys, sys.batches[b].Pool()) == 0
    requires forall w :: 0 <= w < |sys.batches[b].state.jobs| ==> StartedOne(sys.batches[b].state.jobs[w]) == 0
    ensures CanProgress(sizes, sys)
  {
    var s := sys.batches[b].state;
    if w :| 0 <= w < |s.jobs| && s.jobs[w].Queued? {
      WaitingJobStarts(sizes, rank, sys, b, w);
    } else if s.producer.Over() {
      JoinMoves(sizes, sys, b);
    } else {
      ProducerMoves(sizes, rank, sys, b);
    }
  }

  lemma JoinMoves(sizes: nat -> nat, sys: Sys, b: nat)
    requires Sound(sys) && Unjoined(sys, b) && sys.batches[b].state.producer.Over()
    requires forall w :: 0 <= w < |sys.batches[b].state.jobs| ==> sys.batches[b].state.jobs[w].Over()
    ensures CanProgress(sizes, sys)
  {
    assert SoundBatch(sys.batches[b]);
    assert CanMove(sizes, sys, BatchStep(b, Join));
  }

  lemma UnjoinedBatchMoves(sizes: nat -> nat, rank: nat -> nat, sys: Sys, top: nat)
    requires SysInv(sizes, rank, sys) && Unjoined(sys, top) && Highest(rank, sys, sys.batches[top].Pool())
    ensures CanProgress(sizes, sys)
  {
    var pool := sys.batches[top].Pool();
    IdlePool(sys, pool);
    if Busy(sys, pool) == 0 {
      NoneStarted(sys, top);
      IdlePoolMoves(sizes, rank, sys, top);
    } else {
      var b, w :|
        0 <= b < |sys.batches| && sys.batches[b].Pool() == pool
        && 0 <= w < |sys.batches[b].state.jobs| && StartedOne(sys.batches[b].state.jobs[w]) == 1;
      StartedJobMoves(sizes, rank, sys, b, w);
    }
  }

  lemma NoneStarted(sys: Sys, b: nat)
    requires b < |sys.batches| && Busy(sys, sys.batches[b].Pool()) == 0
    ensures forall w :: 0 <= w < |sys.batches[b].state.jobs| ==> StartedOne(sys.batches[b].state.jobs[w]) == 0
  {
    var pool := sys.batches[b].Pool();
    var f := (c: BatchCall) => StartedOn(pool, c);
    SumContains(f, sys.batches, b);
    SumZero(StartedOne, sys.batches[b].state.jobs);
  }

  lemma ThreadMoves(sizes: nat -> nat, rank: nat -> nat, sys: Sys, k: nat)
    requires SysInv(sizes, rank, sys) && k < |sys.threads| && !sys.threads[k].Done()
    requires forall b: nat :: !Unjoined(sys, b)
    ensures CanProgress(sizes, sys)
  {
    GetLends(sys, Thread(k));
    var a := sys.threads[k];
    if a.child.Some? {
      assert !Unjoined(sys, a.child.value);
    }
    CodeMoves(sizes, sys, Thread(k));
  }

  /**
   Progress: while any batch is unjoined or any external thread has not returned, some move other than a
   reporter failure is possible. The batches of the highest-ranked pool never wait for a lower one.
   */
  lemma SystemProgresses(sizes: nat -> nat, rank: nat -> nat, sys: Sys)
    requires SysInv(sizes, rank, sys) && !AllReturned(sys)
    ensures CanProgress(sizes, sys)
  {
    if b: nat :| Unjoined(sys, b) {
      var top := HighestUnjoined(rank, sys, |sys.batches|);
      UnjoinedBatchMoves(sizes, rank, sys, top);
    } else {
      forall b: nat | b < |sys.batches| ensures sys.batches[b].state.joined {
        assert !Unjoined(sys, b);
      }
      var k: nat :| k < |sys.threads| && !sys.threads[k].Done();
      ThreadMoves(sizes, rank, sys, k);
    }
  }

  // ----- every run finishes -----

  /** External threads whose calls climb the ranks, and nothing started yet. */
  ghost predicate Starting(sizes: nat -> nat, rank: nat -> nat, start: Sys) {
    AtStart(start) && forall k :: 0 <= k < |start.threads| ==> Unconstrained(sizes, rank, start.threads[k])
  }

  lemma {:induction false} WellFormedIsValid(sizes: nat -> nat, rank: nat -> nat, c: Call)
    requires WellFormed(sizes, rank, c)
    ensures ValidCall(c)
    decreases c
  {
    forall d | d in c.conversion ensures ValidCall(d) {
      WellFormedIsValid(sizes, rank, d);
    }
    forall i, d | i in c.items && (d in i.pull || d in i.task) ensures ValidCall(d) {
      WellFormedIsValid(sizes, rank, d);
    }
  }

  lemma UnconstrainedIsValid(sizes: nat -> nat, rank: nat -> nat, a: Activity)
    requires Unconstrained(sizes, rank, a)
    ensures CodeValid(a.code)
  {
    forall i | i in a.code && i.Invoke? ensures ValidCall(i.call) {
      WellFormedIsValid(sizes, rank, i.call);
    }
  }

  lemma {:induction false} SystemRunInv(sizes: nat -> nat, rank: nat -> nat, start: Sys, moves: seq<Move>)
    requires Starting(sizes, rank, start) && SysRun(sizes, start, moves)
    ensures SysInv(sizes, rank, SysAfter(sizes, start, moves))
    ensures |moves| + SysSize(SysAfter(sizes, start, moves)) <= SysSize(start)
  {
    forall k | 0 <= k < |start.threads| ensures CodeValid(start.threads[k].code) {
      UnconstrainedIsValid(sizes, rank, start.threads[k]);
    }
    RunsAreBounded(sizes, start, moves);
    if moves != [] {
      var n := |moves| - 1;
      var before := SysRunInit(sizes, start, moves);
      SystemRunInv(sizes, rank, start, moves[..n]);
      MoveKeepsInv(sizes, rank, before, moves[n]);
    }
  }

  /**
   Cross-pool progress and termination: when calls climb the ranks, every run of the whole system is bounded
   by the size of the program, and a run that cannot be continued has finished everything.
   */
  lemma EveryRunFinishes(sizes: nat -> nat, rank: nat -> nat, start: Sys, moves: seq<Move>)
    requires Starting(sizes, rank, start) && SysRun(sizes, start, moves)
    ensures |moves| <= SysSize(start)
    ensures
      var sys := SysAfter(sizes, start, moves);
      && (AllReturned(sys) <==> forall m :: !CanMove(sizes, sys, m))
      && (!AllReturned(sys) ==> CanProgress(sizes, sys))
  {
    SystemRunInv(sizes, rank, start, moves);
    var sys := SysAfter(sizes, start, moves);
    if AllReturned(sys) {
      ReturnedStays(sizes, rank, sys);
    } else {
      SystemProgresses(sizes, rank, sys);
    }
  }

  lemma ReturnedStays(sizes: nat -> nat, rank: nat -> nat, sys: Sys)
    requires SysInv(sizes, rank, sys) && AllReturned(sys)
    ensures forall m :: !CanMove(sizes, sys, m)
  {
    forall who: Who ensures Active(sys, who) ==> Get(sys, who).Done() {
      if !who.Thread? && who.batch < |sys.batches| {
        assert BatchBalanced(sys.batches, sys.batches[who.batch]) && SoundBatch(sys.batches[who.batch]);
      }
    }
  }

  /** All calls in the tree of `c` are for clones on the pool of `c`. */
  ghost predicate StaysInPool(sizes: nat -> nat, c: Call)
    decreases c
  {
    && c.executor.Valid() && c.executor.poolThreads == sizes(c.executor.pool)
    && (forall d <- c.conversion :: d.executor.pool == c.executor.pool && StaysInPool(sizes, d))
    && (forall i <- c.items ::
          && (forall d <- i.pull :: d.executor.pool == c.executor.pool && StaysInPool(sizes, d))
          && (forall d <- i.task :: d.executor.pool == c.executor.pool && StaysInPool(sizes, d)))
  }

  lemma {:induction false} StayingIsWellFormed(sizes: nat -> nat, rank: nat -> nat, c: Call)
    requires StaysInPool(sizes, c)
    ensures WellFormed(sizes, rank, c)
    decreases c
  {
    forall d | d in c.conversion ensures Climbs(rank, c, d) && WellFormed(sizes, rank, d) {
      StayingIsWellFormed(sizes, rank, d);
    }
    forall i, d | i in c.items && (d in i.pull || d in i.task)
      ensures Climbs(rank, c, d) && WellFormed(sizes, rank, d)
    {
      StayingIsWellFormed(sizes, rank, d);
    }
  }

  /**
   Shared-pool progress: any number of threads calling clones of executors, of one pool or of many, with user
   code that calls only clones on its own pool, at any depth, finish in every interleaving, whatever the pool sizes.
   */
  lemma SharedPoolFinishes(sizes: nat -> nat, start: Sys, moves: seq<Move>)
    requires AtStart(start) && SysRun(sizes, start, moves)
    requires forall k :: 0 <= k < |start.threads| ==>
      forall i <- start.threads[k].code :: i.Invoke? ==> StaysInPool(sizes, i.call)
    ensures |moves| <= SysSize(start)
    ensures
      var sys := SysAfter(sizes, start, moves);
      && (AllReturned(sys) <==> forall m :: !CanMove(sizes, sys, m))
      && (!AllReturned(sys) ==> CanProgress(sizes, sys))
  {
    var rank := (pool: nat) => 0;
    forall k, i | 0 <= k < |start.threads| && 0 <= i < |start.threads[k].code| && start.threads[k].code[i].Invoke?
      ensures WellFormed(sizes, rank, start.threads[k].code[i].call)
    {
      StayingIsWellFormed(sizes, rank, start.threads[k].code[i].call);
    }
    EveryRunFinishes(sizes, rank, start, moves);
  }
}
