/**
 The registered pools of every thread in a run of the whole system: whatever is called, whatever unwinds and
 wherever that is caught, each thread ends with exactly the registry it began with.
 */
module SystemRegistries {
  import opened Basics
  import opened Protocol
  import opened Guard
  import opened Routing
  import opened PoolSystem

  /** The registry once the guards that are left in the code have been dropped. */
  ghost function Settled(active: seq<nat>, code: seq<Instr>): seq<nat>
    decreases code
  {
    if code == [] then active
    else Settled(if code[0].Leave? then Dropped(active, code[0].pool) else active, code[1..])
  }

  /** The view of the code that follows an instruction, apart from what calls do to it. */
  ghost function Passed(ctx: Context, i: Instr): Context {
    if i.Leave? then ctx.(active := Dropped(ctx.active, i.pool)) else ctx
  }

  ghost predicate SettlesTo(a: Activity, pools: seq<nat>) {
    Settled(a.ctx.active, a.code) == pools
  }

  lemma {:induction false} SettledConcat(active: seq<nat>, a: seq<Instr>, b: seq<Instr>)
    ensures Settled(active, a + b) == Settled(Settled(active, a), b)
    decreases a
  {
    if a == [] {
      assert a + b == b;
    } else {
      assert (a + b)[1..] == a[1..] + b;
      SettledConcat(if a[0].Leave? then Dropped(active, a[0].pool) else active, a[1..], b);
    }
  }

  lemma {:induction false} SettledNothing(active: seq<nat>, code: seq<Instr>)
    requires NoLeave(code)
    ensures Settled(active, code) == active
  {
    if code != [] {
      SettledNothing(active, code[1..]);
    }
  }

  /** Unwinding drops the guards that the discarded code would have dropped. */
  lemma {:induction false} SettledGuards(active: seq<nat>, code: seq<Instr>)
    ensures Settled(active, Guards(code)) == Settled(active, code)
  {
    if code != [] {
      var n := |code| - 1;
      assert code == code[..n] + [code[n]];
      SettledConcat(active, code[..n], [code[n]]);
      SettledGuards(active, code[..n]);
      if code[n].Leave? {
        SettledConcat(active, Guards(code[..n]), [code[n]]);
      } else {
        assert Guards(code[..n]) + [] == Guards(code[..n]);
      }
    }
  }

  lemma CaughtSettles(a: Activity, caught: nat, pools: seq<nat>)
    requires SettlesTo(a, pools) && caught <= |a.code|
    ensures SettlesTo(Caught(a, caught), pools)
  {
    assert a.code == a.code[..caught] + a.code[caught..];
    SettledConcat(a.ctx.active, a.code[..caught], a.code[caught..]);
    SettledConcat(a.ctx.active, Guards(a.code[..caught]), a.code[caught..]);
    SettledGuards(a.ctx.active, a.code[..caught]);
  }

  /** A call drops the guard that it took, if it took one. */
  lemma GuardedSettles(a: Activity, body: seq<Instr>, child: Option<nat>, pools: seq<nat>)
    requires SettlesTo(a, pools) && a.code != [] && a.code[0].Invoke? && NoLeave(body)
    ensures SettlesTo(Guarded(a, body, child), pools)
  {
    var pool := a.code[0].call.executor.pool;
    var inside := Entered(a.ctx.active, pool);
    var guard := if pool in a.ctx.active then [] else [Leave(pool)];
    SettledNothing(inside, body);
    SettledConcat(inside, body + guard, a.code[1..]);
    SettledConcat(inside, body, guard);
    DropUndoesEnter(a.ctx.active, pool);
  }

  // ----- every move keeps it -----

  /** Code that waits for a batch has lent its registry to the batch's source. */
  ghost predicate Lends(batches: seq<BatchCall>, a: Activity) {
    a.child.Some? ==> a.child.value < |batches| && batches[a.child.value].registered == a.ctx.active
  }

  /**
   The source settles to the registry that was lent to it, in which the batch's pool is registered; the code on
   pool threads settles to nothing. The source's code is over before the producer leaves the phase that runs it.
   */
  ghost predicate BatchBalanced(batches: seq<BatchCall>, b: BatchCall) {
    && b.Pool() in b.registered
    && SettlesTo(b.source, b.registered) && Lends(batches, b.source)
    && (!RunsCode(b.state.producer) ==> b.source.Done())
    && (b.state.joined ==> b.state.producer.Over())
    && (forall w :: 0 <= w < |b.tasks| ==> SettlesTo(b.tasks[w], []) && Lends(batches, b.tasks[w]))
  }

  ghost predicate Balanced(sys: Sys) {
    && (forall k :: 0 <= k < |sys.threads| ==> Lends(sys.batches, sys.threads[k]))
    && (forall b :: 0 <= b < |sys.batches| ==> BatchBalanced(sys.batches, sys.batches[b]))
  }

  /** Each external thread settles to the registry that it began with. */
  ghost predicate ThreadsSettle(start: Sys, sys: Sys) {
    && |sys.threads| == |start.threads|
    && forall k :: 0 <= k < |sys.threads| ==> SettlesTo(sys.threads[k], start.threads[k].ctx.active)
  }

  lemma BalanceKept(before: seq<BatchCall>, after: seq<BatchCall>)
    requires SameCalls(before, after)
    ensures forall a :: Lends(before, a) ==> Lends(after, a)
    ensures forall b :: BatchBalanced(before, b) ==> BatchBalanced(after, b)
  {
  }

  lemma GetLends(sys: Sys, who: Who)
    requires Balanced(sys) && Active(sys, who)
    ensures Lends(sys.batches, Get(sys, who))
  {
    if !who.Thread? {
      assert BatchBalanced(sys.batches, sys.batches[who.batch]);
    }
  }

  /** What comes back from a joined batch is the registry that was lent. */
  lemma HandedBackSame(sys: Sys, who: Who)
    requires Balanced(sys) && Active(sys, who) && (Get(sys, who).child.Some? ==> ChildJoined(sys, who))
    ensures
      var a := Get(sys, who);
      HandedBack(sys, a) == a.(child := None)
  {
    GetLends(sys, who);
    var a := Get(sys, who);
    if a.child.Some? {
      assert BatchBalanced(sys.batches, sys.batches[a.child.value]);
    }
  }

  /** Wherever the code was to settle, it still is after a move. */
  lemma NewCodeSettles(sizes: nat -> nat, sys: Sys, m: Move, pools: seq<nat>)
    requires Balanced(sys) && CanMove(sizes, sys, m) && !m.BatchStep? && SettlesTo(Get(sys, m.who), pools)
    ensures SettlesTo(NewCode(sizes, sys, m), pools)
  {
    var a := Get(sys, m.who);
    match m
    case CallInline(_) =>
      InlineIsCallsOf(a.code[0].call);
      GuardedSettles(a, InlineCode(a.code[0].call), None, pools);
    case CallParallel(_) => GuardedSettles(a, [], Some(|sys.batches|), pools);
    case LeaveGuard(_) =>
    case Resume(who) => HandedBackSame(sys, who);
    case Unwind(who, caught) =>
      HandedBackSame(sys, who);
      CaughtSettles(a.(child := None), caught, pools);
  }

  lemma NewCodeLends(sizes: nat -> nat, sys: Sys, m: Move)
    requires CanMove(sizes, sys, m) && !m.BatchStep?
    ensures Lends(Batches(sizes, sys, m), NewCode(sizes, sys, m))
  {
  }

  lemma NewBatchBalanced(batches: seq<BatchCall>, a: Activity)
    requires a.code != [] && a.code[0].Invoke?
    ensures BatchBalanced(batches, NewBatch(a))
  {
    var b := NewBatch(a);
    SettledNothing(b.registered, b.source.code);
  }

  lemma BatchesBalanced(sizes: nat -> nat, sys: Sys, m: Move)
    requires Balanced(sys) && CanMove(sizes, sys, m) && !m.BatchStep?
    ensures Balanced(sys.(batches := Batches(sizes, sys, m))) && SameCalls(sys.batches, Batches(sizes, sys, m))
  {
    BalanceKept(sys.batches, Batches(sizes, sys, m));
    if m.CallParallel? {
      NewBatchBalanced(Batches(sizes, sys, m), Get(sys, m.who));
    }
  }

  lemma SetKeepsBalance(sys: Sys, who: Who, a: Activity)
    requires Balanced(sys) && Active(sys, who) && Lends(sys.batches, a)
    requires forall pools :: SettlesTo(Get(sys, who), pools) ==> SettlesTo(a, pools)
    ensures Balanced(Set(sys, who, a))
  {
    SetKeepsCalls(sys, who, a);
    BalanceKept(sys.batches, Set(sys, who, a).batches);
    if !who.Thread? {
      assert BatchBalanced(sys.batches, sys.batches[who.batch]);
      assert BatchBalanced(sys.batches, Set(sys, who, a).batches[who.batch]);
    }
  }

  lemma CodeMoveKeepsBalance(sizes: nat -> nat, sys: Sys, m: Move)
    requires Balanced(sys) && CanMove(sizes, sys, m) && !m.BatchStep?
    ensures Balanced(MoveTo(sizes, sys, m))
  {
    var more := sys.(batches := Batches(sizes, sys, m));
    BatchesBalanced(sizes, sys, m);
    NewCodeLends(sizes, sys, m);
    forall pools | SettlesTo(Get(more, m.who), pools) ensures SettlesTo(NewCode(sizes, sys, m), pools) {
      NewCodeSettles(sizes, sys, m, pools);
    }
    SetKeepsBalance(more, m.who, NewCode(sizes, sys, m));
  }

  /** The producer's code is over when a step takes it out of the phases that run code. */
  lemma PermittedCode(sizes: nat -> nat, sys: Sys, b: nat, l: Label)
    requires CanMove(sizes, sys, BatchStep(b, l))
    ensures
      var batch := sys.batches[b];
      && (RunsCode(batch.state.producer) && !RunsCode(StepBatch(batch, l).state.producer) ==> batch.source.Done())
      && (l.Finish? ==> batch.tasks[l.job].Done())
  {
  }

  lemma StepBalanced(batches: seq<BatchCall>, b: BatchCall, l: Label)
    requires BatchBalanced(batches, b) && Enabled(b.Cfg(), b.state, l) && |b.tasks| == |b.state.jobs|
    requires RunsCode(b.state.producer) && !RunsCode(StepBatch(b, l).state.producer) ==> b.source.Done()
    ensures BatchBalanced(batches, StepBatch(b, l))
  {
    var t := StepBatch(b, l);
    StepSettles(batches, b, l);
    assert t.state == Apply(b.Cfg(), b.state, l) && t.call == b.call && t.registered == b.registered;
  }

  lemma StepSettles(batches: seq<BatchCall>, b: BatchCall, l: Label)
    requires BatchBalanced(batches, b) && Enabled(b.Cfg(), b.state, l) && |b.tasks| == |b.state.jobs|
    ensures
      var t := StepBatch(b, l);
      && SettlesTo(t.source, b.registered) && Lends(batches, t.source)
      && (!l.BeginPull? ==> t.source == b.source)
      && (forall w :: 0 <= w < |t.tasks| ==> SettlesTo(t.tasks[w], []) && Lends(batches, t.tasks[w]))
  {
    if l.BeginPull? {
      PullAndTaskCode(b.call, b.state.accepted);
      SettledNothing(b.registered, PullCode(b.call, b.state.accepted));
    } else if l.Receive? {
      PullAndTaskCode(b.call, b.state.chan[0]);
      SettledNothing([], TaskCode(b.call, b.state.chan[0]));
    }
  }

  lemma BatchStepKeepsBalance(sizes: nat -> nat, sys: Sys, b: nat, l: Label)
    requires Balanced(sys) && CanMove(sizes, sys, BatchStep(b, l))
    ensures Balanced(MoveTo(sizes, sys, BatchStep(b, l)))
  {
    var t := MoveTo(sizes, sys, BatchStep(b, l));
    PermittedCode(sizes, sys, b, l);
    StepBalanced(sys.batches, sys.batches[b], l);
    assert t.batches == sys.batches[b := StepBatch(sys.batches[b], l)];
    BalanceKept(sys.batches, t.batches);
  }

  lemma MoveKeepsBalance(sizes: nat -> nat, sys: Sys, m: Move)
    requires Balanced(sys) && CanMove(sizes, sys, m)
    ensures Balanced(MoveTo(sizes, sys, m))
  {
    match m
    case BatchStep(b, l) => BatchStepKeepsBalance(sizes, sys, b, l);
    case _ => CodeMoveKeepsBalance(sizes, sys, m);
  }

  lemma MoveKeepsThreads(sizes: nat -> nat, start: Sys, sys: Sys, m: Move)
    requires Balanced(sys) && ThreadsSettle(start, sys) && CanMove(sizes, sys, m)
    ensures ThreadsSettle(start, MoveTo(sizes, sys, m))
  {
    if !m.BatchStep? && m.who.Thread? {
      NewCodeSettles(sizes, sys, m, start.threads[m.who.thread].ctx.active);
    }
  }

  lemma {:induction false} RunBalances(sizes: nat -> nat, start: Sys, moves: seq<Move>)
    requires AtStart(start) && SysRun(sizes, start, moves)
    ensures Balanced(SysAfter(sizes, start, moves))
  {
    if moves != [] {
      var n := |moves| - 1;
      var before := SysRunInit(sizes, start, moves);
      RunBalances(sizes, start, moves[..n]);
      MoveKeepsBalance(sizes, before, moves[n]);
    }
  }

  lemma {:induction false} RunSettles(sizes: nat -> nat, start: Sys, moves: seq<Move>)
    requires AtStart(start) && SysRun(sizes, start, moves)
    requires forall k :: 0 <= k < |start.threads| ==> NoLeave(start.threads[k].code)
    ensures ThreadsSettle(start, SysAfter(sizes, start, moves))
  {
    if moves == [] {
      forall k | 0 <= k < |start.threads| ensures SettlesTo(start.threads[k], start.threads[k].ctx.active) {
        SettledNothing(start.threads[k].ctx.active, start.threads[k].code);
      }
    } else {
      var n := |moves| - 1;
      var before := SysRunInit(sizes, start, moves);
      RunSettles(sizes, start, moves[..n]);
      RunBalances(sizes, start, moves[..n]);
      MoveKeepsThreads(sizes, start, before, moves[n]);
    }
  }

  /**
   In every reachable state of the system, whatever calls what, code that has nothing left to do, whether it
   returned or unwound, has left its thread's registry exactly as it was: an external thread's as it began, a
   source's with its own pool registered, and a pool thread's empty.
   */
  lemma RegistriesRestored(sizes: nat -> nat, start: Sys, moves: seq<Move>)
    requires AtStart(start) && SysRun(sizes, start, moves)
    requires forall k :: 0 <= k < |start.threads| ==> NoLeave(start.threads[k].code)
    ensures
      var sys := SysAfter(sizes, start, moves);
      && |sys.threads| == |start.threads|
      && (forall k :: 0 <= k < |sys.threads| && sys.threads[k].code == [] ==>
            sys.threads[k].ctx.active == start.threads[k].ctx.active)
      && (forall b :: 0 <= b < |sys.batches| && sys.batches[b].source.code == [] ==>
            && sys.batches[b].Pool() in sys.batches[b].source.ctx.active
            && sys.batches[b].source.ctx.active == sys.batches[b].registered)
      && (forall b, w :: 0 <= b < |sys.batches| && 0 <= w < |sys.batches[b].tasks| ==>
            sys.batches[b].tasks[w].code == [] ==> sys.batches[b].tasks[w].ctx.active == [])
  {
    RunBalances(sizes, start, moves);
    RunSettles(sizes, start, moves);
    var sys := SysAfter(sizes, start, moves);
    forall b | 0 <= b < |sys.batches| ensures BatchBalanced(sys.batches, sys.batches[b]) {
    }
  }
}
