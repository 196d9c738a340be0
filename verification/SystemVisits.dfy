/**
 The calls that are made in a run of the whole system are those of the program's call trees, each with the pools
 registered and on the path that the tree says. So code that runs inside a call has the call's pool registered, or
 works for it, whether the call runs in place or as a batch.
 */
module SystemVisits {
  import opened Basics
  import opened Protocol
  import opened Guard
  import opened Routing
  import opened PoolSystem
  import opened SystemRegistries

  /** The visit belongs to the tree of a call that an external thread begins with. */
  ghost predicate InProgram(start: Sys, v: Visit) {
    exists k, i :: Root(start, k, i) && v in Visits(ThreadView(start.threads[k].ctx, []), start.threads[k].code[i].call)
  }

  ghost predicate Root(start: Sys, k: int, i: int) {
    0 <= k < |start.threads| && 0 <= i < |start.threads[k].code| && start.threads[k].code[i].Invoke?
  }

  /** The whole tree of the call, made from this view, belongs to the program. */
  ghost predicate TreeInProgram(start: Sys, t: ThreadView, c: Call) {
    forall v <- Visits(t, c) :: InProgram(start, v)
  }

  ghost predicate Planned(start: Sys, ctx: Context, c: Call) {
    exists frames :: TreeInProgram(start, ThreadView(ctx, frames), c)
  }

  /** Every call in the code is planned for the registry with which the code gets to it. */
  ghost predicate CodePlanned(start: Sys, ctx: Context, code: seq<Instr>)
    decreases code
  {
    code == [] ||
    (&& (code[0].Invoke? ==> Planned(start, ctx, code[0].call))
     && CodePlanned(start, Passed(ctx, code[0]), code[1..]))
  }

  ghost predicate ActivityPlanned(start: Sys, a: Activity) {
    CodePlanned(start, a.ctx, a.code)
  }

  lemma {:induction false} PlannedConcat(start: Sys, ctx: Context, a: seq<Instr>, b: seq<Instr>)
    ensures CodePlanned(start, ctx, a + b) <==>
      CodePlanned(start, ctx, a) && CodePlanned(start, ctx.(active := Settled(ctx.active, a)), b)
    decreases a
  {
    if a == [] {
      assert a + b == b && ctx.(active := ctx.active) == ctx;
    } else {
      assert (a + b)[1..] == a[1..] + b;
      PlannedConcat(start, Passed(ctx, a[0]), a[1..], b);
    }
  }

  lemma {:induction false} PlannedNoLeave(start: Sys, ctx: Context, code: seq<Instr>)
    requires NoLeave(code) && forall i <- code :: i.Invoke? ==> Planned(start, ctx, i.call)
    ensures CodePlanned(start, ctx, code)
    decreases code
  {
    if code != [] {
      PlannedNoLeave(start, ctx, code[1..]);
    }
  }

  lemma {:induction false} PlannedNoInvoke(start: Sys, ctx: Context, code: seq<Instr>)
    requires forall i <- code :: !i.Invoke?
    ensures CodePlanned(start, ctx, code)
    decreases code
  {
    if code != [] {
      PlannedNoInvoke(start, Passed(ctx, code[0]), code[1..]);
    }
  }

  // ----- user code -----

  /** What user code of a call does from here on is planned. */
  ghost predicate UserPlanned(start: Sys, source: Context, tasks: Context, c: Call) {
    && (forall d <- c.conversion :: Planned(start, source, d))
    && (forall i <- c.items :: ItemPlanned(start, source, tasks, i))
  }

  ghost predicate ItemPlanned(start: Sys, source: Context, tasks: Context, i: ItemCalls) {
    (forall d <- i.pull :: Planned(start, source, d)) && (forall d <- i.task :: Planned(start, tasks, d))
  }

  lemma CoveredInProgram(start: Sys, t: ThreadView, c: Call, u: ThreadView, d: Call)
    requires TreeInProgram(start, t, c) && Covers(Visits(t, c), Visits(u, d))
    ensures Planned(start, u.ctx, d)
  {
    assert TreeInProgram(start, ThreadView(u.ctx, u.frames), d);
  }

  /** A planned call's user code is planned for the views that the call gives it. */
  lemma CallPlansUserCode(start: Sys, ctx: Context, c: Call)
    requires Planned(start, ctx, c)
    ensures
      var source := Context(ctx.worker, Entered(ctx.active, c.executor.pool));
      var tasks := if RunsSequentially(ctx, c.executor, c.count) then source else Context(Some(c.executor.pool), []);
      UserPlanned(start, source, tasks, c)
  {
    var frames :| TreeInProgram(start, ThreadView(ctx, frames), c);
    var t := ThreadView(ctx, frames);
    var source, tasks := SourceView(t, c), TaskView(t, c);
    NestedCovered(t, c);
    forall d | d in c.conversion ensures Planned(start, source.ctx, d) {
      CoveredInProgram(start, t, c, source, d);
    }
    forall i | i in c.items ensures ItemPlanned(start, source.ctx, tasks.ctx, i) {
      forall d | d in i.pull ensures Planned(start, source.ctx, d) {
        CoveredInProgram(start, t, c, source, d);
      }
      forall d | d in i.task ensures Planned(start, tasks.ctx, d) {
        CoveredInProgram(start, t, c, tasks, d);
      }
    }
  }

  lemma InvokesPlanned(start: Sys, ctx: Context, calls: seq<Call>)
    requires forall d <- calls :: Planned(start, ctx, d)
    ensures CodePlanned(start, ctx, Invokes(calls))
  {
    forall i | i in Invokes(calls) ensures i.Invoke? && Planned(start, ctx, i.call) {
      var k :| 0 <= k < |calls| && i == Invoke(calls[k]);
      assert calls[k] in calls;
    }
    PlannedNoLeave(start, ctx, Invokes(calls));
  }

  lemma PullAndTaskPlanned(start: Sys, source: Context, tasks: Context, c: Call, i: nat)
    requires UserPlanned(start, source, tasks, c)
    ensures CodePlanned(start, source, PullCode(c, i)) && CodePlanned(start, tasks, TaskCode(c, i))
  {
    if i < |c.items| {
      var item := c.items[i];
      assert item in c.items;
      InvokesPlanned(start, source, item.pull);
      InvokesPlanned(start, tasks, item.task);
    }
  }

  /** Code that a call runs in place is planned when its user code is planned for one view throughout. */
  lemma InlinePlanned(start: Sys, ctx: Context, c: Call)
    requires UserPlanned(start, ctx, ctx, c)
    ensures CodePlanned(start, ctx, InlineCode(c))
  {
    InlineIsCallsOf(c);
    forall i | i in InlineCode(c) && i.Invoke? ensures Planned(start, ctx, i.call) {
      assert MadeBy(c, i.call);
      if i.call !in c.conversion {
        var item :| item in c.items && Makes(item, i.call);
        assert ItemPlanned(start, ctx, ctx, item);
      }
    }
    PlannedNoLeave(start, ctx, InlineCode(c));
  }

  /** Around a call, what follows is reached with the registry that it would have had. */
  lemma GuardedPlanned(start: Sys, a: Activity, body: seq<Instr>, child: Option<nat>)
    requires ActivityPlanned(start, a) && a.code != [] && a.code[0].Invoke? && NoLeave(body)
    requires CodePlanned(start, Context(a.ctx.worker, Entered(a.ctx.active, a.code[0].call.executor.pool)), body)
    ensures ActivityPlanned(start, Guarded(a, body, child))
  {
    var pool := a.code[0].call.executor.pool;
    var inside := Context(a.ctx.worker, Entered(a.ctx.active, pool));
    var guard := if pool in a.ctx.active then [] else [Leave(pool)];
    SettledNothing(inside.active, body);
    SettledConcat(inside.active, body, guard);
    DropUndoesEnter(a.ctx.active, pool);
    assert Settled(inside.active, body + guard) == a.ctx.active;
    assert a.ctx.(active := a.ctx.active) == a.ctx;
    PlannedNoInvoke(start, inside, guard);
    PlannedConcat(start, inside, body, guard);
    PlannedConcat(start, inside, body + guard, a.code[1..]);
  }

  lemma CaughtPlanned(start: Sys, a: Activity, caught: nat)
    requires ActivityPlanned(start, a) && caught <= |a.code|
    ensures ActivityPlanned(start, Caught(a, caught))
  {
    var head, rest := a.code[..caught], a.code[caught..];
    assert a.code == head + rest;
    GuardsOnly(head);
    SettledGuards(a.ctx.active, head);
    PlannedNoInvoke(start, a.ctx, Guards(head));
    PlannedConcat(start, a.ctx, head, rest);
    PlannedConcat(start, a.ctx, Guards(head), rest);
  }

  lemma NewCodePlanned(sizes: nat -> nat, start: Sys, sys: Sys, m: Move)
    requires Balanced(sys) && CanMove(sizes, sys, m) && !m.BatchStep? && ActivityPlanned(start, Get(sys, m.who))
    ensures ActivityPlanned(start, NewCode(sizes, sys, m))
  {
    var a := Get(sys, m.who);
    match m
    case CallInline(_) =>
      var c := a.code[0].call;
      CallPlansUserCode(start, a.ctx, c);
      InlinePlanned(start, Context(a.ctx.worker, Entered(a.ctx.active, c.executor.pool)), c);
      InlineIsCallsOf(c);
      GuardedPlanned(start, a, InlineCode(c), None);
    case CallParallel(_) => GuardedPlanned(start, a, [], Some(|sys.batches|));
    case LeaveGuard(_) =>
    case Resume(who) => HandedBackSame(sys, who);
    case Unwind(who, caught) =>
      HandedBackSame(sys, who);
      CaughtPlanned(start, a.(child := None), caught);
  }

  // ----- every move keeps to the plan -----

  ghost predicate BatchPlanned(start: Sys, b: BatchCall) {
    && ActivityPlanned(start, b.source)
    && (forall w :: 0 <= w < |b.tasks| ==> ActivityPlanned(start, b.tasks[w]))
    && UserPlanned(start, Context(b.source.ctx.worker, b.registered), Context(Some(b.Pool()), []), b.call)
  }

  ghost predicate SysPlanned(start: Sys, sys: Sys) {
    && (forall k :: 0 <= k < |sys.threads| ==> ActivityPlanned(start, sys.threads[k]))
    && (forall b :: 0 <= b < |sys.batches| ==> BatchPlanned(start, sys.batches[b]))
  }

  lemma GetPlanned(start: Sys, sys: Sys, who: Who)
    requires SysPlanned(start, sys) && Active(sys, who)
    ensures ActivityPlanned(start, Get(sys, who))
  {
    if !who.Thread? {
      assert BatchPlanned(start, sys.batches[who.batch]);
    }
  }

  lemma SetKeepsPlan(start: Sys, sys: Sys, who: Who, a: Activity)
    requires SysPlanned(start, sys) && Active(sys, who) && ActivityPlanned(start, a)
    requires a.ctx.worker == Get(sys, who).ctx.worker
    ensures SysPlanned(start, Set(sys, who, a))
  {
    if !who.Thread? {
      assert BatchPlanned(start, sys.batches[who.batch]);
      assert BatchPlanned(start, Set(sys, who, a).batches[who.batch]);
    }
  }

  lemma NewBatchPlanned(start: Sys, a: Activity)
    requires ActivityPlanned(start, a) && a.code != [] && a.code[0].Invoke?
    requires !RunsSequentially(a.ctx, a.code[0].call.executor, a.code[0].call.count)
    ensures BatchPlanned(start, NewBatch(a))
  {
    var c := a.code[0].call;
    CallPlansUserCode(start, a.ctx, c);
    InvokesPlanned(start, Context(a.ctx.worker, Entered(a.ctx.active, c.executor.pool)), c.conversion);
  }

  lemma CodeMoveKeepsPlan(sizes: nat -> nat, start: Sys, sys: Sys, m: Move)
    requires Balanced(sys) && SysPlanned(start, sys) && CanMove(sizes, sys, m) && !m.BatchStep?
    ensures SysPlanned(start, MoveTo(sizes, sys, m))
  {
    GetPlanned(start, sys, m.who);
    NewCodePlanned(sizes, start, sys, m);
    if m.CallParallel? {
      NewBatchPlanned(start, Get(sys, m.who));
    }
    SetKeepsPlan(start, sys.(batches := Batches(sizes, sys, m)), m.who, NewCode(sizes, sys, m));
  }

  lemma StepPlanned(start: Sys, batches: seq<BatchCall>, b: BatchCall, l: Label)
    requires BatchBalanced(batches, b) && BatchPlanned(start, b)
    requires Enabled(b.Cfg(), b.state, l) && |b.tasks| == |b.state.jobs|
    ensures BatchPlanned(start, StepBatch(b, l))
  {
    var source, tasks := Context(b.source.ctx.worker, b.registered), Context(Some(b.Pool()), []);
    if l.BeginPull? {
      PullAndTaskPlanned(start, source, tasks, b.call, b.state.accepted);
      assert b.source.ctx == source;
    } else if l.Receive? {
      PullAndTaskPlanned(start, source, tasks, b.call, b.state.chan[0]);
    }
  }

  lemma BatchStepKeepsPlan(sizes: nat -> nat, start: Sys, sys: Sys, b: nat, l: Label)
    requires Balanced(sys) && SysPlanned(start, sys) && CanMove(sizes, sys, BatchStep(b, l))
    ensures SysPlanned(start, MoveTo(sizes, sys, BatchStep(b, l)))
  {
    assert BatchBalanced(sys.batches, sys.batches[b]);
    StepPlanned(start, sys.batches, sys.batches[b], l);
    assert MoveTo(sizes, sys, BatchStep(b, l)).batches == sys.batches[b := StepBatch(sys.batches[b], l)];
  }

  lemma StartPlanned(start: Sys, k: nat)
    requires k < |start.threads| && NoLeave(start.threads[k].code)
    ensures ActivityPlanned(start, start.threads[k])
  {
    var a := start.threads[k];
    forall i | i in a.code && i.Invoke? ensures Planned(start, a.ctx, i.call) {
      var j :| 0 <= j < |a.code| && a.code[j] == i;
      assert Root(start, k, j);
      assert TreeInProgram(start, ThreadView(a.ctx, []), i.call);
    }
    PlannedNoLeave(start, a.ctx, a.code);
  }

  lemma {:induction false} RunPlanned(sizes: nat -> nat, start: Sys, moves: seq<Move>)
    requires AtStart(start) && SysRun(sizes, start, moves)
    requires forall k :: 0 <= k < |start.threads| ==> NoLeave(start.threads[k].code)
    ensures SysPlanned(start, SysAfter(sizes, start, moves))
  {
    if moves == [] {
      forall k | 0 <= k < |start.threads| ensures ActivityPlanned(start, start.threads[k]) {
        StartPlanned(start, k);
      }
    } else {
      var n := |moves| - 1;
      var before := SysRunInit(sizes, start, moves);
      RunPlanned(sizes, start, moves[..n]);
      RunBalances(sizes, start, moves[..n]);
      match moves[n]
      case BatchStep(b, l) => BatchStepKeepsPlan(sizes, start, before, b, l);
      case m => CodeMoveKeepsPlan(sizes, start, before, m);
    }
  }

  /** The visit of a call that is made with these pools registered, inside of `frames`, on this path. */
  ghost function VisitOf(ctx: Context, frames: seq<Frame>, c: Call, parallel: bool): Visit {
    Visit(ThreadView(ctx, frames), c.executor, c.count, parallel)
  }

  /**
   In every reachable state, whoever is about to make a call, the call is one of the program's trees, made with
   the registry and routed to the path that the tree says.
   */
  lemma CallsAreVisits(sizes: nat -> nat, start: Sys, moves: seq<Move>, who: Who)
    requires AtStart(start) && SysRun(sizes, start, moves) && AtCall(SysAfter(sizes, start, moves), who)
    requires forall k :: 0 <= k < |start.threads| ==> NoLeave(start.threads[k].code)
    ensures
      var a := Get(SysAfter(sizes, start, moves), who);
      var parallel := !AtSequentialCall(SysAfter(sizes, start, moves), who);
      exists frames :: InProgram(start, VisitOf(a.ctx, frames, a.code[0].call, parallel))
  {
    RunPlanned(sizes, start, moves);
    var sys := SysAfter(sizes, start, moves);
    GetPlanned(start, sys, who);
    var a := Get(sys, who);
    var c := a.code[0].call;
    var frames :| TreeInProgram(start, ThreadView(a.ctx, frames), c);
    var first := Visits(ThreadView(a.ctx, frames), c)[0];
    assert first in Visits(ThreadView(a.ctx, frames), c);
    assert first == VisitOf(a.ctx, frames, c, !AtSequentialCall(sys, who));
  }

  /**
   The guard in the whole system: whoever is about to make a call is inside of calls, on its thread, for exactly
   the pools that are registered there, and takes the sequential branch if and only if it is inside of a call for
   the same pool, works for it, or the call is small or for one thread. No thread is inside of two parallel calls
   for one pool.
   */
  lemma ReentryInSystem(sizes: nat -> nat, start: Sys, moves: seq<Move>, who: Who)
    requires AtStart(start) && SysRun(sizes, start, moves) && AtCall(SysAfter(sizes, start, moves), who)
    requires forall k :: 0 <= k < |start.threads| ==>
      NoLeave(start.threads[k].code) && start.threads[k].ctx.active == []
    ensures
      var a := Get(SysAfter(sizes, start, moves), who);
      var parallel := !AtSequentialCall(SysAfter(sizes, start, moves), who);
      exists frames ::
        var v := VisitOf(a.ctx, frames, a.code[0].call, parallel);
        InProgram(start, v) && RoutedRightly(v)
  {
    CallsAreVisits(sizes, start, moves, who);
    var a := Get(SysAfter(sizes, start, moves), who);
    var parallel := !AtSequentialCall(SysAfter(sizes, start, moves), who);
    var frames :| InProgram(start, VisitOf(a.ctx, frames, a.code[0].call, parallel));
    var v := VisitOf(a.ctx, frames, a.code[0].call, parallel);
    var k, i :| Root(start, k, i)
      && v in Visits(ThreadView(start.threads[k].ctx, []), start.threads[k].code[i].call);
    ReentryIsSequential(ThreadView(start.threads[k].ctx, []), start.threads[k].code[i].call);
    assert RoutedRightly(v);
  }
}
