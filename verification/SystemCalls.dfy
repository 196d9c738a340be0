/**
 Which calls a run makes. When no source unwinds, no policy stops a batch and no reporter fails, every finished run
 makes each call of the program's trees exactly as often as the sequential executor would, with the same pools
 registered and on the same path, whatever the interleaving.
 */
module SystemCalls {
  import opened Basics
  import opened Protocol
  import opened Sources
  import opened Guarantees
  import opened Outcomes
  import opened Guard
  import opened Routing
  import opened PoolSystem
  import opened SystemRegistries
  import opened SystemRuns
  import opened SystemProgress

  /** A call that was made: the thread it was made on, the call, and the path it took. */
  datatype Made = Made(ctx: Context, call: Call, parallel: bool)

  // ----- how often a tree makes a call -----

  /** How many items the sequential executor executes. */
  ghost function Executed(c: Call): nat {
    SequentialFrom(Effective(c), c.count, c.executor.limit, 0).done
  }

  /** How often `x` is made when `c` is called here and its source is run to its end. */
  ghost function Times(x: Made, ctx: Context, c: Call): nat
    decreases c
  {
    var parallel := !RunsSequentially(ctx, c.executor, c.count);
    var source := Context(ctx.worker, Entered(ctx.active, c.executor.pool));
    var tasks := if parallel then Context(Some(c.executor.pool), []) else source;
    (if x == Made(ctx, c, parallel) then 1 else 0)
    + CallsTimes(x, source, c.conversion)
    + PullTimes(x, source, c.items, 0, Executed(c) + 1) + TaskTimes(x, tasks, c.items, 0, Executed(c))
  }

  ghost function CallsTimes(x: Made, ctx: Context, calls: seq<Call>): nat
    decreases calls
  {
    if calls == [] then 0 else CallsTimes(x, ctx, calls[..|calls| - 1]) + Times(x, ctx, calls[|calls| - 1])
  }

  /** In the pulls of the items from `k` on, up to `n`. */
  ghost function PullTimes(x: Made, ctx: Context, items: seq<ItemCalls>, k: nat, n: nat): nat
    decreases items, |items| - k
  {
    if k >= n || k >= |items| then 0 else CallsTimes(x, ctx, items[k].pull) + PullTimes(x, ctx, items, k + 1, n)
  }

  ghost function TaskTimes(x: Made, ctx: Context, items: seq<ItemCalls>, k: nat, n: nat): nat
    decreases items, |items| - k
  {
    if k >= n || k >= |items| then 0 else CallsTimes(x, ctx, items[k].task) + TaskTimes(x, ctx, items, k + 1, n)
  }

  // ----- how often code that is left makes it -----

  ghost function InstrTimes(x: Made, ctx: Context, i: Instr): nat {
    if i.Invoke? then Times(x, ctx, i.call) else 0
  }

  ghost function CodeTimes(x: Made, ctx: Context, code: seq<Instr>): nat
    decreases code
  {
    if code == [] then 0 else InstrTimes(x, ctx, code[0]) + CodeTimes(x, Passed(ctx, code[0]), code[1..])
  }

  ghost function ActivityTimes(x: Made, a: Activity): nat {
    CodeTimes(x, a.ctx, a.code)
  }

  ghost function CodesTimes(x: Made, codes: seq<Activity>): nat {
    Sum(a => ActivityTimes(x, a), codes)
  }

  lemma CodesUpdate(x: Made, codes: seq<Activity>, k: nat, a: Activity)
    requires k < |codes|
    ensures CodesTimes(x, codes[k := a]) + ActivityTimes(x, codes[k]) == CodesTimes(x, codes) + ActivityTimes(x, a)
  {
    SumUpdate(a => ActivityTimes(x, a), codes, k, a);
  }

  lemma CodesAppend(x: Made, codes: seq<Activity>, a: Activity)
    ensures CodesTimes(x, codes + [a]) == CodesTimes(x, codes) + ActivityTimes(x, a)
  {
    SumAppend(a => ActivityTimes(x, a), codes, a);
  }

  ghost function SourceCtx(b: BatchCall): Context {
    Context(b.source.ctx.worker, b.registered)
  }

  ghost function TaskCtx(b: BatchCall): Context {
    Context(Some(b.Pool()), [])
  }

  ghost function BatchTimes(x: Made, b: BatchCall): nat {
    ActivityTimes(x, b.source) + CodesTimes(x, b.tasks)
    + PullTimes(x, SourceCtx(b), b.call.items, Unpulled(b), Executed(b.call) + 1)
    + TaskTimes(x, TaskCtx(b), b.call.items, Unstarted(b), Executed(b.call))
  }

  ghost function SysTimes(x: Made, sys: Sys): nat {
    CodesTimes(x, sys.threads) + Sum(b => BatchTimes(x, b), sys.batches)
  }

  lemma {:induction false} CodeTimesConcat(x: Made, ctx: Context, a: seq<Instr>, b: seq<Instr>)
    ensures CodeTimes(x, ctx, a + b) == CodeTimes(x, ctx, a) + CodeTimes(x, ctx.(active := Settled(ctx.active, a)), b)
    decreases a
  {
    if a == [] {
      assert a + b == b && ctx.(active := ctx.active) == ctx;
    } else {
      assert (a + b)[1..] == a[1..] + b;
      CodeTimesConcat(x, Passed(ctx, a[0]), a[1..], b);
    }
  }

  /** Without guards to drop, code weighs what its instructions weigh. */
  lemma {:induction false} CodeTimesSum(x: Made, ctx: Context, f: Instr -> nat, code: seq<Instr>)
    requires NoLeave(code) && forall i :: f(i) == InstrTimes(x, ctx, i)
    ensures CodeTimes(x, ctx, code) == Sum(f, code)
    decreases |code|
  {
    if code != [] {
      var n := |code| - 1;
      var last := [code[n]];
      assert code == code[..n] + last;
      CodeTimesConcat(x, ctx, code[..n], last);
      SettledNothing(ctx.active, code[..n]);
      assert ctx.(active := ctx.active) == ctx;
      CodeTimesSum(x, ctx, f, code[..n]);
      assert CodeTimes(x, ctx, last) == f(code[n]);
    }
  }

  lemma {:induction false} InvokesSum(x: Made, ctx: Context, f: Instr -> nat, calls: seq<Call>)
    requires forall i :: f(i) == InstrTimes(x, ctx, i)
    ensures Sum(f, Invokes(calls)) == CallsTimes(x, ctx, calls)
  {
    if calls != [] {
      var n := |calls| - 1;
      InvokesSum(x, ctx, f, calls[..n]);
      assert Invokes(calls)[..n] == Invokes(calls[..n]);
    }
  }

  ghost function Weigh(x: Made, ctx: Context): (f: Instr -> nat)
    ensures forall i :: f(i) == InstrTimes(x, ctx, i)
  {
    i => InstrTimes(x, ctx, i)
  }

  lemma InvokesTimes(x: Made, ctx: Context, calls: seq<Call>)
    ensures CodeTimes(x, ctx, Invokes(calls)) == CallsTimes(x, ctx, calls)
  {
    var f := Weigh(x, ctx);
    CodeTimesSum(x, ctx, f, Invokes(calls));
    InvokesSum(x, ctx, f, calls);
  }

  /** The code of the item at `k` is what it takes off the items that are left. */
  lemma ItemTimes(x: Made, ctx: Context, c: Call, k: nat, n: nat)
    requires k < n
    ensures CodeTimes(x, ctx, PullCode(c, k)) + PullTimes(x, ctx, c.items, k + 1, n) == PullTimes(x, ctx, c.items, k, n)
    ensures CodeTimes(x, ctx, TaskCode(c, k)) + TaskTimes(x, ctx, c.items, k + 1, n) == TaskTimes(x, ctx, c.items, k, n)
  {
    if k < |c.items| {
      InvokesTimes(x, ctx, c.items[k].pull);
      InvokesTimes(x, ctx, c.items[k].task);
    }
  }

  lemma ItemSum(x: Made, ctx: Context, f: Instr -> nat, c: Call, k: nat)
    requires forall i :: f(i) == InstrTimes(x, ctx, i)
    ensures Sum(f, PullCode(c, k)) == CodeTimes(x, ctx, PullCode(c, k))
    ensures Sum(f, TaskCode(c, k)) == CodeTimes(x, ctx, TaskCode(c, k))
  {
    PullAndTaskCode(c, k);
    CodeTimesSum(x, ctx, f, PullCode(c, k));
    CodeTimesSum(x, ctx, f, TaskCode(c, k));
  }

  /** What the items from `k` on still make. */
  ghost function LeftTimes(x: Made, ctx: Context, c: Call, k: nat, n: nat): nat {
    PullTimes(x, ctx, c.items, k, n + 1) + TaskTimes(x, ctx, c.items, k, n)
  }

  lemma ItemTakes(x: Made, ctx: Context, f: Instr -> nat, c: Call, k: nat, n: nat)
    requires k < n && forall i :: f(i) == InstrTimes(x, ctx, i)
    ensures
      Sum(f, PullCode(c, k)) + Sum(f, TaskCode(c, k)) + LeftTimes(x, ctx, c, k + 1, n) == LeftTimes(x, ctx, c, k, n)
  {
    ItemTimes(x, ctx, c, k, n);
    ItemTimes(x, ctx, c, k, n + 1);
    ItemSum(x, ctx, f, c, k);
  }

  /** The first `n` items, in place. */
  lemma ItemsTimes(x: Made, ctx: Context, f: Instr -> nat, c: Call, n: nat)
    requires forall i :: f(i) == InstrTimes(x, ctx, i)
    ensures Sum(f, ItemsCode(c, n)) + LeftTimes(x, ctx, c, n, n) == LeftTimes(x, ctx, c, 0, n)
  {
    var left := (k: nat) => LeftTimes(x, ctx, c, k, n);
    forall k: nat | k < n ensures Sum(f, PullCode(c, k)) + Sum(f, TaskCode(c, k)) + left(k + 1) == left(k) {
      ItemTakes(x, ctx, f, c, k, n);
    }
    ItemsCodeSum(f, left, c, n);
  }

  // ----- programs whose sources run to their end -----

  /** Neither the source nor a task unwinds before the end, and the policy does not stop the sequential executor. */
  ghost predicate RunsToEnd(c: Call) {
    && Effective(c).converts
    && !PolicyStops(Effective(c), c.count, c.executor.limit)
    && !SequentialFrom(Effective(c), c.count, c.executor.limit, 0).unwound
  }

  ghost predicate Steady(c: Call)
    decreases c
  {
    && RunsToEnd(c) && ValidCall(c)
    && (forall d <- c.conversion :: Steady(d))
    && (forall i <- c.items :: (forall d <- i.pull :: Steady(d)) && (forall d <- i.task :: Steady(d)))
  }

  ghost predicate SteadyCode(code: seq<Instr>) {
    forall i <- code :: !i.Raise? && (i.Invoke? ==> Steady(i.call))
  }

  lemma MadeBySteady(c: Call, d: Call)
    requires Steady(c) && MadeBy(c, d)
    ensures Steady(d)
  {
  }

  lemma SteadyInline(c: Call)
    requires RunsToEnd(c)
    ensures InlineCode(c) == Invokes(c.conversion) + (ItemsCode(c, Executed(c)) + PullCode(c, Executed(c)))
  {
    SequentialEnds(Effective(c), c.count, c.executor.limit, 0);
  }

  lemma ItemsAndProbeTimes(x: Made, ctx: Context, f: Instr -> nat, c: Call, n: nat)
    requires forall i :: f(i) == InstrTimes(x, ctx, i)
    ensures Sum(f, ItemsCode(c, n) + PullCode(c, n)) == LeftTimes(x, ctx, c, 0, n)
  {
    SumConcat(f, ItemsCode(c, n), PullCode(c, n));
    ItemsTimes(x, ctx, f, c, n);
    ItemTimes(x, ctx, c, n, n + 1);
    ItemSum(x, ctx, f, c, n);
  }

  /** A sequential call makes, in place, what its tree says. */
  lemma InlineTimes(x: Made, ctx: Context, c: Call)
    requires RunsToEnd(c)
    ensures CodeTimes(x, ctx, InlineCode(c)) == CallsTimes(x, ctx, c.conversion) + LeftTimes(x, ctx, c, 0, Executed(c))
  {
    var f := Weigh(x, ctx);
    var calls, items := Invokes(c.conversion), ItemsCode(c, Executed(c)) + PullCode(c, Executed(c));
    SteadyInline(c);
    InlineIsCallsOf(c);
    CodeTimesSum(x, ctx, f, InlineCode(c));
    SumConcat(f, calls, items);
    InvokesSum(x, ctx, f, c.conversion);
    ItemsAndProbeTimes(x, ctx, f, c, Executed(c));
  }

  // ----- every move makes what it takes off -----

  /** A call takes its own weight off the code and adds its body's. */
  lemma GuardedTimes(x: Made, a: Activity, body: seq<Instr>, child: Option<nat>)
    requires a.code != [] && a.code[0].Invoke? && NoLeave(body)
    ensures
      var c := a.code[0].call;
      var inside := Context(a.ctx.worker, Entered(a.ctx.active, c.executor.pool));
      ActivityTimes(x, Guarded(a, body, child)) + Times(x, a.ctx, c) == ActivityTimes(x, a) + CodeTimes(x, inside, body)
  {
    var pool := a.code[0].call.executor.pool;
    var inside := Context(a.ctx.worker, Entered(a.ctx.active, pool));
    var guard := if pool in a.ctx.active then [] else [Leave(pool)];
    SettledNothing(inside.active, body);
    SettledConcat(inside.active, body, guard);
    DropUndoesEnter(a.ctx.active, pool);
    assert Settled(inside.active, body + guard) == a.ctx.active;
    assert inside.(active := a.ctx.active) == a.ctx;
    CodeTimesConcat(x, inside, body, guard);
    CodeTimesConcat(x, inside, body + guard, a.code[1..]);
    assert CodeTimes(x, inside.(active := inside.active), guard) == 0;
  }

  /** 1 if the move makes the call `x`. */
  ghost function Hit(x: Made, sizes: nat -> nat, sys: Sys, m: Move): nat
    requires CanMove(sizes, sys, m)
  {
    if !m.CallInline? && !m.CallParallel? then 0
    else
      var a := Get(sys, m.who);
      if x == Made(a.ctx, a.code[0].call, m.CallParallel?) then 1 else 0
  }

  lemma NewBatchTimes(x: Made, a: Activity)
    requires a.code != [] && a.code[0].Invoke?
    requires !RunsSequentially(a.ctx, a.code[0].call.executor, a.code[0].call.count)
    ensures
      var c := a.code[0].call;
      BatchTimes(x, NewBatch(a)) + (if x == Made(a.ctx, c, true) then 1 else 0) == Times(x, a.ctx, c)
  {
    var b := NewBatch(a);
    InvokesTimes(x, b.source.ctx, b.call.conversion);
  }

  ghost predicate SteadyBatch(b: BatchCall) {
    && Steady(b.call) && !b.state.reporterStopped && SteadyCode(b.source.code)
    && forall w :: 0 <= w < |b.tasks| ==> SteadyCode(b.tasks[w].code)
  }

  ghost predicate SteadySys(sys: Sys) {
    && (forall k :: 0 <= k < |sys.threads| ==> SteadyCode(sys.threads[k].code))
    && (forall b :: 0 <= b < |sys.batches| ==> SteadyBatch(sys.batches[b]))
  }

  lemma GetSteady(sys: Sys, who: Who)
    requires SteadySys(sys) && Active(sys, who)
    ensures SteadyCode(Get(sys, who).code)
  {
    if !who.Thread? {
      assert SteadyBatch(sys.batches[who.batch]);
    }
  }

  lemma CallInlineTimes(x: Made, a: Activity)
    requires a.code != [] && a.code[0].Invoke? && RunsToEnd(a.code[0].call)
    requires RunsSequentially(a.ctx, a.code[0].call.executor, a.code[0].call.count)
    ensures
      var c := a.code[0].call;
      (if x == Made(a.ctx, c, false) then 1 else 0) + ActivityTimes(x, Guarded(a, InlineCode(c), None))
      == ActivityTimes(x, a)
  {
    var c := a.code[0].call;
    InlineTimes(x, Context(a.ctx.worker, Entered(a.ctx.active, c.executor.pool)), c);
    InlineIsCallsOf(c);
    GuardedTimes(x, a, InlineCode(c), None);
  }

  /** Every move of a thread's code, but unwinding, makes what it takes off. */
  lemma NewCodeTimes(x: Made, sizes: nat -> nat, sys: Sys, m: Move)
    requires Balanced(sys) && SteadySys(sys) && CanMove(sizes, sys, m) && !m.BatchStep? && !m.Unwind?
    ensures
      Hit(x, sizes, sys, m) + ActivityTimes(x, NewCode(sizes, sys, m))
      + (if m.CallParallel? then BatchTimes(x, NewBatch(Get(sys, m.who))) else 0)
      == ActivityTimes(x, Get(sys, m.who))
  {
    GetSteady(sys, m.who);
    var a := Get(sys, m.who);
    match m
    case CallInline(_) => CallInlineTimes(x, a);
    case CallParallel(_) =>
      NewBatchTimes(x, a);
      GuardedTimes(x, a, [], Some(|sys.batches|));
    case LeaveGuard(_) =>
    case Resume(who) => HandedBackSame(sys, who);
  }

  // ----- steps of a batch -----

  /** Of the first `n` tasks, no more than the failing ones are recorded as failures. */
  lemma {:induction false} RecordedFailures(src: Source, s: State, n: nat)
    requires Agrees(src, s)
    ensures Sum(FailureOne, ByIndex(s.log, n)) <= Failures(Prefix(src, n))
  {
    if n > 0 {
      RecordedFailures(src, s, n - 1);
      PrefixStep(src, n - 1);
      SumByIndexStep(FailureOne, s.log, n);
      RecordedEnd(src, s, n - 1);
    }
  }

  lemma RecordedEnd(src: Source, s: State, i: nat)
    requires Agrees(src, s)
    ensures Lookup(s.log, i).Some? ==> Lookup(s.log, i).value == TaskAt(src, i)
  {
    LookupsAgree(src, s);
  }

  /** A batch over a source that runs to its end is never stopped, loses no loop, and pulls exactly to that end. */
  lemma SteadyState(cfg: Config, src: Source, s: State)
    requires cfg.Valid() && Inv(cfg, s) && Agrees(src, s) && !s.reporterStopped
    requires src.converts && !PolicyStops(src, cfg.count, cfg.limit)
    requires !SequentialFrom(src, cfg.count, cfg.limit, 0).unwound
    ensures
      var done := SequentialFrom(src, cfg.count, cfg.limit, 0).done;
      && s.accepted <= done && !Stopped(cfg, s) && !AnyDied(s) && !s.producer.Unwound? && !s.producer.Failed?
      && (s.producer.Ending? || s.producer.Closed? ==> s.accepted == done)
      && (src.at(done).End? || (src.at(done).Item? && done == cfg.count))
  {
    var done := SequentialFrom(src, cfg.count, cfg.limit, 0).done;
    FailedLosesLoop(cfg, s);
    SequentialEnds(src, cfg.count, cfg.limit, 0);
    DeathIsLogged(cfg, s);
    RecordedFailures(src, s, done);
    SumByIndex(FailureOne, s.log, done);
  }

  lemma FailedLosesLoop(cfg: Config, s: State)
    requires cfg.Valid() && Inv(cfg, s)
    ensures s.producer.Failed? ==> AnyDied(s)
  {
    if s.producer.Failed? {
      assert s.jobs[0].Died?;
    }
  }

  lemma BatchSteady(b: BatchCall)
    requires SoundBatch(b) && RunsToEnd(b.call) && !b.state.reporterStopped
    ensures
      var s, done := b.state, Executed(b.call);
      && s.accepted <= done && !Stopped(b.Cfg(), s) && !AnyDied(s) && !s.producer.Unwound? && !s.producer.Failed?
      && (s.producer.Ending? || s.producer.Closed? ==> s.accepted == done)
      && (b.Src().at(done).End? || (b.Src().at(done).Item? && done == b.call.count))
  {
    SteadyState(b.Cfg(), b.Src(), b.state);
  }

  lemma BeginPullTimes(x: Made, b: BatchCall)
    requires Enabled(b.Cfg(), b.state, BeginPull) && |b.tasks| == |b.state.jobs|
    requires b.state.accepted <= Executed(b.call) && b.source.Done() && b.source.ctx == SourceCtx(b)
    ensures
      var t := StepBatch(b, BeginPull);
      var n := Executed(b.call) + 1;
      ActivityTimes(x, t.source) + PullTimes(x, SourceCtx(t), t.call.items, Unpulled(t), n)
      == ActivityTimes(x, b.source) + PullTimes(x, SourceCtx(b), b.call.items, Unpulled(b), n)
  {
    ItemTimes(x, SourceCtx(b), b.call, b.state.accepted, Executed(b.call) + 1);
  }

  lemma StepSourceTimes(x: Made, b: BatchCall, l: Label)
    requires SoundBatch(b) && RunsToEnd(b.call) && !b.state.reporterStopped
    requires CanStep(b.Cfg(), b.Src(), b.state, l)
    requires l.BeginPull? ==> b.source.Done() && b.source.ctx == SourceCtx(b)
    ensures
      var t := StepBatch(b, l);
      var n := Executed(b.call) + 1;
      ActivityTimes(x, t.source) + PullTimes(x, SourceCtx(t), t.call.items, Unpulled(t), n)
      == ActivityTimes(x, b.source) + PullTimes(x, SourceCtx(b), b.call.items, Unpulled(b), n)
  {
    var t := StepBatch(b, l);
    BatchSteady(b);
    assert t.state == Apply(b.Cfg(), b.state, l) && t.call == b.call && SourceCtx(t) == SourceCtx(b);
    if l.BeginPull? {
      BeginPullTimes(x, b);
    } else {
      assert t.source == b.source;
      UnpulledKept(b, l);
    }
  }

  lemma HoldingLives(cfg: Config, s: State)
    requires cfg.Valid() && Inv(cfg, s)
    ensures s.producer.Holding? && !AnyDied(s) ==> ReceiversAlive(s)
  {
    if s.producer.Holding? && !AnyDied(s) {
      assert !s.jobs[0].Over();
    }
  }

  /** Such a batch never takes the steps of one that is stopped or loses its producer or its loops. */
  lemma SteadyLabel(b: BatchCall, l: Label)
    requires SoundBatch(b) && RunsToEnd(b.call) && !b.state.reporterStopped
    requires CanStep(b.Cfg(), b.Src(), b.state, l)
    ensures !l.StopCheck? && !l.PullDiscard? && !l.PullUnwind? && !l.ConvertUnwind? && !l.SendFail?
  {
    HoldingLives(b.Cfg(), b.state);
    BatchSteady(b);
    SequentialEnds(b.Src(), b.call.count, b.call.executor.limit, 0);
  }

  /** The next pull to begin stays, or pulling is over and nothing is left to pull. */
  lemma UnpulledKept(b: BatchCall, l: Label)
    requires SoundBatch(b) && RunsToEnd(b.call) && !b.state.reporterStopped
    requires CanStep(b.Cfg(), b.Src(), b.state, l) && !l.BeginPull?
    ensures
      var t := StepBatch(b, l);
      Unpulled(t) == Unpulled(b) || (Unpulled(b) > Executed(b.call) && Unpulled(t) == |b.call.items|)
  {
    SteadyLabel(b, l);
    if l.PullNone? || l.PullExcess? {
      LastPull(b, l);
    } else {
      OtherUnpulled(b, l);
    }
  }

  lemma OtherUnpulled(b: BatchCall, l: Label)
    requires Enabled(b.Cfg(), b.state, l) && |b.tasks| == |b.state.jobs|
    requires !l.BeginPull? && !l.PullNone? && !l.PullExcess?
    requires !l.StopCheck? && !l.PullDiscard? && !l.PullUnwind? && !l.ConvertUnwind? && !l.SendFail?
    ensures Unpulled(StepBatch(b, l)) == Unpulled(b)
  {
    assert StepBatch(b, l).state == Apply(b.Cfg(), b.state, l);
  }

  lemma LastPull(b: BatchCall, l: Label)
    requires SoundBatch(b) && RunsToEnd(b.call) && !b.state.reporterStopped
    requires CanStep(b.Cfg(), b.Src(), b.state, l) && (l.PullNone? || l.PullExcess?)
    ensures b.state.accepted == Executed(b.call)
  {
    BatchSteady(b);
    SequentialEnds(b.Src(), b.call.count, b.call.executor.limit, 0);
  }

  lemma ReceiveTimes(x: Made, b: BatchCall, w: nat)
    requires SoundBatch(b) && Enabled(b.Cfg(), b.state, Receive(w)) && Unstarted(b) < Executed(b.call)
    ensures
      var i, done := Unstarted(b), Executed(b.call);
      CodesTimes(x, StepBatch(b, Receive(w)).tasks) + TaskTimes(x, TaskCtx(b), b.call.items, i + 1, done)
      == CodesTimes(x, b.tasks) + TaskTimes(x, TaskCtx(b), b.call.items, i, done)
  {
    var i := Unstarted(b);
    var task := Activity(TaskCtx(b), TaskCode(b.call, i), None);
    StepUnstarted(b, Receive(w));
    ItemTimes(x, TaskCtx(b), b.call, i, Executed(b.call));
    CodesUpdate(x, b.tasks, w, task);
    assert StepBatch(b, Receive(w)).tasks == b.tasks[w := task] && b.tasks[w].Done();
  }

  lemma StepTasksTimes(x: Made, b: BatchCall, l: Label)
    requires SoundBatch(b) && RunsToEnd(b.call) && !b.state.reporterStopped
    requires CanStep(b.Cfg(), b.Src(), b.state, l)
    ensures
      var t := StepBatch(b, l);
      CodesTimes(x, t.tasks) + TaskTimes(x, TaskCtx(t), t.call.items, Unstarted(t), Executed(b.call))
      == CodesTimes(x, b.tasks) + TaskTimes(x, TaskCtx(b), b.call.items, Unstarted(b), Executed(b.call))
  {
    var t := StepBatch(b, l);
    StepUnstarted(b, l);
    assert t.call == b.call;
    if l.SpawnJob? {
      CodesAppend(x, b.tasks, t.tasks[|b.tasks|]);
    } else if l.Receive? {
      BatchSteady(b);
      ReceiveTimes(x, b, l.job);
    } else {
      OtherTasks(b, l);
    }
  }

  lemma OtherTasks(b: BatchCall, l: Label)
    requires Enabled(b.Cfg(), b.state, l) && |b.tasks| == |b.state.jobs| && !l.SpawnJob? && !l.Receive?
    ensures StepBatch(b, l).tasks == b.tasks
  {
  }

  // ----- every move keeps the account -----

  lemma SetTimes(x: Made, sys: Sys, who: Who, a: Activity)
    requires Active(sys, who) && a.ctx.worker == Get(sys, who).ctx.worker
    ensures SysTimes(x, Set(sys, who, a)) + ActivityTimes(x, Get(sys, who)) == SysTimes(x, sys) + ActivityTimes(x, a)
  {
    match who
    case Thread(k) => CodesUpdate(x, sys.threads, k, a);
    case SourceOf(b) =>
      SourceTimes(x, sys.batches[b], a);
      BatchesUpdate(x, sys.batches, b, sys.batches[b].(source := a));
    case TaskOf(b, w) =>
      TaskOfTimes(x, sys.batches[b], w, a);
      BatchesUpdate(x, sys.batches, b, sys.batches[b].(tasks := sys.batches[b].tasks[w := a]));
  }

  lemma TaskOfTimes(x: Made, b: BatchCall, w: nat, a: Activity)
    requires w < |b.tasks|
    ensures
      BatchTimes(x, b.(tasks := b.tasks[w := a])) + ActivityTimes(x, b.tasks[w])
      == BatchTimes(x, b) + ActivityTimes(x, a)
  {
    CodesUpdate(x, b.tasks, w, a);
  }

  lemma BatchesUpdate(x: Made, batches: seq<BatchCall>, b: nat, t: BatchCall)
    requires b < |batches|
    ensures
      Sum(c => BatchTimes(x, c), batches[b := t]) + BatchTimes(x, batches[b])
      == Sum(c => BatchTimes(x, c), batches) + BatchTimes(x, t)
  {
    SumUpdate(c => BatchTimes(x, c), batches, b, t);
  }

  lemma SourceTimes(x: Made, b: BatchCall, a: Activity)
    requires a.ctx.worker == b.source.ctx.worker
    ensures BatchTimes(x, b.(source := a)) + ActivityTimes(x, b.source) == BatchTimes(x, b) + ActivityTimes(x, a)
  {
    assert SourceCtx(b.(source := a)) == SourceCtx(b);
  }

  lemma CodeMoveTimes(x: Made, sizes: nat -> nat, sys: Sys, m: Move)
    requires Balanced(sys) && SteadySys(sys) && CanMove(sizes, sys, m) && !m.BatchStep? && !m.Unwind?
    ensures Hit(x, sizes, sys, m) + SysTimes(x, MoveTo(sizes, sys, m)) == SysTimes(x, sys)
  {
    NewCodeTimes(x, sizes, sys, m);
    if m.CallParallel? {
      SumAppend(b => BatchTimes(x, b), sys.batches, NewBatch(Get(sys, m.who)));
    }
    SetTimes(x, sys.(batches := Batches(sizes, sys, m)), m.who, NewCode(sizes, sys, m));
  }

  lemma BatchStepTimes(x: Made, sizes: nat -> nat, sys: Sys, b: nat, l: Label)
    requires Sound(sys) && SteadySys(sys) && CanMove(sizes, sys, BatchStep(b, l))
    ensures SysTimes(x, MoveTo(sizes, sys, BatchStep(b, l))) == SysTimes(x, sys)
  {
    var t := StepBatch(sys.batches[b], l);
    assert BatchBalanced(sys.batches, sys.batches[b]) && SoundBatch(sys.batches[b]) && SteadyBatch(sys.batches[b]);
    StepTimes(x, sys.batches, sys.batches[b], l);
    BatchReplaced(x, sys, b, t, StepQueue(sys.queue, b, sys.batches[b], l));
  }

  lemma BatchReplaced(x: Made, sys: Sys, b: nat, t: BatchCall, queue: seq<Ticket>)
    requires b < |sys.batches| && BatchTimes(x, t) == BatchTimes(x, sys.batches[b])
    ensures SysTimes(x, sys.(batches := sys.batches[b := t], queue := queue)) == SysTimes(x, sys)
  {
    BatchesUpdate(x, sys.batches, b, t);
  }

  lemma StepTimes(x: Made, batches: seq<BatchCall>, b: BatchCall, l: Label)
    requires BatchBalanced(batches, b) && SoundBatch(b) && SteadyBatch(b) && CanStep(b.Cfg(), b.Src(), b.state, l)
    ensures BatchTimes(x, StepBatch(b, l)) == BatchTimes(x, b)
  {
    StepSourceTimes(x, b, l);
    StepTasksTimes(x, b, l);
    SameBatchTimes(x, b, StepBatch(b, l));
  }

  lemma SameBatchTimes(x: Made, b: BatchCall, t: BatchCall)
    requires t.call == b.call
    requires
      var n := Executed(b.call) + 1;
      ActivityTimes(x, t.source) + PullTimes(x, SourceCtx(t), t.call.items, Unpulled(t), n)
      == ActivityTimes(x, b.source) + PullTimes(x, SourceCtx(b), b.call.items, Unpulled(b), n)
    requires
      CodesTimes(x, t.tasks) + TaskTimes(x, TaskCtx(t), t.call.items, Unstarted(t), Executed(b.call))
      == CodesTimes(x, b.tasks) + TaskTimes(x, TaskCtx(b), b.call.items, Unstarted(b), Executed(b.call))
    ensures BatchTimes(x, t) == BatchTimes(x, b)
  {
  }

  // ----- steady programs stay steady -----

  lemma CallsOfSteady(c: Call, code: seq<Instr>)
    requires Steady(c) && CallsOf(c, code) && forall i <- code :: !i.Raise?
    ensures SteadyCode(code)
  {
    forall i | i in code && i.Invoke? ensures Steady(i.call) {
      MadeBySteady(c, i.call);
    }
  }

  /** Nothing unwinds in a steady program. */
  lemma NothingUnwinds(sys: Sys, who: Who)
    requires Sound(sys) && SteadySys(sys)
    ensures !Unwinding(sys, who)
  {
    if Active(sys, who) {
      GetSteady(sys, who);
      GetLends(sys, who);
      var a := Get(sys, who);
      if a.child.Some? {
        var b := sys.batches[a.child.value];
        assert SoundBatch(b) && SteadyBatch(b);
        BatchSteady(b);
      } else if a.code != [] {
        assert a.code[0] in a.code;
      }
    }
  }

  lemma NewCodeSteady(sizes: nat -> nat, sys: Sys, m: Move)
    requires Sound(sys) && SteadySys(sys) && CanMove(sizes, sys, m) && !m.BatchStep?
    ensures !m.Unwind? && SteadyCode(NewCode(sizes, sys, m).code)
  {
    GetSteady(sys, m.who);
    NothingUnwinds(sys, m.who);
    var a := Get(sys, m.who);
    if m.CallInline? {
      var c := a.code[0].call;
      SteadyInline(c);
      ItemsNoRaise(c, Executed(c));
      InlineIsCallsOf(c);
      CallsOfSteady(c, InlineCode(c));
    }
  }

  lemma NewBatchSteady(a: Activity)
    requires a.code != [] && a.code[0].Invoke? && Steady(a.code[0].call)
    ensures SteadyBatch(NewBatch(a))
  {
    var c := a.code[0].call;
    InvokesAreCallsOf(c, c.conversion);
    CallsOfSteady(c, Invokes(c.conversion));
  }

  lemma SetKeepsSteady(sys: Sys, who: Who, a: Activity)
    requires SteadySys(sys) && Active(sys, who) && SteadyCode(a.code)
    ensures SteadySys(Set(sys, who, a))
  {
    if !who.Thread? {
      assert SteadyBatch(sys.batches[who.batch]);
    }
  }

  lemma CodeMoveKeepsSteady(sizes: nat -> nat, sys: Sys, m: Move)
    requires Sound(sys) && SteadySys(sys) && CanMove(sizes, sys, m) && !m.BatchStep?
    ensures !m.Unwind? && SteadySys(MoveTo(sizes, sys, m))
  {
    GetSteady(sys, m.who);
    NewCodeSteady(sizes, sys, m);
    if m.CallParallel? {
      NewBatchSteady(Get(sys, m.who));
    }
    SetKeepsSteady(sys.(batches := Batches(sizes, sys, m)), m.who, NewCode(sizes, sys, m));
  }

  lemma StepSteady(b: BatchCall, l: Label)
    requires SteadyBatch(b) && Enabled(b.Cfg(), b.state, l) && !l.StopAdmission? && |b.tasks| == |b.state.jobs|
    ensures SteadyBatch(StepBatch(b, l))
  {
    if l.BeginPull? {
      PullAndTaskCode(b.call, b.state.accepted);
      CallsOfSteady(b.call, PullCode(b.call, b.state.accepted));
    } else if l.Receive? {
      PullAndTaskCode(b.call, b.state.chan[0]);
      CallsOfSteady(b.call, TaskCode(b.call, b.state.chan[0]));
    }
    StepIsLater(b.Cfg(), b.state, l);
  }

  lemma MoveKeepsSteady(sizes: nat -> nat, sys: Sys, m: Move)
    requires Sound(sys) && SteadySys(sys) && CanMove(sizes, sys, m) && !(m.BatchStep? && m.step.StopAdmission?)
    ensures !m.Unwind? && SteadySys(MoveTo(sizes, sys, m))
  {
    match m
    case BatchStep(b, l) =>
      assert SteadyBatch(sys.batches[b]);
      StepSteady(sys.batches[b], l);
      assert MoveTo(sizes, sys, m).batches == sys.batches[b := StepBatch(sys.batches[b], l)];
    case _ => CodeMoveKeepsSteady(sizes, sys, m);
  }

  // ----- runs -----

  /** How often the moves make the call `x`. */
  ghost function TimesMade(x: Made, sizes: nat -> nat, start: Sys, moves: seq<Move>): nat
    requires SysRun(sizes, start, moves)
    decreases |moves|
  {
    if moves == [] then 0
    else
      var n := |moves| - 1;
      assert LastCanMove(sizes, start, moves);
      TimesMade(x, sizes, start, moves[..n]) + Hit(x, sizes, SysAfter(sizes, start, moves[..n]), moves[n])
  }

  ghost predicate SteadyProgram(start: Sys) {
    AtStart(start) && forall k :: 0 <= k < |start.threads| ==> SteadyCode(start.threads[k].code)
  }

  lemma SteadyIsValid(code: seq<Instr>)
    requires SteadyCode(code)
    ensures CodeValid(code)
  {
  }

  ghost predicate NoReporterFails(moves: seq<Move>) {
    forall m <- moves :: !(m.BatchStep? && m.step.StopAdmission?)
  }

  lemma {:induction false} RunKeepsSteady(sizes: nat -> nat, start: Sys, moves: seq<Move>)
    requires SteadyProgram(start) && SysRun(sizes, start, moves) && NoReporterFails(moves)
    ensures Sound(SysAfter(sizes, start, moves)) && SteadySys(SysAfter(sizes, start, moves))
    ensures forall m <- moves :: !m.Unwind?
  {
    forall k | 0 <= k < |start.threads| ensures CodeValid(start.threads[k].code) {
      SteadyIsValid(start.threads[k].code);
    }
    RunsAreBounded(sizes, start, moves);
    if moves != [] {
      var n := |moves| - 1;
      assert moves == moves[..n] + [moves[n]];
      var before := SysRunInit(sizes, start, moves);
      RunKeepsSteady(sizes, start, moves[..n]);
      MoveKeepsSteady(sizes, before, moves[n]);
    }
  }

  /** At every moment, what was made and what is left make up the program. */
  lemma {:induction false} RunKeepsAccount(x: Made, sizes: nat -> nat, start: Sys, moves: seq<Move>)
    requires SteadyProgram(start) && SysRun(sizes, start, moves) && NoReporterFails(moves)
    ensures TimesMade(x, sizes, start, moves) + SysTimes(x, SysAfter(sizes, start, moves)) == SysTimes(x, start)
  {
    if moves != [] {
      var n := |moves| - 1;
      assert moves == moves[..n] + [moves[n]];
      var before := SysRunInit(sizes, start, moves);
      RunKeepsAccount(x, sizes, start, moves[..n]);
      RunKeepsSteady(sizes, start, moves[..n]);
      match moves[n]
      case BatchStep(b, l) => BatchStepTimes(x, sizes, before, b, l);
      case m =>
        CodeMoveKeepsSteady(sizes, before, m);
        CodeMoveTimes(x, sizes, before, m);
    }
  }

  lemma JoinedTimes(x: Made, batches: seq<BatchCall>, b: BatchCall)
    requires SoundBatch(b) && SteadyBatch(b) && BatchBalanced(batches, b) && b.state.joined
    ensures BatchTimes(x, b) == 0
  {
    BatchSteady(b);
    JoinedSurvivors(b.Cfg(), b.state);
    SumZero(RunningOne, b.state.jobs);
    SumZero(a => ActivityTimes(x, a), b.tasks);
    assert Unpulled(b) == |b.call.items| && Unstarted(b) == Executed(b.call);
  }

  lemma NothingLeft(x: Made, sys: Sys)
    requires Sound(sys) && SteadySys(sys) && AllReturned(sys)
    ensures SysTimes(x, sys) == 0
  {
    forall b | 0 <= b < |sys.batches| ensures BatchTimes(x, sys.batches[b]) == 0 {
      JoinedTimes(x, sys.batches, sys.batches[b]);
    }
    SumZero(a => ActivityTimes(x, a), sys.threads);
    SumZero(b => BatchTimes(x, b), sys.batches);
  }

  /**
   A finished run of a program whose sources run to their end has made every call of its trees exactly as often as
   the trees say, from the thread context and on the path that they say, whatever the interleaving. None of them
   unwound.
   */
  lemma CallsMade(x: Made, sizes: nat -> nat, start: Sys, moves: seq<Move>)
    requires SteadyProgram(start) && SysRun(sizes, start, moves) && NoReporterFails(moves)
    requires AllReturned(SysAfter(sizes, start, moves))
    ensures TimesMade(x, sizes, start, moves) == CodesTimes(x, start.threads)
    ensures forall m <- moves :: !m.Unwind?
  {
    RunKeepsSteady(sizes, start, moves);
    RunKeepsAccount(x, sizes, start, moves);
    NothingLeft(x, SysAfter(sizes, start, moves));
  }
}
