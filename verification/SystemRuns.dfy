/**
 Runs of the whole system, whatever its calls: they are bounded, each batch in them is a run of the single-batch
 protocol over its own source, and so every batch that joins has drained and reports what it should.
 */
module SystemRuns {
  import opened Basics
  import opened Protocol
  import opened Sources
  import opened Guarantees
  import opened Outcomes
  import opened Routing
  import opened Reports
  import opened PoolSystem
  import opened SystemRegistries

  // ----- every batch keeps its protocol -----

  ghost predicate CodeValid(code: seq<Instr>) {
    forall i <- code :: i.Invoke? ==> ValidCall(i.call)
  }

  /** The batch is in a reachable state of its protocol, and its loops run code only while they run a task. */
  ghost predicate SoundBatch(b: BatchCall) {
    && ValidCall(b.call) && b.Cfg().Valid() && Inv(b.Cfg(), b.state) && Agrees(b.Src(), b.state)
    && CodeValid(b.source.code)
    && |b.tasks| == |b.state.jobs|
    && (forall w :: 0 <= w < |b.tasks| ==> CodeValid(b.tasks[w].code))
    && (forall w :: 0 <= w < |b.tasks| && !b.state.jobs[w].Running? ==> b.tasks[w].Done())
  }

  ghost predicate Sound(sys: Sys) {
    Balanced(sys) && SoundParts(sys)
  }

  ghost predicate SoundParts(sys: Sys) {
    && (forall k :: 0 <= k < |sys.threads| ==> CodeValid(sys.threads[k].code))
    && (forall b :: 0 <= b < |sys.batches| ==> SoundBatch(sys.batches[b]))
  }

  lemma CallsOfValid(c: Call, code: seq<Instr>)
    requires ValidCall(c) && CallsOf(c, code)
    ensures CodeValid(code)
  {
  }

  lemma GetValid(sys: Sys, who: Who)
    requires Sound(sys) && Active(sys, who)
    ensures CodeValid(Get(sys, who).code)
  {
    if !who.Thread? {
      assert SoundBatch(sys.batches[who.batch]);
    }
  }

  lemma NewCodeValid(sizes: nat -> nat, sys: Sys, m: Move)
    requires Sound(sys) && CanMove(sizes, sys, m) && !m.BatchStep?
    ensures CodeValid(NewCode(sizes, sys, m).code)
  {
    GetValid(sys, m.who);
    var a := Get(sys, m.who);
    match m
    case CallInline(_) =>
      InlineIsCallsOf(a.code[0].call);
      CallsOfValid(a.code[0].call, InlineCode(a.code[0].call));
    case Unwind(_, caught) => GuardsOnly(a.code[..caught]);
    case _ =>
  }

  lemma NewBatchSound(a: Activity)
    requires a.code != [] && a.code[0].Invoke? && ValidCall(a.code[0].call)
    requires !RunsSequentially(a.ctx, a.code[0].call.executor, a.code[0].call.count)
    ensures SoundBatch(NewBatch(a))
  {
    var c := a.code[0].call;
    ParallelRunsHaveWorkers(a.ctx, c.executor, c.count);
    ReachableInv(c.executor.ConfigFor(c.count), []);
    InvokesAreCallsOf(c, c.conversion);
    CallsOfValid(c, Invokes(c.conversion));
  }

  lemma CodeMoveKeepsSound(sizes: nat -> nat, sys: Sys, m: Move)
    requires Sound(sys) && CanMove(sizes, sys, m) && !m.BatchStep?
    ensures Sound(MoveTo(sizes, sys, m))
  {
    MoveKeepsBalance(sizes, sys, m);
    GetValid(sys, m.who);
    NewCodeValid(sizes, sys, m);
    if m.CallParallel? {
      NewBatchSound(Get(sys, m.who));
    }
    SetKeepsSound(sys.(batches := Batches(sizes, sys, m)), m.who, NewCode(sizes, sys, m));
  }

  lemma SetKeepsSound(sys: Sys, who: Who, a: Activity)
    requires SoundParts(sys) && Active(sys, who) && CodeValid(a.code)
    ensures SoundParts(Set(sys, who, a))
  {
    if !who.Thread? {
      assert SoundBatch(sys.batches[who.batch]);
    }
  }

  lemma StepJobCount(cfg: Config, s: State, l: Label)
    requires Enabled(cfg, s, l)
    ensures |Apply(cfg, s, l).jobs| == |s.jobs| + if l.SpawnJob? then 1 else 0
  {
  }

  lemma TasksMatchJobs(b: BatchCall, l: Label)
    requires Enabled(b.Cfg(), b.state, l) && |b.tasks| == |b.state.jobs|
    ensures |StepBatch(b, l).tasks| == |StepBatch(b, l).state.jobs|
  {
    StepJobCount(b.Cfg(), b.state, l);
    assert StepBatch(b, l).state == Apply(b.Cfg(), b.state, l);
  }

  lemma StepTask(b: BatchCall, l: Label, w: nat)
    requires Enabled(b.Cfg(), b.state, l) && |b.tasks| == |b.state.jobs|
    requires w < |b.tasks| && !b.state.jobs[w].Running? ==> b.tasks[w].Done()
    requires l.Finish? ==> b.tasks[l.job].Done()
    requires w < |StepBatch(b, l).tasks| && w < |StepBatch(b, l).state.jobs|
    ensures !StepBatch(b, l).state.jobs[w].Running? ==> StepBatch(b, l).tasks[w].Done()
  {
    var t := StepBatch(b, l);
    assert t.state == Apply(b.Cfg(), b.state, l);
    if l != Receive(w) && w < |b.tasks| {
      assert t.tasks[w] == b.tasks[w];
      assert (l.Finish? && l.job == w) || (t.state.jobs[w].Running? <==> b.state.jobs[w].Running?);
    }
  }

  lemma StepTaskValid(b: BatchCall, l: Label, w: nat)
    requires ValidCall(b.call) && Enabled(b.Cfg(), b.state, l) && |b.tasks| == |b.state.jobs|
    requires w < |b.tasks| ==> CodeValid(b.tasks[w].code)
    requires w < |StepBatch(b, l).tasks|
    ensures CodeValid(StepBatch(b, l).tasks[w].code)
  {
    if l == Receive(w) {
      PullAndTaskCode(b.call, b.state.chan[0]);
      CallsOfValid(b.call, TaskCode(b.call, b.state.chan[0]));
    }
  }

  lemma StepSound(b: BatchCall, l: Label)
    requires SoundBatch(b) && CanStep(b.Cfg(), b.Src(), b.state, l)
    requires l.Finish? ==> b.tasks[l.job].Done()
    ensures SoundBatch(StepBatch(b, l))
  {
    var t := StepBatch(b, l);
    StepKeepsInv(b.Cfg(), b.state, l);
    StepKeepsAgrees(b.Cfg(), b.Src(), b.state, l);
    TasksMatchJobs(b, l);
    if l.BeginPull? {
      PullAndTaskCode(b.call, b.state.accepted);
      CallsOfValid(b.call, PullCode(b.call, b.state.accepted));
    }
    forall w | 0 <= w < |t.tasks|
      ensures CodeValid(t.tasks[w].code) && (!t.state.jobs[w].Running? ==> t.tasks[w].Done())
    {
      StepTask(b, l, w);
      StepTaskValid(b, l, w);
    }
  }

  lemma BatchStepKeepsSound(sizes: nat -> nat, sys: Sys, b: nat, l: Label)
    requires Sound(sys) && CanMove(sizes, sys, BatchStep(b, l))
    ensures Sound(MoveTo(sizes, sys, BatchStep(b, l)))
  {
    MoveKeepsBalance(sizes, sys, BatchStep(b, l));
    PermittedCode(sizes, sys, b, l);
    StepSound(sys.batches[b], l);
    assert MoveTo(sizes, sys, BatchStep(b, l)).batches == sys.batches[b := StepBatch(sys.batches[b], l)];
  }

  lemma MoveKeepsSound(sizes: nat -> nat, sys: Sys, m: Move)
    requires Sound(sys) && CanMove(sizes, sys, m)
    ensures Sound(MoveTo(sizes, sys, m))
  {
    match m
    case BatchStep(b, l) => BatchStepKeepsSound(sizes, sys, b, l);
    case _ => CodeMoveKeepsSound(sizes, sys, m);
  }

  // ----- the work that is left -----

  ghost function CallSize(c: Call): nat
    decreases c
  {
    8 * c.count + 14 + CallsSize(c.conversion) + PullSize(c.items, 0) + TaskSize(c.items, 0)
  }

  ghost function CallsSize(calls: seq<Call>): nat
    decreases calls
  {
    if calls == [] then 0 else CallsSize(calls[..|calls| - 1]) + CallSize(calls[|calls| - 1])
  }

  /** The calls in the pulls of the items from `k` on. */
  ghost function PullSize(items: seq<ItemCalls>, k: nat): nat
    decreases items, |items| - k
  {
    if k >= |items| then 0 else CallsSize(items[k].pull) + PullSize(items, k + 1)
  }

  ghost function TaskSize(items: seq<ItemCalls>, k: nat): nat
    decreases items, |items| - k
  {
    if k >= |items| then 0 else CallsSize(items[k].task) + TaskSize(items, k + 1)
  }

  ghost function InstrSize(i: Instr): nat {
    if i.Invoke? then CallSize(i.call) else 1
  }

  ghost function ActivitySize(a: Activity): nat {
    Sum(InstrSize, a.code) + if a.child.Some? then 1 else 0
  }

  /** The first item whose pull has not begun. */
  ghost function Unpulled(b: BatchCall): nat {
    match b.state.producer
    case Converting | Spawning | Checking | Holding(_) => b.state.accepted
    case Pulling => b.state.accepted + 1
    case _ => |b.call.items|
  }

  /** The first item whose task has not begun. */
  ghost function Unstarted(b: BatchCall): nat {
    if Dequeued(b.state) >= 0 then Dequeued(b.state) else 0
  }

  ghost function BatchSize(b: BatchCall): nat {
    Measure(b.Cfg(), b.state) + ActivitySize(b.source) + Sum(ActivitySize, b.tasks)
    + PullSize(b.call.items, Unpulled(b)) + TaskSize(b.call.items, Unstarted(b))
  }

  ghost function SysSize(sys: Sys): nat {
    Sum(ActivitySize, sys.threads) + Sum(BatchSize, sys.batches)
  }

  lemma {:induction false} InvokesSize(calls: seq<Call>)
    ensures Sum(InstrSize, Invokes(calls)) == CallsSize(calls)
  {
    if calls != [] {
      var n := |calls| - 1;
      InvokesSize(calls[..n]);
      assert Invokes(calls)[..n] == Invokes(calls[..n]);
    }
  }

  lemma {:induction false} PullSizeShrinks(items: seq<ItemCalls>, k: nat, n: nat)
    requires k <= n
    ensures PullSize(items, n) <= PullSize(items, k)
    decreases n - k
  {
    if k < n {
      PullSizeShrinks(items, k + 1, n);
    }
  }

  /** The calls in the items from `k` on. */
  ghost function ItemsLeft(c: Call, k: nat): nat {
    PullSize(c.items, k) + TaskSize(c.items, k)
  }

  ghost predicate Telescopes(f: Instr -> nat, left: nat -> nat, c: Call, n: nat) {
    forall i: nat :: i < n ==> Sum(f, PullCode(c, i)) + Sum(f, TaskCode(c, i)) + left(i + 1) == left(i)
  }

  /** What the first `n` items weigh is what they take off the rest. */
  lemma {:induction false} ItemsCodeSum(f: Instr -> nat, left: nat -> nat, c: Call, n: nat)
    requires Telescopes(f, left, c, n)
    ensures Sum(f, ItemsCode(c, n)) + left(n) == left(0)
  {
    if n > 0 {
      var before, pull, task := ItemsCode(c, n - 1), PullCode(c, n - 1), TaskCode(c, n - 1);
      ItemsCodeSum(f, left, c, n - 1);
      SumConcat(f, before, pull);
      SumConcat(f, before + pull, task);
      assert left(n - 1 + 1) == left(n);
    }
  }

  /** What the first `n` items call, and what the others would. */
  lemma ItemsCodeSize(c: Call, n: nat)
    ensures Sum(InstrSize, ItemsCode(c, n)) + ItemsLeft(c, n) == ItemsLeft(c, 0)
  {
    var left := (k: nat) => ItemsLeft(c, k);
    forall i: nat ensures Sum(InstrSize, PullCode(c, i)) + Sum(InstrSize, TaskCode(c, i)) + left(i + 1) == left(i) {
      PullCodeSize(c, i);
    }
    ItemsCodeSum(InstrSize, left, c, n);
  }

  lemma RaiseSize(code: seq<Instr>)
    ensures Sum(InstrSize, code + [Raise]) == Sum(InstrSize, code) + 1
  {
    SumAppend(InstrSize, code, Raise);
  }

  lemma EndCodeSize(c: Call, e: SequentialEnd)
    ensures Sum(InstrSize, EndCode(c, e)) <= 1 + PullSize(c.items, e.done) + TaskSize(c.items, e.done)
  {
    var pull, task := PullCode(c, e.done), TaskCode(c, e.done);
    PullCodeSize(c, e.done);
    SumConcat(InstrSize, pull, task);
    RaiseSize(pull + task);
    RaiseSize(pull);
    assert pull + [] == pull;
  }

  lemma InlineCodeSize(c: Call)
    ensures Sum(InstrSize, InlineCode(c)) + 13 <= CallSize(c)
  {
    InvokesSize(c.conversion);
    if Effective(c).converts {
      var e := SequentialFrom(Effective(c), c.count, c.executor.limit, 0);
      ItemsCodeSize(c, e.done);
      EndCodeSize(c, e);
      SumConcat(InstrSize, ItemsCode(c, e.done), EndCode(c, e));
      SumConcat(InstrSize, Invokes(c.conversion), ItemsCode(c, e.done) + EndCode(c, e));
    } else {
      RaiseSize(Invokes(c.conversion));
    }
  }

  lemma {:induction false} GuardsSize(code: seq<Instr>)
    ensures Sum(InstrSize, Guards(code)) <= Sum(InstrSize, code)
  {
    if code != [] {
      var init := code[..|code| - 1];
      GuardsSize(init);
      if code[|code| - 1].Leave? {
        SumAppend(InstrSize, Guards(init), code[|code| - 1]);
      } else {
        assert Guards(init) + [] == Guards(init);
      }
    }
  }

  lemma HeadSize(code: seq<Instr>)
    requires code != []
    ensures Sum(InstrSize, code) == InstrSize(code[0]) + Sum(InstrSize, code[1..])
  {
    assert code == [code[0]] + code[1..];
    SumConcat(InstrSize, [code[0]], code[1..]);
    SumAppend(InstrSize, [], code[0]);
    assert [] + [code[0]] == [code[0]];
  }

  // ----- every move lowers it -----

  lemma SourceSize(b: BatchCall, a: Activity)
    ensures BatchSize(b.(source := a)) + ActivitySize(b.source) == BatchSize(b) + ActivitySize(a)
  {
  }

  lemma TaskActivitySize(b: BatchCall, w: nat, a: Activity)
    requires w < |b.tasks|
    ensures BatchSize(b.(tasks := b.tasks[w := a])) + ActivitySize(b.tasks[w]) == BatchSize(b) + ActivitySize(a)
  {
    SumUpdate(ActivitySize, b.tasks, w, a);
  }

  lemma SetSize(sys: Sys, who: Who, a: Activity)
    requires Active(sys, who)
    ensures SysSize(Set(sys, who, a)) + ActivitySize(Get(sys, who)) == SysSize(sys) + ActivitySize(a)
  {
    match who
    case Thread(k) => SumUpdate(ActivitySize, sys.threads, k, a);
    case SourceOf(b) =>
      SourceSize(sys.batches[b], a);
      SumUpdate(BatchSize, sys.batches, b, sys.batches[b].(source := a));
    case TaskOf(b, w) =>
      TaskActivitySize(sys.batches[b], w, a);
      SumUpdate(BatchSize, sys.batches, b, sys.batches[b].(tasks := sys.batches[b].tasks[w := a]));
  }

  /** The call at the head makes room for `body`, a guard and a wait. */
  lemma GuardedSize(a: Activity, body: seq<Instr>, child: Option<nat>)
    requires a.code != [] && a.code[0].Invoke? && a.child.None?
    ensures
      ActivitySize(Guarded(a, body, child)) + CallSize(a.code[0].call)
      <= ActivitySize(a) + Sum(InstrSize, body) + 1 + if child.Some? then 1 else 0
  {
    var pool := a.code[0].call.executor.pool;
    var guard := if pool in a.ctx.active then [] else [Leave(pool)];
    HeadSize(a.code);
    SumConcat(InstrSize, body + guard, a.code[1..]);
    SumConcat(InstrSize, body, guard);
    if guard != [] {
      SumAppend(InstrSize, [], guard[0]);
      assert [] + [guard[0]] == guard;
    }
  }

  lemma CaughtSize(a: Activity, caught: nat)
    requires caught <= |a.code| && (a.child.None? ==> caught > 0 && a.code[0].Raise?)
    ensures ActivitySize(Caught(a.(child := None), caught)) < ActivitySize(a)
  {
    var head, rest := a.code[..caught], a.code[caught..];
    assert a.code == head + rest;
    SumConcat(InstrSize, head, rest);
    SumConcat(InstrSize, Guards(head), rest);
    GuardsSize(head);
    if a.child.None? {
      RaiseDropped(head);
    }
  }

  /** An unwinding instruction is never kept. */
  lemma {:induction false} RaiseDropped(code: seq<Instr>)
    requires code != [] && code[0].Raise?
    ensures Sum(InstrSize, Guards(code)) < Sum(InstrSize, code)
  {
    var n := |code| - 1;
    if n == 0 {
      assert code[..0] == [] && code == [] + [Raise];
      RaiseSize([]);
      assert Guards([]) == [] && Guards(code) == [] + [];
    } else {
      RaiseDropped(code[..n]);
      if code[n].Leave? {
        SumAppend(InstrSize, Guards(code[..n]), code[n]);
      } else {
        assert Guards(code[..n]) + [] == Guards(code[..n]);
      }
    }
  }

  lemma NewBatchSize(a: Activity)
    requires a.code != [] && a.code[0].Invoke?
    ensures BatchSize(NewBatch(a)) + 3 <= CallSize(a.code[0].call)
  {
    InvokesSize(a.code[0].call.conversion);
  }

  lemma PullCodeSize(c: Call, i: nat)
    ensures Sum(InstrSize, PullCode(c, i)) + PullSize(c.items, i + 1) == PullSize(c.items, i)
    ensures Sum(InstrSize, TaskCode(c, i)) + TaskSize(c.items, i + 1) == TaskSize(c.items, i)
  {
    if i < |c.items| {
      InvokesSize(c.items[i].pull);
      InvokesSize(c.items[i].task);
    }
  }

  /** The next pull to begin only advances, except past the last item when pulling is over. */
  lemma StepUnpulled(b: BatchCall, l: Label)
    requires Inv(b.Cfg(), b.state) && Enabled(b.Cfg(), b.state, l) && |b.tasks| == |b.state.jobs|
    ensures
      var t := StepBatch(b, l);
      && (l.BeginPull? ==> Unpulled(b) == b.state.accepted && Unpulled(t) == b.state.accepted + 1)
      && (Unpulled(b) <= Unpulled(t) || |b.call.items| <= Unpulled(t))
  {
    assert StepBatch(b, l).state == Apply(b.Cfg(), b.state, l);
  }

  /** The code that a step starts comes out of what was reserved for it. */
  lemma StepSourceSize(b: BatchCall, l: Label)
    requires Inv(b.Cfg(), b.state) && Enabled(b.Cfg(), b.state, l) && |b.tasks| == |b.state.jobs|
    requires l.BeginPull? ==> b.source.Done()
    ensures
      var t := StepBatch(b, l);
      ActivitySize(t.source) + PullSize(b.call.items, Unpulled(t))
      <= ActivitySize(b.source) + PullSize(b.call.items, Unpulled(b))
  {
    var t := StepBatch(b, l);
    StepUnpulled(b, l);
    if l.BeginPull? {
      PullCodeSize(b.call, b.state.accepted);
    } else {
      assert t.source == b.source;
      if Unpulled(b) <= Unpulled(t) {
        PullSizeShrinks(b.call.items, Unpulled(b), Unpulled(t));
      }
    }
  }

  lemma StepUnstarted(b: BatchCall, l: Label)
    requires Dispatch(b.state) && Enabled(b.Cfg(), b.state, l) && |b.tasks| == |b.state.jobs|
    ensures Unstarted(StepBatch(b, l)) == Unstarted(b) + if l.Receive? then 1 else 0
    ensures l.Receive? ==> b.state.chan[0] == Unstarted(b)
  {
    StepDequeues(b.Cfg(), b.state, l);
    assert StepBatch(b, l).state == Apply(b.Cfg(), b.state, l);
  }

  lemma ReceiveTasksSize(b: BatchCall, w: nat)
    requires Dispatch(b.state) && Enabled(b.Cfg(), b.state, Receive(w)) && |b.tasks| == |b.state.jobs|
    requires b.tasks[w].Done()
    ensures
      var i := Unstarted(b);
      Sum(ActivitySize, StepBatch(b, Receive(w)).tasks) + TaskSize(b.call.items, i + 1)
      == Sum(ActivitySize, b.tasks) + TaskSize(b.call.items, i)
  {
    var i := Unstarted(b);
    StepUnstarted(b, Receive(w));
    PullCodeSize(b.call, i);
    SumUpdate(ActivitySize, b.tasks, w, Activity(Context(Some(b.Pool()), []), TaskCode(b.call, i), None));
  }

  lemma StepTasksSize(b: BatchCall, l: Label)
    requires Dispatch(b.state) && Enabled(b.Cfg(), b.state, l) && |b.tasks| == |b.state.jobs|
    requires l.Receive? ==> b.tasks[l.job].Done()
    ensures
      var t := StepBatch(b, l);
      Sum(ActivitySize, t.tasks) + TaskSize(b.call.items, Unstarted(t))
      == Sum(ActivitySize, b.tasks) + TaskSize(b.call.items, Unstarted(b))
  {
    var t := StepBatch(b, l);
    StepUnstarted(b, l);
    if l.SpawnJob? {
      SumAppend(ActivitySize, b.tasks, t.tasks[|b.tasks|]);
    } else if l.Receive? {
      ReceiveTasksSize(b, l.job);
    } else {
      assert t.tasks == b.tasks;
    }
  }

  lemma StepBatchSize(b: BatchCall, l: Label)
    requires b.Cfg().Valid() && Inv(b.Cfg(), b.state) && Enabled(b.Cfg(), b.state, l) && |b.tasks| == |b.state.jobs|
    requires l.BeginPull? ==> b.source.Done()
    requires l.Receive? ==> b.tasks[l.job].Done()
    ensures BatchSize(StepBatch(b, l)) < BatchSize(b)
  {
    StepSourceSize(b, l);
    StepTasksSize(b, l);
    StepDecreases(b.Cfg(), b.state, l);
  }

  /** Every move of a thread's code makes it smaller, by more than the batch that the move starts. */
  lemma NewCodeSize(sizes: nat -> nat, sys: Sys, m: Move)
    requires Balanced(sys) && CanMove(sizes, sys, m) && !m.BatchStep?
    ensures
      ActivitySize(NewCode(sizes, sys, m)) + (if m.CallParallel? then BatchSize(NewBatch(Get(sys, m.who))) else 0)
      < ActivitySize(Get(sys, m.who))
  {
    var a := Get(sys, m.who);
    match m
    case CallInline(_) =>
      InlineCodeSize(a.code[0].call);
      GuardedSize(a, InlineCode(a.code[0].call), None);
    case CallParallel(_) =>
      NewBatchSize(a);
      GuardedSize(a, [], Some(|sys.batches|));
    case LeaveGuard(_) => HeadSize(a.code);
    case Resume(who) => HandedBackSame(sys, who);
    case Unwind(who, caught) =>
      HandedBackSame(sys, who);
      CaughtSize(a, caught);
  }

  lemma CodeMoveLowersSize(sizes: nat -> nat, sys: Sys, m: Move)
    requires Balanced(sys) && CanMove(sizes, sys, m) && !m.BatchStep?
    ensures SysSize(MoveTo(sizes, sys, m)) < SysSize(sys)
  {
    NewCodeSize(sizes, sys, m);
    if m.CallParallel? {
      SumAppend(BatchSize, sys.batches, NewBatch(Get(sys, m.who)));
    }
    SetSize(sys.(batches := Batches(sizes, sys, m)), m.who, NewCode(sizes, sys, m));
  }

  lemma BatchStepLowersSize(sizes: nat -> nat, sys: Sys, b: nat, l: Label)
    requires Sound(sys) && CanMove(sizes, sys, BatchStep(b, l))
    ensures SysSize(MoveTo(sizes, sys, BatchStep(b, l))) < SysSize(sys)
  {
    var batch := sys.batches[b];
    assert BatchBalanced(sys.batches, batch) && SoundBatch(batch);
    StepBatchSize(batch, l);
    SumUpdate(BatchSize, sys.batches, b, StepBatch(batch, l));
  }

  /** Every move lowers the size of what is left to do, whatever the calls. */
  lemma MoveLowersSize(sizes: nat -> nat, sys: Sys, m: Move)
    requires Sound(sys) && CanMove(sizes, sys, m)
    ensures SysSize(MoveTo(sizes, sys, m)) < SysSize(sys)
  {
    match m
    case BatchStep(b, l) => BatchStepLowersSize(sizes, sys, b, l);
    case _ => CodeMoveLowersSize(sizes, sys, m);
  }

  /** Every run is bounded by the size of the program, whatever the calls, and keeps every batch to its protocol. */
  lemma {:induction false} RunsAreBounded(sizes: nat -> nat, start: Sys, moves: seq<Move>)
    requires AtStart(start) && SysRun(sizes, start, moves)
    requires forall k :: 0 <= k < |start.threads| ==> CodeValid(start.threads[k].code)
    ensures Sound(SysAfter(sizes, start, moves))
    ensures |moves| + SysSize(SysAfter(sizes, start, moves)) <= SysSize(start)
  {
    if moves != [] {
      var n := |moves| - 1;
      var before := SysRunInit(sizes, start, moves);
      RunsAreBounded(sizes, start, moves[..n]);
      MoveKeepsSound(sizes, before, moves[n]);
      MoveLowersSize(sizes, before, moves[n]);
    }
  }

  // ----- the pools' threads -----

  /** No pool has more started jobs than threads. */
  ghost predicate WithinPools(sizes: nat -> nat, sys: Sys) {
    forall pool: nat :: Busy(sys, pool) <= sizes(pool)
  }

  lemma SetKeepsBusy(sys: Sys, who: Who, a: Activity, pool: nat)
    requires Active(sys, who)
    ensures Busy(Set(sys, who, a), pool) == Busy(sys, pool)
  {
    var f := (b: BatchCall) => StartedOn(pool, b);
    match who
    case Thread(_) =>
    case SourceOf(b) => SumUpdate(f, sys.batches, b, sys.batches[b].(source := a));
    case TaskOf(b, w) => SumUpdate(f, sys.batches, b, sys.batches[b].(tasks := sys.batches[b].tasks[w := a]));
  }

  lemma CodeMoveKeepsBusy(sizes: nat -> nat, sys: Sys, m: Move, pool: nat)
    requires CanMove(sizes, sys, m) && !m.BatchStep?
    ensures Busy(MoveTo(sizes, sys, m), pool) == Busy(sys, pool)
  {
    var more := sys.(batches := Batches(sizes, sys, m));
    if m.CallParallel? {
      SumAppend((b: BatchCall) => StartedOn(pool, b), sys.batches, NewBatch(Get(sys, m.who)));
    }
    SetKeepsBusy(more, m.who, NewCode(sizes, sys, m), pool);
  }

  /** Only the start of a job takes a thread. */
  lemma StepStarts(cfg: Config, s: State, l: Label)
    requires Enabled(cfg, s, l)
    ensures Sum(StartedOne, Apply(cfg, s, l).jobs) <= Sum(StartedOne, s.jobs) + if l.StartJob? then 1 else 0
  {
    if OnJob(l) {
      SumUpdate(StartedOne, s.jobs, l.job, Apply(cfg, s, l).jobs[l.job]);
    } else if l.SpawnJob? {
      SumAppend(StartedOne, s.jobs, Queued);
    }
  }

  lemma BatchStepKeepsPools(sizes: nat -> nat, sys: Sys, b: nat, l: Label, pool: nat)
    requires CanMove(sizes, sys, BatchStep(b, l)) && Busy(sys, pool) <= sizes(pool)
    ensures Busy(MoveTo(sizes, sys, BatchStep(b, l)), pool) <= sizes(pool)
  {
    var batch := sys.batches[b];
    var t := StepBatch(batch, l);
    StepStarts(batch.Cfg(), batch.state, l);
    assert t.call == batch.call && t.state == Apply(batch.Cfg(), batch.state, l);
    SumUpdate((c: BatchCall) => StartedOn(pool, c), sys.batches, b, t);
  }

  /** In every reachable state no pool has more started jobs than threads. */
  lemma {:induction false} PoolsAreBounded(sizes: nat -> nat, start: Sys, moves: seq<Move>)
    requires AtStart(start) && SysRun(sizes, start, moves)
    ensures WithinPools(sizes, SysAfter(sizes, start, moves))
  {
    if moves != [] {
      var n := |moves| - 1;
      var before := SysRunInit(sizes, start, moves);
      PoolsAreBounded(sizes, start, moves[..n]);
      forall pool: nat ensures Busy(SysAfter(sizes, start, moves), pool) <= sizes(pool) {
        match moves[n]
        case BatchStep(b, l) => BatchStepKeepsPools(sizes, before, b, l, pool);
        case m => CodeMoveKeepsBusy(sizes, before, m, pool);
      }
    }
  }

  /** A batch has as many loops as its pool has threads, or as the count if that is less; fewer only while spawning. */
  lemma BatchesHaveWorkers(sizes: nat -> nat, start: Sys, moves: seq<Move>, b: nat)
    requires AtStart(start) && SysRun(sizes, start, moves) && b < |SysAfter(sizes, start, moves).batches|
    requires forall k :: 0 <= k < |start.threads| ==> CodeValid(start.threads[k].code)
    ensures
      var batch := SysAfter(sizes, start, moves).batches[b];
      var threads, count := batch.call.executor.poolThreads, batch.call.count;
      var p := batch.state.producer;
      && |batch.state.jobs| <= threads && |batch.state.jobs| <= count
      && (p.Checking? || p.Pulling? || p.Holding? || p.Ending? || p.Closed? || p.Failed? ==>
            |batch.state.jobs| == if threads < count then threads else count)
  {
    RunsAreBounded(sizes, start, moves);
    assert SoundBatch(SysAfter(sizes, start, moves).batches[b]);
  }

  // ----- calls are synchronous -----

  /** The code waits for the batch. */
  ghost predicate Awaits(sys: Sys, who: Who, b: nat) {
    Active(sys, who) && Get(sys, who).child == Some(b)
  }

  /** Every batch that has not joined is being waited for. */
  ghost predicate Awaited(sys: Sys) {
    forall b: nat :: b < |sys.batches| && !sys.batches[b].state.joined ==> exists who :: Awaits(sys, who, b)
  }

  lemma CodeMoveKeepsWaiting(sizes: nat -> nat, sys: Sys, m: Move, who: Who, b: nat)
    requires CanMove(sizes, sys, m) && !m.BatchStep? && Awaits(sys, who, b)
    requires b < |sys.batches| && !sys.batches[b].state.joined
    ensures Awaits(MoveTo(sizes, sys, m), who, b)
  {
    assert who != m.who;
    GetAfterSet(sys.(batches := Batches(sizes, sys, m)), m.who, NewCode(sizes, sys, m), who);
  }

  lemma GetAfterSet(sys: Sys, who: Who, a: Activity, other: Who)
    requires Active(sys, who) && Active(sys, other) && who != other
    ensures Active(Set(sys, who, a), other) && Get(Set(sys, who, a), other) == Get(sys, other)
  {
  }

  lemma CodeMoveKeepsAwaited(sizes: nat -> nat, sys: Sys, m: Move)
    requires Awaited(sys) && CanMove(sizes, sys, m) && !m.BatchStep?
    ensures Awaited(MoveTo(sizes, sys, m))
  {
    var t := MoveTo(sizes, sys, m);
    BatchesGrow(sizes, sys, m);
    forall b: nat | b < |t.batches| && !t.batches[b].state.joined ensures exists who :: Awaits(t, who, b) {
      if b < |sys.batches| {
        var who :| Awaits(sys, who, b);
        CodeMoveKeepsWaiting(sizes, sys, m, who, b);
      } else {
        assert Awaits(t, m.who, b);
      }
    }
  }

  /** Code that waits is not done, so its batch does not step past it. */
  lemma BatchStepKeepsWaiting(sizes: nat -> nat, sys: Sys, b: nat, l: Label, who: Who, awaited: nat)
    requires Sound(sys) && CanMove(sizes, sys, BatchStep(b, l)) && Awaits(sys, who, awaited)
    ensures Awaits(MoveTo(sizes, sys, BatchStep(b, l)), who, awaited)
  {
    var t := StepBatch(sys.batches[b], l);
    assert MoveTo(sizes, sys, BatchStep(b, l)).batches == sys.batches[b := t];
    if !who.Thread? && who.batch == b {
      OwnStepKeepsWaiting(sizes, sys, b, l, who);
    }
  }

  lemma OwnStepKeepsWaiting(sizes: nat -> nat, sys: Sys, b: nat, l: Label, who: Who)
    requires Sound(sys) && CanMove(sizes, sys, BatchStep(b, l)) && Active(sys, who) && Get(sys, who).child.Some?
    requires !who.Thread? && who.batch == b
    ensures
      var t := sys.(batches := sys.batches[b := StepBatch(sys.batches[b], l)]);
      Active(t, who) && Get(t, who) == Get(sys, who)
  {
    PermittedCode(sizes, sys, b, l);
    assert SoundBatch(sys.batches[b]) && BatchBalanced(sys.batches, sys.batches[b]);
    StaysWaiting(sys.batches, sys.batches[b], l, who);
  }

  lemma StaysWaiting(batches: seq<BatchCall>, b: BatchCall, l: Label, who: Who)
    requires SoundBatch(b) && BatchBalanced(batches, b) && Enabled(b.Cfg(), b.state, l)
    requires RunsCode(b.state.producer) && !RunsCode(StepBatch(b, l).state.producer) ==> b.source.Done()
    requires l.Finish? ==> b.tasks[l.job].Done()
    requires who.TaskOf? ==> who.job < |b.tasks|
    ensures
      var t := StepBatch(b, l);
      && (who.SourceOf? && !b.source.Done() ==> RunsCode(t.state.producer) && t.source == b.source)
      && (who.TaskOf? && !b.tasks[who.job].Done() ==>
            && who.job < |t.tasks| && who.job < |t.state.jobs| && t.state.jobs[who.job].Running?
            && t.tasks[who.job] == b.tasks[who.job])
  {
    assert StepBatch(b, l).state == Apply(b.Cfg(), b.state, l);
  }

  lemma BatchStepKeepsAwaited(sizes: nat -> nat, sys: Sys, b: nat, l: Label)
    requires Sound(sys) && Awaited(sys) && CanMove(sizes, sys, BatchStep(b, l))
    ensures Awaited(MoveTo(sizes, sys, BatchStep(b, l)))
  {
    var t := MoveTo(sizes, sys, BatchStep(b, l));
    BatchesGrow(sizes, sys, BatchStep(b, l));
    forall c: nat | c < |t.batches| && !t.batches[c].state.joined ensures exists who :: Awaits(t, who, c) {
      var who :| Awaits(sys, who, c);
      BatchStepKeepsWaiting(sizes, sys, b, l, who, c);
    }
  }

  /** A call returns only after its batch has joined: in every reachable state every other batch is waited for. */
  lemma {:induction false} CallsAreSynchronous(sizes: nat -> nat, start: Sys, moves: seq<Move>)
    requires AtStart(start) && SysRun(sizes, start, moves)
    requires forall k :: 0 <= k < |start.threads| ==> CodeValid(start.threads[k].code)
    ensures Awaited(SysAfter(sizes, start, moves))
  {
    if moves != [] {
      var n := |moves| - 1;
      var before := SysRunInit(sizes, start, moves);
      CallsAreSynchronous(sizes, start, moves[..n]);
      RunsAreBounded(sizes, start, moves[..n]);
      match moves[n]
      case BatchStep(b, l) => BatchStepKeepsAwaited(sizes, before, b, l);
      case m => CodeMoveKeepsAwaited(sizes, before, m);
    }
  }

  /** After a batch that lost a loop or whose source unwound, or a sequential call that re-raises, code unwinds. */
  lemma ReraisesUnwind(sizes: nat -> nat, sys: Sys, m: Move)
    requires CanMove(sizes, sys, m) && !m.BatchStep?
    ensures
      var a := Get(sys, m.who);
      && (a.child.Some? ==>
            && sys.batches[a.child.value].state.joined
            && var s := sys.batches[a.child.value].state;
            (m.Unwind? <==> AnyDied(s) || s.producer.Unwound?) && (m.Resume? <==> !AnyDied(s) && !s.producer.Unwound?))
      && (a.child.None? ==> a.code != [] && (m.Unwind? <==> a.code[0] == Raise))
  {
  }

  lemma {:induction false} ItemsNoRaise(c: Call, n: nat)
    ensures forall i <- ItemsCode(c, n) :: !i.Raise?
  {
    if n > 0 {
      var before, pull, task := ItemsCode(c, n - 1), PullCode(c, n - 1), TaskCode(c, n - 1);
      ItemsNoRaise(c, n - 1);
      assert forall i <- pull :: !i.Raise?;
      assert forall i <- task :: !i.Raise?;
      assert ItemsCode(c, n) == before + pull + task;
    }
  }

  /** A call that runs in place unwinds if and only if its verdict is to re-raise. */
  lemma InlineRaises(c: Call)
    ensures Raise in InlineCode(c) <==> SequentialVerdict(Effective(c), c.count, c.executor.limit) == Reraised
  {
    var e := SequentialFrom(Effective(c), c.count, c.executor.limit, 0);
    ItemsNoRaise(c, e.done);
    var n := |InlineCode(c)| - 1;
    if !Effective(c).converts || e.unwound {
      assert InlineCode(c)[n] == Raise;
    }
  }

  // ----- projection onto one batch -----

  /** The protocol steps of batch `b` among the moves. */
  ghost function StepsOf(moves: seq<Move>, b: nat): seq<Label> {
    if moves == [] then []
    else
      var m := moves[|moves| - 1];
      StepsOf(moves[..|moves| - 1], b) + if m.BatchStep? && m.batch == b then [m.step] else []
  }

  lemma {:induction false} NoStepsBeforeStart(sizes: nat -> nat, start: Sys, moves: seq<Move>, b: nat)
    requires SysRun(sizes, start, moves) && b >= |SysAfter(sizes, start, moves).batches|
    ensures StepsOf(moves, b) == []
  {
    if moves != [] {
      var n := |moves| - 1;
      var before := SysRunInit(sizes, start, moves);
      BatchesGrow(sizes, before, moves[n]);
      NoStepsBeforeStart(sizes, start, moves[..n], b);
    }
  }

  /** A move steps one batch by its protocol, or starts one, or leaves the states of all batches alone. */
  lemma BatchesGrow(sizes: nat -> nat, sys: Sys, m: Move)
    requires CanMove(sizes, sys, m)
    ensures
      var t := MoveTo(sizes, sys, m);
      && |sys.batches| <= |t.batches|
      && (forall b: nat :: b < |sys.batches| ==>
            && t.batches[b].call == sys.batches[b].call
            && t.batches[b].state ==
                 if m.BatchStep? && m.batch == b then Apply(sys.batches[b].Cfg(), sys.batches[b].state, m.step)
                 else sys.batches[b].state)
      && (forall b: nat :: |sys.batches| <= b < |t.batches| ==> t.batches[b].state == INIT && !m.BatchStep?)
  {
    match m
    case BatchStep(b, l) =>
      var t := StepBatch(sys.batches[b], l);
      assert t.call == sys.batches[b].call && t.state == Apply(sys.batches[b].Cfg(), sys.batches[b].state, l);
      assert MoveTo(sizes, sys, m).batches == sys.batches[b := t];
    case _ => SetKeepsStates(sys.(batches := Batches(sizes, sys, m)), m.who, NewCode(sizes, sys, m));
  }

  lemma SetKeepsStates(sys: Sys, who: Who, a: Activity)
    requires Active(sys, who)
    ensures |Set(sys, who, a).batches| == |sys.batches|
    ensures forall b: nat :: b < |sys.batches| ==>
      var after := Set(sys, who, a).batches[b];
      after.call == sys.batches[b].call && after.state == sys.batches[b].state
  {
  }

  /**
   Batch independence: whatever the other batches do, a batch's steps in a run of the system are a run of
   the single-batch protocol over the batch's own source, and lead to exactly its state.
   */
  lemma {:induction false} BatchIsOwnRun(sizes: nat -> nat, start: Sys, moves: seq<Move>, b: nat)
    requires start.batches == [] && SysRun(sizes, start, moves) && b < |SysAfter(sizes, start, moves).batches|
    ensures
      var batch := SysAfter(sizes, start, moves).batches[b];
      Traced(batch.Cfg(), batch.Src(), StepsOf(moves, b), batch.state)
  {
    if moves != [] {
      var n := |moves| - 1;
      var before := SysRunInit(sizes, start, moves);
      BatchesGrow(sizes, before, moves[n]);
      if b < |before.batches| {
        BatchIsOwnRun(sizes, start, moves[..n], b);
        var steps := StepsOf(moves[..n], b);
        if moves[n].BatchStep? && moves[n].batch == b {
          ExtendTrace(before.batches[b].Cfg(), before.batches[b].Src(), steps, before.batches[b].state, moves[n].step);
        } else {
          assert steps + [] == steps;
        }
      } else {
        NoStepsBeforeStart(sizes, start, moves[..n], b);
      }
    }
  }

  /** Every batch that has joined, nested or not, has executed each of its accepted tasks exactly once. */
  lemma JoinedBatchesDrained(sizes: nat -> nat, start: Sys, moves: seq<Move>, b: nat)
    requires AtStart(start) && SysRun(sizes, start, moves)
    requires forall k :: 0 <= k < |start.threads| ==> CodeValid(start.threads[k].code)
    requires b < |SysAfter(sizes, start, moves).batches| && SysAfter(sizes, start, moves).batches[b].state.joined
    ensures
      var s := SysAfter(sizes, start, moves).batches[b].state;
      !AnyDied(s) ==>
        && Drained(s) && |s.log| <= s.pulled <= |s.log| + 1
        && forall j, k :: 0 <= j < k < |s.log| ==> s.log[j].index != s.log[k].index
  {
    RunsAreBounded(sizes, start, moves);
    BatchIsOwnRun(sizes, start, moves, b);
    var batch := SysAfter(sizes, start, moves).batches[b];
    assert SoundBatch(batch);
    if !AnyDied(batch.state) {
      ExactlyOnceDrain(batch.Cfg(), StepsOf(moves, b));
    }
  }

  /**
   Every batch that has joined, nested or not and whatever else is still running, reports what the sequential
   executor reports on the batch's own source, unless the failure policy stops the sequential executor there or
   the batch's reporter failed. In any case what it reports is true of its source, count and limit, and it never
   reports a scheduler error. Its loops number as many as the pool has threads, or as the count if that is less.
   */
  lemma JoinedBatchesReport(sizes: nat -> nat, start: Sys, moves: seq<Move>, b: nat)
    requires AtStart(start) && SysRun(sizes, start, moves)
    requires forall k :: 0 <= k < |start.threads| ==> CodeValid(start.threads[k].code)
    requires b < |SysAfter(sizes, start, moves).batches| && SysAfter(sizes, start, moves).batches[b].state.joined
    ensures
      var batch := SysAfter(sizes, start, moves).batches[b];
      var c := batch.call;
      var v := ParallelVerdict(batch.Cfg(), batch.state);
      && !v.ScheduleFailed? && !v.IncompleteSchedule?
      && Truthful(c, true, batch.state.reporterStopped, v)
      && (batch.state.jobs != [] ==>
            |batch.state.jobs| == if c.executor.poolThreads < c.count then c.executor.poolThreads else c.count)
      && (batch.state.jobs == [] ==> !c.source.converts)
      && (!batch.state.reporterStopped && !PolicyStops(Effective(c), c.count, c.executor.limit) ==>
            v == SequentialVerdict(Effective(c), c.count, c.executor.limit))
  {
    RunsAreBounded(sizes, start, moves);
    BatchIsOwnRun(sizes, start, moves, b);
    var batch := SysAfter(sizes, start, moves).batches[b];
    assert SoundBatch(batch);
    SchedulerErrorsUnreachable(batch.Cfg(), StepsOf(moves, b));
    var v := ParallelVerdict(batch.Cfg(), batch.state);
    assert EndsWith(batch.Cfg(), batch.Src(), batch.state.reporterStopped, StepsOf(moves, b), v);
    ParallelTruthful(batch.call, batch.state.reporterStopped, v);
    if !PolicyStops(Effective(batch.call), batch.call.count, batch.call.executor.limit) {
      UnstoppedRefinesSequential(batch.Cfg(), batch.Src(), StepsOf(moves, b));
    }
  }
}
