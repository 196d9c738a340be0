/**
 Many batches at once: external threads, pools with a fixed number of threads and a FIFO queue of jobs,
 and user code that starts further batches from sources and tasks. Each batch is a `Protocol` machine.
 */
module PoolSystem {
  import opened Basics
  import opened Protocol
  import opened Sources
  import opened Outcomes
  import opened Guard
  import opened Routing

  // ----- states -----

  /**
   What user code still has to do: calls to make, guards of sequential calls to drop, and the unwinding with
   which a sequential call ends.
   */
  datatype Instr = Invoke(call: Call) | Leave(pool: nat) | Raise

  /** User code in progress on a thread, and the parallel batch it is waiting for, if any. */
  datatype Activity = Activity(ctx: Context, code: seq<Instr>, child: Option<nat>) {
    predicate Done() {
      code == [] && child.None?
    }
  }

  /** One parallel call: its protocol state, the source's code, and the code of the task each job runs. */
  datatype BatchCall = BatchCall(
    call: Call,
    state: State,
    registered: seq<nat>,  // on the calling thread, while the call lasts
    source: Activity,
    tasks: seq<Activity>)
  {
    function Pool(): nat {
      call.executor.pool
    }

    function Src(): Source {
      Effective(call)
    }

    function Cfg(): Config {
      call.executor.ConfigFor(call.count)
    }
  }

  /** A spawned job that no pool thread has taken yet. */
  datatype Ticket = Ticket(pool: nat, batch: nat, job: nat)

  datatype Sys = Sys(threads: seq<Activity>, batches: seq<BatchCall>, queue: seq<Ticket>)

  /** The owner of an activity: an external thread, a batch's source, or the task of a batch's job. */
  datatype Who = Thread(thread: nat) | SourceOf(batch: nat) | TaskOf(batch: nat, job: nat)

  datatype Move =
    | CallInline(who: Who)
    | CallParallel(who: Who)
    | LeaveGuard(who: Who)
    | Resume(who: Who)
    | Unwind(who: Who, caught: nat)
    | BatchStep(batch: nat, step: Label)

  predicate RunsCode(p: Producer) {
    p.Converting? || p.Pulling?
  }

  ghost predicate Active(sys: Sys, who: Who) {
    match who
    case Thread(k) => k < |sys.threads|
    case SourceOf(b) => b < |sys.batches| && RunsCode(sys.batches[b].state.producer)
    case TaskOf(b, w) =>
      && b < |sys.batches| && w < |sys.batches[b].tasks|
      && w < |sys.batches[b].state.jobs| && sys.batches[b].state.jobs[w].Running?
  }

  ghost function Get(sys: Sys, who: Who): Activity
    requires Active(sys, who)
  {
    match who
    case Thread(k) => sys.threads[k]
    case SourceOf(b) => sys.batches[b].source
    case TaskOf(b, w) => sys.batches[b].tasks[w]
  }

  ghost function Set(sys: Sys, who: Who, a: Activity): Sys
    requires Active(sys, who)
  {
    match who
    case Thread(k) => sys.(threads := sys.threads[k := a])
    case SourceOf(b) => sys.(batches := sys.batches[b := sys.batches[b].(source := a)])
    case TaskOf(b, w) => sys.(batches := sys.batches[b := sys.batches[b].(tasks := sys.batches[b].tasks[w := a])])
  }

  // ----- user code -----

  ghost function Invokes(calls: seq<Call>): (r: seq<Instr>)
    ensures |r| == |calls| && forall k :: 0 <= k < |r| ==> r[k] == Invoke(calls[k])
  {
    seq(|calls|, k requires 0 <= k < |calls| => Invoke(calls[k]))
  }

  ghost function PullCode(c: Call, i: nat): seq<Instr> {
    if i < |c.items| then Invokes(c.items[i].pull) else []
  }

  ghost function TaskCode(c: Call, i: nat): seq<Instr> {
    if i < |c.items| then Invokes(c.items[i].task) else []
  }

  ghost function ItemsCode(c: Call, n: nat): seq<Instr> {
    if n == 0 then [] else ItemsCode(c, n - 1) + PullCode(c, n - 1) + TaskCode(c, n - 1)
  }

  /** What a sequential call runs: the items that the sequential executor executes, and how it then ends. */
  ghost function InlineCode(c: Call): seq<Instr> {
    Invokes(c.conversion)
    + if !Effective(c).converts then [Raise]
      else
        var e := SequentialFrom(Effective(c), c.count, c.executor.limit, 0);
        ItemsCode(c, e.done) + EndCode(c, e)
  }

  /** A run that the policy did not stop pulls once more, and may unwind in that pull or in the task it yields. */
  ghost function EndCode(c: Call, e: SequentialEnd): seq<Instr> {
    if !e.exhausted && !e.excess && !e.unwound then []
    else if !e.unwound then PullCode(c, e.done)
    else PullCode(c, e.done) + (if Effective(c).at(e.done).Item? then TaskCode(c, e.done) else []) + [Raise]
  }

  /** Unwinding discards the calls that are left and drops the guards. */
  ghost function Guards(code: seq<Instr>): seq<Instr> {
    if code == [] then []
    else Guards(code[..|code| - 1]) + if code[|code| - 1].Leave? then [code[|code| - 1]] else []
  }

  // ----- moves -----

  /** The calling thread is about to make a call. */
  ghost predicate AtCall(sys: Sys, who: Who) {
    Active(sys, who) &&
    var a := Get(sys, who);
    a.child.None? && a.code != [] && a.code[0].Invoke?
  }

  ghost predicate AtSequentialCall(sys: Sys, who: Who) {
    AtCall(sys, who) &&
    var a := Get(sys, who);
    RunsSequentially(a.ctx, a.code[0].call.executor, a.code[0].call.count)
  }

  /** The batch that an activity waits for has joined. */
  ghost predicate ChildJoined(sys: Sys, who: Who) {
    Active(sys, who) &&
    var a := Get(sys, who);
    a.child.Some? && a.child.value < |sys.batches| && sys.batches[a.child.value].state.joined
  }

  function StartedOne(j: Job): nat { if j.Idle? || j.Running? then 1 else 0 }

  ghost function StartedOn(pool: nat, b: BatchCall): nat {
    if b.Pool() == pool then Sum(StartedOne, b.state.jobs) else 0
  }

  /** How many threads of the pool are occupied by started jobs. */
  ghost function Busy(sys: Sys, pool: nat): nat {
    Sum((b: BatchCall) => StartedOn(pool, b), sys.batches)
  }

  /** The oldest waiting job of its pool. */
  ghost predicate Oldest(queue: seq<Ticket>, k: nat) {
    k < |queue| && forall j :: 0 <= j < k ==> queue[j].pool != queue[k].pool
  }

  /** What a step of one batch needs from the rest of the system. */
  ghost predicate Permitted(sizes: nat -> nat, sys: Sys, b: nat, l: Label)
    requires b < |sys.batches|
  {
    var batch := sys.batches[b];
    match l
    case StartJob(w) =>
      Busy(sys, batch.Pool()) < sizes(batch.Pool())
      && exists k: nat :: Oldest(sys.queue, k) && sys.queue[k] == Ticket(batch.Pool(), b, w)
    case Finish(w, _) => w < |batch.tasks| && batch.tasks[w].Done()
    case Convert | ConvertUnwind => batch.source.Done()
    case PullAccept | PullExcess | PullDiscard | PullNone | PullUnwind => batch.source.Done()
    case _ => true
  }

  /** Something unwinds into the code: a joined batch that re-raises, or a sequential call. */
  ghost predicate Unwinding(sys: Sys, who: Who) {
    Active(sys, who) &&
    var a := Get(sys, who);
    if a.child.Some? then ChildJoined(sys, who) && Reraises(sys.batches[a.child.value])
    else a.code != [] && a.code[0].Raise?
  }

  ghost predicate Reraises(b: BatchCall) {
    ParallelVerdict(b.Cfg(), b.state).Reraised?
  }

  ghost predicate CanMove(sizes: nat -> nat, sys: Sys, m: Move) {
    match m
    case CallInline(who) => AtSequentialCall(sys, who)
    case CallParallel(who) => AtCall(sys, who) && !AtSequentialCall(sys, who)
    case LeaveGuard(who) =>
      Active(sys, who) && Get(sys, who).child.None? && Get(sys, who).code != [] && Get(sys, who).code[0].Leave?
    case Resume(who) => ChildJoined(sys, who) && !Reraises(sys.batches[Get(sys, who).child.value])
    case Unwind(who, caught) =>
      Unwinding(sys, who) && caught <= |Get(sys, who).code| && (Get(sys, who).child.None? ==> caught > 0)
    case BatchStep(b, l) =>
      b < |sys.batches| && |sys.batches[b].tasks| == |sys.batches[b].state.jobs|
      && CanStep(sys.batches[b].Cfg(), sys.batches[b].Src(), sys.batches[b].state, l) && Permitted(sizes, sys, b, l)
  }

  /**
   The call that comes next takes its guard, if its pool is not registered, around `body` and the wait for
   `child`, and drops it before the code that is left.
   */
  ghost function Guarded(a: Activity, body: seq<Instr>, child: Option<nat>): Activity
    requires a.code != [] && a.code[0].Invoke?
  {
    var pool := a.code[0].call.executor.pool;
    var guard := if pool in a.ctx.active then [] else [Leave(pool)];
    Activity(Context(a.ctx.worker, Entered(a.ctx.active, pool)), body + guard + a.code[1..], child)
  }

  /** The guard of a call is dropped. */
  ghost function Left(a: Activity): Activity
    requires a.code != [] && a.code[0].Leave?
  {
    Activity(Context(a.ctx.worker, Dropped(a.ctx.active, a.code[0].pool)), a.code[1..], a.child)
  }

  /** Unwinding discards what is left up to the point where it is caught, but drops the guards on the way. */
  ghost function Caught(a: Activity, caught: nat): Activity
    requires caught <= |a.code|
  {
    Activity(a.ctx, Guards(a.code[..caught]) + a.code[caught..], None)
  }

  /** A joined batch hands its thread's registry back to the code that waited for it. */
  ghost function HandedBack(sys: Sys, a: Activity): Activity
    requires a.child.Some? ==> a.child.value < |sys.batches|
  {
    if a.child.None? then a
    else a.(ctx := a.ctx.(active := sys.batches[a.child.value].source.ctx.active), child := None)
  }

  /** A parallel call: its source runs on the calling thread, with the thread's registry. */
  ghost function NewBatch(a: Activity): BatchCall
    requires a.code != [] && a.code[0].Invoke?
  {
    var c := a.code[0].call;
    var registered := Entered(a.ctx.active, c.executor.pool);
    BatchCall(c, INIT, registered, Activity(Context(a.ctx.worker, registered), Invokes(c.conversion), None), [])
  }

  /** A protocol step of a batch, with the user code that the step starts. */
  ghost function StepBatch(b: BatchCall, l: Label): BatchCall
    requires Enabled(b.Cfg(), b.state, l) && |b.tasks| == |b.state.jobs|
  {
    var after := b.(state := Apply(b.Cfg(), b.state, l));
    match l
    case BeginPull => after.(source := b.source.(code := PullCode(b.call, b.state.accepted)))
    case SpawnJob => after.(tasks := b.tasks + [Activity(Context(Some(b.Pool()), []), [], None)])
    case Receive(w) =>
      var task := Activity(Context(Some(b.Pool()), []), TaskCode(b.call, b.state.chan[0]), None);
      after.(tasks := b.tasks[w := task])
    case _ => after
  }

  ghost function StepQueue(queue: seq<Ticket>, b: nat, batch: BatchCall, l: Label): seq<Ticket> {
    match l
    case SpawnJob => queue + [Ticket(batch.Pool(), b, |batch.state.jobs|)]
    case StartJob(w) =>
      if k: nat :| Oldest(queue, k) && queue[k] == Ticket(batch.Pool(), b, w) then RemoveAt(queue, k) else queue
    case _ => queue
  }

  /** What the thread that moves has left to do. */
  ghost function NewCode(sizes: nat -> nat, sys: Sys, m: Move): Activity
    requires CanMove(sizes, sys, m) && !m.BatchStep?
  {
    var a := Get(sys, m.who);
    match m
    case CallInline(_) => Guarded(a, InlineCode(a.code[0].call), None)
    case CallParallel(_) => Guarded(a, [], Some(|sys.batches|))
    case LeaveGuard(_) => Left(a)
    case Resume(_) => HandedBack(sys, a)
    case Unwind(_, caught) => Caught(HandedBack(sys, a), caught)
  }

  ghost function Batches(sizes: nat -> nat, sys: Sys, m: Move): seq<BatchCall>
    requires CanMove(sizes, sys, m) && !m.BatchStep?
  {
    if m.CallParallel? then sys.batches + [NewBatch(Get(sys, m.who))] else sys.batches
  }

  ghost function MoveTo(sizes: nat -> nat, sys: Sys, m: Move): Sys
    requires CanMove(sizes, sys, m)
  {
    match m
    case BatchStep(b, l) =>
      var batch := sys.batches[b];
      sys.(batches := sys.batches[b := StepBatch(batch, l)], queue := StepQueue(sys.queue, b, batch, l))
    case _ => Set(sys.(batches := Batches(sizes, sys, m)), m.who, NewCode(sizes, sys, m))
  }

  // ----- runs -----

  ghost predicate SysRun(sizes: nat -> nat, start: Sys, moves: seq<Move>)
    decreases |moves|, 1
  {
    moves == [] || LastCanMove(sizes, start, moves)
  }

  ghost predicate LastCanMove(sizes: nat -> nat, start: Sys, moves: seq<Move>)
    requires moves != []
    decreases |moves|, 0
  {
    var n := |moves| - 1;
    SysRun(sizes, start, moves[..n]) && CanMove(sizes, SysAfter(sizes, start, moves[..n]), moves[n])
  }

  ghost function SysAfter(sizes: nat -> nat, start: Sys, moves: seq<Move>): Sys
    requires SysRun(sizes, start, moves)
    decreases |moves|, 2
  {
    if moves == [] then start else LastMoved(sizes, start, moves)
  }

  ghost function LastMoved(sizes: nat -> nat, start: Sys, moves: seq<Move>): Sys
    requires moves != [] && LastCanMove(sizes, start, moves)
    decreases |moves|, 1
  {
    var n := |moves| - 1;
    MoveTo(sizes, SysAfter(sizes, start, moves[..n]), moves[n])
  }

  /** A run without its last move. */
  lemma SysRunInit(sizes: nat -> nat, start: Sys, moves: seq<Move>) returns (before: Sys)
    requires moves != [] && SysRun(sizes, start, moves)
    ensures
      var n := |moves| - 1;
      && SysRun(sizes, start, moves[..n]) && before == SysAfter(sizes, start, moves[..n])
      && CanMove(sizes, before, moves[n]) && SysAfter(sizes, start, moves) == MoveTo(sizes, before, moves[n])
  {
    assert LastCanMove(sizes, start, moves);
    before := SysAfter(sizes, start, moves[..|moves| - 1]);
    assert SysAfter(sizes, start, moves) == LastMoved(sizes, start, moves);
  }

  /** External threads with code to run, and nothing started yet. */
  ghost predicate AtStart(start: Sys) {
    && start.batches == [] && start.queue == []
    && forall k :: 0 <= k < |start.threads| ==> start.threads[k].child.None?
  }

  // ----- the code that calls run -----

  ghost predicate NoLeave(code: seq<Instr>) {
    forall i <- code :: !i.Leave?
  }

  /** The code drops no guards, and makes only calls that user code of `c` makes. */
  ghost predicate CallsOf(c: Call, code: seq<Instr>) {
    NoLeave(code) && forall i <- code :: CallOf(c, i)
  }

  ghost predicate CallOf(c: Call, i: Instr) {
    i.Invoke? ==> MadeBy(c, i.call)
  }

  lemma CallsOfConcat(c: Call, a: seq<Instr>, b: seq<Instr>)
    requires CallsOf(c, a) && CallsOf(c, b)
    ensures CallsOf(c, a + b)
  {
  }

  lemma InvokesAreCallsOf(c: Call, calls: seq<Call>)
    requires forall d <- calls :: MadeBy(c, d)
    ensures CallsOf(c, Invokes(calls))
  {
    forall i | i in Invokes(calls) ensures i.Invoke? && CallOf(c, i) {
      var k :| 0 <= k < |calls| && i == Invoke(calls[k]);
      assert calls[k] in calls;
    }
  }

  lemma PullAndTaskCode(c: Call, i: nat)
    ensures CallsOf(c, PullCode(c, i)) && CallsOf(c, TaskCode(c, i))
  {
    if i < |c.items| {
      var item := c.items[i];
      assert item in c.items;
      forall d | Makes(item, d) ensures MadeBy(c, d) {
      }
      InvokesAreCallsOf(c, item.pull);
      InvokesAreCallsOf(c, item.task);
    }
  }

  lemma {:induction false} ItemsAreCallsOf(c: Call, n: nat)
    ensures CallsOf(c, ItemsCode(c, n))
  {
    if n > 0 {
      ItemsAreCallsOf(c, n - 1);
      PullAndTaskCode(c, n - 1);
      ThreeAreCallsOf(c, ItemsCode(c, n - 1), PullCode(c, n - 1), TaskCode(c, n - 1));
    }
  }

  lemma ThreeAreCallsOf(c: Call, before: seq<Instr>, pull: seq<Instr>, task: seq<Instr>)
    requires CallsOf(c, before) && CallsOf(c, pull) && CallsOf(c, task)
    ensures CallsOf(c, before + pull + task)
  {
    CallsOfConcat(c, before, pull);
    CallsOfConcat(c, before + pull, task);
  }

  lemma EndIsCallsOf(c: Call, e: SequentialEnd)
    ensures CallsOf(c, EndCode(c, e))
  {
    PullAndTaskCode(c, e.done);
    assert CallsOf(c, [Raise]);
  }

  lemma InlineIsCallsOf(c: Call)
    ensures CallsOf(c, InlineCode(c))
  {
    InvokesAreCallsOf(c, c.conversion);
    var e := SequentialFrom(Effective(c), c.count, c.executor.limit, 0);
    ItemsAreCallsOf(c, e.done);
    EndIsCallsOf(c, e);
    CallsOfConcat(c, ItemsCode(c, e.done), EndCode(c, e));
    assert CallsOf(c, [Raise]);
  }

  lemma {:induction false} GuardsOnly(code: seq<Instr>)
    ensures |Guards(code)| <= |code|
    ensures forall i <- Guards(code) :: i.Leave? && i in code
  {
    if code != [] {
      GuardsOnly(code[..|code| - 1]);
    }
  }

  // ----- what every move keeps of the batches -----

  /** Batches are only added, and a batch stays the call it was. */
  ghost predicate SameCalls(before: seq<BatchCall>, after: seq<BatchCall>) {
    && |before| <= |after|
    && forall b :: 0 <= b < |before| ==> after[b].call == before[b].call && after[b].registered == before[b].registered
  }

  lemma SetKeepsCalls(sys: Sys, who: Who, a: Activity)
    requires Active(sys, who)
    ensures |Set(sys, who, a).batches| == |sys.batches| && SameCalls(sys.batches, Set(sys, who, a).batches)
  {
  }
}
