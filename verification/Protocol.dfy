/**
 The parallel path of one batch as a state machine: the producer that spawns the worker loops
 and feeds the bounded channel, the worker loops that drain it, and the scope that joins them.
 Every label is one atomic step, so a sequence of labels is one interleaving.
 */
module Protocol {
  import opened Basics

  /** How running one task ends. `RunThenUnwind` is a runnable whose destruction panics after it ran. */
  datatype Behaviour = Succeed(value: int) | Fail(error: int) | Panic | RunThenUnwind

  /** One task that a worker ran to its end. */
  datatype Entry = Entry(index: nat, end: Behaviour)

  /** `workers` is both the number of worker loops and the channel capacity. */
  datatype Config = Config(workers: nat, count: nat, limit: Option<nat>) {
    predicate Valid() {
      && 1 <= workers <= count
      && (limit.Some? ==> limit.value >= 1)
    }
  }

  /**
   Where the calling thread is. `Ending` means that the source returned `None` and the sender is
   about to be dropped; `Failed` means that `send` handed the token back.
   */
  datatype Producer =
    | Converting
    | Spawning
    | Checking
    | Pulling
    | Holding(token: nat)
    | Ending
    | Closed
    | Failed(lost: nat)
    | Unwound
  {
    /** The producer has left the scope closure; its sender is gone. */
    predicate Over() {
      Closed? || Failed? || Unwound?
    }
  }

  /** A worker loop: waiting for a pool thread, waiting in `recv`, running a task, returned, unwound. */
  datatype Job = Queued | Idle | Running(token: nat) | Exited | Died {
    predicate Over() {
      Exited? || Died?
    }
  }

  datatype State = State(
    producer: Producer,
    receiver: bool,  // the original receiver is alive
    chan: seq<nat>,
    jobs: seq<Job>,
    pulled: nat,
    accepted: nat,
    exhausted: bool,
    excess: bool,
    reporterStopped: bool,
    log: seq<Entry>,  // tasks that ended, in completion order
    joined: bool)

  datatype Label =
    | Convert
    | ConvertUnwind
    | SpawnJob
    | DropReceiver
    | StopCheck
    | BeginPull
    | PullAccept
    | PullExcess
    | PullDiscard
    | PullNone
    | PullUnwind
    | Send
    | SendFail
    | CloseSender
    | StartJob(job: nat)
    | Receive(job: nat)
    | Finish(job: nat, end: Behaviour)
    | ExitJob(job: nat)
    | StopAdmission
    | Join

  const INIT := State(Converting, false, [], [], 0, 0, false, false, false, [], false)

  // ----- the steps -----

  function RunningOne(j: Job): nat { if j.Running? then 1 else 0 }

  function DiedOne(j: Job): nat { if j.Died? then 1 else 0 }

  function FailureOne(e: Entry): nat { if e.end.Fail? || e.end.Panic? then 1 else 0 }

  function UnwindOne(e: Entry): nat { if e.end.RunThenUnwind? then 1 else 0 }

  /** Task errors and captured panics; both count towards the failure limit. */
  function Failures(log: seq<Entry>): nat {
    Sum(FailureOne, log)
  }

  predicate Tripped(cfg: Config, log: seq<Entry>) {
    cfg.limit.Some? && Failures(log) >= cfg.limit.value
  }

  /** Admission is stopped, by the failure policy or by a failed reporter. */
  predicate Stopped(cfg: Config, s: State) {
    s.reporterStopped || Tripped(cfg, s.log)
  }

  predicate SenderAlive(s: State) {
    s.producer.Spawning? || s.producer.Checking? || s.producer.Pulling? || s.producer.Holding? || s.producer.Ending?
  }

  predicate ReceiversAlive(s: State) {
    s.receiver || exists w :: 0 <= w < |s.jobs| && !s.jobs[w].Over()
  }

  predicate Enabled(cfg: Config, s: State, l: Label) {
    !s.joined &&
    match l
    case Convert => s.producer.Converting?
    case ConvertUnwind => s.producer.Converting?
    case SpawnJob => s.producer.Spawning? && |s.jobs| < cfg.workers
    case DropReceiver => s.producer.Spawning? && |s.jobs| == cfg.workers
    case StopCheck => s.producer.Checking? && Stopped(cfg, s)
    case BeginPull => s.producer.Checking? && !Stopped(cfg, s)
    case PullAccept => s.producer.Pulling? && s.accepted < cfg.count
    case PullExcess => s.producer.Pulling? && s.accepted == cfg.count
    case PullDiscard => s.producer.Pulling? && Stopped(cfg, s)
    case PullNone => s.producer.Pulling?
    case PullUnwind => s.producer.Pulling?
    case Send => s.producer.Holding? && |s.chan| < cfg.workers && ReceiversAlive(s)
    case SendFail => s.producer.Holding? && !ReceiversAlive(s)
    case CloseSender => s.producer.Ending?
    case StartJob(w) => w < |s.jobs| && s.jobs[w].Queued?
    case Receive(w) => w < |s.jobs| && s.jobs[w].Idle? && s.chan != []
    case Finish(w, _) => w < |s.jobs| && s.jobs[w].Running?
    case ExitJob(w) => w < |s.jobs| && s.jobs[w].Idle? && s.chan == [] && !SenderAlive(s)
    case StopAdmission => !s.reporterStopped
    case Join => s.producer.Over() && forall w :: 0 <= w < |s.jobs| ==> s.jobs[w].Over()
  }

  function Apply(cfg: Config, s: State, l: Label): State
    requires Enabled(cfg, s, l)
  {
    match l
    case Convert => s.(producer := Spawning, receiver := true)
    case ConvertUnwind => s.(producer := Unwound)
    case SpawnJob => s.(jobs := s.jobs + [Queued])
    case DropReceiver => s.(receiver := false, producer := Checking)
    case StopCheck => s.(producer := Ending)
    case BeginPull => s.(producer := Pulling)
    case PullAccept => s.(producer := Holding(s.accepted), pulled := s.pulled + 1, accepted := s.accepted + 1)
    case PullExcess => s.(producer := Ending, pulled := s.pulled + 1, excess := true)
    case PullDiscard => s.(producer := Ending, pulled := s.pulled + 1)
    case PullNone => s.(producer := Ending, exhausted := true)
    case PullUnwind => s.(producer := Unwound)
    case Send => s.(producer := Checking, chan := s.chan + [s.producer.token])
    case SendFail => s.(producer := Failed(s.producer.token))
    case CloseSender => s.(producer := Closed)
    case StartJob(w) => s.(jobs := s.jobs[w := Idle])
    case Receive(w) => s.(jobs := s.jobs[w := Running(s.chan[0])], chan := s.chan[1..])
    case Finish(w, end) =>
      s.(jobs := s.jobs[w := if end.RunThenUnwind? then Died else Idle],
         log := s.log + [Entry(s.jobs[w].token, end)])
    case ExitJob(w) => s.(jobs := s.jobs[w := Exited])
    case StopAdmission => s.(reporterStopped := true)
    case Join => s.(joined := true)
  }

  /** The labels can be taken one after another from the initial state. */
  ghost predicate Run(cfg: Config, labels: seq<Label>)
    decreases |labels|, 1
  {
    labels == [] || LastEnabled(cfg, labels)
  }

  /** Apart from `Run`, so that assuming a run does not unfold its last step; likewise `LastApplied`. */
  ghost predicate LastEnabled(cfg: Config, labels: seq<Label>)
    requires labels != []
    decreases |labels|, 0
  {
    var n := |labels| - 1;
    Run(cfg, labels[..n]) && Enabled(cfg, After(cfg, labels[..n]), labels[n])
  }

  ghost function After(cfg: Config, labels: seq<Label>): State
    requires Run(cfg, labels)
    decreases |labels|, 2
  {
    if labels == [] then INIT else LastApplied(cfg, labels)
  }

  ghost function LastApplied(cfg: Config, labels: seq<Label>): State
    requires labels != [] && LastEnabled(cfg, labels)
    decreases |labels|, 1
  {
    var n := |labels| - 1;
    Apply(cfg, After(cfg, labels[..n]), labels[n])
  }

  /** A run extended by a step. */
  lemma RunAppend(cfg: Config, labels: seq<Label>, l: Label)
    requires Run(cfg, labels) && Enabled(cfg, After(cfg, labels), l)
    ensures Run(cfg, labels + [l]) && After(cfg, labels + [l]) == Apply(cfg, After(cfg, labels), l)
  {
    assert (labels + [l])[..|labels|] == labels;
    assert LastEnabled(cfg, labels + [l]);
    assert After(cfg, labels + [l]) == LastApplied(cfg, labels + [l]);
  }

  /** A run without its last step. */
  lemma RunInit(cfg: Config, labels: seq<Label>) returns (before: State)
    requires labels != [] && Run(cfg, labels)
    ensures
      var n := |labels| - 1;
      && Run(cfg, labels[..n]) && before == After(cfg, labels[..n]) && Enabled(cfg, before, labels[n])
      && After(cfg, labels) == Apply(cfg, before, labels[n])
  {
    assert LastEnabled(cfg, labels);
    before := After(cfg, labels[..|labels| - 1]);
    assert After(cfg, labels) == LastApplied(cfg, labels);
  }

  // ----- the invariant -----

  /** Accepted tokens that have left the producer's hand and the channel. */
  function InHand(s: State): nat {
    if s.producer.Holding? || s.producer.Failed? then 1 else 0
  }

  function Dequeued(s: State): int {
    s.accepted - |s.chan| - InHand(s)
  }

  predicate LogHas(log: seq<Entry>, index: nat) {
    exists k :: 0 <= k < |log| && log[k].index == index
  }

  ghost predicate Shape(cfg: Config, s: State) {
    var early := s.producer.Converting? || (s.producer.Unwound? && s.jobs == []);
    && |s.jobs| <= cfg.workers
    && (early ==> s.jobs == [] && !s.receiver && s.accepted == 0)
    && (s.producer.Spawning? ==> s.receiver && s.accepted == 0)
    && (!early && !s.producer.Spawning? ==> |s.jobs| == cfg.workers && !s.receiver)
    && |s.chan| <= cfg.workers
    && s.accepted <= cfg.count
    && (s.producer.Holding? ==> s.accepted > 0 && s.producer.token == s.accepted - 1)
    && (s.producer.Failed? ==> s.accepted > 0 && s.producer.lost == s.accepted - 1)
    && (s.joined ==> s.producer.Over() && forall w :: 0 <= w < |s.jobs| ==> s.jobs[w].Over())
  }

  /** Dequeued indexes are a prefix, the channel holds the next segment, the hand the one after it. */
  ghost predicate Dispatch(s: State) {
    && Dequeued(s) >= 0
    && (forall k :: 0 <= k < |s.chan| ==> s.chan[k] == Dequeued(s) + k)
    && |s.log| + Sum(RunningOne, s.jobs) == Dequeued(s)
  }

  /** No token is in two places. */
  ghost predicate Exclusive(s: State) {
    && (forall k :: 0 <= k < |s.log| ==> s.log[k].index < Dequeued(s))
    && (forall j, k :: 0 <= j < k < |s.log| ==> s.log[j].index != s.log[k].index)
    && (forall w :: 0 <= w < |s.jobs| && s.jobs[w].Running? ==>
          s.jobs[w].token < Dequeued(s) && !LogHas(s.log, s.jobs[w].token))
    && (forall v, w :: 0 <= v < w < |s.jobs| && s.jobs[v].Running? && s.jobs[w].Running? ==>
          s.jobs[v].token != s.jobs[w].token)
  }

  /** When worker loops may be over. */
  ghost predicate WorkerEnds(s: State) {
    && (forall w :: 0 <= w < |s.jobs| && s.jobs[w].Exited? ==> s.chan == [] && !SenderAlive(s) && !s.producer.Failed?)
    && (s.producer.Failed? ==> forall w :: 0 <= w < |s.jobs| ==> s.jobs[w].Died?)
  }

  /** Every unwound worker loop is accounted for by the task that unwound it. */
  ghost predicate Deaths(s: State) {
    Sum(DiedOne, s.jobs) == Sum(UnwindOne, s.log)
  }

  /** What the admission flags record about the source. */
  ghost predicate Flags(cfg: Config, s: State) {
    && s.accepted <= s.pulled <= s.accepted + 1
    && (s.pulled > s.accepted ==> s.producer.Ending? || s.producer.Closed?)
    && (s.excess ==> s.accepted == cfg.count && s.pulled == cfg.count + 1)
    && (s.exhausted ==> !s.excess && s.pulled == s.accepted)
    && (s.exhausted || s.excess ==> s.producer.Ending? || s.producer.Closed?)
    && (s.producer.Ending? || s.producer.Closed? ==> s.exhausted || s.excess || Stopped(cfg, s))
  }

  function PullSlot(s: State): nat {
    if s.producer.Pulling? then 1 else 0
  }

  /** After `k` tasks had ended, the failure limit was reached. */
  ghost predicate TrippedAt(cfg: Config, log: seq<Entry>, k: nat) {
    cfg.limit.Some? && k <= |log| && Failures(log[..k]) >= cfg.limit.value
  }

  /** Once the policy has tripped, admission is capped. */
  ghost predicate Capped(cfg: Config, s: State) {
    forall k: nat :: TrippedAt(cfg, s.log, k) ==> s.accepted + PullSlot(s) <= k + 2 * cfg.workers
  }

  ghost predicate Inv(cfg: Config, s: State) {
    Shape(cfg, s) && Dispatch(s) && Exclusive(s) && WorkerEnds(s) && Deaths(s) && Flags(cfg, s) && Capped(cfg, s)
  }

  // ----- the invariant holds in every reachable state -----

  lemma StepKeepsShape(cfg: Config, s: State, l: Label)
    requires cfg.Valid() && Shape(cfg, s) && Enabled(cfg, s, l)
    ensures Shape(cfg, Apply(cfg, s, l))
  {
  }

  predicate OnJob(l: Label) {
    l.StartJob? || l.Receive? || l.Finish? || l.ExitJob?
  }

  /** Only a receive dequeues; what the producer does keeps the count. */
  lemma StepDequeues(cfg: Config, s: State, l: Label)
    requires Enabled(cfg, s, l)
    ensures Dequeued(Apply(cfg, s, l)) == Dequeued(s) + if l.Receive? then 1 else 0
  {
  }

  lemma ReceiveKeepsDispatch(cfg: Config, s: State, w: nat)
    requires Dispatch(s) && Enabled(cfg, s, Receive(w))
    ensures Dispatch(Apply(cfg, s, Receive(w)))
  {
    SumUpdate(RunningOne, s.jobs, w, Running(s.chan[0]));
  }

  lemma JobStepKeepsDispatch(cfg: Config, s: State, l: Label)
    requires Dispatch(s) && OnJob(l) && !l.Receive? && Enabled(cfg, s, l)
    ensures Dispatch(Apply(cfg, s, l))
  {
    var t := Apply(cfg, s, l);
    StepDequeues(cfg, s, l);
    SumUpdate(RunningOne, s.jobs, l.job, t.jobs[l.job]);
    assert t.chan == s.chan;
  }

  lemma StepKeepsDispatch(cfg: Config, s: State, l: Label)
    requires cfg.Valid() && Shape(cfg, s) && Dispatch(s) && Enabled(cfg, s, l)
    ensures Dispatch(Apply(cfg, s, l))
  {
    if l.Receive? {
      ReceiveKeepsDispatch(cfg, s, l.job);
    } else if OnJob(l) {
      JobStepKeepsDispatch(cfg, s, l);
    } else if l.SpawnJob? {
      SumAppend(RunningOne, s.jobs, Queued);
    } else {
      ProducerStepKeepsDispatch(cfg, s, l);
    }
  }

  lemma ProducerStepKeepsDispatch(cfg: Config, s: State, l: Label)
    requires Shape(cfg, s) && Dispatch(s) && !OnJob(l) && !l.SpawnJob? && Enabled(cfg, s, l)
    ensures Dispatch(Apply(cfg, s, l))
  {
    var t := Apply(cfg, s, l);
    StepDequeues(cfg, s, l);
    assert t.jobs == s.jobs && t.log == s.log;
  }

  /** Only a receive or the end of a task changes where tokens are. */
  lemma StepKeepsExclusive(cfg: Config, s: State, l: Label)
    requires cfg.Valid() && Shape(cfg, s) && Dispatch(s) && Exclusive(s) && Enabled(cfg, s, l)
    ensures Exclusive(Apply(cfg, s, l))
  {
    if l.Receive? {
      ReceiveKeepsExclusive(cfg, s, l.job);
    } else if l.Finish? {
      FinishKeepsExclusive(cfg, s, l.job, l.end);
    } else {
      OtherStepKeepsExclusive(cfg, s, l);
    }
  }

  lemma ReceiveKeepsExclusive(cfg: Config, s: State, w: nat)
    requires Dispatch(s) && Exclusive(s) && Enabled(cfg, s, Receive(w))
    ensures Exclusive(Apply(cfg, s, Receive(w)))
  {
    assert s.chan[0] == Dequeued(s);
  }

  lemma FinishKeepsExclusive(cfg: Config, s: State, w: nat, end: Behaviour)
    requires Exclusive(s) && Enabled(cfg, s, Finish(w, end))
    ensures Exclusive(Apply(cfg, s, Finish(w, end)))
  {
    var t := Apply(cfg, s, Finish(w, end));
    assert t.log[|s.log|].index == s.jobs[w].token;
    assert forall k :: 0 <= k < |s.log| ==> t.log[k] == s.log[k];
  }

  lemma OtherStepKeepsExclusive(cfg: Config, s: State, l: Label)
    requires Exclusive(s) && Enabled(cfg, s, l) && !l.Receive? && !l.Finish?
    ensures Exclusive(Apply(cfg, s, l))
  {
    var t := Apply(cfg, s, l);
    assert t.log == s.log && Dequeued(t) >= Dequeued(s);
    assert forall w :: 0 <= w < |t.jobs| && t.jobs[w].Running? ==> w < |s.jobs| && t.jobs[w] == s.jobs[w];
  }

  lemma StepKeepsWorkerEnds(cfg: Config, s: State, l: Label)
    requires cfg.Valid() && Shape(cfg, s) && WorkerEnds(s) && Enabled(cfg, s, l)
    ensures WorkerEnds(Apply(cfg, s, l))
  {
  }

  lemma StepKeepsDeaths(cfg: Config, s: State, l: Label)
    requires cfg.Valid() && Deaths(s) && Enabled(cfg, s, l)
    ensures Deaths(Apply(cfg, s, l))
  {
    var t := Apply(cfg, s, l);
    match l
    case SpawnJob => SumAppend(DiedOne, s.jobs, Queued);
    case StartJob(w) => SumUpdate(DiedOne, s.jobs, w, Idle);
    case Receive(w) => SumUpdate(DiedOne, s.jobs, w, t.jobs[w]);
    case Finish(w, end) =>
      SumUpdate(DiedOne, s.jobs, w, t.jobs[w]);
      SumAppend(UnwindOne, s.log, Entry(s.jobs[w].token, end));
    case ExitJob(w) => SumUpdate(DiedOne, s.jobs, w, Exited);
    case _ =>
  }

  lemma StepKeepsFlags(cfg: Config, s: State, l: Label)
    requires cfg.Valid() && Flags(cfg, s) && Enabled(cfg, s, l)
    ensures Flags(cfg, Apply(cfg, s, l))
  {
    if l.Finish? {
      SumAppend(FailureOne, s.log, Entry(s.jobs[l.job].token, l.end));
    }
  }

  lemma TripsForGood(cfg: Config, log: seq<Entry>, k: nat)
    requires TrippedAt(cfg, log, k)
    ensures Tripped(cfg, log)
  {
    assert log == log[..k] + log[k..];
    SumConcat(FailureOne, log[..k], log[k..]);
  }

  /** When a task ends, at most `2 * workers` other tasks are under way. */
  lemma UnderWay(cfg: Config, s: State, w: nat, end: Behaviour)
    requires cfg.Valid() && Shape(cfg, s) && Dispatch(s) && Enabled(cfg, s, Finish(w, end))
    ensures s.accepted + PullSlot(s) <= |s.log| + 1 + 2 * cfg.workers
  {
    SumAtMost(RunningOne, s.jobs, 1);
  }

  lemma FinishKeepsCapped(cfg: Config, s: State, w: nat, end: Behaviour)
    requires cfg.Valid() && Shape(cfg, s) && Dispatch(s) && Capped(cfg, s) && Enabled(cfg, s, Finish(w, end))
    ensures Capped(cfg, Apply(cfg, s, Finish(w, end)))
  {
    var t := Apply(cfg, s, Finish(w, end));
    UnderWay(cfg, s, w, end);
    assert t.accepted == s.accepted && PullSlot(t) == PullSlot(s) && |t.log| == |s.log| + 1;
    forall k: nat | TrippedAt(cfg, t.log, k) ensures t.accepted + PullSlot(t) <= k + 2 * cfg.workers {
      if k <= |s.log| {
        assert t.log[..k] == s.log[..k];
        assert TrippedAt(cfg, s.log, k);
      }
    }
  }

  /** The log only changes when a task ends, and no pull begins once the policy has tripped. */
  lemma StepKeepsCapped(cfg: Config, s: State, l: Label)
    requires cfg.Valid() && Shape(cfg, s) && Dispatch(s) && Capped(cfg, s) && Enabled(cfg, s, l)
    ensures Capped(cfg, Apply(cfg, s, l))
  {
    if l.Finish? {
      FinishKeepsCapped(cfg, s, l.job, l.end);
    } else {
      var t := Apply(cfg, s, l);
      assert t.log == s.log;
      assert Tripped(cfg, s.log) ==> t.accepted + PullSlot(t) <= s.accepted + PullSlot(s);
      forall k: nat | TrippedAt(cfg, s.log, k) ensures t.accepted + PullSlot(t) <= k + 2 * cfg.workers {
        TripsForGood(cfg, s.log, k);
      }
    }
  }

  lemma StepKeepsInv(cfg: Config, s: State, l: Label)
    requires cfg.Valid() && Inv(cfg, s) && Enabled(cfg, s, l)
    ensures Inv(cfg, Apply(cfg, s, l))
  {
    StepKeepsShape(cfg, s, l);
    StepKeepsDispatch(cfg, s, l);
    StepKeepsExclusive(cfg, s, l);
    StepKeepsWorkerEnds(cfg, s, l);
    StepKeepsDeaths(cfg, s, l);
    StepKeepsFlags(cfg, s, l);
    StepKeepsCapped(cfg, s, l);
  }

  lemma {:induction false} ReachableInv(cfg: Config, labels: seq<Label>)
    requires cfg.Valid() && Run(cfg, labels)
    ensures Inv(cfg, After(cfg, labels))
  {
    if labels != [] {
      var n := |labels| - 1;
      var before := RunInit(cfg, labels);
      ReachableInv(cfg, labels[..n]);
      StepKeepsInv(cfg, before, labels[n]);
    }
  }
}
