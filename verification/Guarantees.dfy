/**
 What the batch protocol guarantees over every interleaving: dispatch order, bounded admission,
 exactly-once draining, the unwinding cases, progress and termination.
 */
module Guarantees {
  import opened Basics
  import opened Protocol
  import opened Sources

  // ----- dispatch order and admission -----

  ghost function Indexes(log: seq<Entry>): (r: set<nat>)
    ensures forall i: nat :: i in r <==> LogHas(log, i)
  {
    set k | 0 <= k < |log| :: log[k].index
  }

  lemma IndexesSplit(log: seq<Entry>)
    requires log != []
    ensures Indexes(log) == Indexes(log[..|log| - 1]) + {log[|log| - 1].index}
  {
    var n := |log| - 1;
    assert forall k :: 0 <= k < n ==> log[..n][k] == log[k];
    forall i | i in Indexes(log) ensures i in Indexes(log[..n]) + {log[n].index} {
      var k :| 0 <= k < |log| && log[k].index == i;
      assert k < n ==> log[..n][k].index == i;
    }
  }

  lemma {:induction false} IndexesSize(log: seq<Entry>)
    requires forall j, k :: 0 <= j < k < |log| ==> log[j].index != log[k].index
    ensures |Indexes(log)| == |log|
  {
    if log != [] {
      IndexesSize(log[..|log| - 1]);
      IndexesSplit(log);
    }
  }

  /** The dequeued tasks that have not ended. */
  ghost function Unfinished(s: State, i: nat): set<nat> {
    set j | j in Below(i) && !LogHas(s.log, j)
  }

  lemma UnfinishedAreRunning(cfg: Config, s: State)
    requires cfg.Valid() && Inv(cfg, s)
    ensures |Unfinished(s, Dequeued(s))| == Sum(RunningOne, s.jobs)
  {
    var d := Dequeued(s);
    IndexesSize(s.log);
    assert Indexes(s.log) <= Below(d);
    assert Unfinished(s, d) == Below(d) - Indexes(s.log);
  }

  /** Tokens leave the channel in source order, and at most `workers - 1` earlier tasks are unfinished then. */
  lemma DispatchOrder(cfg: Config, labels: seq<Label>, w: nat)
    requires cfg.Valid() && Run(cfg, labels)
    requires Enabled(cfg, After(cfg, labels), Receive(w))
    ensures
      var s := After(cfg, labels);
      var i := Apply(cfg, s, Receive(w)).jobs[w].token;
      && (forall j: nat :: j < i <==> LogHas(s.log, j) || exists v :: 0 <= v < |s.jobs| && s.jobs[v] == Running(j))
      && (forall k :: 0 <= k < |s.chan| ==> s.chan[k] == i + k)
      && |Unfinished(s, i)| <= cfg.workers - 1
  {
    ReachableInv(cfg, labels);
    ReceiveInOrder(cfg, After(cfg, labels), w);
  }

  lemma ReceiveInOrder(cfg: Config, s: State, w: nat)
    requires cfg.Valid() && Inv(cfg, s) && w < |s.jobs| && s.jobs[w].Idle? && s.chan != []
    ensures
      var i := s.chan[0];
      && (forall j: nat :: j < i <==> LogHas(s.log, j) || exists v :: 0 <= v < |s.jobs| && s.jobs[v] == Running(j))
      && (forall k :: 0 <= k < |s.chan| ==> s.chan[k] == i + k)
      && |Unfinished(s, i)| <= cfg.workers - 1
  {
    UnfinishedAreRunning(cfg, s);
    RunningBelow(s.jobs, w);
    RunningTokens(cfg, s);
    assert s.chan[0] == Dequeued(s);
    forall j: nat ensures j < s.chan[0] <==> LogHas(s.log, j) || j in Tokens(s.jobs) {
      assert j in Unfinished(s, Dequeued(s)) <==> j in Tokens(s.jobs);
    }
  }

  /** The tokens that worker loops are running. */
  ghost function Tokens(jobs: seq<Job>): (r: set<nat>)
    ensures forall i :: i in r <==> exists v :: 0 <= v < |jobs| && jobs[v] == Running(i)
  {
    set v | 0 <= v < |jobs| && jobs[v].Running? :: jobs[v].token
  }

  lemma {:induction false} TokensSize(jobs: seq<Job>)
    requires forall v, w ::
      0 <= v < w < |jobs| && jobs[v].Running? && jobs[w].Running? ==> jobs[v].token != jobs[w].token
    ensures |Tokens(jobs)| == Sum(RunningOne, jobs)
  {
    if jobs != [] {
      var n := |jobs| - 1;
      TokensSize(jobs[..n]);
      TokensSplit(jobs);
    }
  }

  lemma TokensSplit(jobs: seq<Job>)
    requires jobs != []
    ensures
      var n := |jobs| - 1;
      Tokens(jobs) == Tokens(jobs[..n]) + if jobs[n].Running? then {jobs[n].token} else {}
  {
    var n := |jobs| - 1;
    var split := Tokens(jobs[..n]) + if jobs[n].Running? then {jobs[n].token} else {};
    forall i | i in Tokens(jobs) ensures i in split {
      var v :| 0 <= v < |jobs| && jobs[v] == Running(i);
      assert v < n ==> jobs[..n][v] == Running(i);
    }
    forall i | i in Tokens(jobs[..n]) ensures i in Tokens(jobs) {
      var v :| 0 <= v < n && jobs[..n][v] == Running(i);
      assert jobs[v] == Running(i);
    }
  }

  /** Every dequeued token that has not ended is in the hands of a worker loop, and conversely. */
  lemma RunningTokens(cfg: Config, s: State)
    requires cfg.Valid() && Inv(cfg, s)
    ensures Unfinished(s, Dequeued(s)) == Tokens(s.jobs)
  {
    UnfinishedAreRunning(cfg, s);
    TokensSize(s.jobs);
    var u := Unfinished(s, Dequeued(s));
    assert Tokens(s.jobs) <= u;
    if i :| i in u && i !in Tokens(s.jobs) {
      SubsetSize(Tokens(s.jobs), u - {i});
    }
  }

  lemma {:induction false} RunningBelow(jobs: seq<Job>, w: nat)
    requires w < |jobs| && !jobs[w].Running?
    ensures Sum(RunningOne, jobs) < |jobs|
  {
    SumUpdate(RunningOne, jobs, w, Running(0));
    SumAtMost(RunningOne, jobs[w := Running(0)], 1);
  }

  /** Items pulled, or being pulled, and not ended never number more than `2 * workers + 1`. */
  lemma AdmissionWindow(cfg: Config, labels: seq<Label>)
    requires cfg.Valid() && Run(cfg, labels)
    ensures
      var s := After(cfg, labels);
      s.pulled + PullSlot(s) - |s.log| <= 2 * cfg.workers + 1 && s.pulled + PullSlot(s) <= cfg.count + 1
  {
    ReachableInv(cfg, labels);
    SumAtMost(RunningOne, After(cfg, labels).jobs, 1);
  }

  /** The failure limit is reached, or the reporter has failed. */
  ghost predicate MustStop(cfg: Config, s: State) {
    s.reporterStopped || (cfg.limit.Some? && Failures(s.log) >= cfg.limit.value)
  }

  /** Once admission must stop, a pull that is under way then is the last. */
  lemma {:induction false} StopsAdmission(cfg: Config, labels: seq<Label>, more: seq<Label>)
    requires cfg.Valid() && Run(cfg, labels) && Run(cfg, more) && labels <= more && MustStop(cfg, After(cfg, labels))
    ensures
      var s, t := After(cfg, labels), After(cfg, more);
      MustStop(cfg, t) && t.pulled + PullSlot(t) <= s.pulled + PullSlot(s)
  {
    if labels != more {
      var n := |more| - 1;
      var before := RunInit(cfg, more);
      StopsAdmission(cfg, labels, more[..n]);
      StaysStopped(cfg, before, more[n]);
    }
  }

  /** Once admission must stop, no pull begins. */
  lemma {:induction false} NoPullBegins(cfg: Config, labels: seq<Label>, more: seq<Label>, i: nat)
    requires cfg.Valid() && Run(cfg, labels) && Run(cfg, more) && labels <= more && MustStop(cfg, After(cfg, labels))
    requires |labels| <= i < |more|
    ensures more[i] != BeginPull
    decreases |more|
  {
    var n := |more| - 1;
    var before := RunInit(cfg, more);
    if i < n {
      NoPullBegins(cfg, labels, more[..n], i);
    } else {
      StopsAdmission(cfg, labels, more[..n]);
      StaysStopped(cfg, before, more[n]);
    }
  }

  lemma StaysStopped(cfg: Config, s: State, l: Label)
    requires Enabled(cfg, s, l) && MustStop(cfg, s)
    ensures !l.BeginPull?
    ensures
      var t := Apply(cfg, s, l);
      MustStop(cfg, t) && t.pulled + PullSlot(t) <= s.pulled + PullSlot(s)
  {
    if l.Finish? {
      SumAppend(FailureOne, s.log, Entry(s.jobs[l.job].token, l.end));
    } else {
      assert Apply(cfg, s, l).log == s.log;
    }
  }

  // ----- conservation and draining -----

  ghost function InLog(s: State, index: nat): nat {
    Sum((e: Entry) => if e.index == index then 1 else 0, s.log)
  }

  ghost function InJobs(s: State, index: nat): nat {
    Sum((j: Job) => if j == Running(index) then 1 else 0, s.jobs)
  }

  ghost function InChan(s: State, index: nat): nat {
    Sum((i: nat) => if i == index then 1 else 0, s.chan)
  }

  /** How many times `index` occurs among the ended tasks, the worker loops, the channel and the producer's hand. */
  ghost function Places(s: State, index: nat): nat {
    InLog(s, index) + InJobs(s, index) + InChan(s, index)
    + (if s.producer == Holding(index) || s.producer == Failed(index) then 1 else 0)
  }

  lemma {:induction false} SumAtMostOne<T(!new)>(f: T -> nat, s: seq<T>)
    requires forall x :: f(x) <= 1
    requires forall j, k :: 0 <= j < k < |s| ==> f(s[j]) + f(s[k]) <= 1
    ensures Sum(f, s) <= 1
    ensures Sum(f, s) == 1 <==> exists k :: 0 <= k < |s| && f(s[k]) == 1
  {
    if s != [] {
      var n := |s| - 1;
      assert forall k :: 0 <= k < n ==> s[..n][k] == s[k];
      SumAtMostOne(f, s[..n]);
      if f(s[n]) == 1 {
        SumZero(f, s[..n]);
      } else if exists k :: 0 <= k < |s| && f(s[k]) == 1 {
        var k :| 0 <= k < |s| && f(s[k]) == 1;
        assert f(s[..n][k]) == 1;
      }
    }
  }

  lemma CountInLog(cfg: Config, s: State, index: nat)
    requires cfg.Valid() && Inv(cfg, s)
    ensures InLog(s, index) == if LogHas(s.log, index) then 1 else 0
  {
    SumAtMostOne((e: Entry) => if e.index == index then 1 else 0, s.log);
  }

  lemma CountInJobs(cfg: Config, s: State, index: nat)
    requires cfg.Valid() && Inv(cfg, s)
    ensures InJobs(s, index) == if index in Tokens(s.jobs) then 1 else 0
  {
    SumAtMostOne((j: Job) => if j == Running(index) then 1 else 0, s.jobs);
  }

  lemma CountInChan(cfg: Config, s: State, index: nat)
    requires cfg.Valid() && Inv(cfg, s)
    ensures InChan(s, index) == if Dequeued(s) <= index < Dequeued(s) + |s.chan| then 1 else 0
  {
    SumAtMostOne((i: nat) => if i == index then 1 else 0, s.chan);
    if Dequeued(s) <= index < Dequeued(s) + |s.chan| {
      assert s.chan[index - Dequeued(s)] == index;
    }
  }

  /** Conservation: every accepted token is in exactly one place, and no other token exists. */
  lemma Conservation(cfg: Config, labels: seq<Label>, index: nat)
    requires cfg.Valid() && Run(cfg, labels)
    ensures
      var s := After(cfg, labels);
      Places(s, index) == if index < s.accepted then 1 else 0
  {
    ReachableInv(cfg, labels);
    var s := After(cfg, labels);
    CountInLog(cfg, s, index);
    CountInJobs(cfg, s, index);
    CountInChan(cfg, s, index);
    RunningTokens(cfg, s);
    assert index in Unfinished(s, Dequeued(s)) <==> index in Tokens(s.jobs);
  }

  /** Every accepted token has been executed. */
  ghost predicate Drained(s: State) {
    |s.log| == s.accepted && forall i: nat :: i < s.accepted <==> LogHas(s.log, i)
  }

  predicate AnyDied(s: State) {
    exists w :: 0 <= w < |s.jobs| && s.jobs[w].Died?
  }

  /** A joined scope whose last worker loop did not unwind leaves nothing behind. */
  lemma JoinedDrained(cfg: Config, s: State)
    requires cfg.Valid() && Inv(cfg, s) && s.joined
    requires s.jobs == [] || exists w :: 0 <= w < |s.jobs| && !s.jobs[w].Died?
    ensures Drained(s) && !s.producer.Failed?
  {
    SumZero(RunningOne, s.jobs);
    UnfinishedAreRunning(cfg, s);
    assert Dequeued(s) == s.accepted;
    forall i: nat | i < s.accepted ensures LogHas(s.log, i) {
      assert i !in Unfinished(s, s.accepted);
    }
  }

  /** Exactly-once drain: without unwinding worker loops, the join leaves every accepted token executed once. */
  lemma ExactlyOnceDrain(cfg: Config, labels: seq<Label>)
    requires cfg.Valid() && Run(cfg, labels)
    requires After(cfg, labels).joined && !AnyDied(After(cfg, labels))
    ensures
      var s := After(cfg, labels);
      && Drained(s)
      && (forall j, k :: 0 <= j < k < |s.log| ==> s.log[j].index != s.log[k].index)
      && |s.log| <= s.pulled <= |s.log| + 1
  {
    ReachableInv(cfg, labels);
    var s := After(cfg, labels);
    if s.jobs != [] {
      assert !s.jobs[0].Died?;
    }
    JoinedDrained(cfg, s);
  }

  // ----- unwinding -----

  /**
   A worker loop that survives drains everything. Only if all of them unwind can accepted tokens be
   lost, at most `workers + 1`, and only then can the producer have seen the channel disconnect.
   */
  lemma UnwindDichotomy(cfg: Config, labels: seq<Label>)
    requires cfg.Valid() && Run(cfg, labels) && After(cfg, labels).joined
    ensures
      var s := After(cfg, labels);
      && (s.producer.Failed? ==> |s.jobs| == cfg.workers && forall w :: 0 <= w < |s.jobs| ==> s.jobs[w].Died?)
      && ((exists w :: 0 <= w < |s.jobs| && !s.jobs[w].Died?) ==> Drained(s))
      && s.accepted - |s.log| <= cfg.workers + 1
  {
    ReachableInv(cfg, labels);
    var s := After(cfg, labels);
    SumZero(RunningOne, s.jobs);
    if exists w :: 0 <= w < |s.jobs| && !s.jobs[w].Died? {
      JoinedDrained(cfg, s);
    }
  }

  /** While any worker loop has not unwound, `send` cannot report a disconnected channel. */
  lemma DisconnectNeedsAllUnwound(cfg: Config, labels: seq<Label>)
    requires cfg.Valid() && Run(cfg, labels)
    ensures
      var s := After(cfg, labels);
      s.producer.Holding? ==>
        (Enabled(cfg, s, SendFail) <==> forall w :: 0 <= w < |s.jobs| ==> s.jobs[w].Died?)
  {
    ReachableInv(cfg, labels);
  }

  /** A source that unwinds while items are being pulled: what was sent is executed and every loop returns. */
  lemma SourceUnwindDrains(cfg: Config, labels: seq<Label>)
    requires cfg.Valid() && Run(cfg, labels)
    requires After(cfg, labels).joined && After(cfg, labels).producer.Unwound?
    ensures
      var s := After(cfg, labels);
      && !SenderAlive(s)
      && (forall w :: 0 <= w < |s.jobs| ==> s.jobs[w].Over())
      && (!AnyDied(s) ==> Drained(s) && s.pulled == |s.log|)
  {
    ReachableInv(cfg, labels);
    if !AnyDied(After(cfg, labels)) {
      ExactlyOnceDrain(cfg, labels);
    }
  }

  // ----- the shared queue -----

  /**
   Work conservation: a producer blocked in `send` always faces a live worker loop, and while it is blocked,
   or anything is queued, every started loop that is not running a task can receive.
   */
  lemma WorkConservation(cfg: Config, labels: seq<Label>)
    requires cfg.Valid() && Run(cfg, labels)
    ensures
      var s := After(cfg, labels);
      var blocked := s.producer.Holding? && !Enabled(cfg, s, Send) && !Enabled(cfg, s, SendFail);
      && (blocked ==> |s.chan| == cfg.workers && exists w :: 0 <= w < |s.jobs| && !s.jobs[w].Over())
      && (blocked || s.chan != [] ==> forall w :: 0 <= w < |s.jobs| && s.jobs[w].Idle? ==> Enabled(cfg, s, Receive(w)))
  {
    ReachableInv(cfg, labels);
  }

  /** Without the early drop of the original receiver, the unwinding of every loop would block the producer for good. */
  lemma EarlyReceiverDropReleases(cfg: Config, labels: seq<Label>)
    requires cfg.Valid() && Run(cfg, labels)
    requires
      var s := After(cfg, labels);
      s.producer.Holding? && |s.chan| == cfg.workers && forall w :: 0 <= w < |s.jobs| ==> s.jobs[w].Died?
    ensures
      var s := After(cfg, labels);
      && Enabled(cfg, s, SendFail)
      && (forall l :: Enabled(cfg, s.(receiver := true), l) ==> l.StopAdmission?)
  {
    ReachableInv(cfg, labels);
  }

  // ----- progress and termination -----

  function JobWeight(j: Job): nat {
    match j
    case Queued => 2
    case Idle => 1
    case Running(_) => 2
    case _ => 0
  }

  function Gap(reached: nat, total: nat): nat {
    if reached <= total then total - reached else 0
  }

  function ProducerWeight(cfg: Config, s: State): nat {
    var rest := 5 * Gap(s.accepted, cfg.count);
    match s.producer
    case Converting => rest + 8
    case Spawning => rest + 7
    case Checking => rest + 6
    case Pulling => rest + 5
    case Holding(_) => rest + 9
    case Ending => 1
    case _ => 0
  }

  /** The weighted work that is left; every step lowers it. */
  ghost function Measure(cfg: Config, s: State): nat {
    3 * Gap(|s.jobs|, cfg.workers) + Sum(JobWeight, s.jobs) + 2 * |s.chan| + ProducerWeight(cfg, s)
    + (if s.reporterStopped then 0 else 1) + (if s.joined then 0 else 1)
  }

  lemma JobStepDecreases(cfg: Config, s: State, l: Label)
    requires OnJob(l) && Enabled(cfg, s, l)
    ensures Measure(cfg, Apply(cfg, s, l)) < Measure(cfg, s)
  {
    var t := Apply(cfg, s, l);
    SumUpdate(JobWeight, s.jobs, l.job, t.jobs[l.job]);
    assert t.producer == s.producer && t.accepted == s.accepted;
  }

  lemma ProducerStepDecreases(cfg: Config, s: State, l: Label)
    requires cfg.Valid() && Shape(cfg, s) && !OnJob(l) && !l.SpawnJob? && Enabled(cfg, s, l)
    ensures Measure(cfg, Apply(cfg, s, l)) < Measure(cfg, s)
  {
    assert Apply(cfg, s, l).jobs == s.jobs;
  }

  lemma StepDecreases(cfg: Config, s: State, l: Label)
    requires cfg.Valid() && Shape(cfg, s) && Enabled(cfg, s, l)
    ensures Measure(cfg, Apply(cfg, s, l)) < Measure(cfg, s)
  {
    if OnJob(l) {
      JobStepDecreases(cfg, s, l);
    } else if l.SpawnJob? {
      SumAppend(JobWeight, s.jobs, Queued);
    } else {
      ProducerStepDecreases(cfg, s, l);
    }
  }

  /** How the source's `next` returns. */
  function PullStep(cfg: Config, src: Source, s: State): (l: Label)
    requires s.producer.Pulling? && s.accepted <= cfg.count
    ensures !s.joined ==> CanStep(cfg, src, s, l)
    ensures !l.StopAdmission? && !OnJob(l)
  {
    match src.at(s.accepted)
    case End => PullNone
    case Unwinds => PullUnwind
    case Item(_) => if s.accepted < cfg.count then PullAccept else PullExcess
  }

  /** The step that a producer can take when it is not waiting for the worker loops. */
  ghost function ProducerStep(cfg: Config, src: Source, s: State): (l: Label)
    requires cfg.Valid() && Inv(cfg, s) && !s.producer.Over()
    requires s.producer.Holding? ==> |s.chan| < cfg.workers || !ReceiversAlive(s)
    ensures !s.joined ==> CanStep(cfg, src, s, l)
    ensures !l.StopAdmission? && !OnJob(l)
  {
    match s.producer
    case Converting => if src.converts then Convert else ConvertUnwind
    case Spawning => if |s.jobs| < cfg.workers then SpawnJob else DropReceiver
    case Checking => if Stopped(cfg, s) then StopCheck else BeginPull
    case Pulling => PullStep(cfg, src, s)
    case Holding(_) => if ReceiversAlive(s) then Send else SendFail
    case _ => CloseSender
  }

  /** The step that worker loop `w` can take when it is not waiting for the producer. */
  ghost function LoopStep(cfg: Config, src: Source, s: State, w: nat): (l: Label)
    requires cfg.Valid() && Inv(cfg, s) && Agrees(src, s) && w < |s.jobs| && !s.jobs[w].Over()
    requires s.jobs[w].Idle? ==> s.chan != [] || !SenderAlive(s)
    ensures !s.joined ==> CanStep(cfg, src, s, l)
    ensures OnJob(l) && l.job == w
  {
    match s.jobs[w]
    case Queued => StartJob(w)
    case Running(i) => Finish(w, src.at(i).task)
    case _ => if s.chan != [] then Receive(w) else ExitJob(w)
  }

  /** No reachable state is stuck before the join, whatever the source yields and however its tasks end. */
  lemma Progress(cfg: Config, src: Source, s: State) returns (l: Label)
    requires cfg.Valid() && Inv(cfg, s) && Agrees(src, s) && !s.joined
    ensures CanStep(cfg, src, s, l) && !l.StopAdmission?
  {
    if !s.producer.Over() && (s.producer.Holding? ==> |s.chan| < cfg.workers || !ReceiversAlive(s)) {
      l := ProducerStep(cfg, src, s);
    } else if w :| 0 <= w < |s.jobs| && !s.jobs[w].Over() {
      l := LoopStep(cfg, src, s, w);
    } else {
      l := Join;
    }
  }

  /**
   Every run is bounded, even over an endless source. A run over a source, with its tasks ending as they do,
   can be continued by a step other than a reporter failure until the scope has joined, and not after.
   */
  lemma Terminates(cfg: Config, src: Source, labels: seq<Label>)
    requires cfg.Valid() && Run(cfg, labels)
    ensures |labels| <= 3 * cfg.workers + 5 * cfg.count + 10
    ensures RunOf(cfg, src, labels) ==>
      var s := After(cfg, labels);
      s.joined <==> forall l :: CanStep(cfg, src, s, l) ==> l.StopAdmission?
  {
    RunShortens(cfg, labels);
    if RunOf(cfg, src, labels) && !After(cfg, labels).joined {
      RunAgrees(cfg, src, labels);
      var l := Progress(cfg, src, After(cfg, labels));
    }
  }

  lemma {:induction false} RunShortens(cfg: Config, labels: seq<Label>)
    requires cfg.Valid() && Run(cfg, labels)
    ensures Inv(cfg, After(cfg, labels))
    ensures |labels| + Measure(cfg, After(cfg, labels)) <= 3 * cfg.workers + 5 * cfg.count + 10
  {
    ReachableInv(cfg, labels);
    if labels != [] {
      var n := |labels| - 1;
      var before := RunInit(cfg, labels);
      RunShortens(cfg, labels[..n]);
      StepDecreases(cfg, before, labels[n]);
    }
  }

  /** `t` comes after `s`, with no reporter failure in between: what was recorded stays. */
  ghost predicate Later(s: State, t: State) {
    && s.log <= t.log && s.accepted <= t.accepted
    && (s.exhausted ==> t.exhausted) && (s.excess ==> t.excess)
    && (s.producer.Unwound? ==> t.producer.Unwound?)
    && (s.producer.Ending? || s.producer.Closed? ==>
          && (t.producer.Ending? || t.producer.Closed?)
          && t.accepted == s.accepted && t.exhausted == s.exhausted && t.excess == s.excess)
    && t.reporterStopped == s.reporterStopped
  }

  lemma StepIsLater(cfg: Config, s: State, l: Label)
    requires Enabled(cfg, s, l) && !l.StopAdmission?
    ensures Later(s, Apply(cfg, s, l))
  {
  }

  /** Every interleaving can be completed to the join without a reporter failure. */
  lemma Completes(cfg: Config, src: Source, labels: seq<Label>, s: State) returns (more: seq<Label>, t: State)
    requires cfg.Valid() && Traced(cfg, src, labels, s)
    ensures Traced(cfg, src, more, t) && t.joined && labels <= more && Later(s, t)
    decreases Measure(cfg, s)
  {
    if s.joined {
      more, t := labels, s;
    } else {
      TracedInv(cfg, src, labels, s);
      var l := Progress(cfg, src, s);
      StepIsLater(cfg, s, l);
      StepDecreases(cfg, s, l);
      ExtendTrace(cfg, src, labels, s, l);
      more, t := Completes(cfg, src, labels + [l], Apply(cfg, s, l));
    }
  }
}
