/**
 Exactly which verdicts the parallel path can report. The producer can get ahead of failures that have not been
 recorded: at most `workers` tasks are in the channel, and all loops but the one that took the last dispatched
 task can hold earlier failing ones.
 */
module Verdicts {
  import opened Basics
  import opened Protocol
  import opened Sources
  import opened Guarantees
  import opened Outcomes
  import opened Schedules

  /** The first `n` positions are tasks that do not unwind. */
  ghost predicate Clean(src: Source, n: nat) {
    forall i: nat :: i < n ==> src.at(i).Item? && !src.at(i).task.RunThenUnwind?
  }

  /** When position `i` is pulled, at least this many tasks were dispatched before the last dispatched one. */
  function Behind(cfg: Config, i: nat): nat {
    if i > cfg.workers + 1 then i - cfg.workers - 1 else 0
  }

  /** Failures below that position can be held back by `workers - 1` loops; one more than that trips the policy. */
  ghost predicate CanPull(cfg: Config, src: Source, i: nat) {
    cfg.limit.Some? ==> Failures(Prefix(src, Behind(cfg, i))) < cfg.limit.value + cfg.workers - 1
  }

  /** The run of the first `m` tasks can be reported in this way. */
  ghost predicate Reportable(cfg: Config, src: Source, m: nat, verdict: Verdict) {
    && src.converts && m <= cfg.count && Clean(src, m)
    && (|| (&& CanPull(cfg, src, m) && src.at(m).End?
            && verdict == Classify(cfg.count, m, true, false, false, Prefix(src, m)))
        || (&& CanPull(cfg, src, m) && src.at(m).Item? && m == cfg.count
            && verdict == Classify(cfg.count, m, false, true, false, Prefix(src, m)))
        || (&& m > 0 && CanPull(cfg, src, m - 1) && LimitReached(cfg.limit, Prefix(src, m))
            && verdict == Classify(cfg.count, m, false, false, false, Prefix(src, m))))
  }

  /** The conversion unwinds, or the producer can get to a pull or a task that does. */
  ghost predicate Reraisable(cfg: Config, src: Source) {
    !src.converts || exists m: nat :: UnwindsAt(cfg, src, m)
  }

  ghost predicate UnwindsAt(cfg: Config, src: Source, m: nat) {
    && m <= cfg.count && Clean(src, m) && CanPull(cfg, src, m)
    && (src.at(m).Unwinds? || (m < cfg.count && src.at(m) == Item(RunThenUnwind)))
  }

  // ----- no run gets further -----

  lemma PullsBefore(cfg: Config, src: Source, i: nat, j: nat)
    requires i <= j && CanPull(cfg, src, j)
    ensures CanPull(cfg, src, i)
  {
    PrefixFailuresGrow(src, Behind(cfg, i), Behind(cfg, j));
  }

  lemma UnfinishedStep(s: State, n: nat)
    ensures |Unfinished(s, n + 1)| == |Unfinished(s, n)| + if LogHas(s.log, n) then 0 else 1
  {
    var a, b := Unfinished(s, n), Unfinished(s, n + 1);
    if LogHas(s.log, n) {
      assert forall j :: j in b <==> j in a;
      assert a == b;
    } else {
      assert forall j :: j in b <==> j in a || j == n;
      assert b == a + {n};
    }
  }

  /** Of the first `n` tasks, every failing one is recorded or unfinished. */
  lemma {:induction false} FailuresAccountedFor(src: Source, s: State, n: nat)
    requires Agrees(src, s)
    ensures Failures(Prefix(src, n)) <= Sum(FailureOne, ByIndex(s.log, n)) + |Unfinished(s, n)|
  {
    if n == 0 {
      assert Prefix(src, 0) == [];
    } else {
      FailuresAccountedFor(src, s, n - 1);
      PrefixStep(src, n - 1);
      UnfinishedStep(s, n - 1);
      SumByIndexStep(FailureOne, s.log, n);
      LookupsAgree(src, s);
    }
  }

  lemma {:induction false} RecordedFailuresGrow(log: seq<Entry>, n: nat, m: nat)
    requires n <= m
    ensures Sum(FailureOne, ByIndex(log, n)) <= Sum(FailureOne, ByIndex(log, m))
    decreases m
  {
    if n < m {
      RecordedFailuresGrow(log, n, m - 1);
      SumByIndexStep(FailureOne, log, m);
    }
  }

  /** Apart from the last dispatched task, fewer tasks than there are loops are unfinished. */
  ghost predicate FewStragglers(cfg: Config, s: State) {
    Dequeued(s) > 0 ==> |Unfinished(s, Dequeued(s) - 1)| <= cfg.workers - 1
  }

  lemma StepKeepsStragglers(cfg: Config, s: State, l: Label)
    requires cfg.Valid() && Inv(cfg, s) && FewStragglers(cfg, s) && Enabled(cfg, s, l)
    ensures FewStragglers(cfg, Apply(cfg, s, l))
  {
    if l.Receive? {
      ReceiveKeepsStragglers(cfg, s, l.job);
    } else {
      OtherStepKeepsStragglers(cfg, s, l);
    }
  }

  lemma ReceiveKeepsStragglers(cfg: Config, s: State, w: nat)
    requires cfg.Valid() && Inv(cfg, s) && Enabled(cfg, s, Receive(w))
    ensures FewStragglers(cfg, Apply(cfg, s, Receive(w)))
  {
    ReceiveInOrder(cfg, s, w);
    StepDequeues(cfg, s, Receive(w));
    FewerUnfinished(s, Apply(cfg, s, Receive(w)), s.chan[0]);
    assert s.chan[0] == Dequeued(s);
  }

  lemma OtherStepKeepsStragglers(cfg: Config, s: State, l: Label)
    requires FewStragglers(cfg, s) && Enabled(cfg, s, l) && !l.Receive?
    ensures FewStragglers(cfg, Apply(cfg, s, l))
  {
    var t := Apply(cfg, s, l);
    StepDequeues(cfg, s, l);
    LogGrows(cfg, s, l);
    if Dequeued(s) > 0 {
      FewerUnfinished(s, t, Dequeued(s) - 1);
    }
  }

  lemma FewerUnfinished(s: State, t: State, n: nat)
    requires forall i: nat :: LogHas(s.log, i) ==> LogHas(t.log, i)
    ensures |Unfinished(t, n)| <= |Unfinished(s, n)|
  {
    SubsetSize(Unfinished(t, n), Unfinished(s, n));
  }

  lemma LogGrows(cfg: Config, s: State, l: Label)
    requires Enabled(cfg, s, l)
    ensures forall i: nat :: LogHas(s.log, i) ==> LogHas(Apply(cfg, s, l).log, i)
  {
    var t := Apply(cfg, s, l);
    assert s.log <= t.log;
    forall i: nat | LogHas(s.log, i) ensures LogHas(t.log, i) {
      var k :| 0 <= k < |s.log| && s.log[k].index == i;
      assert t.log[k].index == i;
    }
  }

  /** A pull begins only at a position to which the unrecorded failures reach. */
  lemma PullIsPossible(cfg: Config, src: Source, s: State)
    requires cfg.Valid() && Inv(cfg, s) && Agrees(src, s) && FewStragglers(cfg, s) && Enabled(cfg, s, BeginPull)
    ensures CanPull(cfg, src, s.accepted)
  {
    var q := Dequeued(s);
    if q == 0 {
      assert Prefix(src, 0) == [];
    } else {
      DispatchedFailures(cfg, src, s);
      PrefixFailuresGrow(src, Behind(cfg, s.accepted), q - 1);
    }
  }

  lemma DispatchedFailures(cfg: Config, src: Source, s: State)
    requires Dispatch(s) && Exclusive(s) && Agrees(src, s) && FewStragglers(cfg, s) && Dequeued(s) > 0
    ensures Failures(Prefix(src, Dequeued(s) - 1)) <= Failures(s.log) + cfg.workers - 1
  {
    var q: nat := Dequeued(s);
    FailuresAccountedFor(src, s, q - 1);
    AllRecorded(s, q - 1);
  }

  lemma AllRecorded(s: State, n: nat)
    requires Exclusive(s) && n <= Dequeued(s)
    ensures Sum(FailureOne, ByIndex(s.log, n)) <= Failures(s.log)
  {
    RecordedFailuresGrow(s.log, n, Dequeued(s));
    SumByIndex(FailureOne, s.log, Dequeued(s));
  }

  /** Every pull that has begun could begin. */
  ghost predicate PullsPossible(cfg: Config, src: Source, s: State) {
    && FewStragglers(cfg, s)
    && (s.accepted > 0 ==> CanPull(cfg, src, s.accepted - 1))
    && (s.producer.Pulling? || s.exhausted || s.excess ==> CanPull(cfg, src, s.accepted))
    && (s.producer.Unwound? && s.jobs != [] ==> CanPull(cfg, src, s.accepted))
  }

  lemma StepKeepsPulls(cfg: Config, src: Source, s: State, l: Label)
    requires cfg.Valid() && Inv(cfg, s) && Agrees(src, s) && PullsPossible(cfg, src, s) && CanStep(cfg, src, s, l)
    ensures PullsPossible(cfg, src, Apply(cfg, s, l))
  {
    StepKeepsStragglers(cfg, s, l);
    if l.BeginPull? {
      PullIsPossible(cfg, src, s);
    }
  }

  lemma {:induction false} RunPulls(cfg: Config, src: Source, labels: seq<Label>)
    requires cfg.Valid() && RunOf(cfg, src, labels)
    ensures Run(cfg, labels) && PullsPossible(cfg, src, After(cfg, labels))
  {
    if labels != [] {
      var n := |labels| - 1;
      assert LastFollows(cfg, src, labels);
      var before := RunInit(cfg, labels);
      RunPulls(cfg, src, labels[..n]);
      RunAgrees(cfg, src, labels[..n]);
      StepKeepsPulls(cfg, src, before, labels[n]);
    }
  }

  // ----- some run gets that far -----

  /** Loops 1 to `h` hold failing tasks; all other tasks before `p` have ended. */
  ghost predicate HeldBack(cfg: Config, src: Source, s: State, p: nat, h: nat) {
    && Reachable(cfg, src, s) && s.producer.Checking? && s.chan == [] && s.accepted == p
    && !s.joined && !s.reporterStopped && !s.exhausted && !s.excess
    && |s.jobs| == cfg.workers && h < cfg.workers
    && (forall w :: 0 <= w < cfg.workers ==> if 1 <= w <= h then s.jobs[w].Running? else s.jobs[w].Idle?)
    && Failures(s.log) + h == Failures(Prefix(src, p))
    && (h < cfg.workers - 1 ==> Failures(s.log) == 0)
  }

  ghost predicate Holdable(cfg: Config, src: Source, p: nat) {
    cfg.limit.Some? ==> Failures(Prefix(src, p)) < cfg.limit.value + cfg.workers - 1
  }

  /** The next task is pulled and put into the empty channel. */
  lemma AdmitNext(cfg: Config, src: Source, s: State) returns (t: State)
    requires cfg.Valid() && Reachable(cfg, src, s) && s.producer.Checking? && !s.joined && !Stopped(cfg, s)
    requires src.at(s.accepted).Item? && s.accepted < cfg.count
    requires |s.chan| < cfg.workers && |s.jobs| > 0 && !s.jobs[0].Over()
    ensures Reachable(cfg, src, t)
    ensures t == s.(chan := s.chan + [s.accepted], pulled := s.pulled + 1, accepted := s.accepted + 1)
  {
    t := Take(cfg, src, s, BeginPull);
    t := Take(cfg, src, t, PullAccept);
    t := Take(cfg, src, t, Send);
  }

  lemma {:induction false} HoldBack(cfg: Config, src: Source, p: nat) returns (s: State, h: nat)
    requires cfg.Valid() && src.converts && p <= cfg.count && Clean(src, p) && Holdable(cfg, src, p)
    ensures HeldBack(cfg, src, s, p, h)
  {
    if p == 0 {
      StartSome(cfg, src, cfg.workers);
      s, h := Spawned(Checking, false, Loops(Idle, cfg.workers, Queued, cfg.workers)), 0;
      assert Prefix(src, 0) == [];
    } else {
      PrefixStep(src, p - 1);
      s, h := HoldBack(cfg, src, p - 1);
      s := AdmitNext(cfg, src, s);
      assert s.chan == [p - 1];
      if FailureOne(Entry(p - 1, src.at(p - 1).task)) == 1 && h < cfg.workers - 1 {
        h := h + 1;
        s := Take(cfg, src, s, Receive(h));
      } else {
        s := RunOnFirst(cfg, src, s);
      }
    }
  }

  /** The first loop takes the only queued task and runs it. */
  lemma RunOnFirst(cfg: Config, src: Source, s: State) returns (t: State)
    requires cfg.Valid() && Reachable(cfg, src, s) && !s.joined && |s.chan| == 1 && |s.jobs| > 0 && s.jobs[0].Idle?
    requires src.at(s.chan[0]).Item? && !src.at(s.chan[0]).task.RunThenUnwind?
    ensures Reachable(cfg, src, t)
    ensures t == s.(chan := [], log := s.log + [Entry(s.chan[0], src.at(s.chan[0]).task)])
    ensures Failures(t.log) == Failures(s.log) + FailureOne(Entry(s.chan[0], src.at(s.chan[0]).task))
  {
    var i := s.chan[0];
    var e := Entry(i, src.at(i).task);
    var running := Take(cfg, src, s, Receive(0));
    assert running == s.(jobs := s.jobs[0 := Running(i)], chan := []);
    t := Take(cfg, src, running, Finish(0, e.end));
    assert t == s.(jobs := s.jobs[0 := Idle], chan := [], log := s.log + [e]);
    assert s.jobs[0 := Idle] == s.jobs;
    SumAppend(FailureOne, s.log, e);
  }

  /** `k` more tasks go into the channel. */
  lemma {:induction false} QueueUp(cfg: Config, src: Source, s: State, k: nat) returns (t: State)
    requires cfg.Valid() && Reachable(cfg, src, s) && s.producer.Checking? && !s.joined && !Stopped(cfg, s)
    requires s.accepted + k <= cfg.count && Clean(src, s.accepted + k)
    requires |s.chan| + k <= cfg.workers && |s.jobs| > 0 && !s.jobs[0].Over()
    ensures Reachable(cfg, src, t)
    ensures t == s.(chan := t.chan, pulled := s.pulled + k, accepted := s.accepted + k)
    decreases k
  {
    if k == 0 {
      t := s;
    } else {
      t := AdmitNext(cfg, src, s);
      t := QueueUp(cfg, src, t, k - 1);
    }
  }

  /** The producer is about to pull position `i`. */
  ghost predicate PullingAt(cfg: Config, src: Source, s: State, i: nat) {
    && Reachable(cfg, src, s) && s.producer.Pulling? && s.accepted == i
    && !s.joined && !s.reporterStopped && !s.exhausted && !s.excess
  }

  lemma PullAhead(cfg: Config, src: Source, i: nat) returns (s: State)
    requires cfg.Valid() && src.converts && i <= cfg.count && Clean(src, i) && CanPull(cfg, src, i)
    ensures PullingAt(cfg, src, s, i)
  {
    var p, h := Behind(cfg, i), 0;
    s, h := HoldBack(cfg, src, p);
    if p < i {
      s := AdmitNext(cfg, src, s);
      s := Take(cfg, src, s, Receive(0));
      s := QueueUp(cfg, src, s, i - p - 1);
    }
    s := Take(cfg, src, s, BeginPull);
  }

  // ----- and ends in each way -----

  /** A joined run over clean tasks reports their prefix, classified by what the producer saw. */
  lemma CleanVerdict(cfg: Config, src: Source, labels: seq<Label>, s: State)
    requires cfg.Valid() && Traced(cfg, src, labels, s) && s.joined && !s.reporterStopped
    requires s.producer.Closed? && Clean(src, s.accepted)
    ensures
      ParallelVerdict(cfg, s) == Classify(cfg.count, s.accepted, s.exhausted, s.excess, false, Prefix(src, s.accepted))
  {
    TracedInv(cfg, src, labels, s);
    DeathIsLogged(cfg, s);
    JoinedSurvivors(cfg, s);
    DrainedIsPrefix(cfg, src, s);
  }

  /** A state in which the source is done with completes to the verdict for its tasks. */
  lemma SealedVerdict(cfg: Config, src: Source, s: State)
    requires cfg.Valid() && Reachable(cfg, src, s) && s.producer.Ending? && !s.reporterStopped && Clean(src, s.accepted)
    ensures
      Possible(cfg, src, false, Classify(cfg.count, s.accepted, s.exhausted, s.excess, false, Prefix(src, s.accepted)))
  {
    var labels, t := CompleteFrom(cfg, src, s);
    TracedInv(cfg, src, labels, t);
    CleanVerdict(cfg, src, labels, t);
    assert EndsWith(cfg, src, false, labels, ParallelVerdict(cfg, t));
  }

  /** With clean tasks and no more pulls, the loops get done with everything that was accepted. */
  lemma RunDown(cfg: Config, src: Source, s: State) returns (t: State)
    requires cfg.Valid() && Reachable(cfg, src, s) && (s.producer.Holding? || s.producer.Checking?)
    requires !s.joined && !s.reporterStopped && !s.exhausted && !s.excess && Clean(src, s.accepted)
    ensures Reachable(cfg, src, t) && t.producer.Checking? && t.accepted == s.accepted == |t.log|
    ensures !t.joined && !t.reporterStopped && !t.exhausted && !t.excess
    decreases Measure(cfg, s)
  {
    if s.producer.Checking? && |s.log| == s.accepted {
      t := s;
    } else {
      ReachableSound(cfg, src, s);
      var l := RunDownStep(cfg, src, s);
      t := Take(cfg, src, s, l);
      StepDecreases(cfg, s, l);
      t := RunDown(cfg, src, t);
    }
  }

  lemma ReachableSound(cfg: Config, src: Source, s: State)
    requires cfg.Valid() && Reachable(cfg, src, s)
    ensures Inv(cfg, s) && Agrees(src, s)
  {
    var labels :| Traced(cfg, src, labels, s);
    TracedInv(cfg, src, labels, s);
  }

  lemma RunDownStep(cfg: Config, src: Source, s: State) returns (l: Label)
    requires cfg.Valid() && Reachable(cfg, src, s) && (s.producer.Holding? || s.producer.Checking?)
    requires !s.joined && Clean(src, s.accepted) && (s.producer.Checking? ==> |s.log| < s.accepted)
    ensures CanStep(cfg, src, s, l) && (OnJob(l) || l.Send?)
  {
    ReachableSound(cfg, src, s);
    DeathIsLogged(cfg, s);
    SumZero(RunningOne, s.jobs);
    assert !s.jobs[0].Over();
    if s.producer.Holding? && |s.chan| < cfg.workers {
      l := Send;
    } else if w :| 0 <= w < |s.jobs| && s.jobs[w].Running? {
      l := LoopStep(cfg, src, s, w);
    } else {
      l := LoopStep(cfg, src, s, 0);
    }
  }

  /** After the first `m` tasks the policy stops the producer. */
  lemma StopsAfter(cfg: Config, src: Source, m: nat)
    requires cfg.Valid() && src.converts && 0 < m <= cfg.count && Clean(src, m)
    requires CanPull(cfg, src, m - 1) && LimitReached(cfg.limit, Prefix(src, m))
    ensures Possible(cfg, src, false, Classify(cfg.count, m, false, false, false, Prefix(src, m)))
  {
    var s := PullAhead(cfg, src, m - 1);
    s := Take(cfg, src, s, PullAccept);
    s := RunDown(cfg, src, s);
    AllEnded(cfg, src, s);
    s := Take(cfg, src, s, StopCheck);
    SealedVerdict(cfg, src, s);
  }

  lemma AllEnded(cfg: Config, src: Source, s: State)
    requires cfg.Valid() && Reachable(cfg, src, s) && s.producer.Checking? && |s.log| == s.accepted
    ensures Failures(s.log) == Failures(Prefix(src, s.accepted))
  {
    ReachableSound(cfg, src, s);
    UnfinishedAreRunning(cfg, s);
    forall i: nat | i < |s.log| ensures LogHas(s.log, i) {
      assert i !in Unfinished(s, |s.log|);
    }
    DrainedIsPrefix(cfg, src, s);
  }

  lemma ReportableIsPossible(cfg: Config, src: Source, m: nat, verdict: Verdict)
    requires cfg.Valid() && Reportable(cfg, src, m, verdict)
    ensures Possible(cfg, src, false, verdict)
  {
    if CanPull(cfg, src, m) && !src.at(m).Unwinds? && (src.at(m).Item? ==> m == cfg.count)
      && verdict == Classify(cfg.count, m, src.at(m).End?, src.at(m).Item?, false, Prefix(src, m))
    {
      var s := PullAhead(cfg, src, m);
      s := Take(cfg, src, s, PullStep(cfg, src, s));
      SealedVerdict(cfg, src, s);
    } else {
      StopsAfter(cfg, src, m);
    }
  }

  lemma PossibleIsReportable(cfg: Config, src: Source, verdict: Verdict) returns (m: nat)
    requires cfg.Valid() && Possible(cfg, src, false, verdict) && verdict != Reraised
    ensures Reportable(cfg, src, m, verdict)
  {
    var labels :| EndsWith(cfg, src, false, labels, verdict);
    var s := After(cfg, labels);
    RunPulls(cfg, src, labels);
    RunAgrees(cfg, src, labels);
    DeathIsLogged(cfg, s);
    JoinedSurvivors(cfg, s);
    forall i: nat | i < s.accepted ensures !src.at(i).task.RunThenUnwind? {
      assert LogHas(s.log, i);
    }
    CleanVerdict(cfg, src, labels, s);
    DrainedIsPrefix(cfg, src, s);
    m := s.accepted;
  }

  // ----- re-raising -----

  lemma {:induction false} FirstUnclean(src: Source, n: nat) returns (m: nat)
    requires !Clean(src, n + 1)
    ensures m <= n && Clean(src, m) && !Clean(src, m + 1)
  {
    if Clean(src, n) {
      m := n;
    } else {
      m := FirstUnclean(src, n - 1);
    }
  }

  lemma ReraisedIsReraisable(cfg: Config, src: Source)
    requires cfg.Valid() && Possible(cfg, src, false, Reraised)
    ensures Reraisable(cfg, src)
  {
    var labels :| EndsWith(cfg, src, false, labels, Reraised);
    var s := After(cfg, labels);
    RunPulls(cfg, src, labels);
    RunAgrees(cfg, src, labels);
    DeathIsLogged(cfg, s);
    if src.converts {
      var n: nat := if s.producer.Unwound? then s.accepted else s.accepted - 1;
      var m := FirstUnclean(src, n);
      if m < s.accepted {
        PullsBefore(cfg, src, m, s.accepted - 1);
      }
      assert UnwindsAt(cfg, src, m);
    }
  }

  /** A joined batch that accepted a task which unwinds lost a loop. */
  lemma UnwoundOrLost(cfg: Config, src: Source, s: State, m: nat)
    requires cfg.Valid() && Inv(cfg, s) && Agrees(src, s) && s.joined && m < s.accepted
    ensures src.at(m).task.RunThenUnwind? ==> AnyDied(s)
  {
    var logged := LogHas(s.log, m);
    DeathIsLogged(cfg, s);
    if !AnyDied(s) {
      JoinedSurvivors(cfg, s);
    }
  }

  lemma ReraisableIsPossible(cfg: Config, src: Source)
    requires cfg.Valid() && Reraisable(cfg, src)
    ensures Possible(cfg, src, false, Reraised)
  {
    var s: State;
    if !src.converts {
      assert Traced(cfg, src, [], INIT);
      s := Take(cfg, src, INIT, ConvertUnwind);
    } else {
      var m: nat :| UnwindsAt(cfg, src, m);
      s := PullAhead(cfg, src, m);
      s := Take(cfg, src, s, PullStep(cfg, src, s));
    }
    var labels, t := CompleteFrom(cfg, src, s);
    TracedInv(cfg, src, labels, t);
    if s.accepted > 0 {
      UnwoundOrLost(cfg, src, t, s.accepted - 1);
    }
    assert EndsWith(cfg, src, false, labels, Reraised);
  }

  /**
   Exactly which verdicts some interleaving of a batch reports, when its reporter does not fail: those of the
   first `m` tasks, for every `m` and label that the condition on source, count, limit and workers allows.
   */
  lemma PossibleVerdicts(cfg: Config, src: Source, verdict: Verdict)
    requires cfg.Valid()
    ensures
      Possible(cfg, src, false, verdict) <==>
      if verdict == Reraised then Reraisable(cfg, src) else exists m: nat :: Reportable(cfg, src, m, verdict)
  {
    if verdict == Reraised {
      if Possible(cfg, src, false, verdict) {
        ReraisedIsReraisable(cfg, src);
      }
      if Reraisable(cfg, src) {
        ReraisableIsPossible(cfg, src);
      }
    } else {
      if Possible(cfg, src, false, verdict) {
        var m := PossibleIsReportable(cfg, src, verdict);
      }
      if m: nat :| Reportable(cfg, src, m, verdict) {
        ReportableIsPossible(cfg, src, m, verdict);
      }
    }
  }
}
