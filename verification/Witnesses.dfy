/**
 Concrete runs and exact conditions: when the parallel path must report what the sequential one reports, runs
 that reach the bounds, results that look as if they should hold and do not, and a design that would break a
 guarantee of the retained one.
 */
module Witnesses {
  import opened Basics
  import opened Protocol
  import opened Sources
  import opened Guarantees
  import opened Outcomes
  import opened Schedules

  // ----- when the two paths agree -----

  /** The producer got past position `d`, or saw that no task is there. */
  ghost predicate SawBeyond(s: State, d: nat) {
    s.accepted > d || (s.accepted == d && (s.exhausted || s.excess)) || s.producer.Unwound?
  }

  /** The producer pulls position `d` while a loop still runs the task that will trip the policy there. */
  lemma PullBeforeTrip(cfg: Config, src: Source) returns (s: State)
    requires cfg.Valid() && PolicyStops(src, cfg.count, cfg.limit)
    ensures Reachable(cfg, src, s) && SawBeyond(s, SequentialFrom(src, cfg.count, cfg.limit, 0).done)
    ensures !s.reporterStopped
  {
    var d := SequentialFrom(src, cfg.count, cfg.limit, 0).done;
    SequentialEnds(src, cfg.count, cfg.limit, 0);
    assert d > 0;
    FillLoops(cfg, src, d - 1, 1);
    s := Take(cfg, src, Loaded(src, Checking, [], Fleet(d - 1, 1, cfg.workers), d, d - 1), BeginPull);
    s := Take(cfg, src, s, PullStep(cfg, src, s));
  }

  /** A joined run that got past the position where the policy stops the sequential one reports something else. */
  lemma BeyondDiffers(cfg: Config, src: Source, labels: seq<Label>, s: State)
    requires cfg.Valid() && PolicyStops(src, cfg.count, cfg.limit) && Traced(cfg, src, labels, s)
    requires s.joined && !s.reporterStopped && SawBeyond(s, SequentialFrom(src, cfg.count, cfg.limit, 0).done)
    ensures ParallelVerdict(cfg, s) != SequentialVerdict(src, cfg.count, cfg.limit)
  {
    var d := SequentialFrom(src, cfg.count, cfg.limit, 0).done;
    SequentialEnds(src, cfg.count, cfg.limit, 0);
    if ParallelVerdict(cfg, s) != Reraised {
      TracedInv(cfg, src, labels, s);
      ExactlyOnceDrain(cfg, labels);
      DrainedIsPrefix(cfg, src, s);
      PrefixFailuresGrow(src, d, s.accepted);
      StoppedVerdictsAgreeExactly(cfg, src, labels);
    }
  }

  /**
   Which sources have only one possible report: every interleaving reports what the sequential executor reports
   if and only if the failure policy does not stop the sequential executor on that source.
   */
  lemma VerdictsAgreeExactly(cfg: Config, src: Source)
    requires cfg.Valid()
    ensures
      (forall verdict :: Possible(cfg, src, false, verdict) ==> verdict == SequentialVerdict(src, cfg.count, cfg.limit))
      <==> !PolicyStops(src, cfg.count, cfg.limit)
  {
    if PolicyStops(src, cfg.count, cfg.limit) {
      var s := PullBeforeTrip(cfg, src);
      var labels, t := CompleteFrom(cfg, src, s);
      BeyondDiffers(cfg, src, labels, t);
      assert EndsWith(cfg, src, false, labels, ParallelVerdict(cfg, t));
      assert Possible(cfg, src, false, ParallelVerdict(cfg, t));
    } else {
      forall verdict | Possible(cfg, src, false, verdict)
        ensures verdict == SequentialVerdict(src, cfg.count, cfg.limit)
      {
        var labels :| EndsWith(cfg, src, false, labels, verdict);
        UnstoppedRefinesSequential(cfg, src, labels);
      }
    }
  }

  // ----- the same results under different labels -----

  /** Past the trip and at the end of the source, a joined run has executed exactly the sequential run's tasks. */
  lemma EndedWithSameTasks(cfg: Config, src: Source, labels: seq<Label>, s: State)
    requires cfg.Valid() && PolicyStops(src, cfg.count, cfg.limit) && Traced(cfg, src, labels, s)
    requires s.joined && SawBeyond(s, SequentialFrom(src, cfg.count, cfg.limit, 0).done)
    requires src.at(SequentialFrom(src, cfg.count, cfg.limit, 0).done).End?
    ensures
      var d := SequentialFrom(src, cfg.count, cfg.limit, 0).done;
      && !AnyDied(s) && Drained(s) && !s.producer.Failed? && !s.producer.Unwound?
      && s.accepted == d && s.exhausted && ReportOf(cfg.count, s.log) == ReportOf(cfg.count, Prefix(src, d))
  {
    SequentialEnds(src, cfg.count, cfg.limit, 0);
    TracedInv(cfg, src, labels, s);
    DeathIsLogged(cfg, s);
    JoinedSurvivors(cfg, s);
    DrainedIsPrefix(cfg, src, s);
  }

  /**
   When the policy stops the sequential executor just before the end of the source, some interleaving sees
   that end first: the same tasks and the same report, but not as a policy stop.
   */
  lemma EndSeenBeforeTrip(cfg: Config, src: Source)
    requires cfg.Valid() && PolicyStops(src, cfg.count, cfg.limit)
    requires src.at(SequentialFrom(src, cfg.count, cfg.limit, 0).done).End?
    ensures
      var d := SequentialFrom(src, cfg.count, cfg.limit, 0).done;
      var report := ReportOf(cfg.count, Prefix(src, d));
      && Possible(cfg, src, false,
                  if d < cfg.count then CountShortfall(cfg.count, d, report) else Completed(Finished, report))
      && SequentialVerdict(src, cfg.count, cfg.limit) == Completed(StoppedByTaskFailurePolicy, report)
  {
    var d := SequentialFrom(src, cfg.count, cfg.limit, 0).done;
    SequentialEnds(src, cfg.count, cfg.limit, 0);
    var s := PullBeforeTrip(cfg, src);
    var labels, t := CompleteFrom(cfg, src, s);
    EndedWithSameTasks(cfg, src, labels, t);
    var report := ReportOf(cfg.count, Prefix(src, d));
    assert ParallelVerdict(cfg, t)
        == if d < cfg.count then CountShortfall(cfg.count, d, report) else Completed(Finished, report) by {
      TracedInv(cfg, src, labels, t);
    }
    assert EndsWith(cfg, src, false, labels, ParallelVerdict(cfg, t));
  }

  const ONE_FAILURE := Source(true, (i: nat) => if i == 0 then Item(Fail(7)) else End)

  const STOP_AT_ONCE := Config(1, 1, Some(1))

  /** One failing task under a limit of one can end as `Finished` in parallel. */
  lemma LabelsCanDiffer()
    ensures
      var report := ReportOf(1, [Entry(0, Fail(7))]);
      && Possible(STOP_AT_ONCE, ONE_FAILURE, false, Completed(Finished, report))
      && SequentialVerdict(ONE_FAILURE, 1, Some(1)) == Completed(StoppedByTaskFailurePolicy, report)
  {
    assert Prefix(ONE_FAILURE, 0) == [];
    assert Prefix(ONE_FAILURE, 1) == [] + [Entry(0, Fail(7))];
    SumAppend(FailureOne, [], Entry(0, Fail(7)));
    assert SequentialFrom(ONE_FAILURE, 1, Some(1), 1) == SequentialEnd(1, false, false, false);
    EndSeenBeforeTrip(STOP_AT_ONCE, ONE_FAILURE);
  }

  // ----- bounds that are reached -----

  /**
   The admission bound is exact: over every source that yields that many items, for any number of workers and
   any limit, some run has `2 * workers + 1` tasks accepted and none ended.
   */
  lemma WindowFills(cfg: Config, src: Source) returns (labels: seq<Label>)
    requires cfg.Valid() && src.converts && 2 * cfg.workers < cfg.count
    requires forall i: nat :: i <= 2 * cfg.workers ==> src.at(i).Item?
    ensures RunOf(cfg, src, labels) && Run(cfg, labels)
    ensures
      var s := After(cfg, labels);
      s.pulled == s.accepted == 2 * cfg.workers + 1 && s.log == [] && |s.chan| == cfg.workers && s.producer.Holding?
  {
    assert Prefix(src, 0) == [];
    FillUp(cfg, src, 0);
    labels :| Traced(cfg, src, labels, Full(cfg, src, 0));
  }

  const ALL_FAIL := Source(true, (i: nat) => Item(Fail(0)))

  lemma {:induction false} AllFailures(log: seq<Entry>)
    requires forall k :: 0 <= k < |log| ==> log[k].end == Fail(0)
    ensures Failures(log) == |log|
  {
    if log != [] {
      AllFailures(log[..|log| - 1]);
    }
  }

  /** The bounds after a policy stop are exact: `2 * workers` tasks complete after the trip, and all of them fail. */
  lemma OvershootFills(cfg: Config) returns (labels: seq<Label>)
    requires cfg.Valid() && cfg.limit.Some? && cfg.limit.value + 2 * cfg.workers <= cfg.count
    ensures RunOf(cfg, ALL_FAIL, labels) && Run(cfg, labels)
    ensures
      var s := After(cfg, labels);
      && s.joined && !s.reporterStopped && Tripped(cfg, s.log)
      && |s.log| == cfg.limit.value + 2 * cfg.workers && Failures(s.log[..cfg.limit.value]) == cfg.limit.value
      && Failures(s.log) == cfg.limit.value + 2 * cfg.workers
  {
    var limit := cfg.limit.value;
    forall i: nat ensures Failures(Prefix(ALL_FAIL, i)) == i {
      AllFailures(Prefix(ALL_FAIL, i));
    }
    FillUp(cfg, ALL_FAIL, limit - 1);
    var t;
    labels, t := CompleteFrom(cfg, ALL_FAIL, Full(cfg, ALL_FAIL, limit - 1));
    TracedInv(cfg, ALL_FAIL, labels, t);
    DeathIsLogged(cfg, t);
    JoinedSurvivors(cfg, t);
    AllFailures(t.log);
    AllFailures(t.log[..limit]);
    StopLimitRefines(cfg, ALL_FAIL, labels);
  }

  const ALL_UNWIND := Source(true, (i: nat) => Item(RunThenUnwind))

  /** The first `k` loops have unwound under their tasks; the channel is full and the producer holds a task. */
  ghost function Unwinding(cfg: Config, k: nat): State
    requires k <= cfg.workers
  {
    var n := cfg.workers;
    var jobs := seq(n, w requires 0 <= w < n => if w < k then Died else Running(w));
    Loaded(ALL_UNWIND, Holding(2 * n), Segment(n, n), jobs, 2 * n + 1, k)
  }

  lemma {:induction false} UnwindSome(cfg: Config, k: nat)
    requires cfg.Valid() && k <= cfg.workers && 2 * cfg.workers < cfg.count
    ensures Reachable(cfg, ALL_UNWIND, Unwinding(cfg, k))
  {
    if k == 0 {
      assert Prefix(ALL_UNWIND, 0) == [];
      FillUp(cfg, ALL_UNWIND, 0);
      assert Unwinding(cfg, 0) == Full(cfg, ALL_UNWIND, 0);
    } else {
      UnwindSome(cfg, k - 1);
      var s := Take(cfg, ALL_UNWIND, Unwinding(cfg, k - 1), Finish(k - 1, RunThenUnwind));
      assert s.jobs == Unwinding(cfg, k).jobs && s.log == Prefix(ALL_UNWIND, k);
    }
  }

  /** For any number of workers, a producer can face a full channel with every worker loop unwound. */
  lemma AllLoopsUnwind(cfg: Config) returns (labels: seq<Label>)
    requires cfg.Valid() && 2 * cfg.workers < cfg.count
    ensures RunOf(cfg, ALL_UNWIND, labels) && Run(cfg, labels)
    ensures
      var s := After(cfg, labels);
      s.producer.Holding? && |s.chan| == cfg.workers && forall w :: 0 <= w < |s.jobs| ==> s.jobs[w].Died?
  {
    UnwindSome(cfg, cfg.workers);
    labels :| Traced(cfg, ALL_UNWIND, labels, Unwinding(cfg, cfg.workers));
  }

  /** The bound on lost tasks is exact: some joined run loses `workers + 1` accepted tasks. */
  lemma LossFills(cfg: Config) returns (labels: seq<Label>)
    requires cfg.Valid() && 2 * cfg.workers < cfg.count
    ensures RunOf(cfg, ALL_UNWIND, labels) && Run(cfg, labels)
    ensures
      var s := After(cfg, labels);
      s.joined && s.producer.Failed? && s.accepted - |s.log| == cfg.workers + 1
  {
    UnwindSome(cfg, cfg.workers);
    var s := Take(cfg, ALL_UNWIND, Unwinding(cfg, cfg.workers), SendFail);
    s := Take(cfg, ALL_UNWIND, s, Join);
    labels :| Traced(cfg, ALL_UNWIND, labels, s);
  }

  // ----- one channel per worker -----

  /** The rejected design: each loop has its own capacity-one channel, fed in turn. */
  datatype Split = Split(hand: Option<nat>, pulled: nat, chans: seq<Option<nat>>, running: seq<Option<nat>>)

  datatype SplitStep = PullNext | SendNext | ReceiveOwn(worker: nat) | FinishOwn(worker: nat)

  predicate SplitEnabled(s: Split, step: SplitStep)
    requires |s.chans| == |s.running| > 0
  {
    match step
    case PullNext => s.hand.None?
    case SendNext => s.hand.Some? && s.chans[s.hand.value % |s.chans|].None?
    case ReceiveOwn(w) => w < |s.chans| && s.running[w].None? && s.chans[w].Some?
    case FinishOwn(w) => w < |s.chans| && s.running[w].Some?
  }

  function SplitApply(s: Split, step: SplitStep): (t: Split)
    requires |s.chans| == |s.running| > 0 && SplitEnabled(s, step)
    ensures |t.chans| == |t.running| == |s.chans|
  {
    match step
    case PullNext => s.(hand := Some(s.pulled), pulled := s.pulled + 1)
    case SendNext =>
      var k := s.hand.value % |s.chans|;
      s.(hand := None, chans := s.chans[k := s.hand])
    case ReceiveOwn(w) => s.(running := s.running[w := s.chans[w]], chans := s.chans[w := None])
    case FinishOwn(w) => s.(running := s.running[w := None])
  }

  /** Each state is followed by one that a step leads to. */
  ghost predicate SplitRun(states: seq<Split>) {
    forall k :: 0 <= k < |states| - 1 ==> SplitNext(states[k], states[k + 1])
  }

  ghost predicate SplitNext(s: Split, t: Split) {
    |s.chans| == |s.running| > 0 && exists step :: SplitEnabled(s, step) && SplitApply(s, step) == t
  }

  lemma SplitTake(states: seq<Split>, step: SplitStep, t: Split) returns (more: seq<Split>)
    requires states != [] && SplitRun(states)
    requires
      var s := states[|states| - 1];
      |s.chans| == |s.running| > 0 && SplitEnabled(s, step) && SplitApply(s, step) == t
    ensures more == states + [t] && SplitRun(more)
  {
    more := states + [t];
  }

  /** The second loop has run its task; the first is still running its own. */
  lemma SplitHalfway() returns (states: seq<Split>)
    ensures states != [] && SplitRun(states) && states[0] == Split(None, 0, [None, None], [None, None])
    ensures states[|states| - 1] == Split(None, 2, [None, None], [Some(0), None])
  {
    states := [Split(None, 0, [None, None], [None, None])];
    states := SplitTake(states, PullNext, Split(Some(0), 1, [None, None], [None, None]));
    states := SplitTake(states, SendNext, Split(None, 1, [Some(0), None], [None, None]));
    states := SplitTake(states, ReceiveOwn(0), Split(None, 1, [None, None], [Some(0), None]));
    states := SplitTake(states, PullNext, Split(Some(1), 2, [None, None], [Some(0), None]));
    states := SplitTake(states, SendNext, Split(None, 2, [None, Some(1)], [Some(0), None]));
    states := SplitTake(states, ReceiveOwn(1), Split(None, 2, [None, None], [Some(0), Some(1)]));
    states := SplitTake(states, FinishOwn(1), Split(None, 2, [None, None], [Some(0), None]));
  }

  /**
   With a channel per worker the producer can be blocked while another loop waits on its empty channel:
   the only step left is the end of one task, so work conservation fails.
   */
  lemma SplitChannelsIdle() returns (states: seq<Split>)
    ensures states != [] && SplitRun(states) && states[0] == Split(None, 0, [None, None], [None, None])
    ensures
      var t := states[|states| - 1];
      && |t.chans| == |t.running| == 2
      && t.hand.Some? && !SplitEnabled(t, SendNext) && t.running[1].None? && t.chans[1].None?
      && forall step :: SplitEnabled(t, step) ==> step == FinishOwn(0)
  {
    states := SplitHalfway();
    states := SplitTake(states, PullNext, Split(Some(2), 3, [None, None], [Some(0), None]));
    states := SplitTake(states, SendNext, Split(None, 3, [Some(2), None], [Some(0), None]));
    states := SplitTake(states, PullNext, Split(Some(3), 4, [Some(2), None], [Some(0), None]));
    states := SplitTake(states, SendNext, Split(None, 4, [Some(2), Some(3)], [Some(0), None]));
    states := SplitTake(states, ReceiveOwn(1), Split(None, 4, [Some(2), None], [Some(0), Some(3)]));
    states := SplitTake(states, FinishOwn(1), Split(None, 4, [Some(2), None], [Some(0), None]));
    states := SplitTake(states, PullNext, Split(Some(4), 5, [Some(2), None], [Some(0), None]));
  }
}
