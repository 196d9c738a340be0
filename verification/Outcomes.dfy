/**
 What a batch reports: the index-sorted outcome, the classification of how it ended, the sequential
 executor as reference, and the refinement between the parallel and the sequential path.
 */
module Outcomes {
  import opened Basics
  import opened Protocol
  import opened Sources
  import opened Guarantees

  // ----- the recorder -----

  function SuccessOne(e: Entry): nat { if e.end.Succeed? then 1 else 0 }

  function ErrorOne(e: Entry): nat { if e.end.Fail? then 1 else 0 }

  function PanicOne(e: Entry): nat { if e.end.Panic? then 1 else 0 }

  function Lookup(log: seq<Entry>, index: nat): (r: Option<Behaviour>)
    ensures r.Some? <==> LogHas(log, index)
    ensures r.Some? ==> Entry(index, r.value) in log
  {
    if log == [] then None
    else if log[|log| - 1].index == index then Some(log[|log| - 1].end)
    else
      var n := |log| - 1;
      assert LogHas(log, index) <==> LogHas(log[..n], index) by {
        assert forall k :: 0 <= k < n ==> log[..n][k] == log[k];
      }
      Lookup(log[..n], index)
  }

  /** The recorded tasks below `n`, in index order. */
  function ByIndex(log: seq<Entry>, n: nat): seq<Entry> {
    if n == 0 then []
    else ByIndex(log, n - 1) + match Lookup(log, n - 1) case None => [] case Some(end) => [Entry(n - 1, end)]
  }

  function FailuresOf(entries: seq<Entry>): seq<Entry> {
    if entries == [] then []
    else
      var n := |entries| - 1;
      FailuresOf(entries[..n]) + if FailureOne(entries[n]) == 1 then [entries[n]] else []
  }

  function OutputsOf(entries: seq<Entry>): seq<(nat, int)> {
    if entries == [] then []
    else
      var n := |entries| - 1;
      OutputsOf(entries[..n]) + if entries[n].end.Succeed? then [(entries[n].index, entries[n].end.value)] else []
  }

  /** Counters are kept in completion order; failure details and outputs are sorted by task index. */
  datatype Report = Report(
    taskCount: nat,
    completed: nat,
    succeeded: nat,
    failed: nat,
    panicked: nat,
    failures: seq<Entry>,
    outputs: seq<(nat, int)>)

  function ReportOf(count: nat, log: seq<Entry>): Report {
    Report(count, |log|, Sum(SuccessOne, log), Sum(ErrorOne, log), Sum(PanicOne, log),
           FailuresOf(ByIndex(log, count)), OutputsOf(ByIndex(log, count)))
  }

  ghost predicate DistinctBelow(log: seq<Entry>, n: nat) {
    && (forall k :: 0 <= k < |log| ==> log[k].index < n)
    && (forall j, k :: 0 <= j < k < |log| ==> log[j].index != log[k].index)
  }

  lemma LookupAppend(log: seq<Entry>, e: Entry, index: nat)
    ensures Lookup(log + [e], index) == if e.index == index then Some(e.end) else Lookup(log, index)
  {
    assert (log + [e])[..|log|] == log;
  }

  lemma SumByIndexStep(f: Entry -> nat, log: seq<Entry>, n: nat)
    requires n > 0
    ensures Sum(f, ByIndex(log, n)) ==
      Sum(f, ByIndex(log, n - 1)) + match Lookup(log, n - 1) case None => 0 case Some(end) => f(Entry(n - 1, end))
  {
    match Lookup(log, n - 1)
    case None => assert ByIndex(log, n) == ByIndex(log, n - 1);
    case Some(end) => SumAppend(f, ByIndex(log, n - 1), Entry(n - 1, end));
  }

  lemma {:induction false} SumInsert(f: Entry -> nat, log: seq<Entry>, e: Entry, n: nat)
    requires !LogHas(log, e.index)
    ensures Sum(f, ByIndex(log + [e], n)) == Sum(f, ByIndex(log, n)) + if e.index < n then f(e) else 0
  {
    if n > 0 {
      SumInsert(f, log, e, n - 1);
      SumByIndexStep(f, log, n);
      SumByIndexStep(f, log + [e], n);
      LookupAppend(log, e, n - 1);
    }
  }

  lemma {:induction false} ByIndexOfNothing(n: nat)
    ensures ByIndex([], n) == []
  {
    if n > 0 {
      ByIndexOfNothing(n - 1);
    }
  }

  /** Sorting by index loses and repeats nothing. */
  lemma {:induction false} SumByIndex(f: Entry -> nat, log: seq<Entry>, n: nat)
    requires DistinctBelow(log, n)
    ensures Sum(f, log) == Sum(f, ByIndex(log, n))
  {
    if log == [] {
      ByIndexOfNothing(n);
    } else {
      var init, e := log[..|log| - 1], log[|log| - 1];
      assert init + [e] == log;
      assert forall k :: 0 <= k < |init| ==> init[k] == log[k];
      SumByIndex(f, init, n);
      SumInsert(f, init, e, n);
    }
  }

  lemma {:induction false} SameLookups(a: seq<Entry>, b: seq<Entry>, n: nat)
    requires forall i: nat :: i < n ==> Lookup(a, i) == Lookup(b, i)
    ensures ByIndex(a, n) == ByIndex(b, n)
  {
    if n > 0 {
      SameLookups(a, b, n - 1);
    }
  }

  /** The report does not depend on the order in which the tasks completed. */
  lemma ReportIgnoresOrder(count: nat, a: seq<Entry>, b: seq<Entry>)
    requires DistinctBelow(a, count) && DistinctBelow(b, count)
    requires forall i: nat :: i < count ==> Lookup(a, i) == Lookup(b, i)
    ensures ReportOf(count, a) == ReportOf(count, b)
    ensures Failures(a) == Failures(b)
  {
    SameLookups(a, b, count);
    var one := (e: Entry) => 1;
    SumByIndex(one, a, count);
    SumByIndex(one, b, count);
    SumOfOnes(a);
    SumOfOnes(b);
    SumByIndex(SuccessOne, a, count);
    SumByIndex(SuccessOne, b, count);
    SumByIndex(ErrorOne, a, count);
    SumByIndex(ErrorOne, b, count);
    SumByIndex(PanicOne, a, count);
    SumByIndex(PanicOne, b, count);
    SumByIndex(FailureOne, a, count);
    SumByIndex(FailureOne, b, count);
  }

  lemma {:induction false} SumOfOnes(log: seq<Entry>)
    ensures Sum((e: Entry) => 1, log) == |log|
  {
    if log != [] {
      SumOfOnes(log[..|log| - 1]);
    }
  }

  /** The counters and the sorted details of a report tell the same story. */
  lemma ReportIsConsistent(count: nat, log: seq<Entry>)
    requires DistinctBelow(log, count)
    ensures
      var r := ReportOf(count, log);
      && r.taskCount == count && r.completed == |log|
      && |r.outputs| == r.succeeded
      && |r.failures| == r.failed + r.panicked
      && r.failed == |set k | 0 <= k < |r.failures| && r.failures[k].end.Fail?|
      && r.panicked == |set k | 0 <= k < |r.failures| && r.failures[k].end.Panic?|
      && r.completed == r.succeeded + r.failed + r.panicked + Sum(UnwindOne, log)
      && SortedByIndex(r.failures)
      && (forall j, k :: 0 <= j < k < |r.outputs| ==> r.outputs[j].0 < r.outputs[k].0)
      && (forall e :: e in r.failures <==> e in log && (e.end.Fail? || e.end.Panic?))
      && (forall o :: o in r.outputs <==> Entry(o.0, Succeed(o.1)) in log)
  {
    var sorted := ByIndex(log, count);
    SumByIndex(SuccessOne, log, count);
    SumByIndex(FailureOne, log, count);
    SumByIndex(ErrorOne, log, count);
    SumByIndex(PanicOne, log, count);
    KindsKept(sorted);
    CountsOfKinds(FailuresOf(sorted));
    KindsAddUp(log);
    SortedEntries(log, count);
    FailuresKept(sorted);
    OutputsKept(sorted);
  }

  /** Leaving out successes loses no errors and no panics. */
  lemma {:induction false} KindsKept(s: seq<Entry>)
    ensures Sum(ErrorOne, FailuresOf(s)) == Sum(ErrorOne, s)
    ensures Sum(PanicOne, FailuresOf(s)) == Sum(PanicOne, s)
  {
    if s != [] {
      var n := |s| - 1;
      KindsKept(s[..n]);
      assert FailuresOf(s[..n]) + [] == FailuresOf(s[..n]);
      SumAppend(ErrorOne, FailuresOf(s[..n]), s[n]);
      SumAppend(PanicOne, FailuresOf(s[..n]), s[n]);
    }
  }

  lemma {:induction false} CountPositions(f: Entry -> nat, s: seq<Entry>, positions: set<int>)
    requires forall e :: f(e) <= 1
    requires forall k :: k in positions <==> 0 <= k < |s| && f(s[k]) == 1
    ensures Sum(f, s) == |positions|
  {
    if s == [] {
      assert forall k :: k !in positions;
      NoElements(positions);
    } else {
      var n := |s| - 1;
      CountPositions(f, s[..n], positions - {n});
    }
  }

  lemma CountsOfKinds(s: seq<Entry>)
    ensures Sum(ErrorOne, s) == |set k | 0 <= k < |s| && s[k].end.Fail?|
    ensures Sum(PanicOne, s) == |set k | 0 <= k < |s| && s[k].end.Panic?|
  {
    CountPositions(ErrorOne, s, set k | 0 <= k < |s| && s[k].end.Fail?);
    CountPositions(PanicOne, s, set k | 0 <= k < |s| && s[k].end.Panic?);
  }

  lemma {:induction false} KindsAddUp(log: seq<Entry>)
    ensures |log| == Sum(SuccessOne, log) + Sum(ErrorOne, log) + Sum(PanicOne, log) + Sum(UnwindOne, log)
    ensures Failures(log) == Sum(ErrorOne, log) + Sum(PanicOne, log)
  {
    if log != [] {
      KindsAddUp(log[..|log| - 1]);
    }
  }

  lemma {:induction false} LookupFinds(log: seq<Entry>, k: nat)
    requires k < |log| && forall i, j :: 0 <= i < j < |log| ==> log[i].index != log[j].index
    ensures Lookup(log, log[k].index) == Some(log[k].end)
  {
    var n := |log| - 1;
    if k < n {
      LookupFinds(log[..n], k);
    }
  }

  ghost predicate SortedByIndex(s: seq<Entry>) {
    forall j, k :: 0 <= j < k < |s| ==> s[j].index < s[k].index
  }

  lemma {:induction false} ByIndexHas(log: seq<Entry>, n: nat, e: Entry)
    ensures e in ByIndex(log, n) <==> e.index < n && Lookup(log, e.index) == Some(e.end)
  {
    if n > 0 {
      ByIndexHas(log, n - 1, e);
    }
  }

  lemma {:induction false} ByIndexSorted(log: seq<Entry>, n: nat)
    ensures SortedByIndex(ByIndex(log, n))
  {
    if n > 0 {
      ByIndexSorted(log, n - 1);
      var b := ByIndex(log, n - 1);
      forall k | 0 <= k < |b| ensures b[k].index < n - 1 {
        ByIndexHas(log, n - 1, b[k]);
      }
    }
  }

  lemma SortedEntries(log: seq<Entry>, n: nat)
    requires DistinctBelow(log, n)
    ensures
      var b := ByIndex(log, n);
      SortedByIndex(b) && forall e :: e in b <==> e in log
  {
    ByIndexSorted(log, n);
    forall e ensures e in ByIndex(log, n) <==> e in log {
      ByIndexHas(log, n, e);
      if e in log {
        var k :| 0 <= k < |log| && log[k] == e;
        LookupFinds(log, k);
      }
    }
  }

  lemma {:induction false} FailuresKept(s: seq<Entry>)
    requires SortedByIndex(s)
    ensures |FailuresOf(s)| == Sum(FailureOne, s) && SortedByIndex(FailuresOf(s))
    ensures forall e :: e in FailuresOf(s) <==> e in s && (e.end.Fail? || e.end.Panic?)
  {
    if s != [] {
      var n := |s| - 1;
      assert s == s[..n] + [s[n]];
      FailuresKept(s[..n]);
      var f := FailuresOf(s[..n]);
      forall k | 0 <= k < |f| ensures f[k].index < s[n].index {
        assert f[k] in s[..n];
      }
    }
  }

  lemma {:induction false} OutputsKept(s: seq<Entry>)
    requires SortedByIndex(s)
    ensures |OutputsOf(s)| == Sum(SuccessOne, s)
    ensures forall j, k :: 0 <= j < k < |OutputsOf(s)| ==> OutputsOf(s)[j].0 < OutputsOf(s)[k].0
    ensures forall o :: o in OutputsOf(s) <==> Entry(o.0, Succeed(o.1)) in s
  {
    if s != [] {
      var n := |s| - 1;
      assert s == s[..n] + [s[n]];
      OutputsKept(s[..n]);
      var f := OutputsOf(s[..n]);
      forall k | 0 <= k < |f| ensures f[k].0 < s[n].index {
        assert f[k] in f;
        assert Entry(f[k].0, Succeed(f[k].1)) in s[..n];
      }
    }
  }

  // ----- classification -----

  datatype Termination = Finished | StoppedByTaskFailurePolicy

  datatype Verdict =
    | Reraised
    | ScheduleFailed(report: Report)
    | IncompleteSchedule(report: Report)
    | CountShortfall(expected: nat, actual: nat, report: Report)
    | CountExceeded(expected: nat, observedAtLeast: nat, report: Report)
    | ProgressReport(report: Report)
    | Completed(termination: Termination, report: Report)

  /** Count errors come first; a policy stop is reported only when exhaustion was not seen. */
  function Classify(count: nat, accepted: nat, exhausted: bool, excess: bool, reporterFailed: bool,
                          log: seq<Entry>): Verdict
  {
    var report := ReportOf(count, log);
    if exhausted && accepted < count then CountShortfall(count, accepted, report)
    else if excess then CountExceeded(count, count + 1, report)
    else if reporterFailed then ProgressReport(report)
    else Completed(if exhausted then Finished else StoppedByTaskFailurePolicy, report)
  }

  /** What the caller of a joined parallel batch gets; the scope re-raises an unwind before anything else. */
  function ParallelVerdict(cfg: Config, s: State): Verdict {
    if AnyDied(s) || s.producer.Unwound? then Reraised
    else if s.producer.Failed? then ScheduleFailed(ReportOf(cfg.count, s.log))
    else if |s.log| < s.accepted then IncompleteSchedule(ReportOf(cfg.count, s.log))
    else Classify(cfg.count, s.accepted, s.exhausted, s.excess, s.reporterStopped, s.log)
  }

  /** Some interleaving of the batch ends with this verdict. */
  ghost predicate Possible(cfg: Config, src: Source, reporterMayFail: bool, verdict: Verdict) {
    exists labels :: EndsWith(cfg, src, reporterMayFail, labels, verdict)
  }

  ghost predicate EndsWith(cfg: Config, src: Source, reporterMayFail: bool, labels: seq<Label>, verdict: Verdict) {
    && RunOf(cfg, src, labels) && Run(cfg, labels)
    && After(cfg, labels).joined && (After(cfg, labels).reporterStopped ==> reporterMayFail)
    && verdict == ParallelVerdict(cfg, After(cfg, labels))
  }

  /** The two scheduler errors are never what a joined batch reports: a lost token always re-raises. */
  lemma SchedulerErrorsUnreachable(cfg: Config, labels: seq<Label>)
    requires cfg.Valid() && Run(cfg, labels) && After(cfg, labels).joined
    ensures
      var s := After(cfg, labels);
      && !ParallelVerdict(cfg, s).ScheduleFailed?
      && !ParallelVerdict(cfg, s).IncompleteSchedule?
      && (s.producer.Failed? || |s.log| < s.accepted ==> ParallelVerdict(cfg, s).Reraised?)
  {
    ReachableInv(cfg, labels);
    if !AnyDied(After(cfg, labels)) {
      ExactlyOnceDrain(cfg, labels);
    }
    UnwindDichotomy(cfg, labels);
  }

  /** Each label of a joined batch, in terms of the source and of what was executed. */
  lemma VerdictMeaning(cfg: Config, src: Source, labels: seq<Label>)
    requires cfg.Valid() && RunOf(cfg, src, labels)
    ensures Run(cfg, labels)
    ensures
      var s := After(cfg, labels);
      var v := ParallelVerdict(cfg, s);
      s.joined && v != Reraised ==>
        && Drained(s)
        && (forall i: nat :: i < s.accepted ==> src.at(i).Item? && Lookup(s.log, i) == Some(src.at(i).task))
        && (v.CountShortfall? <==> s.exhausted && s.accepted < cfg.count)
        && (v.CountShortfall? ==>
              v.expected == cfg.count && v.actual == v.report.completed < v.expected && src.at(v.actual).End?)
        && (v.CountExceeded? <==> s.excess)
        && (v.CountExceeded? ==> v.expected == cfg.count && v.observedAtLeast == cfg.count + 1)
        && (v.CountExceeded? ==>
              v.report.completed == cfg.count && src.at(cfg.count).Item? && !LogHas(s.log, cfg.count))
        && (v.ProgressReport? ==> s.reporterStopped)
        && (v.Completed? && v.termination.Finished? ==> v.report.completed == cfg.count && src.at(cfg.count).End?)
        && (v.Completed? && v.termination.StoppedByTaskFailurePolicy? ==>
              Tripped(cfg, s.log) && !s.exhausted && cfg.limit.value <= v.report.failed + v.report.panicked)
  {
    RunAgrees(cfg, src, labels);
    var s := After(cfg, labels);
    if s.joined && ParallelVerdict(cfg, s) != Reraised {
      ExactlyOnceDrain(cfg, labels);
      SchedulerErrorsUnreachable(cfg, labels);
      KindsAddUp(s.log);
      LookupsAgree(src, s);
    }
  }

  lemma LookupsAgree(src: Source, s: State)
    requires Agrees(src, s)
    ensures forall i: nat :: LogHas(s.log, i) ==> src.at(i).Item? && Lookup(s.log, i) == Some(src.at(i).task)
  {
    forall i: nat | LogHas(s.log, i) ensures src.at(i).Item? && Lookup(s.log, i) == Some(src.at(i).task) {
      var r := Lookup(s.log, i);
      assert Entry(i, r.value) in s.log;
    }
  }

  // ----- the sequential executor -----

  ghost function TaskAt(src: Source, i: nat): Behaviour {
    if src.at(i).Item? then src.at(i).task else Panic
  }

  /** The first `n` tasks, executed in order. */
  ghost function Prefix(src: Source, n: nat): (r: seq<Entry>)
    ensures |r| == n
    ensures forall k :: 0 <= k < n ==> r[k] == Entry(k, TaskAt(src, k))
  {
    seq(n, i requires i >= 0 => Entry(i, TaskAt(src, i)))
  }

  /** How a sequential run ends after executing its first `done` tasks. */
  datatype SequentialEnd = SequentialEnd(done: nat, exhausted: bool, excess: bool, unwound: bool)

  ghost predicate LimitReached(limit: Option<nat>, log: seq<Entry>) {
    limit.Some? && Failures(log) >= limit.value
  }

  /** The sequential executor: it checks the policy before every pull and runs each task at once. */
  ghost function SequentialFrom(src: Source, count: nat, limit: Option<nat>, k: nat): SequentialEnd
    requires k <= count
    decreases count - k
  {
    if LimitReached(limit, Prefix(src, k)) then SequentialEnd(k, false, false, false)
    else
      match src.at(k)
      case End => SequentialEnd(k, true, false, false)
      case Unwinds => SequentialEnd(k, false, false, true)
      case Item(task) =>
        if k == count then SequentialEnd(k, false, true, false)
        else if task.RunThenUnwind? then SequentialEnd(k, false, false, true)
        else SequentialFrom(src, count, limit, k + 1)
  }

  ghost function SequentialVerdict(src: Source, count: nat, limit: Option<nat>): Verdict {
    if !src.converts then Reraised
    else
      var e := SequentialFrom(src, count, limit, 0);
      if e.unwound then Reraised
      else Classify(count, e.done, e.exhausted, e.excess, false, Prefix(src, e.done))
  }

  /** Running the first `m` tasks does not stop a sequential run before position `m`. */
  ghost predicate PassesThrough(src: Source, limit: Option<nat>, m: nat) {
    && (forall i: nat :: i < m ==> src.at(i).Item? && !src.at(i).task.RunThenUnwind?)
    && (forall i: nat :: i < m ==> !LimitReached(limit, Prefix(src, i)))
  }

  lemma {:induction false} SequentialReaches(src: Source, count: nat, limit: Option<nat>, k: nat, m: nat)
    requires k <= m <= count && PassesThrough(src, limit, m)
    ensures SequentialFrom(src, count, limit, k) == SequentialFrom(src, count, limit, m)
    decreases m - k
  {
    if k < m {
      SequentialReaches(src, count, limit, k + 1, m);
    }
  }

  /**
   Where a sequential run ends: at the first position where the policy stops it, the source ends or unwinds,
   an item is in excess, or a task unwinds, and the flags tell which of these it is.
   */
  lemma {:induction false} SequentialEnds(src: Source, count: nat, limit: Option<nat>, k: nat)
    requires k <= count
    ensures
      var e := SequentialFrom(src, count, limit, k);
      var stopped := LimitReached(limit, Prefix(src, e.done));
      && k <= e.done <= count
      && (forall i: nat :: k <= i < e.done ==> src.at(i).Item? && !src.at(i).task.RunThenUnwind?)
      && (forall i: nat :: k <= i < e.done ==> !LimitReached(limit, Prefix(src, i)))
      && (stopped || !src.at(e.done).Item? || e.done == count || src.at(e.done).task.RunThenUnwind?)
      && (e.exhausted <==> !stopped && src.at(e.done).End?)
      && (e.excess <==> !stopped && src.at(e.done).Item? && e.done == count)
      && (e.unwound <==> !stopped && !e.exhausted && !e.excess)
    decreases count - k
  {
    if !LimitReached(limit, Prefix(src, k)) && k < count && src.at(k).Item? && !src.at(k).task.RunThenUnwind? {
      SequentialEnds(src, count, limit, k + 1);
    }
  }

  /** A sequential run does not get past a position that stops it. */
  lemma SequentialStopsBy(src: Source, count: nat, limit: Option<nat>, m: nat)
    requires m <= count
    requires LimitReached(limit, Prefix(src, m)) || !src.at(m).Item? || m == count || src.at(m).task.RunThenUnwind?
    ensures SequentialFrom(src, count, limit, 0).done <= m
    ensures
      var e := SequentialFrom(src, count, limit, 0);
      var stopped := LimitReached(limit, Prefix(src, m));
      (forall i: nat :: i < m ==> src.at(i).Item? && !src.at(i).task.RunThenUnwind?) ==>
        && (stopped || src.at(m).End? || (src.at(m).Item? && m == count) ==> !e.unwound)
        && (stopped ==> !e.exhausted && !e.excess)
  {
    SequentialEnds(src, count, limit, 0);
  }

  lemma {:induction false} PrefixFailuresGrow(src: Source, i: nat, n: nat)
    requires i <= n
    ensures Failures(Prefix(src, i)) <= Failures(Prefix(src, n))
    decreases n
  {
    if i < n {
      PrefixFailuresGrow(src, i, n - 1);
      assert Prefix(src, n)[..n - 1] == Prefix(src, n - 1);
    }
  }

  lemma PrefixStep(src: Source, n: nat)
    ensures Failures(Prefix(src, n + 1)) == Failures(Prefix(src, n)) + FailureOne(Entry(n, TaskAt(src, n)))
  {
    assert Prefix(src, n + 1)[..n] == Prefix(src, n);
  }

  lemma PrefixLookup(src: Source, n: nat, i: nat)
    ensures Lookup(Prefix(src, n), i) == if i < n then Some(TaskAt(src, i)) else None
  {
    if i < n {
      LookupFinds(Prefix(src, n), i);
    }
  }

  // ----- refinement -----

  /** The tasks that ended in `s`, as a set of indexes `[0, m)`, are those of the sequential prefix. */
  lemma DrainedIsPrefix(cfg: Config, src: Source, s: State)
    requires cfg.Valid() && Inv(cfg, s) && Agrees(src, s)
    requires forall i: nat :: i < |s.log| <==> LogHas(s.log, i)
    ensures ReportOf(cfg.count, s.log) == ReportOf(cfg.count, Prefix(src, |s.log|))
    ensures Failures(s.log) == Failures(Prefix(src, |s.log|))
  {
    LookupsAgree(src, s);
    forall i: nat ensures Lookup(s.log, i) == Lookup(Prefix(src, |s.log|), i) {
      PrefixLookup(src, |s.log|, i);
    }
    ReportIgnoresOrder(cfg.count, s.log, Prefix(src, |s.log|));
  }

  /** At the join every dequeued token has ended. */
  lemma JoinedLog(cfg: Config, s: State)
    requires cfg.Valid() && Inv(cfg, s) && s.joined
    ensures forall i: nat :: i < |s.log| <==> LogHas(s.log, i)
  {
    SumZero(RunningOne, s.jobs);
    UnfinishedAreRunning(cfg, s);
    forall i: nat | i < |s.log| ensures LogHas(s.log, i) {
      assert i !in Unfinished(s, |s.log|);
    }
  }

  lemma DeathIsLogged(cfg: Config, s: State)
    requires Inv(cfg, s)
    ensures AnyDied(s) <==> exists k :: 0 <= k < |s.log| && s.log[k].end.RunThenUnwind?
  {
    SumZero(DiedOne, s.jobs);
    SumZero(UnwindOne, s.log);
  }

  /** A task that unwinds, or a source that does, re-raises on the sequential path as well. */
  lemma SequentialReraises(src: Source, count: nat, limit: Option<nat>, m: nat)
    requires src.converts && m <= count
    requires forall i: nat :: i < m ==> src.at(i).Item?
    requires src.at(m).Unwinds? || (m < count && src.at(m) == Item(RunThenUnwind))
    requires !LimitReached(limit, Prefix(src, m))
    ensures SequentialVerdict(src, count, limit) == Reraised
  {
    if first: nat :| first < m && src.at(first).task.RunThenUnwind? {
      PrefixFailuresGrow(src, first, m);
      SequentialReraises(src, count, limit, first);
    } else {
      forall i: nat | i < m ensures !LimitReached(limit, Prefix(src, i)) {
        PrefixFailuresGrow(src, i, m);
      }
      SequentialReaches(src, count, limit, 0, m);
    }
  }

  /**
   Refinement: a parallel run that the failure policy did not stop, which under the continue policy is
   every run, reports exactly what the sequential executor reports on the same source.
   */
  lemma RefinesSequential(cfg: Config, src: Source, labels: seq<Label>)
    requires cfg.Valid() && RunOf(cfg, src, labels)
    ensures Run(cfg, labels)
    ensures
      var s := After(cfg, labels);
      s.joined && !s.reporterStopped && !Tripped(cfg, s.log) ==>
        ParallelVerdict(cfg, s) == SequentialVerdict(src, cfg.count, cfg.limit)
  {
    RunAgrees(cfg, src, labels);
    var s := After(cfg, labels);
    if s.joined && !s.reporterStopped && !Tripped(cfg, s.log) {
      if AnyDied(s) {
        UntrippedDeathReraises(cfg, src, s);
      } else {
        ExactlyOnceDrain(cfg, labels);
        UntrippedRefines(cfg, src, s);
      }
    }
  }

  /** The failure policy stops a sequential run over `src`. */
  ghost predicate PolicyStops(src: Source, count: nat, limit: Option<nat>) {
    src.converts && LimitReached(limit, Prefix(src, SequentialFrom(src, count, limit, 0).done))
  }

  /**
   Over a source on which the policy does not stop the sequential executor, every interleaving reports what the
   sequential executor reports; also one that trips because it runs ahead of a task that unwinds.
   */
  lemma UnstoppedRefinesSequential(cfg: Config, src: Source, labels: seq<Label>)
    requires cfg.Valid() && RunOf(cfg, src, labels) && !PolicyStops(src, cfg.count, cfg.limit)
    ensures Run(cfg, labels)
    ensures
      var s := After(cfg, labels);
      s.joined && !s.reporterStopped ==> ParallelVerdict(cfg, s) == SequentialVerdict(src, cfg.count, cfg.limit)
  {
    RefinesSequential(cfg, src, labels);
    RunAgrees(cfg, src, labels);
    var s := After(cfg, labels);
    if s.joined && Tripped(cfg, s.log) {
      OutrunReraises(cfg, src, s);
    }
  }

  lemma OutrunReraises(cfg: Config, src: Source, s: State)
    requires cfg.Valid() && Inv(cfg, s) && Agrees(src, s) && s.joined
    requires Tripped(cfg, s.log) && !PolicyStops(src, cfg.count, cfg.limit)
    ensures AnyDied(s) && SequentialVerdict(src, cfg.count, cfg.limit) == Reraised
  {
    var d := SequentialFrom(src, cfg.count, cfg.limit, 0).done;
    JoinedLog(cfg, s);
    DrainedIsPrefix(cfg, src, s);
    DeathIsLogged(cfg, s);
    SequentialEnds(src, cfg.count, cfg.limit, 0);
    if |s.log| <= d {
      PrefixFailuresGrow(src, |s.log|, d);
    } else {
      assert LogHas(s.log, d);
    }
  }

  lemma UntrippedDeathReraises(cfg: Config, src: Source, s: State)
    requires cfg.Valid() && Inv(cfg, s) && Agrees(src, s)
    requires s.joined && !Tripped(cfg, s.log) && AnyDied(s)
    ensures SequentialVerdict(src, cfg.count, cfg.limit) == Reraised
  {
    JoinedLog(cfg, s);
    DeathIsLogged(cfg, s);
    DrainedIsPrefix(cfg, src, s);
    var k :| 0 <= k < |s.log| && s.log[k].end.RunThenUnwind?;
    assert LogHas(s.log, s.log[k].index);
    PrefixFailuresGrow(src, s.log[k].index, |s.log|);
    SequentialReraises(src, cfg.count, cfg.limit, s.log[k].index);
  }

  lemma UntrippedRefines(cfg: Config, src: Source, s: State)
    requires cfg.Valid() && Inv(cfg, s) && Agrees(src, s)
    requires s.joined && !s.reporterStopped && !Tripped(cfg, s.log) && !AnyDied(s) && Drained(s) && !s.producer.Failed?
    ensures ParallelVerdict(cfg, s) == SequentialVerdict(src, cfg.count, cfg.limit)
  {
    var m := s.accepted;
    DrainedIsPrefix(cfg, src, s);
    if s.producer.Unwound? {
      if src.converts {
        SequentialReraises(src, cfg.count, cfg.limit, m);
      }
    } else {
      PassesAll(cfg, src, s);
      SequentialReaches(src, cfg.count, cfg.limit, 0, m);
    }
  }

  lemma PassesAll(cfg: Config, src: Source, s: State)
    requires cfg.Valid() && Inv(cfg, s) && Agrees(src, s)
    requires !Tripped(cfg, s.log) && !AnyDied(s) && Drained(s)
    ensures PassesThrough(src, cfg.limit, s.accepted)
  {
    DrainedIsPrefix(cfg, src, s);
    DeathIsLogged(cfg, s);
    forall i: nat | i < s.accepted
      ensures !src.at(i).task.RunThenUnwind? && !LimitReached(cfg.limit, Prefix(src, i))
    {
      PrefixFailuresGrow(src, i, s.accepted);
      assert LogHas(s.log, i);
    }
  }

  /** Under the continue policy no run trips, so the two paths always report the same. */
  lemma ContinueRefinesSequential(cfg: Config, src: Source, labels: seq<Label>)
    requires cfg.Valid() && cfg.limit.None? && RunOf(cfg, src, labels)
    ensures Run(cfg, labels)
    ensures After(cfg, labels).joined && !After(cfg, labels).reporterStopped ==>
      ParallelVerdict(cfg, After(cfg, labels)) == SequentialVerdict(src, cfg.count, None)
  {
    RefinesSequential(cfg, src, labels);
  }

  /**
   Under a stop limit the tasks that a joined run executed are the first `|s.log|` ones, each with its own result,
   and the sequential run executes a prefix of them. At most `2 * workers` tasks complete after the failure that
   trips the limit. This holds of runs that re-raise too; the others also report as the sequential run does when
   no more tasks completed.
   */
  lemma StopLimitRefines(cfg: Config, src: Source, labels: seq<Label>)
    requires cfg.Valid() && cfg.limit.Some? && RunOf(cfg, src, labels)
    ensures Run(cfg, labels)
    ensures
      var s := After(cfg, labels);
      s.joined ==>
        && (forall i: nat :: i < |s.log| <==> LogHas(s.log, i))
        && (forall i: nat :: i < |s.log| ==> src.at(i).Item? && Lookup(s.log, i) == Some(src.at(i).task))
        && (forall k: nat :: k <= |s.log| && Failures(s.log[..k]) >= cfg.limit.value ==> |s.log| <= k + 2 * cfg.workers)
        && Failures(s.log) <= cfg.limit.value + 2 * cfg.workers
    ensures
      var s := After(cfg, labels);
      var e := SequentialFrom(src, cfg.count, cfg.limit, 0);
      s.joined && !s.reporterStopped && src.converts ==>
        && e.done <= |s.log|
        && (ParallelVerdict(cfg, s) != Reraised ==> !e.unwound && |s.log| == s.accepted)
        && (ParallelVerdict(cfg, s) != Reraised && e.done == |s.log| ==>
              ParallelVerdict(cfg, s).report == SequentialVerdict(src, cfg.count, cfg.limit).report)
  {
    RunAgrees(cfg, src, labels);
    var s := After(cfg, labels);
    if s.joined {
      ExecutedPrefix(cfg, src, s);
      if !s.reporterStopped && src.converts {
        SequentialStopsEarlier(cfg, src, s);
        if !AnyDied(s) && !s.producer.Unwound? {
          ExactlyOnceDrain(cfg, labels);
          SchedulerErrorsUnreachable(cfg, labels);
          DrainedIsPrefix(cfg, src, s);
        }
      }
    }
  }

  lemma ExecutedPrefix(cfg: Config, src: Source, s: State)
    requires cfg.Valid() && cfg.limit.Some? && Inv(cfg, s) && Agrees(src, s) && s.joined
    ensures forall i: nat :: i < |s.log| <==> LogHas(s.log, i)
    ensures forall i: nat :: i < |s.log| ==> src.at(i).Item? && Lookup(s.log, i) == Some(src.at(i).task)
    ensures forall k: nat ::
      k <= |s.log| && Failures(s.log[..k]) >= cfg.limit.value ==> |s.log| <= k + 2 * cfg.workers
    ensures Failures(s.log) <= cfg.limit.value + 2 * cfg.workers
  {
    JoinedLog(cfg, s);
    LookupsAgree(src, s);
    forall k: nat | k <= |s.log| && Failures(s.log[..k]) >= cfg.limit.value
      ensures |s.log| <= k + 2 * cfg.workers
    {
      assert TrippedAt(cfg, s.log, k);
    }
    if Tripped(cfg, s.log) {
      FailuresAfterTrip(cfg.limit.value, s.log);
    }
  }

  /** The sequential run does not get past the tasks of a joined parallel run. */
  lemma SequentialStopsEarlier(cfg: Config, src: Source, s: State)
    requires cfg.Valid() && Inv(cfg, s) && Agrees(src, s) && s.joined && !s.reporterStopped && src.converts
    ensures
      var e := SequentialFrom(src, cfg.count, cfg.limit, 0);
      && e.done <= |s.log|
      && (!AnyDied(s) && !s.producer.Unwound? ==> !e.unwound)
  {
    JoinedLog(cfg, s);
    DeathIsLogged(cfg, s);
    LookupsAgree(src, s);
    if AnyDied(s) {
      var k :| 0 <= k < |s.log| && s.log[k].end.RunThenUnwind?;
      assert LogHas(s.log, s.log[k].index);
      SequentialStopsBy(src, cfg.count, cfg.limit, s.log[k].index);
    } else {
      JoinedSurvivors(cfg, s);
      DrainedIsPrefix(cfg, src, s);
      forall i: nat | i < s.accepted ensures !src.at(i).task.RunThenUnwind? {
        assert LogHas(s.log, i);
      }
      SequentialStopsBy(src, cfg.count, cfg.limit, s.accepted);
    }
  }

  lemma JoinedSurvivors(cfg: Config, s: State)
    requires cfg.Valid() && Inv(cfg, s) && s.joined && !AnyDied(s)
    ensures Drained(s) && !s.producer.Failed?
  {
    if s.jobs != [] {
      assert !s.jobs[0].Died?;
    }
    JoinedDrained(cfg, s);
  }

  /**
   After a policy stop the parallel verdict equals the sequential one exactly when no more tasks completed
   and the producer had not yet seen the end of the source.
   */
  lemma StoppedVerdictsAgreeExactly(cfg: Config, src: Source, labels: seq<Label>)
    requires cfg.Valid() && cfg.limit.Some? && RunOf(cfg, src, labels)
    ensures Run(cfg, labels)
    ensures
      var s := After(cfg, labels);
      s.joined && !s.reporterStopped && ParallelVerdict(cfg, s) != Reraised && Tripped(cfg, s.log) ==>
        (ParallelVerdict(cfg, s) == SequentialVerdict(src, cfg.count, cfg.limit) <==>
           SequentialFrom(src, cfg.count, cfg.limit, 0).done == s.accepted && !s.exhausted && !s.excess)
  {
    StopLimitRefines(cfg, src, labels);
    RunAgrees(cfg, src, labels);
    var s := After(cfg, labels);
    if s.joined && !s.reporterStopped && ParallelVerdict(cfg, s) != Reraised && Tripped(cfg, s.log) {
      ExactlyOnceDrain(cfg, labels);
      SchedulerErrorsUnreachable(cfg, labels);
      TrippedSequentialEnd(cfg, src, s);
    }
  }

  /** If the parallel run tripped, so does the sequential one, before it can see the end of the source. */
  lemma TrippedSequentialEnd(cfg: Config, src: Source, s: State)
    requires cfg.Valid() && Inv(cfg, s) && Agrees(src, s) && Drained(s) && !AnyDied(s) && Tripped(cfg, s.log)
    ensures
      var e := SequentialFrom(src, cfg.count, cfg.limit, 0);
      !e.exhausted && !e.excess && !e.unwound
  {
    DrainedIsPrefix(cfg, src, s);
    DeathIsLogged(cfg, s);
    LookupsAgree(src, s);
    forall i: nat | i < s.accepted ensures !src.at(i).task.RunThenUnwind? {
      assert LogHas(s.log, i);
    }
    SequentialStopsBy(src, cfg.count, cfg.limit, s.accepted);
  }

  /** The completion that trips the limit: the first after which `limit` failures are recorded. */
  ghost function TripPoint(limit: nat, log: seq<Entry>): (k: nat)
    requires limit >= 1 && Failures(log) >= limit
    ensures 1 <= k <= |log|
    ensures Failures(log[..k]) == limit
    ensures forall j: nat :: j < k ==> Failures(log[..j]) < limit
  {
    var n := |log| - 1;
    assert log[..|log|] == log;
    if Failures(log[..n]) >= limit then
      var k := TripPoint(limit, log[..n]);
      assert forall j: nat :: j <= k ==> log[..n][..j] == log[..j];
      k
    else
      PrefixesBelow(log, n, limit);
      |log|
  }

  lemma PrefixesBelow(log: seq<Entry>, n: nat, limit: nat)
    requires n <= |log| && Failures(log[..n]) < limit
    ensures forall j: nat :: j <= n ==> Failures(log[..j]) < limit
  {
    forall j: nat | j <= n ensures Failures(log[..j]) < limit {
      assert log[..n] == log[..j] + log[j..n];
      SumConcat(FailureOne, log[..j], log[j..n]);
    }
  }

  lemma FailuresAfterTrip(limit: nat, log: seq<Entry>)
    requires limit >= 1 && Failures(log) >= limit
    ensures Failures(log) <= limit + |log| - TripPoint(limit, log)
  {
    var k := TripPoint(limit, log);
    assert log == log[..k] + log[k..];
    SumConcat(FailureOne, log[..k], log[k..]);
    SumAtMost(FailureOne, log[k..], 1);
  }

  // ----- what a report says about the source -----

  /** The verdict is one on the first `m` tasks, and its label says what happened after them. */
  ghost predicate Explained(src: Source, count: nat, limit: Option<nat>, reporterMayFail: bool, m: nat,
                            verdict: Verdict)
  {
    && verdict != Reraised && verdict.report == ReportOf(count, Prefix(src, m))
    && src.converts && m <= count
    && (forall i: nat :: i < m ==> src.at(i).Item? && !src.at(i).task.RunThenUnwind?)
    && (match verdict
        case CountShortfall(expected, actual, _) => expected == count && actual == m < count && src.at(m).End?
        case CountExceeded(expected, seen, _) => expected == count == m && seen == count + 1 && src.at(m).Item?
        case ProgressReport(_) => reporterMayFail
        case Completed(Finished, _) => m == count && src.at(m).End?
        case Completed(StoppedByTaskFailurePolicy, _) => LimitReached(limit, Prefix(src, m))
        case _ => false)
  }

  /** A joined batch that does not re-raise explains itself, also when its reporter failed. */
  lemma PossibleExplained(cfg: Config, src: Source, reporterMayFail: bool, verdict: Verdict) returns (m: nat)
    requires cfg.Valid() && Possible(cfg, src, reporterMayFail, verdict) && verdict != Reraised
    ensures Explained(src, cfg.count, cfg.limit, reporterMayFail, m, verdict)
    ensures cfg.limit.Some? ==> Failures(Prefix(src, m)) <= cfg.limit.value + 2 * cfg.workers
  {
    var labels :| EndsWith(cfg, src, reporterMayFail, labels, verdict);
    var s := After(cfg, labels);
    RunAgrees(cfg, src, labels);
    SchedulerErrorsUnreachable(cfg, labels);
    JoinedSurvivors(cfg, s);
    DrainedIsPrefix(cfg, src, s);
    SurvivorsClean(cfg, src, s);
    if cfg.limit.Some? {
      ExecutedPrefix(cfg, src, s);
    }
    m := s.accepted;
  }

  /** When no loop was lost and everything was executed, no accepted task unwinds. */
  lemma SurvivorsClean(cfg: Config, src: Source, s: State)
    requires Inv(cfg, s) && Agrees(src, s) && !AnyDied(s) && Drained(s)
    ensures forall i: nat :: i < s.accepted ==> src.at(i).Item? && !src.at(i).task.RunThenUnwind?
  {
    DeathIsLogged(cfg, s);
    forall i: nat | i < s.accepted ensures !src.at(i).task.RunThenUnwind? {
      assert LogHas(s.log, i);
    }
  }

  lemma SequentialExplained(src: Source, count: nat, limit: Option<nat>) returns (m: nat)
    requires SequentialVerdict(src, count, limit) != Reraised && (limit.Some? ==> limit.value > 0)
    ensures Explained(src, count, limit, false, m, SequentialVerdict(src, count, limit))
    ensures limit.Some? ==> Failures(Prefix(src, m)) <= limit.value
  {
    SequentialEnds(src, count, limit, 0);
    m := SequentialFrom(src, count, limit, 0).done;
    if m > 0 {
      assert Prefix(src, m)[..m - 1] == Prefix(src, m - 1);
      assert !LimitReached(limit, Prefix(src, m - 1));
    }
  }

  /** The report on the first `m` tasks lists each of them with its own result. */
  ghost predicate Lists(src: Source, count: nat, m: nat, r: Report) {
    && r.taskCount == count && r.completed == m
    && r.succeeded == |r.outputs| && |r.failures| == r.failed + r.panicked
    && r.failed == |set k | 0 <= k < |r.failures| && r.failures[k].end.Fail?|
    && r.panicked == |set k | 0 <= k < |r.failures| && r.failures[k].end.Panic?|
    && SortedByIndex(r.failures)
    && (forall j, k :: 0 <= j < k < |r.outputs| ==> r.outputs[j].0 < r.outputs[k].0)
    && (forall i: nat, value :: (i, value) in r.outputs <==> i < m && src.at(i) == Item(Succeed(value)))
    && (forall i: nat, end :: Entry(i, end) in r.failures <==>
          i < m && src.at(i) == Item(end) && (end.Fail? || end.Panic?))
  }

  lemma PrefixHas(src: Source, m: nat, i: nat, end: Behaviour)
    requires forall j: nat :: j < m ==> src.at(j).Item?
    ensures Entry(i, end) in Prefix(src, m) <==> i < m && src.at(i) == Item(end)
  {
    if i < m {
      assert Prefix(src, m)[i] == Entry(i, src.at(i).task);
    }
  }

  lemma PrefixListed(src: Source, count: nat, m: nat)
    requires m <= count && forall j: nat :: j < m ==> src.at(j).Item?
    ensures Lists(src, count, m, ReportOf(count, Prefix(src, m)))
    ensures
      var r := ReportOf(count, Prefix(src, m));
      r.failed + r.panicked == Failures(Prefix(src, m))
  {
    var log := Prefix(src, m);
    var r := ReportOf(count, log);
    ReportIsConsistent(count, log);
    KindsAddUp(log);
    forall i: nat, value ensures (i, value) in r.outputs <==> i < m && src.at(i) == Item(Succeed(value)) {
      PrefixHas(src, m, i, Succeed(value));
      assert (i, value) in r.outputs <==> Entry((i, value).0, Succeed((i, value).1)) in log;
    }
    forall i: nat, end
      ensures Entry(i, end) in r.failures <==> i < m && src.at(i) == Item(end) && (end.Fail? || end.Panic?)
    {
      PrefixHas(src, m, i, end);
    }
  }
}
