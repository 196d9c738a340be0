/**
 What the caller of an executor is told, in terms of the call's own source: each task with its own result, the
 label of the end, and the bound on failures.
 */
module Reports {
  import opened Protocol
  import opened Sources
  import opened Outcomes
  import opened Routing

  /** What a task of the call is reported as; a callable that unwinds when it is destroyed counts as panicked. */
  ghost predicate EndsAs(c: Call, i: nat, end: Behaviour) {
    && c.source.at(i).Item?
    && (c.source.at(i).task == end || (c.callable && end.Panic? && c.source.at(i).task.RunThenUnwind?))
  }

  /** The first `m` tasks of the call, each with its own result, in index order, with matching counters. */
  ghost predicate ListsTasks(c: Call, m: nat, r: Report) {
    && r.taskCount == c.count && r.completed == m <= c.count
    && (forall i: nat :: i < m ==> c.source.at(i).Item? && (c.callable || !c.source.at(i).task.RunThenUnwind?))
    && r.succeeded == |r.outputs| && |r.failures| == r.failed + r.panicked
    && r.failed == |set k | 0 <= k < |r.failures| && r.failures[k].end.Fail?|
    && r.panicked == |set k | 0 <= k < |r.failures| && r.failures[k].end.Panic?|
    && SortedByIndex(r.failures)
    && (forall j, k :: 0 <= j < k < |r.outputs| ==> r.outputs[j].0 < r.outputs[k].0)
    && (forall i: nat, value :: (i, value) in r.outputs <==> i < m && c.source.at(i) == Item(Succeed(value)))
    && (forall i: nat, end :: Entry(i, end) in r.failures <==>
          i < m && (end.Fail? || end.Panic?) && EndsAs(c, i, end))
  }

  /** What the label says about the source after the first `m` tasks, and about the policy. */
  ghost predicate LabelledRightly(c: Call, reporterMayFail: bool, m: nat, verdict: Verdict) {
    match verdict
    case CountShortfall(expected, actual, _) => expected == c.count && actual == m < c.count && c.source.at(m).End?
    case CountExceeded(expected, seen, _) => expected == c.count == m && seen == c.count + 1 && c.source.at(m).Item?
    case ProgressReport(_) => reporterMayFail
    case Completed(Finished, _) => m == c.count && c.source.at(m).End?
    case Completed(StoppedByTaskFailurePolicy, r) =>
      c.executor.limit.Some? && r.failed + r.panicked >= c.executor.limit.value
    case _ => false
  }

  /** By how many failures a call can exceed the limit: the tasks under way when the last one is recorded. */
  function Overshoot(c: Call, parallel: bool): nat {
    if !parallel then 0
    else if c.executor.poolThreads < c.count then 2 * c.executor.poolThreads
    else 2 * c.count
  }

  /** Everything a caller is told is true of its own source, its count and its limit. */
  ghost predicate Truthful(c: Call, parallel: bool, reporterMayFail: bool, verdict: Verdict) {
    verdict != Reraised ==>
      var r := verdict.report;
      && c.source.converts
      && ListsTasks(c, r.completed, r)
      && LabelledRightly(c, reporterMayFail, r.completed, verdict)
      && (c.executor.limit.Some? ==> r.failed + r.panicked <= c.executor.limit.value + Overshoot(c, parallel))
  }

  lemma EffectiveEnds(c: Call, i: nat, end: Behaviour)
    ensures end.Succeed? || end.Fail? ==> (Effective(c).at(i) == Item(end) <==> c.source.at(i) == Item(end))
    ensures end.Panic? ==> (Effective(c).at(i) == Item(end) <==> EndsAs(c, i, end))
    ensures Effective(c).at(i).Item? <==> c.source.at(i).Item?
    ensures Effective(c).at(i).End? <==> c.source.at(i).End?
  {
  }

  lemma ListedForCaller(c: Call, m: nat, r: Report)
    requires m <= c.count && Lists(Effective(c), c.count, m, r)
    requires forall i: nat :: i < m ==> Effective(c).at(i).Item? && !Effective(c).at(i).task.RunThenUnwind?
    ensures ListsTasks(c, m, r)
  {
    forall i: nat | i < m ensures c.source.at(i).Item? && (c.callable || !c.source.at(i).task.RunThenUnwind?) {
      EffectiveEnds(c, i, Panic);
    }
    forall i: nat, value ensures (i, value) in r.outputs <==> i < m && c.source.at(i) == Item(Succeed(value)) {
      EffectiveEnds(c, i, Succeed(value));
    }
    forall i: nat, end
      ensures Entry(i, end) in r.failures <==> i < m && (end.Fail? || end.Panic?) && EndsAs(c, i, end)
    {
      EffectiveEnds(c, i, end);
    }
  }

  lemma ExplainedForCaller(c: Call, parallel: bool, reporterMayFail: bool, m: nat, verdict: Verdict)
    requires Explained(Effective(c), c.count, c.executor.limit, reporterMayFail, m, verdict)
    requires c.executor.limit.Some? ==>
      Failures(Prefix(Effective(c), m)) <= c.executor.limit.value + Overshoot(c, parallel)
    ensures Truthful(c, parallel, reporterMayFail, verdict)
  {
    PrefixListed(Effective(c), c.count, m);
    ListedForCaller(c, m, verdict.report);
  }

  /** Every verdict of the parallel path is truthful. */
  lemma ParallelTruthful(c: Call, reporterMayFail: bool, verdict: Verdict)
    requires c.executor.ConfigFor(c.count).Valid()
    requires Possible(c.executor.ConfigFor(c.count), Effective(c), reporterMayFail, verdict)
    ensures Truthful(c, true, reporterMayFail, verdict)
  {
    if verdict != Reraised {
      var m := PossibleExplained(c.executor.ConfigFor(c.count), Effective(c), reporterMayFail, verdict);
      ExplainedForCaller(c, true, reporterMayFail, m, verdict);
    }
  }

  /** The verdict of the sequential path is truthful. */
  lemma SequentialTruthful(c: Call, reporterMayFail: bool)
    requires c.executor.Valid()
    ensures Truthful(c, false, reporterMayFail, SequentialVerdict(Effective(c), c.count, c.executor.limit))
  {
    var verdict := SequentialVerdict(Effective(c), c.count, c.executor.limit);
    if verdict != Reraised {
      var m := SequentialExplained(Effective(c), c.count, c.executor.limit);
      ExplainedForCaller(c, false, reporterMayFail, m, verdict);
    }
  }
}
