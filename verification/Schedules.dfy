/**
 Interleavings built on purpose: one worker loop runs the first tasks one by one, then every loop takes a
 task, the channel fills, and the producer holds one more.
 */
module Schedules {
  import opened Protocol
  import opened Sources
  import opened Guarantees
  import opened Outcomes

  /** Some interleaving over `src` leads to `s`. */
  ghost predicate Reachable(cfg: Config, src: Source, s: State) {
    exists labels :: Traced(cfg, src, labels, s)
  }

  lemma Take(cfg: Config, src: Source, s: State, l: Label) returns (t: State)
    requires Reachable(cfg, src, s) && CanStep(cfg, src, s, l)
    ensures Reachable(cfg, src, t) && t == Apply(cfg, s, l)
  {
    var labels :| Traced(cfg, src, labels, s);
    ExtendTrace(cfg, src, labels, s, l);
    t := Apply(cfg, s, l);
  }

  /** `n` loops, of which the first `k` are as given. */
  function Loops(first: Job, k: nat, rest: Job, n: nat): (jobs: seq<Job>)
    requires k <= n
    ensures |jobs| == n && forall w :: 0 <= w < n ==> jobs[w] == if w < k then first else rest
  {
    seq(n, w requires 0 <= w < n => if w < k then first else rest)
  }

  /** `n` loops, of which the first `k` run the tasks from `base` on. */
  function Fleet(base: nat, k: nat, n: nat): (jobs: seq<Job>)
    requires k <= n
    ensures |jobs| == n && forall w :: 0 <= w < n ==> jobs[w] == if w < k then Running(base + w) else Idle
  {
    seq(n, w requires 0 <= w < n => if w < k then Running(base + w) else Idle)
  }

  function Segment(from: nat, n: nat): (s: seq<nat>)
    ensures |s| == n && forall k :: 0 <= k < n ==> s[k] == from + k
  {
    seq(n, k requires 0 <= k < n => from + k)
  }

  function Spawned(p: Producer, receiver: bool, jobs: seq<Job>): State {
    State(p, receiver, [], jobs, 0, 0, false, false, false, [], false)
  }

  /** `accepted` tasks are under way, of which the first `done` have ended in order. */
  ghost function Loaded(src: Source, p: Producer, chan: seq<nat>, jobs: seq<Job>, accepted: nat, done: nat): State {
    State(p, false, chan, jobs, accepted, accepted, false, false, false, Prefix(src, done), false)
  }

  /** The first `n` positions are items within the count, and the policy does not stop after the first `done`. */
  ghost predicate Yields(cfg: Config, src: Source, n: nat, done: nat) {
    && src.converts && n <= cfg.count && (forall i: nat :: i < n ==> src.at(i).Item?)
    && PassesThrough(src, cfg.limit, done) && !LimitReached(cfg.limit, Prefix(src, done))
  }

  lemma {:induction false} SpawnSome(cfg: Config, src: Source, k: nat)
    requires cfg.Valid() && src.converts && k <= cfg.workers
    ensures Reachable(cfg, src, Spawned(Spawning, true, Loops(Queued, k, Queued, k)))
  {
    if k == 0 {
      assert Traced(cfg, src, [], INIT);
      var s := Take(cfg, src, INIT, Convert);
      assert Loops(Queued, 0, Queued, 0) == [];
    } else {
      SpawnSome(cfg, src, k - 1);
      var s := Take(cfg, src, Spawned(Spawning, true, Loops(Queued, k - 1, Queued, k - 1)), SpawnJob);
      assert s.jobs == Loops(Queued, k, Queued, k);
    }
  }

  lemma {:induction false} StartSome(cfg: Config, src: Source, k: nat)
    requires cfg.Valid() && src.converts && k <= cfg.workers
    ensures Reachable(cfg, src, Spawned(Checking, false, Loops(Idle, k, Queued, cfg.workers)))
  {
    var n := cfg.workers;
    if k == 0 {
      SpawnSome(cfg, src, n);
      var s := Take(cfg, src, Spawned(Spawning, true, Loops(Queued, n, Queued, n)), DropReceiver);
      assert s.jobs == Loops(Idle, 0, Queued, n);
    } else {
      StartSome(cfg, src, k - 1);
      var s := Take(cfg, src, Spawned(Checking, false, Loops(Idle, k - 1, Queued, n)), StartJob(k - 1));
      assert s.jobs == Loops(Idle, k, Queued, n);
    }
  }

  /** A pull whose item is accepted. */
  lemma Hold(cfg: Config, src: Source, chan: seq<nat>, jobs: seq<Job>, i: nat, done: nat)
    requires cfg.Valid() && Reachable(cfg, src, Loaded(src, Checking, chan, jobs, i, done))
    requires i < cfg.count && src.at(i).Item? && !LimitReached(cfg.limit, Prefix(src, done))
    ensures Reachable(cfg, src, Loaded(src, Holding(i), chan, jobs, i + 1, done))
  {
    var s := Take(cfg, src, Loaded(src, Checking, chan, jobs, i, done), BeginPull);
    s := Take(cfg, src, s, PullAccept);
    assert s == Loaded(src, Holding(i), chan, jobs, i + 1, done);
  }

  /** A pull whose item is accepted and sent. */
  lemma Admit(cfg: Config, src: Source, chan: seq<nat>, jobs: seq<Job>, i: nat, done: nat)
    requires cfg.Valid() && Reachable(cfg, src, Loaded(src, Checking, chan, jobs, i, done))
    requires i < cfg.count && src.at(i).Item? && !LimitReached(cfg.limit, Prefix(src, done))
    requires |chan| < cfg.workers && exists w :: 0 <= w < |jobs| && !jobs[w].Over()
    ensures Reachable(cfg, src, Loaded(src, Checking, chan + [i], jobs, i + 1, done))
  {
    Hold(cfg, src, chan, jobs, i, done);
    var s := Take(cfg, src, Loaded(src, Holding(i), chan, jobs, i + 1, done), Send);
    assert s == Loaded(src, Checking, chan + [i], jobs, i + 1, done);
  }

  /** The producer admits the next task and the idle loop `w` takes it. */
  lemma AdmitAndReceive(cfg: Config, src: Source, jobs: seq<Job>, i: nat, done: nat, w: nat)
    requires cfg.Valid() && Reachable(cfg, src, Loaded(src, Checking, [], jobs, i, done))
    requires i < cfg.count && src.at(i).Item? && !LimitReached(cfg.limit, Prefix(src, done))
    requires w < |jobs| && jobs[w].Idle?
    ensures Reachable(cfg, src, Loaded(src, Checking, [], jobs[w := Running(i)], i + 1, done))
  {
    Admit(cfg, src, [], jobs, i, done);
    assert [] + [i] == [i] && [i][1..] == [];
    var s := Take(cfg, src, Loaded(src, Checking, [i], jobs, i + 1, done), Receive(w));
    assert s == Loaded(src, Checking, [], jobs[w := Running(i)], i + 1, done);
  }

  /** The first loop runs the first `k` tasks one by one. */
  lemma {:induction false} RunSerially(cfg: Config, src: Source, k: nat)
    requires cfg.Valid() && src.converts && k <= cfg.count && PassesThrough(src, cfg.limit, k)
    ensures Reachable(cfg, src, Loaded(src, Checking, [], Loops(Idle, cfg.workers, Idle, cfg.workers), k, k))
  {
    var jobs := Loops(Idle, cfg.workers, Idle, cfg.workers);
    if k == 0 {
      StartSome(cfg, src, cfg.workers);
      assert jobs == Loops(Idle, cfg.workers, Queued, cfg.workers);
      assert Loaded(src, Checking, [], jobs, 0, 0) == Spawned(Checking, false, jobs);
    } else {
      RunSerially(cfg, src, k - 1);
      AdmitAndReceive(cfg, src, jobs, k - 1, k - 1, 0);
      var s := Loaded(src, Checking, [], jobs[0 := Running(k - 1)], k, k - 1);
      s := Take(cfg, src, s, Finish(0, src.at(k - 1).task));
      assert s.jobs == jobs && s.log == Prefix(src, k);
    }
  }

  /** After the first `base` tasks, `k` loops take the next ones. */
  lemma {:induction false} FillLoops(cfg: Config, src: Source, base: nat, k: nat)
    requires cfg.Valid() && k <= cfg.workers && Yields(cfg, src, base + k, base)
    ensures Reachable(cfg, src, Loaded(src, Checking, [], Fleet(base, k, cfg.workers), base + k, base))
  {
    var n := cfg.workers;
    if k == 0 {
      RunSerially(cfg, src, base);
      assert Fleet(base, 0, n) == Loops(Idle, n, Idle, n);
    } else {
      FillLoops(cfg, src, base, k - 1);
      AdmitAndReceive(cfg, src, Fleet(base, k - 1, n), base + k - 1, base, k - 1);
      assert Fleet(base, k - 1, n)[k - 1 := Running(base + k - 1)] == Fleet(base, k, n);
    }
  }

  /** With every loop busy, `k` more tasks wait in the channel. */
  lemma {:induction false} FillChannel(cfg: Config, src: Source, base: nat, k: nat)
    requires cfg.Valid() && k <= cfg.workers && Yields(cfg, src, base + cfg.workers + k, base)
    ensures
      var n := cfg.workers;
      Reachable(cfg, src, Loaded(src, Checking, Segment(base + n, k), Fleet(base, n, n), base + n + k, base))
  {
    var n := cfg.workers;
    if k == 0 {
      FillLoops(cfg, src, base, n);
      assert Segment(base + n, 0) == [];
    } else {
      FillChannel(cfg, src, base, k - 1);
      assert !Fleet(base, n, n)[0].Over();
      Admit(cfg, src, Segment(base + n, k - 1), Fleet(base, n, n), base + n + k - 1, base);
      assert Segment(base + n, k - 1) + [base + n + k - 1] == Segment(base + n, k);
    }
  }

  /** Every loop is busy, the channel is full, and the producer holds a task. */
  ghost function Full(cfg: Config, src: Source, base: nat): State {
    var n := cfg.workers;
    Loaded(src, Holding(base + 2 * n), Segment(base + n, n), Fleet(base, n, n), base + 2 * n + 1, base)
  }

  lemma FillUp(cfg: Config, src: Source, base: nat)
    requires cfg.Valid() && Yields(cfg, src, base + 2 * cfg.workers + 1, base)
    ensures Reachable(cfg, src, Full(cfg, src, base))
  {
    var n := cfg.workers;
    FillChannel(cfg, src, base, n);
    Hold(cfg, src, Segment(base + n, n), Fleet(base, n, n), base + 2 * n, base);
  }

  /** A reachable state can be completed to the join without a reporter failure. */
  lemma CompleteFrom(cfg: Config, src: Source, s: State) returns (labels: seq<Label>, t: State)
    requires cfg.Valid() && Reachable(cfg, src, s)
    ensures Traced(cfg, src, labels, t) && t.joined && Later(s, t)
  {
    var before :| Traced(cfg, src, before, s);
    labels, t := Completes(cfg, src, before, s);
  }
}
