/**
 The body of the parallel path as imperative code over the objects of one batch. The producer's code and
 the worker loop are written as the loops they are; between any two of their operations the other threads
 run for a while. `history` records the interleaving, so every execution is one of `Protocol`'s runs.
 */
module ParallelRun {
  import opened Basics
  import opened Protocol
  import opened Sources
  import opened Guarantees
  import opened Outcomes

  class Batch {
    const cfg: Config
    const src: Source
    const reporterMayFail: bool

    // The producer's position, the bounded channel and its original receiver.
    var producer: Producer
    var chan: seq<nat>
    var receiver: bool
    // The worker loops spawned so far.
    var jobs: seq<Job>
    // The coordinator's admission and recording context.
    var pulled: nat
    var accepted: nat
    var exhausted: bool
    var excess: bool
    var reporterStopped: bool
    var log: seq<Entry>
    var failures: nat
    var joined: bool

    ghost var history: seq<Label>

    function Now(): State
      reads this
    {
      State(producer, receiver, chan, jobs, pulled, accepted, exhausted, excess, reporterStopped, log, joined)
    }

    ghost predicate Valid()
      reads this
    {
      && cfg.Valid()
      && Traced(cfg, src, history, Now())
      && failures == Failures(log)
      && (reporterStopped ==> reporterMayFail)
    }

    /** The batch has just taken this step. */
    ghost predicate Stepped(before: State, l: Label)
      reads this
    {
      && CanStep(cfg, src, before, l)
      && Now() == Apply(cfg, before, l) && Measure(cfg, Now()) < Measure(cfg, before)
    }

    constructor (cfg: Config, src: Source, reporterMayFail: bool)
      requires cfg.Valid()
      ensures Valid() && Now() == INIT
      ensures this.cfg == cfg && this.src == src && this.reporterMayFail == reporterMayFail
    {
      this.cfg, this.src, this.reporterMayFail := cfg, src, reporterMayFail;
      producer, chan, receiver, jobs := Converting, [], false, [];
      pulled, accepted, exhausted, excess, reporterStopped := 0, 0, false, false, false;
      log, failures, joined := [], 0, false;
      history := [];
    }

    // ----- atomic operations -----

    /** Remembers a step that has just been carried out on the fields. */
    ghost method Record(l: Label, before: State)
      requires cfg.Valid() && Traced(cfg, src, history, before) && CanStep(cfg, src, before, l)
      requires Now() == Apply(cfg, before, l) && failures == Failures(log) && (reporterStopped ==> reporterMayFail)
      modifies this`history
      ensures Valid() && Stepped(before, l)
    {
      TracedInv(cfg, src, history, before);
      StepDecreases(cfg, before, l);
      ExtendTrace(cfg, src, history, before, l);
      history := history + [l];
    }

    /** The deferred conversion; when it returns, the channel is created. */
    method ConvertSource()
      requires Valid() && !joined && producer.Converting?
      modifies this
      ensures Valid() && Stepped(old(Now()), if src.converts then Convert else ConvertUnwind)
    {
      ghost var before := Now();
      if src.converts {
        producer, receiver := Spawning, true;
      } else {
        producer := Unwound;
      }
      Record(if src.converts then Convert else ConvertUnwind, before);
    }

    /** A worker loop with its own receiver clone is queued on the pool. */
    method Spawn()
      requires Valid() && !joined && producer.Spawning? && |jobs| < cfg.workers
      modifies this
      ensures Valid() && Stepped(old(Now()), SpawnJob)
    {
      ghost var before := Now();
      jobs := jobs + [Queued];
      Record(SpawnJob, before);
    }

    method DropOriginalReceiver()
      requires Valid() && !joined && producer.Spawning? && |jobs| == cfg.workers
      modifies this
      ensures Valid() && Stepped(old(Now()), DropReceiver)
    {
      ghost var before := Now();
      receiver, producer := false, Checking;
      Record(DropReceiver, before);
    }

    /** A stop ends the source without pulling; otherwise the pull begins. */
    method CheckAdmission()
      requires Valid() && !joined && producer.Checking?
      modifies this
      ensures Valid() && Stepped(old(Now()), if Stopped(cfg, old(Now())) then StopCheck else BeginPull)
    {
      ghost var before := Now();
      if reporterStopped || (cfg.limit.Some? && failures >= cfg.limit.value) {
        producer := Ending;
      } else {
        producer := Pulling;
      }
      Record(if Stopped(cfg, old(Now())) then StopCheck else BeginPull, before);
    }

    method AcceptItem()
      requires Valid() && !joined && producer.Pulling? && src.at(accepted).Item? && accepted < cfg.count
      modifies this
      ensures Valid() && Stepped(old(Now()), PullAccept)
    {
      ghost var before := Now();
      producer, pulled, accepted := Holding(accepted), pulled + 1, accepted + 1;
      Record(PullAccept, before);
    }

    method ObserveExcess()
      requires Valid() && !joined && producer.Pulling? && src.at(accepted).Item? && accepted == cfg.count
      modifies this
      ensures Valid() && Stepped(old(Now()), PullExcess)
    {
      ghost var before := Now();
      producer, pulled, excess := Ending, pulled + 1, true;
      Record(PullExcess, before);
    }

    method DiscardItem()
      requires Valid() && !joined && producer.Pulling? && src.at(accepted).Item? && Stopped(cfg, Now())
      modifies this
      ensures Valid() && Stepped(old(Now()), PullDiscard)
    {
      ghost var before := Now();
      producer, pulled := Ending, pulled + 1;
      Record(PullDiscard, before);
    }

    method SeeEnd()
      requires Valid() && !joined && producer.Pulling? && src.at(accepted).End?
      modifies this
      ensures Valid() && Stepped(old(Now()), PullNone)
    {
      ghost var before := Now();
      producer, exhausted := Ending, true;
      Record(PullNone, before);
    }

    /** The source panics; the sender is dropped with the closure. */
    method UnwindPull()
      requires Valid() && !joined && producer.Pulling? && src.at(accepted).Unwinds?
      modifies this
      ensures Valid() && Stepped(old(Now()), PullUnwind)
    {
      ghost var before := Now();
      producer := Unwound;
      Record(PullUnwind, before);
    }

    method TrySend()
      requires Valid() && !joined && producer.Holding? && |chan| < cfg.workers && ReceiversAlive(Now())
      modifies this
      ensures Valid() && Stepped(old(Now()), Send)
    {
      ghost var before := Now();
      chan, producer := chan + [producer.token], Checking;
      Record(Send, before);
    }

    method FailSend()
      requires Valid() && !joined && producer.Holding? && !ReceiversAlive(Now())
      modifies this
      ensures Valid() && Stepped(old(Now()), SendFail)
    {
      ghost var before := Now();
      producer := Failed(producer.token);
      Record(SendFail, before);
    }

    method DropSender()
      requires Valid() && !joined && producer.Ending?
      modifies this
      ensures Valid() && Stepped(old(Now()), CloseSender)
    {
      ghost var before := Now();
      producer := Closed;
      Record(CloseSender, before);
    }

    method StartLoop(w: nat)
      requires Valid() && !joined && w < |jobs| && jobs[w].Queued?
      modifies this
      ensures Valid() && Stepped(old(Now()), StartJob(w))
    {
      ghost var before := Now();
      jobs := jobs[w := Idle];
      Record(StartJob(w), before);
    }

    method ReceiveTask(w: nat)
      requires Valid() && !joined && w < |jobs| && jobs[w].Idle? && chan != []
      modifies this
      ensures Valid() && Stepped(old(Now()), Receive(w))
    {
      ghost var before := Now();
      jobs, chan := jobs[w := Running(chan[0])], chan[1..];
      Record(Receive(w), before);
    }

    /** `execute_task`: the task ran to its end, which the context records. */
    method EndTask(w: nat, end: Behaviour)
      requires Valid() && !joined && w < |jobs| && jobs[w].Running? && src.at(jobs[w].token) == Item(end)
      modifies this
      ensures Valid() && Stepped(old(Now()), Finish(w, end))
    {
      ghost var before := Now();
      assert CanStep(cfg, src, before, Finish(w, end));
      Account(Entry(jobs[w].token, end));
      jobs := jobs[w := if end.RunThenUnwind? then Died else Idle];
      assert Now() == Apply(cfg, before, Finish(w, end));
      Record(Finish(w, end), before);
    }

    method ExitLoop(w: nat)
      requires Valid() && !joined && w < |jobs| && jobs[w].Idle? && chan == [] && !SenderAlive(Now())
      modifies this
      ensures Valid() && Stepped(old(Now()), ExitJob(w))
    {
      ghost var before := Now();
      jobs := jobs[w := Exited];
      Record(ExitJob(w), before);
    }

    method FailReporter()
      requires Valid() && !joined && reporterMayFail && !reporterStopped
      modifies this
      ensures Valid() && Stepped(old(Now()), StopAdmission)
    {
      ghost var before := Now();
      reporterStopped := true;
      Record(StopAdmission, before);
    }

    method JoinScope()
      requires Valid() && !joined && producer.Over() && forall w :: 0 <= w < |jobs| ==> jobs[w].Over()
      modifies this
      ensures Valid() && Stepped(old(Now()), Join)
    {
      ghost var before := Now();
      joined := true;
      Record(Join, before);
    }

    method Account(ended: Entry)
      requires failures == Failures(log)
      modifies this`log, this`failures
      ensures log == old(log) + [ended] && failures == Failures(log)
    {
      SumAppend(FailureOne, log, ended);
      log := log + [ended];
      failures := failures + FailureOne(ended);
    }

    /** Any step that the batch can take now. */
    method Perform(l: Label)
      requires Valid() && CanStep(cfg, src, Now(), l) && (l.StopAdmission? ==> reporterMayFail)
      modifies this
      ensures Valid() && Stepped(old(Now()), l)
    {
      match l {
        case Convert => ConvertSource();
        case ConvertUnwind => ConvertSource();
        case SpawnJob => Spawn();
        case DropReceiver => DropOriginalReceiver();
        case StopCheck => CheckAdmission();
        case BeginPull => CheckAdmission();
        case PullAccept => AcceptItem();
        case PullExcess => ObserveExcess();
        case PullDiscard => DiscardItem();
        case PullNone => SeeEnd();
        case PullUnwind => UnwindPull();
        case Send => TrySend();
        case SendFail => FailSend();
        case CloseSender => DropSender();
        case StartJob(w) => StartLoop(w);
        case Receive(w) => ReceiveTask(w);
        case Finish(w, end) => EndTask(w, end);
        case ExitJob(w) => ExitLoop(w);
        case StopAdmission => FailReporter();
        case Join => JoinScope();
      }
    }

    /** One step of the worker loop `w`, unless it is over or blocked in `recv`. */
    method WorkerStep(w: nat)
      requires Valid() && !joined && w < |jobs|
      modifies this
      ensures Valid() && OnlyWorkersMoved(old(Now()), Now())
      ensures Measure(cfg, Now()) <= old(Measure(cfg, Now()))
      ensures !old(jobs)[w].Over() && (old(chan) != [] || old(producer).Over()) ==>
        Measure(cfg, Now()) < old(Measure(cfg, Now()))
    {
      if jobs[w].Queued? {
        StartLoop(w);
      } else if jobs[w].Idle? {
        IdleStep(w);
      } else if jobs[w].Running? {
        RunTask(w);
      }
    }

    method IdleStep(w: nat)
      requires Valid() && !joined && w < |jobs| && jobs[w].Idle?
      modifies this
      ensures Valid() && OnlyWorkersMoved(old(Now()), Now())
      ensures Measure(cfg, Now()) <= old(Measure(cfg, Now()))
      ensures old(chan) != [] || old(producer).Over() ==> Measure(cfg, Now()) < old(Measure(cfg, Now()))
    {
      if chan != [] {
        ReceiveTask(w);
      } else if producer.Over() {
        ExitLoop(w);
      }
    }

    method RunTask(w: nat)
      requires Valid() && !joined && w < |jobs| && jobs[w].Running?
      modifies this
      ensures Valid() && OnlyWorkersMoved(old(Now()), Now())
      ensures Measure(cfg, Now()) < old(Measure(cfg, Now()))
    {
      RunningItem(cfg, src, history, Now(), w);
      EndTask(w, src.at(jobs[w].token).task);
    }

    /** The worker loops and the reporter run for a while, in any order. */
    method Interleave()
      requires Valid() && !joined
      modifies this
      ensures Valid() && OnlyWorkersMoved(old(Now()), Now()) && Measure(cfg, Now()) <= old(Measure(cfg, Now()))
    {
      var turns: nat := *;
      while turns > 0
        invariant Valid() && OnlyWorkersMoved(old(Now()), Now()) && Measure(cfg, Now()) <= old(Measure(cfg, Now()))
      {
        var w: nat := *;
        if w < |jobs| {
          WorkerStep(w);
        } else if reporterMayFail && !reporterStopped {
          FailReporter();
        }
        turns := turns - 1;
      }
    }

    // ----- the producer -----

    /**
     The whole parallel path of one batch: convert the source, spawn the worker loops, drop the original
     receiver, feed the channel, drop the sender, join.
     */
    method Execute() returns (verdict: Verdict)
      requires Valid() && Now() == INIT
      modifies this
      ensures Valid() && joined && verdict == ParallelVerdict(cfg, Now())
      ensures !verdict.ScheduleFailed? && !verdict.IncompleteSchedule?
      ensures !reporterMayFail && !PolicyStops(src, cfg.count, cfg.limit) ==>
        verdict == SequentialVerdict(src, cfg.count, cfg.limit)
      ensures Possible(cfg, src, reporterMayFail, verdict)
    {
      ConvertSource();
      if src.converts {
        SpawnLoops();
        SendLoop();
      }
      AwaitJobs();
      JoinScope();
      verdict := ParallelVerdict(cfg, Now());
      TracedVerdict(cfg, src, history, Now(), reporterMayFail);
    }

    /** The spawn loop, and the drop of the original receiver after it. */
    method SpawnLoops()
      requires Valid() && producer.Spawning? && !joined && jobs == []
      modifies this
      ensures Valid() && producer.Checking? && !joined && |jobs| == cfg.workers && !receiver
    {
      for spawned := 0 to cfg.workers
        invariant Valid() && producer.Spawning? && !joined && |jobs| == spawned
      {
        Interleave();
        Spawn();
      }
      Interleave();
      DropOriginalReceiver();
    }

    /** Pulls tasks and sends them until the source ends, unwinds, or the channel disconnects. */
    method SendLoop()
      requires Valid() && producer.Checking? && !joined
      modifies this
      ensures Valid() && producer.Over() && !joined
    {
      var more := true;
      while more
        invariant Valid() && !joined && if more then producer.Checking? else producer.Over()
        decreases Measure(cfg, Now())
      {
        Interleave();
        Next();
        if producer.Holding? {
          more := SendToken();
        } else {
          if producer.Ending? {
            Interleave();
            DropSender();
          }
          more := false;
        }
      }
    }

    /** The admission-controlled `next`: it ends in `Holding` for a task and in `Ending` for `None`. */
    method Next()
      requires Valid() && producer.Checking? && !joined
      modifies this
      ensures Valid() && !joined && (producer.Holding? || producer.Ending? || producer.Unwound?)
      ensures Measure(cfg, Now()) < old(Measure(cfg, Now()))
    {
      CheckAdmission();
      if producer.Pulling? {
        AwaitPull();
      }
    }

    /** The source's `next` runs, with the worker loops in the meantime, and yields what it yields. */
    method AwaitPull()
      requires Valid() && producer.Pulling? && !joined
      modifies this
      ensures Valid() && !joined && (producer.Holding? || producer.Ending? || producer.Unwound?)
      ensures Measure(cfg, Now()) < old(Measure(cfg, Now()))
    {
      Interleave();
      match src.at(accepted) {
        case End => SeeEnd();
        case Unwinds => UnwindPull();
        case Item(_) => NextItem();
      }
    }

    /** An item has arrived: a stop may discard it, and beyond the declared count it is only observed. */
    method NextItem()
      requires Valid() && producer.Pulling? && !joined && src.at(accepted).Item?
      modifies this
      ensures Valid() && !joined && (producer.Holding? || producer.Ending?)
      ensures Measure(cfg, Now()) < old(Measure(cfg, Now()))
    {
      var discard: bool := *;
      if discard && Stopped(cfg, Now()) {
        DiscardItem();
      } else if accepted < cfg.count {
        AcceptItem();
      } else {
        PullBound(cfg, src, history, Now());
        ObserveExcess();
      }
    }

    /** The blocking `send`: it waits while the channel is full and a receiver is alive. */
    method SendToken() returns (sent: bool)
      requires Valid() && producer.Holding? && !joined
      modifies this
      ensures Valid() && !joined
      ensures sent ==> producer.Checking?
      ensures !sent ==> producer.Failed? && forall w :: 0 <= w < |jobs| ==> jobs[w].Died?
      ensures Measure(cfg, Now()) < old(Measure(cfg, Now()))
    {
      Interleave();
      while |chan| == cfg.workers && ReceiversAlive(Now())
        invariant Valid() && producer.Holding? && !joined
        invariant Measure(cfg, Now()) <= old(Measure(cfg, Now()))
        decreases Measure(cfg, Now())
      {
        HoldingFacts(cfg, src, history, Now());
        var w :| 0 <= w < |jobs| && !jobs[w].Over();
        WorkerStep(w);
      }
      HoldingFacts(cfg, src, history, Now());
      sent := ReceiversAlive(Now());
      if sent {
        TrySend();
      } else {
        FailSend();
      }
    }

    /** The scope's join: the remaining worker loops run until all of them are over. */
    method AwaitJobs()
      requires Valid() && producer.Over() && !joined
      modifies this
      ensures Valid() && producer.Over() && !joined && forall w :: 0 <= w < |jobs| ==> jobs[w].Over()
    {
      while exists w :: 0 <= w < |jobs| && !jobs[w].Over()
        invariant Valid() && producer.Over() && !joined
        decreases Measure(cfg, Now())
      {
        var w :| 0 <= w < |jobs| && !jobs[w].Over();
        WorkerStep(w);
      }
    }

    // ----- one worker loop -----

    /** One step of anything but loop `w`. */
    method OtherStep(l: Label, w: nat)
      requires Valid() && w < |jobs|
      requires CanStep(cfg, src, Now(), l) && !OfJob(l, w) && (l.StopAdmission? ==> reporterMayFail)
      modifies this
      ensures Valid() && LoopKept(old(Now()), Now(), w)
      ensures Measure(cfg, Now()) < old(Measure(cfg, Now()))
    {
      ghost var before := Now();
      Perform(l);
      StepKeepsLoop(cfg, before, l, w);
    }

    /** Everything but loop `w` runs for a while: the producer, the other loops, the reporter. */
    method Others(w: nat)
      requires Valid() && w < |jobs|
      modifies this
      ensures Valid() && LoopKept(old(Now()), Now(), w)
      ensures Measure(cfg, Now()) <= old(Measure(cfg, Now()))
    {
      var turns: nat := *;
      while turns > 0
        invariant Valid() && LoopKept(old(Now()), Now(), w)
        invariant Measure(cfg, Now()) <= old(Measure(cfg, Now()))
      {
        var l: Label := *;
        if CanStep(cfg, src, Now(), l) && !OfJob(l, w) && (l.StopAdmission? ==> reporterMayFail) {
          OtherStep(l, w);
        }
        turns := turns - 1;
      }
    }

    /** The blocking `recv`: it returns when there is a message or no sender is left. */
    method AwaitRecv(w: nat)
      requires Valid() && w < |jobs| && jobs[w].Idle?
      modifies this
      ensures Valid() && LoopKept(old(Now()), Now(), w)
      ensures chan != [] || !SenderAlive(Now())
      ensures Measure(cfg, Now()) <= old(Measure(cfg, Now()))
    {
      while chan == [] && SenderAlive(Now())
        invariant Valid() && LoopKept(old(Now()), Now(), w)
        invariant Measure(cfg, Now()) <= old(Measure(cfg, Now()))
        decreases Measure(cfg, Now())
      {
        SenderCanMove(cfg, src, history, Now(), w);
        var l: Label :| CanStep(cfg, src, Now(), l) && !OfJob(l, w) && !l.StopAdmission?;
        OtherStep(l, w);
      }
    }

    /**
     The worker loop: receive and execute until the channel is empty and disconnected. It terminates,
     runs its tokens in increasing order, and each of them ends exactly as the source says.
     */
    method RunRayonWorker(w: nat) returns (ran: seq<nat>)
      requires Valid() && w < |jobs| && jobs[w].Idle?
      modifies this
      ensures Valid() && w < |jobs| && jobs[w].Over()
      ensures forall i: nat :: LogHas(old(log), i) ==> i < Dequeued(old(Now()))
      ensures Ran(src, ran, log, Dequeued(old(Now())), Dequeued(Now()), jobs[w].Died?)
      ensures jobs[w].Exited? ==> chan == [] && producer.Over()
    {
      ran := [];
      ghost var lo := Dequeued(Now());
      LogBelow(cfg, src, history, Now());
      while jobs[w].Idle?
        invariant Valid() && w < |jobs| && (jobs[w].Idle? || jobs[w].Over())
        invariant lo <= Dequeued(Now()) && Ran(src, ran, log, lo, Dequeued(Now()), jobs[w].Died?)
        invariant jobs[w].Exited? ==> chan == [] && producer.Over()
        decreases Measure(cfg, Now())
      {
        ran := Turn(w, ran, lo);
      }
    }

    /** One turn: block in `recv`, then run the message, or return when the channel is disconnected. */
    method Turn(w: nat, before: seq<nat>, ghost lo: int) returns (ran: seq<nat>)
      requires Valid() && w < |jobs| && jobs[w].Idle?
      requires lo <= Dequeued(Now()) && Ran(src, before, log, lo, Dequeued(Now()), false)
      modifies this
      ensures Valid() && w < |jobs| && (jobs[w].Idle? || jobs[w].Over())
      ensures lo <= Dequeued(Now()) && Ran(src, ran, log, lo, Dequeued(Now()), jobs[w].Died?)
      ensures jobs[w].Exited? ==> chan == [] && producer.Over()
      ensures Measure(cfg, Now()) < old(Measure(cfg, Now()))
    {
      ghost var d0, seen := Dequeued(Now()), log;
      Others(w);
      AwaitRecv(w);
      RanGrows(src, before, seen, lo, d0, log, Dequeued(Now()));
      if chan == [] {
        ran := before;
        ExitIsFinal(cfg, src, history, Now(), w);
        ExitLoop(w);
      } else {
        ghost var d, logged := Dequeued(Now()), log;
        NotJoined(cfg, src, history, Now(), w);
        var task := ReceiveAndExecute(w);
        RanMore(src, before, lo, d, logged, log, task, Dequeued(Now()));
        ran := before + [task];
      }
    }

    /** One turn of the loop: take the oldest message and run it, with the others running in between. */
    method ReceiveAndExecute(w: nat) returns (task: nat)
      requires Valid() && w < |jobs| && jobs[w].Idle? && chan != [] && !joined
      modifies this
      ensures Valid() && w < |jobs| && old(log) <= log
      ensures task == Dequeued(old(Now())) < Dequeued(Now())
      ensures src.at(task).Item? && Entry(task, src.at(task).task) in log
      ensures jobs[w] == if src.at(task).task.RunThenUnwind? then Died else Idle
      ensures Measure(cfg, Now()) < old(Measure(cfg, Now()))
    {
      HeadToken(cfg, src, history, Now());
      ReceiveTask(w);
      task := jobs[w].token;
      Others(w);
      RunningItem(cfg, src, history, Now(), w);
      EndTask(w, src.at(task).task);
      assert log[|log| - 1] == Entry(task, src.at(task).task);
    }
  }

  // ----- what the other threads leave alone -----

  predicate OfJob(l: Label, w: nat) {
    OnJob(l) && l.job == w
  }

  /** The producer's own state is as it was. */
  ghost predicate OnlyWorkersMoved(s: State, t: State) {
    && t.producer == s.producer && t.receiver == s.receiver && |t.jobs| == |s.jobs|
    && t.pulled == s.pulled && t.accepted == s.accepted && t.exhausted == s.exhausted && t.excess == s.excess
    && t.joined == s.joined
    && |t.chan| <= |s.chan|
  }

  /** Loop `w` did not move; records stay, and dispatch only advances. */
  ghost predicate LoopKept(s: State, t: State, w: nat) {
    && w < |s.jobs| && w < |t.jobs| && t.jobs[w] == s.jobs[w]
    && s.log <= t.log && Dequeued(s) <= Dequeued(t)
    && (!s.jobs[w].Over() ==> t.joined == s.joined)
  }

  /** `ran` lists tokens in increasing order, all of them logged as the source says, unwinding at most at the last. */
  ghost predicate Ran(src: Source, ran: seq<nat>, log: seq<Entry>, lo: int, hi: int, died: bool) {
    && (forall j, k :: 0 <= j < k < |ran| ==> ran[j] < ran[k])
    && (forall k :: 0 <= k < |ran| ==>
          lo <= ran[k] < hi && src.at(ran[k]).Item? && Entry(ran[k], src.at(ran[k]).task) in log)
    && (forall k :: 0 <= k < |ran| ==> (src.at(ran[k]) == Item(RunThenUnwind) <==> died && k == |ran| - 1))
    && (died ==> ran != [])
  }

  lemma RanGrows(src: Source, ran: seq<nat>, log: seq<Entry>, lo: int, d: int, more: seq<Entry>, hi: int)
    requires d <= hi && Ran(src, ran, log, lo, d, false) && log <= more
    ensures Ran(src, ran, more, lo, hi, false)
  {
    assert forall e :: e in log ==> e in more;
  }

  lemma RanMore(src: Source, ran: seq<nat>, lo: int, d: int, seen: seq<Entry>, log: seq<Entry>, task: nat, hi: int)
    requires Ran(src, ran, seen, lo, d, false) && seen <= log
    requires lo <= task == d < hi && src.at(task).Item? && Entry(task, src.at(task).task) in log
    ensures Ran(src, ran + [task], log, lo, hi, src.at(task).task.RunThenUnwind?)
  {
    assert forall e :: e in seen ==> e in log;
  }

  lemma StepKeepsLoop(cfg: Config, s: State, l: Label, w: nat)
    requires Enabled(cfg, s, l) && w < |s.jobs| && !OfJob(l, w)
    ensures LoopKept(s, Apply(cfg, s, l), w)
  {
  }

  /** Only an unwinding source, or a runnable whose destruction unwinds, re-raises. */
  lemma ReraiseHasCause(cfg: Config, src: Source, reporterMayFail: bool)
    requires cfg.Valid() && Possible(cfg, src, reporterMayFail, Reraised)
    ensures !src.converts || exists i: nat :: src.at(i).Unwinds? || src.at(i) == Item(RunThenUnwind)
  {
    var labels :| EndsWith(cfg, src, reporterMayFail, labels, Reraised);
    RunAgrees(cfg, src, labels);
    var s := After(cfg, labels);
    DeathIsLogged(cfg, s);
  }

  lemma TracedVerdict(cfg: Config, src: Source, labels: seq<Label>, s: State, reporterMayFail: bool)
    requires cfg.Valid() && Traced(cfg, src, labels, s) && s.joined && (s.reporterStopped ==> reporterMayFail)
    ensures !ParallelVerdict(cfg, s).ScheduleFailed? && !ParallelVerdict(cfg, s).IncompleteSchedule?
    ensures !s.reporterStopped && !PolicyStops(src, cfg.count, cfg.limit) ==>
      ParallelVerdict(cfg, s) == SequentialVerdict(src, cfg.count, cfg.limit)
    ensures Possible(cfg, src, reporterMayFail, ParallelVerdict(cfg, s))
  {
    SchedulerErrorsUnreachable(cfg, labels);
    if !PolicyStops(src, cfg.count, cfg.limit) {
      UnstoppedRefinesSequential(cfg, src, labels);
    }
    assert EndsWith(cfg, src, reporterMayFail, labels, ParallelVerdict(cfg, s));
  }

  /**
   Under a stop limit every possible verdict reports the execution of the first `m` tasks, for some `m` that
   is at least what the sequential executor executes, with at most `limit + 2 * workers` failures.
   */
  lemma LimitedVerdict(cfg: Config, src: Source, verdict: Verdict)
    requires cfg.Valid() && cfg.limit.Some? && Possible(cfg, src, false, verdict) && verdict != Reraised
    ensures exists m: nat ::
      && SequentialFrom(src, cfg.count, cfg.limit, 0).done <= m <= cfg.count
      && verdict.report == ReportOf(cfg.count, Prefix(src, m))
      && Failures(Prefix(src, m)) <= cfg.limit.value + 2 * cfg.workers
  {
    var labels :| EndsWith(cfg, src, false, labels, verdict);
    var s := After(cfg, labels);
    StopLimitRefines(cfg, src, labels);
    RunAgrees(cfg, src, labels);
    ExactlyOnceDrain(cfg, labels);
    DrainedIsPrefix(cfg, src, s);
    SchedulerErrorsUnreachable(cfg, labels);
  }

  lemma RunningItem(cfg: Config, src: Source, labels: seq<Label>, s: State, w: nat)
    requires cfg.Valid() && Traced(cfg, src, labels, s) && w < |s.jobs| && s.jobs[w].Running?
    ensures src.at(s.jobs[w].token).Item?
  {
    TracedInv(cfg, src, labels, s);
  }

  lemma PullBound(cfg: Config, src: Source, labels: seq<Label>, s: State)
    requires cfg.Valid() && Traced(cfg, src, labels, s)
    ensures s.accepted <= cfg.count
  {
    TracedInv(cfg, src, labels, s);
  }

  lemma HoldingFacts(cfg: Config, src: Source, labels: seq<Label>, s: State)
    requires cfg.Valid() && Traced(cfg, src, labels, s) && s.producer.Holding?
    ensures !s.receiver && |s.chan| <= cfg.workers
    ensures forall w :: 0 <= w < |s.jobs| ==> !s.jobs[w].Exited?
  {
    TracedInv(cfg, src, labels, s);
  }

  lemma HeadToken(cfg: Config, src: Source, labels: seq<Label>, s: State)
    requires cfg.Valid() && Traced(cfg, src, labels, s) && s.chan != []
    ensures s.chan[0] == Dequeued(s)
  {
    TracedInv(cfg, src, labels, s);
  }

  lemma LogBelow(cfg: Config, src: Source, labels: seq<Label>, s: State)
    requires cfg.Valid() && Traced(cfg, src, labels, s)
    ensures forall i: nat :: LogHas(s.log, i) ==> i < Dequeued(s)
  {
    TracedInv(cfg, src, labels, s);
  }

  lemma NotJoined(cfg: Config, src: Source, labels: seq<Label>, s: State, w: nat)
    requires cfg.Valid() && Traced(cfg, src, labels, s) && w < |s.jobs| && !s.jobs[w].Over()
    ensures !s.joined
  {
    TracedInv(cfg, src, labels, s);
  }

  lemma ExitIsFinal(cfg: Config, src: Source, labels: seq<Label>, s: State, w: nat)
    requires cfg.Valid() && Traced(cfg, src, labels, s)
    requires w < |s.jobs| && s.jobs[w].Idle? && !SenderAlive(s)
    ensures s.producer.Over() && !s.joined
  {
    TracedInv(cfg, src, labels, s);
  }

  /** A loop waiting in `recv` on an empty, connected channel is never the one everybody waits for. */
  lemma SenderCanMove(cfg: Config, src: Source, labels: seq<Label>, s: State, w: nat)
    requires cfg.Valid() && Traced(cfg, src, labels, s) && w < |s.jobs| && s.jobs[w].Idle?
    requires s.chan == [] && SenderAlive(s)
    ensures exists l :: CanStep(cfg, src, s, l) && !OfJob(l, w) && !l.StopAdmission?
  {
    TracedInv(cfg, src, labels, s);
    var l := ProducerStep(cfg, src, s);
    assert CanStep(cfg, src, s, l) && !OfJob(l, w);
  }
}
