/** The engine's promises, each for every reachable state of every configuration. */
module FanOutGuarantees {
  import opened Common
  import opened FanOutSubmission
  import opened FanOutModel
  import opened FanOutTokens
  import opened FanOutInvariant
  import opened FanOutAccounting
  import opened FanOutLifetime
  import opened FanOutSafety
  import opened FanOutTheorems

  // ---- exactly-once fan-out ----------------------------------------------------------------------

  /** Every active stage's task of a block handed out is in exactly one place or was met exactly once;
      before that, nowhere. */
  lemma EachTaskOnce(cfg: EngineConfig, s: State, t: nat, k: nat)
    requires cfg.stages.Shaped() && Reachable(cfg, s) && t < |s.tickets| && k < s.Stages()
    ensures Pending(s, Task(t, k)) + Met(s, Task(t, k)) == If(InPhase(s, t, Serial) || InPhase(s, t, Fanned))
  {
    ReachableOk(cfg, s);
    hide Pending;
    assert TokenOk(s, Task(t, k));
  }

  /** remainingStages of a live context counts its tasks queued, running, skipped but not completed, or about to be
      subtracted; in-flight counts the blocks being submitted, with a nonzero count, or not yet done leaving. */
  lemma CountersAgree(cfg: EngineConfig, s: State)
    requires cfg.stages.Shaped() && Reachable(cfg, s)
    ensures forall t: nat :: InPhase(s, t, Fanned) && t in s.contexts ==> s.contexts[t] == OpenTasks(s, t)
    ensures s.inFlight == |s.hist.live|
    ensures forall t: nat :: t in s.hist.live <==>
              s.worker == Submitting(t)
              || (InPhase(s, t, Fanned) && (OpenTasks(s, t) > 0 || RecordingCount(s.completions, t) + LeavingCount(s.completions, t) > 0))
  {
    ReachableOk(cfg, s);
    hide OpenTasks, RecordingCount, LeavingCount, StageOk, CompletionOk, PoolOk, QueueOk, BoundsOk, FlushOk, StopOk;
    forall t: nat
      ensures InPhase(s, t, Fanned) && t in s.contexts ==> s.contexts[t] == OpenTasks(s, t)
      ensures t in s.hist.live <==>
                s.worker == Submitting(t)
                || (InPhase(s, t, Fanned) && (OpenTasks(s, t) > 0 || RecordingCount(s.completions, t) + LeavingCount(s.completions, t) > 0))
    {
      assert TicketOk(s, t) && PhaseOk(s, t);
    }
  }

  /** When a block's storage is given up, every active stage has met the block exactly once and its completion was
      recorded exactly once, unless clear() discarded it. */
  lemma GivenUpMeansFinished(cfg: EngineConfig, s: State, t: nat)
    requires cfg.stages.Shaped() && Reachable(cfg, s) && t < |s.tickets| && !Holds(s, t)
    ensures Finished(s, t)
  {
    ReachableOk(cfg, s);
    assert TicketOk(s, t) && RefOk(s, t) && PhaseOk(s, t);
    if InPhase(s, t, Fanned) {
      FannedGivenUp(s, t);
    } else if InPhase(s, t, Serial) {
      SerialGivenUp(s, t);
    }
  }

  lemma FannedGivenUp(s: State, t: nat)
    requires CoreOk(s) && InPhase(s, t, Fanned) && t !in s.contexts
    ensures Finished(s, t)
  {
    assert TicketOk(s, t) && !Referenced(s, t) by { assert RefOk(s, t); }
    UnreferencedNotCompleting(s, t);
    hide OpenTasks, Pending, SubtractCount, RecordingCount, LeavingCount, PhaseOk, StageOk, PoolOk, QueueOk, BoundsOk, Referenced;
    forall k: nat | k < s.Stages() ensures Met(s, Task(t, k)) == 1 {
      assert TokenOk(s, Task(t, k));
      FannedClosed(s, t, k);
    }
  }

  lemma UnreferencedNotCompleting(s: State, t: nat)
    requires HoldersOk(s) && InPhase(s, t, Fanned) && !Referenced(s, t)
    ensures RecordingCount(s.completions, t) == 0 && LeavingCount(s.completions, t) == 0
  {
    assert s.cfg.parallel by { assert PhaseOk(s, t); }
    hide QueueCount, PhaseOk, StageOk;
  }

  lemma SerialGivenUp(s: State, t: nat)
    requires CoreOk(s) && InPhase(s, t, Serial) && !Holds(s, t)
    ensures Finished(s, t)
  {
    assert TicketOk(s, t) && RefOk(s, t);
    assert s.hist.recorded[t] == 1 by { hide StageRefers, QueueCount, RecordingCount, LeavingCount; }
    hide Pending, RecordingCount, LeavingCount, PoolOk, QueueOk, BoundsOk, Referenced;
    forall k: nat | k < s.Stages() ensures Met(s, Task(t, k)) == 1 {
      assert TokenOk(s, Task(t, k));
      SerialClosed(s, t, k);
    }
  }

  predicate WorksOn(s: State, a: nat, t: nat)
    requires a <= INGEST
  {
    || (a < STAGES && (s.runs[a] == Running(t) || s.runs[a] == Finishing(t)))
    || (s.completions[a] != Done && TicketOf(s.completions[a]) == t)
  }

  lemma WorkedOnIsReferenced(s: State, a: nat, t: nat)
    requires HoldersOk(s) && a <= INGEST && WorksOn(s, a, t)
    ensures InPhase(s, t, Fanned) && Referenced(s, t)
  {
    hide QueueCount;
    assert a < STAGES ==> StageOk(s, a);
    assert InPhase(s, t, Fanned);
    assert PhaseOk(s, t);
    hide StageOk, PhaseOk;
    if a < STAGES { assert StageRefers(s, t, a); } else { assert WorkerRefers(s.worker, t); }
  }

  /** No stage worker and no completion ever works on a context that is gone. */
  lemma ContextsOutliveTheirUse(cfg: EngineConfig, s: State, a: nat, t: nat)
    requires cfg.stages.Shaped() && Reachable(cfg, s) && a <= INGEST && WorksOn(s, a, t)
    ensures t in s.contexts && Holds(s, t)
  {
    ReachableOk(cfg, s);
    assert RefOk(s, t);
    WorkedOnIsReferenced(s, a, t);
    hide CoreOk;
  }

  // ---- flush and the pop counter -----------------------------------------------------------------

  /** A flush that saw its drained predicate true: every block pushed before it began was discarded by clear(),
      or met every active stage exactly once and was recorded exactly once. */
  lemma FlushIsSafe(cfg: EngineConfig, s: State, t: nat)
    requires cfg.stages.Shaped() && Reachable(cfg, s) && s.flusher.Flushed? && t < s.flusher.target
    ensures Finished(s, t)
  {
    ReachableOk(cfg, s);
    hide CoreOk, StopOk, Finished;
  }

  lemma {:induction false} RunStaysReachable(cfg: EngineConfig, s: State, steps: seq<Step>, s': State)
    requires cfg.stages.Shaped() && Reachable(cfg, s) && RunTo(s, steps) == Some(s')
    ensures Reachable(cfg, s')
  {
    hide Do, Enabled;
    if steps != [] {
      var front, a := steps[..|steps| - 1], steps[|steps| - 1];
      var mid := RunTo(s, front).value;
      RunStaysReachable(cfg, s, front, mid);
      var before :| RunTo(Init(cfg), before) == Some(mid);
      assert (before + [a])[..|before|] == before;
      assert RunTo(Init(cfg), before + [a]) == Some(s');
    }
  }

  /** The five facts flush waits for, given how many pushes there were when it started. */
  predicate Drained(s: State, pushed: nat, fact: nat) {
    match fact
    case 0 => s.bq.entries == []
    case 1 => s.completedPops >= pushed
    case 2 => !s.processing
    case 3 => s.inFlight == 0
    case _ => s.queues[0] == [] && s.queues[1] == [] && s.queues[2] == [] && s.queues[3] == []
  }

  /** At some moment of a run the fact was true. */
  ghost predicate SeenDrained(s: State, steps: seq<Step>, pushed: nat, fact: nat) {
    exists n :: 0 <= n <= |steps| && RunTo(s, steps[..n]).Some? && Drained(RunTo(s, steps[..n]).value, pushed, fact)
  }

  ghost predicate NoNewFlush(steps: seq<Step>) { forall a :: a in steps ==> a != ByFlusher(StartFlush) }

  /** How far a flush that started at s got: what it saw, and which pushes it waits for. */
  ghost predicate FlushFollows(s: State, steps: seq<Step>, f: Flusher, pushed: nat) {
    match f
    case NotFlushing => false
    case Draining(target, seen) => target == pushed && seen <= 5 && forall c: nat :: c < seen ==> SeenDrained(s, steps, pushed, c)
    case Flushed(target) => target == pushed && forall c: nat :: c < 5 ==> SeenDrained(s, steps, pushed, c)
  }

  lemma SeenStays(s: State, front: seq<Step>, a: Step, pushed: nat, fact: nat)
    requires SeenDrained(s, front, pushed, fact)
    ensures SeenDrained(s, front + [a], pushed, fact)
  {
    hide Drained, RunTo;
    var n :| 0 <= n <= |front| && RunTo(s, front[..n]).Some? && Drained(RunTo(s, front[..n]).value, pushed, fact);
    assert (front + [a])[..n] == front[..n];
  }

  lemma SeenNow(s: State, front: seq<Step>, a: Step, mid: State, pushed: nat, fact: nat)
    requires RunTo(s, front) == Some(mid) && Drained(mid, pushed, fact)
    ensures SeenDrained(s, front + [a], pushed, fact)
  {
    hide Drained, RunTo;
    assert (front + [a])[..|front|] == front;
  }

  lemma FlusherReadsFacts(mid: State, act: FlushAct, pushed: nat)
    requires FlusherCan(mid, act) && act != StartFlush && mid.flusher.Draining? && mid.flusher.target == pushed && mid.flusher.seen <= 5
    ensures var f := FlusherDoes(mid, act).flusher;
            && (f.Draining? || f.Flushed?) && f.target == pushed
            && (f.Draining? && f.seen > mid.flusher.seen ==> f.seen == mid.flusher.seen + 1 <= 5 && Drained(mid, pushed, mid.flusher.seen))
            && (f.Flushed? ==> mid.flusher.seen == 5)
  {
  }

  lemma {:induction false} FlushRunFollows(s: State, steps: seq<Step>, s': State, pushed: nat)
    requires s.flusher == Draining(pushed, 0) && RunTo(s, steps) == Some(s') && NoNewFlush(steps)
    ensures FlushFollows(s, steps, s'.flusher, pushed)
  {
    hide SeenDrained, Do, Enabled;
    if steps != [] {
      var front, a := steps[..|steps| - 1], steps[|steps| - 1];
      assert steps == front + [a] && a in steps && forall b :: b in front ==> b in steps;
      var mid := RunTo(s, front).value;
      FlushRunFollows(s, front, mid, pushed);
      forall c: nat | SeenDrained(s, front, pushed, c) ensures SeenDrained(s, steps, pushed, c) { SeenStays(s, front, a, pushed, c); }
      if a.ByFlusher? {
        FlusherMoves(s, front, a.fact, mid, pushed);
      } else {
        FlusherUntouched(mid, a);
      }
    }
  }

  lemma FlusherMoves(s: State, front: seq<Step>, act: FlushAct, mid: State, pushed: nat)
    requires RunTo(s, front) == Some(mid) && FlushFollows(s, front, mid.flusher, pushed) && Enabled(mid, ByFlusher(act)) && act != StartFlush
    requires forall c: nat :: SeenDrained(s, front, pushed, c) ==> SeenDrained(s, front + [ByFlusher(act)], pushed, c)
    ensures FlushFollows(s, front + [ByFlusher(act)], Do(mid, ByFlusher(act)).flusher, pushed)
  {
    assert FlusherCan(mid, act) && Do(mid, ByFlusher(act)) == FlusherDoes(mid, act);
    assert mid.flusher.Draining?;
    FlusherReadsFacts(mid, act, pushed);
    hide SeenDrained, FlusherDoes, FlusherCan, RunTo, Do, Enabled, Drained;
    if Drained(mid, pushed, mid.flusher.seen) { SeenNow(s, front, ByFlusher(act), mid, pushed, mid.flusher.seen); }
  }

  /** However its steps interleave with all others, a flush that returns success has seen each of its facts true since it
      started, and every block pushed before it started is finished or was discarded. */
  lemma FlushWaitsForEarlierPushes(cfg: EngineConfig, s: State, steps: seq<Step>, s': State)
    requires cfg.stages.Shaped() && Reachable(cfg, s) && Enabled(s, ByFlusher(StartFlush))
    requires RunTo(Do(s, ByFlusher(StartFlush)), steps) == Some(s') && NoNewFlush(steps) && s'.flusher.Flushed?
    ensures forall t: nat :: t < |s.tickets| ==> Finished(s', t)
    ensures forall c: nat :: c < 5 ==> SeenDrained(Do(s, ByFlusher(StartFlush)), steps, |s.tickets|, c)
  {
    var started := Do(s, ByFlusher(StartFlush));
    assert [ByFlusher(StartFlush)][..0] == [];
    assert RunTo(s, [ByFlusher(StartFlush)]) == Some(started);
    RunStaysReachable(cfg, s, [ByFlusher(StartFlush)], started);
    RunStaysReachable(cfg, started, steps, s');
    FlushRunFollows(started, steps, s', |s.tickets|);
    hide Reachable, Finished, SeenDrained, RunTo;
    forall t: nat | t < |s.tickets| ensures Finished(s', t) { FlushIsSafe(cfg, s', t); }
  }

  /** Pushed blocks are popped, waiting or discarded, and completed pops trail the pops by at most the one in hand: so
      with d blocks discarded no flush can see enough pops until d more blocks were pushed after those it waits for. */
  lemma PushesAddUp(cfg: EngineConfig, s: State)
    requires cfg.stages.Shaped() && Reachable(cfg, s)
    ensures |s.tickets| == s.bq.popped + |s.bq.entries| + s.hist.discarded
    ensures s.completedPops <= s.bq.popped <= s.completedPops + 1
    ensures forall target: nat :: Conjunct(s, target, 1) ==> |s.tickets| >= target + s.hist.discarded
  {
    ReachableOk(cfg, s);
    hide HoldersOk, TicketOk, TokensOk, PoolOk, BoundsOk, StopOk, FlushOk, RefOk;
  }

  /** A block acquired, pushed and popped, and nothing else. */
  lemma AfterOnePop(cfg: EngineConfig) returns (s: State)
    requires cfg.stages.Shaped() && cfg.queueCapacity > 0 && cfg.poolSize > 0
    ensures Reachable(cfg, s) && |s.tickets| == 1 && s.tickets[0].phase == Held && s.hist.recorded == multiset{}
    ensures s.bq.entries == [] && s.completedPops == 0 && !s.processing && s.inFlight == 0 && s.queues == [[], [], [], []]
  {
    hide Do, Enabled;
    var a0, a1, a2 := ByProducer(0, Acquire), ByProducer(0, Push), ByIngest(Pop);
    var s0 := Init(cfg);
    FirstAcquire(cfg);
    var s1 := Do(s0, a0);
    FirstPush(cfg, s1);
    var s2 := Do(s1, a1);
    FirstPop(s2);
    s := Do(s2, a2);
    hide Init;
    assert [a0][..0] == [] && [a0, a1][..1] == [a0] && [a0, a1, a2][..2] == [a0, a1];
    assert RunTo(s0, [a0]) == Some(s1);
    assert RunTo(s0, [a0, a1]) == Some(s2);
    assert RunTo(s0, [a0, a1, a2]) == Some(s);
  }

  lemma FirstAcquire(cfg: EngineConfig)
    requires cfg.stages.Shaped() && cfg.poolSize > 0
    ensures var a := ByProducer(0, Acquire);
            && Enabled(Init(cfg), a)
            && var s := Do(Init(cfg), a);
            && s == Init(cfg).(pool := s.pool, producers := s.producers, hist := Init(cfg).hist.(owner := s.hist.owner))
            && 0 in s.producers && s.producers[0].Filling?
  {
  }

  lemma FirstPush(cfg: EngineConfig, s: State)
    requires cfg.stages.Shaped() && cfg.queueCapacity > 0 && 0 in s.producers && s.producers[0].Filling?
    requires s == Init(cfg).(pool := s.pool, producers := s.producers, hist := Init(cfg).hist.(owner := s.hist.owner))
    ensures var a := ByProducer(0, Push);
            && Enabled(s, a)
            && var r := Do(s, a);
            && r.bq.entries == [0] && |r.tickets| == 1 && r.worker == Waiting && r.hist.recorded == multiset{}
            && r.completedPops == 0 && !r.processing && r.inFlight == 0 && r.queues == [[], [], [], []]
  {
  }

  lemma FirstPop(s: State)
    requires s.bq.entries == [0] && |s.tickets| == 1 && s.worker == Waiting
    ensures var a := ByIngest(Pop);
            && Enabled(s, a)
            && var r := Do(s, a);
            && r == s.(bq := r.bq, tickets := r.tickets, worker := r.worker)
            && r.bq.entries == [] && |r.tickets| == 1 && r.tickets[0].phase == Held
  {
  }

  /** Between a pop and the moment the worker marks itself busy, everything else flush looks at says drained. */
  lemma OnlyThePopCounterSeesTheGap(cfg: EngineConfig)
    requires cfg.stages.Shaped() && cfg.queueCapacity > 0 && cfg.poolSize > 0
    ensures exists s :: Reachable(cfg, s) && |s.tickets| == 1 && !Finished(s, 0)
                        && Conjunct(s, 1, 0) && !Conjunct(s, 1, 1) && Conjunct(s, 1, 2) && Conjunct(s, 1, 3) && Conjunct(s, 1, 4)
  {
    hide Reachable;
    var s := AfterOnePop(cfg);
    assert !Finished(s, 0) && forall k: nat :: k < STAGES ==> s.queues[k] == [];
  }

  // ---- the pool ----------------------------------------------------------------------------------

  predicate OnStack(s: State, b: nat) { b in s.pool.free }
  predicate WithProducer(s: State, p: nat, b: nat) { p in s.producers && s.producers[p].block == b }
  predicate WithTicket(s: State, t: nat, b: nat) { Holds(s, t) && s.tickets[t].block == b }

  /** Each block of the pool has exactly one owner: the stack (once), one producer or one pushed block; and what is in
      use is what was acquired and not released. */
  lemma PoolIsPartitioned(cfg: EngineConfig, s: State)
    requires cfg.stages.Shaped() && Reachable(cfg, s)
    ensures forall b: nat :: b < cfg.poolSize ==>
              OnStack(s, b) || (exists p :: WithProducer(s, p, b)) || (exists t :: WithTicket(s, t, b))
    ensures forall b: nat, p :: !(OnStack(s, b) && WithProducer(s, p, b))
    ensures forall b: nat, t :: !(OnStack(s, b) && WithTicket(s, t, b))
    ensures forall b: nat, p, t :: !(WithProducer(s, p, b) && WithTicket(s, t, b))
    ensures forall b: nat, p, q :: WithProducer(s, p, b) && WithProducer(s, q, b) ==> p == q
    ensures forall b: nat, t, u :: WithTicket(s, t, b) && WithTicket(s, u, b) ==> t == u
    ensures forall i, j :: 0 <= i < j < |s.pool.free| ==> s.pool.free[i] != s.pool.free[j]
    ensures cfg.poolSize - |s.pool.free| == s.pool.acquired - s.pool.released
  {
    ReachableOk(cfg, s);
    hide HoldersOk, QueueOk, TicketOk, TokensOk, BoundsOk, StopOk, FlushOk, RefOk, Holds;
    forall b: nat | b < cfg.poolSize
      ensures OnStack(s, b) || (exists p :: WithProducer(s, p, b)) || (exists t :: WithTicket(s, t, b))
    {
      assert OwnerHas(s, b);
      match s.hist.owner[b]
      case InPool =>
      case OfProducer(p) => assert WithProducer(s, p, b);
      case OfTicket(t) => assert WithTicket(s, t, b);
    }
    forall b: nat | OnStack(s, b) ensures OwnerIs(s, b, InPool) { }
  }

  /** A duplicate-free sequence of exactly the numbers below n has length n. */
  lemma {:induction false} CountBelow(xs: seq<nat>, n: nat)
    requires forall i, j :: 0 <= i < j < |xs| ==> xs[i] != xs[j]
    requires forall x: nat :: x in xs <==> x < n
    ensures |xs| == n
  {
    assert xs == [] || exists x: nat :: x in xs by {
      if xs != [] { assert xs[0] in xs; }
    }
    if n > 0 {
      assert n - 1 in xs;
      var i :| 0 <= i < |xs| && xs[i] == n - 1;
      var rest := xs[..i] + xs[i + 1..];
      forall x: nat ensures x in rest <==> x < n - 1 {
        if x in rest {
          var j :| 0 <= j < |rest| && rest[j] == x;
          assert x == xs[if j < i then j else j + 1];
          assert x in xs;
        }
        if x < n - 1 {
          assert x in xs;
          var j :| 0 <= j < |xs| && xs[j] == x;
          assert j < i ==> rest[j] == x;
          assert j > i ==> rest[j - 1] == x;
        }
      }
      CountBelow(rest, n - 1);
    }
  }

  /** After stop(), with no producer in the middle of a call: the queues are empty, nothing is in flight, every context
      is gone and every block is back in the pool. */
  lemma StoppedLeavesNothing(cfg: EngineConfig, s: State)
    requires cfg.stages.Shaped() && Reachable(cfg, s) && s.stopper == Stopped && s.producers == map[]
    ensures s.worker == Exited && s.bq.entries == [] && s.queues == [[], [], [], []]
    ensures s.inFlight == 0 && s.contexts == map[]
    ensures |s.pool.free| == cfg.poolSize && s.pool.acquired == s.pool.released
    ensures forall b: nat :: b in s.pool.free <==> b < cfg.poolSize
    ensures forall t: nat :: t < |s.tickets| ==> Finished(s, t)
  {
    ReachableOk(cfg, s);
    assert forall k: nat :: k < STAGES ==> s.runs[k] == Gone && s.queues[k] == [];
    assert s.worker == Exited && s.bq.entries == [];
    forall t: nat ensures t !in s.contexts && t !in s.hist.live && !Holds(s, t) { QuietTicket(s, t); }
    assert s.hist.live == {};
    assert s.contexts == map[];
    PoolIsPartitioned(cfg, s);
    hide CoreOk, StopOk, FlushOk, Holds, Finished;
    forall b: nat ensures b in s.pool.free <==> b < cfg.poolSize {
      if b in s.pool.free { FreeIsBelow(cfg, s, b); }
      if b < cfg.poolSize { assert OnStack(s, b); }
    }
    CountBelow(s.pool.free, cfg.poolSize);
    forall t: nat | t < |s.tickets| ensures Finished(s, t) { GivenUpMeansFinished(cfg, s, t); }
  }

  lemma FreeIsBelow(cfg: EngineConfig, s: State, b: nat)
    requires cfg.stages.Shaped() && Reachable(cfg, s) && b in s.pool.free
    ensures b < cfg.poolSize
  {
    ReachableOk(cfg, s);
    hide HoldersOk, QueueOk, TicketOk, TokensOk, BoundsOk, StopOk, FlushOk, RefOk, Holds;
    assert OwnerIs(s, b, InPool);
  }

  /** No engine thread has anything in hand or waiting for it. */
  predicate Quiet(s: State) {
    && !Busy(s) && s.bq.entries == []
    && forall k: nat :: k < STAGES ==> (s.runs[k] == Idle || s.runs[k] == Gone) && s.queues[k] == []
  }

  lemma QuietTicket(s: State, t: nat)
    requires Inv(s) && Quiet(s)
    ensures t !in s.contexts && t !in s.hist.live && !Holds(s, t)
  {
    assert TicketOk(s, t) && RefOk(s, t) && PhaseOk(s, t);
    assert !Referenced(s, t) by {
      assert forall k: nat :: k < STAGES ==> TasksOf(s.queues[k], k) == [];
    }
    hide Referenced, PoolOk, BoundsOk, TokensOk, FlushOk, OpenTasks, StopOk;
    if InPhase(s, t, Fanned) { UnreferencedNotCompleting(s, t); }
    hide RecordingCount, LeavingCount;
  }

  // ---- overload ----------------------------------------------------------------------------------

  /** A lossless stage never has a task skipped and never exceeds its capacity, a latest-only stage never queues more than
      one job, and a drop-oldest stage never exceeds its depth budget. */
  lemma OverloadIsBounded(cfg: EngineConfig, s: State, k: nat)
    requires cfg.stages.Shaped() && Reachable(cfg, s) && k < cfg.stages.stageCount
    ensures var stages := Normalize(cfg.stages);
            && (stages.policies[k] == LosslessRequired ==> |s.queues[k]| <= stages.capacity == cfg.stages.capacity)
            && (stages.policies[k] == RealtimeLatestOnly ==> |s.queues[k]| <= 1)
            && (stages.policies[k] == BoundedLatencyDropOldest ==>
                  |s.queues[k]| <= 1 || |s.queues[k]| as real <= stages.capacity as real * stages.maxDepthRatio)
            && (stages.policies[k] == LosslessRequired ==> forall t: nat :: s.hist.skipped[Task(t, k)] == 0)
            && stages.policies[SIGNAL_PARAMETER] == LosslessRequired
  {
    ReachableOk(cfg, s);
    NormalizeRepairs(cfg.stages);
    hide CoreOk, BoundsOk, StopOk, FlushOk, Reachable, Normalize;
    QueueWithinLimit(s, k);
    WithinLimit(s.cfg.stages, s.cfg.stages.policies[k], |s.queues[k]|);
    hide Limit;
    NeverSkipped(s, k);
  }

  lemma QueueWithinLimit(s: State, k: nat)
    requires s.cfg.stages.Shaped() && BoundsOk(s) && k < s.Stages()
    ensures |s.queues[k]| <= Limit(s.cfg.stages, s.cfg.stages.policies[k])
  {
    hide Limit, MaySkip;
    assert QueueBounded(s, k);
  }

  lemma NeverSkipped(s: State, k: nat)
    requires s.cfg.stages.Shaped() && BoundsOk(s) && k < STAGES
    ensures s.cfg.stages.policies[k] == LosslessRequired ==> forall t: nat :: s.hist.skipped[Task(t, k)] == 0
  {
    hide QueueBounded;
    forall t: nat ensures s.cfg.stages.policies[k] == LosslessRequired ==> s.hist.skipped[Task(t, k)] == 0 {
      if Task(t, k) in s.hist.skipped { assert MaySkip(s, Task(t, k)); }
    }
  }

  /** Before it is handed out a block is queued nowhere. */
  lemma NotQueuedYet(s: State, k: nat)
    requires CoreOk(s) && s.worker.Submitting? && k < STAGES
    ensures QueueCount(s.queues, Task(s.worker.ticket, k)) == 0
  {
    var t := s.worker.ticket;
    assert InPhase(s, t, Offered) && TokenOk(s, Task(t, k));
    NoOpenBeforeHandOut(s, t, k);
    hide CoreOk, QueueCount, TokenOk;
  }

  /** One queue after an accepted submission. */
  lemma QueueAfterSubmit(s: State, now: int, k: nat)
    requires s.cfg.stages.Normalized() && BoundsOk(s) && IngestCan(s, Submit(now)) && k < s.Stages()
    ensures var q, job := DoSubmit(s, now).queues[k], Job(s.worker.ticket, now);
            && q != [] && q[|q| - 1] == job
            && (s.cfg.stages.policies[k] == LosslessRequired ==> q == s.queues[k] + [job])
            && (s.cfg.stages.policies[k] == RealtimeLatestOnly ==> q == [job])
            && (s.cfg.stages.policies[k] == BoundedLatencyDropOldest ==>
                  && (forall i :: 0 <= i < |q| ==> now - q[i].enqueuedAt <= s.cfg.stages.maxWait)
                  && KeepsWhatItMay(s.cfg.stages, s.queues[k], job, q))
  {
    assert QueueBounded(s, k) && Ordered(s.queues[k], now);
    assert !LosslessFull(s.cfg.stages, s.queues, k);
    assert DoSubmit(s, now).queues[k] == AfterSubmit(s.cfg.stages, s.cfg.stages.policies[k], s.queues[k], JobOf(s, now));
    hide BoundsOk, Refuses, SubmitFirst, DoSubmit, AfterSubmit;
    StageAfterSubmit(s.cfg.stages, s.cfg.stages.policies[k], s.queues[k], JobOf(s, now));
  }

  /** An accepted submission puts the block last in every active queue, touches no other queue, leaves no job in a
      drop-oldest queue that has waited longer than the budget, and drops none there that the budgets allow. */
  lemma SubmissionReachesEveryStage(cfg: EngineConfig, s: State, now: int, k: nat)
    requires cfg.stages.Shaped() && Reachable(cfg, s) && IngestCan(s, Submit(now)) && k < STAGES
    ensures var q := DoSubmit(s, now).queues[k];
            if k >= s.Stages() then q == s.queues[k]
            else
              && q != [] && q[|q| - 1] == Job(s.worker.ticket, now)
              && QueueCount(DoSubmit(s, now).queues, Task(s.worker.ticket, k)) == 1
              && (s.cfg.stages.policies[k] == LosslessRequired ==> q == s.queues[k] + [Job(s.worker.ticket, now)])
              && (s.cfg.stages.policies[k] == RealtimeLatestOnly ==> q == [Job(s.worker.ticket, now)])
              && (s.cfg.stages.policies[k] == BoundedLatencyDropOldest ==>
                    && (forall i :: 0 <= i < |q| ==> now - q[i].enqueuedAt <= s.cfg.stages.maxWait)
                    && KeepsWhatItMay(s.cfg.stages, s.queues[k], Job(s.worker.ticket, now), q))
  {
    ReachableOk(cfg, s);
    NormalizeRepairs(cfg.stages);
    assert k >= s.Stages() ==> DoSubmit(s, now).queues[k] == s.queues[k];
    if k < s.Stages() {
      CoreParts(s);
      NotQueuedYet(s, k);
      hide CoreOk, StopOk, FlushOk, Reachable, Refuses;
      QueueAfterSubmit(s, now, k);
      SubmittedOnce(s, now, k);
    }
  }

  lemma SubmittedOnce(s: State, now: int, k: nat)
    requires IngestCan(s, Submit(now)) && k < s.Stages() && k < STAGES
    requires QueueCount(s.queues, Task(s.worker.ticket, k)) == 0
    requires var q := DoSubmit(s, now).queues[k]; q != [] && q[|q| - 1].ticket == s.worker.ticket
    ensures QueueCount(DoSubmit(s, now).queues, Task(s.worker.ticket, k)) == 1
  {
    hide Refuses, DoSubmit, TasksOf;
    SubmitCounts(s, now, Task(s.worker.ticket, k));
    LastJobCounts(DoSubmit(s, now).queues[k], k);
  }

  lemma LastJobCounts(q: seq<Job>, k: nat)
    requires q != []
    ensures multiset(TasksOf(q, k))[Task(q[|q| - 1].ticket, k)] > 0
  {
    assert TasksOf(q, k)[|q| - 1] == Task(q[|q| - 1].ticket, k);
  }

  // ---- no actor is ever stuck inside a block ------------------------------------------------------

  lemma CompletionNeverStuck(cfg: EngineConfig, s: State, a: nat)
    requires cfg.stages.Shaped() && Reachable(cfg, s) && a <= INGEST && s.completions[a] != Done
    ensures exists act :: CompletionCan(s, a, act)
  {
    hide Reachable, Holds;
    match s.completions[a]
    case Subtracting(x) =>
      ContextsOutliveTheirUse(cfg, s, a, x.ticket);
      assert CompletionCan(s, a, Subtract);
    case Recording(_) => assert CompletionCan(s, a, Record);
    case Leaving(_) => assert CompletionCan(s, a, Leave);
  }

  lemma WorkerNeverStuck(s: State)
    requires s.cfg.stages.Shaped() && WorkerOk(s) && Busy(s) && s.completions[INGEST] == Done
    ensures exists act :: IngestCan(s, act)
  {
    hide Refuses;
    match s.worker
    case Popped(_) => assert IngestCan(s, Mark);
    case Marked(_) => assert IngestCan(s, Begin);
    case Submitting(_) =>
      if Refuses(s.cfg.stages, s.queues, s.stopStages) { assert IngestCan(s, Refuse); } else { assert IngestCan(s, Submit(s.clock)); }
    case Skipping(_, todo, _) => if todo == [] { assert IngestCan(s, SkipsDone); } else { assert IngestCan(s, TakeSkip); }
    case Stepping(_, next) => if next < s.Stages() { assert IngestCan(s, SerialStage); } else { assert IngestCan(s, SerialRecord); }
    case Releasing(refs) =>
      if refs == [] { assert IngestCan(s, Finish); } else { assert refs[0] in refs; assert IngestCan(s, Release); }
    case _ =>
  }

  /** The ingest worker, between a pop and the end of its block, always has a step to take. */
  lemma IngestWorkerNeverStuck(cfg: EngineConfig, s: State)
    requires cfg.stages.Shaped() && Reachable(cfg, s) && Busy(s)
    ensures (exists act :: IngestCan(s, act)) || (exists act :: CompletionCan(s, INGEST, act))
  {
    hide IngestCan, CompletionCan, WorkerOk, PhaseOk, StageOk, CompletionOk, FlushOk, StopOk, QueueOk, TokensOk, TicketOk, PoolOk,
         BoundsOk, RefOk;
    ReachableOk(cfg, s);
    if s.completions[INGEST] == Done { WorkerNeverStuck(s); } else { CompletionNeverStuck(cfg, s, INGEST); }
  }
}
