/** Stopping the engine: once begun it can always go on, and it ends. And what the counters of a whole run count. */
module FanOutShutdown {
  import opened Common
  import opened BlockStorage
  import opened FanOutSubmission
  import opened FanOutModel
  import opened FanOutTokens
  import opened FanOutInvariant
  import opened FanOutSafety
  import opened FanOutTheorems
  import opened FanOutGuarantees
  import opened FanOutProgress

  // ---- stopping goes on and ends -------------------------------------------------------------------

  /** A step of the engine's threads or of the one that stops it. */
  predicate WorkOrStop(a: Step) { Work(a) || a.ByStopper? }

  ghost predicate AllWorkOrStop(steps: seq<Step>) { forall a :: a in steps ==> WorkOrStop(a) }

  /** The stage workers are told to stop before they are joined. */
  predicate StagesToldOk(s: State) { s.stopper in {StagesStopping, StagesJoined, Stopped} ==> s.stopStages }

  lemma StagesToldStep(s: State, a: Step)
    requires Enabled(s, a) && StagesToldOk(s)
    ensures StagesToldOk(Do(s, a))
  {
    hide IngestDoes, IngestCan, ProducerDoes, ProducerCan, StageDoes, StageCan, CompletionDoes, CompletionCan, FlusherDoes, FlusherCan, GiveBack;
    if a.ByIngest? { IngestFrame(s, a.iact); }
  }

  lemma {:induction false} StagesToldOnRuns(cfg: EngineConfig, steps: seq<Step>)
    requires cfg.stages.Shaped()
    ensures RunTo(Init(cfg), steps).Some? ==> StagesToldOk(RunTo(Init(cfg), steps).value)
  {
    if steps != [] {
      hide Do, Enabled, StagesToldOk;
      var front, a := steps[..|steps| - 1], steps[|steps| - 1];
      StagesToldOnRuns(cfg, front);
      var mid := RunTo(Init(cfg), front);
      if mid.Some? && Enabled(mid.value, a) { StagesToldStep(mid.value, a); }
    }
  }

  lemma ReachableStagesTold(cfg: EngineConfig, s: State)
    requires cfg.stages.Shaped() && Reachable(cfg, s)
    ensures StagesToldOk(s)
  {
    var steps :| RunTo(Init(cfg), steps) == Some(s);
    StagesToldOnRuns(cfg, steps);
  }

  /** While the ingest worker is being joined it can take a step, or is gone. */
  lemma WorkerCanLeave(cfg: EngineConfig, s: State)
    requires cfg.stages.Shaped() && Reachable(cfg, s) && s.stopper == QueueShutDown
    ensures exists a :: WorkOrStop(a) && Enabled(s, a)
  {
    ReachableOk(cfg, s);
    hide CoreOk, FlushOk, Reachable;
    if s.worker == Exited {
      assert Enabled(s, ByStopper(JoinWorker));
    } else if Busy(s) || s.bq.entries != [] {
      IngestGoesOn(cfg, s);
    } else {
      assert Enabled(s, ByIngest(Exit));
    }
  }

  /** While the stage workers are being joined one of them can take a step, or all are gone. */
  lemma StagesCanLeave(cfg: EngineConfig, s: State)
    requires cfg.stages.Shaped() && Reachable(cfg, s) && s.stopper == StagesStopping
    ensures exists a :: WorkOrStop(a) && Enabled(s, a)
  {
    ReachableStagesTold(cfg, s);
    if k: nat :| k < STAGES && s.runs[k] != Gone {
      if s.runs[k] == Idle && s.queues[k] == [] {
        assert Enabled(s, ByStage(k, StageExit));
      } else {
        StageNeverStuck(cfg, s, k);
      }
    } else {
      assert Enabled(s, ByStopper(JoinStages));
    }
  }

  /** A stop that has begun and not ended is never stuck: it, or a thread that it waits for, can take a step. */
  lemma StopNeverStuck(cfg: EngineConfig, s: State)
    requires cfg.stages.Shaped() && Reachable(cfg, s) && s.stopper != NotStopping && s.stopper != Stopped
    ensures exists a :: WorkOrStop(a) && Enabled(s, a)
  {
    match s.stopper
    case QueueShutDown => WorkerCanLeave(cfg, s);
    case WorkerJoined => assert Enabled(s, ByStopper(StopStages));
    case StagesStopping => StagesCanLeave(cfg, s);
    case StagesJoined =>
      ReachableOk(cfg, s);
      hide CoreOk, FlushOk, Reachable;
      assert Enabled(s, ByStopper(EndStop));
  }

  function StopSteps(p: Stopper): nat {
    match p
    case NotStopping => 5
    case QueueShutDown => 4
    case WorkerJoined => 3
    case StagesStopping => 2
    case StagesJoined => 1
    case Stopped => 0
  }

  lemma StopperEffort(s: State, act: StopAct)
    requires StopperCan(s, act)
    ensures Effort(StopperDoes(s, act)) == Effort(s) && StopSteps(StopperDoes(s, act).stopper) < StopSteps(s.stopper)
  {
    hide WorkerEffort, Jobs, RunsEffort, CompletionsEffort;
  }

  lemma WorkKeepsStopper(s: State, a: Step)
    requires Enabled(s, a) && Work(a)
    ensures Do(s, a).stopper == s.stopper
  {
    hide IngestDoes, IngestCan, StageDoes, StageCan, CompletionDoes, CompletionCan;
    if a.ByIngest? { IngestFrame(s, a.iact); }
  }

  /** Every step of the engine or of its stop brings the end nearer. */
  lemma StopComesNearer(s: State, a: Step)
    requires s.cfg.stages.Shaped() && WorkOrStop(a) && Enabled(s, a)
    ensures Effort(Do(s, a)) + StopSteps(Do(s, a).stopper) < Effort(s) + StopSteps(s.stopper)
    ensures s.stopper != NotStopping ==> Do(s, a).stopper != NotStopping
  {
    hide Effort;
    if a.ByStopper? {
      StopperEffort(s, a.tact);
    } else {
      WorkLowersEffort(s, a);
      WorkKeepsStopper(s, a);
      hide Do;
    }
  }

  /** From every reachable state a stop that has begun can be brought to its end by the threads it waits for and itself. */
  lemma StopSettles(cfg: EngineConfig, s: State) returns (steps: seq<Step>)
    requires cfg.stages.Shaped() && Reachable(cfg, s) && s.stopper != NotStopping
    ensures AllWorkOrStop(steps) && RunTo(s, steps).Some? && |steps| <= Effort(s) + StopSteps(s.stopper)
    ensures RunTo(s, steps).value.stopper == Stopped && Reachable(cfg, RunTo(s, steps).value)
    decreases Effort(s) + StopSteps(s.stopper)
  {
    hide Do, Enabled, Reachable, Effort;
    if s.stopper == Stopped {
      return [];
    }
    StopNeverStuck(cfg, s);
    var a :| WorkOrStop(a) && Enabled(s, a);
    ReachableOk(cfg, s);
    hide Inv;
    StopComesNearer(s, a);
    ReachableNext(cfg, s, a);
    var rest := StopSettles(cfg, Do(s, a));
    RunFirst(s, a, rest);
    steps := [a] + rest;
  }

  /** However the threads interleave, a stop takes no more steps, its own and those it waits for, than that. */
  lemma {:induction false} StopIsBounded(s: State, steps: seq<Step>)
    requires s.cfg.stages.Shaped() && AllWorkOrStop(steps) && RunTo(s, steps).Some?
    ensures var s' := RunTo(s, steps).value;
            |steps| + Effort(s') + StopSteps(s'.stopper) <= Effort(s) + StopSteps(s.stopper) && s'.cfg == s.cfg
  {
    hide Effort, Do, Enabled;
    if steps != [] {
      var front, a := steps[..|steps| - 1], steps[|steps| - 1];
      assert forall b :: b in front ==> b in steps;
      StopIsBounded(s, front);
      var mid := RunTo(s, front).value;
      assert a in steps;
      StopComesNearer(mid, a);
      TicketsGrow(mid, a);
    }
  }

  // ---- what the counters count ---------------------------------------------------------------------

  datatype Kind = Pushed | Refused | PoolEmpty | Taken | Cleared | Popped | Completed

  /** The steps of a kind. */
  predicate Is(a: Step, kind: Kind) {
    match kind
    case Pushed => a.ByProducer? && a.pact == Push
    case Refused => a.ByProducer? && a.pact == RefusePush
    case PoolEmpty => a.ByProducer? && a.pact == Exhausted
    case Taken => a.ByProducer? && a.pact == Acquire
    case Cleared => a.ByClear?
    case Popped => a.ByIngest? && a.iact == Pop
    case Completed => a.ByIngest? && a.iact == Finish
  }

  function Times(steps: seq<Step>, kind: Kind): nat {
    if steps == [] then 0 else Times(steps[..|steps| - 1], kind) + if Is(steps[|steps| - 1], kind) then 1 else 0
  }

  /** The value that the state has counted for a kind of step. */
  function Counted(s: State, kind: Kind): int {
    match kind
    case Pushed => |s.tickets|
    case Refused => s.bq.dropped
    case PoolEmpty => s.pool.exhausted
    case Taken => s.pool.acquired
    case Cleared => s.hist.discarded
    case Popped => s.bq.popped
    case Completed => s.completedPops
  }

  lemma GiveBackCounts(s: State, b: nat, kind: Kind)
    ensures Counted(GiveBack(s, b), kind) == Counted(s, kind)
  {
  }

  lemma ProducerCounts(s: State, p: nat, act: ProducerAct, kind: Kind)
    requires ProducerCan(s, p, act)
    ensures Counted(ProducerDoes(s, p, act), kind) == Counted(s, kind) + if Is(ByProducer(p, act), kind) then 1 else 0
  {
    if act.Abandon? { GiveBackCounts(s.(producers := s.producers - {p}), s.producers[p].block, kind); }
    hide GiveBack, Assign;
  }

  lemma ReleaseCounts(s: State, kind: Kind)
    requires IngestCan(s, Release)
    ensures Counted(DoRelease(s), kind) == Counted(s, kind)
  {
    var rest := s.(worker := Releasing(s.worker.refs[1..]));
    DropCounts(rest, s.worker.refs[0], kind);
    GiveBackCounts(rest, s.tickets[s.worker.refs[0]].block, kind);
    hide GiveBack, DropIfUnreferenced;
  }

  lemma DropCounts(s: State, t: nat, kind: Kind)
    ensures Counted(DropIfUnreferenced(s, t), kind) == Counted(s, kind)
  {
    hide Referenced, GiveBack;
    if t in s.contexts && t < |s.tickets| { GiveBackCounts(s.(contexts := s.contexts - {t}), s.tickets[t].block, kind); }
  }

  lemma IngestCounts(s: State, act: IngestAct, kind: Kind)
    requires IngestCan(s, act)
    ensures Counted(IngestDoes(s, act), kind) == Counted(s, kind) + if Is(ByIngest(act), kind) then 1 else 0
  {
    hide Refuses, DoSubmit, DoRelease, DoBegin, DoRefuse, DoSerial, DoTakeSkip;
    if act.Release? { ReleaseCounts(s, kind); }
  }

  lemma StageCounts(s: State, k: nat, act: StageAct, kind: Kind)
    requires StageCan(s, k, act)
    ensures Counted(StageDoes(s, k, act), kind) == Counted(s, kind)
  {
    if act.DropRef? { DropCounts(s.(runs := s.runs[k := Idle]), s.runs[k].ticket, kind); }
    hide DropIfUnreferenced;
  }

  lemma ClearCounts(s: State, kind: Kind)
    requires HeadWaits(s)
    ensures Counted(DoDiscard(s), kind) == Counted(s, kind) + if kind.Cleared? then 1 else 0
  {
    hide GiveBack;
    var t := s.bq.entries[0];
    var rest := SetPhase(s.(bq := s.bq.Discard(), hist := s.hist.(discarded := s.hist.discarded + 1)), t, Discarded);
    GiveBackCounts(rest, s.tickets[t].block, kind);
  }

  lemma StepCounts(s: State, a: Step, kind: Kind)
    requires Enabled(s, a)
    ensures Counted(Do(s, a), kind) == Counted(s, kind) + if Is(a, kind) then 1 else 0
  {
    hide Counted, Is, IngestDoes, IngestCan, ProducerDoes, ProducerCan, StageDoes, StageCan, CompletionDoes, CompletionCan, DoDiscard;
    match a
    case ByProducer(p, act) => ProducerCounts(s, p, act, kind);
    case ByClear => ClearCounts(s, kind); assert Is(a, kind) == kind.Cleared? by { OnlyClears(kind); }
    case ByIngest(act) => IngestCounts(s, act, kind);
    case ByStage(k, act) => StageCounts(s, k, act, kind); Uncounted(a, kind);
    case ByCompletion(c, act) => CompletionCounts(s, c, act, kind); Uncounted(a, kind);
    case ByFlusher(act) => RestCounts(s, a, kind); Uncounted(a, kind);
    case ByStopper(act) => RestCounts(s, a, kind); Uncounted(a, kind);
  }

  lemma OnlyClears(kind: Kind)
    ensures Is(ByClear, kind) == kind.Cleared?
  {
  }

  lemma Uncounted(a: Step, kind: Kind)
    requires a.ByStage? || a.ByCompletion? || a.ByFlusher? || a.ByStopper?
    ensures !Is(a, kind)
  {
  }

  lemma CompletionCounts(s: State, c: nat, act: CompletionAct, kind: Kind)
    requires CompletionCan(s, c, act)
    ensures Counted(CompletionDoes(s, c, act), kind) == Counted(s, kind)
  {
  }

  lemma RestCounts(s: State, a: Step, kind: Kind)
    requires Enabled(s, a) && (a.ByFlusher? || a.ByStopper?)
    ensures Counted(Do(s, a), kind) == Counted(s, kind)
  {
    hide Conjunct;
  }

  /** Over every run: pushed, refused, exhausted, acquired, cleared, popped and completed count exactly those steps. */
  lemma {:induction false} CountersCountSteps(cfg: EngineConfig, steps: seq<Step>, kind: Kind)
    requires cfg.stages.Shaped() && RunTo(Init(cfg), steps).Some?
    ensures Counted(RunTo(Init(cfg), steps).value, kind) == Times(steps, kind)
  {
    hide Do, Enabled, Counted, Is;
    if steps == [] {
      FreshCounts(cfg, kind);
    } else {
      var front, a := steps[..|steps| - 1], steps[|steps| - 1];
      CountersCountSteps(cfg, front, kind);
      StepCounts(RunTo(Init(cfg), front).value, a, kind);
    }
  }

  lemma FreshCounts(cfg: EngineConfig, kind: Kind)
    requires cfg.stages.Shaped()
    ensures Counted(Init(cfg), kind) == 0
  {
  }

  /** A producer whose push was refused keeps its block and can do nothing but give it back; nothing was queued. */
  lemma RefusedPushGivesBack(s: State, p: nat)
    requires ProducerCan(s, p, RefusePush)
    ensures var refused := Do(s, ByProducer(p, RefusePush));
            && p in refused.producers && refused.producers[p].block == s.producers[p].block
            && (forall act :: ProducerCan(refused, p, act) <==> act == Abandon)
            && refused.tickets == s.tickets && refused.bq.entries == s.bq.entries && refused.pool == s.pool
            && Do(refused, ByProducer(p, Abandon)).pool.free == s.pool.free + [s.producers[p].block]
  {
    hide Assign;
  }
}
