/** What holds in every reachable state of the engine, whatever the interleaving. */
module FanOutTheorems {
  import opened Common
  import opened FanOutSubmission
  import opened FanOutModel
  import opened FanOutTokens
  import opened FanOutInvariant
  import opened FanOutAccounting
  import opened FanOutLifetime
  import opened FanOutSafety

  lemma FlusherReads(s: State, act: FlushAct)
    requires CoreOk(s) && FlushOk(s) && FlusherCan(s, act)
    ensures FlushOk(FlusherDoes(s, act))
  {
    var s' := FlusherDoes(s, act);
    hide CoreOk, Met;
    if act.ReadTrue? && s.flusher.seen == 1 {
      forall t: nat | t < s.flusher.target ensures Past(s', t) { PopsCovered(s, s.flusher.target, t); }
    } else if act.ReadTrue? && s.flusher.seen == 3 {
      forall t: nat | t < s.flusher.target ensures Past(s', t) && Finished(s', t) {
        assert Past(s, t);
        NothingInFlight(s, t);
        assert Finished(s, t);
        SameFinished(s, s', t);
      }
    } else {
      forall t: nat ensures (Finished(s, t) ==> Finished(s', t)) && (Past(s, t) ==> Past(s', t)) { SameFinished(s, s', t); }
    }
  }

  lemma SameFinished(s: State, s': State, t: nat)
    requires s'.cfg == s.cfg && s'.tickets == s.tickets && s'.hist == s.hist
    ensures Finished(s', t) == Finished(s, t) && Past(s', t) == Past(s, t)
  {
    assert forall k: nat :: Met(s', Task(t, k)) == Met(s, Task(t, k));
  }

  lemma FlushStep(s: State, a: Step)
    requires CoreOk(s) && FlushOk(s) && Enabled(s, a)
    ensures FlushOk(Do(s, a))
  {
    if a.ByFlusher? {
      FlusherReads(s, a.fact);
    } else {
      var s' := Do(s, a);
      forall t: nat ensures (Finished(s, t) ==> Finished(s', t)) && (Past(s, t) ==> Past(s', t)) {
        if Finished(s, t) { FinishedStays(s, a, t); }
        if Past(s, t) { PastStays(s, a, t); }
      }
      FlusherUntouched(s, a);
      TicketsGrow(s, a);
      hide Do, Enabled, CoreOk, Past, Finished;
    }
  }

  lemma FlusherUntouched(s: State, a: Step)
    requires Enabled(s, a) && !a.ByFlusher?
    ensures Do(s, a).flusher == s.flusher
  {
    hide IngestDoes, IngestCan, StageDoes, StageCan, CompletionDoes, CompletionCan, ProducerDoes, ProducerCan, StopperDoes, GiveBack;
    if a.ByIngest? { IngestFrame(s, a.iact); }
  }

  // ---- stopping ----------------------------------------------------------------------------------

  predicate Joined(p: Stopper) { p == StagesJoined || p == Stopped }

  ghost predicate StopOk(s: State) {
    && (s.stopper != NotStopping <==> s.bq.shutdown)
    && (s.worker == Exited ==> s.bq.shutdown && s.bq.entries == [])
    && (s.stopper != NotStopping && s.stopper != QueueShutDown ==> s.worker == Exited)
    && (s.stopStages ==> s.worker == Exited)
    && (forall k: nat :: k < STAGES && s.runs[k] == Gone ==>
          s.queues[k] == [] && (s.stopStages || !s.cfg.parallel || k >= s.Stages()))
    && (Joined(s.stopper) ==> forall k: nat :: k < STAGES ==> s.runs[k] == Gone)
  }

  lemma StopIngest(s: State, act: IngestAct)
    requires HoldersOk(s) && StopOk(s) && IngestCan(s, act)
    ensures StopOk(IngestDoes(s, act))
  {
    hide IngestDoes, IngestCan, StopOk, HoldersOk;
    if act.Submit? { StopSubmit(s, act.now); } else { StopMoves(s, act); }
  }

  lemma StopMoves(s: State, act: IngestAct)
    requires StopOk(s) && IngestCan(s, act) && !act.Submit?
    ensures StopOk(IngestDoes(s, act))
  {
    hide Refuses, DoPop, DoBegin, DoSubmit, DoRefuse, DoRelease, DoTakeSkip, DoSerial;
    assert s.worker != Exited;
  }

  /** Nothing is queued for a stage whose thread is gone. */
  lemma StopSubmit(s: State, now: int)
    requires HoldersOk(s) && StopOk(s) && IngestCan(s, Submit(now))
    ensures StopOk(IngestDoes(s, Submit(now)))
  {
    assert s.cfg.parallel && !s.stopStages;
    hide HoldersOk, Refuses, SubmitFirst, AfterSubmit;
    assert forall k: nat :: k < STAGES && k >= s.Stages() ==> DoSubmit(s, now).queues[k] == s.queues[k];
  }

  lemma StopStep(s: State, a: Step)
    requires HoldersOk(s) && StopOk(s) && Enabled(s, a)
    ensures StopOk(Do(s, a))
  {
    hide IngestDoes, IngestCan, ProducerDoes, ProducerCan, StageDoes, StageCan, StopperDoes, StopperCan, CompletionDoes, CompletionCan,
         FlusherDoes, FlusherCan, HoldersOk, GiveBack, StopOk;
    match a
    case ByIngest(act) => StopIngest(s, act);
    case ByProducer(p, act) => StopProducer(s, p, act);
    case ByStage(k, act) => StopStage(s, k, act);
    case ByStopper(act) => StopStopper(s, act);
    case ByClear => StopKept(s, DoDiscard(s));
    case _ => StopKept(s, Do(s, a));
  }

  /** Steps that only take blocks out of the block queue. */
  lemma StopKept(s: State, s': State)
    requires StopOk(s) && s'.stopper == s.stopper && s'.worker == s.worker && s'.stopStages == s.stopStages
    requires s'.runs == s.runs && s'.queues == s.queues && s'.cfg == s.cfg
    requires s'.bq.shutdown == s.bq.shutdown && (s.bq.entries == [] ==> s'.bq.entries == [])
    ensures StopOk(s')
  {
  }

  lemma StopProducer(s: State, p: nat, act: ProducerAct)
    requires StopOk(s) && ProducerCan(s, p, act)
    ensures StopOk(ProducerDoes(s, p, act))
  {
    hide StopOk, GiveBack, DoPush;
    var s' := ProducerDoes(s, p, act);
    if act.Push? { StopPush(s, p); } else { StopKept(s, s'); }
  }

  /** A queue that takes a push is not shut down. */
  lemma StopPush(s: State, p: nat)
    requires StopOk(s) && ProducerCan(s, p, Push)
    ensures StopOk(DoPush(s, p))
  {
  }

  lemma StopStage(s: State, k: nat, act: StageAct)
    requires StopOk(s) && StageCan(s, k, act)
    ensures StopOk(StageDoes(s, k, act))
  {
    hide GiveBack, DropIfUnreferenced;
  }

  lemma StopStopper(s: State, act: StopAct)
    requires StopOk(s) && StopperCan(s, act)
    ensures StopOk(StopperDoes(s, act))
  {
  }

  // ---- reachable states --------------------------------------------------------------------------

  ghost predicate Inv(s: State) { CoreOk(s) && FlushOk(s) && StopOk(s) }

  lemma InitOk(cfg: EngineConfig)
    requires cfg.stages.Shaped()
    ensures Inv(Init(cfg))
  {
    NormalizeRepairs(cfg.stages);
    var s := Init(cfg);
    InitPool(cfg);
    InitBounds(cfg);
    InitHolders(cfg);
    hide PoolOk, BoundsOk, HoldersOk;
    assert forall x: Task :: TokenOk(s, x);
    assert forall t: nat :: TicketOk(s, t);
    assert forall t: nat :: RefOk(s, t);
  }

  lemma InitPool(cfg: EngineConfig)
    requires cfg.stages.Shaped()
    ensures PoolOk(Init(cfg))
  {
    var s := Init(cfg);
    forall b: nat | b < |s.hist.owner| ensures OwnerHas(s, b) { assert s.pool.free[b] == b; }
  }

  lemma InitBounds(cfg: EngineConfig)
    requires cfg.stages.Shaped()
    ensures BoundsOk(Init(cfg))
  {
    NormalizeRepairs(cfg.stages);
    var s := Init(cfg);
    forall k: nat | k < STAGES ensures QueueBounded(s, k) { assert s.queues[k] == []; }
  }

  lemma InitHolders(cfg: EngineConfig)
    requires cfg.stages.Shaped()
    ensures HoldersOk(Init(cfg))
  {
    var s := Init(cfg);
    forall k: nat | k < STAGES ensures StageOk(s, k) { assert s.queues[k] == []; }
    assert forall t: nat :: PhaseOk(s, t);
  }

  lemma {:induction false} RunsKeepInv(cfg: EngineConfig, steps: seq<Step>)
    requires cfg.stages.Shaped()
    ensures RunTo(Init(cfg), steps).Some? ==> Inv(RunTo(Init(cfg), steps).value)
    ensures RunTo(Init(cfg), steps).Some? ==> RunTo(Init(cfg), steps).value.cfg == Init(cfg).cfg
  {
    hide Init, CoreOk, FlushOk, StopOk;
    if steps == [] {
      InitOk(cfg);
    } else {
      var front := steps[..|steps| - 1];
      var a := steps[|steps| - 1];
      RunsKeepInv(cfg, front);
      var mid := RunTo(Init(cfg), front);
      if mid.Some? && Enabled(mid.value, a) {
        hide Do, Enabled;
        CoreStep(mid.value, a);
        FlushStep(mid.value, a);
        assert HoldersOk(mid.value) by { CoreParts(mid.value); }
        StopStep(mid.value, a);
        TicketsGrow(mid.value, a);
      }
    }
  }

  lemma CoreParts(s: State)
    requires CoreOk(s)
    ensures HoldersOk(s) && QueueOk(s) && TokensOk(s) && PoolOk(s) && BoundsOk(s)
  {
  }

  lemma ReachableOk(cfg: EngineConfig, s: State)
    requires cfg.stages.Shaped() && Reachable(cfg, s)
    ensures Inv(s) && s.cfg == cfg.(stages := Normalize(cfg.stages))
  {
    hide CoreOk, FlushOk, StopOk;
    var steps :| RunTo(Init(cfg), steps) == Some(s);
    RunsKeepInv(cfg, steps);
  }
}
