/** When a flush succeeds: a flush can always go on, and without further pushes it can end with success exactly when
    clear() never discarded a block. */
module FanOutFlushing {
  import opened Common
  import opened BlockStorage
  import opened FanOutSubmission
  import opened FanOutModel
  import opened FanOutTokens
  import opened FanOutInvariant
  import opened FanOutSafety
  import opened FanOutTheorems
  import opened FanOutGuarantees
  import opened FanOutProgress
  import opened FanOutShutdown

  /** A step of the engine's threads or of a flush under way. */
  predicate WorkOrFlush(a: Step) { Work(a) || (a.ByFlusher? && a.fact != StartFlush) }

  ghost predicate AllWorkOrFlush(steps: seq<Step>) { forall a :: a in steps ==> WorkOrFlush(a) }

  ghost predicate NoPush(steps: seq<Step>) { forall a :: a in steps ==> !Is(a, Pushed) }

  /** A flush under way always has a step: it reads its next fact, as true or as false, or has read all. */
  lemma FlushNeverStuck(s: State)
    requires s.flusher.Draining?
    ensures exists act :: FlusherCan(s, act) && act != StartFlush
  {
    if s.flusher.seen >= CONJUNCTS {
      assert FlusherCan(s, EndFlush);
    } else if Conjunct(s, s.flusher.target, s.flusher.seen) {
      assert FlusherCan(s, ReadTrue);
    } else {
      assert FlusherCan(s, ReadFalse);
    }
  }

  lemma {:induction false} RunAppend(s: State, xs: seq<Step>, ys: seq<Step>)
    requires RunTo(s, xs).Some?
    ensures RunTo(s, xs + ys) == RunTo(RunTo(s, xs).value, ys)
  {
    hide Do, Enabled;
    if ys == [] {
      assert xs + ys == xs;
    } else {
      RunAppend(s, xs, ys[..|ys| - 1]);
      assert (xs + ys)[..|xs + ys| - 1] == xs + ys[..|ys| - 1];
    }
  }

  lemma ReadingChangesNothing(s: State, f: Flusher, target: nat, c: nat)
    ensures Conjunct(s.(flusher := f), target, c) == Conjunct(s, target, c)
  {
  }

  /** While all facts hold, the flush reads the rest of them and ends with success. */
  lemma FlushReadsOn(s: State) returns (steps: seq<Step>)
    requires s.flusher.Draining? && s.flusher.seen <= CONJUNCTS
    requires forall c: nat :: c < CONJUNCTS ==> Conjunct(s, s.flusher.target, c)
    ensures AllWorkOrFlush(steps) && RunTo(s, steps) == Some(s.(flusher := Flushed(s.flusher.target)))
    decreases CONJUNCTS - s.flusher.seen
  {
    hide Conjunct;
    if s.flusher.seen == CONJUNCTS {
      steps := [ByFlusher(EndFlush)];
      assert steps[..0] == [];
      assert RunTo(s, []) == Some(s);
    } else {
      var a := ByFlusher(ReadTrue);
      var next := Draining(s.flusher.target, s.flusher.seen + 1);
      assert Enabled(s, a) && Do(s, a) == s.(flusher := next);
      forall c: nat | c < CONJUNCTS ensures Conjunct(Do(s, a), s.flusher.target, c) { ReadingChangesNothing(s, next, s.flusher.target, c); }
      var rest := FlushReadsOn(Do(s, a));
      RunFirst(s, a, rest);
      steps := [a] + rest;
    }
  }

  lemma WorkKeepsFlusher(s: State, a: Step)
    requires Enabled(s, a) && Work(a)
    ensures Do(s, a).flusher == s.flusher
  {
    hide IngestDoes, IngestCan, StageDoes, StageCan, CompletionDoes, CompletionCan;
    if a.ByIngest? { IngestFrame(s, a.iact); }
  }

  /** The engine's threads push nothing, discard nothing and leave the flush alone. */
  lemma {:induction false} WorkRunKeeps(s: State, steps: seq<Step>)
    requires AllWork(steps) && RunTo(s, steps).Some?
    ensures var s' := RunTo(s, steps).value;
            s'.flusher == s.flusher && |s'.tickets| == |s.tickets| && s'.hist.discarded == s.hist.discarded
  {
    hide Do, Enabled;
    if steps != [] {
      var front, a := steps[..|steps| - 1], steps[|steps| - 1];
      assert a in steps && forall b :: b in front ==> b in steps;
      WorkRunKeeps(s, front);
      var mid := RunTo(s, front).value;
      WorkKeepsFlusher(mid, a);
      StepCounts(mid, a, Pushed);
      StepCounts(mid, a, Cleared);
    }
  }

  /** When nothing was ever discarded, a flush started in any reachable state can end with success by the engine's own
      work, without a single further push. */
  lemma FlushCanSucceed(cfg: EngineConfig, s: State) returns (steps: seq<Step>)
    requires cfg.stages.Shaped() && Reachable(cfg, s) && Enabled(s, ByFlusher(StartFlush)) && s.hist.discarded == 0
    ensures AllWorkOrFlush(steps) && RunTo(Do(s, ByFlusher(StartFlush)), steps).Some?
    ensures RunTo(Do(s, ByFlusher(StartFlush)), steps).value.flusher.Flushed?
  {
    var started := Do(s, ByFlusher(StartFlush));
    assert started == s.(flusher := Draining(|s.tickets|, 0));
    ReachableNext(cfg, s, ByFlusher(StartFlush));
    hide Do, Enabled, Reachable, Quiet, Finished, Conjunct, AllWork;
    var work := WorkSettles(cfg, started);
    WorkRunKeeps(started, work);
    var quiet := RunTo(started, work).value;
    QuietIsDrained(cfg, quiet, |s.tickets|);
    var readings := FlushReadsOn(quiet);
    RunAppend(started, work, readings);
    WorkThenFlush(work, readings);
    steps := work + readings;
  }

  lemma WorkThenFlush(work: seq<Step>, readings: seq<Step>)
    requires AllWork(work) && AllWorkOrFlush(readings)
    ensures AllWorkOrFlush(work + readings)
  {
  }

  /** Without pushes no more tickets are issued, and discards are never taken back. */
  lemma {:induction false} NoPushKeepsTickets(s: State, steps: seq<Step>)
    requires NoPush(steps) && RunTo(s, steps).Some?
    ensures var s' := RunTo(s, steps).value; |s'.tickets| == |s.tickets| && s'.hist.discarded >= s.hist.discarded
  {
    hide Do, Enabled, Is;
    if steps != [] {
      var front, a := steps[..|steps| - 1], steps[|steps| - 1];
      assert a in steps && forall b :: b in front ==> b in steps;
      NoPushKeepsTickets(s, front);
      var mid := RunTo(s, front).value;
      StepCounts(mid, a, Pushed);
      StepCounts(mid, a, Cleared);
    }
  }

  /** When a block was ever discarded, a flush cannot end with success before something more is pushed, whatever all
      threads do. */
  lemma FlushNeedsAPush(cfg: EngineConfig, s: State, steps: seq<Step>, s': State)
    requires cfg.stages.Shaped() && Reachable(cfg, s) && Enabled(s, ByFlusher(StartFlush)) && s.hist.discarded > 0
    requires RunTo(Do(s, ByFlusher(StartFlush)), steps) == Some(s') && NoNewFlush(steps) && NoPush(steps)
    ensures !s'.flusher.Flushed?
  {
    if s'.flusher.Flushed? {
      var started := Do(s, ByFlusher(StartFlush));
      assert started == s.(flusher := Draining(|s.tickets|, 0));
      FlushWaitsForEarlierPushes(cfg, s, steps, s');
      assert SeenDrained(started, steps, |s.tickets|, 1);
      ReachableNext(cfg, s, ByFlusher(StartFlush));
      hide Do, Enabled, Finished, Reachable;
      var n :| 0 <= n <= |steps| && RunTo(started, steps[..n]).Some? && Drained(RunTo(started, steps[..n]).value, |s.tickets|, 1);
      var mid := RunTo(started, steps[..n]).value;
      assert NoPush(steps[..n]) by { assert forall a :: a in steps[..n] ==> a in steps; }
      NoPushKeepsTickets(started, steps[..n]);
      RunStaysReachable(cfg, started, steps[..n], mid);
      PushesAddUp(cfg, mid);
    }
  }

  // ---- who takes part ------------------------------------------------------------------------------------

  /** Every producer has exactly one way on, by the state of pool and queue, or may give up the block it holds. */
  lemma ProducersAreServed(s: State, p: nat, act: ProducerAct)
    ensures ProducerCan(s, p, act) <==>
              if p !in s.producers then act == (if s.pool.free == [] then Exhausted else Acquire)
              else act == Abandon
                   || (s.producers[p].Filling?
                       && act == (if s.bq.shutdown || |s.bq.entries| >= s.cfg.queueCapacity then RefusePush else Push))
  {
  }

  /** Only active stages of a parallel engine run or have jobs. */
  predicate RestOk(s: State) {
    && (s.worker.Submitting? ==> s.cfg.parallel)
    && forall k: nat :: k < STAGES && (!s.cfg.parallel || k >= s.Stages()) ==> s.runs[k] == Gone && s.queues[k] == []
  }

  lemma RestSubmit(s: State, now: int)
    requires RestOk(s) && IngestCan(s, Submit(now))
    ensures RestOk(DoSubmit(s, now))
  {
    hide Refuses, AfterSubmit;
  }

  lemma RestIngest(s: State, act: IngestAct)
    requires RestOk(s) && IngestCan(s, act)
    ensures RestOk(IngestDoes(s, act))
  {
    if act.Submit? { RestSubmit(s, act.now); }
    hide Refuses, DoPop, DoSubmit, DoRefuse, DoRelease, DoTakeSkip, DoSerial;
  }

  lemma RestStage(s: State, k: nat, act: StageAct)
    requires RestOk(s) && StageCan(s, k, act)
    ensures RestOk(StageDoes(s, k, act))
  {
    hide DropIfUnreferenced;
  }

  lemma RestStep(s: State, a: Step)
    requires Enabled(s, a) && RestOk(s)
    ensures RestOk(Do(s, a))
  {
    hide IngestDoes, IngestCan, ProducerDoes, ProducerCan, StageDoes, StageCan, CompletionDoes, CompletionCan, FlusherDoes, FlusherCan,
         StopperDoes, StopperCan, GiveBack;
    if a.ByIngest? { RestIngest(s, a.iact); }
    if a.ByStage? { RestStage(s, a.k, a.sact); }
  }

  /** On every run the queues and threads of inactive stages, and of all stages in sequential mode, stay empty and gone. */
  lemma {:induction false} InactiveStagesRest(cfg: EngineConfig, steps: seq<Step>)
    requires cfg.stages.Shaped() && RunTo(Init(cfg), steps).Some?
    ensures RestOk(RunTo(Init(cfg), steps).value)
  {
    if steps != [] {
      hide Do, Enabled, RestOk;
      var front, a := steps[..|steps| - 1], steps[|steps| - 1];
      InactiveStagesRest(cfg, front);
      RestStep(RunTo(Init(cfg), front).value, a);
    }
  }
}
