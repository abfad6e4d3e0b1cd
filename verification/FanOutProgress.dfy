/** What the engine's own threads can always do: they are never stuck, their work is bounded, and it ends with every
    block finished. Fair scheduling is not modelled, so these are statements about all runs, not about time. */
module FanOutProgress {
  import opened Common
  import opened FanOutSubmission
  import opened FanOutModel
  import opened FanOutTokens
  import opened FanOutInvariant
  import opened FanOutAccounting
  import opened FanOutLifetime
  import opened FanOutSafety
  import opened FanOutTheorems
  import opened FanOutGuarantees

  /** A step of one of the engine's threads, as opposed to those who feed, clear, flush or stop it. */
  predicate Work(a: Step) { a.ByIngest? || a.ByStage? || a.ByCompletion? }

  ghost predicate AllWork(steps: seq<Step>) { forall a :: a in steps ==> Work(a) }

  // ---- never stuck -------------------------------------------------------------------------------

  lemma StageNeverStuck(cfg: EngineConfig, s: State, k: nat)
    requires cfg.stages.Shaped() && Reachable(cfg, s) && k < STAGES
    requires !((s.runs[k] == Idle || s.runs[k] == Gone) && s.queues[k] == [])
    ensures exists a :: Work(a) && Enabled(s, a)
  {
    ReachableOk(cfg, s);
    assert s.runs[k] != Gone;
    hide CoreOk, FlushOk, StopOk, Reachable;
    if s.runs[k] == Idle {
      assert Enabled(s, ByStage(k, Take));
    } else if s.runs[k].Running? {
      assert Enabled(s, ByStage(k, Process));
    } else if s.completions[k] == Done {
      assert Enabled(s, ByStage(k, DropRef));
    } else {
      CompletionNeverStuck(cfg, s, k);
      var act :| CompletionCan(s, k, act);
      assert Enabled(s, ByCompletion(k, act));
    }
  }

  lemma IngestGoesOn(cfg: EngineConfig, s: State)
    requires cfg.stages.Shaped() && Reachable(cfg, s) && (Busy(s) || s.bq.entries != [])
    ensures exists a :: Work(a) && Enabled(s, a)
  {
    ReachableOk(cfg, s);
    hide CoreOk, FlushOk, StopOk, Reachable;
    if Busy(s) {
      IngestWorkerNeverStuck(cfg, s);
      if act :| IngestCan(s, act) { assert Enabled(s, ByIngest(act)); }
      else { var act :| CompletionCan(s, INGEST, act); assert Enabled(s, ByCompletion(INGEST, act)); }
    } else {
      assert s.worker == Waiting && HeadWaits(s);
      assert Enabled(s, ByIngest(Pop));
    }
  }

  /** Unless the engine is quiet, one of its threads can take a step. */
  lemma EngineNeverStuck(cfg: EngineConfig, s: State)
    requires cfg.stages.Shaped() && Reachable(cfg, s) && !Quiet(s)
    ensures exists a :: Work(a) && Enabled(s, a)
  {
    if Busy(s) || s.bq.entries != [] {
      IngestGoesOn(cfg, s);
    } else {
      var k: nat :| k < STAGES && !((s.runs[k] == Idle || s.runs[k] == Gone) && s.queues[k] == []);
      StageNeverStuck(cfg, s, k);
    }
  }

  // ---- bounded work ------------------------------------------------------------------------------

  function WorkerEffort(w: Worker, stages: nat): nat {
    match w
    case Waiting => 1
    case Popped(_) => 70
    case Marked(_) => 69
    case Submitting(_) => 68
    case Skipping(_, todo, held) => 4 + 6 * |todo| + |held|
    case Stepping(_, next) => 4 + if next < stages then stages - next else 0
    case Releasing(refs) => 2 + |refs|
    case Exited => 0
  }

  function RunEffort(r: StageRun): nat {
    match r
    case Running(_) => 9
    case Finishing(_) => 3
    case Idle => 1
    case Gone => 0
  }

  function CompletionEffort(c: Completion): nat {
    match c
    case Subtracting(_) => 4
    case Recording(_) => 2
    case Leaving(_) => 1
    case Done => 0
  }

  function Jobs(qs: Queues): nat { |qs[0]| + |qs[1]| + |qs[2]| + |qs[3]| }

  function RunsEffort(rs: Runs): nat { RunEffort(rs[0]) + RunEffort(rs[1]) + RunEffort(rs[2]) + RunEffort(rs[3]) }

  function CompletionsEffort(cs: Completions): nat {
    CompletionEffort(cs[0]) + CompletionEffort(cs[1]) + CompletionEffort(cs[2]) + CompletionEffort(cs[3]) + CompletionEffort(cs[4])
  }

  /** An upper bound on the steps the engine's threads can take before something new arrives. */
  function Effort(s: State): nat {
    80 * |s.bq.entries| + WorkerEffort(s.worker, s.Stages()) + 10 * Jobs(s.queues) + RunsEffort(s.runs)
    + CompletionsEffort(s.completions)
  }

  /** A submission adds one job per active stage, and every job it skips it hands to the ingest worker. */
  lemma {:induction false} SubmitJobs(cfg: StageConfig, qs: Queues, job: Job, n: nat)
    requires cfg.Shaped() && n <= STAGES
    ensures var r := SubmitFirst(cfg, qs, job, n); Jobs(r.0) + |r.1| == Jobs(qs) + n
  {
    if n > 0 {
      SubmitJobs(cfg, qs, job, n - 1);
      hide SkipCount;
      var k := n - 1;
      var front := SubmitFirst(cfg, qs, job, k);
      var after := AfterSubmit(cfg, cfg.policies[k], qs[k], job);
      assert |after| + SkipCount(cfg, cfg.policies[k], qs[k], job.enqueuedAt) == |qs[k]| + 1;
      assert front.0[k] == qs[k];
      assert Jobs(front.0[k := after]) == Jobs(front.0) - |qs[k]| + |after|;
    }
  }

  lemma IngestLowersEffort(s: State, act: IngestAct)
    requires s.cfg.stages.Shaped() && IngestCan(s, act)
    ensures Effort(IngestDoes(s, act)) < Effort(s)
  {
    hide Effort, IngestDoes, IngestCan;
    if act.Submit? {
      SubmitLowersEffort(s, act.now);
    } else if act.TakeSkip? {
      SkipLowersEffort(s);
    } else if act.Release? {
      ReleaseLowersEffort(s);
    } else {
      MoveLowersEffort(s, act);
    }
  }

  lemma SubmitLowersEffort(s: State, now: int)
    requires s.cfg.stages.Shaped() && IngestCan(s, Submit(now))
    ensures Effort(IngestDoes(s, Submit(now))) < Effort(s)
  {
    hide SubmitFirst, Refuses, HeldBy, Jobs, RunsEffort, CompletionsEffort;
    SubmitJobs(s.cfg.stages, s.queues, JobOf(s, now), s.Stages());
  }

  lemma SkipLowersEffort(s: State)
    requires IngestCan(s, TakeSkip)
    ensures Effort(IngestDoes(s, TakeSkip)) < Effort(s)
  {
    hide Jobs, RunsEffort;
  }

  lemma ReleaseLowersEffort(s: State)
    requires IngestCan(s, Release)
    ensures Effort(IngestDoes(s, Release)) < Effort(s)
  {
    hide GiveBack, DropIfUnreferenced, Jobs, RunsEffort, CompletionsEffort;
  }

  lemma MoveLowersEffort(s: State, act: IngestAct)
    requires s.cfg.stages.Shaped() && IngestCan(s, act) && !act.Submit? && !act.TakeSkip? && !act.Release?
    ensures Effort(IngestDoes(s, act)) < Effort(s)
  {
    hide Refuses, Jobs, RunsEffort, CompletionsEffort, DoSubmit, DoRelease;
  }

  lemma StageLowersEffort(s: State, k: nat, act: StageAct)
    requires StageCan(s, k, act)
    ensures Effort(StageDoes(s, k, act)) < Effort(s)
  {
    hide GiveBack, DropIfUnreferenced;
  }

  lemma CompletionLowersEffort(s: State, a: nat, act: CompletionAct)
    requires CompletionCan(s, a, act)
    ensures Effort(CompletionDoes(s, a, act)) < Effort(s)
  {
  }

  /** Every step of the engine's threads brings the end of their work nearer. */
  lemma WorkLowersEffort(s: State, a: Step)
    requires s.cfg.stages.Shaped() && Work(a) && Enabled(s, a)
    ensures Effort(Do(s, a)) < Effort(s)
  {
    hide Effort, IngestDoes, IngestCan, StageDoes, StageCan, CompletionDoes, CompletionCan;
    match a
    case ByIngest(act) => IngestLowersEffort(s, act);
    case ByStage(k, act) => StageLowersEffort(s, k, act);
    case ByCompletion(c, act) => CompletionLowersEffort(s, c, act);
  }

  /** However the threads interleave, a run of theirs has no more steps than the effort it uses up. */
  lemma {:induction false} WorkIsBounded(s: State, steps: seq<Step>)
    requires s.cfg.stages.Shaped() && AllWork(steps) && RunTo(s, steps).Some?
    ensures |steps| + Effort(RunTo(s, steps).value) <= Effort(s)
    ensures RunTo(s, steps).value.cfg == s.cfg
  {
    hide Effort, Do, Enabled;
    if steps != [] {
      var front, a := steps[..|steps| - 1], steps[|steps| - 1];
      assert forall b :: b in front ==> b in steps;
      WorkIsBounded(s, front);
      var mid := RunTo(s, front).value;
      assert a in steps;
      WorkLowersEffort(mid, a);
      TicketsGrow(mid, a);
    }
  }

  // ---- where the work ends -----------------------------------------------------------------------

  /** When the engine is quiet, every block is finished, nothing is in flight, no context is left, and the completed pops
      are all pushes but the discarded ones. */
  lemma QuietMeansFinished(cfg: EngineConfig, s: State)
    requires cfg.stages.Shaped() && Reachable(cfg, s) && Quiet(s)
    ensures forall t: nat :: t < |s.tickets| ==> Finished(s, t)
    ensures s.inFlight == 0 && s.contexts == map[] && !s.processing
    ensures s.completedPops + s.hist.discarded == |s.tickets|
  {
    ReachableOk(cfg, s);
    ReachableProcessing(cfg, s);
    forall t: nat ensures t !in s.contexts && t !in s.hist.live && !Holds(s, t) { QuietTicket(s, t); }
    assert s.hist.live == {};
    PushesAddUp(cfg, s);
    assert s.bq.popped == s.completedPops by { assert QueueOk(s); }
    hide CoreOk, StopOk, FlushOk, Holds, Finished;
    forall t: nat | t < |s.tickets| ensures Finished(s, t) { GivenUpMeansFinished(cfg, s, t); }
  }

  /** The busy mark is set exactly from the step after a pop to the end of the block. */
  predicate ProcessingOk(s: State) { s.processing == (Busy(s) && !s.worker.Popped?) }

  lemma ProcessingStep(s: State, a: Step)
    requires Enabled(s, a) && ProcessingOk(s)
    ensures ProcessingOk(Do(s, a))
  {
    hide IngestDoes, IngestCan, ProducerDoes, ProducerCan, StageDoes, StageCan, CompletionDoes, CompletionCan, FlusherDoes, FlusherCan,
         StopperDoes, StopperCan, GiveBack;
    if a.ByIngest? { ProcessingIngest(s, a.iact); }
  }

  lemma ProcessingIngest(s: State, act: IngestAct)
    requires IngestCan(s, act) && ProcessingOk(s)
    ensures ProcessingOk(IngestDoes(s, act))
  {
    hide Refuses, DoPop, DoBegin, DoSubmit, DoRefuse, DoRelease, DoTakeSkip, DoSerial;
  }

  lemma {:induction false} ProcessingOnRuns(cfg: EngineConfig, steps: seq<Step>)
    requires cfg.stages.Shaped()
    ensures RunTo(Init(cfg), steps).Some? ==> ProcessingOk(RunTo(Init(cfg), steps).value)
  {
    if steps != [] {
      hide Do, Enabled, ProcessingOk;
      var front, a := steps[..|steps| - 1], steps[|steps| - 1];
      ProcessingOnRuns(cfg, front);
      var mid := RunTo(Init(cfg), front);
      if mid.Some? && Enabled(mid.value, a) { ProcessingStep(mid.value, a); }
    }
  }

  lemma ReachableProcessing(cfg: EngineConfig, s: State)
    requires cfg.stages.Shaped() && Reachable(cfg, s)
    ensures ProcessingOk(s)
  {
    var steps :| RunTo(Init(cfg), steps) == Some(s);
    ProcessingOnRuns(cfg, steps);
  }

  /** A flush that waits for the pushes before it finds a quiet engine drained exactly when at least as many pushes
      came after its start as clear() has discarded. */
  lemma QuietIsDrained(cfg: EngineConfig, s: State, target: nat)
    requires cfg.stages.Shaped() && Reachable(cfg, s) && Quiet(s)
    ensures (forall c: nat :: c < CONJUNCTS ==> Conjunct(s, target, c)) <==> target + s.hist.discarded <= |s.tickets|
  {
    QuietMeansFinished(cfg, s);
    if target + s.hist.discarded <= |s.tickets| {
      forall c: nat | c < CONJUNCTS ensures Conjunct(s, target, c) { }
    } else {
      assert !Conjunct(s, target, 1);
    }
  }

  lemma {:induction false} RunFirst(s: State, a: Step, steps: seq<Step>)
    requires Enabled(s, a)
    ensures RunTo(s, [a] + steps) == RunTo(Do(s, a), steps)
  {
    hide Do, Enabled;
    if steps == [] {
      assert [a] + steps == [a] && [a][..0] == [];
    } else {
      var front, last := steps[..|steps| - 1], steps[|steps| - 1];
      assert ([a] + steps)[..|steps|] == [a] + front;
      RunFirst(s, a, front);
    }
  }

  lemma ReachableNext(cfg: EngineConfig, s: State, a: Step)
    requires cfg.stages.Shaped() && Reachable(cfg, s) && Enabled(s, a)
    ensures Reachable(cfg, Do(s, a))
  {
    hide Do, Enabled;
    var steps :| RunTo(Init(cfg), steps) == Some(s);
    assert (steps + [a])[..|steps|] == steps;
    assert RunTo(Init(cfg), steps + [a]) == Some(Do(s, a));
  }

  /** From every reachable state the engine's threads alone can finish everything that was pushed. */
  lemma WorkSettles(cfg: EngineConfig, s: State) returns (steps: seq<Step>)
    requires cfg.stages.Shaped() && Reachable(cfg, s)
    ensures AllWork(steps) && RunTo(s, steps).Some?
    ensures Quiet(RunTo(s, steps).value) && Reachable(cfg, RunTo(s, steps).value)
    ensures forall t: nat :: t < |s.tickets| ==> Finished(RunTo(s, steps).value, t)
    decreases Effort(s)
  {
    hide Do, Enabled, Quiet, Reachable, Finished, Effort;
    if Quiet(s) {
      QuietMeansFinished(cfg, s);
      return [];
    }
    EngineNeverStuck(cfg, s);
    var a :| Work(a) && Enabled(s, a);
    ReachableOk(cfg, s);
    hide Inv;
    WorkLowersEffort(s, a);
    ReachableNext(cfg, s, a);
    TicketsGrow(s, a);
    var rest := WorkSettles(cfg, Do(s, a));
    RunFirst(s, a, rest);
    steps := [a] + rest;
  }
}
