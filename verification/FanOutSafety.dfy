/** The invariant of the whole engine, and what it means for flush, stop, the pool and overload. */
module FanOutSafety {
  import opened Common
  import opened FanOutSubmission
  import opened FanOutModel
  import opened FanOutTokens
  import opened FanOutInvariant
  import opened FanOutAccounting
  import opened FanOutLifetime

  // ---- overload bounds ---------------------------------------------------------------------------

  predicate MaySkip(s: State, x: Task)
    requires s.cfg.stages.Shaped()
  {
    x.stage < STAGES && s.cfg.stages.policies[x.stage] != LosslessRequired
  }

  ghost predicate QueueBounded(s: State, k: nat)
    requires s.cfg.stages.Shaped() && k < STAGES
  {
    |s.queues[k]| <= Limit(s.cfg.stages, s.cfg.stages.policies[k]) && Ordered(s.queues[k], s.clock)
  }

  ghost predicate BoundsOk(s: State)
    requires s.cfg.stages.Shaped()
  {
    && (forall k: nat :: k < STAGES ==> QueueBounded(s, k))
    && (forall x :: x in s.hist.skipped ==> MaySkip(s, x))
  }

  lemma SubmitBounded(s: State, now: int, k: nat)
    requires s.cfg.stages.Normalized() && IngestCan(s, Submit(now)) && k < STAGES && QueueBounded(s, k)
    ensures QueueBounded(DoSubmit(s, now), k)
  {
    hide AfterSubmit, Limit;
    var cfg := s.cfg.stages;
    var q := s.queues[k];
    assert Ordered(q, now);
    if k < s.Stages() {
      assert !LosslessFull(cfg, s.queues, k);
      StageAfterSubmit(cfg, cfg.policies[k], q, JobOf(s, now));
    }
  }

  lemma BoundsIngest(s: State, act: IngestAct)
    requires HoldersOk(s) && BoundsOk(s) && IngestCan(s, act)
    ensures BoundsOk(IngestDoes(s, act))
  {
    hide QueueBounded, PhaseOk, StageOk, CompletionOk, DoPop, DoBegin, DoSubmit, DoRefuse, DoRelease, DoSerial, DoTurn;
    var s' := IngestDoes(s, act);
    forall k: nat | k < STAGES ensures QueueBounded(s', k) {
      assert QueueBounded(s, k);
      if act.Submit? { SubmitBounded(s, act.now, k); } else { QueueBoundKept(s, s', k); }
    }
    if act.TakeSkip? { assert s.worker.todo[0] in s.worker.todo; }
  }

  lemma QueueBoundKept(s: State, s': State, k: nat)
    requires s.cfg.stages.Shaped() && k < STAGES && QueueBounded(s, k)
    requires s'.cfg == s.cfg && s'.clock == s.clock
    requires s'.queues[k] == s.queues[k] || (s.queues[k] != [] && s'.queues[k] == s.queues[k][1..])
    ensures QueueBounded(s', k)
  {
  }

  lemma BoundsStep(s: State, a: Step)
    requires HoldersOk(s) && BoundsOk(s) && Enabled(s, a)
    ensures BoundsOk(Do(s, a))
  {
    hide IngestDoes, IngestCan, ProducerDoes, ProducerCan, CompletionDoes, CompletionCan,
         FlusherDoes, FlusherCan, StopperDoes, StopperCan, WorkerOk, PhaseOk, StageOk, CompletionOk, GiveBack, DropIfUnreferenced, QueueBounded;
    if a.ByIngest? {
      BoundsIngest(s, a.iact);
    } else {
      forall k: nat | k < STAGES ensures QueueBounded(Do(s, a), k) {
        assert QueueBounded(s, k);
        QueueBoundKept(s, Do(s, a), k);
      }
    }
  }

  // ---- flushing ----------------------------------------------------------------------------------

  /** The ingest worker is through with the block. */
  predicate Past(s: State, t: nat) {
    InPhase(s, t, Discarded) || InPhase(s, t, Fanned) || (InPhase(s, t, Serial) && s.hist.recorded[t] > 0)
  }

  /** Every active stage met the block exactly once and its completion was recorded exactly once. */
  ghost predicate Completed(s: State, t: nat) {
    s.hist.recorded[t] == 1 && forall k: nat :: k < s.Stages() ==> Met(s, Task(t, k)) == 1
  }

  ghost predicate Finished(s: State, t: nat) {
    InPhase(s, t, Discarded) || (t < |s.tickets| && Completed(s, t))
  }

  ghost predicate FlushOk(s: State) {
    match s.flusher
    case NotFlushing => true
    case Draining(target, seen) =>
      && target <= |s.tickets|
      && (seen >= 2 ==> forall t: nat :: t < target ==> Past(s, t))
      && (seen >= 4 ==> forall t: nat :: t < target ==> Finished(s, t))
    case Flushed(target) => target <= |s.tickets| && forall t: nat :: t < target ==> Finished(s, t)
  }

  /** What each state satisfies apart from the flusher and the stopper. */
  ghost predicate CoreOk(s: State) {
    && QueueOk(s) && HoldersOk(s) && TokensOk(s)
    && (forall t: nat :: TicketOk(s, t))
    && (forall t: nat :: RefOk(s, t))
    && s.inFlight == |s.hist.live|
    && PoolOk(s)
    && BoundsOk(s)
  }

  /** Enough pops completed: no older block is still queued or in the ingest worker's hand. */
  lemma PopsCovered(s: State, target: nat, t: nat)
    requires CoreOk(s) && s.completedPops >= target && t < target <= |s.tickets|
    ensures Past(s, t)
  {
    hide TokensOk, PoolOk, BoundsOk, StageOk, CompletionOk, RefOk;
    assert TicketOk(s, t) && PhaseOk(s, t);
  }

  /** Nothing in flight: every block handed out is complete. */
  lemma NothingInFlight(s: State, t: nat)
    requires CoreOk(s) && s.inFlight == 0 && Past(s, t)
    ensures Finished(s, t)
  {
    hide PoolOk, BoundsOk, QueueOk, HoldersOk, RecordingCount, LeavingCount, RefOk;
    assert TicketOk(s, t);
    if !InPhase(s, t, Discarded) {
      assert t !in s.hist.live;
      forall k: nat | k < s.Stages() ensures Met(s, Task(t, k)) == 1 {
        assert TokenOk(s, Task(t, k));
        if InPhase(s, t, Fanned) { FannedClosed(s, t, k); } else { SerialClosed(s, t, k); }
      }
    }
  }

  lemma FannedClosed(s: State, t: nat, k: nat)
    requires HoldersOk(s) && FannedOk(s, t) && t !in s.hist.live && k < s.Stages()
    ensures Pending(s, Task(t, k)) == 0
  {
    hide Pending, SubtractCount, RecordingCount, LeavingCount, WorkerOk, PhaseOk, StageOk;
    assert OpenTasks(s, t) == 0;
  }

  lemma SerialClosed(s: State, t: nat, k: nat)
    requires HoldersOk(s) && InPhase(s, t, Serial) && TicketOk(s, t) && s.hist.recorded[t] > 0
    ensures Pending(s, Task(t, k)) == 0
  {
    var x := Task(t, k);
    hide RecordingCount, LeavingCount, CompletionOk;
    if k < STAGES { assert StageOk(s, k); }
  }

  // ---- every step keeps the core -----------------------------------------------------------------

  lemma LiveIngest(s: State, act: IngestAct)
    requires IngestCan(s, act) && s.inFlight == |s.hist.live|
    requires s.worker.Marked? ==> s.worker.ticket !in s.hist.live
    requires s.worker.Submitting? ==> s.worker.ticket in s.hist.live
    ensures IngestDoes(s, act).inFlight == |IngestDoes(s, act).hist.live|
  {
    hide Refuses, DoPop, DoSubmit, DoRelease, DoTakeSkip, DoSerial, DoTurn;
  }

  lemma LiveCompletion(s: State, a: nat, act: CompletionAct)
    requires CompletionCan(s, a, act) && s.inFlight == |s.hist.live|
    requires act.Leave? ==> s.completions[a].ticket in s.hist.live
    ensures CompletionDoes(s, a, act).inFlight == |CompletionDoes(s, a, act).hist.live|
  {
  }

  lemma LeavingIsLive(s: State, a: nat)
    requires HoldersOk(s) && a <= INGEST && s.completions[a].Leaving? && TicketOk(s, s.completions[a].ticket)
    ensures s.completions[a].ticket in s.hist.live
  {
    assert InPhase(s, s.completions[a].ticket, Fanned) by { assert a < STAGES ==> StageOk(s, a); }
    hide OpenTasks, RecordingCount, HoldersOk;
    assert LeavingCount(s.completions, s.completions[a].ticket) > 0;
  }

  lemma LiveStep(s: State, a: Step)
    requires CoreOk(s) && Enabled(s, a)
    ensures Do(s, a).inFlight == |Do(s, a).hist.live|
  {
    hide IngestDoes, IngestCan, StageDoes, StageCan, ProducerDoes, ProducerCan, CompletionDoes, FlusherDoes, FlusherCan,
         StopperDoes, StopperCan, TokensOk, PoolOk, BoundsOk, StageOk, PhaseOk, CompletionOk, RefOk, QueueOk, FannedOk;
    match a
    case ByIngest(act) =>
      if s.worker.Marked? || s.worker.Submitting? { assert TicketOk(s, s.worker.ticket); }
      LiveIngest(s, act);
    case ByCompletion(c, act) =>
      if act.Leave? { LeavingIsLive(s, c); }
      LiveCompletion(s, c, act);
    case _ => hide HoldersOk, TicketOk;
  }

  lemma CoreStep(s: State, a: Step)
    requires CoreOk(s) && Enabled(s, a)
    ensures CoreOk(Do(s, a))
  {
    hide Do, Enabled, BoundsOk, PoolOk, QueueOk, TokenOk, PhaseOk, StageOk, CompletionOk, RecordingCount, LeavingCount, OpenTasks, RefOk,
         FannedOk, GiveBack;
    var s' := Do(s, a);
    QueueStep(s, a);
    HoldersStep(s, a);
    assert TicketOk(s, |s.tickets|);
    forall t: nat | t == |s.tickets| || InPhase(s, t, Queued) ensures t !in s.contexts && !WorkerRefers(s.worker, t) {
      assert TicketOk(s, t);
      if WorkerRefers(s.worker, t) { ReferredIsPast(s, t); }
    }
    if s.worker.Marked? { assert TicketOk(s, s.worker.ticket); }
    PoolStep(s, a);
    BoundsStep(s, a);
    LiveStep(s, a);
    hide HoldersOk;
    forall x: Task ensures TokenOk(s', x) { TokenStep(s, a, x); }
    forall t: nat ensures TicketOk(s', t) { TicketStep(s, a, t); }
    forall t: nat ensures RefOk(s', t) { RefStep(s, a, t); }
  }

  // ---- the flusher's promise is kept -------------------------------------------------------------

  lemma PastStays(s: State, a: Step, t: nat)
    requires HoldersOk(s) && QueueOk(s) && Enabled(s, a) && Past(s, t)
    ensures Past(Do(s, a), t) && (InPhase(s, t, Discarded) ==> InPhase(Do(s, a), t, Discarded))
  {
    hide StageDoes, StageCan, FlusherDoes, FlusherCan, StopperDoes, StopperCan, PhaseOk, StageOk, CompletionOk,
         GiveBack, DropIfUnreferenced, SubmitFirst, Refuses;
    match a
    case ByIngest(act) => PastIngest(s, act, t);
    case ByProducer(p, act) => ProducerTickets(s, p, act);
    case ByCompletion(c, act) =>
    case _ =>
  }

  lemma PastIngest(s: State, act: IngestAct, t: nat)
    requires HoldersOk(s) && QueueOk(s) && IngestCan(s, act) && Past(s, t)
    ensures Past(IngestDoes(s, act), t) && (InPhase(s, t, Discarded) ==> InPhase(IngestDoes(s, act), t, Discarded))
  {
    hide PhaseOk, StageOk, CompletionOk, SubmitFirst, Refuses, DoRelease, DoTakeSkip, DoSerial, DoTurn;
  }

  lemma HistoryIngest(s: State, act: IngestAct)
    requires IngestCan(s, act)
    ensures var h := IngestDoes(s, act).hist;
            s.hist.processed <= h.processed && s.hist.skipped <= h.skipped && s.hist.recorded <= h.recorded
  {
    hide Refuses, DoPop, DoBegin, DoSubmit, DoRefuse, DoRelease, DoTakeSkip, DoSerial, DoTurn;
  }

  /** Nothing that happened is undone. */
  lemma HistoryGrows(s: State, a: Step)
    requires Enabled(s, a)
    ensures var h := Do(s, a).hist;
            s.hist.processed <= h.processed && s.hist.skipped <= h.skipped && s.hist.recorded <= h.recorded
  {
    hide IngestDoes, IngestCan, ProducerDoes, FlusherDoes, StopperDoes, GiveBack, DropIfUnreferenced;
    match a
    case ByIngest(act) => HistoryIngest(s, act);
    case _ =>
  }

  lemma RecordedOnce(s: State, t: nat)
    requires TicketOk(s, t)
    ensures s.hist.recorded[t] <= 1
  {
    hide OpenTasks, RecordingCount, LeavingCount;
  }

  lemma CoreHolds(s: State)
    requires CoreOk(s)
    ensures HoldersOk(s) && QueueOk(s)
  {
  }

  lemma FinishedStays(s: State, a: Step, t: nat)
    requires CoreOk(s) && Enabled(s, a) && Finished(s, t)
    ensures Finished(Do(s, a), t)
  {
    hide Do, Enabled, Pending, TicketOk, HoldersOk, QueueOk, PoolOk, BoundsOk, RefOk;
    var s' := Do(s, a);
    CoreStep(s, a);
    assert TicketOk(s', t);
    assert forall k: nat :: TokenOk(s', Task(t, k));
    hide CoreOk;
    if InPhase(s, t, Discarded) {
      assert HoldersOk(s) && QueueOk(s) by { CoreHolds(s); }
      PastStays(s, a, t);
    } else {
      HistoryGrows(s, a);
      RecordedOnce(s', t);
      assert s'.hist.recorded[t] == 1;
      TicketsGrow(s, a);
      forall k: nat | k < s.Stages() ensures Met(s', Task(t, k)) == 1 {
        assert TokenOk(s', Task(t, k));
      }
    }
  }

  lemma TicketsIngest(s: State, act: IngestAct)
    requires IngestCan(s, act)
    ensures |IngestDoes(s, act).tickets| == |s.tickets| && IngestDoes(s, act).cfg == s.cfg
  {
    hide Refuses, DoPop, DoBegin, DoSubmit, DoRefuse, DoRelease, DoTakeSkip, DoSerial, DoTurn;
  }

  lemma TicketsGrow(s: State, a: Step)
    requires Enabled(s, a)
    ensures |Do(s, a).tickets| >= |s.tickets| && Do(s, a).cfg == s.cfg
  {
    hide IngestDoes, IngestCan, StageDoes, StageCan, CompletionDoes, CompletionCan, ProducerDoes, FlusherDoes, StopperDoes, GiveBack;
    match a
    case ByIngest(act) => TicketsIngest(s, act);
    case ByProducer(p, act) => ProducerTickets(s, p, act);
    case _ =>
  }
}
