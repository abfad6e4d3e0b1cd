/** What every state of the engine satisfies, component by component, and that every step keeps it. */
module FanOutInvariant {
  import opened Common
  import opened FanOutSubmission
  import opened FanOutModel
  import opened FanOutTokens

  // ---- the block queue and the pop counter -----------------------------------------------------

  predicate Busy(s: State) { !(s.worker == Waiting || s.worker == Exited) }

  /** The block the ingest worker has not yet handed out or recorded. */
  function InHand(w: Worker): Option<nat> {
    if w.Popped? || w.Marked? || w.Submitting? || w.Stepping? then Some(w.ticket) else None
  }

  ghost predicate QueueOk(s: State) {
    var q := s.bq.entries;
    && |q| <= s.cfg.queueCapacity
    && (forall i, j :: 0 <= i < j < |q| ==> q[i] < q[j])
    && (forall i :: 0 <= i < |q| ==> q[i] < |s.tickets| && s.tickets[q[i]].phase == Queued && s.bq.popped <= q[i])
    && (forall t: nat :: t < |s.tickets| && s.tickets[t].phase == Queued ==> t in q)
    && s.bq.popped == s.completedPops + If(Busy(s))
    && |s.tickets| == s.bq.popped + |q| + s.hist.discarded
    && (InHand(s.worker).Some? ==> s.completedPops <= InHand(s.worker).value)
  }

  lemma QueueKept(s: State, s': State)
    requires QueueOk(s)
    requires s'.cfg == s.cfg && s'.bq.entries == s.bq.entries && s'.bq.popped == s.bq.popped
    requires s'.completedPops == s.completedPops && s'.hist.discarded == s.hist.discarded && Busy(s') == Busy(s)
    requires InHand(s'.worker).None? || InHand(s'.worker) == InHand(s.worker)
    requires |s'.tickets| == |s.tickets|
    requires forall t: nat :: t < |s.tickets| ==> (s'.tickets[t].phase == Queued <==> s.tickets[t].phase == Queued)
    ensures QueueOk(s')
  {
  }

  lemma QueueProducer(s: State, p: nat, act: ProducerAct)
    requires QueueOk(s) && ProducerCan(s, p, act)
    requires InHand(s.worker).Some? ==> !InPhase(s, InHand(s.worker).value, Queued)
    ensures QueueOk(ProducerDoes(s, p, act))
  {
    hide Assign, GiveBack;
    if !act.Push? { QueueKept(s, ProducerDoes(s, p, act)); }
  }

  lemma QueueClear(s: State)
    requires QueueOk(s) && HeadWaits(s)
    ensures QueueOk(DoDiscard(s))
  {
    hide GiveBack;
  }

  lemma QueuePop(s: State)
    requires QueueOk(s) && IngestCan(s, Pop)
    ensures QueueOk(DoPop(s))
  {
  }

  lemma QueueFinish(s: State)
    requires QueueOk(s) && s.worker == Releasing([])
    ensures QueueOk(s.(worker := Waiting, processing := false, completedPops := s.completedPops + 1))
  {
  }

  lemma QueueHandOut(s: State, act: IngestAct)
    requires QueueOk(s) && IngestCan(s, act) && (act.Begin? || act.Submit? || act.Refuse?)
    requires InHand(s.worker).Some? ==> !InPhase(s, InHand(s.worker).value, Queued)
    ensures QueueOk(IngestDoes(s, act))
  {
    hide SubmitAll, Refuses, QueueOk;
    QueueKept(s, IngestDoes(s, act));
  }

  lemma QueueOther(s: State, act: IngestAct)
    requires QueueOk(s) && IngestCan(s, act) && !(act.Pop? || act.Finish? || act.Begin? || act.Submit? || act.Refuse?)
    ensures QueueOk(IngestDoes(s, act))
  {
    hide Refuses, QueueOk, DoPop, DoBegin, DoSubmit, DoRefuse, DoRelease, DoTakeSkip;
    QueueKept(s, IngestDoes(s, act));
  }

  lemma QueueIngest(s: State, act: IngestAct)
    requires QueueOk(s) && IngestCan(s, act)
    requires InHand(s.worker).Some? ==> !InPhase(s, InHand(s.worker).value, Queued)
    ensures QueueOk(IngestDoes(s, act))
  {
    hide QueueOk, DoPop, DoBegin, DoSubmit, DoRefuse, DoRelease, Refuses;
    if act.Pop? {
      QueuePop(s);
    } else if act.Finish? {
      QueueFinish(s);
    } else if act.Begin? || act.Submit? || act.Refuse? {
      QueueHandOut(s, act);
    } else {
      QueueOther(s, act);
    }
  }

  lemma QueueStep(s: State, a: Step)
    requires QueueOk(s) && Enabled(s, a)
    requires InHand(s.worker).Some? ==> !InPhase(s, InHand(s.worker).value, Queued)
    ensures QueueOk(Do(s, a))
  {
    hide QueueOk, IngestDoes, StageDoes, StageCan, IngestCan, ProducerDoes, ProducerCan, CompletionDoes, CompletionCan,
         FlusherDoes, StopperDoes, FlusherCan, StopperCan;
    match a
    case ByProducer(p, act) => QueueProducer(s, p, act);
    case ByClear => QueueClear(s);
    case ByIngest(act) => QueueIngest(s, act);
    case _ => QueueKept(s, Do(s, a));
  }

  // ---- who may hold what -----------------------------------------------------------------------

  predicate InPhase(s: State, t: nat, phase: Phase) { t < |s.tickets| && s.tickets[t].phase == phase }

  predicate WorkerOk(s: State)
    requires s.cfg.stages.Shaped()
  {
    match s.worker
    case Popped(t) => InPhase(s, t, Held)
    case Marked(t) => InPhase(s, t, Held)
    case Submitting(t) => InPhase(s, t, Offered) && s.cfg.parallel
    case Skipping(t, todo, held) =>
      && InPhase(s, t, Fanned) && s.cfg.parallel
      && (forall u :: u in held ==> InPhase(s, u, Fanned))
      && (forall x :: x in todo ==> x.ticket in held && x.stage < s.Stages() && s.cfg.stages.policies[x.stage] != LosslessRequired)
    case Stepping(t, next) => InPhase(s, t, Serial) && next <= s.Stages()
    case Releasing(refs) => (!s.cfg.parallel ==> |refs| <= 1) && forall u :: u in refs ==> InPhase(s, u, Serial) || InPhase(s, u, Fanned)
    case _ => true
  }

  /** The two phases in which only the ingest worker knows the block. */
  predicate PhaseOk(s: State, t: nat) {
    && (InPhase(s, t, Held) ==> s.worker == Popped(t) || s.worker == Marked(t))
    && (InPhase(s, t, Offered) ==> s.worker == Submitting(t))
    && (InPhase(s, t, Fanned) ==> s.cfg.parallel)
  }

  predicate StageOk(s: State, k: nat)
    requires k < STAGES
  {
    && (forall j :: j in s.queues[k] ==> InPhase(s, j.ticket, Fanned) && k < s.Stages())
    && (s.runs[k].Running? || s.runs[k].Finishing? ==> InPhase(s, s.runs[k].ticket, Fanned) && k < s.Stages())
  }

  function TicketOf(c: Completion): nat
    requires c != Done
  {
    if c.Subtracting? then c.task.ticket else c.ticket
  }

  predicate CompletionOk(s: State) {
    && (forall k: nat :: k < STAGES && s.completions[k] != Done ==>
          s.runs[k] == Finishing(TicketOf(s.completions[k]))
          && (s.completions[k].Subtracting? ==> s.completions[k].task.stage == k))
    && (s.completions[INGEST] != Done ==>
          s.worker.Skipping? && TicketOf(s.completions[INGEST]) in s.worker.held
          && (s.completions[INGEST].Subtracting? ==> s.completions[INGEST].task.stage < s.Stages()))
  }

  ghost predicate HoldersOk(s: State) {
    && s.cfg.stages.Normalized()
    && WorkerOk(s)
    && (forall t: nat :: PhaseOk(s, t))
    && (forall k: nat :: k < STAGES ==> StageOk(s, k))
    && CompletionOk(s)
  }

  lemma HoldersKept(s: State, s': State)
    requires HoldersOk(s)
    requires s'.cfg == s.cfg && s'.worker == s.worker && s'.queues == s.queues && s'.runs == s.runs && s'.completions == s.completions
    requires |s.tickets| <= |s'.tickets|
    requires forall t: nat, phase: Phase :: phase != Queued && phase != Discarded ==> (InPhase(s', t, phase) <==> InPhase(s, t, phase))
    ensures HoldersOk(s')
  {
    forall t: nat ensures PhaseOk(s', t) { assert PhaseOk(s, t); }
    forall k: nat | k < STAGES ensures StageOk(s', k) { assert StageOk(s, k); }
  }

  lemma WorkerSubmit(s: State, now: int)
    requires HoldersOk(s) && IngestCan(s, Submit(now))
    ensures WorkerOk(DoSubmit(s, now))
  {
    hide PhaseOk, CompletionOk, SubmitFirst, Refuses;
    var skips := SubmitAll(s.cfg.stages, s.queues, JobOf(s, now)).1;
    SkipsSpareLossless(s.cfg.stages, s.queues, JobOf(s, now), s.Stages());
    forall x | x in skips ensures x.ticket in HeldBy(skips) && InPhase(s, x.ticket, Fanned) {
      var i :| 0 <= i < |skips| && skips[i] == x;
      assert HeldBy(skips)[i] == x.ticket;
      assert StageOk(s, x.stage);
    }
    forall u | u in HeldBy(skips) ensures InPhase(s, u, Fanned) {
      var i :| 0 <= i < |skips| && HeldBy(skips)[i] == u;
      assert skips[i] in skips;
    }
  }

  lemma WorkerIngest(s: State, act: IngestAct)
    requires HoldersOk(s) && QueueOk(s) && IngestCan(s, act)
    ensures WorkerOk(IngestDoes(s, act))
  {
    assert act.Submit? ==> IngestDoes(s, act) == DoSubmit(s, act.now);
    hide IngestDoes, WorkerOk, PhaseOk, CompletionOk, StageOk, QueueOk, DoSubmit, Refuses;
    if act.Submit? {
      WorkerSubmit(s, act.now);
    } else if act.Pop? || act.Begin? || act.Refuse? {
      WorkerHandOut(s, act);
    } else {
      WorkerMoves(s, act);
    }
  }

  lemma WorkerHandOut(s: State, act: IngestAct)
    requires HoldersOk(s) && QueueOk(s) && IngestCan(s, act) && (act.Pop? || act.Begin? || act.Refuse?)
    ensures WorkerOk(IngestDoes(s, act))
  {
    hide Refuses, PhaseOk, CompletionOk, QueueOk, StageOk, DoSubmit, DoRelease, DoTakeSkip, DoSerial, DoTurn;
  }

  lemma WorkerMoves(s: State, act: IngestAct)
    requires HoldersOk(s) && IngestCan(s, act) && !(act.Pop? || act.Begin? || act.Refuse? || act.Submit?)
    ensures WorkerOk(IngestDoes(s, act))
  {
    hide Refuses, PhaseOk, CompletionOk, QueueOk, StageOk, DoPop, DoBegin, DoRefuse, DoSubmit, DoRelease, DoTakeSkip;
    match act
    case TakeSkip => assert forall x :: x in s.worker.todo[1..] ==> x in s.worker.todo;
    case Release => assert forall u :: u in s.worker.refs[1..] ==> u in s.worker.refs;
    case _ =>
  }

  lemma PhaseIngest(s: State, act: IngestAct, t: nat)
    requires HoldersOk(s) && QueueOk(s) && IngestCan(s, act)
    ensures PhaseOk(IngestDoes(s, act), t)
  {
    assert PhaseOk(s, t) && (s.worker.Submitting? ==> s.cfg.parallel);
    hide Refuses, HoldersOk, IngestDoes, IngestCan, QueueOk, PhaseOk;
    if HandsOn(act) { PhaseHandOut(s, act, t); } else { PhaseMoves(s, act, t); }
  }

  /** Steps that move the block in hand to its next phase. */
  predicate HandsOn(act: IngestAct) { act.Pop? || act.Begin? || act.Refuse? || act.Submit? }

  lemma PhaseHandOut(s: State, act: IngestAct, t: nat)
    requires PhaseOk(s, t) && (s.worker.Submitting? ==> s.cfg.parallel) && IngestCan(s, act) && HandsOn(act)
    ensures PhaseOk(IngestDoes(s, act), t)
  {
    hide Refuses, SubmitFirst, DoRelease, DoTakeSkip, DoSerial, DoTurn;
  }

  lemma PhaseMoves(s: State, act: IngestAct, t: nat)
    requires PhaseOk(s, t) && IngestCan(s, act) && !HandsOn(act)
    ensures PhaseOk(IngestDoes(s, act), t)
  {
    hide Refuses, DoPop, DoBegin, DoRefuse, DoSubmit, DoRelease, DoTakeSkip, DoSerial;
  }

  /** A phase, once Fanned, is final: the ingest worker moves on only blocks it alone holds. */
  lemma FannedStays(s: State, act: IngestAct, t: nat)
    requires HoldersOk(s) && QueueOk(s) && IngestCan(s, act) && InPhase(s, t, Fanned)
    ensures InPhase(IngestDoes(s, act), t, Fanned)
  {
    hide Refuses, SubmitFirst, CompletionOk, StageOk, PhaseOk, DoRelease, DoTakeSkip, DoSerial, DoTurn;
  }

  lemma StageIngest(s: State, act: IngestAct, k: nat)
    requires HoldersOk(s) && QueueOk(s) && IngestCan(s, act) && k < STAGES
    ensures StageOk(IngestDoes(s, act), k)
  {
    hide Refuses, CompletionOk, PhaseOk, SubmitFirst, DoPop, DoBegin, DoRefuse, DoRelease, DoTakeSkip, DoSerial, DoTurn;
    assert StageOk(s, k);
    var s' := IngestDoes(s, act);
    forall j | j in s'.queues[k] ensures InPhase(s', j.ticket, Fanned) && k < s.Stages() {
      if j in s.queues[k] {
        FannedStays(s, act, j.ticket);
      } else {
        assert j == JobOf(s, act.now);
      }
    }
    if s.runs[k].Running? || s.runs[k].Finishing? { FannedStays(s, act, s.runs[k].ticket); }
  }

  lemma CompletionIngest(s: State, act: IngestAct)
    requires HoldersOk(s) && IngestCan(s, act)
    ensures CompletionOk(IngestDoes(s, act))
  {
    hide Refuses, StageOk, PhaseOk, DoPop, DoBegin, DoSubmit, DoRefuse, DoRelease, DoSerial;
  }

  lemma HoldersStage(s: State, k: nat, act: StageAct)
    requires HoldersOk(s) && StageCan(s, k, act)
    ensures HoldersOk(StageDoes(s, k, act))
  {
    hide GiveBack, DropIfUnreferenced;
    var s' := StageDoes(s, k, act);
    forall t: nat ensures PhaseOk(s', t) { assert PhaseOk(s, t); }
    forall l: nat | l < STAGES ensures StageOk(s', l) { assert StageOk(s, l); }
  }

  lemma HoldersCompletion(s: State, a: nat, act: CompletionAct)
    requires HoldersOk(s) && CompletionCan(s, a, act)
    ensures HoldersOk(CompletionDoes(s, a, act))
  {
    var s' := CompletionDoes(s, a, act);
    forall t: nat ensures PhaseOk(s', t) { assert PhaseOk(s, t); }
    forall l: nat | l < STAGES ensures StageOk(s', l) { assert StageOk(s, l); }
  }

  lemma HoldersStep(s: State, a: Step)
    requires HoldersOk(s) && QueueOk(s) && Enabled(s, a)
    ensures HoldersOk(Do(s, a))
  {
    match a
    case ByIngest(act) =>
      hide IngestDoes, IngestCan, StageOk, PhaseOk, WorkerOk, CompletionOk, QueueOk;
      IngestFrame(s, act);
      WorkerIngest(s, act);
      CompletionIngest(s, act);
      forall t: nat ensures PhaseOk(Do(s, a), t) { PhaseIngest(s, act, t); }
      forall k: nat | k < STAGES ensures StageOk(Do(s, a), k) { StageIngest(s, act, k); }
    case ByStage(k, act) => HoldersStage(s, k, act);
    case ByCompletion(c, act) => HoldersCompletion(s, c, act);
    case _ =>
      hide HoldersOk;
      HoldersKept(s, Do(s, a));
  }
}
