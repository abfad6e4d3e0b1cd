/** Every block's tasks, remaining-stage counter, completion record and in-flight mark agree, in every step. */
module FanOutAccounting {
  import opened Common
  import opened FanOutSubmission
  import opened FanOutModel
  import opened FanOutTokens
  import opened FanOutInvariant

  // ---- tasks ------------------------------------------------------------------------------------

  lemma AssignedIngest(s: State, act: IngestAct, x: Task)
    requires s.cfg.stages.Shaped() && WorkerOk(s) && QueueOk(s) && IngestCan(s, act)
    ensures If(Assigned(IngestDoes(s, act), x)) == If(Assigned(s, x)) + Issued(s, ByIngest(act), x)
  {
    hide IngestDoes, IngestCan, Issued, QueueOk, WorkerOk, Assigned;
    if HandsOn(act) { AssignedHandOut(s, act, x); } else { AssignedMoves(s, act, x); }
  }

  lemma AssignedHandOut(s: State, act: IngestAct, x: Task)
    requires s.cfg.stages.Shaped() && WorkerOk(s) && QueueOk(s) && IngestCan(s, act) && HandsOn(act)
    ensures If(Assigned(IngestDoes(s, act), x)) == If(Assigned(s, x)) + Issued(s, ByIngest(act), x)
  {
    hide Refuses, SubmitFirst, DoRelease, DoTakeSkip, DoSerial, DoTurn;
  }

  lemma AssignedMoves(s: State, act: IngestAct, x: Task)
    requires IngestCan(s, act) && !HandsOn(act)
    ensures If(Assigned(IngestDoes(s, act), x)) == If(Assigned(s, x)) + Issued(s, ByIngest(act), x)
  {
    hide Refuses, DoPop, DoBegin, DoRefuse, DoSubmit, DoRelease, DoTakeSkip, DoSerial, DoTurn;
  }

  /** The tasks of exactly the blocks that were just handed out become assigned. */
  lemma AssignedStep(s: State, a: Step, x: Task)
    requires HoldersOk(s) && QueueOk(s) && Enabled(s, a)
    ensures If(Assigned(Do(s, a), x)) == If(Assigned(s, x)) + Issued(s, a, x)
  {
    hide IngestDoes, IngestCan, StageDoes, StageCan, ProducerDoes, ProducerCan, CompletionDoes, CompletionCan,
         FlusherDoes, FlusherCan, StopperDoes, StopperCan, StageOk, CompletionOk, PhaseOk, WorkerOk;
    match a
    case ByIngest(act) => AssignedIngest(s, act, x);
    case ByProducer(p, act) =>
      assert act.Push? || ProducerDoes(s, p, act).tickets == s.tickets by { ProducerTickets(s, p, act); }
      if act.Push? { ProducerTickets(s, p, act); }
    case ByClear => hide GiveBack;
    case _ =>
  }

  lemma ProducerTickets(s: State, p: nat, act: ProducerAct)
    requires ProducerCan(s, p, act)
    ensures act.Push? ==> ProducerDoes(s, p, act).tickets == s.tickets + [Ticket(s.producers[p].block, Queued)]
    ensures !act.Push? ==> ProducerDoes(s, p, act).tickets == s.tickets
  {
    hide GiveBack, Assign;
  }

  lemma TokenStep(s: State, a: Step, x: Task)
    requires HoldersOk(s) && QueueOk(s) && Enabled(s, a) && TokenOk(s, x)
    ensures TokenOk(Do(s, a), x)
  {
    hide Pending, Met, Assigned, Issued, Do, Enabled, HoldersOk, QueueOk;
    TasksConserved(s, a, x);
    AssignedStep(s, a, x);
  }

  /** A task the context's counter still counts: not yet met, or met and about to be subtracted. */
  function Open(s: State, x: Task): nat { Pending(s, x) + SubtractCount(s.completions, x) }

  function OpenTasks(s: State, t: nat): nat {
    Open(s, Task(t, 0)) + Open(s, Task(t, 1)) + Open(s, Task(t, 2)) + Open(s, Task(t, 3))
  }

  predicate Subtracts(s: State, a: Step, x: Task) {
    a.ByCompletion? && a.cact.Subtract? && a.a <= INGEST && s.completions[a.a] == Subtracting(x)
  }

  lemma OpenIngest(s: State, act: IngestAct, x: Task)
    requires CompletionOk(s) && IngestCan(s, act)
    requires s.worker.Stepping? ==> s.worker.ticket != x.ticket
    ensures var s' := IngestDoes(s, act);
            Met(s', x) + SubtractCount(s.completions, x) == Met(s, x) + SubtractCount(s'.completions, x)
  {
    hide Refuses, DoPop, DoBegin, DoSubmit, DoRefuse, DoRelease, DoTurn;
    if act.TakeSkip? {
      var cs := s.completions[INGEST := Subtracting(s.worker.todo[0])];
      assert SubtractCount(cs, x) == SubtractCount(s.completions, x) + If(x == s.worker.todo[0]);
    } else {
      hide SubtractCount;
      assert IngestDoes(s, act).completions == s.completions;
    }
  }

  lemma OpenStage(s: State, k: nat, act: StageAct, x: Task)
    requires CompletionOk(s) && StageCan(s, k, act)
    ensures var s' := StageDoes(s, k, act);
            Met(s', x) + SubtractCount(s.completions, x) == Met(s, x) + SubtractCount(s'.completions, x)
  {
    if act.Process? {
      var task := Task(s.runs[k].ticket, k);
      assert s.completions[k] == Done;
      SubtractCountAfter(s.completions, k, Subtracting(task), x);
      hide SubtractCount, CompletionOk;
    } else {
      hide SubtractCount, CompletionOk, DropIfUnreferenced;
    }
  }

  lemma SubtractCountAfter(cs: Completions, a: nat, c: Completion, x: Task)
    requires a <= INGEST
    ensures SubtractCount(cs[a := c], x) + If(cs[a] == Subtracting(x)) == SubtractCount(cs, x) + If(c == Subtracting(x))
  {
  }

  lemma OpenCompletion(s: State, a: nat, act: CompletionAct, x: Task)
    requires CompletionCan(s, a, act)
    ensures SubtractCount(s.completions, x)
            == SubtractCount(CompletionDoes(s, a, act).completions, x) + If(Subtracts(s, ByCompletion(a, act), x))
  {
  }

  /** Besides handing out, only the subtraction itself closes a task of a block handed to the stages. */
  lemma OpenStep(s: State, a: Step, x: Task)
    requires HoldersOk(s) && Enabled(s, a)
    requires s.worker.Stepping? ==> s.worker.ticket != x.ticket
    ensures Open(Do(s, a), x) == Open(s, x) + Issued(s, a, x) - If(Subtracts(s, a, x))
  {
    hide IngestDoes, IngestCan, StageDoes, StageCan, ProducerDoes, ProducerCan, CompletionDoes, CompletionCan,
         FlusherDoes, FlusherCan, StopperDoes, StopperCan, StageOk, CompletionOk, PhaseOk, WorkerOk, Pending, SubtractCount, Issued;
    TasksConserved(s, a, x);
    match a
    case ByIngest(act) => OpenIngest(s, act, x);
    case ByStage(k, act) => OpenStage(s, k, act, x);
    case ByCompletion(c, act) => OpenCompletion(s, c, act, x);
    case ByClear => hide GiveBack;
    case _ =>
  }

  // ---- blocks -----------------------------------------------------------------------------------

  function RecordingCount(cs: Completions, t: nat): nat {
    If(cs[0] == Recording(t)) + If(cs[1] == Recording(t)) + If(cs[2] == Recording(t)) + If(cs[3] == Recording(t)) + If(cs[4] == Recording(t))
  }

  function LeavingCount(cs: Completions, t: nat): nat {
    If(cs[0] == Leaving(t)) + If(cs[1] == Leaving(t)) + If(cs[2] == Leaving(t)) + If(cs[3] == Leaving(t)) + If(cs[4] == Leaving(t))
  }

  function Remaining(s: State, t: nat): int { if t in s.contexts then s.contexts[t] else 0 }

  predicate Untouched(s: State, t: nat) {
    s.hist.recorded[t] == 0 && RecordingCount(s.completions, t) == 0 && LeavingCount(s.completions, t) == 0
  }

  /** For a block handed to the stages: the counter is the number of open tasks; the completion is recorded exactly
      once, by whoever brings the counter to zero; and the block is in flight until that has left. */
  predicate FannedOk(s: State, t: nat) {
    && Remaining(s, t) == OpenTasks(s, t)
    && s.hist.recorded[t] + RecordingCount(s.completions, t) + If(Remaining(s, t) > 0) == 1
    && If(t in s.hist.live) == If(Remaining(s, t) > 0) + RecordingCount(s.completions, t) + LeavingCount(s.completions, t)
  }

  predicate TicketOk(s: State, t: nat) {
    if InPhase(s, t, Fanned) then FannedOk(s, t)
    else if InPhase(s, t, Offered) then
      Untouched(s, t) && t in s.hist.live && t in s.contexts && s.contexts[t] == s.Stages()
    else if InPhase(s, t, Serial) then
      && RecordingCount(s.completions, t) == 0 && LeavingCount(s.completions, t) == 0 && t !in s.hist.live
      && s.hist.recorded[t] == If(!(s.worker.Stepping? && s.worker.ticket == t))
    else
      Untouched(s, t) && t !in s.hist.live && t !in s.contexts
  }

  ghost predicate TokensOk(s: State) { forall x: Task :: TokenOk(s, x) }

  lemma NoOpenBeforeHandOut(s: State, t: nat, k: nat)
    requires HoldersOk(s) && TokenOk(s, Task(t, k)) && InPhase(s, t, Offered)
    ensures Open(s, Task(t, k)) == 0
  {
    assert PhaseOk(s, t);
    assert s.worker == Submitting(t);
    hide Pending, PhaseOk, WorkerOk;
    forall j: nat | j < STAGES ensures s.completions[j] != Subtracting(Task(t, k)) { assert StageOk(s, j); }
  }

  lemma TicketProducer(s: State, p: nat, act: ProducerAct, t: nat)
    requires QueueOk(s) && ProducerCan(s, p, act) && TicketOk(s, t)
    requires InPhase(s, t, Fanned) ==> OpenTasks(ProducerDoes(s, p, act), t) == OpenTasks(s, t)
    ensures TicketOk(ProducerDoes(s, p, act), t)
  {
    hide ProducerDoes, ProducerCan, OpenTasks, RecordingCount, LeavingCount, QueueOk;
    ProducerTickets(s, p, act);
  }

  lemma TicketClear(s: State, t: nat)
    requires QueueOk(s) && HeadWaits(s) && TicketOk(s, t)
    requires InPhase(s, t, Fanned) ==> OpenTasks(DoDiscard(s), t) == OpenTasks(s, t)
    ensures TicketOk(DoDiscard(s), t)
  {
    hide GiveBack, OpenTasks, RecordingCount, LeavingCount;
  }

  lemma CountsAfter(cs: Completions, a: nat, c: Completion, t: nat)
    requires a <= INGEST
    ensures RecordingCount(cs[a := c], t) + If(cs[a] == Recording(t)) == RecordingCount(cs, t) + If(c == Recording(t))
    ensures LeavingCount(cs[a := c], t) + If(cs[a] == Leaving(t)) == LeavingCount(cs, t) + If(c == Leaving(t))
  {
  }

  lemma FannedSubtract(s: State, a: nat, t: nat)
    requires CompletionCan(s, a, Subtract) && FannedOk(s, t)
    requires OpenTasks(DoSubtract(s, a), t) == OpenTasks(s, t) - If(s.completions[a].task.ticket == t)
    ensures FannedOk(DoSubtract(s, a), t)
  {
    hide OpenTasks, RecordingCount, LeavingCount;
    CountsAfter(s.completions, a, DoSubtract(s, a).completions[a], t);
  }

  lemma FannedRecord(s: State, a: nat, t: nat)
    requires CompletionCan(s, a, Record) && FannedOk(s, t)
    requires OpenTasks(CompletionDoes(s, a, Record), t) == OpenTasks(s, t)
    ensures FannedOk(CompletionDoes(s, a, Record), t)
  {
    hide OpenTasks, RecordingCount, LeavingCount;
    CountsAfter(s.completions, a, Leaving(s.completions[a].ticket), t);
  }

  lemma FannedLeave(s: State, a: nat, t: nat)
    requires CompletionCan(s, a, Leave) && FannedOk(s, t)
    requires OpenTasks(DoLeave(s, a), t) == OpenTasks(s, t)
    ensures FannedOk(DoLeave(s, a), t)
  {
    hide OpenTasks, RecordingCount, LeavingCount;
    CountsAfter(s.completions, a, Done, t);
  }

  lemma TicketCompletion(s: State, a: nat, act: CompletionAct, t: nat)
    requires HoldersOk(s) && CompletionCan(s, a, act) && TicketOk(s, t)
    requires InPhase(s, t, Fanned) ==>
               OpenTasks(CompletionDoes(s, a, act), t) == OpenTasks(s, t) - If(act.Subtract? && s.completions[a].task.ticket == t)
    ensures TicketOk(CompletionDoes(s, a, act), t)
  {
    assert InPhase(s, TicketOf(s.completions[a]), Fanned) by { assert a < STAGES ==> StageOk(s, a); }
    hide OpenTasks, WorkerOk, PhaseOk, StageOk, RecordingCount, LeavingCount, FannedOk, CompletionOk;
    if InPhase(s, t, Fanned) {
      match act
      case Subtract => FannedSubtract(s, a, t);
      case Record => FannedRecord(s, a, t);
      case Leave => FannedLeave(s, a, t);
    } else {
      CountsAfter(s.completions, a, CompletionDoes(s, a, act).completions[a], t);
      assert CompletionDoes(s, a, act).completions == s.completions[a := CompletionDoes(s, a, act).completions[a]];
    }
  }

  // ---- lifetime of contexts ---------------------------------------------------------------------

  /** A context lives exactly as long as somebody refers to it. */
  predicate RefOk(s: State, t: nat) { t in s.contexts <==> Referenced(s, t) }

  /** A context nobody refers to has no open task. */
  lemma UnreferencedIsClosed(s: State, t: nat)
    requires HoldersOk(s) && InPhase(s, t, Fanned) && !Referenced(s, t)
    ensures OpenTasks(s, t) == 0
  {
    hide TasksOf;
    assert s.cfg.parallel by { assert PhaseOk(s, t); }
    hide PhaseOk, StageOk;
    forall k: nat | k < STAGES ensures Open(s, Task(t, k)) == 0 {
      assert !StageRefers(s, t, k);
      var x := Task(t, k);
      assert TodoCount(s, x) == 0;
      assert SerialCount(s, x) == 0 by { assert !WorkerRefers(s.worker, t); }
      assert forall j: nat :: j < STAGES ==> s.completions[j] != Subtracting(x) by {
        assert !StageRefers(s, t, 0) && !StageRefers(s, t, 1) && !StageRefers(s, t, 2) && !StageRefers(s, t, 3);
      }
    }
  }

  lemma DropKeepsOpen(s: State, u: nat, t: nat)
    ensures OpenTasks(DropIfUnreferenced(s, u), t) == OpenTasks(s, t)
  {
    hide Pending, DropIfUnreferenced, SubtractCount;
    forall k: nat | k < STAGES ensures Open(DropIfUnreferenced(s, u), Task(t, k)) == Open(s, Task(t, k)) {
      SameTasks(s, DropIfUnreferenced(s, u), Task(t, k));
    }
  }

  /** Dropping a reference may end a context, but only one with nothing left to count. */
  lemma TicketDrop(s: State, u: nat, t: nat)
    requires TicketOk(s, t) && HoldersOk(s)
    requires InPhase(s, u, Fanned) || InPhase(s, u, Serial)
    ensures TicketOk(DropIfUnreferenced(s, u), t)
  {
    hide RecordingCount, LeavingCount, Referenced, GiveBack, HoldersOk, OpenTasks;
    if InPhase(s, t, Fanned) && !Referenced(s, t) { UnreferencedIsClosed(s, t); }
    DropKeepsOpen(s, u, t);
  }

  lemma TicketStage(s: State, k: nat, act: StageAct, t: nat)
    requires HoldersOk(s) && StageCan(s, k, act) && TicketOk(s, t)
    requires InPhase(s, t, Fanned) ==> OpenTasks(StageDoes(s, k, act), t) == OpenTasks(s, t)
    ensures TicketOk(StageDoes(s, k, act), t)
  {
    hide WorkerOk, RecordingCount, LeavingCount, Pending, SubtractCount, DropIfUnreferenced;
    assert StageOk(s, k);
    match act
    case DropRef =>
      var s1 := s.(runs := s.runs[k := Idle]);
      HoldersIdle(s, k);
      assert OpenTasks(s1, t) == OpenTasks(s, t) by {
        forall j: nat | j < STAGES ensures Pending(s1, Task(t, j)) == Pending(s, Task(t, j)) { IdleTasks(s, k, Task(t, j)); }
      }
      assert TicketOk(s1, t) by { hide OpenTasks; }
      TicketDrop(s1, s.runs[k].ticket, t);
    case Process =>
      CountsAfter(s.completions, k, Subtracting(Task(s.runs[k].ticket, k)), t);
      assert s.completions[k] == Done;
      hide OpenTasks;
    case _ => hide OpenTasks;
  }

  lemma IdleTasks(s: State, k: nat, x: Task)
    requires StageCan(s, k, DropRef)
    ensures Pending(s.(runs := s.runs[k := Idle]), x) == Pending(s, x)
  {
    hide TasksOf;
  }

  lemma HoldersIdle(s: State, k: nat)
    requires HoldersOk(s) && StageCan(s, k, DropRef)
    ensures HoldersOk(s.(runs := s.runs[k := Idle]))
  {
    var s' := s.(runs := s.runs[k := Idle]);
    forall t: nat ensures PhaseOk(s', t) { assert PhaseOk(s, t); }
    forall l: nat | l < STAGES ensures StageOk(s', l) { assert StageOk(s, l); }
  }

  /** Handing out: the new counter, the new open tasks and the in-flight mark appear together. */
  lemma TicketHandOut(s: State, act: IngestAct, t: nat)
    requires HoldersOk(s) && QueueOk(s) && IngestCan(s, act) && TicketOk(s, t)
    requires act.Begin? || act.Submit? || act.Refuse?
    requires InPhase(s, t, Fanned) ==> OpenTasks(IngestDoes(s, act), t) == OpenTasks(s, t)
    requires InPhase(s, t, Offered) && act.Submit? ==> OpenTasks(IngestDoes(s, act), t) == s.Stages()
    ensures TicketOk(IngestDoes(s, act), t)
  {
    hide RecordingCount, LeavingCount, OpenTasks, Refuses, SubmitFirst, PhaseOk, StageOk, CompletionOk;
  }

  lemma TicketRelease(s: State, t: nat)
    requires HoldersOk(s) && IngestCan(s, Release) && TicketOk(s, t)
    ensures TicketOk(DoRelease(s), t)
  {
    hide RecordingCount, LeavingCount, DropIfUnreferenced, GiveBack, Pending, SubtractCount;
    var rest := s.(worker := Releasing(s.worker.refs[1..]));
    assert InPhase(s, t, Fanned) ==> s.cfg.parallel by { assert PhaseOk(s, t); }
    assert s.worker.refs[0] in s.worker.refs && forall u :: u in rest.worker.refs ==> u in s.worker.refs;
    assert HoldersOk(rest) by {
      forall v: nat ensures PhaseOk(rest, v) { assert PhaseOk(s, v); }
      forall l: nat | l < STAGES ensures StageOk(rest, l) { assert StageOk(s, l); }
    }
    hide HoldersOk;
    forall k: nat | k < STAGES ensures Open(rest, Task(t, k)) == Open(s, Task(t, k)) { SameTasks(s, rest, Task(t, k)); }
    assert TicketOk(rest, t);
    if s.cfg.parallel { TicketDrop(rest, s.worker.refs[0], t); }
  }

  lemma TicketIngest(s: State, act: IngestAct, t: nat)
    requires HoldersOk(s) && QueueOk(s) && IngestCan(s, act) && TicketOk(s, t)
    requires InPhase(s, t, Fanned) ==> OpenTasks(IngestDoes(s, act), t) == OpenTasks(s, t)
    requires InPhase(s, t, Offered) && act.Submit? ==> OpenTasks(IngestDoes(s, act), t) == s.Stages()
    ensures TicketOk(IngestDoes(s, act), t)
  {
    hide RecordingCount, LeavingCount, OpenTasks, Refuses, SubmitFirst, PhaseOk, StageOk, QueueOk, DropIfUnreferenced, GiveBack;
    match act
    case Begin => TicketHandOut(s, act, t);
    case Submit(_) => TicketHandOut(s, act, t);
    case Refuse => TicketHandOut(s, act, t);
    case Release => TicketRelease(s, t);
    case TakeSkip => CountsAfter(s.completions, INGEST, Subtracting(s.worker.todo[0]), t);
    case Pop =>
      assert InPhase(s, s.bq.entries[0], Queued) by { QueueHeads(s); }
    case _ =>
  }

  lemma QueueHeads(s: State)
    requires QueueOk(s) && HeadWaits(s)
    ensures InPhase(s, s.bq.entries[0], Queued)
  {
  }

  // ---- every step -------------------------------------------------------------------------------

  lemma OpenFanned(s: State, a: Step, t: nat)
    requires HoldersOk(s) && Enabled(s, a) && InPhase(s, t, Fanned)
    ensures OpenTasks(Do(s, a), t) == OpenTasks(s, t) - If(a.ByCompletion? && a.cact.Subtract? && s.completions[a.a].task.ticket == t)
  {
    hide Do, Open, PhaseOk, StageOk;
    OpenStep(s, a, Task(t, 0));
    OpenStep(s, a, Task(t, 1));
    OpenStep(s, a, Task(t, 2));
    OpenStep(s, a, Task(t, 3));
    if a.ByCompletion? { assert s.completions[a.a] != Done; }
  }

  lemma OpenOffered(s: State, now: int, t: nat)
    requires HoldersOk(s) && TokensOk(s) && IngestCan(s, Submit(now)) && InPhase(s, t, Offered)
    ensures OpenTasks(IngestDoes(s, Submit(now)), t) == s.Stages()
  {
    assert s.worker == Submitting(t) by { assert PhaseOk(s, t); }
    hide Open, PhaseOk, StageOk, IngestDoes;
    var a := ByIngest(Submit(now));
    OpenStep(s, a, Task(t, 0));
    OpenStep(s, a, Task(t, 1));
    OpenStep(s, a, Task(t, 2));
    OpenStep(s, a, Task(t, 3));
    NoOpenBeforeHandOut(s, t, 0);
    NoOpenBeforeHandOut(s, t, 1);
    NoOpenBeforeHandOut(s, t, 2);
    NoOpenBeforeHandOut(s, t, 3);
    assert Do(s, a) == IngestDoes(s, Submit(now));
  }

  lemma TicketStep(s: State, a: Step, t: nat)
    requires HoldersOk(s) && QueueOk(s) && TokensOk(s) && TicketOk(s, t) && Enabled(s, a)
    ensures TicketOk(Do(s, a), t)
  {
    hide IngestDoes, IngestCan, StageDoes, StageCan, ProducerDoes, ProducerCan, CompletionDoes, CompletionCan,
         FlusherDoes, FlusherCan, StopperDoes, StopperCan, HoldersOk, QueueOk, TokensOk, OpenTasks, DoDiscard, RecordingCount, LeavingCount;
    if InPhase(s, t, Fanned) { OpenFanned(s, a, t); }
    match a
    case ByProducer(p, act) => TicketProducer(s, p, act, t);
    case ByClear => TicketClear(s, t);
    case ByIngest(act) =>
      if InPhase(s, t, Offered) && act.Submit? { OpenOffered(s, act.now, t); }
      TicketIngest(s, act, t);
    case ByStage(k, act) => TicketStage(s, k, act, t);
    case ByCompletion(c, act) => TicketCompletion(s, c, act, t);
    case _ =>
  }
}
