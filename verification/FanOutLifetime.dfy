/** Contexts, blocks and bounds: a context lives as long as it is referred to, every block of the pool has exactly
    one owner, and the stage queues stay within their policies' limits. */
module FanOutLifetime {
  import opened Common
  import opened FanOutSubmission
  import opened FanOutModel
  import opened FanOutTokens
  import opened FanOutInvariant
  import opened FanOutAccounting

  // ---- contexts ----------------------------------------------------------------------------------

  lemma SameReferences(s: State, s': State, t: nat)
    requires s'.cfg == s.cfg && s'.queues == s.queues && s'.runs == s.runs
    requires WorkerRefers(s'.worker, t) == WorkerRefers(s.worker, t)
    ensures Referenced(s', t) == Referenced(s, t)
  {
    hide QueueCount;
  }

  lemma StageRefersAfter(s: State, k: nat, act: StageAct, t: nat, j: nat)
    requires StageCan(s, k, act) && !act.DropRef? && j < STAGES
    ensures StageRefers(StageDoes(s, k, act), t, j) == StageRefers(s, t, j)
  {
    hide DropIfUnreferenced, QueueCount;
    if act.Take? {
      TakeRefers(s, k, t, j);
    } else {
      assert StageDoes(s, k, act).queues == s.queues;
    }
  }

  lemma TakeRefers(s: State, k: nat, t: nat, j: nat)
    requires StageCan(s, k, Take) && j < STAGES
    ensures StageRefers(DoTake(s, k), t, j) == StageRefers(s, t, j)
  {
    TasksSplit(s.queues[k], 1, k);
    assert TasksOf(s.queues[k][..1], k) == [Task(s.queues[k][0].ticket, k)];
    hide TasksOf;
  }

  lemma StageReferences(s: State, k: nat, act: StageAct, t: nat)
    requires StageCan(s, k, act) && !act.DropRef?
    ensures Referenced(StageDoes(s, k, act), t) == Referenced(s, t)
  {
    hide StageRefers, DropIfUnreferenced;
    StageRefersAfter(s, k, act, t, 0);
    StageRefersAfter(s, k, act, t, 1);
    StageRefersAfter(s, k, act, t, 2);
    StageRefersAfter(s, k, act, t, 3);
  }

  /** A context is ended only when nobody refers to it, and the others keep their references. */
  lemma DropReferences(s: State, s1: State, u: nat, t: nat)
    requires RefOk(s, t) && u < |s1.tickets| && s1.contexts == s.contexts
    requires t != u ==> Referenced(s1, t) == Referenced(s, t)
    requires Referenced(s, u) && Referenced(s1, t) ==> Referenced(s, t)
    requires Referenced(s, u)
    ensures RefOk(DropIfUnreferenced(s1, u), t)
  {
    SameReferences(s1, DropIfUnreferenced(s1, u), t);
    hide Referenced;
  }

  lemma RefStage(s: State, k: nat, act: StageAct, t: nat)
    requires HoldersOk(s) && StageCan(s, k, act) && RefOk(s, t)
    ensures RefOk(StageDoes(s, k, act), t)
  {
    if act.DropRef? {
      RefDrop(s, k, t);
    } else {
      StageReferences(s, k, act, t);
      hide Referenced, HoldersOk;
    }
  }

  lemma RefDrop(s: State, k: nat, t: nat)
    requires HoldersOk(s) && StageCan(s, k, DropRef) && RefOk(s, t)
    ensures RefOk(StageDoes(s, k, DropRef), t)
  {
    hide QueueCount, DropIfUnreferenced;
    assert StageOk(s, k);
    var u := s.runs[k].ticket;
    var s1 := s.(runs := s.runs[k := Idle]);
    assert Referenced(s, u) by { assert PhaseOk(s, u); assert StageRefers(s, u, k); }
    hide HoldersOk;
    DropReferences(s, s1, u, t);
  }

  lemma SubmitCounts(s: State, now: int, x: Task)
    requires IngestCan(s, Submit(now)) && x.stage < STAGES
    ensures QueueCount(DoSubmit(s, now).queues, x) + multiset(DoSubmit(s, now).worker.todo)[x]
            == QueueCount(s.queues, x) + If(x.ticket == s.worker.ticket && x.stage < s.Stages())
  {
    SubmitTokens(s.cfg.stages, s.queues, JobOf(s, now), s.Stages(), x);
    hide TasksOf, SubmitFirst;
  }

  lemma SubmitStageRefers(s: State, now: int, t: nat, k: nat)
    requires IngestCan(s, Submit(now)) && t != s.worker.ticket && k < STAGES
    ensures StageRefers(s, t, k) == (StageRefers(DoSubmit(s, now), t, k) || Task(t, k) in DoSubmit(s, now).worker.todo)
  {
    hide SubmitFirst, QueueCount;
    SubmitCounts(s, now, Task(t, k));
  }

  lemma HeldAreSkipped(skips: seq<Task>, t: nat)
    requires forall x :: x in skips ==> x.stage < STAGES
    ensures t in HeldBy(skips) <==> Task(t, 0) in skips || Task(t, 1) in skips || Task(t, 2) in skips || Task(t, 3) in skips
  {
    if t in HeldBy(skips) {
      var i :| 0 <= i < |skips| && HeldBy(skips)[i] == t;
      assert skips[i] in skips && skips[i] == Task(t, skips[i].stage);
    }
    forall k: nat | k < STAGES && Task(t, k) in skips ensures t in HeldBy(skips) {
      var i :| 0 <= i < |skips| && skips[i] == Task(t, k);
      assert HeldBy(skips)[i] == t;
    }
  }

  /** Whatever a submission takes off a queue, the ingest worker still refers to. */
  lemma SubmitReferences(s: State, now: int, t: nat)
    requires HoldersOk(s) && IngestCan(s, Submit(now))
    ensures Referenced(DoSubmit(s, now), t) == Referenced(s, t)
  {
    hide HoldersOk, Refuses, StageRefers, SubmitFirst;
    if t != s.worker.ticket {
      SubmitStageRefers(s, now, t, 0);
      SubmitStageRefers(s, now, t, 1);
      SubmitStageRefers(s, now, t, 2);
      SubmitStageRefers(s, now, t, 3);
      SkipsSpareLossless(s.cfg.stages, s.queues, JobOf(s, now), s.Stages());
      HeldAreSkipped(DoSubmit(s, now).worker.todo, t);
    }
  }

  lemma RefIngest(s: State, act: IngestAct, t: nat)
    requires HoldersOk(s) && IngestCan(s, act) && RefOk(s, t)
    requires s.worker.Marked? ==> s.worker.ticket !in s.contexts
    ensures RefOk(IngestDoes(s, act), t)
  {
    hide PhaseOk, StageOk, CompletionOk, Refuses, SubmitFirst, QueueCount, WorkerOk, HoldersOk;
    match act
    case Submit(now) => SubmitReferences(s, now, t);
    case Release =>
      var u := s.worker.refs[0];
      var s1 := s.(worker := Releasing(s.worker.refs[1..]));
      assert s.worker.refs == [u] + s1.worker.refs;
      if s.cfg.parallel { DropReferences(s, s1, u, t); }
    case Begin =>
    case _ =>
      hide Referenced, DropIfUnreferenced, GiveBack;
      SameReferences(s, IngestDoes(s, act), t);
  }

  lemma RefStep(s: State, a: Step, t: nat)
    requires HoldersOk(s) && Enabled(s, a) && RefOk(s, t)
    requires s.worker.Marked? ==> s.worker.ticket !in s.contexts
    ensures RefOk(Do(s, a), t)
  {
    hide IngestDoes, IngestCan, StageDoes, StageCan, ProducerDoes, ProducerCan,
         FlusherDoes, FlusherCan, StopperDoes, StopperCan, HoldersOk, Referenced, GiveBack;
    match a
    case ByIngest(act) => RefIngest(s, act, t);
    case ByStage(k, act) => RefStage(s, k, act, t);
    case _ => SameReferences(s, Do(s, a), t);
  }

  // ---- ownership of blocks -----------------------------------------------------------------------

  /** A pushed block still owns its storage: in the queue, in the ingest worker's hand, or in a context. */
  predicate Holds(s: State, t: nat) {
    t < |s.tickets|
    && (s.tickets[t].phase == Queued || s.tickets[t].phase == Held || t in s.contexts || (!s.cfg.parallel && WorkerRefers(s.worker, t)))
  }

  /** The recorded owner of a block really has it. */
  predicate OwnerHas(s: State, b: nat)
    requires b < |s.hist.owner|
  {
    match s.hist.owner[b]
    case InPool => b in s.pool.free
    case OfProducer(p) => p in s.producers && s.producers[p].block == b
    case OfTicket(t) => Holds(s, t) && s.tickets[t].block == b
  }

  predicate OwnerIs(s: State, b: nat, o: Owner) { b < |s.hist.owner| && s.hist.owner[b] == o }

  /** Everyone who has a block is its recorded owner; the stack holds no block twice; the counters add up. */
  ghost predicate PoolOk(s: State) {
    var free := s.pool.free;
    && |s.hist.owner| == s.cfg.poolSize
    && s.pool.acquired + |free| == s.pool.released + s.cfg.poolSize
    && (forall i, j :: 0 <= i < j < |free| ==> free[i] != free[j])
    && (forall i :: 0 <= i < |free| ==> OwnerIs(s, free[i], InPool))
    && (forall p :: p in s.producers ==> OwnerIs(s, s.producers[p].block, OfProducer(p)))
    && (forall t: nat :: Holds(s, t) ==> OwnerIs(s, s.tickets[t].block, OfTicket(t)))
    && (forall b: nat :: b < |s.hist.owner| ==> OwnerHas(s, b))
  }

  lemma PoolKept(s: State, s': State)
    requires PoolOk(s)
    requires s'.cfg == s.cfg && s'.pool == s.pool.(exhausted := s'.pool.exhausted) && s'.hist.owner == s.hist.owner
    requires s'.producers.Keys == s.producers.Keys && forall p :: p in s.producers ==> s'.producers[p].block == s.producers[p].block
    requires |s'.tickets| == |s.tickets| && forall t :: 0 <= t < |s.tickets| ==> s'.tickets[t].block == s.tickets[t].block
    requires forall t: nat :: Holds(s', t) <==> Holds(s, t)
    ensures PoolOk(s')
  {
    forall b: nat | b < |s'.hist.owner| ensures OwnerHas(s', b) { assert OwnerHas(s, b); }
    assert forall b: nat, o :: OwnerIs(s', b, o) == OwnerIs(s, b, o);
  }

  /** A ticket that lets go of its block, which goes back on the stack. */
  lemma PoolTicketReturns(s: State, s1: State, t: nat)
    requires PoolOk(s) && Holds(s, t)
    requires s1.cfg == s.cfg && s1.pool == s.pool && s1.hist.owner == s.hist.owner && s1.producers == s.producers
    requires |s1.tickets| == |s.tickets| && forall u :: 0 <= u < |s.tickets| ==> s1.tickets[u].block == s.tickets[u].block
    requires forall u: nat :: Holds(s1, u) <==> (Holds(s, u) && u != t)
    ensures PoolOk(GiveBack(s1, s.tickets[t].block))
  {
    var b := s.tickets[t].block;
    var s' := GiveBack(s1, b);
    assert OwnerIs(s, b, OfTicket(t));
    assert forall u: nat :: Holds(s', u) <==> Holds(s1, u);
    forall c: nat | c < |s'.hist.owner| ensures OwnerHas(s', c) { assert OwnerHas(s, c); }
  }

  lemma PoolAbandon(s: State, p: nat)
    requires PoolOk(s) && p in s.producers
    ensures PoolOk(DoAbandon(s, p))
  {
    var s' := DoAbandon(s, p);
    assert OwnerIs(s, s.producers[p].block, OfProducer(p));
    assert forall u: nat :: Holds(s', u) <==> Holds(s, u);
    forall c: nat | c < |s'.hist.owner| ensures OwnerHas(s', c) { assert OwnerHas(s, c); }
  }

  lemma PoolAcquire(s: State, p: nat)
    requires PoolOk(s) && ProducerCan(s, p, Acquire)
    ensures PoolOk(DoAcquire(s, p))
  {
    var s' := DoAcquire(s, p);
    var last := |s.pool.free| - 1;
    assert OwnerIs(s, s.pool.free[last], InPool);
    assert forall u: nat :: Holds(s', u) <==> Holds(s, u);
    forall c: nat | c < |s'.hist.owner| ensures OwnerHas(s', c) {
      assert OwnerHas(s, c);
      if s.hist.owner[c] == InPool && c != s.pool.free[last] {
        var i :| 0 <= i < |s.pool.free| && s.pool.free[i] == c;
        assert s'.pool.free[i] == c;
      }
    }
  }

  lemma PoolPush(s: State, p: nat)
    requires PoolOk(s) && ProducerCan(s, p, Push)
    requires |s.tickets| !in s.contexts && !WorkerRefers(s.worker, |s.tickets|)
    ensures PoolOk(DoPush(s, p))
  {
    var s' := DoPush(s, p);
    assert OwnerIs(s, s.producers[p].block, OfProducer(p));
    assert forall u: nat :: Holds(s', u) <==> (Holds(s, u) || u == |s.tickets|);
    forall c: nat | c < |s'.hist.owner| ensures OwnerHas(s', c) { assert OwnerHas(s, c); }
  }

  lemma PoolDrop(s: State, s1: State, u: nat)
    requires PoolOk(s) && s.cfg.parallel && (InPhase(s, u, Fanned) || InPhase(s, u, Serial))
    requires s1.cfg == s.cfg && s1.pool == s.pool && s1.hist == s.hist && s1.producers == s.producers
    requires s1.tickets == s.tickets && s1.contexts == s.contexts
    ensures PoolOk(DropIfUnreferenced(s1, u))
  {
    hide Referenced, PoolOk, WorkerRefers;
    var s2 := s1.(contexts := s1.contexts - {u});
    if u in s1.contexts && !Referenced(s1, u) {
      PoolTicketReturns(s, s2, u);
    } else {
      PoolKept(s, s1);
    }
  }

  lemma PoolStage(s: State, k: nat, act: StageAct)
    requires PoolOk(s) && HoldersOk(s) && StageCan(s, k, act)
    ensures PoolOk(StageDoes(s, k, act))
  {
    assert StageOk(s, k);
    assert act.DropRef? ==> InPhase(s, s.runs[k].ticket, Fanned) && s.cfg.parallel by {
      if act.DropRef? { assert PhaseOk(s, s.runs[k].ticket); }
    }
    hide PoolOk, HoldersOk, DropIfUnreferenced;
    if act.DropRef? {
      PoolDrop(s, s.(runs := s.runs[k := Idle]), s.runs[k].ticket);
    } else {
      PoolKept(s, StageDoes(s, k, act));
    }
  }

  lemma PoolRelease(s: State)
    requires PoolOk(s) && HoldersOk(s) && IngestCan(s, Release)
    requires forall t: nat :: RefOk(s, t)
    ensures PoolOk(DoRelease(s))
  {
    var u := s.worker.refs[0];
    var s1 := s.(worker := Releasing(s.worker.refs[1..]));
    assert u in s.worker.refs;
    hide PoolOk, HoldersOk, DropIfUnreferenced, GiveBack;
    if s.cfg.parallel {
      PoolDrop(s, s1, u);
    } else {
      assert forall t: nat :: t !in s.contexts by {
        forall t: nat ensures t !in s.contexts { assert RefOk(s, t); }
      }
      assert s.worker.refs == [u];
      PoolTicketReturns(s, s1, u);
    }
  }

  lemma PoolBegin(s: State)
    requires PoolOk(s) && HoldersOk(s) && IngestCan(s, Begin)
    ensures PoolOk(DoBegin(s))
  {
    hide PoolOk;
    PoolKept(s, DoBegin(s));
  }

  /** Steps after which the ingest worker's references or the block's phase differ, but not what the block holds. */
  lemma PoolHandOver(s: State, act: IngestAct)
    requires PoolOk(s) && HoldersOk(s) && IngestCan(s, act) && (act.Submit? || act.Refuse? || act.SerialRecord? || act.SkipsDone?)
    ensures PoolOk(IngestDoes(s, act))
  {
    hide PoolOk, PhaseOk, StageOk, CompletionOk, SubmitFirst, Refuses;
    PoolKept(s, IngestDoes(s, act));
  }

  lemma PoolPop(s: State)
    requires PoolOk(s) && IngestCan(s, Pop) && InPhase(s, s.bq.entries[0], Queued)
    ensures PoolOk(DoPop(s))
  {
    hide PoolOk;
    PoolKept(s, DoPop(s));
  }

  lemma PoolOther(s: State, act: IngestAct)
    requires PoolOk(s) && IngestCan(s, act)
    requires !(act.Pop? || act.Release? || act.Begin? || act.Submit? || act.Refuse? || act.SerialRecord? || act.SkipsDone?)
    ensures PoolOk(IngestDoes(s, act))
  {
    hide PoolOk, DoRelease, DoBegin, DoSubmit, DoPop, DoRefuse, Refuses, DoTakeSkip;
    PoolKept(s, IngestDoes(s, act));
  }

  lemma PoolIngest(s: State, act: IngestAct)
    requires PoolOk(s) && HoldersOk(s) && QueueOk(s) && IngestCan(s, act)
    requires forall t: nat :: RefOk(s, t)
    ensures PoolOk(IngestDoes(s, act))
  {
    hide PoolOk, HoldersOk, QueueOk, RefOk, DoRelease, DoBegin, DoSubmit, DoPop, DoRefuse, Refuses;
    match act
    case Pop =>
      QueueHeads(s);
      PoolPop(s);
    case Release => PoolRelease(s);
    case Begin => PoolBegin(s);
    case Submit(_) => PoolHandOver(s, act);
    case Refuse => PoolHandOver(s, act);
    case SerialRecord => PoolHandOver(s, act);
    case SkipsDone => PoolHandOver(s, act);
    case _ => PoolOther(s, act);
  }

  /** The ingest worker refers only to blocks past the queue. */
  lemma ReferredIsPast(s: State, t: nat)
    requires HoldersOk(s) && WorkerRefers(s.worker, t)
    ensures InPhase(s, t, Offered) || InPhase(s, t, Serial) || InPhase(s, t, Fanned)
  {
  }

  lemma PoolStep(s: State, a: Step)
    requires PoolOk(s) && HoldersOk(s) && QueueOk(s) && Enabled(s, a)
    requires forall t: nat :: RefOk(s, t)
    requires forall t: nat :: t == |s.tickets| || InPhase(s, t, Queued) ==> t !in s.contexts && !WorkerRefers(s.worker, t)
    ensures PoolOk(Do(s, a))
  {
    hide IngestDoes, IngestCan, StageDoes, StageCan, FlusherDoes, FlusherCan, StopperDoes, StopperCan,
         HoldersOk, QueueOk, RefOk, PoolOk, GiveBack, DoAcquire, DoPush, DoAbandon;
    match a
    case ByProducer(p, act) =>
      match act {
        case Acquire => PoolAcquire(s, p);
        case Push => PoolPush(s, p);
        case Abandon => PoolAbandon(s, p);
        case _ => PoolKept(s, Do(s, a));
      }
    case ByClear =>
      QueueHeads(s);
      var t := s.bq.entries[0];
      var rest := s.(bq := s.bq.(entries := s.bq.entries[1..]), hist := s.hist.(discarded := s.hist.discarded + 1));
      PoolTicketReturns(s, SetPhase(rest, t, Discarded), t);
    case ByIngest(act) => PoolIngest(s, act);
    case ByStage(k, act) => PoolStage(s, k, act);
    case _ => PoolKept(s, Do(s, a));
  }
}