/** Where every task of every block is: waiting in a stage queue, running, skipped but not completed, left to the
    ingest worker, processed or skipped. */
module FanOutTokens {
  import opened Common
  import opened FanOutSubmission
  import opened FanOutModel

  function If(b: bool): nat { if b then 1 else 0 }

  function RunCount(runs: Runs, x: Task): nat {
    if x.stage < STAGES then If(runs[x.stage] == Running(x.ticket)) else 0
  }

  function TodoCount(s: State, x: Task): nat {
    if s.worker.Skipping? then multiset(s.worker.todo)[x] else 0
  }

  function SerialCount(s: State, x: Task): nat {
    if s.worker.Stepping? then If(s.worker.ticket == x.ticket && s.worker.next <= x.stage < s.Stages()) else 0
  }

  /** Places a task is waiting to be met. */
  function Pending(s: State, x: Task): nat {
    QueueCount(s.queues, x) + RunCount(s.runs, x) + TodoCount(s, x) + SerialCount(s, x)
  }

  function SubtractCount(cs: Completions, x: Task): nat {
    If(cs[0] == Subtracting(x)) + If(cs[1] == Subtracting(x)) + If(cs[2] == Subtracting(x))
    + If(cs[3] == Subtracting(x)) + If(cs[4] == Subtracting(x))
  }

  function Met(s: State, x: Task): nat { s.hist.processed[x] + s.hist.skipped[x] }

  predicate Assigned(s: State, x: Task) {
    x.ticket < |s.tickets| && s.tickets[x.ticket].phase in {Serial, Fanned} && x.stage < s.Stages()
  }

  /** Each active stage's task of each block handed out is in exactly one place, or was met exactly once. */
  predicate TokenOk(s: State, x: Task) {
    Pending(s, x) + Met(s, x) == If(Assigned(s, x))
  }

  // ---- how a step moves tasks ------------------------------------------------------------------

  lemma TasksSplit(q: seq<Job>, n: nat, k: nat)
    requires n <= |q|
    ensures TasksOf(q, k) == TasksOf(q[..n], k) + TasksOf(q[n..], k)
    ensures multiset(TasksOf(q, k)) == multiset(TasksOf(q[..n], k)) + multiset(TasksOf(q[n..], k))
  {
  }

  lemma ForeignTask(q: seq<Job>, k: nat, x: Task)
    requires x.stage != k
    ensures multiset(TasksOf(q, k))[x] == 0
  {
    assert x !in TasksOf(q, k);
  }

  /** One stage's part of a submission: what leaves the queue is skipped, and the new task enters. */
  lemma StageSubmitTokens(cfg: StageConfig, q: seq<Job>, job: Job, k: nat, x: Task)
    requires cfg.Shaped() && k < STAGES
    ensures var n := SkipCount(cfg, cfg.policies[k], q, job.enqueuedAt);
            multiset(TasksOf(AfterSubmit(cfg, cfg.policies[k], q, job), k))[x] + multiset(TasksOf(q[..n], k))[x]
            == multiset(TasksOf(q, k))[x] + If(x == Task(job.ticket, k))
  {
    var n := SkipCount(cfg, cfg.policies[k], q, job.enqueuedAt);
    TasksSplit(q, n, k);
    var after := q[n..] + [job];
    TasksSplit(after, |q| - n, k);
    assert after[..|q| - n] == q[n..] && after[|q| - n..] == [job];
    assert TasksOf([job], k) == [Task(job.ticket, k)];
  }

  /** A whole submission conserves tasks: queued after plus skipped equals queued before plus one per stage. */
  lemma {:induction false} SubmitTokens(cfg: StageConfig, qs: Queues, job: Job, n: nat, x: Task)
    requires cfg.Shaped() && n <= STAGES && x.stage < STAGES
    ensures var (after, skips) := SubmitFirst(cfg, qs, job, n);
            multiset(TasksOf(after[x.stage], x.stage))[x] + multiset(skips)[x]
            == multiset(TasksOf(qs[x.stage], x.stage))[x] + If(x.ticket == job.ticket && x.stage < n)
  {
    hide AfterSubmit, SkipCount, TasksOf;
    if n > 0 {
      var k := n - 1;
      SubmitTokens(cfg, qs, job, k, x);
      var dropped := TasksOf(qs[k][..SkipCount(cfg, cfg.policies[k], qs[k], job.enqueuedAt)], k);
      var skips := SubmitFirst(cfg, qs, job, k).1;
      assert SubmitFirst(cfg, qs, job, n).1 == skips + dropped;
      assert multiset(skips + dropped) == multiset(skips) + multiset(dropped);
      if x.stage == k {
        StageSubmitTokens(cfg, qs[k], job, k, x);
      } else {
        ForeignTask(qs[k][..SkipCount(cfg, cfg.policies[k], qs[k], job.enqueuedAt)], k, x);
      }
    }
  }

  /** Tasks handed out by a step. */
  function Issued(s: State, a: Step, x: Task): nat {
    if !a.ByIngest? then 0
    else if a.iact.Submit? || a.iact.Refuse? then
      If(s.worker.Submitting? && x.ticket == s.worker.ticket && x.stage < s.Stages())
    else if a.iact.Begin? then
      If(!s.cfg.parallel && s.worker.Marked? && x.ticket == s.worker.ticket && x.stage < s.Stages())
    else 0
  }

  /** The ingest worker has no task left of its own. */
  predicate Untasked(s: State) {
    (s.worker.Stepping? ==> s.worker.next >= s.Stages()) && (s.worker.Skipping? ==> s.worker.todo == [])
  }

  lemma SameTasks(s: State, s': State, x: Task)
    requires s'.cfg == s.cfg && s'.queues == s.queues && s'.runs == s.runs
    requires s'.worker == s.worker || (Untasked(s) && Untasked(s'))
    ensures Pending(s', x) == Pending(s, x)
  {
    hide TasksOf;
  }

  lemma SubmitMovesTasks(s: State, now: int, x: Task)
    requires IngestCan(s, Submit(now))
    ensures Pending(DoSubmit(s, now), x) == Pending(s, x) + If(x.ticket == s.worker.ticket && x.stage < s.Stages())
  {
    hide SubmitFirst, TasksOf, AfterSubmit;
    var job := JobOf(s, now);
    if x.stage < STAGES {
      SubmitTokens(s.cfg.stages, s.queues, job, s.Stages(), x);
    } else {
      SkipsSpareLossless(s.cfg.stages, s.queues, job, s.Stages());
      assert x !in SubmitAll(s.cfg.stages, s.queues, job).1;
    }
  }

  lemma BeginMovesTasks(s: State, x: Task)
    requires IngestCan(s, Begin)
    ensures var s' := DoBegin(s);
            Pending(s', x) == Pending(s, x) + Issued(s, ByIngest(Begin), x) && s'.hist.processed == s.hist.processed && s'.hist.skipped == s.hist.skipped
  {
    hide TasksOf;
    if s.cfg.parallel { SameTasks(s, DoBegin(s), x); }
  }

  lemma IngestMovesTasks(s: State, act: IngestAct, x: Task)
    requires IngestCan(s, act)
    ensures var s' := IngestDoes(s, act); Pending(s', x) + Met(s', x) == Pending(s, x) + Met(s, x) + Issued(s, ByIngest(act), x)
  {
    hide TasksOf, Refuses, SubmitFirst, QueueCount, DoPop, DoBegin, DoSubmit, DoRelease;
    match act
    case Submit(now) => SubmitMovesTasks(s, now, x);
    case TakeSkip => assert s.worker.todo == [s.worker.todo[0]] + s.worker.todo[1..];
    case SerialStage =>
    case Begin => BeginMovesTasks(s, x);
    case Refuse => assert QueueCount(s.queues, x) == QueueCount(IngestDoes(s, act).queues, x);
    case _ => SameTasks(s, IngestDoes(s, act), x);
  }

  lemma TakeMovesTasks(s: State, k: nat, x: Task)
    requires StageCan(s, k, Take)
    ensures Pending(DoTake(s, k), x) == Pending(s, x)
  {
    TasksSplit(s.queues[k], 1, k);
    assert TasksOf(s.queues[k][..1], k) == [Task(s.queues[k][0].ticket, k)];
    hide TasksOf;
  }

  lemma StageMovesTasks(s: State, k: nat, act: StageAct, x: Task)
    requires StageCan(s, k, act)
    ensures var s' := StageDoes(s, k, act); Pending(s', x) + Met(s', x) == Pending(s, x) + Met(s, x)
  {
    hide QueueCount, DropIfUnreferenced;
    if act.Take? {
      TakeMovesTasks(s, k, x);
    } else {
      assert StageDoes(s, k, act).queues == s.queues;
    }
  }

  /** Conservation of tasks by every step. */
  lemma TasksConserved(s: State, a: Step, x: Task)
    requires Enabled(s, a)
    ensures var s' := Do(s, a); Pending(s', x) + Met(s', x) == Pending(s, x) + Met(s, x) + Issued(s, a, x)
  {
    hide Pending, IngestDoes, StageDoes, StageCan, IngestCan, ProducerDoes, ProducerCan, CompletionDoes, CompletionCan,
         FlusherDoes, StopperDoes, FlusherCan, StopperCan, GiveBack;
    match a
    case ByIngest(act) => IngestMovesTasks(s, act, x);
    case ByStage(k, act) => StageMovesTasks(s, k, act, x);
    case _ => SameTasks(s, Do(s, a), x);
  }
}
