/** Submitting one block to all stage queues under per-stage overload policies: the pure outcome,
    what it guarantees, and the locked in-place operations that compute it. */
module FanOutSubmission {
  import opened Common

  datatype Policy = LosslessRequired | BoundedLatencyDropOldest | RealtimeLatestOnly

  const STAGES: nat := 4
  const SIGNAL_PARAMETER: nat := 3

  /** The configured fan-out; times in nanoseconds of the steady clock. */
  datatype StageConfig = StageConfig(stageCount: nat, policies: seq<Policy>, capacity: nat,
                                     maxDepthRatio: real, maxWait: int)
  {
    /** Stages 0..stageCount-1 are active; the last one only when signal parameters are enabled. */
    predicate Shaped() { 3 <= stageCount <= STAGES && |policies| == STAGES }

    predicate Normalized() {
      && Shaped()
      && policies[SIGNAL_PARAMETER] == LosslessRequired
      && 0.0 < maxDepthRatio <= 1.0
      && maxWait > 0
    }

    function MaxDepth(): int { Max(1, (capacity as real * maxDepthRatio).Floor) }
  }

  /** Configuration repair done once at construction. */
  function Normalize(cfg: StageConfig): StageConfig
    requires cfg.Shaped()
  {
    cfg.(policies := cfg.policies[SIGNAL_PARAMETER := LosslessRequired],
         maxWait := if cfg.maxWait <= 0 then 1_000_000_000 else cfg.maxWait,
         maxDepthRatio := if cfg.maxDepthRatio <= 0.0 || cfg.maxDepthRatio > 1.0 then 0.5 else cfg.maxDepthRatio)
  }

  /** Normalizing makes any configuration usable and changes no usable one; what it repairs becomes one second and one
      half, and nothing else changes but the signal-parameter stage's policy. */
  lemma NormalizeRepairs(cfg: StageConfig)
    requires cfg.Shaped()
    ensures Normalize(cfg).Normalized()
    ensures cfg.Normalized() ==> Normalize(cfg) == cfg
    ensures var n := Normalize(cfg);
            && n.stageCount == cfg.stageCount && n.capacity == cfg.capacity
            && (forall k :: 0 <= k < STAGES && k != SIGNAL_PARAMETER ==> n.policies[k] == cfg.policies[k])
            && (n.maxWait == cfg.maxWait || (cfg.maxWait <= 0 && n.maxWait == 1_000_000_000))
            && (n.maxDepthRatio == cfg.maxDepthRatio || (!(0.0 < cfg.maxDepthRatio <= 1.0) && n.maxDepthRatio == 0.5))
  {
    if cfg.Normalized() {
      assert cfg.policies[SIGNAL_PARAMETER := LosslessRequired] == cfg.policies;
    }
  }

  datatype Job = Job(ticket: nat, enqueuedAt: int)

  /** One stage's duty to process or skip one block. */
  datatype Task = Task(ticket: nat, stage: nat)

  predicate MustDrop(cfg: StageConfig, q: seq<Job>, now: int)
    requires q != []
  {
    |q| >= cfg.capacity || |q| >= cfg.MaxDepth() || now - q[0].enqueuedAt > cfg.maxWait
  }

  /** How many of the oldest jobs the drop-oldest policy removes before a push. */
  function DropCount(cfg: StageConfig, q: seq<Job>, now: int): (n: nat)
    ensures n <= |q|
  {
    if cfg.capacity == 0 || q == [] || !MustDrop(cfg, q, now) then 0 else 1 + DropCount(cfg, q[1..], now)
  }

  /** How many jobs of a stage's queue a submission skips. */
  function SkipCount(cfg: StageConfig, policy: Policy, q: seq<Job>, now: int): (n: nat)
    ensures n <= |q|
  {
    match policy
    case LosslessRequired => 0
    case RealtimeLatestOnly => |q|
    case BoundedLatencyDropOldest => DropCount(cfg, q, now)
  }

  function AfterSubmit(cfg: StageConfig, policy: Policy, q: seq<Job>, job: Job): seq<Job> {
    q[SkipCount(cfg, policy, q, job.enqueuedAt)..] + [job]
  }

  function TasksOf(q: seq<Job>, stage: nat): (r: seq<Task>)
    ensures |r| == |q| && forall i :: 0 <= i < |q| ==> r[i] == Task(q[i].ticket, stage)
  {
    seq(|q|, i requires 0 <= i < |q| => Task(q[i].ticket, stage))
  }

  type Queues = qs: seq<seq<Job>> | |qs| == STAGES witness [[], [], [], []]

  predicate LosslessFull(cfg: StageConfig, qs: Queues, k: nat)
    requires cfg.Shaped() && k < STAGES
  {
    cfg.policies[k] == LosslessRequired && |qs[k]| >= cfg.capacity
  }

  /** A submission is refused as a whole. */
  predicate Refuses(cfg: StageConfig, qs: Queues, stopRequested: bool)
    requires cfg.Shaped()
  {
    stopRequested || cfg.capacity == 0 || exists k: nat :: k < cfg.stageCount && LosslessFull(cfg, qs, k)
  }

  /** Only a full queue of an active lossless stage, a stop or no capacity at all refuses a submission; queues of the
      other policies never do. */
  lemma RefusedExactly(cfg: StageConfig, qs: Queues, stopRequested: bool)
    requires cfg.Shaped()
    ensures !Refuses(cfg, qs, stopRequested) <==>
              && !stopRequested && cfg.capacity > 0
              && forall k: nat :: k < cfg.stageCount ==> |qs[k]| < cfg.capacity || cfg.policies[k] != LosslessRequired
  {
    assert forall k: nat :: k < cfg.stageCount ==> (|qs[k]| < cfg.capacity || cfg.policies[k] != LosslessRequired || LosslessFull(cfg, qs, k));
  }

  /** Queues and skips after the first n active stages took the job. */
  function SubmitFirst(cfg: StageConfig, qs: Queues, job: Job, n: nat): (r: (Queues, seq<Task>))
    requires cfg.Shaped() && n <= STAGES
    ensures forall k :: 0 <= k < STAGES ==>
              r.0[k] == if k < n then AfterSubmit(cfg, cfg.policies[k], qs[k], job) else qs[k]
  {
    if n == 0 then (qs, [])
    else
      var k := n - 1;
      var (front, skips) := SubmitFirst(cfg, qs, job, k);
      (front[k := AfterSubmit(cfg, cfg.policies[k], qs[k], job)],
       skips + TasksOf(qs[k][..SkipCount(cfg, cfg.policies[k], qs[k], job.enqueuedAt)], k))
  }

  function SubmitAll(cfg: StageConfig, qs: Queues, job: Job): (Queues, seq<Task>)
    requires cfg.Shaped()
  {
    SubmitFirst(cfg, qs, job, cfg.stageCount)
  }

  // ---- what a submission guarantees -------------------------------------------------------

  /** Longest a stage's queue may be. */
  function Limit(cfg: StageConfig, policy: Policy): int {
    match policy
    case LosslessRequired => cfg.capacity
    case RealtimeLatestOnly => 1
    case BoundedLatencyDropOldest => cfg.MaxDepth()
  }

  /** What staying within its limit means for each policy. */
  lemma WithinLimit(cfg: StageConfig, policy: Policy, n: nat)
    requires n <= Limit(cfg, policy)
    ensures policy == LosslessRequired ==> n <= cfg.capacity
    ensures policy == RealtimeLatestOnly ==> n <= 1
    ensures policy == BoundedLatencyDropOldest ==> n <= 1 || n as real <= cfg.capacity as real * cfg.maxDepthRatio
  {
    var share := cfg.capacity as real * cfg.maxDepthRatio;
    assert share.Floor as real <= share;
  }

  ghost predicate Ordered(q: seq<Job>, now: int) {
    && (forall i, j :: 0 <= i < j < |q| ==> q[i].enqueuedAt <= q[j].enqueuedAt)
    && (forall i :: 0 <= i < |q| ==> q[i].enqueuedAt <= now)
  }

  lemma ShareAtMostAll(c: real, ratio: real)
    requires c >= 0.0 && ratio <= 1.0
    ensures c * ratio <= c
  {
    var rest := 1.0 - ratio;
    assert c * rest >= 0.0;
    assert c * ratio + c * rest == c * (ratio + rest);
    assert ratio + rest == 1.0;
  }

  lemma FloorAtMost(x: real, n: int)
    requires x <= n as real
    ensures x.Floor <= n
  {
  }

  lemma MaxDepthWithinCapacity(cfg: StageConfig)
    requires cfg.Normalized() && cfg.capacity > 0
    ensures 1 <= cfg.MaxDepth() <= cfg.capacity
  {
    ShareAtMostAll(cfg.capacity as real, cfg.maxDepthRatio);
    FloorAtMost(cfg.capacity as real * cfg.maxDepthRatio, cfg.capacity);
  }

  /** The drop loop leaves room for the push, below both budgets, with no job over the wait budget. */
  lemma {:induction false} DropLeavesRoom(cfg: StageConfig, q: seq<Job>, now: int)
    requires cfg.Normalized() && cfg.capacity > 0 && Ordered(q, now)
    ensures var rest := q[DropCount(cfg, q, now)..];
            && |rest| < cfg.capacity && |rest| < cfg.MaxDepth()
            && forall i :: 0 <= i < |rest| ==> now - rest[i].enqueuedAt <= cfg.maxWait
  {
    MaxDepthWithinCapacity(cfg);
    if q != [] && MustDrop(cfg, q, now) {
      DropLeavesRoom(cfg, q[1..], now);
      assert q[DropCount(cfg, q, now)..] == q[1..][DropCount(cfg, q[1..], now)..];
    }
  }

  /** Nothing is dropped without need: with n jobs gone and one more to go, the queue was still full, still over its depth
      budget, or its oldest job had still waited too long. */
  lemma {:induction false} DropsOnlyWhenDemanded(cfg: StageConfig, q: seq<Job>, now: int, n: nat)
    requires n < DropCount(cfg, q, now)
    ensures n < |q|
    ensures || |q| - n >= cfg.capacity
            || |q| - n >= Max(1, (cfg.capacity as real * cfg.maxDepthRatio).Floor)
            || now - q[n].enqueuedAt > cfg.maxWait
  {
    assert cfg.MaxDepth() == Max(1, (cfg.capacity as real * cfg.maxDepthRatio).Floor);
    if n > 0 { DropsOnlyWhenDemanded(cfg, q[1..], now, n - 1); }
  }

  /** The reasons to drop the oldest job of a queue of this depth. */
  predicate Demanded(cfg: StageConfig, depth: int, waited: int) {
    depth >= cfg.capacity || depth >= Max(1, (cfg.capacity as real * cfg.maxDepthRatio).Floor) || waited > cfg.maxWait
  }

  /** The drop count is the least at which nothing more is demanded. */
  lemma {:induction false} DropCountIsLeast(cfg: StageConfig, q: seq<Job>, now: int)
    requires cfg.capacity > 0
    ensures var n := DropCount(cfg, q, now);
            && (forall i :: 0 <= i < n ==> Demanded(cfg, |q| - i, now - q[i].enqueuedAt))
            && (n < |q| ==> !Demanded(cfg, |q| - n, now - q[n].enqueuedAt))
  {
    assert cfg.MaxDepth() == Max(1, (cfg.capacity as real * cfg.maxDepthRatio).Floor);
    var n := DropCount(cfg, q, now);
    forall i | 0 <= i < n ensures Demanded(cfg, |q| - i, now - q[i].enqueuedAt) { DropsOnlyWhenDemanded(cfg, q, now, i); }
    if q != [] && MustDrop(cfg, q, now) { DropCountIsLeast(cfg, q[1..], now); }
  }

  /** The queue keeps its newest jobs, and drops an older one only when the jobs from it on exceed the budgets. */
  ghost predicate KeepsWhatItMay(cfg: StageConfig, q: seq<Job>, job: Job, after: seq<Job>) {
    && 1 <= |after| <= |q| + 1 && after == q[|q| + 1 - |after|..] + [job]
    && forall i :: 0 <= i < |q| + 1 - |after| ==> Demanded(cfg, |q| - i, job.enqueuedAt - q[i].enqueuedAt)
  }

  /** One stage of an accepted submission: the job is last, the queue is within its policy's limit and in time
      order, lossless queues lose nothing, and under drop-oldest no job left has waited too long. */
  lemma StageAfterSubmit(cfg: StageConfig, policy: Policy, q: seq<Job>, job: Job)
    requires cfg.Normalized() && cfg.capacity > 0 && Ordered(q, job.enqueuedAt)
    requires |q| <= Limit(cfg, policy) && !(policy == LosslessRequired && |q| >= cfg.capacity)
    ensures var after := AfterSubmit(cfg, policy, q, job);
            && 1 <= |after| <= Limit(cfg, policy) && |after| <= cfg.capacity && after[|after| - 1] == job
            && Ordered(after, job.enqueuedAt)
            && (policy == LosslessRequired ==> after == q + [job])
            && (policy == RealtimeLatestOnly ==> after == [job])
            && (policy == BoundedLatencyDropOldest ==>
                  && (forall i :: 0 <= i < |after| ==> job.enqueuedAt - after[i].enqueuedAt <= cfg.maxWait)
                  && KeepsWhatItMay(cfg, q, job, after))
  {
    if policy == BoundedLatencyDropOldest {
      DropCountIsLeast(cfg, q, job.enqueuedAt);
      DropLeavesRoom(cfg, q, job.enqueuedAt);
      MaxDepthWithinCapacity(cfg);
    }
  }

  /** A job of this stage's queue, and the stage is active with a policy that may skip. */
  predicate Skippable(cfg: StageConfig, qs: Queues, n: nat, x: Task)
    requires cfg.Shaped() && n <= STAGES
  {
    x.stage < n && cfg.policies[x.stage] != LosslessRequired && exists j :: j in qs[x.stage] && j.ticket == x.ticket
  }

  /** Skips name only active stages whose policy may skip. */
  lemma {:induction false} SkipsSpareLossless(cfg: StageConfig, qs: Queues, job: Job, n: nat)
    requires cfg.Shaped() && n <= STAGES
    ensures forall x :: x in SubmitFirst(cfg, qs, job, n).1 ==> Skippable(cfg, qs, n, x)
  {
    if n > 0 {
      var k := n - 1;
      var dropped := TasksOf(qs[k][..SkipCount(cfg, cfg.policies[k], qs[k], job.enqueuedAt)], k);
      var before := SubmitFirst(cfg, qs, job, k).1;
      assert SubmitFirst(cfg, qs, job, n).1 == before + dropped;
      hide SubmitFirst, SkipCount, TasksOf, AfterSubmit;
      SkipsSpareLossless(cfg, qs, job, k);
      SkippedOfOneQueue(cfg, cfg.policies[k], qs[k], job.enqueuedAt, k);
      forall x | x in before ensures Skippable(cfg, qs, n, x) { assert Skippable(cfg, qs, k, x); }
    }
  }

  lemma SkippedOfOneQueue(cfg: StageConfig, policy: Policy, q: seq<Job>, now: int, k: nat)
    ensures forall x :: x in TasksOf(q[..SkipCount(cfg, policy, q, now)], k) ==>
              x.stage == k && policy != LosslessRequired && exists j :: j in q && j.ticket == x.ticket
  {
    var dropped := q[..SkipCount(cfg, policy, q, now)];
    assert policy == LosslessRequired ==> dropped == [];
    hide SkipCount;
    forall x | x in TasksOf(dropped, k) ensures x.stage == k && dropped != [] && exists j :: j in q && j.ticket == x.ticket {
      var i :| 0 <= i < |dropped| && x == TasksOf(dropped, k)[i];
      assert dropped[i] in q;
    }
  }

  // ---- the locked operations ---------------------------------------------------------------

  /** The stage queues under m_stageMutex. */
  class StageQueues {
    const cfg: StageConfig
    const queues: array<seq<Job>>
    var stopRequested: bool

    ghost predicate Valid()
      reads this, queues
    {
      queues.Length == STAGES && cfg.Normalized() &&
      forall k: nat :: k < STAGES ==> |queues[k]| <= Limit(cfg, cfg.policies[k])
    }

    ghost function Contents(): Queues
      requires queues.Length == STAGES
      reads this, queues
    {
      queues[..]
    }

    constructor (config: StageConfig)
      requires config.Shaped()
      ensures Valid() && cfg == Normalize(config) && !stopRequested && fresh(queues)
      ensures Contents() == [[], [], [], []]
    {
      cfg := Normalize(config);
      queues := new seq<Job>[STAGES](_ => []);
      stopRequested := false;
      NormalizeRepairs(config);
    }

    /** Replaces every pending job of a stage by the new one. */
    method ReplacePending(k: nat, job: Job, skipped: seq<Task>) returns (skipped': seq<Task>)
      requires queues.Length == STAGES && k < STAGES
      modifies queues
      ensures queues[..] == old(queues[..])[k := [job]]
      ensures skipped' == skipped + TasksOf(old(queues[k]), k)
    {
      skipped' := skipped;
      ghost var q := queues[k];
      while queues[k] != []
        invariant |queues[k]| <= |q| && queues[k] == q[|q| - |queues[k]|..]
        invariant queues[..] == old(queues[..])[k := queues[k]]
        invariant skipped' == skipped + TasksOf(q[..|q| - |queues[k]|], k)
        decreases |queues[k]|
      {
        ghost var n := |q| - |queues[k]|;
        assert TasksOf(q[..n + 1], k) == TasksOf(q[..n], k) + [Task(q[n].ticket, k)];
        skipped' := skipped' + [Task(queues[k][0].ticket, k)];
        queues[k] := queues[k][1..];
      }
      assert q[..|q|] == q;
      assert queues[k] + [job] == [job];
      queues[k] := queues[k] + [job];
    }

    /** Drops the oldest jobs of a stage while it is full, over its depth budget or over its wait budget. */
    method DropOldest(k: nat, now: int, skipped: seq<Task>) returns (skipped': seq<Task>)
      requires queues.Length == STAGES && k < STAGES
      modifies queues
      ensures var q := old(queues[k]);
              var n := DropCount(cfg, q, now);
              && queues[..] == old(queues[..])[k := q[n..]]
              && skipped' == skipped + TasksOf(q[..n], k)
    {
      skipped' := skipped;
      if cfg.capacity == 0 {
        return;
      }
      ghost var q := queues[k];
      var maxDepth := cfg.MaxDepth();
      while queues[k] != []
        invariant |queues[k]| <= |q| && queues[k] == q[|q| - |queues[k]|..]
        invariant queues[..] == old(queues[..])[k := queues[k]]
        invariant skipped' == skipped + TasksOf(q[..|q| - |queues[k]|], k)
        invariant DropCount(cfg, q, now) == |q| - |queues[k]| + DropCount(cfg, queues[k], now)
        decreases |queues[k]|
      {
        var full := |queues[k]| >= cfg.capacity;
        var overDepthBudget := |queues[k]| >= maxDepth;
        var overWaitBudget := now - queues[k][0].enqueuedAt > cfg.maxWait;
        if !full && !overDepthBudget && !overWaitBudget {
          break;
        }
        ghost var n := |q| - |queues[k]|;
        assert TasksOf(q[..n + 1], k) == TasksOf(q[..n], k) + [Task(q[n].ticket, k)];
        skipped' := skipped' + [Task(queues[k][0].ticket, k)];
        queues[k] := queues[k][1..];
      }
    }

    /** One stage of a submission; false leaves the queue as the drop loop left it. */
    method SubmitStage(k: nat, job: Job, skipped: seq<Task>) returns (ok: bool, skipped': seq<Task>)
      requires Valid() && k < STAGES && cfg.capacity > 0
      requires Ordered(queues[k], job.enqueuedAt)
      modifies queues
      ensures ok == !LosslessFull(cfg, old(Contents()), k)
      ensures ok ==> Valid() && queues[..] == old(queues[..])[k := AfterSubmit(cfg, cfg.policies[k], old(queues[k]), job)]
      ensures ok ==> skipped' == skipped + TasksOf(old(queues[k])[..SkipCount(cfg, cfg.policies[k], old(queues[k]), job.enqueuedAt)], k)
      ensures !ok ==> queues[..] == old(queues[..]) && skipped' == skipped
    {
      skipped' := skipped;
      ghost var q := queues[k];
      assert !LosslessFull(cfg, Contents(), k) ==> |AfterSubmit(cfg, cfg.policies[k], q, job)| <= Limit(cfg, cfg.policies[k]) by {
        if !LosslessFull(cfg, Contents(), k) { StageAfterSubmit(cfg, cfg.policies[k], q, job); }
      }
      assert q[..|q|] == q && q[|q|..] + [job] == [job];
      match cfg.policies[k] {
        case LosslessRequired =>
          if |queues[k]| >= cfg.capacity {
            return false, skipped';
          }
          assert q[..0] == [];
          queues[k] := queues[k] + [job];
        case RealtimeLatestOnly =>
          skipped' := ReplacePending(k, job, skipped);
        case BoundedLatencyDropOldest =>
          skipped' := DropOldest(k, job.enqueuedAt, skipped);
          DropLeavesRoom(cfg, q, job.enqueuedAt);
          queues[k] := queues[k] + [job];
      }
      ok := true;
    }

    /** All or nothing: either every active stage takes the job, or no queue changes and nothing is skipped. */
    method SubmitContext(job: Job) returns (submitted: bool, skipped: seq<Task>)
      requires Valid() && forall k: nat :: k < STAGES ==> Ordered(queues[k], job.enqueuedAt)
      modifies queues
      ensures Valid()
      ensures submitted == !Refuses(cfg, old(Contents()), stopRequested)
      ensures submitted ==> (Contents(), skipped) == SubmitAll(cfg, old(Contents()), job)
      ensures !submitted ==> Contents() == old(Contents()) && skipped == []
    {
      hide AfterSubmit, SkipCount, TasksOf, Ordered, Limit, Normalize;
      skipped := [];
      ghost var before := Contents();
      if stopRequested {
        return false, skipped;
      }
      if cfg.capacity == 0 {
        return false, skipped;
      }
      for k := 0 to cfg.stageCount
        invariant forall i: nat :: i < k ==> !LosslessFull(cfg, before, i)
      {
        if cfg.policies[k] == LosslessRequired && |queues[k]| >= cfg.capacity {
          assert LosslessFull(cfg, before, k);
          return false, skipped;
        }
      }
      for k := 0 to cfg.stageCount
        invariant Valid()
        invariant forall i: nat :: k <= i < STAGES ==> queues[i] == before[i]
        invariant queues[..] == SubmitFirst(cfg, before, job, k).0
        invariant skipped == SubmitFirst(cfg, before, job, k).1
      {
        assert !LosslessFull(cfg, before, k);
        var ok;
        ok, skipped := SubmitStage(k, job, skipped);
        // The source's break on a stage that fails here is never taken: the first loop has
        // already found room in every lossless queue, and the other policies make room.
        assert ok;
      }
      submitted := true;
    }

    /** Takes the oldest job of a stage, if any. */
    method PopJob(k: nat) returns (job: Option<Job>)
      requires Valid() && k < STAGES
      modifies queues
      ensures Valid()
      ensures if old(queues[k]) == [] then job == None && queues[..] == old(queues[..])
              else job == Some(old(queues[k])[0]) && queues[..] == old(queues[..])[k := old(queues[k])[1..]]
    {
      if queues[k] == [] {
        return None;
      }
      job := Some(queues[k][0]);
      queues[k] := queues[k][1..];
    }
  }
}
