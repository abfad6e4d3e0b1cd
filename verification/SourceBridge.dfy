/** The receive queue between the stream source and the ingest pipeline, and the acquisition session that gates it.
    Each method of the bridge is one region under its mutex, so any sequence of calls is an interleaving of the
    source callback, the worker thread and the control thread. */
module SourceBridge {
  import opened Common

  datatype OverflowPolicy = DropNewest | DropOldest

  datatype Block = Block(samples: nat, firstSampleIndex: nat)

  datatype Tally = Tally(blocks: nat, samples: nat) {
    function Add(b: Block): Tally { Tally(blocks + 1, samples + b.samples) }
    function Plus(t: Tally): Tally { Tally(blocks + t.blocks, samples + t.samples) }
  }

  const NOTHING := Tally(0, 0)

  datatype Metrics = Metrics(received: Tally, enqueued: Tally, dropped: Tally, ingested: Tally, rejected: Tally)

  /** Received plus the skew is what was ingested, rejected and dropped, what is queued and what is in hand;
      for blocks and for samples. */
  predicate Balanced(m: Metrics, skew: Tally, queued: Tally, inHand: Tally) {
    && m.received.blocks + skew.blocks
       == m.ingested.blocks + m.rejected.blocks + m.dropped.blocks + queued.blocks + inHand.blocks
    && m.received.samples + skew.samples
       == m.ingested.samples + m.rejected.samples + m.dropped.samples + queued.samples + inHand.samples
  }

  lemma DropKeepsBalance(m: Metrics, skew: Tally, queued: Tally, inHand: Tally, b: Block)
    requires Balanced(m, skew, queued, inHand)
    ensures Balanced(m.(received := m.received.Add(b), dropped := m.dropped.Add(b)), skew, queued, inHand)
  {
  }

  lemma EnqueueKeepsBalance(m: Metrics, skew: Tally, queued: Tally, inHand: Tally, b: Block)
    requires Balanced(m, skew, queued, inHand)
    ensures Balanced(m.(received := m.received.Add(b), enqueued := m.enqueued.Add(b)), skew, queued.Add(b), inHand)
  {
  }

  lemma ReplaceKeepsBalance(m: Metrics, skew: Tally, rest: Tally, inHand: Tally, oldest: Block, b: Block)
    requires Balanced(m, skew, rest.Add(oldest), inHand)
    ensures Balanced(m.(received := m.received.Add(b), dropped := m.dropped.Add(oldest), enqueued := m.enqueued.Add(b)),
                     skew, rest.Add(b), inHand)
  {
  }

  const NO_METRICS := Metrics(NOTHING, NOTHING, NOTHING, NOTHING, NOTHING)

  function Total(blocks: seq<Block>): Tally {
    if blocks == [] then NOTHING else Total(blocks[..|blocks| - 1]).Add(blocks[|blocks| - 1])
  }

  lemma {:induction false} TotalFront(blocks: seq<Block>)
    requires blocks != []
    ensures Total(blocks) == Total(blocks[1..]).Add(blocks[0])
  {
    if |blocks| > 1 {
      TotalFront(blocks[..|blocks| - 1]);
      assert blocks[1..][..|blocks| - 2] == blocks[..|blocks| - 1][1..];
    } else {
      assert blocks[1..] == [] && blocks[..0] == [];
    }
  }

  lemma TotalSnoc(blocks: seq<Block>, b: Block)
    ensures Total(blocks + [b]) == Total(blocks).Add(b)
  {
    assert (blocks + [b])[..|blocks|] == blocks;
  }

  /** A tally counts blocks and adds up their samples. */
  lemma {:induction false} TotalAddsUp(xs: seq<Block>, ys: seq<Block>, b: Block)
    ensures Total([]) == Tally(0, 0) && Total([b]) == Tally(1, b.samples)
    ensures Total(xs).blocks == |xs|
    ensures Total(xs + ys).samples == Total(xs).samples + Total(ys).samples
  {
    assert [b][..0] == [];
    if ys == [] {
      assert xs + ys == xs;
      if xs != [] { TotalAddsUp(xs[..|xs| - 1], [], b); }
    } else {
      TotalAddsUp(xs, ys[..|ys| - 1], b);
      assert (xs + ys)[..|xs + ys| - 1] == xs + ys[..|ys| - 1];
    }
  }

  /** The worker thread: none, waiting for a block, ingesting one, or finished. */
  datatype Worker = NoThread | Waiting | Ingesting(block: Block) | Finished

  function InProgress(w: Worker): Tally { if w.Ingesting? then NOTHING.Add(w.block) else NOTHING }

  /** Positions in the order of submission: what went to the pipeline, in order, then what still waits. */
  ghost predicate InOrder(submitted: seq<Block>, handed: seq<nat>, waiting: seq<nat>) {
    && (forall i :: 0 <= i < |handed| ==> handed[i] < |submitted|)
    && (forall i :: 0 <= i < |waiting| ==> waiting[i] < |submitted|)
    && (forall i, j :: 0 <= i < j < |handed| ==> handed[i] < handed[j])
    && (forall i, j :: 0 <= i < j < |waiting| ==> waiting[i] < waiting[j])
    && (forall i, j :: 0 <= i < |handed| && 0 <= j < |waiting| ==> handed[i] < waiting[j])
  }

  ghost predicate At(submitted: seq<Block>, positions: seq<nat>, blocks: seq<Block>) {
    |positions| == |blocks| && forall i :: 0 <= i < |blocks| ==> positions[i] < |submitted| && submitted[positions[i]] == blocks[i]
  }

  lemma NoneWaiting(submitted: seq<Block>, handed: seq<nat>, waiting: seq<nat>)
    requires InOrder(submitted, handed, waiting)
    ensures InOrder(submitted, handed, []) && At(submitted, [], [])
  {
  }

  /** What is in the worker's hand counts as one block of its size. */
  lemma InHand(w: Worker)
    ensures InProgress(w) == if w.Ingesting? then Total([w.block]) else Total([])
  {
    if w.Ingesting? { TotalAddsUp([], [], w.block); }
  }

  lemma ClearedBalances(worker: Worker)
    ensures Balanced(NO_METRICS, InProgress(worker), Total([]), InProgress(worker))
  {
  }

  lemma NothingSubmitted()
    ensures InOrder([], [], []) && At([], [], [])
    ensures Balanced(NO_METRICS, NOTHING, Total([]), InProgress(NoThread)) && InProgress(Waiting) == InProgress(NoThread)
  {
  }

  lemma OneMoreSubmitted(submitted: seq<Block>, handed: seq<nat>, waiting: seq<nat>, queue: seq<Block>, b: Block)
    requires InOrder(submitted, handed, waiting) && At(submitted, waiting, queue)
    ensures InOrder(submitted + [b], handed, waiting) && At(submitted + [b], waiting, queue)
    ensures InOrder(submitted + [b], handed, waiting + [|submitted|]) && At(submitted + [b], waiting + [|submitted|], queue + [b])
  {
  }

  lemma OldestLeaves(submitted: seq<Block>, handed: seq<nat>, waiting: seq<nat>, queue: seq<Block>)
    requires InOrder(submitted, handed, waiting) && At(submitted, waiting, queue) && queue != []
    ensures InOrder(submitted, handed, waiting[1..]) && At(submitted, waiting[1..], queue[1..])
    ensures InOrder(submitted, handed + [waiting[0]], waiting[1..])
  {
  }

  lemma Enqueued(m: Metrics, skew: Tally, inHand: Tally, submitted: seq<Block>, handed: seq<nat>, waiting: seq<nat>, queue: seq<Block>, b: Block)
    requires Balanced(m, skew, Total(queue), inHand) && InOrder(submitted, handed, waiting) && At(submitted, waiting, queue)
    ensures Balanced(m.(received := m.received.Add(b), enqueued := m.enqueued.Add(b)), skew, Total(queue + [b]), inHand)
    ensures InOrder(submitted + [b], handed, waiting + [|submitted|]) && At(submitted + [b], waiting + [|submitted|], queue + [b])
  {
    OneMoreSubmitted(submitted, handed, waiting, queue, b);
    TotalSnoc(queue, b);
    EnqueueKeepsBalance(m, skew, Total(queue), inHand, b);
    hide InOrder, At, Total, Balanced;
  }

  class SourceToPipelineBridge {
    const pipelineConfigured: bool
    const queueCapacity: nat
    const overflowPolicy: OverflowPolicy
    var queue: seq<Block>
    var metrics: Metrics
    var running: bool
    var stopRequested: bool
    var ingestInProgress: bool
    var worker: Worker
    /** Since the last start: all blocks submitted, the positions of those handed to the pipeline and of those queued. */
    ghost var submitted: seq<Block>
    ghost var handed: seq<nat>
    ghost var waiting: seq<nat>
    /** What was being ingested when the metrics were last cleared. */
    ghost var skew: Tally

    /** No block received is unaccounted for. */
    ghost predicate Conserved()
      reads this
    {
      Balanced(metrics, skew, Total(queue), InProgress(worker))
    }

    ghost predicate Valid()
      reads this
    {
      && Conserved()
      && |queue| <= queueCapacity
      && ingestInProgress == worker.Ingesting?
      && (running <==> worker != NoThread)
      && (worker == Finished ==> stopRequested && queue == [])
      && (stopRequested ==> queue == [])
      && InOrder(submitted, handed, waiting) && At(submitted, waiting, queue)
    }

    constructor (configured: bool, capacity: nat, policy: OverflowPolicy)
      ensures Valid() && !running && !stopRequested && queue == [] && metrics == NO_METRICS && skew == NOTHING
      ensures pipelineConfigured == configured && queueCapacity == capacity && overflowPolicy == policy
    {
      NothingSubmitted();
      hide InOrder, At, Balanced, Total, InProgress;
      pipelineConfigured, queueCapacity, overflowPolicy := configured, capacity, policy;
      queue, metrics, running, stopRequested, ingestInProgress, worker := [], NO_METRICS, false, false, false, NoThread;
      submitted, handed, waiting, skew := [], [], [], NOTHING;
    }

    /** `threadStarts` says whether the worker thread could be created. */
    method Start(threadStarts: bool) returns (ok: bool)
      requires Valid()
      modifies this
      ensures Valid()
      ensures ok == (pipelineConfigured && (old(running) || threadStarts))
      ensures old(running) || !pipelineConfigured ==> unchanged(this)
      ensures !old(running) && pipelineConfigured ==>
                metrics == NO_METRICS && skew == NOTHING && queue == [] && submitted == []
                && running == threadStarts && stopRequested == !threadStarts && (threadStarts ==> worker == Waiting)
    {
      NothingSubmitted();
      hide InOrder, At, Balanced, Total, InProgress;
      if !pipelineConfigured {
        return false;
      }
      if running {
        return true;
      }
      queue, metrics, stopRequested, ingestInProgress := [], NO_METRICS, false, false;
      submitted, handed, waiting, skew := [], [], [], NOTHING;
      if !threadStarts {
        stopRequested := true;
        return false;
      }
      running, worker := true, Waiting;
      return true;
    }

    /** The new block is counted and dropped. */
    method DropNew(block: Block)
      requires Valid()
      modifies this`submitted, this`metrics
      ensures Valid() && unchanged(`running) && unchanged(`worker) && unchanged(`stopRequested) && unchanged(`skew) && unchanged(`handed)
      ensures submitted == old(submitted) + [block]
      ensures metrics == old(metrics).(received := old(metrics).received.Add(block), dropped := old(metrics).dropped.Add(block))
    {
      OneMoreSubmitted(submitted, handed, waiting, queue, block);
      DropKeepsBalance(metrics, skew, Total(queue), InProgress(worker), block);
      hide InOrder, At, Total, Balanced, InProgress, Tally.Add;
      submitted := submitted + [block];
      metrics := metrics.(received := metrics.received.Add(block), dropped := metrics.dropped.Add(block));
    }

    method Enqueue(block: Block)
      requires Valid() && running && !stopRequested && |queue| < queueCapacity
      modifies this`submitted, this`metrics, this`queue, this`waiting
      ensures Valid() && unchanged(`running) && unchanged(`worker) && unchanged(`stopRequested) && unchanged(`skew) && unchanged(`handed)
      ensures submitted == old(submitted) + [block]
      ensures queue == old(queue) + [block]
      ensures metrics == old(metrics).(received := old(metrics).received.Add(block), enqueued := old(metrics).enqueued.Add(block))
    {
      hide InOrder, At, Total, Balanced, InProgress, Tally.Add;
      Enqueued(metrics, skew, InProgress(worker), submitted, handed, waiting, queue, block);
      queue, waiting := queue + [block], waiting + [|submitted|];
      submitted := submitted + [block];
      metrics := metrics.(received := metrics.received.Add(block), enqueued := metrics.enqueued.Add(block));
    }

    /** The oldest waiting block makes room and is counted as dropped. */
    method ReplaceOldest(block: Block)
      requires Valid() && running && !stopRequested && queue != []
      modifies this`submitted, this`metrics, this`queue, this`waiting
      ensures Valid() && unchanged(`running) && unchanged(`worker) && unchanged(`stopRequested) && unchanged(`skew) && unchanged(`handed)
      ensures submitted == old(submitted) + [block]
      ensures queue == old(queue)[1..] + [block]
      ensures metrics == old(metrics).(received := old(metrics).received.Add(block), enqueued := old(metrics).enqueued.Add(block),
                                       dropped := old(metrics).dropped.Add(old(queue)[0]))
    {
      OldestLeaves(submitted, handed, waiting, queue);
      OneMoreSubmitted(submitted, handed, waiting[1..], queue[1..], block);
      TotalFront(queue);
      TotalSnoc(queue[1..], block);
      ReplaceKeepsBalance(metrics, skew, Total(queue[1..]), InProgress(worker), queue[0], block);
      hide InOrder, At, Total, Balanced, InProgress, Tally.Add;
      metrics := metrics.(received := metrics.received.Add(block), dropped := metrics.dropped.Add(queue[0]),
                          enqueued := metrics.enqueued.Add(block));
      queue, waiting := queue[1..] + [block], waiting[1..] + [|submitted|];
      submitted := submitted + [block];
    }

    /** From the source callback: a stopped bridge drops the block, a full queue applies its overflow policy. */
    method Submit(block: Block)
      requires Valid()
      modifies this
      ensures Valid() && unchanged(`running) && unchanged(`worker) && unchanged(`stopRequested) && unchanged(`skew) && unchanged(`handed)
      ensures submitted == old(submitted) + [block]
      ensures metrics.received == old(metrics).received.Add(block)
      ensures var full := |old(queue)| >= queueCapacity;
              if !running || stopRequested || (full && (overflowPolicy == DropNewest || queueCapacity == 0)) then
                queue == old(queue) && metrics.dropped == old(metrics).dropped.Add(block)
              else if full then
                queue == old(queue)[1..] + [block] && metrics.dropped == old(metrics).dropped.Add(old(queue)[0])
              else
                queue == old(queue) + [block] && metrics.dropped == old(metrics).dropped
      ensures metrics.ingested == old(metrics).ingested && metrics.rejected == old(metrics).rejected
    {
      hide InOrder, At, Total, Balanced, InProgress, Tally.Add;
      if !running || stopRequested {
        DropNew(block);
      } else if |queue| >= queueCapacity {
        if overflowPolicy == DropNewest {
          DropNew(block);
        } else if queue != [] {
          ReplaceOldest(block);
        } else {
          DropNew(block);
        }
      } else {
        Enqueue(block);
      }
    }

    /** The worker takes the oldest block, or leaves once told to stop. */
    method WorkerTakes()
      requires Valid() && worker == Waiting && (stopRequested || queue != [])
      modifies this
      ensures Valid() && running == old(running) && stopRequested == old(stopRequested)
      ensures submitted == old(submitted) && metrics == old(metrics) && skew == old(skew)
      ensures if old(queue) == [] then worker == Finished && unchanged(`queue) && handed == old(handed)
              else worker == Ingesting(old(queue)[0]) && queue == old(queue)[1..] && handed == old(handed) + [old(waiting)[0]]
    {
      if queue == [] {
        worker := Finished;
        return;
      }
      TotalFront(queue);
      OldestLeaves(submitted, handed, waiting, queue);
      hide Total, InOrder, At;
      worker, ingestInProgress := Ingesting(queue[0]), true;
      handed := handed + [waiting[0]];
      queue, waiting := queue[1..], waiting[1..];
    }

    /** The pipeline's answer for the block being ingested. */
    method WorkerFinishes(accepted: bool)
      requires Valid() && worker.Ingesting?
      modifies this
      ensures Valid() && worker == Waiting && running == old(running) && stopRequested == old(stopRequested) && queue == old(queue)
      ensures submitted == old(submitted) && handed == old(handed) && skew == old(skew)
      ensures metrics == if accepted then old(metrics).(ingested := old(metrics).ingested.Add(old(worker).block))
                         else old(metrics).(rejected := old(metrics).rejected.Add(old(worker).block))
    {
      hide Total, InOrder, At;
      if accepted {
        metrics := metrics.(ingested := metrics.ingested.Add(worker.block));
      } else {
        metrics := metrics.(rejected := metrics.rejected.Add(worker.block));
      }
      worker, ingestInProgress := Waiting, false;
    }

    /** The first half of stop: queued blocks become drops. */
    method RequestStop()
      requires Valid()
      modifies this
      ensures Valid() && running == old(running) && worker == old(worker) && skew == old(skew)
      ensures submitted == old(submitted) && handed == old(handed)
      ensures !old(running) ==> unchanged(this)
      ensures old(running) ==>
                stopRequested && queue == [] && metrics == old(metrics).(dropped := old(metrics).dropped.Plus(Total(old(queue))))
    {
      if !running {
        return;
      }
      NoneWaiting(submitted, handed, waiting);
      hide InOrder, At;
      stopRequested := true;
      var dropped := metrics.dropped;
      for i := 0 to |queue|
        invariant dropped == metrics.dropped.Plus(Total(queue[..i]))
      {
        assert queue[..i + 1][..i] == queue[..i];
        dropped := dropped.Add(queue[i]);
      }
      assert queue[..|queue|] == queue;
      metrics := metrics.(dropped := dropped);
      queue, waiting := [], [];
    }

    /** The second half of stop, once the worker has been joined. */
    method FinishStop()
      requires Valid() && worker == Finished
      modifies this
      ensures Valid() && !running && !stopRequested && queue == [] && metrics == old(metrics) && skew == old(skew)
      ensures submitted == old(submitted) && handed == old(handed)
    {
      running, stopRequested, ingestInProgress, worker := false, false, false, NoThread;
    }

    /** stop: request, let the worker finish the block in hand, join. */
    method Stop(accepted: bool)
      requires Valid()
      modifies this
      ensures Valid() && !running && skew == old(skew) && submitted == old(submitted) && handed == old(handed)
      ensures old(running) ==> metrics.received == old(metrics).received && Balanced(metrics, skew, NOTHING, NOTHING)
    {
      hide InOrder, At;
      RequestStop();
      if !running {
        return;
      }
      if worker.Ingesting? {
        WorkerFinishes(accepted);
      }
      if worker == Waiting {
        WorkerTakes();
      }
      FinishStop();
    }

    /** clear: queue and metrics go, the block being ingested stays. */
    method Clear()
      requires Valid()
      modifies this
      ensures Valid() && queue == [] && metrics == NO_METRICS && skew == InProgress(worker)
      ensures running == old(running) && worker == old(worker) && stopRequested == old(stopRequested)
      ensures submitted == old(submitted) && handed == old(handed)
    {
      hide InOrder, At, Total, Balanced, InProgress;
      NoneWaiting(submitted, handed, waiting);
      ClearedBalances(worker);
      queue, waiting, metrics := [], [], NO_METRICS;
      skew := InProgress(worker);
    }

    /** flush's predicate: when it holds, every block counted as received was ingested, rejected or dropped. */
    method Drained() returns (drained: bool)
      requires Valid()
      ensures drained == (queue == [] && !worker.Ingesting?)
      ensures drained ==> Balanced(metrics, skew, NOTHING, NOTHING)
    {
      drained := queue == [] && !ingestInProgress;
    }

    /** A snapshot under the lock. Received equals ingested, rejected, dropped, queued and in progress exactly when no
        ingest was in progress at the last clear: the block then in hand is counted out but was never counted in. */
    method Snapshot() returns (m: Metrics, depth: nat)
      requires Valid()
      ensures m == metrics && depth == |queue|
      ensures Balanced(m, NOTHING, Total(queue), InProgress(worker)) <==> skew == NOTHING
      ensures m.received.blocks + skew.blocks == m.ingested.blocks + m.rejected.blocks + m.dropped.blocks + depth + if worker.Ingesting? then 1 else 0
    {
      TotalBlocks(queue);
      hide Total, InOrder, At;
      m, depth := metrics, |queue|;
    }
  }

  lemma {:induction false} TotalBlocks(blocks: seq<Block>)
    ensures Total(blocks).blocks == |blocks|
  {
    if blocks != [] { TotalBlocks(blocks[..|blocks| - 1]); }
  }

  /** The session around the bridge: it gates the source callback and keeps one source while anything runs. */
  class BcoAcquisitionSession {
    const bridge: SourceToPipelineBridge
    var source: Option<nat>
    var active: bool
    var accepting: bool

    /** Blocks are let through only to a running bridge, and an active session has a source. */
    ghost predicate Valid()
      reads this, bridge
    {
      bridge.Valid() && (accepting ==> bridge.running) && (active ==> source.Some? && bridge.pipelineConfigured)
    }

    constructor (bridge: SourceToPipelineBridge, source: Option<nat>)
      requires bridge.Valid()
      ensures Valid() && this.bridge == bridge && this.source == source && !active && !accepting
    {
      this.bridge, this.source, active, accepting := bridge, source, false, false;
    }

    method SetSource(next: Option<nat>) returns (ok: bool)
      requires Valid()
      modifies this`source
      ensures Valid() && ok == (!active && !bridge.running) && source == if ok then next else old(source)
    {
      if active || bridge.running {
        return false;
      }
      source := next;
      return true;
    }

    /** The two answers are those of starting the pipeline and the source. */
    method StartSource(pipelineStarts: bool, sourceStarts: bool) returns (ok: bool)
      requires Valid()
      modifies this`active
      ensures Valid() && ok == (old(active) || (source.Some? && bridge.pipelineConfigured && pipelineStarts && sourceStarts)) && active == ok
    {
      if active {
        return true;
      }
      if source.None? || !bridge.pipelineConfigured {
        return false;
      }
      if !pipelineStarts {
        return false;
      }
      active := sourceStarts;
      return sourceStarts;
    }

    method StopSource(sourceStops: bool) returns (ok: bool)
      requires Valid()
      modifies this`active
      ensures Valid() && ok == (!old(active) || sourceStops) && active == (old(active) && !sourceStops)
    {
      if !active {
        return true;
      }
      if sourceStops {
        active := false;
      }
      return sourceStops;
    }

    method OpenInput(threadStarts: bool) returns (ok: bool)
      requires Valid()
      modifies bridge
      ensures Valid() && source == old(source) && (ok <==> bridge.running && bridge.pipelineConfigured)
      ensures old(bridge.running) ==> bridge.running && bridge.metrics == old(bridge.metrics)
    {
      if !bridge.pipelineConfigured {
        return false;
      }
      ok := bridge.Start(threadStarts);
    }

    method SetAccepting(wanted: bool)
      requires Valid()
      modifies this`accepting
      ensures Valid() && accepting == (wanted && bridge.running)
    {
      accepting := wanted && bridge.running;
    }

    /** The source's callback, under the delivery mutex. */
    method Deliver(block: Block)
      requires Valid()
      modifies bridge
      ensures Valid() && bridge.running == old(bridge.running)
      ensures accepting ==> bridge.submitted == old(bridge.submitted) + [block]
      ensures !accepting ==> bridge.metrics == old(bridge.metrics) && bridge.submitted == old(bridge.submitted) && bridge.queue == old(bridge.queue)
    {
      if accepting {
        bridge.Submit(block);
      }
    }

    /** Waiting for the bridge to drain changes nothing here; the worker goes on meanwhile. */
    method CloseInput(accepted: bool)
      requires Valid()
      modifies this`accepting, bridge
      ensures Valid() && !accepting && !bridge.running && bridge.skew == old(bridge.skew)
      ensures old(bridge.running) ==> Balanced(bridge.metrics, bridge.skew, NOTHING, NOTHING)
    {
      SetAccepting(false);
      if !bridge.running {
        return;
      }
      bridge.Stop(accepted);
    }

    method ClearInput()
      requires Valid()
      modifies bridge
      ensures Valid() && bridge.running == old(bridge.running) && bridge.metrics == NO_METRICS && bridge.queue == []
    {
      bridge.Clear();
    }
  }
}
