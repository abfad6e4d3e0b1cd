/** The ingest pipeline's front: samples copied into a pool block and queued for the engine, or counted as dropped. */
module DataIngest {
  import opened Common
  import opened BlockStorage

  datatype Sample = Sample(index: nat, amplitude: int)

  /** Queued blocks are in use, each once, and carry increasing sequence ids already given out. */
  ghost predicate Queued(q: seq<nat>, inUse: set<nat>, storage: map<nat, seq<Sample>>, ids: map<nat, nat>, next: nat) {
    && Distinct(q)
    && (forall b :: b in q ==> b in inUse && b in storage && b in ids && ids[b] < next)
    && (forall i, j :: 0 <= i < j < |q| ==> ids[q[i]] < ids[q[j]])
  }

  /** Filling a block that was free disturbs none that is queued, and the filled block may join the queue or not. */
  lemma QueuedAfterFill(q: seq<nat>, inUse: set<nat>, storage: map<nat, seq<Sample>>, ids: map<nat, nat>, next: nat,
                        b: nat, samples: seq<Sample>)
    requires Queued(q, inUse, storage, ids, next) && b !in inUse
    ensures Queued(q, inUse, storage[b := samples], ids[b := next], next + 1)
    ensures Queued(q + [b], inUse + {b}, storage[b := samples], ids[b := next], next + 1)
  {
    DistinctPush(q, b);
  }

  ghost function Elements(xs: seq<nat>): set<nat> { set x | x in xs }

  lemma QueuedNone(inUse: set<nat>, storage: map<nat, seq<Sample>>, ids: map<nat, nat>, next: nat)
    ensures Queued([], inUse, storage, ids, next)
  {
  }

  lemma ElementsNone()
    ensures Elements([]) == {}
  {
  }

  lemma ElementsNext(xs: seq<nat>, i: nat)
    requires Distinct(xs) && i < |xs|
    ensures xs[i] !in Elements(xs[..i]) && Elements(xs[..i + 1]) == Elements(xs[..i]) + {xs[i]}
    ensures xs[..i + 1] == xs[..i] + [xs[i]]
  {
  }

  lemma ElementsSplit(xs: seq<nat>, n: nat)
    requires n <= |xs|
    ensures xs[..n] + xs[n..] == xs && Elements(xs[..n]) + Elements(xs[n..]) == Elements(xs)
  {
  }

  /** The front block may leave the queue and be given back. */
  lemma QueuedAfterPop(q: seq<nat>, inUse: set<nat>, storage: map<nat, seq<Sample>>, ids: map<nat, nat>, next: nat)
    requires Queued(q, inUse, storage, ids, next) && q != []
    ensures q[0] in inUse && Queued(q[1..], inUse - {q[0]}, storage, ids, next)
  {
  }

  class DataIngestPipeline {
    const maxSamplesPerBlock: nat
    const acceptingOnStart: bool
    const pool: SignalBlockPool
    const queue: BoundedBlockQueue
    var running: bool
    var accepting: bool
    var nextSequenceId: nat
    var inputBlocks: nat
    var inputSamples: nat
    var droppedBlocks: nat
    var droppedSamples: nat
    /** The blocks' storage, and the sequence id each block carries. */
    var storage: map<nat, seq<Sample>>
    var sequenceIds: map<nat, nat>

    ghost predicate Valid()
      reads this, pool, queue
    {
      && pool.Valid() && queue.Valid() && (running || queue.queue == [])
      && Queued(queue.queue, pool.inUse, storage, sequenceIds, nextSequenceId)
    }

    constructor (maxSamples: nat, acceptOnStart: bool, pool: SignalBlockPool, queue: BoundedBlockQueue)
      requires pool.Valid() && queue.Valid() && queue.queue == []
      ensures Valid() && this.pool == pool && this.queue == queue && !running && !accepting && maxSamplesPerBlock == maxSamples
      ensures nextSequenceId == 1 && inputBlocks == inputSamples == droppedBlocks == droppedSamples == 0
    {
      maxSamplesPerBlock, acceptingOnStart, this.pool, this.queue := maxSamples, acceptOnStart, pool, queue;
      running, accepting, nextSequenceId := false, false, 1;
      inputBlocks, inputSamples, droppedBlocks, droppedSamples := 0, 0, 0, 0;
      storage, sequenceIds := map[], map[];
    }

    method ResetMetrics()
      modifies this`inputBlocks, this`inputSamples, this`droppedBlocks, this`droppedSamples
      ensures inputBlocks == inputSamples == droppedBlocks == droppedSamples == 0
    {
      inputBlocks, inputSamples, droppedBlocks, droppedSamples := 0, 0, 0, 0;
    }

    /** A running pipeline is left alone. Otherwise it starts clean, but sequence ids go on, and when the engine does not
        start it accepts without running. No block is lost: a pipeline that does not run has none queued. */
    method Start(engineStarts: bool) returns (ok: bool)
      requires Valid()
      modifies this`running, this`accepting, this`inputBlocks, this`inputSamples, this`droppedBlocks, this`droppedSamples, queue
      ensures Valid() && ok == running == (old(running) || engineStarts)
      ensures old(running) ==>
                && accepting == old(accepting) && queue.View() == old(queue.View()) && queue.queue == old(queue.queue)
                && inputBlocks == old(inputBlocks) && inputSamples == old(inputSamples)
                && droppedBlocks == old(droppedBlocks) && droppedSamples == old(droppedSamples)
      ensures !old(running) ==>
                && accepting == acceptingOnStart && old(queue.queue) == queue.queue == [] && !queue.isShutdown
                && queue.pushedBlocks == queue.poppedBlocks == queue.droppedBlocks == 0
                && inputBlocks == inputSamples == droppedBlocks == droppedSamples == 0
    {
      hide Distinct, Partitioned, Positions, Queued, BoundedBlockQueue.View, BoundedBlockQueue.Valid, SignalBlockPool.Valid;
      if running {
        return true;
      }
      queue.Reset();
      ResetMetrics();
      accepting := acceptingOnStart;
      running := engineStarts;
      ok := engineStarts;
    }

    /** While it stops, the engine pops and finishes some of the queued blocks; the others are cleared. Either way all of
        them are back in the pool, and a producer that comes late is refused. */
    method Stop(drained: nat)
      requires Valid() && drained <= |queue.queue|
      modifies this`running, this`accepting, pool, queue
      ensures Valid() && !running && !accepting && queue.queue == [] && queue.isShutdown
      ensures pool.available == old(pool.available) + old(queue.queue) && pool.inUse == old(pool.inUse) - Elements(old(queue.queue))
      ensures queue.poppedBlocks == old(queue.poppedBlocks) + drained && queue.pushedBlocks == old(queue.pushedBlocks)
    {
      hide Distinct, Partitioned, Queued, Elements, BoundedBlockQueue.View, BoundedBlockQueue.Valid, SignalBlockPool.Valid;
      accepting := false;
      queue.Shutdown();
      EngineDrains(drained);
      ClearQueuedBlocks();
      running := false;
      ElementsSplit(old(queue.queue), drained);
    }

    /** The ingest worker's last pops. */
    method EngineDrains(count: nat)
      requires Valid() && count <= |queue.queue|
      modifies pool, queue
      ensures Valid() && queue.queue == old(queue.queue)[count..] && queue.isShutdown == old(queue.isShutdown)
      ensures pool.available == old(pool.available) + old(queue.queue)[..count]
      ensures pool.inUse == old(pool.inUse) - Elements(old(queue.queue)[..count])
      ensures queue.poppedBlocks == old(queue.poppedBlocks) + count && queue.pushedBlocks == old(queue.pushedBlocks)
    {
      hide Distinct, Partitioned, Queued, BoundedBlockQueue.View, BoundedBlockQueue.Valid, SignalBlockPool.Valid;
      for i := 0 to count
        invariant Valid() && queue.queue == old(queue.queue)[i..] && queue.isShutdown == old(queue.isShutdown)
        invariant pool.available == old(pool.available) + old(queue.queue)[..i]
        invariant pool.inUse == old(pool.inUse) - Elements(old(queue.queue)[..i])
        invariant queue.poppedBlocks == old(queue.poppedBlocks) + i && queue.pushedBlocks == old(queue.pushedBlocks)
      {
        EngineFinishesFront();
      }
    }

    /** One block popped and processed by every stage: its handle is destroyed. */
    method EngineFinishesFront()
      requires Valid() && queue.queue != []
      modifies pool, queue
      ensures Valid() && queue.queue == old(queue.queue)[1..] && queue.isShutdown == old(queue.isShutdown)
      ensures pool.available == old(pool.available) + [old(queue.queue)[0]] && pool.inUse == old(pool.inUse) - {old(queue.queue)[0]}
      ensures queue.poppedBlocks == old(queue.poppedBlocks) + 1 && queue.pushedBlocks == old(queue.pushedBlocks)
    {
      hide Distinct, Partitioned, Positions, BoundedBlockQueue.View;
      QueuedAfterPop(queue.queue, pool.inUse, storage, sequenceIds, nextSequenceId);
      hide Queued;
      var block := queue.Pop();
      pool.Release(block.value);
    }

    /** The queued blocks go back to the pool front to back, and nothing counts them as popped or dropped. */
    method ClearQueuedBlocks()
      requires Valid()
      modifies pool, queue
      ensures Valid() && queue.queue == [] && queue.isShutdown == old(queue.isShutdown)
      ensures pool.available == old(pool.available) + old(queue.queue) && pool.inUse == old(pool.inUse) - Elements(old(queue.queue))
      ensures queue.pushedBlocks == old(queue.pushedBlocks) && queue.poppedBlocks == old(queue.poppedBlocks)
              && queue.droppedBlocks == old(queue.droppedBlocks)
    {
      hide Distinct, Partitioned, Positions, Elements, BoundedBlockQueue.View;
      var handles := queue.queue;
      QueuedNone(pool.inUse - Elements(handles), storage, sequenceIds, nextSequenceId);
      assert Distinct(handles) && forall b :: b in handles ==> b in pool.inUse;
      hide Queued;
      queue.Clear();
      GiveBack(handles);
    }

    /** Destroying handles returns their blocks in order. */
    method GiveBack(handles: seq<nat>)
      requires pool.Valid() && Distinct(handles) && forall b :: b in handles ==> b in pool.inUse
      modifies pool
      ensures pool.Valid() && pool.available == old(pool.available) + handles && pool.inUse == old(pool.inUse) - Elements(handles)
    {
      hide Distinct, Partitioned, Elements, SignalBlockPool.Valid;
      ElementsNone();
      for i := 0 to |handles|
        invariant pool.Valid() && pool.available == old(pool.available) + handles[..i]
        invariant pool.inUse == old(pool.inUse) - Elements(handles[..i])
      {
        ElementsNext(handles, i);
        pool.Release(handles[i]);
      }
      assert handles[..|handles|] == handles;
    }

    method RecordDroppedBlock(sampleCount: nat)
      modifies this`droppedBlocks, this`droppedSamples
      ensures droppedBlocks == old(droppedBlocks) + 1 && droppedSamples == old(droppedSamples) + sampleCount
    {
      droppedBlocks := droppedBlocks + 1;
      droppedSamples := droppedSamples + sampleCount;
    }

    /** Success queues exactly one block, fresh from the pool, holding exactly these samples. Any failure counts one
        dropped block and leaves the queue and the set of blocks in use as they were, even when the block had already
        been filled; only its sequence id is spent. */
    method IngestSamples(samples: seq<Sample>) returns (ok: bool)
      requires Valid()
      modifies this, pool, queue
      ensures Valid() && running == old(running) && accepting == old(accepting)
      ensures var reaches := old(running) && old(accepting) && |samples| <= maxSamplesPerBlock && old(pool.available) != [];
              && ok == (reaches && !old(queue.View()).Refuses(queue.capacity))
              && nextSequenceId == old(nextSequenceId) + (if reaches then 1 else 0)
              && inputBlocks == old(inputBlocks) + (if reaches then 1 else 0)
              && inputSamples == old(inputSamples) + (if reaches then |samples| else 0)
      ensures ok ==>
                && var b := old(pool.available)[|old(pool.available)| - 1];
                && queue.queue == old(queue.queue) + [b]
                && b !in old(pool.inUse) && pool.inUse == old(pool.inUse) + {b}
                && b in storage && storage[b] == samples && b in sequenceIds && sequenceIds[b] == old(nextSequenceId)
                && droppedBlocks == old(droppedBlocks) && droppedSamples == old(droppedSamples)
      ensures !ok ==>
                && queue.queue == old(queue.queue) && pool.inUse == old(pool.inUse) && pool.available == old(pool.available)
                && droppedBlocks == old(droppedBlocks) + 1 && droppedSamples == old(droppedSamples) + |samples|
    {
      hide Distinct, Queued, Partitioned;
      if !running || !accepting {
        RecordDroppedBlock(|samples|);
        return false;
      }
      if |samples| > maxSamplesPerBlock {
        RecordDroppedBlock(|samples|);
        return false;
      }
      hide BoundedBlockQueue.Valid, SignalBlockPool.Valid;
      var acquired := AcquireBlock();
      if acquired.None? {
        RecordDroppedBlock(|samples|);
        return false;
      }
      ok := FillAndPush(acquired.value, samples);
    }

    /** The block on top of the pool's stack, which no queued block can be. */
    method AcquireBlock() returns (block: Option<nat>)
      requires Valid()
      modifies pool
      ensures pool.Valid() && block.Some? == (old(pool.available) != [])
      ensures block.None? ==> pool.inUse == old(pool.inUse) && pool.available == old(pool.available)
      ensures block.Some? ==>
                && block.value !in old(pool.inUse) && pool.inUse == old(pool.inUse) + {block.value}
                && old(pool.available) == pool.available + [block.value]
                && pool.inUse - {block.value} == old(pool.inUse)
    {
      hide Distinct, Queued, Partitioned, BoundedBlockQueue.Valid;
      block := pool.Acquire();
      if block.Some? {
        assert old(pool.available) == old(pool.available)[..|old(pool.available)| - 1] + [block.value];
      }
    }

    /** The block acquired for these samples is filled and queued, or given back when the queue refuses it. */
    method FillAndPush(block: nat, samples: seq<Sample>) returns (ok: bool)
      requires pool.Valid() && queue.Valid() && block in pool.inUse && running
      requires Queued(queue.queue, pool.inUse - {block}, storage, sequenceIds, nextSequenceId)
      modifies this`storage, this`sequenceIds, this`nextSequenceId, this`inputBlocks, this`inputSamples,
               this`droppedBlocks, this`droppedSamples, pool, queue
      ensures Valid() && nextSequenceId == old(nextSequenceId) + 1
      ensures inputBlocks == old(inputBlocks) + 1 && inputSamples == old(inputSamples) + |samples|
      ensures ok == !old(queue.View()).Refuses(queue.capacity)
      ensures ok ==>
                && queue.queue == old(queue.queue) + [block] && pool.inUse == old(pool.inUse)
                && block in storage && storage[block] == samples && block in sequenceIds && sequenceIds[block] == old(nextSequenceId)
                && droppedBlocks == old(droppedBlocks) && droppedSamples == old(droppedSamples)
      ensures !ok ==>
                && queue.queue == old(queue.queue) && pool.inUse == old(pool.inUse) - {block}
                && pool.available == old(pool.available) + [block]
                && droppedBlocks == old(droppedBlocks) + 1 && droppedSamples == old(droppedSamples) + |samples|
    {
      hide Distinct, Queued, Partitioned;
      QueuedAfterFill(queue.queue, pool.inUse - {block}, storage, sequenceIds, nextSequenceId, block, samples);
      assert pool.inUse - {block} + {block} == pool.inUse;
      storage, sequenceIds := storage[block := samples], sequenceIds[block := nextSequenceId];
      nextSequenceId := nextSequenceId + 1;
      inputBlocks, inputSamples := inputBlocks + 1, inputSamples + |samples|;
      ok := queue.TryPush(Some(block));
      if !ok {
        pool.Release(block);
        RecordDroppedBlock(|samples|);
      }
    }
  }
}
