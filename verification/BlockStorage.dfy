/** The pool that owns every signal block and the bounded queue that carries them to the ingest worker. */
module BlockStorage {
  import opened Common

  /** SignalBlockPool: the stack of available blocks and its counters. */
  datatype Pool = Pool(free: seq<nat>, acquired: nat, released: nat, exhausted: nat)
  {
    function Top(): nat
      requires free != []
    {
      free[|free| - 1]
    }

    function Acquire(): Pool
      requires free != []
    {
      this.(free := free[..|free| - 1], acquired := acquired + 1)
    }

    function Exhaust(): Pool { this.(exhausted := exhausted + 1) }

    function Release(b: nat): Pool { this.(free := free + [b], released := released + 1) }
  }

  /** BoundedBlockQueue: the queued blocks, named by their position in the order of all successful pushes. */
  datatype BlockQueue = BlockQueue(entries: seq<nat>, popped: nat, dropped: nat, shutdown: bool)
  {
    predicate Refuses(capacity: nat) { shutdown || |entries| >= capacity }

    function Push(t: nat): BlockQueue { this.(entries := entries + [t]) }

    function Refuse(): BlockQueue { this.(dropped := dropped + 1) }

    function Pop(): BlockQueue
      requires entries != []
    {
      this.(entries := entries[1..], popped := popped + 1)
    }

    /** One handle destroyed by clear(): gone, but neither popped nor dropped. */
    function Discard(): BlockQueue
      requires entries != []
    {
      this.(entries := entries[1..])
    }
  }

  /** n consecutive positions. */
  function Positions(first: nat, n: nat): (r: seq<nat>)
    ensures |r| == n && forall i :: 0 <= i < n ==> r[i] == first + i
  {
    seq(n, i requires 0 <= i < n => first + i)
  }

  ghost predicate Distinct(xs: seq<nat>) { forall i, j :: 0 <= i < j < |xs| ==> xs[i] != xs[j] }

  lemma DistinctLast(xs: seq<nat>)
    requires Distinct(xs) && xs != []
    ensures Distinct(xs[..|xs| - 1]) && xs[|xs| - 1] !in xs[..|xs| - 1]
    ensures forall b :: b in xs <==> b in xs[..|xs| - 1] || b == xs[|xs| - 1]
  {
    assert xs == xs[..|xs| - 1] + [xs[|xs| - 1]];
  }

  lemma DistinctPush(xs: seq<nat>, b: nat)
    requires Distinct(xs) && b !in xs
    ensures Distinct(xs + [b]) && forall c :: c in xs + [b] <==> c in xs || c == b
  {
  }

  /** Blocks in use and blocks available partition the pool, each available once. */
  ghost predicate Partitioned(available: seq<nat>, inUse: set<nat>, blockCount: nat) {
    && Distinct(available)
    && (forall b :: b in available ==> b < blockCount && b !in inUse)
    && (forall b: nat :: b < blockCount && b !in available ==> b in inUse)
    && (forall b :: b in inUse ==> b < blockCount)
  }

  lemma TakeKeepsPartition(available: seq<nat>, inUse: set<nat>, blockCount: nat)
    requires Partitioned(available, inUse, blockCount) && available != []
    ensures var b := available[|available| - 1];
            b !in inUse && Partitioned(available[..|available| - 1], inUse + {b}, blockCount)
  {
    DistinctLast(available);
    var front, b := available[..|available| - 1], available[|available| - 1];
    assert b in available;
    forall c: nat | c < blockCount && c !in front ensures c in inUse + {b} {
      assert c in available <==> c in front || c == b;
    }
    forall c | c in front ensures c < blockCount && c !in inUse + {b} {
      assert c in available;
    }
  }

  lemma ReturnKeepsPartition(available: seq<nat>, inUse: set<nat>, blockCount: nat, b: nat)
    requires Partitioned(available, inUse, blockCount) && b in inUse
    ensures Partitioned(available + [b], inUse - {b}, blockCount)
  {
    DistinctPush(available, b);
  }

  /** Pool and handles under m_mutex; blocks are named by their index. */
  class SignalBlockPool {
    const blockCount: nat
    var available: seq<nat>
    var acquired: nat
    var released: nat
    var exhausted: nat
    ghost var inUse: set<nat>

    ghost function View(): Pool
      reads this
    {
      Pool(available, acquired, released, exhausted)
    }

    ghost predicate Valid()
      reads this
    {
      Partitioned(available, inUse, blockCount) && |inUse| == acquired - released == blockCount - |available|
    }

    constructor (count: nat)
      ensures Valid() && blockCount == count && inUse == {} && View() == Pool(Positions(0, count), 0, 0, 0)
    {
      blockCount := count;
      acquired, released, exhausted := 0, 0, 0;
      inUse := {};
      available := Positions(0, count);
      new;
      forall b: nat | b < blockCount ensures b in available { assert available[b] == b; }
    }

    method Acquire() returns (block: Option<nat>)
      requires Valid()
      modifies this
      ensures Valid()
      ensures if old(available) == [] then block == None && View() == old(View()).Exhaust() && inUse == old(inUse)
              else block == Some(old(View()).Top()) && View() == old(View()).Acquire()
                   && block.value !in old(inUse) && inUse == old(inUse) + {block.value}
      ensures block.Some? ==> old(available) == available + [block.value]
      ensures block.None? ==> available == old(available)
      ensures acquired == old(acquired) + (if block.Some? then 1 else 0) && released == old(released)
      ensures exhausted == old(exhausted) + (if block.Some? then 0 else 1)
    {
      if |available| == 0 {
        exhausted := exhausted + 1;
        return None;
      }
      var b := available[|available| - 1];
      TakeKeepsPartition(available, inUse, blockCount);
      hide Partitioned;
      assert available == available[..|available| - 1] + [b];
      available := available[..|available| - 1];
      acquired := acquired + 1;
      inUse := inUse + {b};
      return Some(b);
    }

    /** Called by a handle's reset: only blocks in use have a handle. */
    method Release(b: nat)
      requires Valid() && b in inUse
      modifies this
      ensures Valid() && View() == old(View()).Release(b) && inUse == old(inUse) - {b}
      ensures available == old(available) + [b] && released == old(released) + 1
      ensures acquired == old(acquired) && exhausted == old(exhausted)
    {
      ReturnKeepsPartition(available, inUse, blockCount, b);
      hide Partitioned;
      available := available + [b];
      released := released + 1;
      inUse := inUse - {b};
    }
  }

  /** Queue of handles under m_mutex. */
  class BoundedBlockQueue {
    const capacity: nat
    var queue: seq<nat>
    var pushedBlocks: nat
    var poppedBlocks: nat
    var droppedBlocks: nat
    var isShutdown: bool
    ghost var issued: seq<nat>
    ghost var discarded: nat

    ghost function View(): BlockQueue
      reads this
      requires |queue| <= pushedBlocks
    {
      BlockQueue(Positions(pushedBlocks - |queue|, |queue|), poppedBlocks, droppedBlocks, isShutdown)
    }

    /** The queue is the most recent suffix of all blocks pushed; every push was popped, waits or was cleared away. */
    ghost predicate Valid()
      reads this
    {
      && |queue| <= capacity
      && pushedBlocks == |issued| == poppedBlocks + discarded + |queue|
      && queue == issued[|issued| - |queue|..]
    }

    constructor (maximum: nat)
      ensures Valid() && capacity == maximum && issued == [] && View() == BlockQueue([], 0, 0, false)
    {
      capacity := maximum;
      queue, issued := [], [];
      pushedBlocks, poppedBlocks, droppedBlocks, discarded, isShutdown := 0, 0, 0, 0, false;
    }

    /** None is an empty handle. */
    method TryPush(block: Option<nat>) returns (ok: bool)
      requires Valid()
      modifies this
      ensures Valid() && discarded == old(discarded)
      ensures ok == (block.Some? && !old(View()).Refuses(capacity))
      ensures ok ==> View() == old(View()).Push(old(pushedBlocks)) && issued == old(issued) + [block.value] && queue == old(queue) + [block.value]
      ensures !ok ==> queue == old(queue) && issued == old(issued) && View() == if block.Some? then old(View()).Refuse() else old(View())
      ensures ok <==> block.Some? && !old(isShutdown) && |old(queue)| < capacity
      ensures pushedBlocks == old(pushedBlocks) + (if ok then 1 else 0) && poppedBlocks == old(poppedBlocks)
      ensures droppedBlocks == old(droppedBlocks) + (if block.Some? && !ok then 1 else 0) && isShutdown == old(isShutdown)
    {
      if block.None? {
        return false;
      }
      if isShutdown || capacity == 0 || |queue| >= capacity {
        droppedBlocks := droppedBlocks + 1;
        return false;
      }
      queue := queue + [block.value];
      issued := issued + [block.value];
      pushedBlocks := pushedBlocks + 1;
      return true;
    }

    /** The wait has ended: the queue is shut down or holds a block. */
    method Pop() returns (block: Option<nat>)
      requires Valid() && (isShutdown || queue != [])
      modifies this
      ensures Valid() && discarded == old(discarded) && issued == old(issued)
      ensures if old(queue) == [] then block == None && View() == old(View())
              else block == Some(old(issued)[old(View()).entries[0]]) && View() == old(View()).Pop()
      ensures pushedBlocks == old(pushedBlocks) && isShutdown == old(isShutdown)
      ensures old(queue) != [] ==> block == Some(old(queue)[0]) && queue == old(queue)[1..] && poppedBlocks == old(poppedBlocks) + 1
    {
      if |queue| == 0 {
        return None;
      }
      block := Some(queue[0]);
      queue := queue[1..];
      poppedBlocks := poppedBlocks + 1;
    }

    method Shutdown()
      requires Valid()
      modifies this
      ensures Valid() && View() == old(View()).(shutdown := true) && issued == old(issued) && discarded == old(discarded)
      ensures isShutdown && queue == old(queue) && pushedBlocks == old(pushedBlocks) && poppedBlocks == old(poppedBlocks)
    {
      isShutdown := true;
    }

    /** Unlike pops and refusals, discarded blocks are counted nowhere. */
    method Clear()
      requires Valid()
      modifies this
      ensures Valid() && View() == old(View()).(entries := []) && issued == old(issued)
      ensures queue == [] && pushedBlocks == old(pushedBlocks) && poppedBlocks == old(poppedBlocks)
      ensures isShutdown == old(isShutdown) && droppedBlocks == old(droppedBlocks) && discarded == old(discarded) + |old(queue)|
    {
      discarded := discarded + |queue|;
      queue := [];
    }

    method Reset()
      requires Valid()
      modifies this
      ensures Valid() && View() == BlockQueue([], 0, 0, false) && queue == [] && pushedBlocks == poppedBlocks == droppedBlocks == 0 && !isShutdown
    {
      queue, issued := [], [];
      pushedBlocks, poppedBlocks, droppedBlocks, discarded, isShutdown := 0, 0, 0, 0, false;
    }
  }
}
