/** The bounded queue of finished waterfall rows between the engine and the display. */
module WaterfallRowQueues {
  import opened Common

  datatype OverflowPolicy = DropOldest | DropNewest

  datatype QueuedRow<T> = QueuedRow(sequenceId: nat, row: T)

  datatype Pushed = Pushed(pushedRows: int, queuedRows: int, droppedRows: int, depth: nat, latestRowSequenceId: nat)

  /** The last n elements. */
  function Last<T>(xs: seq<T>, n: nat): seq<T>
    requires n <= |xs|
  {
    xs[|xs| - n..]
  }

  function RowsIn<T>(q: seq<QueuedRow<T>>): (r: seq<T>)
    ensures |r| == |q| && forall i :: 0 <= i < |q| ==> r[i] == q[i].row
  {
    seq(|q|, i requires 0 <= i < |q| => q[i].row)
  }

  /** The queue is the most recently issued rows, with consecutive ids. Under drop-oldest the issued rows are all rows
      pushed; under drop-newest the drained rows and the queue are all rows issued. */
  ghost predicate Story<T>(policy: OverflowPolicy, capacity: nat, rows: seq<QueuedRow<T>>, offered: seq<T>,
                           issued: seq<QueuedRow<T>>, drained: seq<QueuedRow<T>>) {
    && (forall i :: 0 <= i < |issued| ==> issued[i].sequenceId == i + 1)
    && |rows| <= |issued| && rows == Last(issued, |rows|)
    && (policy == DropOldest && capacity > 0 ==> RowsIn(issued) == offered)
    && (policy == DropNewest ==> drained + rows == issued)
    && (capacity == 0 ==> issued == [])
  }

  lemma LastAll<T>(xs: seq<T>)
    ensures Last(xs, |xs|) == xs && (xs != [] ==> Last(xs, |xs| - 1) == xs[1..])
  {
  }

  lemma StoryQueued<T>(policy: OverflowPolicy, capacity: nat, rows: seq<QueuedRow<T>>, offered: seq<T>,
                       issued: seq<QueuedRow<T>>, drained: seq<QueuedRow<T>>, row: T, keep: nat)
    requires Story(policy, capacity, rows, offered, issued, drained) && capacity > 0
    requires keep <= |rows| && (policy == DropNewest ==> keep == |rows|)
    ensures var entry := QueuedRow(|issued| + 1, row);
            Story(policy, capacity, Last(rows, keep) + [entry], offered + [row], issued + [entry], drained)
  {
    var entry := QueuedRow(|issued| + 1, row);
    assert RowsIn(issued + [entry]) == RowsIn(issued) + [row];
    assert keep == |rows| ==> Last(rows, keep) == rows && drained + (rows + [entry]) == (drained + rows) + [entry];
    assert Last(rows, keep) + [entry] == Last(issued + [entry], keep + 1);
  }

  /** A row turned away leaves the queue and the ids alone. */
  lemma StoryRefused<T>(policy: OverflowPolicy, capacity: nat, rows: seq<QueuedRow<T>>, offered: seq<T>,
                        issued: seq<QueuedRow<T>>, drained: seq<QueuedRow<T>>, row: T)
    requires Story(policy, capacity, rows, offered, issued, drained) && (capacity == 0 || policy == DropNewest)
    ensures Story(policy, capacity, rows, offered + [row], issued, drained)
  {
  }

  lemma StoryDrained<T>(policy: OverflowPolicy, capacity: nat, rows: seq<QueuedRow<T>>, offered: seq<T>,
                        issued: seq<QueuedRow<T>>, drained: seq<QueuedRow<T>>, count: nat)
    requires Story(policy, capacity, rows, offered, issued, drained) && count <= |rows|
    ensures Story(policy, capacity, rows[count..], offered, issued, drained + rows[..count])
  {
    assert (drained + rows[..count]) + rows[count..] == drained + (rows[..count] + rows[count..]);
    assert rows[..count] + rows[count..] == rows;
  }

  /** What a queue holds after a batch: the newest rows that fit, or the oldest. */
  function Kept<T>(policy: OverflowPolicy, capacity: nat, q: seq<T>, batch: seq<T>): seq<T>
    requires |q| <= capacity
  {
    match policy
    case DropNewest => q + batch[..Min(|batch|, capacity - |q|)]
    case DropOldest => Last(q + batch, Min(|q| + |batch|, capacity))
  }

  lemma KeptNothing<T>(policy: OverflowPolicy, capacity: nat, q: seq<T>)
    requires |q| <= capacity
    ensures Kept(policy, capacity, q, []) == q
  {
  }

  lemma KeptSnoc<T>(policy: OverflowPolicy, capacity: nat, q: seq<T>, batch: seq<T>, row: T)
    requires |q| <= capacity
    ensures var k := Kept(policy, capacity, q, batch);
            && |k| <= capacity
            && Kept(policy, capacity, q, batch + [row])
               == if capacity == 0 || (|k| >= capacity && policy == DropNewest) then k else Last(k, Min(|k|, capacity - 1)) + [row]
  {
    var k := Kept(policy, capacity, q, batch);
    if policy == DropOldest {
      var all := q + batch;
      assert q + (batch + [row]) == all + [row];
    } else if |k| < capacity {
      assert (batch + [row])[..|batch| + 1] == batch + [row] && batch[..|batch|] == batch;
      assert Last(k, |k|) == k;
    } else {
      assert (batch + [row])[..capacity - |q|] == batch[..capacity - |q|];
    }
  }

  class WaterfallRowQueue<T> {
    var maxQueuedRows: nat
    var overflowPolicy: OverflowPolicy
    var rows: seq<QueuedRow<T>>
    var pushedRows: nat
    var drainedRows: nat
    var droppedRows: nat
    var latestRowSequenceId: nat
    var nextRowSequenceId: nat
    /** Since the last reset: every row pushed, every row that got an id, and every row drained. */
    ghost var offered: seq<T>
    ghost var issued: seq<QueuedRow<T>>
    ghost var drained: seq<QueuedRow<T>>

    /** Nothing is lost uncounted, and the contents are as the policy says. */
    ghost predicate Valid()
      reads this
    {
      && |rows| <= maxQueuedRows
      && pushedRows == |offered| == droppedRows + drainedRows + |rows| && drainedRows == |drained|
      && nextRowSequenceId == |issued| + 1 && latestRowSequenceId == |issued|
      && Story(overflowPolicy, maxQueuedRows, rows, offered, issued, drained)
    }

    constructor (capacity: nat, policy: OverflowPolicy)
      ensures Valid() && maxQueuedRows == capacity && overflowPolicy == policy && rows == [] && offered == []
    {
      maxQueuedRows, overflowPolicy, rows := capacity, policy, [];
      pushedRows, drainedRows, droppedRows, latestRowSequenceId, nextRowSequenceId := 0, 0, 0, 0, 1;
      offered, issued, drained := [], [], [];
    }

    method SetConfig(capacity: nat, policy: OverflowPolicy)
      modifies this
      ensures Valid() && maxQueuedRows == capacity && overflowPolicy == policy && rows == [] && offered == [] && pushedRows == 0
    {
      maxQueuedRows, overflowPolicy, rows := capacity, policy, [];
      pushedRows, drainedRows, droppedRows, latestRowSequenceId, nextRowSequenceId := 0, 0, 0, 0, 1;
      offered, issued, drained := [], [], [];
    }

    /** One row into the queue, making room or giving up as the policy says. */
    method PushRow(row: T) returns (queued: bool, dropped: bool)
      requires Valid()
      modifies this
      ensures Valid() && maxQueuedRows == old(maxQueuedRows) && overflowPolicy == old(overflowPolicy) && drained == old(drained)
      ensures offered == old(offered) + [row]
      ensures queued == (maxQueuedRows > 0 && (|old(rows)| < maxQueuedRows || overflowPolicy == DropOldest))
      ensures dropped == (|old(rows)| >= maxQueuedRows)
      ensures if !queued then rows == old(rows)
              else rows == Last(old(rows), Min(|old(rows)|, maxQueuedRows - 1)) + [QueuedRow(old(nextRowSequenceId), row)]
      ensures nextRowSequenceId == old(nextRowSequenceId) + if queued then 1 else 0
    {
      hide Story, RowsIn, Last;
      LastAll(rows);
      pushedRows := pushedRows + 1;
      dropped := false;
      if maxQueuedRows == 0 {
        StoryRefused(overflowPolicy, maxQueuedRows, rows, offered, issued, drained, row);
        droppedRows := droppedRows + 1;
        offered := offered + [row];
        return false, true;
      }
      if |rows| >= maxQueuedRows {
        droppedRows := droppedRows + 1;
        dropped := true;
        if overflowPolicy != DropOldest {
          StoryRefused(overflowPolicy, maxQueuedRows, rows, offered, issued, drained, row);
          offered := offered + [row];
          return false, true;
        }
        rows := rows[1..];
      }
      assert rows == Last(old(rows), Min(|old(rows)|, maxQueuedRows - 1));
      StoryQueued(overflowPolicy, maxQueuedRows, old(rows), offered, issued, drained, row, Min(|old(rows)|, maxQueuedRows - 1));
      var entry := QueuedRow(nextRowSequenceId, row);
      nextRowSequenceId := nextRowSequenceId + 1;
      latestRowSequenceId := entry.sequenceId;
      rows := rows + [entry];
      issued := issued + [entry];
      offered := offered + [row];
      queued := true;
    }

    method PushRows(batch: seq<T>) returns (result: Pushed)
      requires Valid()
      modifies this
      ensures Valid() && maxQueuedRows == old(maxQueuedRows) && overflowPolicy == old(overflowPolicy) && drained == old(drained)
      ensures offered == old(offered) + batch
      ensures result == Pushed(|batch|, nextRowSequenceId - old(nextRowSequenceId), droppedRows - old(droppedRows), |rows|, latestRowSequenceId)
      ensures RowsIn(rows) == Kept(overflowPolicy, maxQueuedRows, RowsIn(old(rows)), batch)
    {
      hide Story, Kept;
      var first, before := nextRowSequenceId, droppedRows;
      ghost var start := RowsIn(rows);
      KeptNothing(overflowPolicy, maxQueuedRows, start);
      assert batch[..0] == [];
      for i := 0 to |batch|
        invariant Valid() && maxQueuedRows == old(maxQueuedRows) && overflowPolicy == old(overflowPolicy) && drained == old(drained)
        invariant offered == old(offered) + batch[..i]
        invariant RowsIn(rows) == Kept(overflowPolicy, maxQueuedRows, start, batch[..i])
      {
        assert batch[..i + 1] == batch[..i] + [batch[i]];
        KeptSnoc(overflowPolicy, maxQueuedRows, start, batch[..i], batch[i]);
        ghost var was := rows;
        var queued, dropped := PushRow(batch[i]);
        if queued {
          AppendedRows(was, Min(|was|, maxQueuedRows - 1), QueuedRow(nextRowSequenceId - 1, batch[i]));
        }
      }
      assert batch[..|batch|] == batch;
      result := Pushed(|batch|, nextRowSequenceId - first, droppedRows - before, |rows|, latestRowSequenceId);
    }

    method Drain(maxRows: nat) returns (out: seq<QueuedRow<T>>)
      requires Valid()
      modifies this
      ensures Valid() && maxQueuedRows == old(maxQueuedRows) && overflowPolicy == old(overflowPolicy)
      ensures offered == old(offered) && issued == old(issued)
      ensures |out| == Min(maxRows, |old(rows)|) && out + rows == old(rows) && drained == old(drained) + out
    {
      hide Story;
      var count := if maxRows < |rows| then maxRows else |rows|;
      out := [];
      for i := 0 to count
        invariant |out| == i && out == old(rows)[..i] && rows == old(rows)[i..]
        invariant unchanged(`maxQueuedRows) && unchanged(`overflowPolicy) && unchanged(`offered) && unchanged(`issued)
        invariant unchanged(`drained) && unchanged(`drainedRows) && unchanged(`pushedRows) && unchanged(`droppedRows)
        invariant unchanged(`nextRowSequenceId) && unchanged(`latestRowSequenceId)
      {
        out := out + [rows[0]];
        rows := rows[1..];
      }
      StoryDrained(overflowPolicy, maxQueuedRows, old(rows), offered, issued, drained, count);
      drainedRows := drainedRows + |out|;
      drained := drained + out;
      assert out + rows == old(rows);
    }
  }

  lemma AppendedRows<T>(q: seq<QueuedRow<T>>, n: nat, entry: QueuedRow<T>)
    requires n <= |q|
    ensures RowsIn(Last(q, n) + [entry]) == Last(RowsIn(q), n) + [entry.row]
  {
  }

  /** What Valid means for a reader: consecutive ids ending at the latest one, and no gap in what was drained when the
      newest rows are the ones dropped. */
  lemma DrainedWithoutGaps<T>(drained: seq<QueuedRow<T>>, rows: seq<QueuedRow<T>>, issued: seq<QueuedRow<T>>)
    requires drained + rows == issued && forall i :: 0 <= i < |issued| ==> issued[i].sequenceId == i + 1
    ensures forall i :: 0 <= i < |drained| ==> drained[i].sequenceId == i + 1
    ensures forall i :: 0 <= i < |rows| ==> rows[i].sequenceId == |drained| + i + 1
  {
    assert forall i :: 0 <= i < |drained| ==> drained[i] == issued[i];
    assert forall i :: 0 <= i < |rows| ==> rows[i] == issued[|drained| + i];
  }
}
