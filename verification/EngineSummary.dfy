/** The engine's summary: per-(band, beam) counts and maxima over all completed blocks, whatever the order in which
    the stage workers complete them. */
module EngineSummary {
  import opened Common

  datatype Key = Key(band: int, beam: int)
  datatype Sample = Sample(index: nat, key: Key, amplitude: int)

  /** A block's samples and the index bounds its metadata gives. */
  datatype Block = Block(samples: seq<Sample>, firstIndex: nat, lastIndex: nat)

  datatype Entry = Entry(key: Key, count: nat, maxAmplitude: int)
  datatype Accounting = Accounting(sampleCount: nat, first: nat, last: nat, hasSamples: bool, entries: seq<Entry>)

  // ---- what the numbers mean ---------------------------------------------------------------------

  function KeysOf(xs: seq<Sample>): (r: seq<Key>)
    ensures |r| == |xs| && forall i :: 0 <= i < |xs| ==> r[i] == xs[i].key
  {
    seq(|xs|, i requires 0 <= i < |xs| => xs[i].key)
  }

  function Count(xs: seq<Sample>, key: Key): nat { multiset(KeysOf(xs))[key] }

  /** Largest amplitude of a key, with the zero every maximum starts from. */
  function Peak(xs: seq<Sample>, key: Key): (r: int)
    ensures r >= 0
  {
    if xs == [] then 0
    else
      var x := xs[|xs| - 1];
      var rest := Peak(xs[..|xs| - 1], key);
      if x.key == key then Max(rest, x.amplitude) else rest
  }

  /** The peak bounds every amplitude of its key and zero, and is one of them. */
  lemma {:induction false} PeakIsLargest(xs: seq<Sample>, key: Key)
    ensures forall i :: 0 <= i < |xs| && xs[i].key == key ==> xs[i].amplitude <= Peak(xs, key)
    ensures Peak(xs, key) == 0 || exists i :: 0 <= i < |xs| && xs[i].key == key && xs[i].amplitude == Peak(xs, key)
  {
    if xs != [] {
      var front := xs[..|xs| - 1];
      PeakIsLargest(front, key);
      assert forall i :: 0 <= i < |front| ==> front[i] == xs[i];
      if Peak(front, key) > 0 {
        var i :| 0 <= i < |front| && front[i].key == key && front[i].amplitude == Peak(front, key);
        assert xs[i].key == key && xs[i].amplitude == Peak(front, key);
      }
    }
  }

  function SmallestIndex(xs: seq<Sample>): nat
    requires xs != []
  {
    if |xs| == 1 then xs[0].index
    else
      var i, rest := xs[|xs| - 1].index, SmallestIndex(xs[..|xs| - 1]);
      if i < rest then i else rest
  }

  function LargestIndex(xs: seq<Sample>): nat
    requires xs != []
  {
    if |xs| == 1 then xs[0].index
    else
      var i, rest := xs[|xs| - 1].index, LargestIndex(xs[..|xs| - 1]);
      if i > rest then i else rest
  }

  function FirstOf(b: Block): nat { if b.samples == [] then b.firstIndex else SmallestIndex(b.samples) }
  function LastOf(b: Block): nat { if b.samples == [] then b.lastIndex else LargestIndex(b.samples) }

  /** All samples of the completed blocks, in completion order. */
  function AllSamples(blocks: seq<Block>): seq<Sample> {
    if blocks == [] then [] else AllSamples(blocks[..|blocks| - 1]) + blocks[|blocks| - 1].samples
  }

  /** One entry for each key that occurs, holding exactly its count and peak. */
  ghost predicate Describes(entries: seq<Entry>, xs: seq<Sample>) {
    && (forall i, j :: 0 <= i < j < |entries| ==> entries[i].key != entries[j].key)
    && (forall e :: e in entries ==> 0 < e.count == Count(xs, e.key) && e.maxAmplitude == Peak(xs, e.key))
    && (forall key :: Count(xs, key) > 0 ==> exists e :: e in entries && e.key == key)
  }

  lemma CountAppend(xs: seq<Sample>, ys: seq<Sample>, key: Key)
    ensures Count(xs + ys, key) == Count(xs, key) + Count(ys, key)
  {
    assert KeysOf(xs + ys) == KeysOf(xs) + KeysOf(ys);
  }

  lemma {:induction false} PeakAppend(xs: seq<Sample>, ys: seq<Sample>, key: Key)
    ensures Peak(xs + ys, key) == Max(Peak(xs, key), Peak(ys, key))
  {
    if ys == [] {
      assert xs + ys == xs;
    } else {
      PeakAppend(xs, ys[..|ys| - 1], key);
      assert (xs + ys)[..|xs + ys| - 1] == xs + ys[..|ys| - 1];
    }
  }

  lemma {:induction false} AbsentPeak(xs: seq<Sample>, key: Key)
    requires Count(xs, key) == 0
    ensures Peak(xs, key) == 0
  {
    if xs != [] {
      var front := xs[..|xs| - 1];
      assert xs == front + [xs[|xs| - 1]];
      CountAppend(front, [xs[|xs| - 1]], key);
      assert KeysOf([xs[|xs| - 1]]) == [xs[|xs| - 1].key];
      AbsentPeak(front, key);
    }
  }

  // ---- the sum of the counts ---------------------------------------------------------------------

  function TotalCount(entries: seq<Entry>): nat {
    if entries == [] then 0 else TotalCount(entries[..|entries| - 1]) + entries[|entries| - 1].count
  }

  lemma {:induction false} TotalIsSize(entries: seq<Entry>, m: multiset<Key>)
    requires forall i, j :: 0 <= i < j < |entries| ==> entries[i].key != entries[j].key
    requires forall e :: e in entries ==> e.count == m[e.key]
    requires forall key :: key in m ==> exists e :: e in entries && e.key == key
    ensures TotalCount(entries) == |m|
  {
    if entries == [] {
      assert m == multiset{};
    } else {
      var front, e := entries[..|entries| - 1], entries[|entries| - 1];
      var rest := m[e.key := 0];
      forall key | key in rest ensures exists f :: f in front && f.key == key {
        assert key in m && key != e.key;
        var f :| f in entries && f.key == key;
        assert entries == front + [e];
        assert f in front;
      }
      TotalIsSize(front, rest);
      assert |rest| == |m| - m[e.key];
    }
  }

  /** The counts of the entries add up to the number of samples. */
  lemma CountsAddUp(entries: seq<Entry>, xs: seq<Sample>)
    requires Describes(entries, xs)
    ensures TotalCount(entries) == |xs|
  {
    var m := multiset(KeysOf(xs));
    forall key | key in m ensures exists e :: e in entries && e.key == key { assert Count(xs, key) > 0; }
    TotalIsSize(entries, m);
    assert |m| == |KeysOf(xs)|;
  }

  // ---- order of completion -----------------------------------------------------------------------

  lemma {:induction false} AllSamplesWithout(blocks: seq<Block>, i: nat, key: Key)
    requires i < |blocks|
    ensures var rest := AllSamples(blocks[..i] + blocks[i + 1..]);
            && Count(AllSamples(blocks), key) == Count(rest, key) + Count(blocks[i].samples, key)
            && Peak(AllSamples(blocks), key) == Max(Peak(rest, key), Peak(blocks[i].samples, key))
            && |AllSamples(blocks)| == |rest| + |blocks[i].samples|
  {
    hide Count, Peak;
    var n := |blocks| - 1;
    var front, last := blocks[..n], blocks[n];
    CountAppend(AllSamples(front), last.samples, key);
    PeakAppend(AllSamples(front), last.samples, key);
    if i == n {
      assert blocks[..i] + blocks[i + 1..] == front;
    } else {
      AllSamplesWithout(front, i, key);
      var without := blocks[..i] + blocks[i + 1..];
      assert without[..|without| - 1] == front[..i] + front[i + 1..];
      var rest := AllSamples(front[..i] + front[i + 1..]);
      CountAppend(rest, last.samples, key);
      PeakAppend(rest, last.samples, key);
    }
  }

  lemma LastIsElsewhere(xs: seq<Block>, ys: seq<Block>) returns (i: nat)
    requires multiset(xs) == multiset(ys) && xs != []
    ensures i < |ys| && ys[i] == xs[|xs| - 1]
    ensures multiset(ys[..i] + ys[i + 1..]) == multiset(xs[..|xs| - 1])
  {
    var x := xs[|xs| - 1];
    assert x in multiset(ys);
    i :| 0 <= i < |ys| && ys[i] == x;
    assert xs == xs[..|xs| - 1] + [x];
    assert multiset(xs) == multiset(xs[..|xs| - 1]) + multiset{x};
    assert ys == ys[..i] + ([x] + ys[i + 1..]);
    assert multiset(ys) == multiset(ys[..i]) + (multiset{x} + multiset(ys[i + 1..]));
    assert multiset(ys[..i] + ys[i + 1..]) == multiset(ys[..i]) + multiset(ys[i + 1..]);
    assert multiset(ys[..i]) + multiset(ys[i + 1..]) == multiset(ys) - multiset{x};
    assert multiset(xs[..|xs| - 1]) == multiset(xs) - multiset{x};
  }

  /** Completing the same blocks in another order leaves every count, peak and total the same. */
  lemma {:induction false} OrderDoesNotMatter(xs: seq<Block>, ys: seq<Block>, key: Key)
    requires multiset(xs) == multiset(ys)
    ensures Count(AllSamples(xs), key) == Count(AllSamples(ys), key)
    ensures Peak(AllSamples(xs), key) == Peak(AllSamples(ys), key)
    ensures |AllSamples(xs)| == |AllSamples(ys)|
    decreases |xs|
  {
    hide Count, Peak, AllSamples;
    if xs == [] {
      assert |multiset(ys)| == |ys| && ys == [];
    } else {
      var i := LastIsElsewhere(xs, ys);
      var n := |xs| - 1;
      OrderDoesNotMatter(xs[..n], ys[..i] + ys[i + 1..], key);
      AllSamplesWithout(ys, i, key);
      AllSamplesWithout(xs, n, key);
      assert xs[..n] + xs[n + 1..] == xs[..n];
    }
  }

  /** Two descriptions of the same blocks in different orders have the same entries, perhaps listed differently. */
  lemma SummariesAgree(entries: seq<Entry>, xs: seq<Block>, others: seq<Entry>, ys: seq<Block>)
    requires Describes(entries, AllSamples(xs)) && Describes(others, AllSamples(ys)) && multiset(xs) == multiset(ys)
    ensures forall e :: e in entries <==> e in others
  {
    forall e | e in entries ensures e in others {
      OrderDoesNotMatter(xs, ys, e.key);
      var f :| f in others && f.key == e.key;
      assert f == e;
    }
    forall e | e in others ensures e in entries {
      OrderDoesNotMatter(xs, ys, e.key);
      var f :| f in entries && f.key == e.key;
      assert f == e;
    }
  }

  // ---- the imperative code -----------------------------------------------------------------------

  ghost predicate Accounts(a: Accounting, b: Block) {
    && a.sampleCount == |b.samples| && a.hasSamples == (b.samples != [])
    && a.first == FirstOf(b) && a.last == LastOf(b)
    && Describes(a.entries, b.samples)
  }

  /** The map that makeBlockAccounting fills holds exactly the count and peak of each key seen. */
  ghost predicate MapDescribes(m: map<Key, Entry>, xs: seq<Sample>) {
    && (forall key :: key in m <==> Count(xs, key) > 0)
    && (forall key :: key in m ==> m[key] == Entry(key, Count(xs, key), Peak(xs, key)))
  }

  lemma IndexBoundsSnoc(xs: seq<Sample>, s: Sample)
    ensures SmallestIndex(xs + [s]) == if xs != [] && SmallestIndex(xs) <= s.index then SmallestIndex(xs) else s.index
    ensures LargestIndex(xs + [s]) == if xs != [] && s.index <= LargestIndex(xs) then LargestIndex(xs) else s.index
  {
    assert (xs + [s])[..|xs|] == xs;
  }

  /** Counting one more sample in. */
  lemma MapDescribesSnoc(m: map<Key, Entry>, xs: seq<Sample>, s: Sample)
    requires MapDescribes(m, xs)
    ensures var soFar := if s.key in m then m[s.key] else Entry(s.key, 0, 0);
            MapDescribes(m[s.key := Entry(s.key, soFar.count + 1, Max(soFar.maxAmplitude, s.amplitude))], xs + [s])
  {
    if s.key !in m { AbsentPeak(xs, s.key); }
    assert (xs + [s])[..|xs|] == xs;
    forall key
      ensures Count(xs + [s], key) == Count(xs, key) + (if key == s.key then 1 else 0)
    {
      CountAppend(xs, [s], key);
      assert KeysOf([s]) == [s.key];
    }
    hide Count;
  }

  method MakeBlockAccounting(block: Block) returns (a: Accounting)
    ensures Accounts(a, block)
  {
    var first, last, hasSamples := block.firstIndex, block.lastIndex, false;
    var aggregates: map<Key, Entry> := map[];
    assert MapDescribes(aggregates, []);
    hide MapDescribes, Describes, SmallestIndex, LargestIndex;
    for i := 0 to |block.samples|
      invariant hasSamples == (i > 0)
      invariant i == 0 ==> first == block.firstIndex && last == block.lastIndex
      invariant i > 0 ==> first == SmallestIndex(block.samples[..i]) && last == LargestIndex(block.samples[..i])
      invariant MapDescribes(aggregates, block.samples[..i])
    {
      var sample := block.samples[i];
      assert block.samples[..i + 1][..i] == block.samples[..i];
      assert block.samples[..i + 1] == block.samples[..i] + [sample];
      if !hasSamples {
        first, last, hasSamples := sample.index, sample.index, true;
      } else {
        first := if sample.index < first then sample.index else first;
        last := if last < sample.index then sample.index else last;
      }
      IndexBoundsSnoc(block.samples[..i], sample);
      MapDescribesSnoc(aggregates, block.samples[..i], sample);
      var soFar := if sample.key in aggregates then aggregates[sample.key] else Entry(sample.key, 0, 0);
      aggregates := aggregates[sample.key := Entry(sample.key, soFar.count + 1, Max(soFar.maxAmplitude, sample.amplitude))];
    }
    assert block.samples[..|block.samples|] == block.samples;
    var entries := ListEntries(aggregates, block.samples);
    a := Accounting(|block.samples|, first, last, hasSamples, entries);
  }

  /** The map's values as a vector; the order in which the map is walked is left open. */
  method ListEntries(m: map<Key, Entry>, ghost xs: seq<Sample>) returns (entries: seq<Entry>)
    requires MapDescribes(m, xs)
    ensures Describes(entries, xs)
  {
    entries := [];
    var keys := m.Keys;
    while keys != {}
      invariant keys <= m.Keys
      invariant forall e :: e in entries ==> e.key in m && e.key !in keys && m[e.key] == e
      invariant forall i, j :: 0 <= i < j < |entries| ==> entries[i].key != entries[j].key
      invariant forall key :: key in m && key !in keys ==> m[key] in entries
      decreases |keys|
    {
      var key :| key in keys;
      entries := entries + [m[key]];
      keys := keys - {key};
    }
    forall key | Count(xs, key) > 0 ensures exists e :: e in entries && e.key == key { assert m[key] in entries; }
  }

  /** m_summary under m_mutex. */
  class Summary {
    var processedBlocks: nat
    var processedSamples: nat
    var firstSampleIndex: nat
    var lastSampleIndex: nat
    var entries: seq<Entry>
    ghost var completed: seq<Block>

    /** The summary of the completed blocks, computed directly. */
    ghost predicate Valid()
      reads this
    {
      && processedBlocks == |completed|
      && processedSamples == |AllSamples(completed)| == TotalCount(entries)
      && Describes(entries, AllSamples(completed))
      && (completed != [] ==> firstSampleIndex == EarliestOf(completed) && lastSampleIndex == LatestOf(completed))
    }

    constructor ()
      ensures Valid() && completed == [] && entries == []
      ensures processedBlocks == processedSamples == firstSampleIndex == lastSampleIndex == 0
    {
      processedBlocks, processedSamples, firstSampleIndex, lastSampleIndex := 0, 0, 0, 0;
      entries, completed := [], [];
    }

    /** The block's first and last sample index, or its metadata's when it is empty, widen the bounds. */
    method WidenBounds(a: Accounting, ghost block: Block)
      requires processedBlocks == |completed| + 1 && Accounts(a, block)
      requires completed != [] ==> firstSampleIndex == EarliestOf(completed) && lastSampleIndex == LatestOf(completed)
      modifies this`firstSampleIndex, this`lastSampleIndex
      ensures firstSampleIndex == EarliestOf(completed + [block]) && lastSampleIndex == LatestOf(completed + [block])
    {
      hide Describes, FirstOf, LastOf;
      assert (completed + [block])[..|completed|] == completed;
      if a.hasSamples || a.sampleCount == 0 {
        if processedBlocks == 1 {
          firstSampleIndex, lastSampleIndex := a.first, a.last;
        } else {
          firstSampleIndex := if a.first < firstSampleIndex then a.first else firstSampleIndex;
          lastSampleIndex := if lastSampleIndex < a.last then a.last else lastSampleIndex;
        }
      }
    }

    method RecordBlockCompleted(a: Accounting, ghost block: Block)
      requires Valid() && Accounts(a, block)
      modifies this
      ensures Valid() && completed == old(completed) + [block]
    {
      hide Merged, Describes, TotalCount, FirstOf, LastOf, Count, Peak, SmallestIndex, LargestIndex, EarliestOf, LatestOf;
      ghost var before := AllSamples(completed);
      assert Merged(entries, before, []) by { NothingMerged(entries, before); }
      assert a.entries[..0] == [];
      assert (completed + [block])[..|completed|] == completed;
      processedBlocks := processedBlocks + 1;
      processedSamples := processedSamples + a.sampleCount;
      WidenBounds(a, block);
      for i := 0 to |a.entries|
        invariant processedBlocks == |completed| + 1 && processedSamples == |before| + |block.samples| && completed == old(completed)
        invariant firstSampleIndex == EarliestOf(completed + [block]) && lastSampleIndex == LatestOf(completed + [block])
        invariant Merged(entries, before, a.entries[..i])
      {
        NextEntryIsNew(a.entries, i, block.samples);
        entries := MergeEntry(entries, a.entries[i], before, a.entries[..i]);
      }
      assert a.entries[..|a.entries|] == a.entries;
      completed := completed + [block];
      MergedDescribes(entries, before, a.entries, block.samples);
      CountsAddUp(entries, AllSamples(completed));
    }
  }

  function EarliestOf(blocks: seq<Block>): nat
    requires blocks != []
  {
    var f := FirstOf(blocks[|blocks| - 1]);
    if |blocks| == 1 then f else var rest := EarliestOf(blocks[..|blocks| - 1]); if f < rest then f else rest
  }

  function LatestOf(blocks: seq<Block>): nat
    requires blocks != []
  {
    var l := LastOf(blocks[|blocks| - 1]);
    if |blocks| == 1 then l else var rest := LatestOf(blocks[..|blocks| - 1]); if rest < l then l else rest
  }

  /** A block's own bounds: attained by its samples, or those its metadata gives when it has none. */
  lemma {:induction false} BlockBounds(b: Block)
    ensures b.samples == [] ==> FirstOf(b) == b.firstIndex && LastOf(b) == b.lastIndex
    ensures forall i :: 0 <= i < |b.samples| ==> FirstOf(b) <= b.samples[i].index <= LastOf(b)
    ensures b.samples != [] ==>
              && (exists i :: 0 <= i < |b.samples| && b.samples[i].index == FirstOf(b))
              && (exists i :: 0 <= i < |b.samples| && b.samples[i].index == LastOf(b))
    decreases |b.samples|
  {
    if |b.samples| == 1 {
      assert b.samples[0].index == FirstOf(b) == LastOf(b);
    } else if |b.samples| > 1 {
      var front, last := b.(samples := b.samples[..|b.samples| - 1]), |b.samples| - 1;
      BlockBounds(front);
      var i :| 0 <= i < |front.samples| && front.samples[i].index == FirstOf(front);
      var j :| 0 <= j < |front.samples| && front.samples[j].index == LastOf(front);
      assert b.samples[i].index == FirstOf(b) || b.samples[last].index == FirstOf(b);
      assert b.samples[j].index == LastOf(b) || b.samples[last].index == LastOf(b);
      forall k | 0 <= k < |b.samples| ensures FirstOf(b) <= b.samples[k].index <= LastOf(b) {
        if k < last { assert b.samples[k] == front.samples[k]; }
      }
    }
  }

  /** The summary's bounds are those of some completed block, and no completed block reaches beyond them. */
  lemma {:induction false} BoundsAreAttained(blocks: seq<Block>)
    requires blocks != []
    ensures forall b :: b in blocks ==> EarliestOf(blocks) <= FirstOf(b) && LastOf(b) <= LatestOf(blocks)
    ensures exists b :: b in blocks && FirstOf(b) == EarliestOf(blocks)
    ensures exists b :: b in blocks && LastOf(b) == LatestOf(blocks)
  {
    hide FirstOf, LastOf;
    var front, last := blocks[..|blocks| - 1], blocks[|blocks| - 1];
    assert last in blocks && blocks == front + [last];
    if front != [] { BoundsAreAttained(front); }
  }

  /** So the bounds do not depend on the order of completion either. */
  lemma BoundsIgnoreOrder(xs: seq<Block>, ys: seq<Block>)
    requires multiset(xs) == multiset(ys) && xs != [] && ys != []
    ensures EarliestOf(xs) == EarliestOf(ys) && LatestOf(xs) == LatestOf(ys)
  {
    hide FirstOf, LastOf, EarliestOf, LatestOf;
    BoundsAreAttained(xs);
    BoundsAreAttained(ys);
    assert forall b :: b in xs <==> b in multiset(xs);
    assert forall b :: b in ys <==> b in multiset(ys);
  }

  /** What the merged prefix of a block's entries adds to a key. */
  function CountIn(es: seq<Entry>, key: Key): nat {
    if es == [] then 0
    else if es[|es| - 1].key == key then es[|es| - 1].count else CountIn(es[..|es| - 1], key)
  }

  function PeakIn(es: seq<Entry>, key: Key): int {
    if es == [] then 0
    else if es[|es| - 1].key == key then es[|es| - 1].maxAmplitude else PeakIn(es[..|es| - 1], key)
  }

  ghost predicate DistinctKeys(entries: seq<Entry>) { forall i, j :: 0 <= i < j < |entries| ==> entries[i].key != entries[j].key }

  /** An entry's count and maximum are those of the earlier samples and the merged entries together. */
  ghost predicate ValueOk(e: Entry, before: seq<Sample>, es: seq<Entry>) {
    0 < e.count == Count(before, e.key) + CountIn(es, e.key) && e.maxAmplitude == Max(Peak(before, e.key), PeakIn(es, e.key))
  }

  ghost predicate Covers(entries: seq<Entry>, before: seq<Sample>, es: seq<Entry>) {
    forall key :: Count(before, key) > 0 || CountIn(es, key) > 0 ==> exists e :: e in entries && e.key == key
  }

  /** The list after the first of a block's entries were merged into the description of the earlier samples. */
  ghost predicate Merged(entries: seq<Entry>, before: seq<Sample>, es: seq<Entry>) {
    DistinctKeys(entries) && (forall e :: e in entries ==> ValueOk(e, before, es)) && Covers(entries, before, es)
  }

  lemma InAppended(es: seq<Entry>, value: Entry, key: Key)
    ensures CountIn(es + [value], key) == if key == value.key then value.count else CountIn(es, key)
    ensures PeakIn(es + [value], key) == if key == value.key then value.maxAmplitude else PeakIn(es, key)
  {
    assert (es + [value])[..|es|] == es;
  }

  /** The list with a value added under its key, at the key's place or at the end. */
  ghost predicate AddsAt(entries: seq<Entry>, r: seq<Entry>, at: nat, value: Entry) {
    && at <= |entries| && (forall i :: 0 <= i < at ==> entries[i].key != value.key)
    && if at == |entries| then r == entries + [value]
       else entries[at].key == value.key
            && r == entries[at := Entry(value.key, entries[at].count + value.count, Max(entries[at].maxAmplitude, value.maxAmplitude))]
  }

  lemma KeysStayDistinct(entries: seq<Entry>, r: seq<Entry>, at: nat, value: Entry)
    requires DistinctKeys(entries) && AddsAt(entries, r, at, value)
    ensures DistinctKeys(r)
  {
  }

  lemma ValuesAdded(entries: seq<Entry>, r: seq<Entry>, at: nat, value: Entry, before: seq<Sample>, es: seq<Entry>)
    requires Merged(entries, before, es) && AddsAt(entries, r, at, value) && value.count > 0 && value.maxAmplitude >= 0
    requires CountIn(es, value.key) == 0 && PeakIn(es, value.key) == 0
    ensures forall e :: e in r ==> ValueOk(e, before, es + [value])
  {
    hide Count, Peak, CountIn, PeakIn;
    forall i | 0 <= i < |r| ensures ValueOk(r[i], before, es + [value]) {
      InAppended(es, value, r[i].key);
      if i < |entries| {
        assert entries[i] in entries;
        assert ValueOk(entries[i], before, es);
      } else {
        assert Count(before, value.key) == 0;
        AbsentPeak(before, value.key);
      }
    }
  }

  lemma KeysStayCovered(entries: seq<Entry>, r: seq<Entry>, at: nat, value: Entry, before: seq<Sample>, es: seq<Entry>)
    requires Covers(entries, before, es) && AddsAt(entries, r, at, value)
    ensures Covers(r, before, es + [value])
  {
    hide Count, CountIn;
    forall key | Count(before, key) > 0 || CountIn(es + [value], key) > 0 ensures exists e :: e in r && e.key == key {
      if key == value.key {
        assert r[at] in r;
      } else {
        InAppended(es, value, key);
        var e :| e in entries && e.key == key;
        var i :| 0 <= i < |entries| && entries[i] == e;
        assert r[i] in r;
      }
    }
  }

  /** Adding a value under its key, at the key's place or at the end, extends the description. */
  lemma MergeExtends(entries: seq<Entry>, r: seq<Entry>, at: nat, value: Entry, before: seq<Sample>, es: seq<Entry>)
    requires Merged(entries, before, es) && value.count > 0 && value.maxAmplitude >= 0
    requires CountIn(es, value.key) == 0 && PeakIn(es, value.key) == 0 && AddsAt(entries, r, at, value)
    ensures Merged(r, before, es + [value])
  {
    hide DistinctKeys, ValueOk, Covers, AddsAt;
    KeysStayDistinct(entries, r, at, value);
    ValuesAdded(entries, r, at, value, before, es);
    KeysStayCovered(entries, r, at, value, before, es);
  }

  lemma NothingMerged(entries: seq<Entry>, xs: seq<Sample>)
    requires Describes(entries, xs)
    ensures Merged(entries, xs, [])
  {
    hide Count, Peak;
  }

  /** find_if, then add and take the maximum in place, or append. */
  method MergeEntry(entries: seq<Entry>, value: Entry, ghost before: seq<Sample>, ghost es: seq<Entry>) returns (r: seq<Entry>)
    requires Merged(entries, before, es) && value.count > 0 && value.maxAmplitude >= 0
    requires CountIn(es, value.key) == 0 && PeakIn(es, value.key) == 0
    ensures Merged(r, before, es + [value])
  {
    hide Merged;
    var found := 0;
    while found < |entries| && entries[found].key != value.key
      invariant found <= |entries| && forall i :: 0 <= i < found ==> entries[i].key != value.key
    {
      found := found + 1;
    }
    if found == |entries| {
      r := entries + [value];
    } else {
      var e := entries[found];
      r := entries[found := Entry(e.key, e.count + value.count, Max(e.maxAmplitude, value.maxAmplitude))];
    }
    MergeExtends(entries, r, found, value, before, es);
  }

  lemma NextEntryIsNew(es: seq<Entry>, i: nat, xs: seq<Sample>)
    requires Describes(es, xs) && i < |es|
    ensures es[i].count > 0 && es[i].maxAmplitude >= 0
    ensures CountIn(es[..i], es[i].key) == 0 && PeakIn(es[..i], es[i].key) == 0
    ensures es[..i + 1] == es[..i] + [es[i]]
  {
    InIsCount(es[..i], es[i].key);
    assert es[i] in es;
  }

  lemma {:induction false} InIsCount(es: seq<Entry>, key: Key)
    requires forall i, j :: 0 <= i < j < |es| ==> es[i].key != es[j].key
    ensures forall e :: e in es && e.key == key ==> CountIn(es, key) == e.count && PeakIn(es, key) == e.maxAmplitude
    ensures (forall e :: e in es ==> e.key != key) ==> CountIn(es, key) == 0 && PeakIn(es, key) == 0
  {
    if es != [] {
      var front := es[..|es| - 1];
      assert es == front + [es[|es| - 1]];
      InIsCount(front, key);
    }
  }

  /** Merging a whole block's entries describes the samples of both. */
  lemma MergedDescribes(entries: seq<Entry>, before: seq<Sample>, es: seq<Entry>, xs: seq<Sample>)
    requires Merged(entries, before, es) && Describes(es, xs)
    ensures Describes(entries, before + xs)
  {
    hide Count, Peak;
    forall key
      ensures Count(before + xs, key) == Count(before, key) + CountIn(es, key)
      ensures Peak(before + xs, key) == Max(Peak(before, key), PeakIn(es, key))
    {
      CountAppend(before, xs, key);
      PeakAppend(before, xs, key);
      InIsCount(es, key);
      if Count(xs, key) == 0 { AbsentPeak(xs, key); }
    }
  }
}