/** The waterfall aggregator: one row per time bucket, built in place, equal to grouping the stream by bucket. */
module WaterfallAggregation {
  import opened Common
  import opened Division
  import opened FrequencyBins
  import opened WindowGroups

  datatype Sample = Sample(sampleIndex: U64, frequencyHz: I64, beamIndex: int, amplitude: int)

  datatype Config = Config(bins: Band, rowPeriodNs: U64, amplitudeFloor: int,
                           recordingStartUtcNs: I64, firstSampleIndex: U64, samplePeriodNs: U64)

  datatype Cell = Cell(beam0Peak: U16, beam1Peak: U16, hitCount: U16)

  datatype Row = Row(utcNs: I64, firstSampleIndex: U64, lastSampleIndex: U64, cells: seq<Cell>)

  datatype Counters = Counters(consumedBlocks: nat, consumedSamples: nat, producedRows: nat,
                               invalidFrequency: nat, outOfRange: nat, emptyBlocks: nat)
  {
    function Plus(d: Counters): Counters {
      Counters(consumedBlocks + d.consumedBlocks, consumedSamples + d.consumedSamples, producedRows + d.producedRows,
               invalidFrequency + d.invalidFrequency, outOfRange + d.outOfRange, emptyBlocks + d.emptyBlocks)
    }
  }

  const NO_COUNTS := Counters(0, 0, 0, 0, 0, 0)

  // ---- per sample --------------------------------------------------------------------------------

  function BucketForSample(cfg: Config, s: U64): Option<nat> {
    if cfg.rowPeriodNs == 0 || cfg.samplePeriodNs == 0 || s < cfg.firstSampleIndex then None
    else
      var relativeNs := (s - cfg.firstSampleIndex) * cfg.samplePeriodNs;
      QuotientMonotone(0, relativeNs, cfg.rowPeriodNs);
      assert relativeNs >= 0;
      var bucket := relativeNs / cfg.rowPeriodNs;
      if bucket > U64_MAX then None else Some(bucket)
  }

  /** A sample's bucket is the row period its time since the first sample falls into; it has none exactly before the
      first sample, without periods, or past 64 bits. */
  lemma BucketIsExact(cfg: Config, s: U64)
    ensures var t, p := (s - cfg.firstSampleIndex) * cfg.samplePeriodNs, cfg.rowPeriodNs;
            && (BucketForSample(cfg, s).Some? <==>
                  p > 0 && cfg.samplePeriodNs > 0 && s >= cfg.firstSampleIndex && t < (U64_MAX + 1) * p)
            && (BucketForSample(cfg, s).Some? ==> var b := BucketForSample(cfg, s).value; b * p <= t < (b + 1) * p)
  {
    if cfg.rowPeriodNs > 0 && cfg.samplePeriodNs > 0 && s >= cfg.firstSampleIndex {
      var t := (s - cfg.firstSampleIndex) * cfg.samplePeriodNs;
      QuotientBounds(t, cfg.rowPeriodNs);
      QuotientAtLeast(t, cfg.rowPeriodNs, U64_MAX + 1);
    }
  }

  /** Saturates at the largest representable time. */
  function UtcNsForBucket(cfg: Config, bucket: nat): I64 {
    var offset := bucket * cfg.rowPeriodNs;
    if offset > I64_MAX - Max(0, cfg.recordingStartUtcNs) then I64_MAX
    else assert offset >= 0; cfg.recordingStartUtcNs + offset
  }

  /** The time of a bucket is exact, or the largest int64: past that, or, for a negative start, when already the offset is. */
  lemma UtcSaturates(cfg: Config, bucket: nat)
    ensures var exact := cfg.recordingStartUtcNs + bucket * cfg.rowPeriodNs;
            && (cfg.recordingStartUtcNs >= 0 ==> UtcNsForBucket(cfg, bucket) == Min(I64_MAX, exact))
            && (cfg.recordingStartUtcNs < 0 ==>
                  UtcNsForBucket(cfg, bucket) == if bucket * cfg.rowPeriodNs <= I64_MAX then exact else I64_MAX)
  {
  }

  datatype Verdict = Invalid | OutOfRange | Quiet | Kept(bucket: nat, bin: nat)

  function Judge(cfg: Config, s: Sample): Verdict {
    var bucket := BucketForSample(cfg, s.sampleIndex);
    var bin := BinForFrequency(cfg.bins, s.frequencyHz);
    if bucket.None? then Invalid
    else if bin < 0 then
      if s.frequencyHz <= 0 || cfg.bins.maxHz <= cfg.bins.minHz then Invalid else OutOfRange
    else if s.amplitude < cfg.amplitudeFloor then Quiet
    else Kept(bucket.value, bin)
  }

  /** A sample is kept in a bucket and a bin exactly when its time is in the row period, its frequency in the bin and its
      amplitude at the floor; the other verdicts say what it misses. */
  lemma KeptExactly(cfg: Config, s: Sample, bucket: nat, bin: nat)
    requires cfg.rowPeriodNs > 0 && cfg.samplePeriodNs > 0 && cfg.bins.binCount >= 1 && cfg.bins.maxHz > cfg.bins.minHz
    ensures var t := (s.sampleIndex - cfg.firstSampleIndex) * cfg.samplePeriodNs;
            var timed := s.sampleIndex >= cfg.firstSampleIndex && t < (U64_MAX + 1) * cfg.rowPeriodNs;
            var inRange := cfg.bins.minHz <= s.frequencyHz <= cfg.bins.maxHz;
            && (Judge(cfg, s) == Kept(bucket, bin) <==>
                  && timed && bucket * cfg.rowPeriodNs <= t < (bucket + 1) * cfg.rowPeriodNs
                  && inRange && InBin(cfg.bins, s.frequencyHz, bin) && s.amplitude >= cfg.amplitudeFloor)
            && (Judge(cfg, s).Quiet? <==> timed && inRange && s.amplitude < cfg.amplitudeFloor)
            && (Judge(cfg, s).OutOfRange? <==> timed && !inRange && s.frequencyHz > 0)
            && (Judge(cfg, s).Invalid? <==> !timed || (!inRange && s.frequencyHz <= 0))
  {
    BucketIsExact(cfg, s.sampleIndex);
    BinMeans(cfg.bins, s.frequencyHz, bin);
    BinMeans(cfg.bins, s.frequencyHz, 0);
    hide BucketForSample, BinForFrequency, InBin;
    var t := (s.sampleIndex - cfg.firstSampleIndex) * cfg.samplePeriodNs;
    if BucketForSample(cfg, s.sampleIndex).Some? && bucket * cfg.rowPeriodNs <= t < (bucket + 1) * cfg.rowPeriodNs {
      QuotientUnique(t, cfg.rowPeriodNs, bucket);
      QuotientUnique(t, cfg.rowPeriodNs, BucketForSample(cfg, s.sampleIndex).value);
    }
  }

  /** Without periods, bins or a range nothing is kept, and only missing bins alone call a positive frequency out of range. */
  lemma UnusableKeepsNothing(cfg: Config, s: Sample)
    requires cfg.rowPeriodNs == 0 || cfg.samplePeriodNs == 0 || cfg.bins.binCount <= 0 || cfg.bins.maxHz <= cfg.bins.minHz
    ensures !Judge(cfg, s).Kept? && !Judge(cfg, s).Quiet?
    ensures Judge(cfg, s).OutOfRange? <==>
              && cfg.rowPeriodNs > 0 && cfg.samplePeriodNs > 0 && cfg.bins.maxHz > cfg.bins.minHz && s.frequencyHz > 0
              && s.sampleIndex >= cfg.firstSampleIndex
              && (s.sampleIndex - cfg.firstSampleIndex) * cfg.samplePeriodNs < (U64_MAX + 1) * cfg.rowPeriodNs
  {
    BucketIsExact(cfg, s.sampleIndex);
    hide BucketForSample;
  }

  lemma KeptIsInRange(cfg: Config, s: Sample)
    ensures Judge(cfg, s).Kept? ==> Judge(cfg, s).bin < cfg.bins.binCount
  {
    var b := cfg.bins;
    if b.binCount > 1 && b.maxHz > b.minHz && b.Contains(s.frequencyHz) { BinIsExactQuotient(b, s.frequencyHz); }
  }

  /** Buckets never decrease with the sample index, as long as both have one. */
  lemma BucketMonotone(cfg: Config, s: U64, t: U64)
    requires s <= t && BucketForSample(cfg, s).Some? && BucketForSample(cfg, t).Some?
    ensures BucketForSample(cfg, s).value <= BucketForSample(cfg, t).value
  {
    MulMonotone(s - cfg.firstSampleIndex, t - cfg.firstSampleIndex, cfg.samplePeriodNs);
    QuotientMonotone((s - cfg.firstSampleIndex) * cfg.samplePeriodNs, (t - cfg.firstSampleIndex) * cfg.samplePeriodNs, cfg.rowPeriodNs);
  }

  // ---- a row, from its samples -------------------------------------------------------------------

  predicate Falls(cfg: Config, s: Sample, bin: nat) { BinForFrequency(cfg.bins, s.frequencyHz) == bin }

  /** Largest clamped amplitude of a beam in a bin; 0 when silent. */
  function Peak(cfg: Config, group: seq<Sample>, bin: nat, beam: int): U16 {
    if group == [] then 0
    else
      var front, s := group[..|group| - 1], group[|group| - 1];
      if Falls(cfg, s, bin) && s.beamIndex == beam then Max(Peak(cfg, front, bin, beam), ClampAmplitude(s.amplitude))
      else Peak(cfg, front, bin, beam)
  }

  /** The peak is the maximum: no sample of the beam in the bin exceeds it, and one attains it unless it is 0. */
  lemma {:induction false} PeakIsMaximum(cfg: Config, group: seq<Sample>, bin: nat, beam: int)
    ensures var p := Peak(cfg, group, bin, beam);
            && (forall s :: s in group && Falls(cfg, s, bin) && s.beamIndex == beam ==> ClampAmplitude(s.amplitude) <= p)
            && (p == 0 || exists s :: s in group && Falls(cfg, s, bin) && s.beamIndex == beam && ClampAmplitude(s.amplitude) == p)
  {
    if group != [] {
      var front, s := group[..|group| - 1], group[|group| - 1];
      assert group == front + [s];
      PeakIsMaximum(cfg, front, bin, beam);
    }
  }

  /** Samples of the two beams in a bin. */
  function Hits(cfg: Config, group: seq<Sample>, bin: nat): nat {
    if group == [] then 0
    else
      var s := group[|group| - 1];
      Hits(cfg, group[..|group| - 1], bin) + if Falls(cfg, s, bin) && (s.beamIndex == 0 || s.beamIndex == 1) then 1 else 0
  }

  function FirstIndex(group: seq<Sample>): U64
    requires group != []
  {
    var front, s := group[..|group| - 1], group[|group| - 1];
    if front == [] then s.sampleIndex else Min(FirstIndex(front), s.sampleIndex)
  }

  function LastIndex(group: seq<Sample>): U64
    requires group != []
  {
    var front, s := group[..|group| - 1], group[|group| - 1];
    if front == [] then s.sampleIndex else Max(LastIndex(front), s.sampleIndex)
  }

  lemma {:induction false} IndexBounds(group: seq<Sample>)
    requires group != []
    ensures forall s :: s in group ==> FirstIndex(group) <= s.sampleIndex <= LastIndex(group)
    ensures exists s :: s in group && s.sampleIndex == FirstIndex(group)
    ensures exists s :: s in group && s.sampleIndex == LastIndex(group)
  {
    var front, s := group[..|group| - 1], group[|group| - 1];
    assert group == front + [s];
    if front != [] { IndexBounds(front); }
  }

  /** Peaks are maxima; the hit count saturates. */
  function CellOf(cfg: Config, group: seq<Sample>, bin: nat): Cell {
    Cell(Peak(cfg, group, bin, 0), Peak(cfg, group, bin, 1), Min(Hits(cfg, group, bin), U16_MAX))
  }

  function CellsOf(cfg: Config, group: seq<Sample>): (r: seq<Cell>)
    ensures |r| == Max(0, cfg.bins.binCount)
  {
    seq(Max(0, cfg.bins.binCount), b requires 0 <= b => CellOf(cfg, group, b))
  }

  function RowOf(cfg: Config, g: Group<Sample>): Row
    requires g.samples != []
  {
    Row(UtcNsForBucket(cfg, g.window), FirstIndex(g.samples), LastIndex(g.samples), CellsOf(cfg, g.samples))
  }

  lemma RowParts(cfg: Config, g: Group<Sample>)
    requires g.samples != []
    ensures RowOf(cfg, g) == Row(UtcNsForBucket(cfg, g.window), FirstIndex(g.samples), LastIndex(g.samples), CellsOf(cfg, g.samples))
  {
  }

  ghost predicate AllFilled(gs: seq<Group<Sample>>) { forall g :: g in gs ==> g.samples != [] }

  function RowsOf(cfg: Config, gs: seq<Group<Sample>>): (r: seq<Row>)
    requires AllFilled(gs)
    ensures |r| == |gs| && forall i :: 0 <= i < |r| ==> r[i] == RowOf(cfg, gs[i])
  {
    seq(|gs|, i requires 0 <= i < |gs| => RowOf(cfg, gs[i]))
  }

  function WithHit(hits: U16): U16 { if hits < U16_MAX then hits + 1 else hits }

  /** One more sample in the bin: one beam's peak rises to it and the hit count, until it saturates. */
  function CellPlus(c: Cell, s: Sample): Cell {
    var amplitude := ClampAmplitude(s.amplitude);
    if s.beamIndex == 0 then Cell(Max(c.beam0Peak, amplitude), c.beam1Peak, WithHit(c.hitCount))
    else if s.beamIndex == 1 then Cell(c.beam0Peak, Max(c.beam1Peak, amplitude), WithHit(c.hitCount))
    else c
  }

  lemma PeakSnoc(cfg: Config, group: seq<Sample>, s: Sample, bin: nat, beam: int)
    ensures Peak(cfg, group + [s], bin, beam)
            == if Falls(cfg, s, bin) && s.beamIndex == beam then Max(Peak(cfg, group, bin, beam), ClampAmplitude(s.amplitude))
               else Peak(cfg, group, bin, beam)
  {
    hide Falls;
    assert (group + [s])[..|group|] == group;
  }

  lemma HitsSnoc(cfg: Config, group: seq<Sample>, s: Sample, bin: nat)
    ensures Hits(cfg, group + [s], bin)
            == Hits(cfg, group, bin) + if Falls(cfg, s, bin) && (s.beamIndex == 0 || s.beamIndex == 1) then 1 else 0
  {
    hide Falls;
    assert (group + [s])[..|group|] == group;
  }

  /** A silent cell is zero, and the hits of two groups add up. */
  lemma {:induction false} HitsAddUp(cfg: Config, xs: seq<Sample>, ys: seq<Sample>, bin: nat)
    ensures CellOf(cfg, [], bin) == Cell(0, 0, 0)
    ensures Hits(cfg, xs + ys, bin) == Hits(cfg, xs, bin) + Hits(cfg, ys, bin)
  {
    hide Falls;
    if ys == [] {
      assert xs + ys == xs;
    } else {
      HitsAddUp(cfg, xs, ys[..|ys| - 1], bin);
      assert (xs + ys)[..|xs + ys| - 1] == xs + ys[..|ys| - 1];
    }
  }

  /** One more sample changes one cell by one hit and leaves the others. */
  lemma CellSnoc(cfg: Config, group: seq<Sample>, s: Sample, bin: nat)
    ensures CellOf(cfg, group + [s], bin) == if Falls(cfg, s, bin) then CellPlus(CellOf(cfg, group, bin), s) else CellOf(cfg, group, bin)
  {
    hide Falls, Peak, Hits, ClampAmplitude;
    PeakSnoc(cfg, group, s, bin, 0);
    PeakSnoc(cfg, group, s, bin, 1);
    HitsSnoc(cfg, group, s, bin);
  }

  // ---- the stream --------------------------------------------------------------------------------

  /** The samples that pass every check, with their buckets. */
  function KeptOf(cfg: Config, samples: seq<Sample>): seq<Tagged<Sample>> {
    if samples == [] then []
    else
      var s := samples[|samples| - 1];
      var front := KeptOf(cfg, samples[..|samples| - 1]);
      if Judge(cfg, s).Kept? then front + [Tagged(Judge(cfg, s).bucket, s)] else front
  }

  function FeedAll(sp: Split<Sample>, ts: seq<Tagged<Sample>>): Split<Sample> {
    if ts == [] then sp else Feed(FeedAll(sp, ts[..|ts| - 1]), ts[|ts| - 1])
  }

  function Verdicts(cfg: Config, samples: seq<Sample>, invalid: bool): nat {
    if samples == [] then 0
    else
      var v := Judge(cfg, samples[|samples| - 1]);
      Verdicts(cfg, samples[..|samples| - 1], invalid) + if (if invalid then v.Invalid? else v.OutOfRange?) then 1 else 0
  }

  function QuietOnes(cfg: Config, samples: seq<Sample>): nat {
    if samples == [] then 0
    else QuietOnes(cfg, samples[..|samples| - 1]) + if Judge(cfg, samples[|samples| - 1]).Quiet? then 1 else 0
  }

  lemma {:induction false} SamplesConserved(cfg: Config, samples: seq<Sample>)
    ensures |samples| == Verdicts(cfg, samples, true) + Verdicts(cfg, samples, false) + QuietOnes(cfg, samples) + |KeptOf(cfg, samples)|
  {
    if samples != [] { SamplesConserved(cfg, samples[..|samples| - 1]); }
  }

  lemma {:induction false} FeedAllIsSplitOf(ts: seq<Tagged<Sample>>)
    ensures FeedAll(Split([], None), ts) == SplitOf(ts)
  {
    if ts != [] { FeedAllIsSplitOf(ts[..|ts| - 1]); }
  }

  lemma {:induction false} FeedAllAppend(sp: Split<Sample>, xs: seq<Tagged<Sample>>, ys: seq<Tagged<Sample>>)
    ensures FeedAll(sp, xs + ys) == FeedAll(FeedAll(sp, xs), ys)
  {
    if ys == [] {
      assert xs + ys == xs;
    } else {
      FeedAllAppend(sp, xs, ys[..|ys| - 1]);
      assert (xs + ys)[..|xs + ys| - 1] == xs + ys[..|ys| - 1];
    }
  }

  lemma {:induction false} KeptAppend(cfg: Config, xs: seq<Sample>, ys: seq<Sample>)
    ensures KeptOf(cfg, xs + ys) == KeptOf(cfg, xs) + KeptOf(cfg, ys)
  {
    if ys == [] {
      assert xs + ys == xs;
    } else {
      KeptAppend(cfg, xs, ys[..|ys| - 1]);
      assert (xs + ys)[..|xs + ys| - 1] == xs + ys[..|ys| - 1];
    }
  }

  /** Cutting the stream into blocks anywhere changes nothing. */
  lemma CutsDoNotMatter(cfg: Config, sp: Split<Sample>, xs: seq<Sample>, ys: seq<Sample>)
    ensures FeedAll(FeedAll(sp, KeptOf(cfg, xs)), KeptOf(cfg, ys)) == FeedAll(sp, KeptOf(cfg, xs + ys))
  {
    KeptAppend(cfg, xs, ys);
    FeedAllAppend(sp, KeptOf(cfg, xs), KeptOf(cfg, ys));
  }

  ghost predicate Ordered(samples: seq<Sample>) {
    forall i, j :: 0 <= i < j < |samples| ==> samples[i].sampleIndex <= samples[j].sampleIndex
  }

  lemma {:induction false} KeptCome(cfg: Config, samples: seq<Sample>)
    ensures forall t :: t in KeptOf(cfg, samples) ==> t.sample in samples && BucketForSample(cfg, t.sample.sampleIndex) == Some(t.window)
  {
    if samples != [] {
      KeptCome(cfg, samples[..|samples| - 1]);
      assert samples[|samples| - 1] in samples;
    }
  }

  lemma {:induction false} KeptNonDecreasing(cfg: Config, samples: seq<Sample>)
    requires Ordered(samples)
    ensures NonDecreasing(KeptOf(cfg, samples))
  {
    if samples != [] {
      var front, s := samples[..|samples| - 1], samples[|samples| - 1];
      KeptNonDecreasing(cfg, front);
      KeptCome(cfg, front);
      if Judge(cfg, s).Kept? {
        forall t | t in KeptOf(cfg, front) ensures t.window <= Judge(cfg, s).bucket {
          var i :| 0 <= i < |front| && front[i] == t.sample;
          BucketMonotone(cfg, t.sample.sampleIndex, s.sampleIndex);
        }
      }
    }
  }

  /** A stream in index order, cut where the bucket changes, falls into exactly one group per bucket holding a kept
      sample, in strictly increasing bucket order, each holding all samples of its bucket. */
  lemma StreamingIsGroupBy(cfg: Config, samples: seq<Sample>) returns (gs: seq<Group<Sample>>)
    requires Ordered(samples)
    ensures gs == FeedAll(Split([], None), KeptOf(cfg, samples)).Flushed()
    ensures IsGroupBy(gs, KeptOf(cfg, samples)) && AllFilled(gs)
  {
    KeptNonDecreasing(cfg, samples);
    FeedAllIsSplitOf(KeptOf(cfg, samples));
    SplitIsGroupBy(KeptOf(cfg, samples));
    gs := SplitOf(KeptOf(cfg, samples)).Flushed();
  }

  lemma NothingConsumed(cfg: Config, sp: Split<Sample>)
    ensures FeedAll(sp, KeptOf(cfg, [])) == sp && Verdicts(cfg, [], true) == Verdicts(cfg, [], false) == 0
  {
  }

  lemma OneMoreConsumed(cfg: Config, sp: Split<Sample>, xs: seq<Sample>, s: Sample)
    ensures var before, v := FeedAll(sp, KeptOf(cfg, xs)), Judge(cfg, s);
            && FeedAll(sp, KeptOf(cfg, xs + [s])) == (if v.Kept? then Feed(before, Tagged(v.bucket, s)) else before)
            && Verdicts(cfg, xs + [s], true) == Verdicts(cfg, xs, true) + (if v.Invalid? then 1 else 0)
            && Verdicts(cfg, xs + [s], false) == Verdicts(cfg, xs, false) + (if v.OutOfRange? then 1 else 0)
  {
    hide Judge, Feed;
    assert (xs + [s])[..|xs|] == xs;
    var ts := KeptOf(cfg, xs);
    if Judge(cfg, s).Kept? { assert (ts + [Tagged(Judge(cfg, s).bucket, s)])[..|ts|] == ts; }
  }

  // ---- the imperative aggregator -----------------------------------------------------------------

  /** The open group's samples if it is of this bucket. */
  ghost function SamplesOf(sp: Split<Sample>, bucket: nat): seq<Sample> {
    if sp.open.Some? && sp.open.value.window == bucket then sp.open.value.samples else []
  }

  lemma RowsAfterFeed(cfg: Config, sp: Split<Sample>, t: Tagged<Sample>)
    requires AllFilled(sp.closed) && (sp.open.Some? ==> sp.open.value.samples != [])
    ensures AllFilled(Feed(sp, t).closed)
    ensures RowsOf(cfg, Feed(sp, t).closed) == RowsOf(cfg, sp.closed)
              + if sp.open.Some? && sp.open.value.window != t.window then [RowOf(cfg, sp.open.value)] else []
    ensures Feed(sp, t).open == Some(Group(t.window, SamplesOf(sp, t.window) + [t.sample]))
  {
    hide RowOf;
    assert [] + [t.sample] == [t.sample];
  }

  lemma PlusAssociates(a: Counters, b: Counters, c: Counters)
    ensures a.Plus(b).Plus(c) == a.Plus(b.Plus(c))
  {
  }

  lemma RowAppended(before: seq<Row>, rows: seq<Row>, closed: Option<Row>)
    ensures closed.Some? ==> (before + rows) + [closed.value] == before + (rows + [closed.value])
  {
  }

  class WaterfallAggregator {
    var cfg: Config
    var counters: Counters
    var isOpen: bool
    var bucketIndex: nat
    var utcNs: I64
    var firstSampleIndex: U64
    var lastSampleIndex: U64
    var hasSamples: bool
    var cells: array<Cell>
    /** The stream so far, cut into groups: what every operation is measured against. */
    ghost var split: Split<Sample>

    ghost predicate Valid()
      reads this, cells
    {
      && AllFilled(split.closed)
      && isOpen == split.open.Some?
      && (isOpen ==>
            var g := split.open.value;
            && g.samples != [] && hasSamples && bucketIndex == g.window
            && Row(utcNs, firstSampleIndex, lastSampleIndex, cells[..]) == RowOf(cfg, g))
    }

    constructor (config: Config)
      ensures Valid() && cfg == config && counters == NO_COUNTS && split == Split([], None) && fresh(cells)
    {
      cfg, counters, isOpen, split := config, NO_COUNTS, false, Split([], None);
      bucketIndex, utcNs, firstSampleIndex, lastSampleIndex, hasSamples := 0, 0, 0, 0, false;
      cells := new Cell[0];
    }

    method OpenBucket(bucket: nat, sampleIndex: U64)
      modifies this`isOpen, this`bucketIndex, this`utcNs, this`firstSampleIndex, this`lastSampleIndex, this`hasSamples, this`cells
      ensures isOpen && !hasSamples && bucketIndex == bucket && utcNs == UtcNsForBucket(cfg, bucket)
      ensures firstSampleIndex == lastSampleIndex == sampleIndex
      ensures fresh(cells) && cells[..] == CellsOf(cfg, [])
    {
      isOpen, hasSamples, bucketIndex, utcNs := true, false, bucket, UtcNsForBucket(cfg, bucket);
      firstSampleIndex, lastSampleIndex := sampleIndex, sampleIndex;
      cells := new Cell[Max(0, cfg.bins.binCount)](_ => Cell(0, 0, 0));
    }

    /** None for a row that never got a sample. */
    method CloseOpenRow() returns (row: Option<Row>)
      requires Valid()
      modifies this`isOpen, this`split
      ensures Valid() && !isOpen && split == Split(old(split).Flushed(), None)
      ensures row == if old(split).open.Some? then Some(RowOf(cfg, old(split).open.value)) else None
    {
      if isOpen {
        assert split.Flushed() == split.closed + [split.open.value];
      }
      split := Split(split.Flushed(), None);
      if !isOpen || !hasSamples {
        isOpen := false;
        return None;
      }
      isOpen := false;
      row := Some(Row(utcNs, firstSampleIndex, lastSampleIndex, cells[..]));
    }

    /** The in-place update of one cell, given the samples the row already summarises. */
    method AddSampleToOpenRow(s: Sample, bin: nat, ghost group: seq<Sample>)
      requires bin < cells.Length && Falls(cfg, s, bin)
      requires cells[..] == CellsOf(cfg, group)
      requires if group == [] then firstSampleIndex == lastSampleIndex == s.sampleIndex
               else firstSampleIndex == FirstIndex(group) && lastSampleIndex == LastIndex(group)
      modifies this`firstSampleIndex, this`lastSampleIndex, this`hasSamples, cells
      ensures hasSamples && cells[..] == CellsOf(cfg, group + [s])
      ensures firstSampleIndex == FirstIndex(group + [s]) && lastSampleIndex == LastIndex(group + [s])
    {
      assert (group + [s])[..|group|] == group;
      firstSampleIndex := Min(firstSampleIndex, s.sampleIndex);
      lastSampleIndex := Max(lastSampleIndex, s.sampleIndex);
      hasSamples := true;
      var cell := cells[bin];
      var amplitude := ClampAmplitude(s.amplitude);
      var hits := if cell.hitCount < U16_MAX then cell.hitCount + 1 else cell.hitCount;
      if s.beamIndex == 0 {
        cell := Cell(Max(cell.beam0Peak, amplitude), cell.beam1Peak, hits);
      } else if s.beamIndex == 1 {
        cell := Cell(cell.beam0Peak, Max(cell.beam1Peak, amplitude), hits);
      }
      forall b: nat | b < cells.Length ensures CellOf(cfg, group + [s], b) == if b == bin then cell else cells[b] {
        CellSnoc(cfg, group, s, b);
      }
      cells[bin] := cell;
    }

    /** Makes the row of a bucket the open one, closing another bucket's row. */
    method TurnTo(bucket: nat, sampleIndex: U64) returns (closed: Option<Row>)
      requires Valid()
      modifies this`isOpen, this`bucketIndex, this`utcNs, this`firstSampleIndex, this`lastSampleIndex, this`hasSamples,
               this`cells, this`split
      ensures isOpen && bucketIndex == bucket && utcNs == UtcNsForBucket(cfg, bucket)
      ensures (cells == old(cells) && cells[..] == old(cells[..])) || fresh(cells)
      ensures var group := SamplesOf(old(split), bucket);
              && cells[..] == CellsOf(cfg, group)
              && if group == [] then firstSampleIndex == lastSampleIndex == sampleIndex
                 else firstSampleIndex == FirstIndex(group) && lastSampleIndex == LastIndex(group)
      ensures closed == if old(split).open.Some? && old(split).open.value.window != bucket
                        then Some(RowOf(cfg, old(split).open.value)) else None
    {
      hide CellsOf, FirstIndex, LastIndex, UtcNsForBucket;
      closed := None;
      if !isOpen {
        OpenBucket(bucket, sampleIndex);
      } else if bucketIndex != bucket {
        closed := CloseOpenRow();
        OpenBucket(bucket, sampleIndex);
      }
    }

    /** One sample that passed the checks. */
    method Accept(s: Sample, bucket: nat, bin: nat) returns (closed: Option<Row>)
      requires Valid() && Judge(cfg, s) == Kept(bucket, bin)
      modifies this, cells
      ensures cfg == old(cfg) && counters == old(counters)
      ensures Valid() && split == Feed(old(split), Tagged(bucket, s))
      ensures (cells == old(cells) || fresh(cells))
      ensures RowsOf(cfg, split.closed) == RowsOf(cfg, old(split).closed) + if closed.Some? then [closed.value] else []
    {
      KeptIsInRange(cfg, s);
      assert Falls(cfg, s, bin);
      hide BinForFrequency, BucketForSample, CellOf, FirstIndex, LastIndex, Judge, Falls, UtcNsForBucket, Feed, RowsOf, SamplesOf, CellsOf, AllFilled, RowOf;
      ghost var before := split;
      RowsAfterFeed(cfg, before, Tagged(bucket, s));
      closed := TurnTo(bucket, s.sampleIndex);
      TakeIntoOpenRow(s, bin, SamplesOf(before, bucket), Feed(before, Tagged(bucket, s)));
    }

    /** The sample joins the open row, which from then on stands for the open group of `after`. */
    method TakeIntoOpenRow(s: Sample, bin: nat, ghost group: seq<Sample>, ghost after: Split<Sample>)
      requires bin < cells.Length && Falls(cfg, s, bin) && isOpen && utcNs == UtcNsForBucket(cfg, bucketIndex)
      requires cells[..] == CellsOf(cfg, group)
      requires if group == [] then firstSampleIndex == lastSampleIndex == s.sampleIndex
               else firstSampleIndex == FirstIndex(group) && lastSampleIndex == LastIndex(group)
      requires AllFilled(after.closed) && after.open == Some(Group(bucketIndex, group + [s]))
      modifies this`firstSampleIndex, this`lastSampleIndex, this`hasSamples, this`split, cells
      ensures Valid() && split == after
    {
      hide CellsOf, FirstIndex, LastIndex, UtcNsForBucket, Falls, AllFilled, RowOf;
      RowParts(cfg, Group(bucketIndex, group + [s]));
      AddSampleToOpenRow(s, bin, group);
      split := after;
    }

    /** One sample: counted with its verdict, and added to its row when it is kept. */
    method ConsumeSample(s: Sample) returns (closed: Option<Row>, delta: Counters)
      requires Valid()
      modifies this, cells
      ensures Valid() && cfg == old(cfg) && (cells == old(cells) || fresh(cells))
      ensures split == if Judge(cfg, s).Kept? then Feed(old(split), Tagged(Judge(cfg, s).bucket, s)) else old(split)
      ensures AllFilled(old(split).closed) && AllFilled(split.closed)
      ensures RowsOf(cfg, split.closed) == RowsOf(cfg, old(split).closed) + if closed.Some? then [closed.value] else []
      ensures delta == Counters(0, 1, if closed.Some? then 1 else 0, if Judge(cfg, s).Invalid? then 1 else 0,
                                if Judge(cfg, s).OutOfRange? then 1 else 0, 0)
      ensures counters == old(counters).Plus(delta)
    {
      hide UtcNsForBucket, BinForFrequency, BucketForSample, CellOf, FirstIndex, LastIndex, RowOf, CellsOf, Feed, RowsOf, AllFilled;
      closed, delta := None, NO_COUNTS.(consumedSamples := 1);
      counters := counters.(consumedSamples := counters.consumedSamples + 1);
      var bucket := BucketForSample(cfg, s.sampleIndex);
      if bucket.None? {
        delta := delta.(invalidFrequency := 1);
        counters := counters.(invalidFrequency := counters.invalidFrequency + 1);
        return;
      }
      var bin := BinForFrequency(cfg.bins, s.frequencyHz);
      if bin < 0 {
        if s.frequencyHz <= 0 || cfg.bins.maxHz <= cfg.bins.minHz {
          delta := delta.(invalidFrequency := 1);
          counters := counters.(invalidFrequency := counters.invalidFrequency + 1);
        } else {
          delta := delta.(outOfRange := 1);
          counters := counters.(outOfRange := counters.outOfRange + 1);
        }
        return;
      }
      if s.amplitude < cfg.amplitudeFloor {
        return;
      }
      closed := Accept(s, bucket.value, bin);
      if closed.Some? {
        delta := delta.(producedRows := 1);
        counters := counters.(producedRows := counters.producedRows + 1);
      }
    }

    /** One block's samples. */
    method Consume(samples: seq<Sample>) returns (rows: seq<Row>, delta: Counters)
      requires Valid()
      modifies this, cells
      ensures Valid() && cfg == old(cfg) && (cells == old(cells) || fresh(cells))
      ensures split == FeedAll(old(split), KeptOf(cfg, samples))
      ensures RowsOf(cfg, split.closed) == RowsOf(cfg, old(split).closed) + rows
      ensures delta == Counters(0, |samples|, |rows|, Verdicts(cfg, samples, true), Verdicts(cfg, samples, false), 0)
      ensures counters == old(counters).Plus(delta)
    {
      hide RowOf, CellsOf, Feed, RowsOf, AllFilled, Judge;
      assert AllFilled(split.closed);
      NothingConsumed(cfg, split);
      hide WaterfallAggregator.Valid, FeedAll, KeptOf, Verdicts;
      rows, delta := [], NO_COUNTS;
      for i := 0 to |samples|
        invariant Valid() && cfg == old(cfg) && (cells == old(cells) || fresh(cells))
        invariant split == FeedAll(old(split), KeptOf(cfg, samples[..i]))
        invariant AllFilled(old(split).closed) && AllFilled(split.closed) && RowsOf(cfg, split.closed) == RowsOf(cfg, old(split).closed) + rows
        invariant delta == Counters(0, i, |rows|, Verdicts(cfg, samples[..i], true), Verdicts(cfg, samples[..i], false), 0)
        invariant counters == old(counters).Plus(delta)
      {
        assert samples[..i + 1] == samples[..i] + [samples[i]];
        OneMoreConsumed(cfg, old(split), samples[..i], samples[i]);
        var closed, one := ConsumeSample(samples[i]);
        PlusAssociates(old(counters), delta, one);
        delta := delta.Plus(one);
        RowAppended(RowsOf(cfg, old(split).closed), rows, closed);
        if closed.Some? {
          rows := rows + [closed.value];
        }
      }
      assert samples[..|samples|] == samples;
    }

    method ConsumeBlock(samples: seq<Sample>) returns (rows: seq<Row>, delta: Counters)
      requires Valid()
      modifies this, cells
      ensures Valid() && cfg == old(cfg) && (cells == old(cells) || fresh(cells))
      ensures split == FeedAll(old(split), KeptOf(cfg, samples))
      ensures RowsOf(cfg, split.closed) == RowsOf(cfg, old(split).closed) + rows
      ensures counters == old(counters).Plus(delta)
      ensures if samples == [] then delta == NO_COUNTS.(emptyBlocks := 1)
              else delta == Counters(1, |samples|, |rows|, Verdicts(cfg, samples, true), Verdicts(cfg, samples, false), 0)
    {
      assert FeedAll(split, KeptOf(cfg, [])) == split;
      hide FeedAll, KeptOf, Verdicts, RowOf, CellsOf;
      if |samples| == 0 {
        counters := counters.(emptyBlocks := counters.emptyBlocks + 1);
        return [], NO_COUNTS.(emptyBlocks := 1);
      }
      counters := counters.(consumedBlocks := counters.consumedBlocks + 1);
      rows, delta := Consume(samples);
      delta := delta.(consumedBlocks := 1);
    }

    method Flush() returns (rows: seq<Row>, delta: Counters)
      requires Valid()
      modifies this`isOpen, this`split, this`counters
      ensures Valid() && split == Split(old(split).Flushed(), None)
      ensures RowsOf(cfg, split.closed) == RowsOf(cfg, old(split).closed) + rows
      ensures delta == NO_COUNTS.(producedRows := |rows|) && counters == old(counters).Plus(delta)
    {
      rows, delta := [], NO_COUNTS;
      var closed := CloseOpenRow();
      if closed.Some? {
        rows := [closed.value];
        counters := counters.(producedRows := counters.producedRows + 1);
        delta := delta.(producedRows := 1);
      }
    }
  }

  // ---- a whole stream ------------------------------------------------------------------------------

  function Flatten(blocks: seq<seq<Sample>>): seq<Sample> {
    if blocks == [] then [] else Flatten(blocks[..|blocks| - 1]) + blocks[|blocks| - 1]
  }

  /** The groups of a stream, however it is cut into blocks. */
  function GroupsOf(cfg: Config, blocks: seq<seq<Sample>>): seq<Group<Sample>> {
    SplitOf(KeptOf(cfg, Flatten(blocks))).Flushed()
  }

  /** A fresh aggregator fed block by block and flushed: the rows of all calls are the rows of the groups, and when the
      samples come in index order those are one per bucket holding a kept sample, in strictly increasing bucket order,
      each summarising exactly the kept samples of its bucket. */
  method Stream(cfg: Config, blocks: seq<seq<Sample>>) returns (rows: seq<Row>)
    ensures AllFilled(GroupsOf(cfg, blocks)) && rows == RowsOf(cfg, GroupsOf(cfg, blocks))
    ensures Ordered(Flatten(blocks)) ==> IsGroupBy(GroupsOf(cfg, blocks), KeptOf(cfg, Flatten(blocks)))
  {
    hide FeedAll, KeptOf, RowOf, Split.Flushed, IsGroupBy, Ordered, SplitOf;
    var aggregator := new WaterfallAggregator(cfg);
    rows := [];
    NothingFed(cfg);
    for i := 0 to |blocks|
      invariant aggregator.Valid() && aggregator.cfg == cfg && fresh(aggregator) && fresh(aggregator.cells)
      invariant aggregator.split == FeedAll(Split([], None), KeptOf(cfg, Flatten(blocks[..i])))
      invariant rows == RowsOf(cfg, aggregator.split.closed)
    {
      assert blocks[..i + 1][..i] == blocks[..i];
      CutsDoNotMatter(cfg, Split([], None), Flatten(blocks[..i]), blocks[i]);
      var more, _ := aggregator.ConsumeBlock(blocks[i]);
      rows := rows + more;
    }
    assert blocks[..|blocks|] == blocks;
    FeedAllIsSplitOf(KeptOf(cfg, Flatten(blocks)));
    var last, _ := aggregator.Flush();
    rows := rows + last;
    if Ordered(Flatten(blocks)) { var groups := StreamingIsGroupBy(cfg, Flatten(blocks)); }
  }

  function TimeOf(cfg: Config, s: Sample): int { cfg.recordingStartUtcNs + (s.sampleIndex - cfg.firstSampleIndex) * cfg.samplePeriodNs }

  /** A row's time is at most the time of each of its samples and less than a row period before it, unless it is the
      largest time there is. */
  lemma RowTimeCoversSamples(cfg: Config, blocks: seq<seq<Sample>>, i: nat, s: Sample)
    requires AllFilled(GroupsOf(cfg, blocks)) && i < |GroupsOf(cfg, blocks)| && s in GroupsOf(cfg, blocks)[i].samples
    requires cfg.recordingStartUtcNs >= 0
    ensures var row := RowsOf(cfg, GroupsOf(cfg, blocks))[i];
            && s in Flatten(blocks) && row.firstSampleIndex <= s.sampleIndex <= row.lastSampleIndex
            && (row.utcNs < I64_MAX ==> row.utcNs <= TimeOf(cfg, s) < row.utcNs + cfg.rowPeriodNs)
            && (row.utcNs == I64_MAX ==> TimeOf(cfg, s) >= I64_MAX)
  {
    var g := GroupsOf(cfg, blocks)[i];
    GroupSample(cfg, blocks, g, s);
    hide GroupsOf, BucketForSample, UtcNsForBucket, CellsOf, Flatten, FirstIndex, LastIndex;
    IndexBounds(g.samples);
    RowParts(cfg, g);
    BucketTime(cfg, g.window, s);
  }

  /** A sample of a group is a sample of the stream that falls into the group's bucket. */
  lemma GroupSample(cfg: Config, blocks: seq<seq<Sample>>, g: Group<Sample>, s: Sample)
    requires g in GroupsOf(cfg, blocks) && s in g.samples
    ensures s in Flatten(blocks) && BucketForSample(cfg, s.sampleIndex) == Some(g.window)
  {
    hide KeptOf, SplitOf, Split.Flushed, BucketForSample, Flatten;
    var ts := KeptOf(cfg, Flatten(blocks));
    GroupsHoldTheirWindow(ts);
    assert CameWith(ts, g.window, s);
    KeptCome(cfg, Flatten(blocks));
  }

  lemma BucketTime(cfg: Config, bucket: nat, s: Sample)
    requires cfg.recordingStartUtcNs >= 0 && BucketForSample(cfg, s.sampleIndex) == Some(bucket)
    ensures var utcNs := UtcNsForBucket(cfg, bucket);
            && (utcNs < I64_MAX ==> utcNs <= TimeOf(cfg, s) < utcNs + cfg.rowPeriodNs)
            && (utcNs == I64_MAX ==> TimeOf(cfg, s) >= I64_MAX)
  {
    hide BucketForSample, UtcNsForBucket;
    BucketIsExact(cfg, s.sampleIndex);
    UtcSaturates(cfg, bucket);
    assert (bucket + 1) * cfg.rowPeriodNs == bucket * cfg.rowPeriodNs + cfg.rowPeriodNs;
  }

  lemma NothingFed(cfg: Config)
    ensures FeedAll(Split([], None), KeptOf(cfg, Flatten([]))) == Split([], None)
  {
  }
}
