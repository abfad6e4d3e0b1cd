/** The trusted block-local path emits what the per-sample path emits, exactly when no accepted
    sample names a band outside the flat storage. */
module BearingEquivalence {
  import opened Common
  import opened WindowIndex
  import opened FrequencyBins
  import opened BearingModel

  /** What a caller sees of a call: snapshots and the call's counters. */
  datatype Result = Result(snapshots: seq<Snapshot>, delta: Counters)

  ghost function Results(es: seq<Effect>): seq<Result> {
    seq(|es|, i requires 0 <= i < |es| => Result(es[i].snapshots, es[i].delta))
  }

  /** No sample has a window index beyond 64 bits. */
  ghost predicate IndicesFit(cfg: Config, samples: seq<Sample>)
    requires cfg.FastPathUsable()
  {
    forall s :: s in samples ==> !Overflows(cfg.Grid(), s.sampleIndex)
  }

  /** The per-sample path accepts the sample although flat storage has no slot for its band. */
  predicate Misplaced(cfg: Config, s: Sample) {
    JudgeSimple(cfg, s).Accept? && !cfg.BandInCapacity(s.bandIndex)
  }

  function MisplacedCount(cfg: Config, samples: seq<Sample>): (n: nat)
    ensures n == 0 <==> forall s :: s in samples ==> !Misplaced(cfg, s)
  {
    if samples == [] then 0
    else
      assert samples == samples[..|samples| - 1] + [samples[|samples| - 1]];
      MisplacedCount(cfg, samples[..|samples| - 1]) + (if Misplaced(cfg, samples[|samples| - 1]) then 1 else 0)
  }

  lemma JudgementsAgree(cfg: Config, cursor: Cursor, s: Sample)
    requires cfg.FastPathUsable() && CursorOk(cfg.Grid(), cursor) && !Overflows(cfg.Grid(), s.sampleIndex)
    ensures JudgeFast(cfg, cursor, s) == if Misplaced(cfg, s) then Invalid else JudgeSimple(cfg, s)
    ensures CursorOk(cfg.Grid(), MoveCursor(cfg, Fast, cursor, s))
  {
    hide Window, WindowForSample, BinForFrequency, CursorOk, CursorAfter;
    WindowForSampleIsExact(cfg.Grid(), s.sampleIndex);
    if cfg.time.firstSampleIndex <= s.sampleIndex {
      CursorExactness(cfg.Grid(), cursor, s.sampleIndex);
    }
    if cfg.bins.Contains(s.frequencyHz) {
      BinIsExactQuotient(cfg.bins, s.frequencyHz);
    } else {
      OutsideHasNoBin(cfg.bins, s.frequencyHz);
    }
  }

  ghost predicate SameUpToCursor(a: State, b: State) {
    a.(cursor := UNSET_CURSOR) == b.(cursor := UNSET_CURSOR)
  }

  ghost predicate SameEffect(a: Effect, b: Effect) {
    SameUpToCursor(a.state, b.state) && a.snapshots == b.snapshots && a.delta == b.delta
  }

  lemma ActsAgree(cfg: Config, f: State, g: State, azimuthDeg: real, v: Verdict, s: Sample)
    ensures SameUpToCursor(f, g) ==> SameEffect(Act(cfg, f, azimuthDeg, v, s), Act(cfg, g, azimuthDeg, v, s))
    ensures Act(cfg, f, azimuthDeg, v, s).delta.invalid == if v.Invalid? then 1 else 0
    ensures Act(cfg, f, azimuthDeg, v, s).state.cursor == f.cursor
  {
    hide SnapshotOf, InOrder, AddToWindow, Opened;
  }

  lemma StepsAgree(cfg: Config, f: State, g: State, azimuthDeg: real, s: Sample)
    requires cfg.FastPathUsable() && CursorOk(cfg.Grid(), f.cursor) && !Overflows(cfg.Grid(), s.sampleIndex)
    ensures CursorOk(cfg.Grid(), Step(cfg, Fast, f, azimuthDeg, s).state.cursor)
    ensures SameUpToCursor(f, g) && !Misplaced(cfg, s) ==>
              SameEffect(Step(cfg, Fast, f, azimuthDeg, s), Step(cfg, Simple, g, azimuthDeg, s))
    ensures Step(cfg, Fast, f, azimuthDeg, s).delta.invalid
            == Step(cfg, Simple, g, azimuthDeg, s).delta.invalid + (if Misplaced(cfg, s) then 1 else 0)
  {
    hide CursorOk, JudgeFast, JudgeSimple, MoveCursor, Act, ReachesCursor;
    JudgementsAgree(cfg, f.cursor, s);
    var d := NO_COUNTS.(consumedSamples := 1);
    var f', g' := Count(f, d).(cursor := MoveCursor(cfg, Fast, f.cursor, s)), Count(g, d);
    ActsAgree(cfg, f', g', azimuthDeg, JudgeFast(cfg, f.cursor, s), s);
    ActsAgree(cfg, g', g', azimuthDeg, JudgeSimple(cfg, s), s);
    SimplePathKeepsCursor(cfg, g.cursor, s);
  }

  lemma SimplePathKeepsCursor(cfg: Config, cursor: Cursor, s: Sample)
    ensures MoveCursor(cfg, Simple, cursor, s) == cursor
  {
  }

  /** The two paths over one span: same effect when nothing is misplaced; otherwise the fast path
      counts each misplaced sample as invalid. */
  lemma {:induction false} ConsumeAgrees(cfg: Config, f: State, g: State, azimuthDeg: real, samples: seq<Sample>)
    requires cfg.FastPathUsable() && CursorOk(cfg.Grid(), f.cursor) && IndicesFit(cfg, samples)
    ensures CursorOk(cfg.Grid(), Consume(cfg, Fast, f, azimuthDeg, samples).state.cursor)
    ensures SameUpToCursor(f, g) && MisplacedCount(cfg, samples) == 0 ==>
              SameEffect(Consume(cfg, Fast, f, azimuthDeg, samples), Consume(cfg, Simple, g, azimuthDeg, samples))
    ensures Consume(cfg, Fast, f, azimuthDeg, samples).delta.invalid
            == Consume(cfg, Simple, g, azimuthDeg, samples).delta.invalid + MisplacedCount(cfg, samples)
  {
    hide CursorOk, Misplaced, Step;
    if samples != [] {
      var front, s := samples[..|samples| - 1], samples[|samples| - 1];
      ConsumeAgrees(cfg, f, g, azimuthDeg, front);
      StepsAgree(cfg, Consume(cfg, Fast, f, azimuthDeg, front).state,
                 Consume(cfg, Simple, g, azimuthDeg, front).state, azimuthDeg, s);
    }
  }

  lemma BlocksAgree(cfg: Config, f: State, g: State, b: Block)
    requires cfg.FastPathUsable() && CursorOk(cfg.Grid(), f.cursor) && IndicesFit(cfg, b.samples)
    ensures CursorOk(cfg.Grid(), ConsumeBlock(cfg, Fast, f, b).state.cursor)
    ensures SameUpToCursor(f, g) && MisplacedCount(cfg, b.samples) == 0 ==>
              SameEffect(ConsumeBlock(cfg, Fast, f, b), ConsumeBlock(cfg, Simple, g, b))
    ensures ConsumeBlock(cfg, Fast, f, b).delta.invalid
            == ConsumeBlock(cfg, Simple, g, b).delta.invalid + MisplacedCount(cfg, b.samples)
  {
    hide CursorOk, Consume, MisplacedCount;
    if b.samples == [] {
      NothingMisplaced(cfg);
    } else {
      var d := NO_COUNTS.(consumedBlocks := 1);
      ConsumeAgrees(cfg, Count(f, d), Count(g, d), b.Azimuth(cfg), b.samples);
    }
  }

  lemma NothingMisplaced(cfg: Config)
    ensures MisplacedCount(cfg, []) == 0
  {
  }

  lemma ClosesAgree(cfg: Config, f: State, g: State)
    requires SameUpToCursor(f, g)
    ensures SameEffect(Close(cfg, f), Close(cfg, g))
  {
    hide SnapshotOf, InOrder;
  }

  lemma {:induction false} RunsAgree(cfg: Config, f: State, g: State, blocks: seq<Block>)
    requires cfg.FastPathUsable() && CursorOk(cfg.Grid(), f.cursor) && SameUpToCursor(f, g)
    requires forall b :: b in blocks ==> IndicesFit(cfg, b.samples)
    ensures |Run(cfg, Fast, f, blocks)| == |Run(cfg, Simple, g, blocks)| == |blocks| + 1
    ensures Results(Run(cfg, Fast, f, blocks)) == Results(Run(cfg, Simple, g, blocks)) <==>
            forall b, s :: b in blocks && s in b.samples ==> !Misplaced(cfg, s)
    decreases |blocks|
  {
    hide CursorOk, Close, ConsumeBlock, Misplaced, IndicesFit;
    if blocks == [] {
      ClosesAgree(cfg, f, g);
    } else {
      var b := blocks[0];
      BlocksAgree(cfg, f, g, b);
      var e, d := ConsumeBlock(cfg, Fast, f, b), ConsumeBlock(cfg, Simple, g, b);
      var fast, simple := Run(cfg, Fast, e.state, blocks[1..]), Run(cfg, Simple, d.state, blocks[1..]);
      assert Results([e] + fast) == [Result(e.snapshots, e.delta)] + Results(fast);
      assert Results([d] + simple) == [Result(d.snapshots, d.delta)] + Results(simple);
      if MisplacedCount(cfg, b.samples) == 0 {
        RunsAgree(cfg, e.state, d.state, blocks[1..]);
        assert forall x :: x in blocks <==> x == b || x in blocks[1..];
        assert ([Result(e.snapshots, e.delta)] + Results(fast))[1..] == Results(fast);
        assert ([Result(d.snapshots, d.delta)] + Results(simple))[1..] == Results(simple);
      } else {
        assert Results([e] + fast)[0].delta.invalid != Results([d] + simple)[0].delta.invalid;
        var s :| s in b.samples && Misplaced(cfg, s);
        RunLength(cfg, Fast, e.state, blocks[1..]);
        RunLength(cfg, Simple, d.state, blocks[1..]);
      }
    }
  }

  lemma {:induction false} RunLength(cfg: Config, path: Path, st: State, blocks: seq<Block>)
    requires path.Fast? ==> cfg.FastPathUsable()
    ensures |Run(cfg, path, st, blocks)| == |blocks| + 1
    decreases |blocks|
  {
    hide Close, ConsumeBlock;
    if blocks != [] {
      RunLength(cfg, path, ConsumeBlock(cfg, path, st, blocks[0]).state, blocks[1..]);
    }
  }

  /** From a fresh aggregator the production path returns, call by call and at flush, the snapshots and
      counters of the per-sample path if and only if no accepted sample is misplaced. */
  lemma FastPathRefinesSimplePath(cfg: Config, blocks: seq<Block>)
    requires cfg.FastPathUsable()
    requires forall b :: b in blocks ==> IndicesFit(cfg, b.samples)
    ensures Results(Run(cfg, Fast, INITIAL, blocks)) == Results(Run(cfg, Simple, INITIAL, blocks)) <==>
            forall b, s :: b in blocks && s in b.samples ==> !Misplaced(cfg, s)
  {
    RunsAgree(cfg, INITIAL, INITIAL, blocks);
  }

  // ---- streams with indices past 64 bits -----------------------------------------------------

  /** A sample with an index past 64 bits is rejected by the per-sample path, but the fast path notices its low
      amplitude first, or files it under the last window because its cursor can still advance. */
  predicate Saturated(cfg: Config, cursor: Cursor, s: Sample)
    requires cfg.FastPathUsable()
  {
    && Overflows(cfg.Grid(), s.sampleIndex) && s.amplitude > 0
    && (s.amplitude < cfg.amplitudeFloor
        || (Incremental(cursor, s.sampleIndex)
            && if cfg.bins.Contains(s.frequencyHz) then cfg.BandInCapacity(s.bandIndex) else s.frequencyHz > 0))
  }

  predicate JudgedApart(cfg: Config, cursor: Cursor, s: Sample)
    requires cfg.FastPathUsable()
  {
    Misplaced(cfg, s) || Saturated(cfg, cursor, s)
  }

  /** The exact condition, for every sample and cursor; where the verdicts differ exactly one of them is invalid. */
  lemma JudgementsDiffer(cfg: Config, cursor: Cursor, s: Sample)
    requires cfg.FastPathUsable()
    ensures JudgeFast(cfg, cursor, s) != JudgeSimple(cfg, s) <==> JudgedApart(cfg, cursor, s)
    ensures JudgedApart(cfg, cursor, s) ==> (JudgeFast(cfg, cursor, s).Invalid? <==> !JudgeSimple(cfg, s).Invalid?)
  {
    hide Window, WindowForSample, BinForFrequency;
    WindowForSampleIsExact(cfg.Grid(), s.sampleIndex);
    if cfg.bins.Contains(s.frequencyHz) {
      BinIsExactQuotient(cfg.bins, s.frequencyHz);
    } else {
      OutsideHasNoBin(cfg.bins, s.frequencyHz);
    }
  }

  /** Some sample of the span is judged apart, given the fast path's cursor when it comes to it. */
  predicate SpanApart(cfg: Config, cursor: Cursor, samples: seq<Sample>)
    requires cfg.FastPathUsable()
  {
    samples != [] &&
    var front, s := samples[..|samples| - 1], samples[|samples| - 1];
    SpanApart(cfg, cursor, front) || JudgedApart(cfg, CursorAlong(cfg, Fast, cursor, front), s)
  }

  predicate StreamApart(cfg: Config, cursor: Cursor, blocks: seq<Block>)
    requires cfg.FastPathUsable()
    decreases |blocks|
  {
    blocks != [] &&
    (SpanApart(cfg, cursor, blocks[0].samples)
     || StreamApart(cfg, CursorAlong(cfg, Fast, cursor, blocks[0].samples), blocks[1..]))
  }

  lemma StepsCompare(cfg: Config, f: State, g: State, azimuthDeg: real, s: Sample)
    requires cfg.FastPathUsable() && SameUpToCursor(f, g)
    ensures var e, d := Step(cfg, Fast, f, azimuthDeg, s), Step(cfg, Simple, g, azimuthDeg, s);
            && (JudgedApart(cfg, f.cursor, s) ==> e.delta.invalid != d.delta.invalid)
            && (!JudgedApart(cfg, f.cursor, s) ==> SameEffect(e, d))
            && e.state.cursor == MoveCursor(cfg, Fast, f.cursor, s)
  {
    hide JudgeFast, JudgeSimple, MoveCursor, Act, ReachesCursor, JudgedApart;
    JudgementsDiffer(cfg, f.cursor, s);
    var d := NO_COUNTS.(consumedSamples := 1);
    var f', g' := Count(f, d).(cursor := MoveCursor(cfg, Fast, f.cursor, s)), Count(g, d);
    ActsAgree(cfg, f', g', azimuthDeg, JudgeFast(cfg, f.cursor, s), s);
    ActsAgree(cfg, g', g', azimuthDeg, JudgeSimple(cfg, s), s);
    SimplePathKeepsCursor(cfg, g.cursor, s);
  }

  lemma {:induction false} SpansCompare(cfg: Config, f: State, g: State, azimuthDeg: real, samples: seq<Sample>)
    requires cfg.FastPathUsable() && SameUpToCursor(f, g)
    ensures var e, d := Consume(cfg, Fast, f, azimuthDeg, samples), Consume(cfg, Simple, g, azimuthDeg, samples);
            && (!SpanApart(cfg, f.cursor, samples) ==>
                  SameEffect(e, d) && e.state.cursor == CursorAlong(cfg, Fast, f.cursor, samples))
            && (SpanApart(cfg, f.cursor, samples) && |samples| == 1 ==> e.delta.invalid != d.delta.invalid)
  {
    hide Step, JudgedApart, MoveCursor, Judge;
    if samples != [] {
      var front, s := samples[..|samples| - 1], samples[|samples| - 1];
      SpansCompare(cfg, f, g, azimuthDeg, front);
      var e, d := Consume(cfg, Fast, f, azimuthDeg, front), Consume(cfg, Simple, g, azimuthDeg, front);
      if !SpanApart(cfg, f.cursor, front) { StepsCompare(cfg, e.state, d.state, azimuthDeg, s); }
    }
  }

  lemma BlocksCompare(cfg: Config, f: State, g: State, b: Block)
    requires cfg.FastPathUsable() && SameUpToCursor(f, g)
    ensures var e, d := ConsumeBlock(cfg, Fast, f, b), ConsumeBlock(cfg, Simple, g, b);
            && (!SpanApart(cfg, f.cursor, b.samples) ==>
                  SameEffect(e, d) && e.state.cursor == CursorAlong(cfg, Fast, f.cursor, b.samples))
            && (SpanApart(cfg, f.cursor, b.samples) && |b.samples| <= 1 ==> e.delta.invalid != d.delta.invalid)
  {
    hide Consume, JudgedApart, Judge, MoveCursor;
    if b.samples != [] {
      var d := NO_COUNTS.(consumedBlocks := 1);
      SpansCompare(cfg, Count(f, d), Count(g, d), b.Azimuth(cfg), b.samples);
    }
  }

  lemma {:induction false} RunsCompare(cfg: Config, f: State, g: State, blocks: seq<Block>)
    requires cfg.FastPathUsable() && SameUpToCursor(f, g)
    ensures !StreamApart(cfg, f.cursor, blocks) ==> Results(Run(cfg, Fast, f, blocks)) == Results(Run(cfg, Simple, g, blocks))
    ensures StreamApart(cfg, f.cursor, blocks) && (forall b :: b in blocks ==> |b.samples| <= 1) ==>
              Results(Run(cfg, Fast, f, blocks)) != Results(Run(cfg, Simple, g, blocks))
    decreases |blocks|
  {
    hide Close, ConsumeBlock, SpanApart, CursorAlong;
    if blocks == [] {
      ClosesAgree(cfg, f, g);
    } else {
      var b := blocks[0];
      BlocksCompare(cfg, f, g, b);
      var e, d := ConsumeBlock(cfg, Fast, f, b), ConsumeBlock(cfg, Simple, g, b);
      var fast, simple := Run(cfg, Fast, e.state, blocks[1..]), Run(cfg, Simple, d.state, blocks[1..]);
      assert Results([e] + fast) == [Result(e.snapshots, e.delta)] + Results(fast);
      assert Results([d] + simple) == [Result(d.snapshots, d.delta)] + Results(simple);
      if !SpanApart(cfg, f.cursor, b.samples) {
        RunsCompare(cfg, e.state, d.state, blocks[1..]);
        assert forall x :: x in blocks[1..] ==> x in blocks;
        assert ([Result(e.snapshots, e.delta)] + Results(fast))[1..] == Results(fast);
        assert ([Result(d.snapshots, d.delta)] + Results(simple))[1..] == Results(simple);
      } else if |b.samples| <= 1 {
        assert Results([e] + fast)[0].delta.invalid != Results([d] + simple)[0].delta.invalid;
      }
    }
  }

  /** With no premise on indices: the two paths return the same, call by call, whenever no sample is misplaced or
      saturated; and fed sample by sample they return the same only then. */
  lemma PathsAgreeOnAnyStream(cfg: Config, blocks: seq<Block>)
    requires cfg.FastPathUsable()
    ensures !StreamApart(cfg, UNSET_CURSOR, blocks) ==>
              Results(Run(cfg, Fast, INITIAL, blocks)) == Results(Run(cfg, Simple, INITIAL, blocks))
    ensures (forall b :: b in blocks ==> |b.samples| <= 1) ==>
              (Results(Run(cfg, Fast, INITIAL, blocks)) == Results(Run(cfg, Simple, INITIAL, blocks))
               <==> !StreamApart(cfg, UNSET_CURSOR, blocks))
  {
    RunsCompare(cfg, INITIAL, INITIAL, blocks);
  }

  /** A sample period no longer than the window period makes every index fit. */
  lemma OrdinaryPeriodsFit(cfg: Config, samples: seq<Sample>)
    requires cfg.FastPathUsable() && cfg.time.samplePeriodNs <= cfg.windowPeriodNs
    ensures IndicesFit(cfg, samples)
  {
    forall s | s in samples ensures !Overflows(cfg.Grid(), s.sampleIndex) {
      ShortSamplePeriodNeverOverflows(cfg.Grid(), s.sampleIndex);
    }
  }
}
