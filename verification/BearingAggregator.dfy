/** The bearing aggregator's production path: cached window cursor, flat slots, block-local
    accumulators with a touched list, merge on window change. The ghost field `model` is the
    state of the per-sample path it refines. */
module BearingAggregation {
  import opened Common
  import opened WindowIndex
  import opened FrequencyBins
  import opened BearingModel
  import opened BearingFlatStorage

  /** The touched list names exactly the accumulators that hold samples, each once. */
  ghost predicate BuffersOk(local: seq<LocalCandidate>, touched: seq<nat>, hasSamples: bool) {
    && (forall i :: 0 <= i < |local| && !local[i].hasSamples ==> local[i] == EMPTY_LOCAL)
    && (forall t :: t in touched ==> t < |local| && local[t].hasSamples)
    && (forall i :: 0 <= i < |local| && local[i].hasSamples ==> i in touched)
    && (forall i, j :: 0 <= i < j < |touched| ==> touched[i] != touched[j])
    && (hasSamples <==> touched != [])
  }

  /** An accumulator that takes its first sample is listed as touched. */
  lemma BuffersAfterAdd(local: seq<LocalCandidate>, touched: seq<nat>, slot: nat, after: LocalCandidate)
    requires BuffersOk(local, touched, touched != []) && slot < |local| && after.hasSamples
    ensures BuffersOk(local[slot := after], if local[slot].hasSamples then touched else touched + [slot], true)
  {
    var listed := if local[slot].hasSamples then touched else touched + [slot];
    assert slot in listed;
    assert forall t :: t in listed <==> t in touched || t == slot;
  }

  /** The open window together with the accumulators stands for the model's window. */
  ghost predicate WindowOk(cfg: Config, openWindow: Option<OpenWindow>, local: seq<LocalCandidate>, touched: seq<nat>,
                           hasSamples: bool, first: U64, last: U64, model: Option<CandidateWindow>)
  {
    match openWindow
    case None => model.None? && touched == []
    case Some(w) =>
      && model.Some?
      && StorageOk(cfg, w, local)
      && Mirrors(cfg, View(w, local), model.value.candidates)
      && model.value.index == w.index
      && model.value.azimuthDeg == w.azimuthDeg
      && model.value.firstSampleIndex == (if hasSamples then Min(w.firstSampleIndex, first) else w.firstSampleIndex)
      && model.value.lastSampleIndex == (if hasSamples then Max(w.lastSampleIndex, last) else w.lastSampleIndex)
  }

  class BearingAggregator {
    const cfg: Config
    var counters: Counters
    var openWindow: Option<OpenWindow>
    var nextSnapshotSequenceId: nat
    var incrementalWindowIndex: Option<U64>
    var incrementalNextWindowStart: Option<U64>
    var lastWindowSampleIndex: Option<U64>
    var localCandidates: seq<LocalCandidate>
    var touched: seq<nat>
    var localHasSamples: bool
    var localFirstSampleIndex: U64
    var localLastSampleIndex: U64
    ghost var model: State

    ghost function CursorNow(): Cursor
      reads this
    {
      Cursor(incrementalWindowIndex, incrementalNextWindowStart, lastWindowSampleIndex)
    }

    ghost predicate Valid()
      reads this
    {
      && cfg.FastPathUsable()
      && model.counters == counters
      && model.nextSequenceId == nextSnapshotSequenceId
      && model.cursor == CursorNow() && CursorOk(cfg.Grid(), CursorNow())
      && BuffersOk(localCandidates, touched, localHasSamples)
      && WindowOk(cfg, openWindow, localCandidates, touched, localHasSamples, localFirstSampleIndex,
                  localLastSampleIndex, model.window)
    }

    constructor (config: Config)
      requires config.FastPathUsable()
      ensures Valid() && cfg == config && model == INITIAL
    {
      cfg := config;
      counters := NO_COUNTS;
      openWindow := None;
      nextSnapshotSequenceId := 1;
      incrementalWindowIndex, incrementalNextWindowStart, lastWindowSampleIndex := None, None, None;
      localCandidates, touched := [], [];
      localHasSamples, localFirstSampleIndex, localLastSampleIndex := false, 0, 0;
      model := INITIAL;
    }

    method Reset()
      requires Valid()
      modifies this
      ensures Valid() && model == INITIAL
    {
      counters := NO_COUNTS;
      openWindow := None;
      nextSnapshotSequenceId := 1;
      incrementalWindowIndex, incrementalNextWindowStart, lastWindowSampleIndex := None, None, None;
      model := INITIAL;
      ResetLocalTouched();
    }

    method PrimeWindow(s: U64, window: Option<U64>)
      modifies `incrementalWindowIndex, `incrementalNextWindowStart, `lastWindowSampleIndex
      ensures CursorNow() == Primed(cfg.Grid(), s, window)
    {
      if window.None? {
        incrementalWindowIndex, incrementalNextWindowStart, lastWindowSampleIndex := None, None, None;
        return;
      }
      incrementalWindowIndex := window;
      if window.value == U64_MAX {
        incrementalNextWindowStart := None;
      } else {
        incrementalNextWindowStart := FirstSampleForWindow(cfg.Grid(), window.value + 1);
      }
      lastWindowSampleIndex := Some(s);
    }

    /** Moves the cached window index to a sample: the boundary-stepping loop, with the exact
        division as fallback. */
    method AdvanceWindow(s: U64)
      requires cfg.Grid().Usable() && cfg.time.firstSampleIndex <= s
      requires CursorOk(cfg.Grid(), CursorNow())
      modifies `incrementalWindowIndex, `incrementalNextWindowStart, `lastWindowSampleIndex
      ensures CursorNow() == CursorAfter(cfg.Grid(), old(CursorNow()), s)
      ensures CursorOk(cfg.Grid(), CursorNow())
    {
      ghost var g := cfg.Grid();
      ghost var before := CursorNow();
      CursorExactness(g, before, s);
      WindowForSampleIsExact(g, s);
      if lastWindowSampleIndex.Some? && s < lastWindowSampleIndex.value {
        PrimeWindow(s, WindowForSample(cfg.Grid(), s));
      } else if incrementalWindowIndex.None? || incrementalNextWindowStart.None? {
        PrimeWindow(s, WindowForSample(cfg.Grid(), s));
      } else {
        WindowMonotone(g, lastWindowSampleIndex.value, s);
        while incrementalNextWindowStart.Some? && s >= incrementalNextWindowStart.value
          invariant incrementalWindowIndex.Some? && incrementalNextWindowStart.Some?
          invariant incrementalWindowIndex.value <= Window(g, s) && incrementalWindowIndex.value < U64_MAX
          invariant incrementalNextWindowStart == FirstSampleForWindow(g, incrementalWindowIndex.value + 1)
          decreases U64_MAX - incrementalWindowIndex.value
        {
          // The source's guard for an index already at its maximum cannot fire here: the
          // next start would be unknown and the loop not entered.
          WindowReached(g, s, incrementalWindowIndex.value + 1);
          incrementalWindowIndex := Some(incrementalWindowIndex.value + 1);
          if incrementalWindowIndex.value == U64_MAX {
            incrementalNextWindowStart := None;
            break;
          }
          var nextBoundary := FirstSampleForWindow(cfg.Grid(), incrementalWindowIndex.value + 1);
          if nextBoundary.None? {
            WindowReached(g, s, incrementalWindowIndex.value + 1);
            PrimeWindow(s, WindowForSample(cfg.Grid(), s));
            break;
          }
          incrementalNextWindowStart := nextBoundary;
        }
        if incrementalNextWindowStart.Some? {
          WindowReached(g, s, incrementalWindowIndex.value + 1);
        }
        if incrementalWindowIndex.Some? {
          lastWindowSampleIndex := Some(s);
        }
      }
    }

    method PrepareLocalBuffers()
      requires Valid()
      modifies `localCandidates, `touched, `localHasSamples
      ensures Valid() && |localCandidates| == SlotCount(cfg)
    {
      if |localCandidates| != SlotCount(cfg) {
        localCandidates := seq(SlotCount(cfg), _ => EMPTY_LOCAL);
        touched := [];
        localHasSamples := false;
      }
    }

    method ResetLocalTouched()
      requires BuffersOk(localCandidates, touched, localHasSamples)
      modifies `localCandidates, `touched, `localHasSamples, `localFirstSampleIndex, `localLastSampleIndex
      ensures BuffersOk(localCandidates, touched, localHasSamples) && touched == [] && |localCandidates| == old(|localCandidates|)
      ensures forall i :: 0 <= i < |localCandidates| ==> localCandidates[i] == EMPTY_LOCAL
    {
      for j := 0 to |touched|
        invariant |localCandidates| == old(|localCandidates|) && touched == old(touched)
        invariant forall i :: 0 <= i < |localCandidates| ==>
                    localCandidates[i] == EMPTY_LOCAL || (i in touched && i !in touched[..j])
      {
        if touched[j] < |localCandidates| {
          localCandidates := localCandidates[touched[j] := EMPTY_LOCAL];
        }
        assert touched[..j + 1] == touched[..j] + [touched[j]];
      }
      assert touched[..|touched|] == touched;
      touched := [];
      localHasSamples, localFirstSampleIndex, localLastSampleIndex := false, 0, 0;
    }

    /** Moves the accumulators into the window's slots; what is stored stands for the same window. */
    method MergeLocalCandidates()
      requires Valid()
      modifies `openWindow, `localCandidates, `touched, `localHasSamples, `localFirstSampleIndex, `localLastSampleIndex
      ensures Valid() && touched == [] && |localCandidates| == old(|localCandidates|)
      ensures openWindow.Some? == old(openWindow.Some?)
    {
      if openWindow.None? || touched == [] {
        ghost var local := localCandidates;
        ResetLocalTouched();
        assert localCandidates == local;
        return;
      }

      ghost var w := openWindow.value;
      ghost var local := localCandidates;
      ghost var all := touched;
      assert StorageOk(cfg, w, local) && |w.slots| == |local|;
      hide StorageOk, Mirrors, View, CursorOk, Standing, AdoptLocal, WidenByLocal;
      var merged := openWindow.value;
      if localHasSamples {
        merged := merged.(firstSampleIndex := Min(merged.firstSampleIndex, localFirstSampleIndex),
                          lastSampleIndex := Max(merged.lastSampleIndex, localLastSampleIndex));
      }
      ghost var first, last := merged.firstSampleIndex, merged.lastSampleIndex;
      NothingMerged(cfg, merged, w, local);
      for j := 0 to |touched|
        invariant merged.firstSampleIndex == first && merged.lastSampleIndex == last
        invariant PartlyMerged(merged, w, local, all[..j])
        modifies {}
      {
        var index := touched[j];
        assert index in all && index !in all[..j];
        assert all[..j + 1] == all[..j] + [index];
        MergeAdvances(merged, w, local, all[..j], index);
        var l := localCandidates[index];
        if !merged.used[index] {
          merged := merged.(used := merged.used[index := true], usedCount := merged.usedCount + 1,
                            slots := merged.slots[index := AdoptLocal(merged.slots[index], l, merged.azimuthDeg)]);
        } else {
          merged := merged.(slots := merged.slots[index := WidenByLocal(merged.slots[index], l)]);
        }
      }
      assert all[..|all|] == all;
      assert merged.index == w.index && merged.azimuthDeg == w.azimuthDeg && (forall i :: 0 <= i < |local| ==> (local[i].hasSamples <==> i in all));
      hide PartlyMerged;
      openWindow := Some(merged);
      ResetLocalTouched();
      MergedStandsForAll(cfg, merged, w, local, all, localCandidates);
    }

    /** Walks the used slots upwards and hands each to the estimate builder. */
    method EmitUsedSlots(w: OpenWindow, ghost m: map<Key, Candidate>) returns (emission: Emission)
      requires StorageOk(cfg, w, localCandidates) && |w.slots| == |w.used| == SlotCount(cfg) && Mirrors(cfg, View(w, localCandidates), m)
      requires forall i :: 0 <= i < |localCandidates| ==> localCandidates[i] == EMPTY_LOCAL
      ensures emission == Emit(cfg, InOrder(m))
    {
      hide SlotOf, KeyOf, SlotCount, View, Mirrors, EmitOne, SortedKeys, Emit, Along;
      UsedKeysListTheMap(cfg, w, localCandidates, m);
      emission := NO_EMISSION;
      EmitNothing(cfg, m);
      for index := 0 to |w.used|
        invariant forall k :: k in UsedKeysBelow(cfg, w.used, index) ==> k in m
        invariant emission == Emit(cfg, Along(m, UsedKeysBelow(cfg, w.used, index)))
      {
        if w.used[index] {
          emission := EmitOne(cfg, emission, w.slots[index]);
          EmitSnoc(cfg, m, UsedKeysBelow(cfg, w.used, index), KeyOf(cfg, index));
        }
      }
    }

    /** Closes the merged window: incomplete candidates are counted, complete ones become estimates in slot order. */
    method CloseOpenWindow(delta: Counters) returns (snapshot: Option<Snapshot>, delta': Counters)
      requires Valid() && touched == []
      modifies `counters, `openWindow, `nextSnapshotSequenceId, `model
      ensures Valid() && openWindow.None?
      ensures model == Close(cfg, old(model)).state
      ensures delta' == delta.Plus(Close(cfg, old(model)).delta)
      ensures (if snapshot.Some? then [snapshot.value] else []) == Close(cfg, old(model)).snapshots
    {
      hide CursorOk, SlotCount, View, Mirrors, Emit, InOrder, CountsOf, Counters.Plus;
      PlusNothing(delta);
      if openWindow.Some? {
        NothingUsedNothingMapped(cfg, openWindow.value, localCandidates, model.window.value.candidates);
      }
      if openWindow.None? || openWindow.value.usedCount == 0 {
        openWindow := None;
        model := model.(window := None);
        return None, delta;
      }
      var emission := EmitUsedSlots(openWindow.value, model.window.value.candidates);
      var produced := Snapshot(nextSnapshotSequenceId, emission.estimates,
                               emission.counters.(producedEstimates := |emission.estimates|));
      nextSnapshotSequenceId := nextSnapshotSequenceId + 1;
      counters := counters.Plus(CountsOf(produced));
      delta' := delta.Plus(CountsOf(produced));
      openWindow := None;
      model := Close(cfg, model).state;
      snapshot := Some(produced);
    }

    /** Adds an admitted sample to its accumulator; the window is already the right one. */
    method UpdateLocalCandidate(key: Key, s: Sample)
      requires Valid() && openWindow.Some? && KeyFits(cfg, key)
      modifies `localCandidates, `touched, `localHasSamples, `localFirstSampleIndex, `localLastSampleIndex, `model
      ensures Valid() && |localCandidates| == old(|localCandidates|)
      ensures model == old(model).(window := Some(AddToWindow(cfg, old(model).window.value, key, s)))
    {
      hide CursorOk, SlotCount, SlotOf, AddLocal, AddSample, View, Mirrors;
      var slot := SlotOf(cfg, key);
      MirrorsAdd(cfg, openWindow.value, localCandidates, model.window.value.candidates, key, s);
      BuffersAfterAdd(localCandidates, touched, slot, AddLocal(cfg, localCandidates[slot], key, s));
      hide BuffersOk;
      WidenLocalBounds(s.sampleIndex);
      if !localCandidates[slot].hasSamples {
        touched := touched + [slot];
      }
      localCandidates := localCandidates[slot := AddLocal(cfg, localCandidates[slot], key, s)];
      model := model.(window := Some(AddToWindow(cfg, model.window.value, key, s)));
    }

    method WidenLocalBounds(sampleIndex: U64)
      modifies `localHasSamples, `localFirstSampleIndex, `localLastSampleIndex
      ensures localHasSamples
      ensures localFirstSampleIndex == if old(localHasSamples) then Min(old(localFirstSampleIndex), sampleIndex) else sampleIndex
      ensures localLastSampleIndex == if old(localHasSamples) then Max(old(localLastSampleIndex), sampleIndex) else sampleIndex
    {
      if !localHasSamples {
        localHasSamples := true;
        localFirstSampleIndex, localLastSampleIndex := sampleIndex, sampleIndex;
      } else {
        localFirstSampleIndex := Min(localFirstSampleIndex, sampleIndex);
        localLastSampleIndex := Max(localLastSampleIndex, sampleIndex);
      }
    }

    /** The trusted block-local path over one span of samples. */
    method ConsumeTrustedBlockLocalFast(samples: seq<Sample>, azimuthDeg: Option<real>)
      returns (snapshots: seq<Snapshot>, delta: Counters)
      requires Valid()
      modifies this
      ensures Valid()
      ensures Effect(model, snapshots, delta)
              == Consume(cfg, Fast, old(model), Block(azimuthDeg, samples).Azimuth(cfg), samples)
    {
      hide CursorOk, WindowOk, BuffersOk, SlotCount, Step, Counters.Plus;
      snapshots, delta := [], NO_COUNTS;
      PrepareLocalBuffers();
      var azimuth := if azimuthDeg.Some? then azimuthDeg.value else cfg.fallbackAzimuthDeg;
      ghost var start := model;
      for n := 0 to |samples|
        invariant Valid() && |localCandidates| == SlotCount(cfg)
        invariant Effect(model, snapshots, delta) == Consume(cfg, Fast, start, azimuth, samples[..n])
      {
        assert samples[..n + 1][..n] == samples[..n];
        var emitted, counted := ConsumeSample(samples[n], azimuth);
        snapshots := snapshots + emitted;
        delta := delta.Plus(counted);
      }
      assert samples[..|samples|] == samples;
      MergeLocalCandidates();
    }

    /** One iteration of the sample loop. */
    method ConsumeSample(s: Sample, azimuthDeg: real) returns (emitted: seq<Snapshot>, delta: Counters)
      requires Valid() && |localCandidates| == SlotCount(cfg)
      modifies this
      ensures Valid() && |localCandidates| == SlotCount(cfg)
      ensures Effect(model, emitted, delta) == Step(cfg, Fast, old(model), azimuthDeg, s)
    {
      hide CursorOk, WindowOk, BuffersOk, SlotCount, Admit, JudgeFast, ReachesCursor, Counters.Plus;
      var seen := NO_COUNTS.(consumedSamples := 1);
      emitted, delta := [], seen;
      counters := counters.Plus(seen);
      model := Count(model, seen);
      var verdict := JudgeSample(s);
      match verdict
      case Invalid =>
        var invalid := NO_COUNTS.(invalid := 1);
        counters, delta := counters.Plus(invalid), delta.Plus(invalid);
        model := Count(model, invalid);
      case OutOfRange =>
        var outOfRange := NO_COUNTS.(outOfRange := 1);
        counters, delta := counters.Plus(outOfRange), delta.Plus(outOfRange);
        model := Count(model, outOfRange);
      case BelowFloor =>
        PlusNothing(delta);
      case Accept(windowIndex, key) =>
        emitted, delta := AdmitSample(windowIndex, key, s, azimuthDeg, delta);
    }

    method AdmitSample(windowIndex: U64, key: Key, s: Sample, azimuthDeg: real, delta: Counters)
      returns (emitted: seq<Snapshot>, delta': Counters)
      requires Valid() && |localCandidates| == SlotCount(cfg) && KeyFits(cfg, key)
      modifies this
      ensures Valid() && |localCandidates| == SlotCount(cfg)
      ensures var admitted := Admit(cfg, old(model), azimuthDeg, windowIndex, key, s);
              model == admitted.state && emitted == admitted.snapshots && delta' == delta.Plus(admitted.delta)
    {
      hide CursorOk, WindowOk, BuffersOk, SlotCount, Close, Opened, AddToWindow, Counters.Plus;
      PlusNothing(delta);
      emitted, delta' := EnterWindow(windowIndex, s, azimuthDeg, delta);
      UpdateLocalCandidate(key, s);
    }

    /** The checks a sample passes before it reaches a window. */
    method JudgeSample(s: Sample) returns (verdict: Verdict)
      requires Valid()
      modifies `incrementalWindowIndex, `incrementalNextWindowStart, `lastWindowSampleIndex, `model
      ensures Valid()
      ensures model == old(model).(cursor := MoveCursor(cfg, Fast, old(model).cursor, s))
      ensures verdict == JudgeFast(cfg, old(model).cursor, s)
      ensures verdict.Accept? ==> KeyFits(cfg, verdict.key)
    {
      hide CursorOk, WindowOk, BuffersOk, CursorWindow;
      if s.sampleIndex < cfg.time.firstSampleIndex || s.amplitude <= 0 {
        return Invalid;
      }
      if s.amplitude < cfg.amplitudeFloor {
        return BelowFloor;
      }
      AdvanceWindow(s.sampleIndex);
      model := model.(cursor := CursorNow());
      if incrementalWindowIndex.None? {
        return Invalid;
      }
      if s.frequencyHz < cfg.bins.minHz || s.frequencyHz > cfg.bins.maxHz {
        return if s.frequencyHz <= 0 then Invalid else OutOfRange;
      }
      if s.bandIndex < 0 || s.bandIndex >= cfg.bandCapacity {
        return Invalid;
      }
      BinIsExactQuotient(cfg.bins, s.frequencyHz);
      verdict := Accept(incrementalWindowIndex.value, Key(s.bandIndex, BinForFrequency(cfg.bins, s.frequencyHz)));
    }

    /** Makes the sample's window the open one, closing another window first. */
    method EnterWindow(windowIndex: U64, s: Sample, azimuthDeg: real, delta: Counters)
      returns (emitted: seq<Snapshot>, delta': Counters)
      requires Valid() && |localCandidates| == SlotCount(cfg)
      modifies this
      ensures Valid() && |localCandidates| == SlotCount(cfg) && openWindow.Some?
      ensures if old(model).window.Some? && old(model).window.value.index == windowIndex then
                model == old(model) && emitted == [] && delta' == delta
              else
                && var closed := Close(cfg, old(model));
                && model == closed.state.(window := Some(Opened(windowIndex, s, azimuthDeg)))
                && emitted == closed.snapshots && delta' == delta.Plus(closed.delta)
    {
      emitted, delta' := [], delta;
      if openWindow.None? {
        OpenBlank(windowIndex, s, azimuthDeg);
      } else if openWindow.value.index != windowIndex {
        MergeLocalCandidates();
        var snapshot;
        snapshot, delta' := CloseOpenWindow(delta);
        if snapshot.Some? { emitted := [snapshot.value]; }
        OpenBlank(windowIndex, s, azimuthDeg);
      }
    }

    method OpenBlank(windowIndex: U64, s: Sample, azimuthDeg: real)
      requires Valid() && |localCandidates| == SlotCount(cfg) && openWindow.None?
      modifies `openWindow, `model
      ensures Valid() && openWindow.Some?
      ensures model == old(model).(window := Some(Opened(windowIndex, s, azimuthDeg)))
    {
      openWindow := Some(OpenWindow(windowIndex, s.sampleIndex, s.sampleIndex, NormalizeAzimuth(azimuthDeg),
                                    seq(SlotCount(cfg), _ => EMPTY_CANDIDATE), seq(SlotCount(cfg), _ => false), 0));
      model := model.(window := Some(Opened(windowIndex, s, azimuthDeg)));
    }

    method ConsumeBlockOfSamples(block: Block) returns (snapshots: seq<Snapshot>, delta: Counters)
      requires Valid()
      modifies this
      ensures Valid()
      ensures Effect(model, snapshots, delta) == ConsumeBlock(cfg, Fast, old(model), block)
    {
      hide CursorOk, WindowOk, BuffersOk, Consume;
      if block.samples == [] {
        return [], NO_COUNTS;
      }
      counters := counters.(consumedBlocks := counters.consumedBlocks + 1);
      model := Count(model, NO_COUNTS.(consumedBlocks := 1));
      snapshots, delta := ConsumeTrustedBlockLocalFast(block.samples, block.azimuthDeg);
      delta := delta.(consumedBlocks := 1);
      ConsumeCountsNoBlocks(cfg, Fast, Count(old(model), NO_COUNTS.(consumedBlocks := 1)),
                            block.Azimuth(cfg), block.samples);
    }

    method Flush() returns (snapshots: seq<Snapshot>, delta: Counters)
      requires Valid()
      modifies this
      ensures Valid()
      ensures Effect(model, snapshots, delta) == Close(cfg, old(model))
    {
      hide CursorOk, StorageOk, Mirrors, View, SlotCount, Close;
      MergeLocalCandidates();
      var snapshot;
      snapshot, delta := CloseOpenWindow(NO_COUNTS);
      snapshots := if snapshot.Some? then [snapshot.value] else [];
    }
  }

  lemma NothingMerged(cfg: Config, merged: OpenWindow, w: OpenWindow, local: seq<LocalCandidate>)
    requires StorageOk(cfg, w, local) && merged == w.(firstSampleIndex := merged.firstSampleIndex, lastSampleIndex := merged.lastSampleIndex)
    ensures PartlyMerged(merged, w, local, [])
  {
  }

  lemma EmitNothing(cfg: Config, m: map<Key, Candidate>)
    ensures Emit(cfg, Along(m, [])) == NO_EMISSION
  {
  }

  lemma EmitSnoc(cfg: Config, m: map<Key, Candidate>, ks: seq<Key>, k: Key)
    requires k in m && forall x :: x in ks ==> x in m
    ensures Emit(cfg, Along(m, ks + [k])) == EmitOne(cfg, Emit(cfg, Along(m, ks)), m[k])
  {
    hide EmitOne;
    var cs := Along(m, ks);
    assert Along(m, ks + [k]) == cs + [m[k]];
    assert (cs + [m[k]])[..|cs|] == cs;
  }

  lemma {:induction false} ConsumeCountsNoBlocks(cfg: Config, path: Path, st: State, azimuthDeg: real, samples: seq<Sample>)
    requires path.Fast? ==> cfg.FastPathUsable()
    ensures Consume(cfg, path, st, azimuthDeg, samples).delta.consumedBlocks == 0
  {
    hide Step;
    if samples != [] {
      var front, s := samples[..|samples| - 1], samples[|samples| - 1];
      ConsumeCountsNoBlocks(cfg, path, st, azimuthDeg, front);
      StepCountsNoBlocks(cfg, path, Consume(cfg, path, st, azimuthDeg, front).state, azimuthDeg, s);
    }
  }

  lemma StepCountsNoBlocks(cfg: Config, path: Path, st: State, azimuthDeg: real, s: Sample)
    requires path.Fast? ==> cfg.FastPathUsable()
    ensures Step(cfg, path, st, azimuthDeg, s).delta.consumedBlocks == 0
  {
    hide Judge, MoveCursor, Act;
    ActCountsNoBlocks(cfg, Count(st, NO_COUNTS.(consumedSamples := 1)).(cursor := MoveCursor(cfg, path, st.cursor, s)),
                      azimuthDeg, Judge(cfg, path, st.cursor, s), s);
  }

  lemma ActCountsNoBlocks(cfg: Config, st: State, azimuthDeg: real, v: Verdict, s: Sample)
    ensures Act(cfg, st, azimuthDeg, v, s).delta.consumedBlocks == 0
  {
    hide SnapshotOf, InOrder, Opened, AddToWindow;
  }
}
