/** Sample accounting of the bearing aggregator, on both paths and for every stream. */
module BearingCounters {
  import opened Common
  import opened WindowIndex
  import opened BearingModel

  lemma ActAccounting(cfg: Config, st: State, azimuthDeg: real, v: Verdict, s: Sample)
    ensures var e := Act(cfg, st, azimuthDeg, v, s);
            && e.state.counters == st.counters.Plus(e.delta) && e.state.cursor == st.cursor
            && e.delta.consumedSamples == 0
            && e.delta.invalid == (if v.Invalid? then 1 else 0)
            && e.delta.outOfRange == (if v.OutOfRange? then 1 else 0)
            && e.delta.complete + e.delta.incomplete >= e.delta.producedEstimates
            && e.delta.producedSnapshots == |e.snapshots|
            && e.state.nextSequenceId == st.nextSequenceId + |e.snapshots|
  {
    hide InOrder, AddToWindow, Opened, Emit;
    if st.window.Some? { EmissionAccounting(cfg, InOrder(st.window.value.candidates)); }
  }

  lemma {:induction false} EmissionAccounting(cfg: Config, cs: seq<Candidate>)
    ensures var e := Emit(cfg, cs);
            e.counters.complete + e.counters.incomplete == |cs| && |e.estimates| <= e.counters.complete
  {
    hide MakeEstimate;
    if cs != [] { EmissionAccounting(cfg, cs[..|cs| - 1]); }
  }

  /** What a call's effect reports about the samples it saw. */
  ghost predicate Accounts(st: State, e: Effect, vs: seq<Verdict>) {
    && e.state.counters == st.counters.Plus(e.delta)
    && e.delta.consumedSamples == |vs|
    && e.delta.invalid == multiset(vs)[Invalid]
    && e.delta.outOfRange == multiset(vs)[OutOfRange]
    && e.delta.producedSnapshots == |e.snapshots|
    && e.state.nextSequenceId == st.nextSequenceId + |e.snapshots|
  }

  lemma StepAccounting(cfg: Config, path: Path, st: State, azimuthDeg: real, s: Sample)
    requires path.Fast? ==> cfg.FastPathUsable()
    ensures var e := Step(cfg, path, st, azimuthDeg, s);
            Accounts(st, e, [Judge(cfg, path, st.cursor, s)]) && e.state.cursor == MoveCursor(cfg, path, st.cursor, s)
  {
    hide Judge, MoveCursor, Act;
    ActAccounting(cfg, Count(st, NO_COUNTS.(consumedSamples := 1)).(cursor := MoveCursor(cfg, path, st.cursor, s)),
                  azimuthDeg, Judge(cfg, path, st.cursor, s), s);
  }

  lemma AccountsChain(st: State, e: Effect, vs: seq<Verdict>, f: Effect, us: seq<Verdict>)
    requires Accounts(st, e, vs) && Accounts(e.state, f, us)
    ensures Accounts(st, Then(e, f), vs + us)
  {
    assert multiset(vs + us) == multiset(vs) + multiset(us);
  }

  /** consumed = invalid + out of range + below the floor + accepted, each counter being the number of samples
      so judged; the totals grow by exactly the call's counters, and sequence ids by one per snapshot. */
  lemma {:induction false} SamplesConserved(cfg: Config, path: Path, st: State, azimuthDeg: real, samples: seq<Sample>)
    requires path.Fast? ==> cfg.FastPathUsable()
    ensures Accounts(st, Consume(cfg, path, st, azimuthDeg, samples), Judged(cfg, path, st.cursor, samples).0)
    ensures Consume(cfg, path, st, azimuthDeg, samples).state.cursor == Judged(cfg, path, st.cursor, samples).1
  {
    hide Judge, MoveCursor, Step, Then;
    if samples == [] {
      PlusNothing(st.counters);
    } else {
      var front, s := samples[..|samples| - 1], samples[|samples| - 1];
      SamplesConserved(cfg, path, st, azimuthDeg, front);
      var e := Consume(cfg, path, st, azimuthDeg, front);
      StepAccounting(cfg, path, e.state, azimuthDeg, s);
      var f := Step(cfg, path, e.state, azimuthDeg, s);
      AccountsChain(st, e, Judged(cfg, path, st.cursor, front).0, f, [Judge(cfg, path, e.state.cursor, s)]);
      ThenEndsIn(e, f);
    }
  }

  lemma ThenEndsIn(e: Effect, f: Effect)
    ensures Then(e, f).state == f.state
  {
  }

  // ---- what the snapshots of a call add up to ------------------------------------------------------------

  datatype Totals = Totals(estimates: nat, complete: nat, incomplete: nat, missingBeam0: nat, missingBeam1: nat)

  /** The estimates in the snapshots, and their own counts added up. */
  function TotalsOf(ss: seq<Snapshot>): Totals {
    if ss == [] then Totals(0, 0, 0, 0, 0)
    else
      var t, s := TotalsOf(ss[..|ss| - 1]), ss[|ss| - 1];
      Totals(t.estimates + |s.estimates|, t.complete + s.counters.complete, t.incomplete + s.counters.incomplete,
             t.missingBeam0 + s.counters.missingBeam0, t.missingBeam1 + s.counters.missingBeam1)
  }

  /** A call counts exactly what it returns. */
  ghost predicate CountsItsSnapshots(e: Effect) {
    && e.delta.producedSnapshots == |e.snapshots|
    && TotalsOf(e.snapshots) == Totals(e.delta.producedEstimates, e.delta.complete, e.delta.incomplete,
                                       e.delta.missingBeam0, e.delta.missingBeam1)
  }

  lemma {:induction false} TotalsAppend(xs: seq<Snapshot>, ys: seq<Snapshot>)
    ensures var t, u := TotalsOf(xs), TotalsOf(ys);
            TotalsOf(xs + ys) == Totals(t.estimates + u.estimates, t.complete + u.complete, t.incomplete + u.incomplete,
                                        t.missingBeam0 + u.missingBeam0, t.missingBeam1 + u.missingBeam1)
  {
    if ys == [] {
      assert xs + ys == xs;
    } else {
      TotalsAppend(xs, ys[..|ys| - 1]);
      assert (xs + ys)[..|xs + ys| - 1] == xs + ys[..|ys| - 1];
    }
  }

  lemma ThenCounts(e: Effect, f: Effect)
    requires CountsItsSnapshots(e) && CountsItsSnapshots(f)
    ensures CountsItsSnapshots(Then(e, f))
  {
    TotalsAppend(e.snapshots, f.snapshots);
    hide TotalsOf;
  }

  lemma TotalsOfOne(s: Snapshot)
    ensures TotalsOf([s]) == Totals(|s.estimates|, s.counters.complete, s.counters.incomplete,
                                    s.counters.missingBeam0, s.counters.missingBeam1)
  {
    assert [s][..0] == [];
    assert TotalsOf([]) == Totals(0, 0, 0, 0, 0);
  }

  lemma CloseCounts(cfg: Config, st: State)
    ensures CountsItsSnapshots(Close(cfg, st))
  {
    hide InOrder, Emit;
    var e := Close(cfg, st);
    if e.snapshots != [] { TotalsOfOne(e.snapshots[0]); }
  }

  lemma StepCounts(cfg: Config, path: Path, st: State, azimuthDeg: real, s: Sample)
    requires path.Fast? ==> cfg.FastPathUsable()
    ensures CountsItsSnapshots(Step(cfg, path, st, azimuthDeg, s))
  {
    hide Judge, MoveCursor, Close, AddToWindow, Opened;
    var counted := Count(st, NO_COUNTS.(consumedSamples := 1)).(cursor := MoveCursor(cfg, path, st.cursor, s));
    CloseCounts(cfg, counted);
    ThenCounts(Effect(counted, [], NO_COUNTS.(consumedSamples := 1)), Act(cfg, counted, azimuthDeg, Judge(cfg, path, st.cursor, s), s));
  }

  lemma {:induction false} ConsumeCounts(cfg: Config, path: Path, st: State, azimuthDeg: real, samples: seq<Sample>)
    requires path.Fast? ==> cfg.FastPathUsable()
    ensures CountsItsSnapshots(Consume(cfg, path, st, azimuthDeg, samples))
  {
    hide Step, Then;
    if samples != [] {
      var front := samples[..|samples| - 1];
      ConsumeCounts(cfg, path, st, azimuthDeg, front);
      var e := Consume(cfg, path, st, azimuthDeg, front);
      StepCounts(cfg, path, e.state, azimuthDeg, samples[|samples| - 1]);
      ThenCounts(e, Step(cfg, path, e.state, azimuthDeg, samples[|samples| - 1]));
      hide CountsItsSnapshots;
    }
  }

  /** Every call of a run, the final flush included, counts exactly the snapshots and estimates that it returns and what
      those snapshots count. */
  lemma {:induction false} CallsCountTheirSnapshots(cfg: Config, path: Path, st: State, blocks: seq<Block>)
    requires path.Fast? ==> cfg.FastPathUsable()
    ensures forall e :: e in Run(cfg, path, st, blocks) ==> CountsItsSnapshots(e)
    decreases |blocks|
  {
    hide CountsItsSnapshots, Consume, Close;
    if blocks == [] {
      CloseCounts(cfg, st);
    } else {
      BlockCounts(cfg, path, st, blocks[0]);
      CallsCountTheirSnapshots(cfg, path, ConsumeBlock(cfg, path, st, blocks[0]).state, blocks[1..]);
      hide ConsumeBlock;
    }
  }

  lemma BlockCounts(cfg: Config, path: Path, st: State, b: Block)
    requires path.Fast? ==> cfg.FastPathUsable()
    ensures CountsItsSnapshots(ConsumeBlock(cfg, path, st, b))
  {
    hide Consume;
    var d := NO_COUNTS.(consumedBlocks := 1);
    ConsumeCounts(cfg, path, Count(st, d), b.Azimuth(cfg), b.samples);
    ThenCounts(Effect(Count(st, d), [], d), Consume(cfg, path, Count(st, d), b.Azimuth(cfg), b.samples));
  }
}
