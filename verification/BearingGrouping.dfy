/** What the bearing aggregator computes over a stream: one snapshot per window, built from
    that window's samples alone, however the stream was cut into blocks. */
module BearingGrouping {
  import opened Common
  import opened WindowIndex
  import opened FrequencyBins
  import opened BearingModel
  import opened BearingEquivalence
  import opened WindowGroups

  // ---- a window's candidates, from its samples --------------------------------------------

  function KeyOfSample(cfg: Config, s: Sample): Key {
    var bin := BinForFrequency(cfg.bins, s.frequencyHz);
    Key(s.bandIndex, if bin < 0 then 0 else bin)
  }

  function ForKey(cfg: Config, group: seq<Sample>, k: Key): seq<Sample> {
    if group == [] then []
    else
      var front := ForKey(cfg, group[..|group| - 1], k);
      if KeyOfSample(cfg, group[|group| - 1]) == k then front + [group[|group| - 1]] else front
  }

  function FirstIndex(group: seq<Sample>): (i: U64)
    requires group != []
    ensures forall s :: s in group ==> i <= s.sampleIndex
    ensures exists s :: s in group && i == s.sampleIndex
  {
    var front, s := group[..|group| - 1], group[|group| - 1];
    assert group == front + [s];
    if front == [] then s.sampleIndex else Min(FirstIndex(front), s.sampleIndex)
  }

  function LastIndex(group: seq<Sample>): (i: U64)
    requires group != []
    ensures forall s :: s in group ==> s.sampleIndex <= i
    ensures exists s :: s in group && i == s.sampleIndex
  {
    var front, s := group[..|group| - 1], group[|group| - 1];
    assert group == front + [s];
    if front == [] then s.sampleIndex else Max(LastIndex(front), s.sampleIndex)
  }

  predicate Lit(group: seq<Sample>, beam: int) { exists s :: s in group && s.beamIndex == beam }

  /** The largest amplitude of a beam; 0 when the beam is silent. */
  function Peak(group: seq<Sample>, beam: int): (p: U16)
    ensures forall s :: s in group && s.beamIndex == beam ==> ClampAmplitude(s.amplitude) <= p
    ensures p == 0 || exists s :: s in group && s.beamIndex == beam && ClampAmplitude(s.amplitude) == p
  {
    if group == [] then 0
    else
      var front, s := group[..|group| - 1], group[|group| - 1];
      assert group == front + [s];
      if s.beamIndex == beam then Max(Peak(front, beam), ClampAmplitude(s.amplitude)) else Peak(front, beam)
  }

  function Summary(cfg: Config, azimuthDeg: real, k: Key, group: seq<Sample>): Candidate
    requires group != []
  {
    Candidate(k.bandIndex, k.frequencyBin, FirstIndex(group), LastIndex(group),
              CenterFrequencyForBin(cfg.bins, k.frequencyBin),
              Peak(group, 0), Peak(group, 1), Lit(group, 0), Lit(group, 1), true, azimuthDeg)
  }

  function KeysOf(cfg: Config, group: seq<Sample>): set<Key> { set s | s in group :: KeyOfSample(cfg, s) }

  lemma {:induction false} ForKeyMembers(cfg: Config, group: seq<Sample>, k: Key)
    ensures forall s :: s in ForKey(cfg, group, k) <==> s in group && KeyOfSample(cfg, s) == k
    ensures ForKey(cfg, group, k) != [] <==> k in KeysOf(cfg, group)
  {
    if group != [] {
      var front, s := group[..|group| - 1], group[|group| - 1];
      assert group == front + [s];
      ForKeyMembers(cfg, front, k);
      if KeyOfSample(cfg, s) == k { assert s in ForKey(cfg, group, k); }
      if k in KeysOf(cfg, group) {
        var x :| x in group && KeyOfSample(cfg, x) == k;
        assert x in ForKey(cfg, group, k);
      }
    }
  }

  ghost function CandidatesOf(cfg: Config, azimuthDeg: real, group: seq<Sample>): map<Key, Candidate> {
    map k | k in KeysOf(cfg, group) ::
      ForKeyMembers(cfg, group, k);
      Summary(cfg, azimuthDeg, k, ForKey(cfg, group, k))
  }

  lemma SummarySnoc(cfg: Config, azimuthDeg: real, k: Key, group: seq<Sample>, s: Sample)
    ensures Summary(cfg, azimuthDeg, k, group + [s])
            == AddSample(cfg, if group == [] then EMPTY_CANDIDATE else Summary(cfg, azimuthDeg, k, group), k, azimuthDeg, s)
  {
    var all := group + [s];
    assert all[..|all| - 1] == group && all[|all| - 1] == s;
    forall beam ensures Lit(all, beam) <==> Lit(group, beam) || s.beamIndex == beam {
      if s.beamIndex == beam { assert s in all; }
    }
    PeakSnoc(group, s, 0);
    PeakSnoc(group, s, 1);
    if group == [] {
      assert !Lit(group, 0) && !Lit(group, 1);
    }
  }

  lemma PeakSnoc(group: seq<Sample>, s: Sample, beam: int)
    ensures Peak(group + [s], beam) ==
            if s.beamIndex == beam then Max(Peak(group, beam), ClampAmplitude(s.amplitude)) else Peak(group, beam)
    ensures Peak([], beam) == 0
  {
    var all := group + [s];
    assert all[..|all| - 1] == group && all[|all| - 1] == s;
  }

  /** Adding one sample to the candidate map is regrouping with one more sample. */
  lemma CandidatesSnoc(cfg: Config, azimuthDeg: real, group: seq<Sample>, s: Sample)
    ensures var k, m := KeyOfSample(cfg, s), CandidatesOf(cfg, azimuthDeg, group);
            CandidatesOf(cfg, azimuthDeg, group + [s])
            == m[k := AddSample(cfg, if k in m then m[k] else EMPTY_CANDIDATE, k, azimuthDeg, s)]
  {
    hide Summary, AddSample, KeyOfSample;
    var all := group + [s];
    assert all[..|all| - 1] == group && all[|all| - 1] == s;
    var k, m := KeyOfSample(cfg, s), CandidatesOf(cfg, azimuthDeg, group);
    ForKeyMembers(cfg, group, k);
    SummarySnoc(cfg, azimuthDeg, k, ForKey(cfg, group, k), s);
    assert KeysOf(cfg, all) == KeysOf(cfg, group) + {k} by {
      forall x | x in KeysOf(cfg, group) + {k} ensures x in KeysOf(cfg, all) {
        if x == k { assert s in all; } else {
          var y :| y in group && KeyOfSample(cfg, y) == x;
          assert y in all;
        }
      }
    }
    assert forall x :: x != k ==> ForKey(cfg, all, x) == ForKey(cfg, group, x);
    assert ForKey(cfg, all, k) == ForKey(cfg, group, k) + [s];
  }

  // ---- the stream -----------------------------------------------------------------------

  /** The samples a path accepts, with their windows. */
  function Accepted(cfg: Config, path: Path, cursor: Cursor, samples: seq<Sample>): seq<Tagged<Sample>>
    requires path.Fast? ==> cfg.FastPathUsable()
  {
    if samples == [] then []
    else
      var front, s := samples[..|samples| - 1], samples[|samples| - 1];
      var accepted := Accepted(cfg, path, cursor, front);
      match Judge(cfg, path, CursorAlong(cfg, path, cursor, front), s)
      case Accept(w, _) => accepted + [Tagged(w, s)]
      case _ => accepted
  }

  /** The snapshot of one window: its candidates in key order. */
  ghost function SnapshotOfGroup(cfg: Config, azimuthDeg: real, sequenceId: nat, g: Group<Sample>): Snapshot {
    SnapshotOf(cfg, sequenceId, InOrder(CandidatesOf(cfg, azimuthDeg, g.samples)))
  }

  ghost function SnapshotsOf(cfg: Config, azimuthDeg: real, gs: seq<Group<Sample>>): seq<Snapshot> {
    seq(|gs|, i requires 0 <= i < |gs| => SnapshotOfGroup(cfg, azimuthDeg, i + 1, gs[i]))
  }

  /** The aggregator has closed the groups cut off so far and holds the open one. */
  ghost predicate Follows(cfg: Config, azimuthDeg: real, st: State, sp: Split<Sample>) {
    && st.nextSequenceId == |sp.closed| + 1
    && (st.window.None? <==> sp.open.None?)
    && (sp.open.Some? ==>
          var w, g := st.window.value, sp.open.value;
          && g.samples != []
          && w.index == g.window && w.azimuthDeg == azimuthDeg
          && w.firstSampleIndex == FirstIndex(g.samples) && w.lastSampleIndex == LastIndex(g.samples)
          && w.candidates == CandidatesOf(cfg, azimuthDeg, g.samples))
  }

  /** Snapshots already emitted and those of the groups closed since make up the closed groups' snapshots. */
  ghost predicate Emits(cfg: Config, azimuthDeg: real, before: Split<Sample>, emitted: seq<Snapshot>, after: seq<Group<Sample>>) {
    SnapshotsOf(cfg, azimuthDeg, before.closed) + emitted == SnapshotsOf(cfg, azimuthDeg, after)
  }

  lemma CloseFollows(cfg: Config, azimuthDeg: real, st: State, sp: Split<Sample>)
    requires Follows(cfg, azimuthDeg, st, sp)
    ensures Close(cfg, st).state.window.None?
    ensures Close(cfg, st).state.nextSequenceId == |sp.Flushed()| + 1
    ensures Emits(cfg, azimuthDeg, sp, Close(cfg, st).snapshots, sp.Flushed())
  {
    hide CandidatesOf, SnapshotOf, InOrder, FirstIndex, LastIndex;
    if sp.open.Some? {
      GroupHasCandidates(cfg, azimuthDeg, sp.open.value.samples);
    }
  }

  lemma GroupHasCandidates(cfg: Config, azimuthDeg: real, group: seq<Sample>)
    requires group != []
    ensures CandidatesOf(cfg, azimuthDeg, group) != map[]
  {
    var k := KeyOfSample(cfg, group[0]);
    assert k in KeysOf(cfg, group);
    assert k in CandidatesOf(cfg, azimuthDeg, group);
  }

  lemma OpenedFollows(cfg: Config, azimuthDeg: real, index: U64, s: Sample)
    ensures var w := AddToWindow(cfg, Opened(index, s, azimuthDeg), KeyOfSample(cfg, s), s);
            && w.index == index && w.azimuthDeg == NormalizeAzimuth(azimuthDeg)
            && w.firstSampleIndex == FirstIndex([s]) && w.lastSampleIndex == LastIndex([s])
            && w.candidates == CandidatesOf(cfg, NormalizeAzimuth(azimuthDeg), [s])
  {
    hide Summary, AddSample, KeyOfSample, NormalizeAzimuth;
    var az := NormalizeAzimuth(azimuthDeg);
    CandidatesSnoc(cfg, az, [], s);
    assert [] + [s] == [s];
    assert CandidatesOf(cfg, az, []) == map[];
  }

  lemma GrownFollows(cfg: Config, w: CandidateWindow, group: seq<Sample>, s: Sample)
    requires group != [] && w.candidates == CandidatesOf(cfg, w.azimuthDeg, group)
    requires w.firstSampleIndex == FirstIndex(group) && w.lastSampleIndex == LastIndex(group)
    ensures var w' := AddToWindow(cfg, w, KeyOfSample(cfg, s), s);
            && w'.index == w.index && w'.azimuthDeg == w.azimuthDeg
            && w'.firstSampleIndex == FirstIndex(group + [s]) && w'.lastSampleIndex == LastIndex(group + [s])
            && w'.candidates == CandidatesOf(cfg, w.azimuthDeg, group + [s])
  {
    hide AddSample, KeyOfSample, CandidatesOf;
    assert (group + [s])[..|group|] == group;
    CandidatesSnoc(cfg, w.azimuthDeg, group, s);
  }

  lemma AdmitFollows(cfg: Config, azimuthDeg: real, st: State, sp: Split<Sample>, index: U64, s: Sample)
    requires Follows(cfg, NormalizeAzimuth(azimuthDeg), st, sp)
    ensures var e := Admit(cfg, st, azimuthDeg, index, KeyOfSample(cfg, s), s);
            && Follows(cfg, NormalizeAzimuth(azimuthDeg), e.state, Feed(sp, Tagged(index, s)))
            && Emits(cfg, NormalizeAzimuth(azimuthDeg), sp, e.snapshots, Feed(sp, Tagged(index, s)).closed)
  {
    hide CandidatesOf, KeyOfSample, FirstIndex, LastIndex, AddToWindow, Opened, Close, NormalizeAzimuth, SnapshotOfGroup;
    if sp.open.Some? && sp.open.value.window == index {
      GrownFollows(cfg, st.window.value, sp.open.value.samples, s);
    } else {
      CloseFollows(cfg, NormalizeAzimuth(azimuthDeg), st, sp);
      OpenedFollows(cfg, azimuthDeg, index, s);
    }
  }

  function FeedVerdict(sp: Split<Sample>, v: Verdict, s: Sample): Split<Sample> {
    match v
    case Accept(w, _) => Feed(sp, Tagged(w, s))
    case _ => sp
  }

  /** The split of the stream after some samples of a span. */
  function FeedAccepted(cfg: Config, path: Path, cursor: Cursor, sp: Split<Sample>, samples: seq<Sample>): Split<Sample>
    requires path.Fast? ==> cfg.FastPathUsable()
  {
    if samples == [] then sp
    else
      var front, s := samples[..|samples| - 1], samples[|samples| - 1];
      FeedVerdict(FeedAccepted(cfg, path, cursor, sp, front), Judge(cfg, path, CursorAlong(cfg, path, cursor, front), s), s)
  }

  lemma AcceptedKey(cfg: Config, path: Path, cursor: Cursor, s: Sample)
    requires path.Fast? ==> cfg.FastPathUsable()
    requires Judge(cfg, path, cursor, s).Accept?
    ensures Judge(cfg, path, cursor, s).key == KeyOfSample(cfg, s)
  {
    hide WindowForSample, CursorWindow;
    if path.Fast? { BinIsExactQuotient(cfg.bins, s.frequencyHz); }
  }

  lemma StepFollows(cfg: Config, path: Path, azimuthDeg: real, st: State, sp: Split<Sample>, s: Sample)
    requires path.Fast? ==> cfg.FastPathUsable()
    requires Follows(cfg, NormalizeAzimuth(azimuthDeg), st, sp)
    ensures var e := Step(cfg, path, st, azimuthDeg, s);
            var sp' := FeedVerdict(sp, Judge(cfg, path, st.cursor, s), s);
            && Follows(cfg, NormalizeAzimuth(azimuthDeg), e.state, sp')
            && Emits(cfg, NormalizeAzimuth(azimuthDeg), sp, e.snapshots, sp'.closed)
            && e.state.cursor == MoveCursor(cfg, path, st.cursor, s)
  {
    hide CandidatesOf, KeyOfSample, FirstIndex, LastIndex, Admit, NormalizeAzimuth, SnapshotOfGroup, Judge, MoveCursor, Feed, Counters.Plus;
    var counted := Count(st, NO_COUNTS.(consumedSamples := 1)).(cursor := MoveCursor(cfg, path, st.cursor, s));
    match Judge(cfg, path, st.cursor, s)
    case Accept(w, k) =>
      AcceptedKey(cfg, path, st.cursor, s);
      AdmitFollows(cfg, azimuthDeg, counted, sp, w, s);
      AdmitKeepsCursor(cfg, counted, azimuthDeg, w, k, s);
    case Invalid => case OutOfRange => case BelowFloor =>
  }

  lemma AdmitKeepsCursor(cfg: Config, st: State, azimuthDeg: real, index: U64, key: Key, s: Sample)
    ensures Admit(cfg, st, azimuthDeg, index, key, s).state.cursor == st.cursor
  {
    hide SnapshotOf, InOrder, AddToWindow, Opened;
  }

  lemma {:induction false} ConsumeFollows(cfg: Config, path: Path, azimuthDeg: real, st: State, sp: Split<Sample>, samples: seq<Sample>)
    requires path.Fast? ==> cfg.FastPathUsable()
    requires Follows(cfg, NormalizeAzimuth(azimuthDeg), st, sp)
    ensures var e := Consume(cfg, path, st, azimuthDeg, samples);
            var sp' := FeedAccepted(cfg, path, st.cursor, sp, samples);
            && Follows(cfg, NormalizeAzimuth(azimuthDeg), e.state, sp')
            && Emits(cfg, NormalizeAzimuth(azimuthDeg), sp, e.snapshots, sp'.closed)
            && e.state.cursor == CursorAlong(cfg, path, st.cursor, samples)
  {
    hide Follows, NormalizeAzimuth, Step, SnapshotsOf, Judge, MoveCursor, FeedVerdict;
    if samples != [] {
      var front, s := samples[..|samples| - 1], samples[|samples| - 1];
      ConsumeFollows(cfg, path, azimuthDeg, st, sp, front);
      var mid := FeedAccepted(cfg, path, st.cursor, sp, front);
      StepFollows(cfg, path, azimuthDeg, Consume(cfg, path, st, azimuthDeg, front).state, mid, s);
    }
  }

  function Flatten(blocks: seq<Block>): seq<Sample> {
    if blocks == [] then [] else blocks[0].samples + Flatten(blocks[1..])
  }

  ghost function AllSnapshots(es: seq<Effect>): seq<Snapshot> {
    if es == [] then [] else es[0].snapshots + AllSnapshots(es[1..])
  }

  lemma {:induction false} FeedConcat(cfg: Config, path: Path, cursor: Cursor, sp: Split<Sample>, a: seq<Sample>, b: seq<Sample>)
    requires path.Fast? ==> cfg.FastPathUsable()
    ensures CursorAlong(cfg, path, cursor, a + b) == CursorAlong(cfg, path, CursorAlong(cfg, path, cursor, a), b)
    ensures FeedAccepted(cfg, path, cursor, sp, a + b)
            == FeedAccepted(cfg, path, CursorAlong(cfg, path, cursor, a), FeedAccepted(cfg, path, cursor, sp, a), b)
  {
    hide Judge, MoveCursor, FeedVerdict;
    if b == [] {
      assert a + b == a;
    } else {
      assert (a + b)[..|a + b| - 1] == a + b[..|b| - 1];
      FeedConcat(cfg, path, cursor, sp, a, b[..|b| - 1]);
    }
  }

  lemma {:induction false} FeedIsSplit(cfg: Config, path: Path, cursor: Cursor, samples: seq<Sample>)
    requires path.Fast? ==> cfg.FastPathUsable()
    ensures FeedAccepted(cfg, path, cursor, Split([], None), samples) == SplitOf(Accepted(cfg, path, cursor, samples))
  {
    hide Judge, Feed, CursorAlong;
    if samples != [] {
      var front, s := samples[..|samples| - 1], samples[|samples| - 1];
      FeedIsSplit(cfg, path, cursor, front);
      match Judge(cfg, path, CursorAlong(cfg, path, cursor, front), s)
      case Accept(w, _) => SplitSnoc(Accepted(cfg, path, cursor, front), Tagged(w, s));
      case _ =>
    }
  }

  lemma BlockFollows(cfg: Config, path: Path, azimuthDeg: real, st: State, sp: Split<Sample>, b: Block)
    requires path.Fast? ==> cfg.FastPathUsable()
    requires Follows(cfg, NormalizeAzimuth(azimuthDeg), st, sp) && b.Azimuth(cfg) == azimuthDeg
    ensures var e := ConsumeBlock(cfg, path, st, b);
            var sp' := FeedAccepted(cfg, path, st.cursor, sp, b.samples);
            && Follows(cfg, NormalizeAzimuth(azimuthDeg), e.state, sp')
            && Emits(cfg, NormalizeAzimuth(azimuthDeg), sp, e.snapshots, sp'.closed)
            && e.state.cursor == CursorAlong(cfg, path, st.cursor, b.samples)
  {
    hide NormalizeAzimuth, Consume, SnapshotsOf, CandidatesOf, FirstIndex, LastIndex, FeedVerdict, Judge, MoveCursor;
    if b.samples != [] {
      ConsumeFollows(cfg, path, azimuthDeg, Count(st, NO_COUNTS.(consumedBlocks := 1)), sp, b.samples);
    }
  }

  lemma {:induction false} RunFollows(cfg: Config, path: Path, azimuthDeg: real, st: State, sp: Split<Sample>, blocks: seq<Block>)
    requires path.Fast? ==> cfg.FastPathUsable()
    requires Follows(cfg, NormalizeAzimuth(azimuthDeg), st, sp)
    requires forall b :: b in blocks ==> b.Azimuth(cfg) == azimuthDeg
    ensures Emits(cfg, NormalizeAzimuth(azimuthDeg), sp, AllSnapshots(Run(cfg, path, st, blocks)),
                  FeedAccepted(cfg, path, st.cursor, sp, Flatten(blocks)).Flushed())
    decreases |blocks|
  {
    hide Follows, NormalizeAzimuth, ConsumeBlock, SnapshotsOf, Close, CursorAlong;
    var az := NormalizeAzimuth(azimuthDeg);
    if blocks == [] {
      CloseFollows(cfg, az, st, sp);
      var e := Close(cfg, st);
      assert AllSnapshots([e]) == e.snapshots + AllSnapshots([e][1..]) == e.snapshots;
    } else {
      var b, rest := blocks[0], blocks[1..];
      BlockFollows(cfg, path, azimuthDeg, st, sp, b);
      var e := ConsumeBlock(cfg, path, st, b);
      var sp' := FeedAccepted(cfg, path, st.cursor, sp, b.samples);
      RunFollows(cfg, path, azimuthDeg, e.state, sp', rest);
      FeedConcat(cfg, path, st.cursor, sp, b.samples, Flatten(rest));
      hide FeedAccepted;
      var more := Run(cfg, path, e.state, rest);
      assert ([e] + more)[1..] == more;
      assert SnapshotsOf(cfg, az, sp.closed) + (e.snapshots + AllSnapshots(more))
          == (SnapshotsOf(cfg, az, sp.closed) + e.snapshots) + AllSnapshots(more);
    }
  }

  ghost predicate InIndexOrder(samples: seq<Sample>) {
    forall i, j :: 0 <= i < j < |samples| ==> samples[i].sampleIndex <= samples[j].sampleIndex
  }

  /** Streaming equals batch grouping, on either path. For blocks of one antenna azimuth whose concatenated samples
      never go back, however they are cut, the snapshots of all consume calls and the final flush are one per window
      holding a sample the path accepts, in strictly increasing window order, numbered from 1, each built from
      exactly that window's accepted samples. */
  lemma StreamingIsGroupBy(cfg: Config, path: Path, azimuthDeg: real, blocks: seq<Block>)
    returns (groups: seq<Group<Sample>>)
    requires path.Fast? ==> cfg.FastPathUsable()
    requires (forall b :: b in blocks ==> b.Azimuth(cfg) == azimuthDeg) && InIndexOrder(Flatten(blocks))
    ensures IsGroupBy(groups, Accepted(cfg, path, UNSET_CURSOR, Flatten(blocks)))
    ensures AllSnapshots(Run(cfg, path, INITIAL, blocks)) == SnapshotsOf(cfg, NormalizeAzimuth(azimuthDeg), groups)
  {
    hide SnapshotOfGroup, Run, NormalizeAzimuth, Accepted, FeedAccepted;
    var samples := Flatten(blocks);
    var sp: Split<Sample> := Split([], None);
    RunFollows(cfg, path, azimuthDeg, INITIAL, sp, blocks);
    FeedIsSplit(cfg, path, UNSET_CURSOR, samples);
    AcceptedNonDecreasing(cfg, path, UNSET_CURSOR, samples);
    SplitIsGroupBy(Accepted(cfg, path, UNSET_CURSOR, samples));
    groups := SplitOf(Accepted(cfg, path, UNSET_CURSOR, samples)).Flushed();
  }

  /** An accepted sample's window is the exact one, except that the fast path may file it under the last of all. */
  lemma AcceptedWindow(cfg: Config, path: Path, cursor: Cursor, s: Sample)
    requires path.Fast? ==> cfg.FastPathUsable()
    requires Judge(cfg, path, cursor, s).Accept?
    ensures cfg.Grid().Usable() && cfg.time.firstSampleIndex <= s.sampleIndex
    ensures Judge(cfg, path, cursor, s).window == Min(Window(cfg.Grid(), s.sampleIndex), U64_MAX)
    ensures path.Simple? ==> Window(cfg.Grid(), s.sampleIndex) <= U64_MAX
  {
    hide Window, BinForFrequency;
    WindowForSampleIsExact(cfg.Grid(), s.sampleIndex);
  }

  /** Windows of accepted samples never decrease when sample indices do not. */
  lemma {:induction false} AcceptedNonDecreasing(cfg: Config, path: Path, cursor: Cursor, samples: seq<Sample>)
    requires path.Fast? ==> cfg.FastPathUsable()
    requires InIndexOrder(samples)
    ensures NonDecreasing(Accepted(cfg, path, cursor, samples))
    ensures forall t :: t in Accepted(cfg, path, cursor, samples) ==>
              && t.sample in samples && cfg.Grid().Usable() && cfg.time.firstSampleIndex <= t.sample.sampleIndex
              && t.window == Min(Window(cfg.Grid(), t.sample.sampleIndex), U64_MAX)
              && (path.Simple? ==> t.window == Window(cfg.Grid(), t.sample.sampleIndex))
  {
    hide Window, Judge, CursorAlong;
    if samples != [] {
      var front, s := samples[..|samples| - 1], samples[|samples| - 1];
      AcceptedNonDecreasing(cfg, path, cursor, front);
      var ts := Accepted(cfg, path, cursor, front);
      var c := CursorAlong(cfg, path, cursor, front);
      if Judge(cfg, path, c, s).Accept? {
        AcceptedWindow(cfg, path, c, s);
        forall t | t in ts ensures t.window <= Min(Window(cfg.Grid(), s.sampleIndex), U64_MAX) {
          assert t.sample in front;
          WindowMonotone(cfg.Grid(), t.sample.sampleIndex, s.sampleIndex);
        }
      }
    }
  }

  // ---- the production path -----------------------------------------------------------------

  /** Tagged samples whose band has a slot in the flat storage. */
  function Placed(cfg: Config, ts: seq<Tagged<Sample>>): seq<Tagged<Sample>> {
    if ts == [] then []
    else
      var front, t := Placed(cfg, ts[..|ts| - 1]), ts[|ts| - 1];
      if cfg.BandInCapacity(t.sample.bandIndex) then front + [t] else front
  }

  lemma PlacedSnoc(cfg: Config, ts: seq<Tagged<Sample>>, t: Tagged<Sample>)
    ensures Placed(cfg, ts + [t]) == if cfg.BandInCapacity(t.sample.bandIndex) then Placed(cfg, ts) + [t] else Placed(cfg, ts)
  {
    assert (ts + [t])[..|ts|] == ts;
  }

  /** The fast path accepts what the per-sample path accepts, without the misplaced samples. */
  lemma {:induction false} FastAcceptsPlaced(cfg: Config, samples: seq<Sample>)
    requires cfg.FastPathUsable() && IndicesFit(cfg, samples)
    ensures Accepted(cfg, Fast, UNSET_CURSOR, samples) == Placed(cfg, Accepted(cfg, Simple, UNSET_CURSOR, samples))
    ensures CursorOk(cfg.Grid(), CursorAlong(cfg, Fast, UNSET_CURSOR, samples))
  {
    hide JudgeFast, JudgeSimple, MoveCursor, CursorOk, Overflows, WindowForSample;
    if samples == [] {
      assert CursorOk(cfg.Grid(), UNSET_CURSOR) by { UnsetIsOk(cfg.Grid()); }
    } else {
      var front, s := samples[..|samples| - 1], samples[|samples| - 1];
      assert s in samples;
      FastAcceptsPlaced(cfg, front);
      JudgementsAgree(cfg, CursorAlong(cfg, Fast, UNSET_CURSOR, front), s);
      var accepted := Accepted(cfg, Simple, UNSET_CURSOR, front);
      if JudgeSimple(cfg, s).Accept? { PlacedSnoc(cfg, accepted, Tagged(JudgeSimple(cfg, s).window, s)); }
    }
  }

  lemma UnsetIsOk(g: Grid)
    ensures CursorOk(g, UNSET_CURSOR)
  {
  }

  /** The production path over samples in index order: one snapshot per window holding an accepted sample whose band
      has a slot, each built from exactly those samples of its window. */
  lemma ProductionIsGroupBy(cfg: Config, azimuthDeg: real, blocks: seq<Block>)
    returns (groups: seq<Group<Sample>>)
    requires cfg.FastPathUsable() && IndicesFit(cfg, Flatten(blocks))
    requires (forall b :: b in blocks ==> b.Azimuth(cfg) == azimuthDeg) && InIndexOrder(Flatten(blocks))
    ensures IsGroupBy(groups, Placed(cfg, Accepted(cfg, Simple, UNSET_CURSOR, Flatten(blocks))))
    ensures AllSnapshots(Run(cfg, Fast, INITIAL, blocks)) == SnapshotsOf(cfg, NormalizeAzimuth(azimuthDeg), groups)
  {
    groups := StreamingIsGroupBy(cfg, Fast, azimuthDeg, blocks);
    FastAcceptsPlaced(cfg, Flatten(blocks));
  }

  /** A summary's bounds are indices of its own samples, in order. */
  lemma SummaryBounds(cfg: Config, azimuthDeg: real, k: Key, own: seq<Sample>)
    requires own != []
    ensures var c := Summary(cfg, azimuthDeg, k, own);
            && c.firstSampleIndex <= c.lastSampleIndex
            && (exists s :: s in own && s.sampleIndex == c.firstSampleIndex)
            && (exists s :: s in own && s.sampleIndex == c.lastSampleIndex)
  {
    assert own[0] in own;
  }

  /** Every candidate of a window has its bounds in order and its representative midpoint in that window. */
  lemma RepresentativeStaysInWindow(cfg: Config, azimuthDeg: real, group: seq<Sample>, w: nat, k: Key)
    requires cfg.Grid().Usable() && k in CandidatesOf(cfg, azimuthDeg, group)
    requires forall s :: s in group ==> cfg.time.firstSampleIndex <= s.sampleIndex && Window(cfg.Grid(), s.sampleIndex) == w
    ensures var c := CandidatesOf(cfg, azimuthDeg, group)[k];
            && cfg.time.firstSampleIndex <= c.firstSampleIndex <= c.lastSampleIndex
            && Window(cfg.Grid(), RepresentativeSample(c)) == w
  {
    hide Window, Summary, FirstIndex, LastIndex, Peak, Lit;
    ForKeyMembers(cfg, group, k);
    var own := ForKey(cfg, group, k);
    hide ForKey, KeysOf;
    SummaryBounds(cfg, azimuthDeg, k, own);
    var c := CandidatesOf(cfg, azimuthDeg, group)[k];
    assert c == Summary(cfg, azimuthDeg, k, own);
    MidpointSharesWindow(cfg.Grid(), c.firstSampleIndex, c.lastSampleIndex);
  }
}
