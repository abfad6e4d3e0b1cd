/** Data of the bearing aggregator and its per-sample path over an ordered candidate map.

    The same step function describes both ways the aggregator judges a sample: the simple path
    (exact window division, any band index) and the trusted block-local path (cached window
    cursor, band capacity checked before the window rolls over). */
module BearingModel {
  import opened Common
  import opened WindowIndex
  import opened FrequencyBins
  import opened TimeBase

  datatype Sample = Sample(sampleIndex: U64, bandIndex: int, beamIndex: int, frequencyHz: I64, amplitude: int)

  datatype Config = Config(
    time: TimeBase,
    windowPeriodNs: U64,
    bins: Band,
    bandCapacity: nat,
    amplitudeFloor: int,
    beamHalfSeparationDeg: real,
    minQuality: real,
    fallbackAzimuthDeg: real)
  {
    function Grid(): Grid { WindowIndex.Grid(time.firstSampleIndex, time.samplePeriodNs, windowPeriodNs) }

    /** The conditions under which the trusted block-local fast path is chosen. */
    predicate FastPathUsable() {
      && Grid().Usable()
      && UsesInt64Formula(bins)
      && bandCapacity > 0
    }

    predicate BandInCapacity(bandIndex: int) { 0 <= bandIndex < bandCapacity }
  }

  datatype Key = Key(bandIndex: int, frequencyBin: nat) {
    predicate Less(other: Key) {
      if bandIndex != other.bandIndex then bandIndex < other.bandIndex else frequencyBin < other.frequencyBin
    }
  }

  datatype Candidate = Candidate(
    bandIndex: int, frequencyBin: nat,
    firstSampleIndex: U64, lastSampleIndex: U64,
    centerFrequencyHz: int,
    beam0Peak: U16, beam1Peak: U16,
    hasBeam0: bool, hasBeam1: bool, hasSamples: bool,
    antennaAzimuthDeg: real)

  const EMPTY_CANDIDATE := Candidate(0, 0, 0, 0, 0, 0, 0, false, false, false, 0.0)

  datatype Estimate = Estimate(
    bandIndex: int, frequencyHz: int, frequencyBin: nat, sampleIndex: U64, resultUtcNs: I64,
    antennaAzimuthDeg: real, bearingAzimuthDeg: real, quality: real, beam0Peak: U16, beam1Peak: U16)

  datatype SnapshotCounters = SnapshotCounters(
    complete: nat, incomplete: nat, missingBeam0: nat, missingBeam1: nat, producedEstimates: nat)

  datatype Snapshot = Snapshot(sequenceId: nat, estimates: seq<Estimate>, counters: SnapshotCounters)

  datatype Counters = Counters(
    consumedBlocks: nat, consumedSamples: nat, producedSnapshots: nat, producedEstimates: nat,
    complete: nat, incomplete: nat, missingBeam0: nat, missingBeam1: nat, invalid: nat, outOfRange: nat)
  {
    function Plus(d: Counters): Counters {
      Counters(consumedBlocks + d.consumedBlocks, consumedSamples + d.consumedSamples,
               producedSnapshots + d.producedSnapshots, producedEstimates + d.producedEstimates,
               complete + d.complete, incomplete + d.incomplete,
               missingBeam0 + d.missingBeam0, missingBeam1 + d.missingBeam1,
               invalid + d.invalid, outOfRange + d.outOfRange)
    }
  }

  lemma PlusNothing(c: Counters)
    ensures c.Plus(NO_COUNTS) == c && NO_COUNTS.Plus(c) == c
  {
  }

  const NO_COUNTS := Counters(0, 0, 0, 0, 0, 0, 0, 0, 0, 0)

  // ---- one candidate -------------------------------------------------------------------

  /** Adding a sample to a candidate slot, which may still be untouched. */
  function AddSample(cfg: Config, c: Candidate, key: Key, azimuthDeg: real, s: Sample): Candidate {
    var based :=
      if !c.hasSamples then
        c.(bandIndex := key.bandIndex, frequencyBin := key.frequencyBin,
           centerFrequencyHz := CenterFrequencyForBin(cfg.bins, key.frequencyBin),
           antennaAzimuthDeg := azimuthDeg,
           firstSampleIndex := s.sampleIndex, lastSampleIndex := s.sampleIndex, hasSamples := true)
      else
        c.(firstSampleIndex := Min(c.firstSampleIndex, s.sampleIndex),
           lastSampleIndex := Max(c.lastSampleIndex, s.sampleIndex));
    var amplitude := ClampAmplitude(s.amplitude);
    if s.beamIndex == 0 then based.(beam0Peak := Max(based.beam0Peak, amplitude), hasBeam0 := true)
    else if s.beamIndex == 1 then based.(beam1Peak := Max(based.beam1Peak, amplitude), hasBeam1 := true)
    else based
  }

  // ---- estimates -----------------------------------------------------------------------

  function Clamp01(x: real): real { if x < 0.0 then 0.0 else if x > 1.0 then 1.0 else x }

  /** std::fmod into [0, 360) over the reals. */
  function NormalizeAzimuth(x: real): real { x - 360.0 * ((x / 360.0).Floor as real) }

  function BeamDifference(beam0: U16, beam1: U16): real {
    if beam0 + beam1 <= 0 then 0.0 else ((beam0 - beam1) as real) / ((beam0 + beam1) as real)
  }

  function CandidateQuality(beam0: U16, beam1: U16): real {
    var strongest := Max(beam0, beam1);
    0.7 * Clamp01(((strongest - 1) as real) / 126.0) + 0.3 * Clamp01(((beam0 + beam1) as real) / 254.0)
  }

  function UtcNsForSample(cfg: Config, s: U64): I64 {
    match cfg.time.GlobalTimeUtcNs(s)
    case Some(utcNs) => utcNs
    case None => cfg.time.recordingStartUtcNs
  }

  function RepresentativeSample(c: Candidate): U64
    requires c.firstSampleIndex <= c.lastSampleIndex
  {
    c.firstSampleIndex + (c.lastSampleIndex - c.firstSampleIndex) / 2
  }

  /** The antenna's azimuth turned by the difference of the beams. */
  function TurnedAzimuth(cfg: Config, c: Candidate): real {
    c.antennaAzimuthDeg - BeamDifference(c.beam0Peak, c.beam1Peak) * cfg.beamHalfSeparationDeg
  }

  function MakeEstimate(cfg: Config, c: Candidate): Option<Estimate> {
    var quality := CandidateQuality(c.beam0Peak, c.beam1Peak);
    // A slot's bounds are never out of order (see the slot invariant of the grouping proof).
    if quality < cfg.minQuality || c.firstSampleIndex > c.lastSampleIndex then None
    else
      var representative := RepresentativeSample(c);
      Some(Estimate(c.bandIndex, c.centerFrequencyHz, c.frequencyBin, representative,
                    UtcNsForSample(cfg, representative), c.antennaAzimuthDeg, NormalizeAzimuth(TurnedAzimuth(cfg, c)), quality, c.beam0Peak, c.beam1Peak))
  }

  // ---- closing a window ----------------------------------------------------------------

  datatype Emission = Emission(estimates: seq<Estimate>, counters: SnapshotCounters)

  const NO_EMISSION := Emission([], SnapshotCounters(0, 0, 0, 0, 0))

  /** What closing a window does with one candidate. */
  function EmitOne(cfg: Config, e: Emission, c: Candidate): Emission {
    if !c.hasBeam0 || !c.hasBeam1 then
      e.(counters := e.counters.(
           incomplete := e.counters.incomplete + 1,
           missingBeam0 := e.counters.missingBeam0 + (if c.hasBeam0 then 0 else 1),
           missingBeam1 := e.counters.missingBeam1 + (if c.hasBeam1 then 0 else 1)))
    else
      Emission(match MakeEstimate(cfg, c) case Some(x) => e.estimates + [x] case None => e.estimates,
               e.counters.(complete := e.counters.complete + 1))
  }

  function Emit(cfg: Config, cs: seq<Candidate>): Emission {
    if cs == [] then NO_EMISSION else EmitOne(cfg, Emit(cfg, cs[..|cs| - 1]), cs[|cs| - 1])
  }

  function SnapshotOf(cfg: Config, sequenceId: nat, cs: seq<Candidate>): Snapshot {
    var e := Emit(cfg, cs);
    Snapshot(sequenceId, e.estimates, e.counters.(producedEstimates := |e.estimates|))
  }

  function CountsOf(s: Snapshot): Counters {
    NO_COUNTS.(producedSnapshots := 1, producedEstimates := s.counters.producedEstimates,
               complete := s.counters.complete, incomplete := s.counters.incomplete,
               missingBeam0 := s.counters.missingBeam0, missingBeam1 := s.counters.missingBeam1)
  }

  lemma LeastKeyExists(ks: set<Key>)
    requires ks != {}
    ensures exists m :: m in ks && forall k :: k in ks && k != m ==> m.Less(k)
  {
    var x :| x in ks;
    if ks == {x} {
    } else {
      LeastKeyExists(ks - {x});
      var m :| m in ks - {x} && forall k :: k in ks - {x} && k != m ==> m.Less(k);
      var least := if x.Less(m) then x else m;
      forall k | k in ks && k != least ensures least.Less(k) {
        if k != x { assert k == m || m.Less(k); }
      }
    }
  }

  ghost function LeastKey(ks: set<Key>): (m: Key)
    requires ks != {}
    ensures m in ks && forall k :: k in ks && k != m ==> m.Less(k)
  {
    LeastKeyExists(ks);
    var m :| m in ks && forall k :: k in ks && k != m ==> m.Less(k); m
  }

  /** The order in which an ordered map keyed by (band, bin) is walked. */
  ghost function SortedKeys(ks: set<Key>): (r: seq<Key>)
    ensures forall k :: k in r <==> k in ks
    ensures forall i, j :: 0 <= i < j < |r| ==> r[i].Less(r[j])
  {
    if ks == {} then [] else [LeastKey(ks)] + SortedKeys(ks - {LeastKey(ks)})
  }

  /** The candidates of a map, listed along some of its keys. */
  function Along(m: map<Key, Candidate>, ks: seq<Key>): (cs: seq<Candidate>)
    requires forall k :: k in ks ==> k in m
    ensures |cs| == |ks| && forall i :: 0 <= i < |ks| ==> cs[i] == m[ks[i]]
  {
    if ks == [] then [] else [m[ks[0]]] + Along(m, ks[1..])
  }

  ghost function InOrder(m: map<Key, Candidate>): seq<Candidate> { Along(m, SortedKeys(m.Keys)) }

  // ---- the aggregator as a state machine over samples -----------------------------------

  datatype CandidateWindow = CandidateWindow(index: U64, firstSampleIndex: U64, lastSampleIndex: U64,
                           azimuthDeg: real, candidates: map<Key, Candidate>)

  datatype State = State(window: Option<CandidateWindow>, nextSequenceId: nat, counters: Counters, cursor: Cursor)

  const INITIAL := State(None, 1, NO_COUNTS, UNSET_CURSOR)

  /** The result of a call: new state, emitted snapshots and the call's own counters. */
  datatype Effect = Effect(state: State, snapshots: seq<Snapshot>, delta: Counters)

  datatype Verdict = Invalid | OutOfRange | BelowFloor | Accept(window: U64, key: Key)

  datatype Path = Simple | Fast

  function JudgeSimple(cfg: Config, s: Sample): Verdict {
    var window := WindowForSample(cfg.Grid(), s.sampleIndex);
    if window.None? || s.amplitude <= 0 then Invalid
    else if s.amplitude < cfg.amplitudeFloor then BelowFloor
    else
      var bin := BinForFrequency(cfg.bins, s.frequencyHz);
      if bin < 0 then
        if s.frequencyHz <= 0 || cfg.bins.maxHz <= cfg.bins.minHz then Invalid else OutOfRange
      else Accept(window.value, Key(s.bandIndex, bin))
  }

  /** The sample reaches the window computation of the fast path. */
  predicate ReachesCursor(cfg: Config, s: Sample) {
    cfg.time.firstSampleIndex <= s.sampleIndex && s.amplitude > 0 && s.amplitude >= cfg.amplitudeFloor
  }

  function JudgeFast(cfg: Config, cursor: Cursor, s: Sample): Verdict
    requires cfg.FastPathUsable()
  {
    if s.sampleIndex < cfg.time.firstSampleIndex || s.amplitude <= 0 then Invalid
    else if s.amplitude < cfg.amplitudeFloor then BelowFloor
    else
      var window := CursorWindow(cfg.Grid(), cursor, s.sampleIndex);
      if window.None? then Invalid
      else if !cfg.bins.Contains(s.frequencyHz) then
        if s.frequencyHz <= 0 then Invalid else OutOfRange
      else if !cfg.BandInCapacity(s.bandIndex) then Invalid
      else
        BinIsExactQuotient(cfg.bins, s.frequencyHz);
        Accept(window.value, Key(s.bandIndex, BinForFrequency(cfg.bins, s.frequencyHz)))
  }

  function Judge(cfg: Config, path: Path, cursor: Cursor, s: Sample): Verdict
    requires path.Fast? ==> cfg.FastPathUsable()
  {
    if path.Fast? then JudgeFast(cfg, cursor, s) else JudgeSimple(cfg, s)
  }

  function MoveCursor(cfg: Config, path: Path, cursor: Cursor, s: Sample): Cursor
    requires path.Fast? ==> cfg.FastPathUsable()
  {
    if path.Fast? && ReachesCursor(cfg, s) then CursorAfter(cfg.Grid(), cursor, s.sampleIndex) else cursor
  }

  /** The verdict on each sample of a span and the cursor left behind. */
  function Judged(cfg: Config, path: Path, cursor: Cursor, samples: seq<Sample>): (r: (seq<Verdict>, Cursor))
    requires path.Fast? ==> cfg.FastPathUsable()
    ensures |r.0| == |samples|
  {
    if samples == [] then ([], cursor)
    else
      var (front, c) := Judged(cfg, path, cursor, samples[..|samples| - 1]);
      var s := samples[|samples| - 1];
      (front + [Judge(cfg, path, c, s)], MoveCursor(cfg, path, c, s))
  }

  /** The cursor a path has after some samples. */
  function CursorAlong(cfg: Config, path: Path, cursor: Cursor, samples: seq<Sample>): Cursor
    requires path.Fast? ==> cfg.FastPathUsable()
  {
    Judged(cfg, path, cursor, samples).1
  }

  function Count(st: State, d: Counters): State { st.(counters := st.counters.Plus(d)) }

  /** Closing the open window, if any: a snapshot when it holds candidates. */
  ghost function Close(cfg: Config, st: State): Effect {
    if st.window.None? || st.window.value.candidates == map[] then Effect(st.(window := None), [], NO_COUNTS)
    else
      var snapshot := SnapshotOf(cfg, st.nextSequenceId, InOrder(st.window.value.candidates));
      var delta := CountsOf(snapshot);
      Effect(Count(st.(window := None, nextSequenceId := st.nextSequenceId + 1), delta), [snapshot], delta)
  }

  function Opened(index: U64, s: Sample, azimuthDeg: real): CandidateWindow {
    CandidateWindow(index, s.sampleIndex, s.sampleIndex, NormalizeAzimuth(azimuthDeg), map[])
  }

  function AddToWindow(cfg: Config, w: CandidateWindow, key: Key, s: Sample): CandidateWindow {
    var slot := if key in w.candidates then w.candidates[key] else EMPTY_CANDIDATE;
    CandidateWindow(w.index, Min(w.firstSampleIndex, s.sampleIndex), Max(w.lastSampleIndex, s.sampleIndex), w.azimuthDeg,
           w.candidates[key := AddSample(cfg, slot, key, w.azimuthDeg, s)])
  }

  ghost function Admit(cfg: Config, st: State, azimuthDeg: real, index: U64, key: Key, s: Sample): Effect {
    if st.window.Some? && st.window.value.index == index then
      Effect(st.(window := Some(AddToWindow(cfg, st.window.value, key, s))), [], NO_COUNTS)
    else
      var closed := Close(cfg, st);
      closed.(state := closed.state.(
                window := Some(AddToWindow(cfg, Opened(index, s, azimuthDeg), key, s))))
  }

  ghost function Act(cfg: Config, st: State, azimuthDeg: real, v: Verdict, s: Sample): Effect {
    match v
    case Invalid => var d := NO_COUNTS.(invalid := 1); Effect(Count(st, d), [], d)
    case OutOfRange => var d := NO_COUNTS.(outOfRange := 1); Effect(Count(st, d), [], d)
    case BelowFloor => Effect(st, [], NO_COUNTS)
    case Accept(index, key) => Admit(cfg, st, azimuthDeg, index, key, s)
  }

  ghost function Then(e: Effect, f: Effect): Effect {
    Effect(f.state, e.snapshots + f.snapshots, e.delta.Plus(f.delta))
  }

  ghost function Step(cfg: Config, path: Path, st: State, azimuthDeg: real, s: Sample): Effect
    requires path.Fast? ==> cfg.FastPathUsable()
  {
    var d := NO_COUNTS.(consumedSamples := 1);
    var counted := Count(st, d).(cursor := MoveCursor(cfg, path, st.cursor, s));
    Then(Effect(counted, [], d), Act(cfg, counted, azimuthDeg, Judge(cfg, path, st.cursor, s), s))
  }

  /** consume over a span of samples taken at one antenna azimuth. */
  ghost function Consume(cfg: Config, path: Path, st: State, azimuthDeg: real, samples: seq<Sample>): Effect
    requires path.Fast? ==> cfg.FastPathUsable()
  {
    if samples == [] then Effect(st, [], NO_COUNTS)
    else
      var e := Consume(cfg, path, st, azimuthDeg, samples[..|samples| - 1]);
      Then(e, Step(cfg, path, e.state, azimuthDeg, samples[|samples| - 1]))
  }

  datatype Block = Block(azimuthDeg: Option<real>, samples: seq<Sample>) {
    function Azimuth(cfg: Config): real { if azimuthDeg.Some? then azimuthDeg.value else cfg.fallbackAzimuthDeg }
  }

  /** consume of a block: an empty block changes nothing. */
  ghost function ConsumeBlock(cfg: Config, path: Path, st: State, b: Block): Effect
    requires path.Fast? ==> cfg.FastPathUsable()
  {
    if b.samples == [] then Effect(st, [], NO_COUNTS)
    else
      var d := NO_COUNTS.(consumedBlocks := 1);
      Then(Effect(Count(st, d), [], d), Consume(cfg, path, Count(st, d), b.Azimuth(cfg), b.samples))
  }

  /** The effects of a run of blocks, one per call, ending with flush. */
  ghost function Run(cfg: Config, path: Path, st: State, blocks: seq<Block>): seq<Effect>
    requires path.Fast? ==> cfg.FastPathUsable()
    decreases |blocks|
  {
    if blocks == [] then [Close(cfg, st)]
    else
      var e := ConsumeBlock(cfg, path, st, blocks[0]);
      [e] + Run(cfg, path, e.state, blocks[1..])
  }
}
