/** What an estimate says: the bearing, its quality and its time, stated over the candidate's peaks and indices. */
module BearingEstimates {
  import opened Common
  import opened FrequencyBins
  import opened TimeBase
  import opened BearingModel

  // ---- the bearing ---------------------------------------------------------------------------------

  /** Two angles of the same direction. */
  ghost predicate SameDirection(a: real, b: real) { exists turns: int :: a == b + Turned(turns) }

  function Turned(turns: int): real { 360.0 * turns as real }

  /** Normalizing keeps the direction and lands in one turn. */
  lemma NormalizedDirection(x: real)
    ensures 0.0 <= NormalizeAzimuth(x) < 360.0 && SameDirection(NormalizeAzimuth(x), x)
    ensures 0.0 <= x < 360.0 ==> NormalizeAzimuth(x) == x
  {
    var q := x / 360.0;
    var turns: int := -q.Floor;
    assert q.Floor as real <= q < q.Floor as real + 1.0;
    assert x == 360.0 * q;
    assert NormalizeAzimuth(x) == x + Turned(turns);
    if 0.0 <= x < 360.0 { assert q.Floor == 0; }
  }

  /** A direction has one representative in a turn. */
  lemma OneRepresentative(a: real, b: real)
    requires SameDirection(a, b) && 0.0 <= a < 360.0 && 0.0 <= b < 360.0
    ensures a == b
  {
    var turns: int :| a == b + Turned(turns);
    assert turns == 0;
  }

  lemma RatioUnique(n: real, d: real, r: real)
    requires d > 0.0 && r * d == n
    ensures r == n / d
  {
  }

  /** A quotient by a positive number lies on the same side of 0 and 1 as the dividend of 0 and the divisor. */
  lemma QuotientOrder(a: real, b: real)
    requires b > 0.0
    ensures (a <= 0.0 <==> a / b <= 0.0) && (a >= 0.0 <==> a / b >= 0.0)
    ensures (a <= b <==> a / b <= 1.0) && (a >= b <==> a / b >= 1.0)
  {
    var q := a / b;
    assert a == q * b;
    assert a - b == (q - 1.0) * b;
    SignOfFactor(q, b);
    SignOfFactor(q - 1.0, b);
  }

  lemma SignOfFactor(q: real, b: real)
    requires b > 0.0
    ensures (q * b <= 0.0 <==> q <= 0.0) && (q * b >= 0.0 <==> q >= 0.0)
  {
  }

  lemma DifferenceOfPeaks(p0: U16, p1: U16, d: real)
    requires p0 + p1 > 0 && d * (p0 + p1) as real == (p0 - p1) as real
    ensures BeamDifference(p0, p1) == d && -1.0 <= d <= 1.0
  {
    var difference, sum := (p0 - p1) as real, (p0 + p1) as real;
    RatioUnique(difference, sum, d);
    QuotientOrder(difference, sum);
    SignOfFactor(d + 1.0, sum);
    assert (d + 1.0) * sum == difference + sum;
  }

  // ---- the quality ---------------------------------------------------------------------------------

  /** A share of the way from 0 to a full scale, at most all of it. */
  ghost predicate ShareOfScale(share: real, value: int, scale: int) {
    if value <= 0 then share == 0.0 else if value >= scale then share == 1.0 else share * scale as real == value as real
  }

  /** Quality weighs the stronger peak above 1 on a scale of 126 with 0.7 and the sum of both on a scale of 254 with 0.3. */
  lemma QualityOfPeaks(p0: U16, p1: U16, strength: real, energy: real)
    requires ShareOfScale(strength, (if p0 >= p1 then p0 else p1) - 1, 126) && ShareOfScale(energy, p0 + p1, 254)
    ensures CandidateQuality(p0, p1) == 0.7 * strength + 0.3 * energy
  {
    var strongest := if p0 >= p1 then p0 else p1;
    ShareIsClamp(strength, strongest - 1, 126);
    ShareIsClamp(energy, p0 + p1, 254);
  }

  lemma ShareIsClamp(share: real, value: int, scale: int)
    requires scale > 0 && ShareOfScale(share, value, scale)
    ensures Clamp01(value as real / scale as real) == share && 0.0 <= share <= 1.0
  {
    QuotientOrder(value as real, scale as real);
    if 0 < value < scale { RatioUnique(value as real, scale as real, share); }
  }

  /** Quality is between 0 and 1, does not tell the beams apart, and does not fall when a peak rises. */
  lemma QualityBehaves(p0: U16, p1: U16, q0: U16)
    requires p0 <= q0
    ensures 0.0 <= CandidateQuality(p0, p1) <= 1.0
    ensures CandidateQuality(p0, p1) == CandidateQuality(p1, p0)
    ensures CandidateQuality(p0, p1) <= CandidateQuality(q0, p1)
  {
    var a, b := (Max(p0, p1) - 1) as real, (Max(q0, p1) - 1) as real;
    SharesMonotone(a, b, 126.0);
    SharesMonotone((p0 + p1) as real, (q0 + p1) as real, 254.0);
  }

  lemma SharesMonotone(a: real, b: real, scale: real)
    requires a <= b && scale > 0.0
    ensures 0.0 <= Clamp01(a / scale) <= Clamp01(b / scale) <= 1.0
  {
    var x, y := a / scale, b / scale;
    assert b - a == (y - x) * scale;
    SignOfFactor(y - x, scale);
  }

  // ---- the estimate --------------------------------------------------------------------------------

  /** The time of a sample, or the recording's start when it has none that fits. */
  lemma EstimateTime(cfg: Config, s: U64)
    ensures var start, t := cfg.time.recordingStartUtcNs, cfg.time.recordingStartUtcNs + (s - cfg.time.firstSampleIndex) * cfg.time.samplePeriodNs;
            UtcNsForSample(cfg, s)
            == if start >= 0 && cfg.time.samplePeriodNs >= 1 && s >= cfg.time.firstSampleIndex && t <= I64_MAX then t else start
  {
    GlobalTimeIsExact(cfg.time, s);
  }

  lemma BearingTurns(cfg: Config, c: Candidate, d: real)
    requires MakeEstimate(cfg, c).Some? && BeamDifference(c.beam0Peak, c.beam1Peak) == d
    ensures var turned := c.antennaAzimuthDeg - d * cfg.beamHalfSeparationDeg;
            var b := MakeEstimate(cfg, c).value.bearingAzimuthDeg;
            0.0 <= b < 360.0 && SameDirection(b, turned) && (0.0 <= turned < 360.0 ==> b == turned)
  {
    hide BeamDifference, CandidateQuality, NormalizeAzimuth, UtcNsForSample;
    NormalizedDirection(TurnedAzimuth(cfg, c));
    assert TurnedAzimuth(cfg, c) == c.antennaAzimuthDeg - d * cfg.beamHalfSeparationDeg;
  }

  /** A candidate with samples gives an estimate exactly when its quality is at least the required one. The bearing is the
      antenna's azimuth turned against the sign of the beams' difference by that share of the half separation. */
  lemma EstimateOfCandidate(cfg: Config, c: Candidate, strength: real, energy: real, d: real)
    requires c.firstSampleIndex <= c.lastSampleIndex && c.beam0Peak + c.beam1Peak > 0
    requires ShareOfScale(strength, (if c.beam0Peak >= c.beam1Peak then c.beam0Peak else c.beam1Peak) - 1, 126)
    requires ShareOfScale(energy, c.beam0Peak + c.beam1Peak, 254)
    requires d * (c.beam0Peak + c.beam1Peak) as real == (c.beam0Peak - c.beam1Peak) as real
    ensures MakeEstimate(cfg, c).Some? <==> 0.7 * strength + 0.3 * energy >= cfg.minQuality
    ensures MakeEstimate(cfg, c).Some? ==>
              var e := MakeEstimate(cfg, c).value;
              && 0.0 <= e.bearingAzimuthDeg < 360.0
              && SameDirection(e.bearingAzimuthDeg, c.antennaAzimuthDeg - d * cfg.beamHalfSeparationDeg)
              && e.quality == 0.7 * strength + 0.3 * energy && e.antennaAzimuthDeg == c.antennaAzimuthDeg
              && e.beam0Peak == c.beam0Peak && e.beam1Peak == c.beam1Peak
              && e.bandIndex == c.bandIndex && e.frequencyBin == c.frequencyBin && e.frequencyHz == c.centerFrequencyHz
              && 2 * e.sampleIndex <= c.firstSampleIndex + c.lastSampleIndex <= 2 * e.sampleIndex + 1
              && e.resultUtcNs == UtcNsForSample(cfg, e.sampleIndex)
  {
    hide CandidateQuality, BeamDifference, TurnedAzimuth, NormalizeAzimuth, ShareOfScale, UtcNsForSample, SameDirection;
    QualityOfPeaks(c.beam0Peak, c.beam1Peak, strength, energy);
    DifferenceOfPeaks(c.beam0Peak, c.beam1Peak, d);
    if MakeEstimate(cfg, c).Some? { BearingTurns(cfg, c, d); }
    assert RepresentativeSample(c) == c.firstSampleIndex + (c.lastSampleIndex - c.firstSampleIndex) / 2;
  }

  /** Equal peaks point along the antenna; a silent beam turns the bearing by the whole half separation, beam 0 down and
      beam 1 up. */
  lemma BearingOfPlainPeaks(cfg: Config, c: Candidate)
    requires MakeEstimate(cfg, c).Some? && c.beam0Peak + c.beam1Peak > 0 && 0.0 <= c.antennaAzimuthDeg < 360.0
    ensures var b := MakeEstimate(cfg, c).value.bearingAzimuthDeg;
            && (c.beam0Peak == c.beam1Peak ==> b == c.antennaAzimuthDeg)
            && (c.beam1Peak == 0 ==> SameDirection(b, c.antennaAzimuthDeg - cfg.beamHalfSeparationDeg))
            && (c.beam0Peak == 0 ==> SameDirection(b, c.antennaAzimuthDeg + cfg.beamHalfSeparationDeg))
  {
    hide MakeEstimate, BeamDifference, SameDirection;
    if c.beam0Peak == c.beam1Peak {
      DifferenceOfPeaks(c.beam0Peak, c.beam1Peak, 0.0);
      BearingTurns(cfg, c, 0.0);
    } else if c.beam1Peak == 0 {
      DifferenceOfPeaks(c.beam0Peak, c.beam1Peak, 1.0);
      BearingTurns(cfg, c, 1.0);
    } else if c.beam0Peak == 0 {
      DifferenceOfPeaks(c.beam0Peak, c.beam1Peak, -1.0);
      BearingTurns(cfg, c, -1.0);
    }
  }

  /** A candidate that both beams lit equally strong has no peaks to compare: its bearing is the antenna's azimuth. */
  lemma BearingOfSilence(cfg: Config, c: Candidate)
    requires MakeEstimate(cfg, c).Some? && c.beam0Peak == c.beam1Peak == 0 && 0.0 <= c.antennaAzimuthDeg < 360.0
    ensures MakeEstimate(cfg, c).value.bearingAzimuthDeg == c.antennaAzimuthDeg
  {
    hide CandidateQuality, NormalizeAzimuth, UtcNsForSample;
    NormalizedDirection(c.antennaAzimuthDeg);
  }

  // ---- a snapshot ----------------------------------------------------------------------------------

  predicate Complete(c: Candidate) { c.hasBeam0 && c.hasBeam1 }

  /** The candidates, in order, that give an estimate. */
  function Estimated(cfg: Config, cs: seq<Candidate>): (r: seq<Candidate>)
    ensures |r| <= |cs|
  {
    if cs == [] then []
    else
      var front, c := Estimated(cfg, cs[..|cs| - 1]), cs[|cs| - 1];
      if Complete(c) && MakeEstimate(cfg, c).Some? then front + [c] else front
  }

  /** How many candidates had exactly these beams lit. */
  function CountLit(cs: seq<Candidate>, beam0: bool, beam1: bool): nat {
    if cs == [] then 0
    else
      var c := cs[|cs| - 1];
      CountLit(cs[..|cs| - 1], beam0, beam1) + if c.hasBeam0 == beam0 && c.hasBeam1 == beam1 then 1 else 0
  }

  /** A snapshot estimates exactly the complete candidates of sufficient quality, in order, and counts the others. */
  lemma {:induction false} SnapshotListsEstimates(cfg: Config, id: nat, cs: seq<Candidate>)
    ensures var s := SnapshotOf(cfg, id, cs);
            && s.sequenceId == id
            && |s.estimates| == |Estimated(cfg, cs)| == s.counters.producedEstimates
            && (forall i :: 0 <= i < |s.estimates| ==> MakeEstimate(cfg, Estimated(cfg, cs)[i]) == Some(s.estimates[i]))
            && s.counters.complete == CountLit(cs, true, true)
            && s.counters.incomplete == CountLit(cs, true, false) + CountLit(cs, false, true) + CountLit(cs, false, false)
            && s.counters.missingBeam0 == CountLit(cs, false, true) + CountLit(cs, false, false)
            && s.counters.missingBeam1 == CountLit(cs, true, false) + CountLit(cs, false, false)
  {
    hide MakeEstimate;
    if cs != [] { SnapshotListsEstimates(cfg, id, cs[..|cs| - 1]); }
  }
}
