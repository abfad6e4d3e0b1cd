/** What each verdict on a sample says about the sample itself. */
module BearingVerdicts {
  import opened Common
  import opened Division
  import opened WindowIndex
  import opened FrequencyBins
  import opened BearingModel

  function PassedNs(cfg: Config, s: Sample): int { (s.sampleIndex - cfg.time.firstSampleIndex) * cfg.time.samplePeriodNs }

  /** Since the first sample, w whole window periods have passed and no more. */
  ghost predicate InWindow(cfg: Config, s: Sample, w: nat) {
    s.sampleIndex >= cfg.time.firstSampleIndex && w * cfg.windowPeriodNs <= PassedNs(cfg, s) < (w + 1) * cfg.windowPeriodNs
  }

  predicate Loud(cfg: Config, s: Sample) { s.amplitude >= 1 && s.amplitude >= cfg.amplitudeFloor }

  lemma WindowMeans(cfg: Config, s: Sample, w: U64)
    requires cfg.Grid().Usable()
    ensures WindowForSample(cfg.Grid(), s.sampleIndex) == Some(w) <==> InWindow(cfg, s, w)
  {
    hide WindowForSample;
    WindowForSampleIsExact(cfg.Grid(), s.sampleIndex);
    if s.sampleIndex >= cfg.time.firstSampleIndex {
      QuotientBounds(PassedNs(cfg, s), cfg.windowPeriodNs);
      if InWindow(cfg, s, w) { QuotientUnique(PassedNs(cfg, s), cfg.windowPeriodNs, w); }
    }
  }

  lemma NoWindowMeans(cfg: Config, s: Sample)
    requires cfg.Grid().Usable()
    ensures WindowForSample(cfg.Grid(), s.sampleIndex) == None <==>
            s.sampleIndex < cfg.time.firstSampleIndex || PassedNs(cfg, s) >= (U64_MAX + 1) * cfg.windowPeriodNs
  {
    hide WindowForSample;
    WindowForSampleIsExact(cfg.Grid(), s.sampleIndex);
    if s.sampleIndex >= cfg.time.firstSampleIndex { QuotientAtLeast(PassedNs(cfg, s), cfg.windowPeriodNs, U64_MAX + 1); }
  }

  /** A sample is accepted into a window and a bin exactly when its time is in the window, it is loud enough and its
      frequency is in the source range and in the bin. */
  lemma AcceptedExactly(cfg: Config, s: Sample, w: U64, bin: nat)
    requires cfg.Grid().Usable() && cfg.bins.binCount >= 1 && cfg.bins.maxHz > cfg.bins.minHz
    ensures JudgeSimple(cfg, s) == Accept(w, Key(s.bandIndex, bin)) <==>
            InWindow(cfg, s, w) && Loud(cfg, s) && cfg.bins.Contains(s.frequencyHz) && InBin(cfg.bins, s.frequencyHz, bin)
  {
    WindowMeans(cfg, s, w);
    BinMeans(cfg.bins, s.frequencyHz, bin);
    hide WindowForSample, BinForFrequency, InWindow, InBin;
  }

  /** Why a sample is not accepted, as the counters tell it. */
  lemma RefusedExactly(cfg: Config, s: Sample)
    requires cfg.Grid().Usable() && cfg.bins.binCount >= 1 && cfg.bins.maxHz > cfg.bins.minHz
    ensures var timed := s.sampleIndex >= cfg.time.firstSampleIndex && PassedNs(cfg, s) < (U64_MAX + 1) * cfg.windowPeriodNs;
            && (JudgeSimple(cfg, s).BelowFloor? <==> timed && 1 <= s.amplitude < cfg.amplitudeFloor)
            && (JudgeSimple(cfg, s).OutOfRange? <==>
                  timed && Loud(cfg, s) && s.frequencyHz > 0 && !(cfg.bins.minHz <= s.frequencyHz <= cfg.bins.maxHz))
            && (JudgeSimple(cfg, s).Accept? <==> timed && Loud(cfg, s) && cfg.bins.minHz <= s.frequencyHz <= cfg.bins.maxHz)
  {
    NoWindowMeans(cfg, s);
    BinMeans(cfg.bins, s.frequencyHz, 0);
    hide WindowForSample, BinForFrequency, InBin;
  }

  /** Without a usable grid, or a band with bins and a width, nothing is accepted, and only missing bins alone call a
      positive frequency out of range. */
  lemma UnusableAcceptsNothing(cfg: Config, s: Sample)
    requires !cfg.Grid().Usable() || cfg.bins.binCount <= 0 || cfg.bins.maxHz <= cfg.bins.minHz
    ensures !JudgeSimple(cfg, s).Accept?
    ensures !cfg.Grid().Usable() ==> JudgeSimple(cfg, s).Invalid?
    ensures JudgeSimple(cfg, s).OutOfRange? ==> cfg.bins.maxHz > cfg.bins.minHz && s.frequencyHz > 0 && Loud(cfg, s)
    ensures cfg.Grid().Usable() && cfg.bins.maxHz > cfg.bins.minHz && s.frequencyHz > 0 && Loud(cfg, s) ==>
              (JudgeSimple(cfg, s).OutOfRange? <==>
                 s.sampleIndex >= cfg.time.firstSampleIndex && PassedNs(cfg, s) < (U64_MAX + 1) * cfg.windowPeriodNs)
  {
    if cfg.Grid().Usable() { NoWindowMeans(cfg, s); }
    hide WindowForSample;
  }

  /** The fast path's cursor moves exactly with the samples that are loud enough and not before the first one. */
  lemma CursorMovesExactly(cfg: Config, cursor: Cursor, s: Sample)
    requires cfg.FastPathUsable()
    ensures MoveCursor(cfg, Fast, cursor, s)
            == if s.sampleIndex >= cfg.time.firstSampleIndex && Loud(cfg, s) then CursorAfter(cfg.Grid(), cursor, s.sampleIndex) else cursor
  {
    hide CursorAfter;
  }

  /** The fast path is chosen exactly when there are periods, bands, at least two bins and a range, and the largest
      product of the 64-bit bin formula fits. */
  lemma FastPathChosenExactly(cfg: Config)
    ensures cfg.FastPathUsable() <==>
              && cfg.time.samplePeriodNs >= 1 && cfg.windowPeriodNs >= 1 && cfg.bandCapacity >= 1
              && cfg.bins.binCount >= 2 && cfg.bins.maxHz > cfg.bins.minHz
              && (cfg.bins.maxHz - cfg.bins.minHz) * (cfg.bins.binCount - 1) <= I64_MAX
  {
    if cfg.bins.binCount >= 2 { QuotientAtLeast(I64_MAX, cfg.bins.binCount - 1, cfg.bins.maxHz - cfg.bins.minHz); }
  }

  /** Amplitudes are cut to 16 bits. */
  lemma AmplitudeIsCut(amplitude: int)
    ensures 0 <= amplitude <= U16_MAX ==> ClampAmplitude(amplitude) == amplitude
    ensures amplitude < 0 ==> ClampAmplitude(amplitude) == 0
    ensures amplitude > U16_MAX ==> ClampAmplitude(amplitude) == U16_MAX
  {
  }
}
