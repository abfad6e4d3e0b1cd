/** Sample-index to UTC conversion with the source's overflow checks. */
module TimeBase {
  import opened Common
  import opened Division

  datatype TimeBase = TimeBase(recordingStartUtcNs: I64, firstSampleIndex: U64, samplePeriodNs: U64) {
    predicate Valid() { recordingStartUtcNs >= 0 && samplePeriodNs > 0 }

    /** Nanoseconds since the recording start; fails before the first sample and past int64. */
    function LocalTimeNs(s: U64): Option<I64> {
      if !Valid() || s < firstSampleIndex then None
      else
        var delta := s - firstSampleIndex;
        if delta > I64_MAX / samplePeriodNs then None
        else
          QuotientAtLeast(I64_MAX, samplePeriodNs, delta);
          assert delta * samplePeriodNs >= 0;
          Some(delta * samplePeriodNs)
    }

    function GlobalTimeUtcNs(s: U64): Option<I64> {
      var local := LocalTimeNs(s);
      if local.None? || recordingStartUtcNs > I64_MAX - local.value then None
      else Some(recordingStartUtcNs + local.value)
    }
  }

  /** Beside a start before 1970, a missing period and samples before the first, the division guard and the subtraction
      guard together reject exactly the times that int64 cannot hold. */
  lemma GlobalTimeIsExact(t: TimeBase, s: U64)
    ensures var exact := t.recordingStartUtcNs + (s - t.firstSampleIndex) * t.samplePeriodNs;
            t.GlobalTimeUtcNs(s)
            == if t.recordingStartUtcNs >= 0 && t.samplePeriodNs >= 1 && s >= t.firstSampleIndex && exact <= I64_MAX then Some(exact) else None
  {
    if t.Valid() && s >= t.firstSampleIndex {
      var delta := s - t.firstSampleIndex;
      QuotientAtLeast(I64_MAX, t.samplePeriodNs, delta);
      assert delta * t.samplePeriodNs >= 0;
    }
  }
}
