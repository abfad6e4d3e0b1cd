/** Which aggregation window a sample belongs to: the exact 128-bit division, the
    whole-samples-per-window shortcut, and the first sample of a window. */
module WindowIndex {
  import opened Common
  import opened Division

  /** The part of an aggregator's configuration that lays windows over sample indices. */
  datatype Grid = Grid(firstSample: U64, samplePeriodNs: U64, windowPeriodNs: U64) {
    predicate Usable() { samplePeriodNs > 0 && windowPeriodNs > 0 }
  }

  /** floor((s - first) * T / P), with no width limit. */
  function Window(g: Grid, s: U64): nat
    requires g.Usable() && g.firstSample <= s
  {
    assert (s - g.firstSample) * g.samplePeriodNs >= 0;
    ((s - g.firstSample) * g.samplePeriodNs) / g.windowPeriodNs
  }

  /** ceil(w * P / T) + first, with no width limit. */
  function WindowStart(g: Grid, w: nat): nat
    requires g.Usable()
  {
    assert w * g.windowPeriodNs >= 0;
    assert CeilDiv(w * g.windowPeriodNs, g.samplePeriodNs) >= 0;
    g.firstSample + CeilDiv(w * g.windowPeriodNs, g.samplePeriodNs)
  }

  /** The sample has no window index at all, or one that does not fit in 64 bits. */
  predicate Overflows(g: Grid, s: U64)
    requires g.Usable()
  {
    g.firstSample <= s && Window(g, s) > U64_MAX
  }

  function WindowForSample(g: Grid, s: U64): Option<U64> {
    if !g.Usable() || s < g.firstSample then None
    else
      var relative := s - g.firstSample;
      if g.windowPeriodNs % g.samplePeriodNs == 0 then
        var samplesPerWindow := g.windowPeriodNs / g.samplePeriodNs;
        WholePeriods(g);
        QuotientMonotone(0, relative, samplesPerWindow);
        QuotientAtLeast(relative, samplesPerWindow, U64_MAX + 1);
        MulMonotone(1, samplesPerWindow, U64_MAX + 1);
        Some(relative / samplesPerWindow)
      else
        assert relative * g.samplePeriodNs >= 0;
        var window := (relative * g.samplePeriodNs) / g.windowPeriodNs;
        if window > U64_MAX then None else Some(window)
  }

  lemma WholePeriods(g: Grid)
    requires g.Usable() && g.windowPeriodNs % g.samplePeriodNs == 0
    ensures g.windowPeriodNs / g.samplePeriodNs >= 1
    ensures (g.windowPeriodNs / g.samplePeriodNs) * g.samplePeriodNs == g.windowPeriodNs
  {
    QuotientBounds(g.windowPeriodNs, g.samplePeriodNs);
    QuotientAtLeast(g.windowPeriodNs, g.samplePeriodNs, 1);
  }

  function FirstSampleForWindow(g: Grid, w: U64): Option<U64> {
    if !g.Usable() then None
    else
      var start := WindowStart(g, w);
      if start > U64_MAX then None else Some(start)
  }

  /** Both branches compute the exact quotient: absent before the first sample or past 64 bits. */
  lemma WindowForSampleIsExact(g: Grid, s: U64)
    requires g.Usable()
    ensures WindowForSample(g, s) ==
            if s < g.firstSample || Overflows(g, s) then None else Some(Window(g, s))
  {
    if g.firstSample <= s && g.windowPeriodNs % g.samplePeriodNs == 0 {
      var relative, n, t := s - g.firstSample, g.windowPeriodNs / g.samplePeriodNs, g.samplePeriodNs;
      WholePeriods(g);
      var q := relative / n;
      QuotientBounds(relative, n);
      MulMonotone(q * n, relative, t);
      MulMonotone(relative + 1, (q + 1) * n, t);
      assert q * g.windowPeriodNs == (q * n) * t;
      assert (q + 1) * g.windowPeriodNs == ((q + 1) * n) * t;
      assert (relative + 1) * t == relative * t + t;
      QuotientUnique(relative * t, g.windowPeriodNs, q);
    }
  }

  /** The Galois relation between window indices and window starts. */
  lemma WindowReached(g: Grid, s: U64, w: nat)
    requires g.Usable() && g.firstSample <= s
    ensures Window(g, s) >= w <==> s >= WindowStart(g, w)
  {
    var r := s - g.firstSample;
    QuotientAtLeast(r * g.samplePeriodNs, g.windowPeriodNs, w);
    CeilAtMost(w * g.windowPeriodNs, g.samplePeriodNs, r);
  }

  /** The first sample of a window is the least that reaches it; there is none exactly when no 64-bit index does. */
  lemma FirstSampleIsFirst(g: Grid, w: U64, s: U64)
    requires g.Usable() && g.firstSample <= s
    ensures var first := FirstSampleForWindow(g, w);
            && (first.Some? ==> first.value >= g.firstSample && (Window(g, s) >= w <==> s >= first.value))
            && (first.None? ==> Window(g, s) < w)
            && (first.None? <==> Window(g, U64_MAX) < w)
  {
    hide Window, WindowStart;
    StartNotBefore(g, w);
    WindowReached(g, s, w);
    WindowReached(g, U64_MAX, w);
  }

  lemma StartNotBefore(g: Grid, w: nat)
    requires g.Usable()
    ensures WindowStart(g, w) >= g.firstSample
  {
    MulMonotone(0, w, g.windowPeriodNs);
    QuotientMonotone(0, w * g.windowPeriodNs, g.samplePeriodNs);
  }

  lemma WindowMonotone(g: Grid, a: U64, b: U64)
    requires g.Usable() && g.firstSample <= a <= b
    ensures Window(g, a) <= Window(g, b)
  {
    MulMonotone(a - g.firstSample, b - g.firstSample, g.samplePeriodNs);
    QuotientMonotone((a - g.firstSample) * g.samplePeriodNs,
                     (b - g.firstSample) * g.samplePeriodNs, g.windowPeriodNs);
  }

  /** With a sample period no longer than the window period no index can overflow. */
  lemma ShortSamplePeriodNeverOverflows(g: Grid, s: U64)
    requires g.Usable() && g.samplePeriodNs <= g.windowPeriodNs
    ensures !Overflows(g, s)
  {
    if g.firstSample <= s {
      var r := s - g.firstSample;
      MulMonotone(g.samplePeriodNs, g.windowPeriodNs, r);
      assert r * g.samplePeriodNs <= r * g.windowPeriodNs;
      QuotientMonotone(r * g.samplePeriodNs, r * g.windowPeriodNs, g.windowPeriodNs);
      QuotientUnique(r * g.windowPeriodNs, g.windowPeriodNs, r);
    }
  }

  /** The cached window state of the block-local fast path. */
  datatype Cursor = Cursor(index: Option<U64>, nextStart: Option<U64>, last: Option<U64>)

  const UNSET_CURSOR := Cursor(None, None, None)

  /** The state left by priming the cursor with a sample and its window index. */
  function Primed(g: Grid, s: U64, window: Option<U64>): Cursor {
    if window.None? then UNSET_CURSOR
    else Cursor(window,
                if window.value == U64_MAX then None else FirstSampleForWindow(g, window.value + 1),
                Some(s))
  }

  /** What every reachable cursor satisfies: it looks as if it had just been primed, and
      while it still knows the next window's start its index is the exact one. */
  ghost predicate CursorOk(g: Grid, c: Cursor) {
    && (c.index.None? ==> c == UNSET_CURSOR)
    && (c.index.Some? ==>
          && g.Usable() && c.last.Some? && g.firstSample <= c.last.value
          && c == Primed(g, c.last.value, c.index)
          && (c.nextStart.Some? ==> c.index.value == Window(g, c.last.value)))
  }

  /** The incremental branch is taken: the cursor is set, knows the next start and the sample does not go back. */
  predicate Incremental(c: Cursor, s: U64) {
    c.last.Some? && c.last.value <= s && c.index.Some? && c.nextStart.Some?
  }

  /** The window index the fast path assigns to a sample. */
  function CursorWindow(g: Grid, c: Cursor, s: U64): Option<U64>
    requires g.Usable()
  {
    if Incremental(c, s) && Overflows(g, s) then Some(U64_MAX) else WindowForSample(g, s)
  }

  function CursorAfter(g: Grid, c: Cursor, s: U64): Cursor
    requires g.Usable()
  {
    Primed(g, s, CursorWindow(g, c, s))
  }

  /** The incremental index is the exact one for every sample, except exactly when an index past 64 bits
      meets a cursor that can still advance. */
  lemma CursorExactness(g: Grid, c: Cursor, s: U64)
    requires g.Usable() && g.firstSample <= s && CursorOk(g, c)
    ensures CursorWindow(g, c, s) == WindowForSample(g, s) <==> !(Incremental(c, s) && Overflows(g, s))
    ensures !Overflows(g, s) ==> CursorWindow(g, c, s) == Some(Window(g, s))
    ensures CursorOk(g, CursorAfter(g, c, s))
  {
    WindowForSampleIsExact(g, s);
  }

  /** A concrete failing pair: two samples after a fresh start where the incremental index saturates
      while the exact division rejects the sample. */
  lemma CursorCanDiverge()
    ensures var g := Grid(0, U64_MAX - 1, 1);
            var c := CursorAfter(g, UNSET_CURSOR, 1);
            CursorWindow(g, c, 2) == Some(U64_MAX) && WindowForSample(g, 2) == None
  {
    var g := Grid(0, U64_MAX - 1, 1);
    assert Window(g, 1) == U64_MAX - 1;
    assert WindowForSample(g, 1) == Some(U64_MAX - 1);
    assert WindowStart(g, U64_MAX) == 2;
    assert Window(g, 2) == 2 * (U64_MAX - 1);
  }

  /** A representative sample between two samples of one window lies in that window. */
  lemma MidpointSharesWindow(g: Grid, a: U64, b: U64)
    requires g.Usable() && g.firstSample <= a <= b && Window(g, a) == Window(g, b)
    ensures a <= a + (b - a) / 2 <= b && Window(g, a + (b - a) / 2) == Window(g, a)
  {
    var m := a + (b - a) / 2;
    WindowMonotone(g, a, m);
    WindowMonotone(g, m, b);
  }
}
