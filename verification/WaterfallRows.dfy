/** Rendered waterfall rows: resampling to a view, session storage, and the mapping between times and screen rows. */
module WaterfallRows {
  import opened Common

  const AMPLITUDE_MAX: nat := 127

  datatype Bin = Bin(left: nat, right: nat)

  datatype Row = Row(utcMs: int, firstSampleIndex: nat, viewMinHz: real, viewMaxHz: real, bins: seq<Bin>)

  function Blank(n: nat): (r: seq<Bin>)
    ensures |r| == n
  {
    seq(n, _ => Bin(0, 0))
  }

  /** std::lround and std::llround: nearest, halves away from zero. */
  function Round(x: real): int { if x >= 0.0 then (x + 0.5).Floor else -((-x + 0.5).Floor) }

  lemma RoundExact(n: int)
    ensures Round(n as real) == n
  {
    if n >= 0 { FloorNear(n); } else { FloorNear(-n); }
  }

  lemma FloorNear(n: int)
    ensures (n as real + 0.5).Floor == n
  {
  }

  // ---- resampling --------------------------------------------------------------------------------

  function Interpolate(a: nat, b: nat, frac: real): nat {
    Clamp(Round(a as real * (1.0 - frac) + b as real * frac), 0, AMPLITUDE_MAX)
  }

  function ClampReal(x: real, lo: real, hi: real): real { if x < lo then lo else if x > hi then hi else x }

  function InterpolateBins(bins: seq<Bin>, sourceBin: real): Bin
    requires bins != []
  {
    var last := |bins| - 1;
    var left := Clamp(sourceBin.Floor, 0, last);
    var right := Clamp(Ceiling(sourceBin), 0, last);
    var frac := ClampReal(sourceBin - left as real, 0.0, 1.0);
    Bin(Interpolate(bins[left].left, bins[right].left, frac), Interpolate(bins[left].right, bins[right].right, frac))
  }

  function Ceiling(x: real): int { -((-x).Floor) }

  function Ratio(b: nat, n: nat): real
    requires b < n
  {
    if n <= 1 then 0.0 else b as real / (n - 1) as real
  }

  function TargetHz(minHz: real, maxHz: real, n: nat, b: nat): real
    requires b < n
  {
    minHz + Ratio(b, n) * (maxHz - minHz)
  }

  function SourcePosition(minHz: real, maxHz: real, n: nat, freqHz: real): real
    requires maxHz > minHz
  {
    (freqHz - minHz) / (maxHz - minHz) * (n - 1) as real
  }

  function ResampledBin(row: Row, minHz: real, maxHz: real, n: nat, b: nat): Bin
    requires b < n && row.bins != [] && row.viewMaxHz > row.viewMinHz
  {
    var freqHz := TargetHz(minHz, maxHz, n, b);
    if freqHz < row.viewMinHz || freqHz > row.viewMaxHz then Bin(0, 0)
    else InterpolateBins(row.bins, SourcePosition(row.viewMinHz, row.viewMaxHz, |row.bins|, freqHz))
  }

  function Resample(row: Row, minHz: real, maxHz: real, n: nat): (r: seq<Bin>)
    ensures |r| == n
  {
    if row.bins == [] || row.viewMaxHz <= row.viewMinHz || maxHz <= minHz then Blank(n)
    else seq(n, b requires 0 <= b < n => ResampledBin(row, minHz, maxHz, n, b))
  }

  /** Rows the renderer produces: their amplitudes are clamped to the render maximum before they are stored. */
  predicate Rendered(row: Row) {
    forall b :: 0 <= b < |row.bins| ==> row.bins[b].left <= AMPLITUDE_MAX && row.bins[b].right <= AMPLITUDE_MAX
  }

  lemma RatioCancels(lo: real, span: real, ratio: real)
    requires span > 0.0
    ensures ((lo + ratio * span) - lo) / span == ratio
  {
    assert ((lo + ratio * span) - lo) == ratio * span;
  }

  lemma InterpolateAtBin(bins: seq<Bin>, b: nat)
    requires b < |bins|
    ensures InterpolateBins(bins, b as real) == Bin(Min(bins[b].left, AMPLITUDE_MAX), Min(bins[b].right, AMPLITUDE_MAX))
  {
    assert (b as real).Floor == b;
    var minus: int := 0 - b;
    assert (-(b as real)).Floor == minus;
    RoundExact(bins[b].left);
    RoundExact(bins[b].right);
  }

  lemma RatioBounds(b: nat, n: nat)
    requires b < n
    ensures 0.0 <= Ratio(b, n) <= 1.0 && Ratio(b, n) * (n - 1) as real == b as real
  {
  }

  lemma TargetInView(minHz: real, maxHz: real, n: nat, b: nat)
    requires maxHz > minHz && b < n
    ensures minHz <= TargetHz(minHz, maxHz, n, b) <= maxHz
  {
    RatioBounds(b, n);
    PointBetween(minHz, maxHz, Ratio(b, n));
    hide Ratio;
  }

  /** A point at a share of the way between two others lies between them. */
  lemma PointBetween(lo: real, hi: real, ratio: real)
    requires 0.0 <= ratio <= 1.0 && lo < hi
    ensures lo <= lo + ratio * (hi - lo) <= hi
  {
    var span := hi - lo;
    var before, after := ratio * span, (1.0 - ratio) * span;
    assert before >= 0.0 && after >= 0.0;
    assert before + after == span;
  }

  lemma SamePosition(minHz: real, maxHz: real, n: nat, b: nat)
    requires maxHz > minHz && b < n
    ensures SourcePosition(minHz, maxHz, n, TargetHz(minHz, maxHz, n, b)) == b as real
  {
    RatioBounds(b, n);
    RatioCancels(minHz, maxHz - minHz, Ratio(b, n));
    hide Ratio;
  }

  lemma SameViewBin(row: Row, n: nat, b: nat)
    requires |row.bins| == n && row.viewMaxHz > row.viewMinHz && b < n
    ensures ResampledBin(row, row.viewMinHz, row.viewMaxHz, n, b)
            == Bin(Min(row.bins[b].left, AMPLITUDE_MAX), Min(row.bins[b].right, AMPLITUDE_MAX))
  {
    SamePosition(row.viewMinHz, row.viewMaxHz, n, b);
    TargetInView(row.viewMinHz, row.viewMaxHz, n, b);
    InterpolateAtBin(row.bins, b);
    hide InterpolateBins, TargetHz, SourcePosition;
  }

  /** Resampling to the row's own view and bin count only clamps amplitudes. */
  lemma ResampleSameView(row: Row, n: nat)
    requires |row.bins| == n && row.viewMaxHz > row.viewMinHz
    ensures forall b :: 0 <= b < n ==>
              Resample(row, row.viewMinHz, row.viewMaxHz, n)[b] == Bin(Min(row.bins[b].left, AMPLITUDE_MAX), Min(row.bins[b].right, AMPLITUDE_MAX))
    ensures Rendered(row) ==> Resample(row, row.viewMinHz, row.viewMaxHz, n) == row.bins
  {
    hide ResampledBin;
    forall b: nat | b < n
      ensures Resample(row, row.viewMinHz, row.viewMaxHz, n)[b]
              == Bin(Min(row.bins[b].left, AMPLITUDE_MAX), Min(row.bins[b].right, AMPLITUDE_MAX))
    {
      SameViewBin(row, n, b);
    }
  }

  // ---- resampling to another view ------------------------------------------------------------------

  /** The integer nearest to x. */
  ghost predicate Nearest(r: int, x: real) { -0.5 <= r as real - x <= 0.5 }

  lemma RoundIsNearest(x: real)
    ensures Nearest(Round(x), x)
  {
  }

  /** A mixture of two amplitudes lies between them. */
  lemma MixtureBetween(a: nat, b: nat, frac: real)
    requires 0.0 <= frac <= 1.0 && a <= AMPLITUDE_MAX && b <= AMPLITUDE_MAX
    ensures 0.0 <= a as real * (1.0 - frac) + b as real * frac <= AMPLITUDE_MAX as real
  {
    var x, y, top, rest := a as real, b as real, AMPLITUDE_MAX as real, 1.0 - frac;
    ProductSign(x, rest);
    ProductSign(y, frac);
    ProductSign(top - x, rest);
    ProductSign(top - y, frac);
    assert (top - x) * rest == top * rest - x * rest && (top - y) * frac == top * frac - y * frac;
    assert top * rest + top * frac == top;
  }

  lemma ProductSign(x: real, y: real)
    requires x >= 0.0 && y >= 0.0
    ensures x * y >= 0.0
  {
  }

  lemma InterpolateIsNearest(a: nat, b: nat, frac: real)
    requires 0.0 <= frac <= 1.0 && a <= AMPLITUDE_MAX && b <= AMPLITUDE_MAX
    ensures Nearest(Interpolate(a, b, frac), a as real * (1.0 - frac) + b as real * frac)
  {
    var x := a as real * (1.0 - frac) + b as real * frac;
    MixtureBetween(a, b, frac);
    RoundIsNearest(x);
    RoundInRange(x);
    hide Round;
  }

  lemma RoundInRange(x: real)
    requires 0.0 <= x <= AMPLITUDE_MAX as real
    ensures 0 <= Round(x) <= AMPLITUDE_MAX
  {
  }

  /** Between two bins the amplitude is the line between theirs. */
  lemma InterpolateBetween(bins: seq<Bin>, k: nat, frac: real)
    requires k + 1 < |bins| && 0.0 <= frac < 1.0
    ensures InterpolateBins(bins, k as real + frac)
            == Bin(Interpolate(bins[k].left, bins[k + 1].left, frac), Interpolate(bins[k].right, bins[k + 1].right, frac))
  {
    var x := k as real + frac;
    assert x.Floor == k;
    if frac == 0.0 {
      InterpolateAtBin(bins, k);
      ZeroFraction(bins[k].left, bins[k + 1].left);
      ZeroFraction(bins[k].right, bins[k + 1].right);
    } else {
      assert (-x).Floor == -(k as int) - 1;
    }
    hide Interpolate;
  }

  lemma ZeroFraction(a: nat, b: nat)
    ensures Interpolate(a, b, 0.0) == Min(a, AMPLITUDE_MAX)
  {
    RoundExact(a);
    assert a as real * (1.0 - 0.0) + b as real * 0.0 == a as real;
    hide Round;
  }

  /** Frequency b of n evenly spread over the view. */
  ghost predicate Spread(freqHz: real, minHz: real, maxHz: real, n: nat, b: real) {
    (freqHz - minHz) * (n - 1) as real == b * (maxHz - minHz)
  }

  /** The frequency that bin b of n shows; a single bin shows the view's lower end. */
  ghost predicate ShowsFrequency(freqHz: real, minHz: real, maxHz: real, n: nat, b: nat) {
    if n == 1 then freqHz == minHz else Spread(freqHz, minHz, maxHz, n, b as real)
  }

  lemma SpreadTarget(minHz: real, maxHz: real, n: nat, b: nat, freqHz: real)
    requires b < n && ShowsFrequency(freqHz, minHz, maxHz, n, b)
    ensures TargetHz(minHz, maxHz, n, b) == freqHz
  {
    if n == 1 { return; }
    var share, span, steps := b as real / (n - 1) as real, maxHz - minHz, (n - 1) as real;
    assert share * steps == b as real;
    assert (share * span) * steps == b as real * span;
    SameQuotient(freqHz - minHz, share * span, steps);
  }

  lemma SpreadPosition(minHz: real, maxHz: real, n: nat, x: real, freqHz: real)
    requires n >= 2 && maxHz > minHz && Spread(freqHz, minHz, maxHz, n, x)
    ensures SourcePosition(minHz, maxHz, n, freqHz) == x
  {
    var share, span, steps := (freqHz - minHz) / (maxHz - minHz), maxHz - minHz, (n - 1) as real;
    assert share * span == freqHz - minHz;
    assert (share * steps) * span == (freqHz - minHz) * steps;
    SameQuotient(share * steps, x, span);
  }

  lemma SameQuotient(a: real, b: real, d: real)
    requires d > 0.0 && a * d == b * d
    ensures a == b
  {
    assert (a * d) / d == a && (b * d) / d == b;
  }

  /** A position between two bins, or on the upper one, shows the nearest integers to the line between them. */
  lemma ShownOnTheLine(row: Row, k: nat, frac: real)
    requires Rendered(row) && k + 1 < |row.bins| && 0.0 <= frac <= 1.0
    ensures var shown := InterpolateBins(row.bins, k as real + frac);
            && Nearest(shown.left, row.bins[k].left as real * (1.0 - frac) + row.bins[k + 1].left as real * frac)
            && Nearest(shown.right, row.bins[k].right as real * (1.0 - frac) + row.bins[k + 1].right as real * frac)
  {
    hide InterpolateBins, Interpolate;
    if frac == 1.0 {
      assert k as real + frac == (k + 1) as real;
      InterpolateAtBin(row.bins, k + 1);
      assert row.bins[k].left as real * (1.0 - frac) == 0.0 && row.bins[k].right as real * (1.0 - frac) == 0.0;
    } else {
      InterpolateBetween(row.bins, k, frac);
      InterpolateIsNearest(row.bins[k].left, row.bins[k + 1].left, frac);
      InterpolateIsNearest(row.bins[k].right, row.bins[k + 1].right, frac);
    }
  }

  /** Resampling to any view: bin b shows the amplitudes at its frequency on the line between the row's two bins around
      it, to the nearest integer; and nothing when its frequency is outside the row's own view. */
  lemma ResampleFollowsFrequency(row: Row, minHz: real, maxHz: real, n: nat, b: nat, freqHz: real, k: nat, frac: real)
    requires row.viewMaxHz > row.viewMinHz && maxHz > minHz && b < n && k + 1 < |row.bins| && 0.0 <= frac <= 1.0
    requires ShowsFrequency(freqHz, minHz, maxHz, n, b) && Rendered(row)
    ensures !(row.viewMinHz <= freqHz <= row.viewMaxHz) ==> Resample(row, minHz, maxHz, n)[b] == Bin(0, 0)
    ensures row.viewMinHz <= freqHz <= row.viewMaxHz && Spread(freqHz, row.viewMinHz, row.viewMaxHz, |row.bins|, k as real + frac) ==>
              var shown := Resample(row, minHz, maxHz, n)[b];
              && Nearest(shown.left, row.bins[k].left as real * (1.0 - frac) + row.bins[k + 1].left as real * frac)
              && Nearest(shown.right, row.bins[k].right as real * (1.0 - frac) + row.bins[k + 1].right as real * frac)
  {
    hide TargetHz, SourcePosition, InterpolateBins, Spread, ShowsFrequency, Rendered;
    SpreadTarget(minHz, maxHz, n, b, freqHz);
    assert Resample(row, minHz, maxHz, n)[b] == ResampledBin(row, minHz, maxHz, n, b);
    if row.viewMinHz <= freqHz <= row.viewMaxHz && Spread(freqHz, row.viewMinHz, row.viewMaxHz, |row.bins|, k as real + frac) {
      SpreadPosition(row.viewMinHz, row.viewMaxHz, |row.bins|, k as real + frac, freqHz);
      ShownOnTheLine(row, k, frac);
    }
  }

  /** A row of one bin shows it everywhere in its view. */
  lemma SingleBinFillsView(row: Row, minHz: real, maxHz: real, n: nat, b: nat, freqHz: real)
    requires row.viewMaxHz > row.viewMinHz && maxHz > minHz && b < n && |row.bins| == 1
    requires ShowsFrequency(freqHz, minHz, maxHz, n, b) && Rendered(row)
    ensures Resample(row, minHz, maxHz, n)[b] == if row.viewMinHz <= freqHz <= row.viewMaxHz then row.bins[0] else Bin(0, 0)
  {
    hide TargetHz, InterpolateBins, ShowsFrequency;
    SpreadTarget(minHz, maxHz, n, b, freqHz);
    assert Resample(row, minHz, maxHz, n)[b] == ResampledBin(row, minHz, maxHz, n, b);
    assert SourcePosition(row.viewMinHz, row.viewMaxHz, 1, freqHz) == 0.0;
    InterpolateAtBin(row.bins, 0);
  }

  /** A row without bins or without a view, and a view without width, give blanks. */
  lemma NothingToResample(row: Row, minHz: real, maxHz: real, n: nat)
    requires row.bins == [] || row.viewMaxHz <= row.viewMinHz || maxHz <= minHz
    ensures forall b :: 0 <= b < n ==> Resample(row, minHz, maxHz, n)[b] == Bin(0, 0)
  {
  }

  // ---- times and screen rows ---------------------------------------------------------------------

  /** rowIndexForUtcMs: the nearest screen row, or none. */
  function RowIndexForUtcMs(topUtcMs: int, rowPeriodMs: int, visibleRowCount: int, utcMs: int): int {
    var p := Max(1, rowPeriodMs);
    var index := Round((topUtcMs - utcMs) as real / p as real);
    if 0 <= index < Max(1, visibleRowCount) then index else -1
  }

  function UtcMsForRowIndex(topUtcMs: int, rowPeriodMs: int, rowIndex: int): int { topUtcMs - rowIndex * Max(1, rowPeriodMs) }

  /** A visible index is the row nearest to the time, the lower of two equally near ones; a time half a period or more
      above the top, or nearest to a row below the screen, has none. */
  lemma RowIndexIsNearest(topUtcMs: int, p: int, visibleRowCount: int, utcMs: int, i: int)
    requires p >= 1 && visibleRowCount >= 1
    ensures (0 <= i && RowIndexForUtcMs(topUtcMs, p, visibleRowCount, utcMs) == i) <==>
              && 0 <= i < visibleRowCount
              && if i == 0 then -p < 2 * (topUtcMs - utcMs) < p
                 else 2 * i * p - p <= 2 * (topUtcMs - utcMs) < 2 * i * p + p
    ensures RowIndexForUtcMs(topUtcMs, p, visibleRowCount, utcMs) >= -1
  {
    RoundedQuotient(topUtcMs - utcMs, p, i);
    hide Round;
  }

  /** Rounding a quotient: nearest, halves away from zero. */
  lemma RoundedQuotient(a: int, p: int, i: int)
    requires p >= 1
    ensures i >= 1 ==> (Round(a as real / p as real) == i <==> 2 * i * p - p <= 2 * a < 2 * i * p + p)
    ensures Round(a as real / p as real) == 0 <==> -p < 2 * a < p
  {
    RoundOf(a as real / p as real, i);
    QuotientBelow(a, p, 2 * i - 1);
    QuotientBelow(a, p, 2 * i + 1);
    QuotientBelow(a, p, 1);
    QuotientAt(a, p);
    hide Round;
    assert (2 * i - 1) * p == 2 * i * p - p && (2 * i + 1) * p == 2 * i * p + p;
  }

  lemma RoundOf(q: real, i: int)
    ensures i >= 1 ==> (Round(q) == i <==> (2 * i - 1) as real / 2.0 <= q < (2 * i + 1) as real / 2.0)
    ensures Round(q) == 0 <==> -0.5 < q < 0.5
  {
    if q >= 0.0 { FloorIs(q + 0.5, i); FloorIs(q + 0.5, 0); } else { FloorIs(-q + 0.5, i); FloorIs(-q + 0.5, 0); }
  }

  lemma FloorIs(x: real, i: int)
    ensures x.Floor == i <==> i as real <= x < i as real + 1.0
  {
  }

  lemma QuotientAt(a: int, p: int)
    requires p >= 1
    ensures -0.5 < a as real / p as real <==> -p < 2 * a
  {
    var q := a as real / p as real;
    assert (2 * a + p) as real == (2.0 * q + 1.0) * p as real;
    FactorSign(-(2.0 * q + 1.0), p as real);
    FactorSign(2.0 * q + 1.0, p as real);
  }

  /** Comparing a quotient with half of k. */
  lemma QuotientBelow(a: int, p: int, k: int)
    requires p >= 1
    ensures a as real / p as real < k as real / 2.0 <==> 2 * a < k * p
  {
    var q := a as real / p as real;
    assert (k * p) as real == k as real * p as real;
    assert (2 * a) as real - (k * p) as real == (2.0 * q - k as real) * p as real;
    FactorSign(2.0 * q - k as real, p as real);
  }

  lemma FactorSign(q: real, b: real)
    requires b > 0.0
    ensures q * b < 0.0 <==> q < 0.0
  {
  }

  /** A time a whole number of periods below the top maps to exactly that row. */
  lemma AlignedRowIndex(topUtcMs: int, p: int, visibleRowCount: int, d: int)
    requires p >= 1 && visibleRowCount >= 1
    ensures RowIndexForUtcMs(topUtcMs, p, visibleRowCount, topUtcMs - d * p) == if 0 <= d < visibleRowCount then d else -1
  {
    assert (d * p) as real == d as real * p as real;
    assert (d * p) as real / p as real == d as real;
    RoundExact(d);
  }

  /** The two mappings are inverse on visible rows. */
  lemma RowIndexRoundTrip(topUtcMs: int, rowPeriodMs: int, visibleRowCount: int, rowIndex: int)
    requires 0 <= rowIndex < visibleRowCount
    ensures RowIndexForUtcMs(topUtcMs, rowPeriodMs, visibleRowCount, UtcMsForRowIndex(topUtcMs, rowPeriodMs, rowIndex)) == rowIndex
  {
    AlignedRowIndex(topUtcMs, Max(1, rowPeriodMs), visibleRowCount, rowIndex);
  }

  // ---- session storage ---------------------------------------------------------------------------

  predicate RowEarlier(a: Row, b: Row) {
    if a.utcMs != b.utcMs then a.utcMs < b.utcMs else a.firstSampleIndex < b.firstSampleIndex
  }

  ghost predicate Sorted(rows: seq<Row>) { forall i, j :: 0 <= i < j < |rows| ==> !RowEarlier(rows[j], rows[i]) }

  function InRange(rows: seq<Row>, lo: int, hi: int): seq<Row> {
    if rows == [] then []
    else
      var front, last := InRange(rows[..|rows| - 1], lo, hi), rows[|rows| - 1];
      if lo <= last.utcMs <= hi then front + [last] else front
  }

  /** loadRows: the newest maxRows rows of a closed time range, in order. */
  function Loaded(rows: seq<Row>, fromUtcMs: int, toUtcMs: int, maxRows: int): seq<Row> {
    var found := InRange(rows, Min(fromUtcMs, toUtcMs), Max(fromUtcMs, toUtcMs));
    if maxRows > 0 && |found| > maxRows then found[|found| - maxRows..] else found
  }

  /** Neighbour-free order check of an insertion at the lower bound. */
  lemma InsertSorted(rows: seq<Row>, at: nat, row: Row)
    requires Sorted(rows) && at <= |rows|
    requires forall i :: 0 <= i < at ==> RowEarlier(rows[i], row)
    requires at < |rows| ==> !RowEarlier(rows[at], row)
    ensures Sorted(rows[..at] + [row] + rows[at..])
  {
    var r := rows[..at] + [row] + rows[at..];
    assert forall i :: 0 <= i < at ==> r[i] == rows[i];
    assert forall i :: at < i < |r| ==> r[i] == rows[i - 1];
    forall i, j | 0 <= i < j < |r| ensures !RowEarlier(r[j], r[i]) {
      if j < at {
      } else if j == at {
        assert RowEarlier(rows[i], row);
      } else if i == at {
        assert j - 1 == at || !RowEarlier(rows[j - 1], rows[at]);
      } else if i < at {
        assert !RowEarlier(rows[j - 1], rows[i]);
      } else {
        assert !RowEarlier(rows[j - 1], rows[i - 1]);
      }
    }
  }

  lemma SortedBounds(rows: seq<Row>, i: nat)
    requires Sorted(rows) && i < |rows|
    ensures rows[0].utcMs <= rows[i].utcMs <= rows[|rows| - 1].utcMs
  {
    if i > 0 { assert !RowEarlier(rows[i], rows[0]); }
    if i < |rows| - 1 { assert !RowEarlier(rows[|rows| - 1], rows[i]); }
  }

  lemma InsertedRows(rows: seq<Row>, at: nat, row: Row)
    requires at <= |rows|
    ensures multiset(rows[..at] + [row] + rows[at..]) == multiset(rows) + multiset{row}
    ensures at == |rows| ==> rows[..at] + [row] + rows[at..] == rows + [row]
  {
    assert rows == rows[..at] + rows[at..];
    assert multiset(rows) == multiset(rows[..at]) + multiset(rows[at..]);
    assert multiset(rows[..at] + [row] + rows[at..]) == multiset(rows[..at] + [row]) + multiset(rows[at..]);
  }

  /** One session's rows in InMemoryWaterfallSessionStorage. */
  class SessionRows {
    var rows: seq<Row>
    var startUtcMs: int
    var endUtcMs: int

    ghost predicate Valid()
      reads this
    {
      Sorted(rows) && forall i :: 0 <= i < |rows| ==> startUtcMs <= rows[i].utcMs <= endUtcMs
    }

    constructor (start: int)
      ensures Valid() && rows == [] && startUtcMs == start
    {
      rows, startUtcMs, endUtcMs := [], start, start;
    }

    /** Inserted at the lower bound, so the rows stay sorted and the session's times cover them. */
    method AppendRow(row: Row)
      requires Valid()
      modifies this
      ensures Valid() && multiset(rows) == multiset(old(rows)) + multiset{row}
      ensures (forall r :: r in old(rows) ==> RowEarlier(r, row)) ==> rows == old(rows) + [row]
    {
      var at := 0;
      while at < |rows| && RowEarlier(rows[at], row)
        invariant at <= |rows| && forall i :: 0 <= i < at ==> RowEarlier(rows[i], row)
      {
        at := at + 1;
      }
      InsertSorted(rows, at, row);
      InsertedRows(rows, at, row);
      if at < |rows| { assert rows[at] in rows; }
      hide RowEarlier, Sorted;
      rows := rows[..at] + [row] + rows[at..];
      startUtcMs := if |rows| == 1 then rows[0].utcMs else Min(startUtcMs, rows[0].utcMs);
      endUtcMs := Max(endUtcMs, rows[|rows| - 1].utcMs);
      forall i | 0 <= i < |rows| ensures startUtcMs <= rows[i].utcMs <= endUtcMs { SortedBounds(rows, i); }
    }

    /** The filter keeps the order, so the sort that follows it in the source has nothing to do. */
    method LoadRows(fromUtcMs: int, toUtcMs: int, maxRows: int) returns (result: seq<Row>)
      requires Valid()
      ensures result == Loaded(rows, fromUtcMs, toUtcMs, maxRows) && Sorted(result)
    {
      result := [];
      var lo, hi := Min(fromUtcMs, toUtcMs), Max(fromUtcMs, toUtcMs);
      for i := 0 to |rows|
        invariant result == InRange(rows[..i], lo, hi) && Sorted(result)
        invariant forall r :: r in result ==> exists j :: 0 <= j < i && rows[j] == r
      {
        assert rows[..i + 1][..i] == rows[..i];
        if lo <= rows[i].utcMs <= hi {
          forall k | 0 <= k < |result| ensures !RowEarlier(rows[i], result[k]) {
            assert result[k] in result;
          }
          result := result + [rows[i]];
        }
      }
      assert rows[..|rows|] == rows;
      if maxRows > 0 && |result| > maxRows {
        result := result[|result| - maxRows..];
      }
    }
  }
}
