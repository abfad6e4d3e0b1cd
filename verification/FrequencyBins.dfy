/** Frequency bins shared by the bearing and waterfall aggregators. */
module FrequencyBins {
  import opened Common
  import opened Division

  /** Source range and bin count; the widths are those of the configuration fields. */
  datatype Band = Band(minHz: I64, maxHz: I64, binCount: int) {
    predicate Contains(f: int) { minHz <= f <= maxHz }
  }

  /** Two's-complement value of an int64 product. */
  function Wrap64(x: int): I64 {
    (x - I64_MIN) % 0x1_0000_0000_0000_0000 + I64_MIN
  }

  /** The guard of the 64-bit formula: range <= INT64_MAX / multiplier. */
  predicate UsesInt64Formula(b: Band) {
    b.binCount > 1 && b.maxHz > b.minHz && b.maxHz - b.minHz <= I64_MAX / (b.binCount - 1)
  }

  function BinForFrequency(b: Band, f: int): int {
    if b.binCount <= 0 || b.maxHz <= b.minHz || !b.Contains(f) then -1
    else if b.binCount == 1 then 0
    else
      var range := b.maxHz - b.minHz;
      var multiplier := b.binCount - 1;
      if UsesInt64Formula(b) then
        Clamp(Wrap64((f - b.minHz) * multiplier) / range, 0, b.binCount - 1)
      else
        Clamp(((f - b.minHz) * multiplier) / range, 0, b.binCount - 1)
  }

  function CenterFrequencyForBin(b: Band, bin: nat): int {
    if b.binCount <= 1 || b.maxHz <= b.minHz then b.minHz
    else
      var range := b.maxHz - b.minHz;
      b.minHz + (range * bin + range / 2) / (b.binCount - 1)
  }

  lemma WrapIsIdentity(x: int)
    requires I64_MIN <= x <= I64_MAX
    ensures Wrap64(x) == x
  {
  }

  lemma ProductInRange(x: int, r: int, m: int)
    requires 0 <= x <= r && r > 0 && m > 0
    ensures 0 <= x * m <= r * m && 0 <= (x * m) / r <= m
  {
    MulMonotone(0, x, m);
    MulMonotone(x, r, m);
    QuotientMonotone(0, x * m, r);
    QuotientMonotone(x * m, r * m, r);
    QuotientUnique(r * m, r, m);
    QuotientUnique(0, r, 0);
  }

  /** For a frequency in range the 64-bit product does not wrap, the clamp changes nothing,
      and both formulas give the exact quotient. */
  lemma BinIsExactQuotient(b: Band, f: I64)
    requires b.binCount > 1 && b.maxHz > b.minHz && b.Contains(f)
    ensures UsesInt64Formula(b) ==> 0 <= (f - b.minHz) * (b.binCount - 1) <= I64_MAX
    ensures BinForFrequency(b, f) == ((f - b.minHz) * (b.binCount - 1)) / (b.maxHz - b.minHz)
    ensures 0 <= BinForFrequency(b, f) <= b.binCount - 1
  {
    var x, r, m := f - b.minHz, b.maxHz - b.minHz, b.binCount - 1;
    ProductInRange(x, r, m);
    if UsesInt64Formula(b) {
      QuotientAtLeast(I64_MAX, m, r);
      WrapIsIdentity(x * m);
    }
  }

  lemma OutsideHasNoBin(b: Band, f: int)
    requires !b.Contains(f)
    ensures BinForFrequency(b, f) == -1
  {
  }

  /** Of the range, bin parts in binCount - 1 lie below the frequency and no more. */
  ghost predicate InBin(b: Band, f: int, bin: nat) {
    if b.binCount == 1 then bin == 0
    else bin * (b.maxHz - b.minHz) <= (f - b.minHz) * (b.binCount - 1) < (bin + 1) * (b.maxHz - b.minHz)
  }

  /** A frequency in range falls into exactly the bin whose part of the range it is in. */
  lemma BinMeans(b: Band, f: I64, bin: nat)
    requires b.binCount >= 1 && b.maxHz > b.minHz
    ensures BinForFrequency(b, f) == bin <==> b.Contains(f) && InBin(b, f, bin)
    ensures BinForFrequency(b, f) < 0 <==> !b.Contains(f)
  {
    if !b.Contains(f) {
      OutsideHasNoBin(b, f);
    } else if b.binCount > 1 {
      BinIsExactQuotient(b, f);
      hide BinForFrequency;
      var n, r := (f - b.minHz) * (b.binCount - 1), b.maxHz - b.minHz;
      QuotientBounds(n, r);
      if InBin(b, f, bin) { QuotientUnique(n, r, bin); }
    }
  }

  lemma BinMonotone(b: Band, f: I64, g: I64)
    requires b.binCount > 0 && b.maxHz > b.minHz && b.Contains(f) && b.Contains(g) && f <= g
    ensures 0 <= BinForFrequency(b, f) <= BinForFrequency(b, g) < b.binCount
  {
    if b.binCount > 1 {
      BinIsExactQuotient(b, f);
      BinIsExactQuotient(b, g);
      MulMonotone(f - b.minHz, g - b.minHz, b.binCount - 1);
      QuotientMonotone((f - b.minHz) * (b.binCount - 1), (g - b.minHz) * (b.binCount - 1), b.maxHz - b.minHz);
    }
  }

  /** Remainder left by the rounded division that places a bin's centre. */
  function CenterRemainder(b: Band, bin: nat): (r: int)
    requires b.binCount > 1
    ensures 0 <= r < b.binCount - 1
  {
    ((b.maxHz - b.minHz) * bin + (b.maxHz - b.minHz) / 2) % (b.binCount - 1)
  }

  /** A centre's offset stays within the range. */
  lemma CenterInRange(r: int, m: int, bin: nat)
    requires r > 0 && bin < m
    ensures r * bin + r / 2 >= 0 && 0 <= (r * bin + r / 2) / m <= r
  {
    var n := r * bin + r / 2;
    assert r * bin >= 0;
    QuotientMonotone(0, n, m);
    assert r * (bin + 1) == r * bin + r;
    MulMonotone(bin + 1, m, r);
    QuotientAtLeast(n, m, r + 1);
    assert (r + 1) * m == r * m + m;
  }

  /** A value that misses bin * r + r / 2 by a remainder divides back to bin exactly when the remainder is at most r / 2. */
  lemma DividesBack(v: int, r: int, bin: nat, remainder: nat)
    requires r > 0 && v == bin * r + r / 2 - remainder
    ensures v / r == bin <==> remainder <= r / 2
  {
    QuotientAtLeast(v, r, bin);
    QuotientAtLeast(v, r, bin + 1);
    assert (bin + 1) * r == bin * r + r;
  }

  /** A bin's centre falls back into the bin exactly when the rounding remainder is at most half the range.
      Every bin but the last has its centre inside the source range. */
  lemma CenterRoundTrip(b: Band, bin: nat)
    requires b.binCount > 1 && b.maxHz > b.minHz && bin < b.binCount - 1
    ensures b.minHz <= CenterFrequencyForBin(b, bin) <= b.maxHz
    ensures BinForFrequency(b, CenterFrequencyForBin(b, bin)) == bin <==>
            CenterRemainder(b, bin) <= (b.maxHz - b.minHz) / 2
  {
    hide BinForFrequency;
    var r, m := b.maxHz - b.minHz, b.binCount - 1;
    var n := r * bin + r / 2;
    CenterInRange(r, m, bin);
    assert n == (n / m) * m + n % m;
    assert r * bin == bin * r;
    DividesBack((n / m) * m, r, bin, n % m);
    BinIsExactQuotient(b, CenterFrequencyForBin(b, bin));
  }

  /** A range at least twice the bin count minus two makes every bin but the last round-trip. */
  lemma WideRangeRoundTrips(b: Band, bin: nat)
    requires b.binCount > 1 && b.maxHz > b.minHz && bin < b.binCount - 1
    requires (b.maxHz - b.minHz) / 2 >= b.binCount - 2
    ensures BinForFrequency(b, CenterFrequencyForBin(b, bin)) == bin
  {
    var remainder := CenterRemainder(b, bin);
    CenterRoundTrip(b, bin);
  }

  lemma LastCenter(r: nat, m: nat)
    requires m > 0
    ensures (r * m + r / 2) / m == r <==> r / 2 < m
    ensures (r * m + r / 2) / m >= r
  {
    var n := r * m + r / 2;
    QuotientAtLeast(n, m, r);
    QuotientAtLeast(n, m, r + 1);
    assert (r + 1) * m == r * m + m;
  }

  /** The last bin's centre stays in range, and so round-trips, exactly when half the range is below binCount - 1. */
  lemma LastBinRoundTrip(b: Band)
    requires b.binCount > 1 && b.maxHz > b.minHz
    ensures BinForFrequency(b, CenterFrequencyForBin(b, b.binCount - 1)) == b.binCount - 1 <==>
            (b.maxHz - b.minHz) / 2 < b.binCount - 1
  {
    hide BinForFrequency;
    var r, m := b.maxHz - b.minHz, b.binCount - 1;
    LastCenter(r, m);
    if r / 2 < m {
      BinIsExactQuotient(b, b.maxHz);
      QuotientUnique(r * m, r, m);
    } else {
      OutsideHasNoBin(b, CenterFrequencyForBin(b, m));
    }
  }
}
