/** Shared vocabulary: optional values and the integer widths the sources check against. */
module Common {

  datatype Option<+T> = None | Some(value: T)

  const U64_MAX: int := 0xFFFF_FFFF_FFFF_FFFF
  const I64_MAX: int := 0x7FFF_FFFF_FFFF_FFFF
  const I64_MIN: int := -0x8000_0000_0000_0000
  const U16_MAX: int := 0xFFFF

  type U64 = n: int | 0 <= n <= U64_MAX
  type I64 = n: int | I64_MIN <= n <= I64_MAX
  type U16 = n: int | 0 <= n <= U16_MAX

  function Min(a: int, b: int): int { if a <= b then a else b }

  function Max(a: int, b: int): int { if a <= b then b else a }

  /** std::clamp for a non-empty interval. */
  function Clamp(v: int, lo: int, hi: int): int { if v < lo then lo else if v > hi then hi else v }

  /** Saturating conversion to an unsigned 16-bit amplitude. */
  function ClampAmplitude(amplitude: int): U16 { Clamp(amplitude, 0, U16_MAX) }
}

/** Division facts used by the window and bin arithmetic. */
module Division {

  lemma QuotientUnique(n: int, d: int, q: int)
    requires d > 0 && q * d <= n < (q + 1) * d
    ensures n / d == q
  {
    QuotientBounds(n, d);
    MulStrict(n / d, q + 1, d);
    MulStrict(q, n / d + 1, d);
  }

  lemma QuotientBounds(n: int, d: int)
    requires d > 0
    ensures (n / d) * d <= n < (n / d + 1) * d
  {
  }

  lemma MulMonotone(a: int, b: int, d: int)
    requires a <= b && d >= 0
    ensures a * d <= b * d
  {
    assert (b - a) * d >= 0;
  }

  lemma MulStrict(a: int, b: int, d: int)
    requires d >= 0 && a * d < b * d
    ensures a < b
  {
    if b <= a { MulMonotone(b, a, d); }
  }

  /** floor(n / d) >= q exactly when n >= q * d. */
  lemma QuotientAtLeast(n: int, d: int, q: int)
    requires d > 0
    ensures n / d >= q <==> n >= q * d
  {
    QuotientBounds(n, d);
    if n / d >= q { MulMonotone(q, n / d, d); }
    if n >= q * d { MulStrict(q, n / d + 1, d); }
  }

  lemma QuotientMonotone(a: int, b: int, d: int)
    requires d > 0 && a <= b
    ensures a / d <= b / d
  {
    QuotientBounds(a, d);
    QuotientAtLeast(b, d, a / d);
  }

  function CeilDiv(n: int, d: int): int
    requires d > 0
  {
    if n % d != 0 then n / d + 1 else n / d
  }

  /** r >= ceil(n / d) exactly when r * d >= n. */
  lemma CeilAtMost(n: int, d: int, r: int)
    requires d > 0
    ensures r >= CeilDiv(n, d) <==> r * d >= n
  {
    QuotientBounds(n, d);
    assert n == (n / d) * d + n % d;
    if n % d != 0 {
      if r >= n / d + 1 { MulMonotone(n / d + 1, r, d); }
      if r * d >= n { MulStrict(n / d, r, d); }
    } else {
      if r >= n / d { MulMonotone(n / d, r, d); }
      if r * d >= n { assert (r + 1) * d == r * d + d; MulStrict(n / d, r + 1, d); }
    }
  }
}
