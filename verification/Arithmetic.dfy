/** The saturating unsigned 64-bit arithmetic that the agent's pressure and cache code is written in.
    `usize` is 64 bits wide on every supported target, so it shares these definitions. */
module Arithmetic {

  const U64_MAX: nat := 0xFFFF_FFFF_FFFF_FFFF
  const U64_RANGE: nat := 0x1_0000_0000_0000_0000

  type u64 = n: nat | n <= U64_MAX

  function Min(a: nat, b: nat): nat { if a < b then a else b }

  function Max(a: nat, b: nat): nat { if a < b then b else a }

  function Saturate(n: nat): u64 { if n > U64_MAX then U64_MAX else n }

  function SatMul(a: nat, b: nat): u64 { Saturate(a * b) }

  function SatAdd(a: nat, b: nat): u64 { Saturate(a + b) }

  function Div(a: nat, b: nat): nat
    requires b > 0
  {
    a / b
  }

  function SatSub(a: nat, b: nat): nat { if a < b then 0 else a - b }

  lemma MulMonotone(a: nat, b: nat, c: nat, d: nat)
    requires a <= b && c <= d
    ensures a * c <= b * d
  {
    assert b * d - a * c == (b - a) * d + a * (d - c);
  }

  lemma SatMulMonotone(a: nat, b: nat, c: nat, d: nat)
    requires a <= b && c <= d
    ensures SatMul(a, c) <= SatMul(b, d)
  {
    MulMonotone(a, b, c, d);
  }

  /** Floor division grows with its dividend and shrinks with its divisor. */
  lemma DivMonotone(a: nat, b: nat, c: nat, d: nat)
    requires a <= b && 0 < d <= c
    ensures Div(a, c) <= Div(b, d)
  {
    var q, r := a / c, b / d;
    assert q * c <= a;
    assert b < (r + 1) * d;
    if q > r {
      MulMonotone(r + 1, q, d, c);
    }
  }

  lemma QuotientBound(k: nat, n: nat, m: nat)
    requires k > 0 && n * k <= m
    ensures n <= Div(m, k)
  {
    var q := m / k;
    assert m < (q + 1) * k;
    if q < n {
      MulMonotone(q + 1, n, k, k);
    }
  }
}
