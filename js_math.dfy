/** The few pieces of JavaScript's `Math` the model needs, on unbounded numbers. */
module JsMath {
  /** `Math.PI`, the double closest to pi. The proofs only use that it is positive. */
  const Pi: real := 3.141592653589793

  /** `Math.min` on integers. */
  function Min(a: int, b: int): (r: int)
    ensures r <= a && r <= b
    ensures r == a || r == b
  {
    if a <= b then a else b
  }

  /** `Math.min` on reals. */
  function MinReal(a: real, b: real): (r: real)
    ensures r <= a && r <= b
    ensures r == a || r == b
  {
    if a <= b then a else b
  }

  /** `Math.max` on reals. */
  function MaxReal(a: real, b: real): (r: real)
    ensures r >= a && r >= b
    ensures r == a || r == b
  {
    if a >= b then a else b
  }

  /** `Math.round`: the nearest integer, halves rounded up. */
  function Round(x: real): (r: int)
    ensures r as real <= x + 0.5 < r as real + 1.0
  {
    (x + 0.5).Floor
  }

  /** Multiplying by a positive factor keeps a strict order. */
  lemma MulLess(a: real, b: real, c: real)
    requires a < b && c > 0.0
    ensures c * a < c * b && a * c < b * c
  {
  }
}
