/** The integer helpers of Unity's `Mathf` that the core relies on. */
module Mathf {

  /** `Mathf.Clamp(value, min, max)`: `min` below the range, `max` above it, `value` otherwise. */
  function Clamp(value: int, min: int, max: int): (r: int)
    ensures min <= max ==> min <= r <= max
    ensures min <= value <= max ==> r == value
    ensures value < min ==> r == min
    ensures min <= value && max < value ==> r == max
  {
    if value < min then min else if value > max then max else value
  }

  /** `Mathf.Max(a, b)`. */
  function Max(a: int, b: int): (r: int)
    ensures r >= a && r >= b
    ensures r == a || r == b
  {
    if a >= b then a else b
  }

  /** Euclidean division is determined by its quotient and remainder. */
  lemma DivModUnique(x: int, d: int, q: int, r: int)
    requires d > 0 && 0 <= r < d && x == q * d + r
    ensures x / d == q && x % d == r
  {
    var k := q - x / d;
    assert x == (x / d) * d + x % d;
    assert k * d == x % d - r;
    if k >= 1 {
      MulAtLeast(k, d);
    } else if k <= -1 {
      MulAtLeast(-k, d);
    }
  }

  lemma MulAtLeast(k: int, d: int)
    requires k >= 1 && d > 0
    ensures k * d >= d
  {
    if k > 1 {
      MulAtLeast(k - 1, d);
      assert k * d == (k - 1) * d + d;
    }
  }

  /** Taking one divisor off the dividend lowers the quotient by one and keeps the remainder. */
  lemma DivModStep(a: int, d: int)
    requires a >= d > 0
    ensures (a - d) / d == a / d - 1 && (a - d) % d == a % d
  {
    assert a == (a / d) * d + a % d;
    DivModUnique(a - d, d, a / d - 1, a % d);
  }
}
