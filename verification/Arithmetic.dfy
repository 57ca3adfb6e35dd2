/** Integer helpers shared by several components. */
module Arithmetic {
  function Min(a: int, b: int): int {
    if a < b then a else b
  }

  function Max(a: int, b: int): int {
    if a > b then a else b
  }

  /** `Math.ceil(n / d)` for positive `d`. */
  function CeilDiv(n: int, d: int): (q: int)
    requires d > 0
    ensures (q - 1) * d < n <= q * d
  {
    -((-n) / d)
  }

  /** `floor(x / step)` is the greatest `k` with `k * step <= x`. */
  lemma FloorBelow(x: int, step: int, k: int)
    requires step > 0
    ensures k * step <= x <==> k <= x / step
  {
    var q, rest := x / step, x % step;
    assert x == q * step + rest && 0 <= rest < step;
    assert k <= q ==> k * step <= q * step;
    assert q < k ==> (q + 1) * step <= k * step;
  }
}
