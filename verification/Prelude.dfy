/** Shared vocabulary: optional values, results, and the few arithmetic helpers
    that Python's built-ins supply. */
module Prelude {

  datatype Option<+T> = None | Some(value: T)

  datatype Result<+T, +E> = Ok(value: T) | Err(error: E)

  function Min(a: real, b: real): real { if a <= b then a else b }

  function Max(a: real, b: real): real { if a >= b then a else b }

  function Abs(a: real): real { if a >= 0.0 then a else -a }

  /** Order of products: scaling by a nonnegative factor keeps an inequality. */
  lemma MulMono(a: real, b: real, k: real)
    requires a <= b && k >= 0.0
    ensures a * k <= b * k
  {
  }

  lemma MulStrict(a: real, b: real, k: real)
    requires a < b && k > 0.0
    ensures a * k < b * k
  {
    var gap := (b - a) * k;
    assert gap > 0.0;
    assert gap == b * k - a * k;
  }

  /** Order of quotients by a positive divisor. */
  lemma DivLe(a: real, b: real, k: real)
    requires k > 0.0
    ensures a / k * k == a
    ensures a / k <= b <==> a <= b * k
  {
    var r := a / k;
    assert r * k == a;
    assert (r - b) * k == r * k - b * k;
    assert r > b ==> (r - b) * k > 0.0;
    assert r <= b ==> (b - r) * k >= 0.0;
  }

  lemma QuotientIs(x: real, y: real, q: real)
    requires y > 0.0 && q * y == x
    ensures x / y == q
  {
  }
}
