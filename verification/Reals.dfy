/** Products of reals by name, so that a proof treats them as atoms unless it needs the algebra. */
module Reals {

  function Times(a: real, b: real): real { a * b }

  lemma Distribute(a: real, b: real, c: real)
    ensures Times(a + b, c) == Times(a, c) + Times(b, c)
    ensures Times(c, a + b) == Times(c, a) + Times(c, b)
    ensures Times(a - b, c) == Times(a, c) - Times(b, c)
  {
  }

  function Power(d: real, n: nat): real { if n == 0 then 1.0 else Power(d, n - 1) * d }
}
