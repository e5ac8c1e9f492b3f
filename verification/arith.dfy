/** Small facts about multiplication by a natural number. */
module Arith {

  /** `a * b`, by repeated addition. The overflow conditions on `u32`
      products are written with it, so that the solver treats a product as
      a plain term until a proof asks for its value with `MulIs`. */
  function Mul(a: nat, b: nat): nat
  {
    if a == 0 then 0 else Mul(a - 1, b) + b
  }

  lemma {:induction false} MulIs(a: nat, b: nat)
    ensures Mul(a, b) == a * b
    decreases a
  {
    if a > 0 {
      MulIs(a - 1, b);
    }
  }

  /** A product grows with each factor. */
  lemma MulLe(a: nat, b: nat, c: nat, d: nat)
    requires a <= b && c <= d
    ensures Mul(a, c) <= Mul(b, d)
  {
    MulIs(a, c);
    MulIs(b, d);
    MulMonotone(a, b, c);
    MulMonotone(c, d, b);
  }

  lemma MulMonotone(a: nat, b: nat, d: nat)
    requires a <= b
    ensures a * d <= b * d
  {
  }

  /** Slots of width `w` placed at `i * w` and `j * w`, `i < j`, do not meet. */
  lemma {:induction false} MulStep(i: nat, j: nat, w: nat)
    requires i < j
    ensures i * w + w <= j * w
    decreases j - i
  {
    if j > i + 1 {
      MulStep(i, j - 1, w);
    }
    assert (j - 1) * w + w == j * w;
  }
}
