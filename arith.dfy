/** Facts about division by a positive divisor, as Rust's unsigned `/` computes it on
    non-negative operands. */
module Arith {

  /** The quotient is the largest multiplier that stays at or below the dividend. */
  lemma DivBounds(x: nat, d: nat)
    requires 0 < d
    ensures (x / d) * d <= x < (x / d + 1) * d
  {
  }

  /** The quotient of non-negative operands is non-negative. */
  lemma NonNegativeQuotient(x: nat, d: nat)
    requires 0 < d
    ensures 0 <= x / d
  {
  }

  /** Multiplying by a positive number keeps a strict order. */
  lemma MulLess(q: int, r: int, d: int)
    requires 0 < d && q * d < r * d
    ensures q < r
  {
  }

  /** A multiple of `d` that is at most `y` is at most `y / d` times `d`. */
  lemma FloorBound(q: nat, d: nat, y: nat)
    requires 0 < d && q * d <= y
    ensures q <= y / d
  {
    var r := y / d + 1;
    DivBounds(y, d);
    MulLess(q, r, d);
  }

  /** Division is monotone in the dividend. */
  lemma DivMonotone(x: nat, y: nat, d: nat)
    requires x <= y && 0 < d
    ensures x / d <= y / d
  {
    var q := x / d;
    DivBounds(x, d);
    assert q * d <= y;
    FloorBound(q, d, y);
  }

  /** Division is antitone in the divisor. */
  lemma DivAntitone(x: nat, d1: nat, d2: nat)
    requires 0 < d1 <= d2
    ensures x / d2 <= x / d1
  {
    var q := x / d2;
    DivBounds(x, d2);
    assert q * d1 <= q * d2;
    FloorBound(q, d1, x);
  }

  /** Dividing a multiple of `d` by `d` gives the multiplier back. */
  lemma MulDiv(a: nat, d: nat)
    requires 0 < d
    ensures (a * d) / d == a
  {
    var q := (a * d) / d;
    DivBounds(a * d, d);
    assert (a + 1) * d == a * d + d;
    MulLess(q, a + 1, d);
    MulLess(a, q + 1, d);
  }

  /** Multiplying by a larger factor gives a larger product. */
  lemma MulMonotone(a: nat, b: nat, c: nat)
    requires b <= c
    ensures a * b <= a * c
  {
  }

  /** Scaling by `keep / den` with `keep <= den` never gives more than was scaled. */
  lemma QuotientBelow(spend: nat, keep: nat, den: nat)
    requires 0 < den
    ensures keep <= den ==> (spend * keep) / den <= spend
    ensures keep == den ==> (spend * keep) / den == spend
  {
    if keep <= den {
      var p := spend * keep;
      var m := spend * den;
      MulMonotone(spend, keep, den);
      assert p <= m;
      DivMonotone(p, m, den);
      MulDiv(spend, den);
      assert m / den == spend;
    }
  }
}
