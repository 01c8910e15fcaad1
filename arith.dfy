/** Facts about multiplication, division and remainder on naturals and reals that the
    solver does not find by itself. */
module Arith {

  lemma MulLe(a: int, b: int, m: nat)
    requires a <= b
    ensures a * m <= b * m
  {
  }

  lemma MulLeReal(a: real, b: real, m: real)
    requires a <= b && 0.0 <= m
    ensures a * m <= b * m
  {
  }

  /** Scaling by a factor in [0, 1] moves a number towards zero, not past it. */
  lemma ScaleBounds(d: real, frac: real)
    requires 0.0 <= frac <= 1.0
    ensures 0.0 <= d ==> 0.0 <= d * frac <= d
    ensures d <= 0.0 ==> d <= d * frac <= 0.0
    ensures frac == 0.0 ==> d * frac == 0.0
  {
    if 0.0 <= d {
      MulLeReal(0.0, d, frac);
      MulLeReal(frac, 1.0, d);
    } else {
      MulLeReal(d, 0.0, frac);
      MulLeReal(frac, 1.0, -d);
    }
  }

  lemma MulSub(a: int, b: int, m: int)
    ensures (a - b) * m == a * m - b * m
  {
  }

  lemma MulAdd(a: int, b: int, m: int)
    ensures (a + b) * m == a * m + b * m
  {
  }

  /** Euclidean division is unique: `q * m + r` with `0 <= r < m` divides to `q`, remainder `r`. */
  lemma DivModOf(q: int, m: int, r: int)
    requires m > 0 && 0 <= r < m
    ensures (q * m + r) / m == q && (q * m + r) % m == r
  {
    var a := q * m + r;
    var q' := a / m;
    assert (q - q') * m == a % m - r;
    if q' < q {
      MulLe(1, q - q', m);
    } else if q' > q {
      MulLe(1, q' - q, m);
    }
  }

  /** Adding whole multiples of `m` shifts the quotient and keeps the remainder. */
  lemma DivAddMul(d: int, a: int, m: int)
    requires m > 0
    ensures (d * m + a) / m == d + a / m && (d * m + a) % m == a % m
  {
    assert d * m + a == (d + a / m) * m + a % m;
    DivModOf(d + a / m, m, a % m);
  }

  /** `a / m < n` exactly when `a < n * m`. */
  lemma DivLt(a: nat, m: nat, n: int)
    requires m > 0
    ensures a / m < n <==> a < n * m
  {
    var q := a / m;
    assert a == q * m + a % m;
    if q < n {
      MulLe(q + 1, n, m);
    } else {
      MulLe(n, q, m);
    }
  }

  lemma FracBounds(r: real, m: real)
    requires m > 0.0 && 0.0 <= r < m
    ensures 0.0 <= r / m < 1.0
  {
    var y := r / m;
    assert y * m == r;
    if y >= 1.0 {
      MulLeReal(1.0, y, m);
      assert false;
    }
    if y < 0.0 {
      MulLeReal(y, 0.0, m);
      assert false;
    }
  }

  /** The remainder over the divisor, as a real, lies in [0, 1). */
  lemma RemFraction(a: nat, m: nat)
    requires m > 0
    ensures 0.0 <= (a % m) as real / m as real < 1.0
  {
    FracBounds((a % m) as real, m as real);
  }

  /** The real quotient is the integer quotient plus the remainder's fraction, so its
      floor is the integer quotient. */
  lemma RealQuotient(a: nat, m: nat)
    requires m > 0
    ensures a as real / m as real == (a / m) as real + (a % m) as real / m as real
    ensures (a as real / m as real).Floor == a / m
  {
    var q := a / m;
    var r := a % m;
    assert a == q * m + r;
    assert (a as real) == (q as real) * (m as real) + r as real;
    RemFraction(a, m);
  }
}
