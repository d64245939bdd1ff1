/** java.math.BigDecimal as the model needs it: an unscaled integer and a
    scale, denoting unscaled * 10^(-scale). Equality of two Decimal values
    is BigDecimal.equals (value AND scale: 2.0 and 2.00 differ), CompareTo
    is BigDecimal.compareTo (value only) and Multiply is
    BigDecimal.multiply (exact, no rounding).

    The meaning of a Decimal is stated without fractions: Scaled(d, k)
    counts d's value in units of 10^(-k), for any k at or above d's scale,
    which is an exact integer. */
module Decimals {

  /** 10^n as a natural number. */
  function Pow10(n: nat): (p: nat)
    ensures p >= 1
  {
    if n == 0 then 1 else 10 * Pow10(n - 1)
  }

  lemma {:induction false} Pow10Add(m: nat, n: nat)
    ensures Pow10(m + n) == Pow10(m) * Pow10(n)
  {
    if n > 0 {
      Pow10Add(m, n - 1);
      calc {
        Pow10(m + n);
        10 * Pow10(m + n - 1);
        10 * (Pow10(m) * Pow10(n - 1));
        Pow10(m) * (10 * Pow10(n - 1));
        Pow10(m) * Pow10(n);
      }
    }
  }

  datatype Decimal = Decimal(unscaled: int, scale: int)

  /** BigDecimal.ZERO and BigDecimal.ONE, both of scale 0. */
  const Zero: Decimal := Decimal(0, 0)
  const One: Decimal := Decimal(1, 0)

  function Max(a: int, b: int): int
  {
    if a < b then b else a
  }

  /** The value of d counted in units of 10^(-k). */
  function Scaled(d: Decimal, k: int): int
    requires k >= d.scale
  {
    d.unscaled * Pow10(k - d.scale)
  }

  lemma RescaleCore(u: int, p: int, q: int, pq: int)
    requires pq == p * q
    ensures u * pq == (u * p) * q
  {
  }

  /** Counting in a finer unit multiplies the count by a power of ten. */
  lemma Rescale(d: Decimal, k: int, j: nat)
    requires k >= d.scale
    ensures Scaled(d, k + j) == Scaled(d, k) * Pow10(j)
  {
    var m := k - d.scale;
    Pow10Add(m, j);
    assert k + j - d.scale == m + j;
    RescaleCore(d.unscaled, Pow10(m), Pow10(j), Pow10(m + j));
  }

  lemma OrderCore(x: int, y: int, p: int)
    requires p >= 1
    ensures x * p < y * p <==> x < y
    ensures x * p == y * p <==> x == y
  {
    if x < y {
      assert y * p - x * p == (y - x) * p;
    } else if y < x {
      assert x * p - y * p == (x - y) * p;
    }
  }

  /** Comparing two Decimals in any common unit gives the same answer as
      comparing them in the coarsest common unit. */
  lemma ScaleIndependence(a: Decimal, b: Decimal, k: int)
    requires k >= a.scale && k >= b.scale
    ensures Scaled(a, k) < Scaled(b, k) <==> Scaled(a, Max(a.scale, b.scale)) < Scaled(b, Max(a.scale, b.scale))
    ensures Scaled(a, k) == Scaled(b, k) <==> Scaled(a, Max(a.scale, b.scale)) == Scaled(b, Max(a.scale, b.scale))
  {
    var m := Max(a.scale, b.scale);
    var j := k - m;
    Rescale(a, m, j);
    Rescale(b, m, j);
    assert m + j == k;
    OrderCore(Scaled(a, m), Scaled(b, m), Pow10(j));
  }

  function Sign(n: int): int
  {
    if n < 0 then -1 else if n == 0 then 0 else 1
  }

  /** BigDecimal.compareTo: -1, 0 or 1 as the first value is below, equal
      to or above the second, whatever the two scales. The operand of
      smaller scale is brought to the larger one before the unscaled values
      are compared. */
  function CompareTo(a: Decimal, b: Decimal): (r: int)
    ensures -1 <= r <= 1
    ensures forall k | k >= a.scale && k >= b.scale ::
      (r < 0 <==> Scaled(a, k) < Scaled(b, k)) && (r == 0 <==> Scaled(a, k) == Scaled(b, k))
  {
    CompareToMeaning(a, b);
    if a.scale <= b.scale then
      Sign(a.unscaled * Pow10(b.scale - a.scale) - b.unscaled)
    else
      Sign(a.unscaled - b.unscaled * Pow10(a.scale - b.scale))
  }

  lemma CompareToMeaning(a: Decimal, b: Decimal)
    ensures forall k | k >= a.scale && k >= b.scale ::
      var r := if a.scale <= b.scale then Sign(a.unscaled * Pow10(b.scale - a.scale) - b.unscaled)
               else Sign(a.unscaled - b.unscaled * Pow10(a.scale - b.scale));
      (r < 0 <==> Scaled(a, k) < Scaled(b, k)) && (r == 0 <==> Scaled(a, k) == Scaled(b, k))
  {
    forall k | k >= a.scale && k >= b.scale
      ensures var r := if a.scale <= b.scale then Sign(a.unscaled * Pow10(b.scale - a.scale) - b.unscaled)
               else Sign(a.unscaled - b.unscaled * Pow10(a.scale - b.scale));
        (r < 0 <==> Scaled(a, k) < Scaled(b, k)) && (r == 0 <==> Scaled(a, k) == Scaled(b, k))
    {
      ScaleIndependence(a, b, k);
    }
  }

  /** BigDecimal.multiply: the result's scale is the sum of the operands'
      scales, and the product is zero exactly when a factor is. Its value is
      the exact product (MultiplyIsExact). */
  function Multiply(a: Decimal, b: Decimal): (r: Decimal)
    ensures r.scale == a.scale + b.scale
    ensures r.unscaled == 0 <==> a.unscaled == 0 || b.unscaled == 0
  {
    Decimal(a.unscaled * b.unscaled, a.scale + b.scale)
  }

  lemma ProductCore(x: int, y: int, p: int, q: int, pq: int)
    requires pq == p * q
    ensures (x * y) * pq == (x * p) * (y * q)
  {
  }

  /** Multiplication loses nothing: counted in the product of two units,
      the product is the product of the two counts. */
  lemma MultiplyIsExact(a: Decimal, b: Decimal, ka: int, kb: int)
    requires ka >= a.scale && kb >= b.scale
    ensures Scaled(Multiply(a, b), ka + kb) == Scaled(a, ka) * Scaled(b, kb)
  {
    var m, n := ka - a.scale, kb - b.scale;
    Pow10Add(m, n);
    assert ka + kb - (a.scale + b.scale) == m + n;
    ProductCore(a.unscaled, b.unscaled, Pow10(m), Pow10(n), Pow10(m + n));
  }

  /** Multiplying by BigDecimal.ONE gives back an equal BigDecimal, scale included. */
  lemma MultiplyByOne(b: Decimal)
    ensures Multiply(One, b) == b && Multiply(b, One) == b
  {
  }

  /** A Decimal lies below BigDecimal.ZERO exactly when its unscaled value is negative. */
  lemma NegativeIffUnscaledNegative(d: Decimal)
    ensures CompareTo(d, Zero) < 0 <==> d.unscaled < 0
  {
    var k := Max(d.scale, 0);
    var p := Pow10(k - d.scale);
    assert Scaled(Zero, k) == 0 * Pow10(k);
    assert Scaled(d, k) == d.unscaled * p;
    OrderCore(d.unscaled, 0, p);
    assert CompareTo(d, Zero) < 0 <==> Scaled(d, k) < Scaled(Zero, k);
  }
}
