/**
 * Amounts of money as integer cents, and Python's `round(x, 2)` on them.
 *
 * The generators compute prices with `round(value, 2)` on binary floats; here
 * every amount is a whole number of cents and a rounded amount is the exact
 * real value rounded to the nearest cent, ties to the even cent, as Python's
 * `round` is documented to do.
 */
module Money {

  type Cents = int

  /** Python's `round(x)`: the nearest integer, and the even one of two equally near. */
  function RoundHalfEven(x: real): (r: int)
    ensures x - 0.5 <= r as real <= x + 0.5
    ensures (r as real == x + 0.5 || r as real == x - 0.5) ==> r % 2 == 0
  {
    var f := x.Floor;
    var frac := x - f as real;
    if frac < 0.5 then f
    else if frac > 0.5 then f + 1
    else if f % 2 == 0 then f
    else f + 1
  }

  /** No integer is nearer to x than RoundHalfEven(x). */
  lemma RoundIsNearest(x: real, m: int)
    ensures Abs(RoundHalfEven(x) as real - x) <= Abs(m as real - x)
  {
    var r := RoundHalfEven(x);
    if m < r {
      assert m as real <= r as real - 1.0;
    } else if m > r {
      assert m as real >= r as real + 1.0;
    }
  }

  function Abs(x: real): real { if x < 0.0 then -x else x }

  /** Rounding a whole number leaves it unchanged; this is why sums and products of cents stay exact. */
  lemma RoundWhole(n: int)
    ensures RoundHalfEven(n as real) == n
  {
    var r := RoundHalfEven(n as real);
    assert n as real - 0.5 <= r as real <= n as real + 0.5;
  }

  /** Rounding is monotone. */
  lemma RoundMonotone(x: real, y: real)
    requires x <= y
    ensures RoundHalfEven(x) <= RoundHalfEven(y)
  {
  }

  /** `round(amount, 2)` for an amount in currency units, as cents. */
  function RoundCents(amount: real): (c: Cents)
    ensures amount * 100.0 - 0.5 <= c as real <= amount * 100.0 + 0.5
  {
    RoundHalfEven(amount * 100.0)
  }

  /** `round(value * f, 2)` for a value held in cents, as cents. */
  function ScaleCents(value: Cents, f: real): (c: Cents)
    ensures value as real * f - 0.5 <= c as real <= value as real * f + 0.5
  {
    RoundHalfEven(value as real * f)
  }

  /** An amount drawn from `uniform(lo, hi)` and rounded to cents stays within [lo, hi] in cents. */
  lemma RoundCentsWithin(amount: real, lo: int, hi: int)
    requires lo as real <= amount <= hi as real
    ensures lo * 100 <= RoundCents(amount) <= hi * 100
  {
    RoundMonotone(lo as real * 100.0, amount * 100.0);
    RoundMonotone(amount * 100.0, hi as real * 100.0);
    RoundWhole(lo * 100);
    RoundWhole(hi * 100);
  }

  /** A non-negative value scaled by a factor in [lo, hi] and rounded lies in the scaled band, up to half a cent. */
  lemma ScaleCentsWithin(value: Cents, f: real, lo: real, hi: real)
    requires value >= 0 && lo <= f <= hi
    ensures value as real * lo - 0.5 <= ScaleCents(value, f) as real <= value as real * hi + 0.5
  {
    var v := value as real;
    MulNonNegative(v, f - lo);
    MulNonNegative(v, hi - f);
    assert v * (f - lo) == v * f - v * lo;
    assert v * (hi - f) == v * hi - v * f;
  }

  lemma MulNonNegative(x: real, y: real)
    requires x >= 0.0 && y >= 0.0
    ensures x * y >= 0.0
  {
  }
}
