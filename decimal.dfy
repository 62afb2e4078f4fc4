// The SDK's decimal type (sdk.Dec): a signed integer i standing for i / 10^18, with the
// constructors and the division the slashing samplers use.

module Decimal {

  /** The number of fractional digits a decimal carries. */
  const Precision: nat := 18

  /** 10^18: the integer that stands for the decimal 1. */
  const One: int := 1_000_000_000_000_000_000

  /** Half of `One`: the remainder at which rounding goes up. */
  const Half: int := 500_000_000_000_000_000

  /** The decimal i / 10^18. */
  datatype Dec = Dec(i: int)

  function Abs(x: int): nat
  {
    if x < 0 then -x else x
  }

  function Pow10(e: nat): (p: int)
    ensures p > 0
  {
    if e == 0 then 1 else 10 * Pow10(e - 1)
  }

  /** `precisionMultiplier(prec)`: 10^(18 - prec), the scale of a value given with prec digits. */
  function PrecisionMultiplier(prec: nat): (m: int)
    requires prec <= Precision
    ensures m > 0 && m * Pow10(prec) == One
  {
    PowAdd(Precision - prec, prec);
    PowPrecision();
    Pow10(Precision - prec)
  }

  lemma PowPrecision()
    ensures Pow10(Precision) == One
  {
    assert Pow10(6) == 1_000_000;
    assert Pow10(12) == 1_000_000_000_000;
  }

  lemma {:induction false} PowAdd(a: nat, b: nat)
    ensures Pow10(a) * Pow10(b) == Pow10(a + b)
    decreases a
  {
    if a > 0 {
      PowAdd(a - 1, b);
      MulAssoc(10, Pow10(a - 1), Pow10(b));
    }
  }

  /** a <= b. */
  predicate LessEq(a: Dec, b: Dec)
  {
    a.i <= b.i
  }

  /** a < b. */
  predicate Less(a: Dec, b: Dec)
  {
    a.i < b.i
  }

  /** `sdk.NewDec(i)`: the integer i. */
  function NewDec(i: int): (d: Dec)
    ensures d == NewDecWithPrec(i, 0)
  {
    Dec(i * One)
  }

  /** `sdk.NewDecWithPrec(i, prec)`: i * 10^-prec, which is exact for prec <= 18. */
  function NewDecWithPrec(i: int, prec: nat): (d: Dec)
    requires prec <= Precision
    ensures d.i * Pow10(prec) == i * One
  {
    MulAssoc(i, PrecisionMultiplier(prec), Pow10(prec));
    Dec(i * PrecisionMultiplier(prec))
  }

  lemma MulAssoc(a: int, b: int, c: int)
    ensures (a * b) * c == a * (b * c)
  {
  }

  /**
   * `big.Int.Quo`: the quotient of a by b truncated toward zero, so that the remainder
   * a - q*b is smaller than b in magnitude and never of the opposite sign to a.
   */
  function QuoTrunc(a: int, b: int): (q: int)
    requires b != 0
    ensures var r := a - q * b; Abs(r) < Abs(b) && (a >= 0 ==> r >= 0) && (a <= 0 ==> r <= 0)
  {
    var m := Abs(a) / Abs(b);
    TruncRemainder(a, b, m);
    if (a >= 0) == (b > 0) then m else -m
  }

  /**
   * With m the quotient of the magnitudes, m or -m (by the signs of a and b) leaves the
   * remainder of truncating division. Every product is expressed through p = m * |b|.
   */
  lemma TruncRemainder(a: int, b: int, m: int)
    requires b != 0 && m == Abs(a) / Abs(b)
    ensures var q := if (a >= 0) == (b > 0) then m else -m;
      var r := a - q * b; Abs(r) < Abs(b) && (a >= 0 ==> r >= 0) && (a <= 0 ==> r <= 0)
  {
    var p := m * Abs(b);
    DivRem(Abs(a), Abs(b));
    assert 0 <= Abs(a) - p < Abs(b);
    MulNeg(m, b);
    if b < 0 {
      MulNeg(m, -b);
      assert m * b == -p;
    }
  }

  lemma DivRem(x: nat, y: int)
    requires y > 0
    ensures 0 <= x - (x / y) * y < y
  {
  }

  lemma MulNeg(m: int, x: int)
    ensures (-m) * x == -(m * x) && m * (-x) == -(m * x)
  {
  }

  /**
   * `chopPrecisionAndRound(d)`: d / 10^18 rounded to the nearest integer, a tie to the
   * even one; a negative d is rounded as its opposite and negated.
   */
  function ChopPrecisionAndRound(d: int): (r: int)
    ensures 2 * Abs(d - r * One) <= One
    ensures 2 * Abs(d - r * One) == One ==> r % 2 == 0
  {
    if d < 0 then 0 - ChopNonNegative(-d) else ChopNonNegative(d)
  }

  function ChopNonNegative(d: nat): (r: nat)
    ensures 2 * Abs(d - r * One) <= One
    ensures 2 * Abs(d - r * One) == One ==> r % 2 == 0
  {
    var quo, rem := d / One, d % One;
    if rem == 0 || rem < Half then quo
    else if rem > Half then quo + 1
    else if quo % 2 == 0 then quo
    else quo + 1
  }

  /**
   * `a.Quo(b)`: the quotient, rounded to 18 digits. The exact quotient a/b times 10^36 is
   * truncated toward zero, and that is chopped back to 18 digits with rounding. Dividing
   * by zero panics. In scaled integers, q.i * b.i is within |b.i| * (1/2 + 10^-18) of
   * a.i * 10^18; that is, q is within half a unit in the 18th digit of a/b, plus the
   * truncation before rounding.
   */
  function Quo(a: Dec, b: Dec): (q: Dec)
    requires b.i != 0
    ensures 2 * One * Abs(q.i * b.i - a.i * One) <= Abs(b.i) * (One + 2)
  {
    var t := QuoTrunc(a.i * One * One, b.i);
    var c := ChopPrecisionAndRound(t);
    RoundedQuotient(a.i, b.i, t, c);
    Dec(c)
  }

  /**
   * If t is a/b times 10^36 truncated, and c is t / 10^18 rounded to the nearest, then c
   * is within 1/2 + 10^-18 of a * 10^18 / b.
   */
  lemma RoundedQuotient(a: int, b: int, t: int, c: int)
    requires b != 0
    requires Abs(a * One * One - t * b) < Abs(b)
    requires 2 * Abs(t - c * One) <= One
    ensures 2 * One * Abs(c * b - a * One) <= Abs(b) * (One + 2)
  {
    var e1 := t - c * One;
    var e2 := a * One * One - t * b;
    Distrib(t, c * One, b);
    MulAssoc(c, One, b);
    assert One * (c * b - a * One) == -(e1 * b) - e2;
    ScaledError(c * b - a * One, e1, e2, b);
  }

  /** A rounding error below One/2, times b, plus a truncation error below |b|. */
  lemma ScaledError(x: int, e1: int, e2: int, b: int)
    requires One * x == -(e1 * b) - e2
    requires 2 * Abs(e1) <= One && Abs(e2) < Abs(b)
    ensures 2 * One * Abs(x) <= Abs(b) * (One + 2)
  {
    MulAbs(e1, b);
    MulLe(2 * Abs(e1), One, Abs(b));
    MulAssoc(2, Abs(e1), Abs(b));
    ErrorBound(x, e1 * b, e2, Abs(e1) * Abs(b), Abs(b));
  }

  /** The same bound with the product e1*b and its magnitude p taken as given. */
  lemma ErrorBound(x: int, y: int, e2: int, p: int, size: int)
    requires One * x == -y - e2
    requires Abs(y) == p && 2 * p <= One * size && Abs(e2) < size
    ensures 2 * One * Abs(x) <= size * (One + 2)
  {
  }

  lemma Distrib(x: int, y: int, z: int)
    ensures (x - y) * z == x * z - y * z
  {
  }

  lemma MulAbs(x: int, y: int)
    ensures Abs(x) * Abs(y) == Abs(x * y)
  {
  }

  lemma MulLe(x: int, y: int, z: nat)
    requires x <= y
    ensures x * z <= y * z
  {
  }

  /**
   * `NewDec(1).Quo(NewDec(n))` for a positive n below `Half`: 1/n to within half a unit
   * in the 18th digit.
   */
  lemma Reciprocal(n: int)
    requires 1 <= n < Half
    ensures 2 * Abs(Quo(NewDec(1), NewDec(n)).i * n - One) <= n
  {
    ReciprocalError(Quo(NewDec(1), NewDec(n)).i, n);
  }

  /** Dividing the bound of `Quo` for 1 / n through by 10^36. */
  lemma ReciprocalError(c: int, n: int)
    requires 1 <= n < Half
    requires 2 * One * Abs(c * (n * One) - 1 * One * One) <= Abs(n * One) * (One + 2)
    ensures 2 * Abs(c * n - One) <= n
  {
    var x := c * n - One;
    MulAssoc(c, n, One);
    assert c * (n * One) - 1 * One * One == One * x;
    assert 2 * One * (One * Abs(x)) <= n * One * (One + 2);
    assert 2 * One * Abs(x) <= n * (One + 2);
  }

  /**
   * For n in [1, N], where N divides 10^18, `NewDec(1).Quo(NewDec(n))` lies in [1/N, 1]
   * and is exactly 1 just when n is 1.
   */
  lemma ReciprocalRange(n: int, bound: int)
    requires 1 <= n <= bound < Half && One % bound == 0
    ensures var f := Quo(NewDec(1), NewDec(n));
      One / bound <= f.i <= One && (f.i == One <==> n == 1)
  {
    Reciprocal(n);
    RangeFromError(Quo(NewDec(1), NewDec(n)).i, n, bound);
  }

  /** An integer c with c*n within n/2 of 10^18 lies in [10^18/N, 10^18], and is 10^18 only for n = 1. */
  lemma RangeFromError(c: int, n: int, bound: int)
    requires 1 <= n <= bound && One % bound == 0
    requires 2 * Abs(c * n - One) <= n
    ensures One / bound <= c <= One && (c == One <==> n == 1)
  {
    if c > One {
      MulLe(One + 1, c, n);
      assert false;
    }
    if c == One && n > 1 {
      assert false;
    }
    var low := One / bound;
    if c < low {
      assert low * bound == One;
      MulLe(c, low - 1, n);
      MulLe(n, bound, low);
      assert false;
    }
  }
}
