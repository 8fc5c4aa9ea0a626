/** Monetary amounts. A submitted amount is a decimal in Python's `Decimal`
    form (sign, coefficient digits, exponent); the amount fields of an order
    (`DecimalField(max_digits=10, decimal_places=2)`) accept it only if it
    fits that precision, and then hold it as a whole number of cents. */
module Money {

  import opened Wrappers

  /** `(-1)^negative * coefficient * 10^exponent`, digits as `Decimal.as_tuple()` gives them. */
  datatype Decimal = Decimal(negative: bool, coefficient: nat, exponent: int)

  const MaxDigits: nat := 10
  const DecimalPlaces: nat := 2
  /** Digits allowed before the point: `max_digits - decimal_places`. */
  const MaxWholeDigits: nat := MaxDigits - DecimalPlaces

  function Pow10(n: nat): (p: int)
    ensures p >= 1
  {
    if n == 0 then 1 else 10 * Pow10(n - 1)
  }

  /** Number of digits in the coefficient's tuple; zero is the one digit `0`. */
  function DigitCount(n: nat): (k: nat)
    ensures 1 <= k
  {
    if n < 10 then 1 else 1 + DigitCount(n / 10)
  }

  /** Which precision bound a decimal breaks first, in the order the field checks them. */
  datatype PrecisionError = TooManyDigits | TooManyDecimalPlaces | TooManyWholeDigits

  /** Total digits, digits before the point and digits after it, counted as the
      amount field's precision check counts them (trailing zeros count). */
  function TotalDigits(d: Decimal): nat {
    var n := DigitCount(d.coefficient);
    if d.exponent >= 0 then n + d.exponent
    else if n > -d.exponent then n
    else -d.exponent
  }

  function Places(d: Decimal): nat {
    if d.exponent >= 0 then 0 else -d.exponent
  }

  function WholeDigits(d: Decimal): nat {
    var n := DigitCount(d.coefficient);
    if d.exponent >= 0 then n + d.exponent
    else if n > -d.exponent then n + d.exponent
    else 0
  }

  /** The precision check: the first bound broken, or `None` when the decimal fits. */
  function CheckPrecision(d: Decimal): (e: Option<PrecisionError>)
    ensures e.None? <==> TotalDigits(d) <= MaxDigits && Places(d) <= DecimalPlaces && WholeDigits(d) <= MaxWholeDigits
    ensures e == Some(TooManyDecimalPlaces) ==> TotalDigits(d) <= MaxDigits
    ensures e == Some(TooManyWholeDigits) ==> TotalDigits(d) <= MaxDigits && Places(d) <= DecimalPlaces
    ensures e == Some(TooManyDigits) ==> TotalDigits(d) > MaxDigits
    ensures e == Some(TooManyDecimalPlaces) ==> Places(d) > DecimalPlaces
    ensures e == Some(TooManyWholeDigits) ==> WholeDigits(d) > MaxWholeDigits
  {
    if TotalDigits(d) > MaxDigits then Some(TooManyDigits)
    else if Places(d) > DecimalPlaces then Some(TooManyDecimalPlaces)
    else if WholeDigits(d) > MaxWholeDigits then Some(TooManyWholeDigits)
    else None
  }

  predicate Fits(d: Decimal) {
    CheckPrecision(d).None?
  }

  /** The amount in cents after quantizing to two places (exact, as the decimal fits). */
  function Cents(d: Decimal): int
    requires d.exponent >= -2
  {
    var magnitude := d.coefficient * Pow10(d.exponent + 2);
    if d.negative then -magnitude else magnitude
  }

  lemma {:induction false} BelowPow10OfDigitCount(n: nat)
    ensures n < Pow10(DigitCount(n))
  {
    if n >= 10 {
      BelowPow10OfDigitCount(n / 10);
    }
  }

  lemma {:induction false} Pow10Add(a: nat, b: nat)
    ensures Pow10(a + b) == Pow10(a) * Pow10(b)
  {
    if a > 0 {
      Pow10Add(a - 1, b);
    }
  }

  lemma Pow10Monotone(a: nat, b: nat)
    requires a <= b
    ensures Pow10(a) <= Pow10(b)
  {
    Pow10Add(a, b - a);
  }

  lemma MulBelow(a: nat, b: int, c: int)
    requires a < b && 1 <= c
    ensures a * c < b * c
  {
    assert b * c - a * c == (b - a) * c;
  }

  /** A fitting decimal has at most two places, and its digits shifted to cents fit in ten. */
  lemma ShiftFits(d: Decimal)
    requires Fits(d)
    ensures d.exponent >= -2
    ensures DigitCount(d.coefficient) + d.exponent + 2 <= MaxDigits
  {
    assert Places(d) <= DecimalPlaces && WholeDigits(d) <= MaxWholeDigits;
  }

  lemma ShiftedBelow(c: nat, n: nat, shift: nat)
    requires c < Pow10(n) && n + shift <= MaxDigits
    ensures c * Pow10(shift) < Pow10(MaxDigits)
  {
    MulBelow(c, Pow10(n), Pow10(shift));
    Pow10Add(n, shift);
    Pow10Monotone(n + shift, MaxDigits);
  }

  /** A stored amount never needs more than ten digits of cents. */
  lemma CentsBound(d: Decimal)
    requires Fits(d)
    ensures d.exponent >= -2
    ensures -Pow10(MaxDigits) < Cents(d) < Pow10(MaxDigits)
  {
    ShiftFits(d);
    BelowPow10OfDigitCount(d.coefficient);
    ShiftedBelow(d.coefficient, DigitCount(d.coefficient), d.exponent + 2);
  }

  /** Writes a number of cents as the two-place decimal a client would send. */
  function FromCents(c: int): Decimal {
    Decimal(c < 0, if c < 0 then -c else c, -2)
  }

  lemma {:induction false} DigitCountBound(n: nat, k: nat)
    requires n < Pow10(k)
    requires 1 <= k
    ensures DigitCount(n) <= k
  {
    if n >= 10 {
      assert k >= 2;
      DigitCountBound(n / 10, k - 1);
    }
  }

  /** Every amount of fewer than eleven digits of cents is accepted and kept exactly. */
  lemma CentsRoundTrip(c: int)
    requires -Pow10(MaxDigits) < c < Pow10(MaxDigits)
    ensures Fits(FromCents(c))
    ensures Cents(FromCents(c)) == c
  {
    var d := FromCents(c);
    DigitCountBound(d.coefficient, 10);
  }
}
