/** Calendar days and the JavaScript arithmetic the application applies to them.
    A date is an integer day number (days since 1970-01-01 in the local
    calendar); the time of day is not modelled. */
module Days {

  /** A calendar date as a day number. */
  type Day = int

  /** date-fns `differenceInDays(later, earlier)` on whole days. */
  function DifferenceInDays(later: Day, earlier: Day): int {
    later - earlier
  }

  /** date-fns `addDays(d, n)`. */
  function AddDays(d: Day, n: int): Day {
    d + n
  }

  /** The quotient that goes with JavaScript's `%`: it truncates toward zero. */
  function JsQuot(a: int, b: int): int
    requires b >= 1
  {
    if a >= 0 then a / b else -((-a) / b)
  }

  /** JavaScript's `a % b`: the remainder takes the sign of the dividend,
      unlike Dafny's Euclidean `%`. */
  function JsRem(a: int, b: int): (r: int)
    requires b >= 1
    ensures a == b * JsQuot(a, b) + r
    ensures 0 <= a ==> 0 <= r < b
    ensures a < 0 ==> -b < r <= 0
    ensures a < 0 ==> JsQuot(a, b) <= 0
  {
    if a >= 0 then a % b else -((-a) % b)
  }

  /** For non-negative dividends the JavaScript and Dafny remainders agree,
      and the quotient counts the whole cycles elapsed. */
  lemma {:induction false} JsRemOfNonNegative(a: int, b: int)
    requires a >= 0 && b >= 1
    ensures JsRem(a, b) == a % b
    ensures JsQuot(a, b) >= 0
  {
    var q := JsQuot(a, b);
    if q < 0 {
      assert b * (-q) >= b by { MulAtLeast(b, -q); }
      assert false;
    }
  }

  /** The JavaScript remainder is determined by its range and congruence:
      any candidate with the right sign and size that differs from `a` by a
      multiple of `b` is `JsRem(a, b)`. */
  lemma {:induction false} JsRemUnique(a: int, b: int, q: int, r: int)
    requires b >= 1
    requires a == b * q + r
    requires 0 <= a ==> 0 <= r < b
    requires a < 0 ==> -b < r <= 0
    ensures r == JsRem(a, b) && q == JsQuot(a, b)
  {
    var q0, r0 := JsQuot(a, b), JsRem(a, b);
    assert b * (q - q0) == r0 - r;
    if q > q0 {
      assert b * (q - q0) >= b by { MulAtLeast(b, q - q0); }
      assert false;
    } else if q < q0 {
      assert b * (q0 - q) >= b by { MulAtLeast(b, q0 - q); }
      assert false;
    }
  }

  /** Adding one whole cycle to a non-negative dividend adds one to the
      quotient and keeps the remainder. */
  lemma {:induction false} JsRemShift(a: int, b: int)
    requires a >= 0 && b >= 1
    ensures JsRem(a + b, b) == JsRem(a, b)
    ensures JsQuot(a + b, b) == JsQuot(a, b) + 1
  {
    var q, r := JsQuot(a, b), JsRem(a, b);
    assert a + b == b * (q + 1) + r;
    JsRemUnique(a + b, b, q + 1, r);
  }

  /** A positive multiple of a positive number is at least that number. */
  lemma {:induction false} MulAtLeast(b: int, k: int)
    requires b >= 1 && k >= 1
    ensures b * k >= b
  {
    assert b * k == b * (k - 1) + b;
    assert b * (k - 1) >= 0;
  }
}
