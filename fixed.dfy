/** Decimal rounding as the ladder uses it: `toFixedNumber(value, digits)`, that is
    `parseFloat(value.toFixed(digits))`, over exact reals. `toFixed` takes the sign
    off, picks the nearest multiple of 10^-digits (the larger one on a tie) and puts
    the sign back, so halves round away from zero. */
module Fixed {

  /** 10^digits. */
  function Pow10(digits: nat): (r: nat)
    ensures r >= 1
  {
    if digits == 0 then 1 else 10 * Pow10(digits - 1)
  }

  /** The integer nearest to x; a tie goes away from zero. */
  function RoundHalfAway(x: real): (r: int)
    ensures x >= 0.0 ==> r >= 0 && x - 0.5 < r as real <= x + 0.5
    ensures x < 0.0 ==> r <= 0 && x - 0.5 <= r as real < x + 0.5
  {
    if x >= 0.0 then (x + 0.5).Floor else -((-x + 0.5).Floor)
  }

  /** 10^3, the scale of the three-digit rounding of gears. */
  lemma Pow10Three()
    ensures Pow10(3) == 1000
  {
    assert Pow10(0) == 1;
    assert Pow10(1) == 10;
    assert Pow10(2) == 100;
  }

  /** `toFixedNumber(x, digits)`: x rounded to `digits` decimal places. The result
      has at most `digits` decimals: scaled by 10^digits it is the integer nearest
      to x scaled by 10^digits. */
  function ToFixedNumber(x: real, digits: nat): (r: real)
    ensures r * Pow10(digits) as real == RoundHalfAway(x * Pow10(digits) as real) as real
  {
    ScaleBack(x, digits);
    RoundHalfAway(x * Pow10(digits) as real) as real / Pow10(digits) as real
  }

  lemma ScaleBack(x: real, digits: nat)
    ensures (RoundHalfAway(x * Pow10(digits) as real) as real / Pow10(digits) as real) * Pow10(digits) as real
            == RoundHalfAway(x * Pow10(digits) as real) as real
  {
  }

  /** An integer rounds to itself. */
  lemma RoundInteger(n: int)
    ensures RoundHalfAway(n as real) == n
  {
  }

  /** Rounding never reverses the order of two values. */
  lemma {:induction false} RoundMonotone(x: real, y: real)
    requires x <= y
    ensures RoundHalfAway(x) <= RoundHalfAway(y)
  {
    if x < 0.0 && y >= 0.0 {
    } else if x >= 0.0 {
      assert x + 0.5 <= y + 0.5;
    } else {
      assert -y + 0.5 <= -x + 0.5;
    }
  }

  /** A value that already has at most `digits` decimals is left unchanged:
      when x * 10^digits is a whole number, `toFixedNumber(x, digits)` is x. */
  lemma {:induction false} ToFixedNumberExact(x: real, n: int, digits: nat)
    requires x * Pow10(digits) as real == n as real
    ensures ToFixedNumber(x, digits) == x
  {
    RoundInteger(n);
    assert RoundHalfAway(x * Pow10(digits) as real) == n;
    DivExact(x, RoundHalfAway(x * Pow10(digits) as real) as real, Pow10(digits) as real);
  }

  lemma DivExact(x: real, a: real, p: real)
    requires p != 0.0 && x * p == a
    ensures a / p == x
  {
  }

  /** With no decimals `toFixedNumber` is plain rounding to an integer. */
  lemma ToFixedNumberZero(x: real)
    ensures ToFixedNumber(x, 0) == RoundHalfAway(x) as real
  {
    assert Pow10(0) == 1;
  }
}
