/**
 * `calc_display_percent` and `calc_rudder_percent` of main.py: a raw axis
 * value and three calibration endpoints give a percentage in [-100, 100].
 *
 * Both Python functions have the same shape, so both are instances of
 * `AxisPercent`. As in the source, the branch is chosen by the global
 * `trim_value` (the parameter `branchValue` here), not by `value`.
 */
module PositionMapper {
  import opened Wrappers
  import opened Settings

  /** The one exception the mapping can raise. */
  datatype Fault = ZeroDivisionError

  function Abs(x: int): int {
    if x < 0 then -x else x
  }

  /** Python's `round(n / d)` on the exact quotient: the nearest integer,
      ties to the even one. */
  function RoundQuotient(n: int, d: int): (r: int)
    requires d != 0
    decreases if d < 0 then 1 else 0
    ensures 2 * Abs(n - r * d) <= Abs(d)
    ensures 2 * Abs(n - r * d) == Abs(d) ==> r % 2 == 0
  {
    if d < 0 then
      var r := RoundQuotient(-n, -d);
      NegatedProduct(r, d);
      r
    else
      var q, m := n / d, n % d;
      DivModFacts(n, d);
      SuccProduct(q, d);
      if 2 * m < d then q
      else if 2 * m > d then q + 1
      else if q % 2 == 0 then q
      else q + 1
  }

  lemma NegatedProduct(r: int, d: int)
    ensures r * -d == -(r * d)
  {
  }

  lemma SuccProduct(q: int, d: int)
    ensures (q + 1) * d == q * d + d
  {
  }

  lemma DivModFacts(n: int, d: int)
    requires d > 0
    ensures n == (n / d) * d + n % d && 0 <= n % d < d
  {
  }

  lemma MulMonotone(a: int, b: int, d: int)
    requires a <= b && d > 0
    ensures a * d <= b * d
  {
  }

  /** The contract of `RoundQuotient` leaves no choice: it is Python's rounding. */
  lemma RoundQuotientUnique(n: int, d: int, r': int)
    requires d != 0
    requires 2 * Abs(n - r' * d) <= Abs(d)
    requires 2 * Abs(n - r' * d) == Abs(d) ==> r' % 2 == 0
    ensures r' == RoundQuotient(n, d)
  {
    var r := RoundQuotient(n, d);
    var e, e' := n - r * d, n - r' * d;
    DiffProduct(n, r, r', d);
    assert e' - e == (r - r') * d;
    if r - r' >= 2 || r - r' <= -2 {
      AbsProductAtLeast(r - r', d);
      assert false;
    } else if r - r' == 1 || r - r' == -1 {
      OneProduct(r - r', d);
      assert false;
    }
  }

  lemma DiffProduct(n: int, r: int, r': int, d: int)
    ensures (n - r' * d) - (n - r * d) == (r - r') * d
  {
  }

  lemma OneProduct(k: int, d: int)
    requires k == 1 || k == -1
    ensures Abs(k * d) == Abs(d)
  {
  }

  lemma AbsProductAtLeast(k: int, d: int)
    requires k >= 2 || k <= -2
    requires d != 0
    ensures Abs(k * d) >= 2 * Abs(d)
  {
    if k >= 2 {
      if d > 0 { MulMonotone(2, k, d); } else { MulMonotone(2, k, -d); }
    } else {
      if d > 0 { MulMonotone(2, -k, d); } else { MulMonotone(2, -k, -d); }
    }
  }

  lemma FloorDivMonotone(n1: int, n2: int, d: int)
    requires d > 0 && n1 <= n2
    ensures n1 / d <= n2 / d
  {
    var q1, q2 := n1 / d, n2 / d;
    DivModFacts(n1, d);
    DivModFacts(n2, d);
    if q1 > q2 {
      MulMonotone(q2 + 1, q1, d);
      SuccProduct(q2, d);
    }
  }

  /** Rounding the quotient is monotone in the numerator. */
  lemma {:induction false} RoundQuotientMonotone(n1: int, n2: int, d: int)
    requires d > 0 && n1 <= n2
    ensures RoundQuotient(n1, d) <= RoundQuotient(n2, d)
  {
    FloorDivMonotone(n1, n2, d);
    var q1, q2 := n1 / d, n2 / d;
    if q1 == q2 {
      assert n1 % d <= n2 % d;
    }
  }

  /** A quotient of at least k rounds to at least k. */
  lemma RoundQuotientAtLeast(n: int, d: int, k: int)
    requires d > 0 && n >= k * d
    ensures RoundQuotient(n, d) >= k
  {
    FloorDivMonotone(k * d, n, d);
    DivModFacts(n, d);
    ExactQuotient(k, d);
  }

  lemma ExactQuotient(k: int, d: int)
    requires d > 0
    ensures (k * d) / d == k
  {
    var q := (k * d) / d;
    DivModFacts(k * d, d);
    if q < k { MulMonotone(q + 1, k, d); SuccProduct(q, d); }
    if q > k { MulMonotone(k + 1, q, d); SuccProduct(k, d); }
  }

  /** A non-negative quotient rounds to a non-negative integer. */
  lemma RoundQuotientNonNegative(n: int, d: int)
    requires d > 0 && n >= 0
    ensures RoundQuotient(n, d) >= 0
  {
    RoundQuotientAtLeast(n, d, 0);
  }

  /** `round(diff / den * 100)`, negated for the negative side. */
  function ScaledRound(diff: int, den: int, negative: bool): Result<int, Fault> {
    if den == 0 then Err(ZeroDivisionError)
    else if negative then Ok(-RoundQuotient(100 * diff, den))
    else Ok(RoundQuotient(100 * diff, den))
  }

  function Clamp(p: int): int {
    if p > 100 then 100 else if p < -100 then -100 else p
  }

  /** The shared body of the two Python functions, for an axis whose neutral
      endpoint is `neutral`, whose +100 % endpoint is `plusEnd` and whose
      -100 % endpoint is `minusEnd`; `branchValue` picks the side. */
  function AxisPercent(neutral: int, plusEnd: int, minusEnd: int, branchValue: int, value: int)
    : (r: Result<int, Fault>)
    ensures r.Ok? ==> -100 <= r.value <= 100
    ensures AxisOrdered(neutral, plusEnd, minusEnd) ==> r.Ok?
  {
    var diff := Abs(neutral - value);
    var raw :=
      if neutral > plusEnd then
        if branchValue <= neutral then ScaledRound(diff, neutral - plusEnd, false)
        else ScaledRound(diff, minusEnd - neutral, true)
      else
        if branchValue >= neutral then ScaledRound(diff, plusEnd - neutral, false)
        else ScaledRound(diff, neutral - minusEnd, true);
    match raw
    case Ok(p) => Ok(Clamp(p))
    case Err(e) => Err(e)
  }

  /** `calc_display_percent(value)` with the globals `trim_settings` and `trim_value`. */
  function CalcDisplayPercent(s: TrimSettings, trimValue: int, value: int): (r: Result<int, Fault>)
    ensures r.Ok? ==> -100 <= r.value <= 100
    ensures TrimOrdered(s) ==> r.Ok?
  {
    AxisPercent(s.neutral, s.fullUp, s.fullDown, trimValue, value)
  }

  /** `calc_rudder_percent(value)`: `rudder_left` plays the part of `full_up`,
      `rudder_right` that of `full_down`; the branch still reads `trim_value`. */
  function CalcRudderPercent(s: TrimSettings, trimValue: int, value: int): (r: Result<int, Fault>)
    ensures r.Ok? ==> -100 <= r.value <= 100
    ensures RudderOrdered(s) ==> r.Ok?
  {
    AxisPercent(s.rudderNeutral, s.rudderLeft, s.rudderRight, trimValue, value)
  }

  /** At the neutral endpoint the percentage is 0, whichever side the branch picks. */
  lemma NeutralIsZero(neutral: int, plusEnd: int, minusEnd: int, branchValue: int)
    requires AxisOrdered(neutral, plusEnd, minusEnd)
    ensures AxisPercent(neutral, plusEnd, minusEnd, branchValue, neutral) == Ok(0)
  {
    if neutral > plusEnd {
      assert RoundQuotient(0, neutral - plusEnd) == 0 by {
        RoundQuotientUnique(0, neutral - plusEnd, 0);
      }
      assert RoundQuotient(0, minusEnd - neutral) == 0 by {
        RoundQuotientUnique(0, minusEnd - neutral, 0);
      }
    } else {
      assert RoundQuotient(0, plusEnd - neutral) == 0 by {
        RoundQuotientUnique(0, plusEnd - neutral, 0);
      }
      assert RoundQuotient(0, neutral - minusEnd) == 0 by {
        RoundQuotientUnique(0, neutral - minusEnd, 0);
      }
    }
  }

  /** A value at or beyond the +100 % endpoint reads 100 (clamping). */
  lemma PlusEndReadsHundred(neutral: int, plusEnd: int, minusEnd: int, v: int)
    requires AxisOrdered(neutral, plusEnd, minusEnd)
    requires plusEnd < neutral ==> v <= plusEnd
    requires plusEnd > neutral ==> v >= plusEnd
    ensures AxisPercent(neutral, plusEnd, minusEnd, v, v) == Ok(100)
  {
    if neutral > plusEnd {
      RoundQuotientAtLeast(100 * (neutral - v), neutral - plusEnd, 100);
    } else {
      RoundQuotientAtLeast(100 * (v - neutral), plusEnd - neutral, 100);
    }
  }

  /** A value at or beyond the -100 % endpoint reads -100 (clamping). */
  lemma MinusEndReadsMinusHundred(neutral: int, plusEnd: int, minusEnd: int, v: int)
    requires AxisOrdered(neutral, plusEnd, minusEnd)
    requires minusEnd < neutral ==> v <= minusEnd
    requires minusEnd > neutral ==> v >= minusEnd
    ensures AxisPercent(neutral, plusEnd, minusEnd, v, v) == Ok(-100)
  {
    if neutral > plusEnd {
      RoundQuotientAtLeast(100 * (v - neutral), minusEnd - neutral, 100);
    } else {
      RoundQuotientAtLeast(100 * (neutral - v), neutral - minusEnd, 100);
    }
  }

  /** When the branch follows the value itself (as for the trim axis, which is
      called with `trim_value`), moving the value towards the +100 % endpoint
      never lowers the reading. */
  lemma Monotone(neutral: int, plusEnd: int, minusEnd: int, v1: int, v2: int)
    requires AxisOrdered(neutral, plusEnd, minusEnd)
    requires plusEnd < neutral ==> v1 <= v2
    requires plusEnd > neutral ==> v1 >= v2
    ensures AxisPercent(neutral, plusEnd, minusEnd, v1, v1).value
         >= AxisPercent(neutral, plusEnd, minusEnd, v2, v2).value
  {
    if neutral > plusEnd {
      var dp, dm := neutral - plusEnd, minusEnd - neutral;
      if v2 <= neutral {
        RoundQuotientMonotone(100 * (neutral - v2), 100 * (neutral - v1), dp);
      } else if v1 <= neutral {
        RoundQuotientNonNegative(100 * (neutral - v1), dp);
        RoundQuotientNonNegative(100 * (v2 - neutral), dm);
      } else {
        RoundQuotientMonotone(100 * (v1 - neutral), 100 * (v2 - neutral), dm);
      }
    } else {
      var dp, dm := plusEnd - neutral, neutral - minusEnd;
      if v2 >= neutral {
        RoundQuotientMonotone(100 * (v2 - neutral), 100 * (v1 - neutral), dp);
      } else if v1 >= neutral {
        RoundQuotientNonNegative(100 * (v1 - neutral), dp);
        RoundQuotientNonNegative(100 * (neutral - v2), dm);
      } else {
        RoundQuotientMonotone(100 * (neutral - v1), 100 * (neutral - v2), dm);
      }
    }
  }

  /** The calibration full_up = 1000, neutral = 32000, full_down = 64000, read
      with `calc_display_percent(trim_value)`. */
  lemma TrimScenario()
    ensures var s := TrimSettings(1000, 32000, 64000, -100, 0, 100);
      && CalcDisplayPercent(s, 32000, 32000) == Ok(0)
      && CalcDisplayPercent(s, 1000, 1000) == Ok(100)
      && CalcDisplayPercent(s, 64000, 64000) == Ok(-100)
      && CalcDisplayPercent(s, 16500, 16500) == Ok(50)
  {
    NeutralIsZero(32000, 1000, 64000, 32000);
    PlusEndReadsHundred(32000, 1000, 64000, 1000);
    MinusEndReadsMinusHundred(32000, 1000, 64000, 64000);
    RoundQuotientUnique(100 * 15500, 31000, 50);
  }

  /** The rudder reading flips sign with `trim_value` while the rudder value
      itself stays put: the branch reads the trim global. */
  lemma RudderBranchFollowsTrimValue()
    ensures CalcRudderPercent(TRIM_DEFAULT, -10, 50) == Ok(50)
    ensures CalcRudderPercent(TRIM_DEFAULT, 10, 50) == Ok(-50)
  {
    RoundQuotientUnique(5000, 100, 50);
  }

  /** Settings whose trim endpoints all coincide make `calc_display_percent` raise. */
  lemma DegenerateTrimRaises(s: TrimSettings, v: int)
    requires s.fullUp == s.neutral == s.fullDown
    ensures CalcDisplayPercent(s, v, v) == Err(ZeroDivisionError)
  {
  }
}
