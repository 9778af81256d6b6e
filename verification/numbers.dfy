/** Python's `round` and the arithmetic facts the loss counters rely on, over exact reals. */
module Numbers {
  type Vector = seq<real>

  /** Round to the nearest integer, ties to the even one. */
  function Round(x: real): int {
    var f := x.Floor;
    var d := x - f as real;
    if d < 0.5 then f
    else if d > 0.5 then f + 1
    else if f % 2 == 0 then f
    else f + 1
  }

  lemma RoundNear(x: real, n: int)
    requires n as real - 0.5 < x < n as real + 0.5
    ensures Round(x) == n
  {
    assert x.Floor == n || x.Floor == n - 1;
  }

  function Ceil(x: real): int { -((-x).Floor) }

  function Max(a: real, b: real): real { if a >= b then a else b }

  function MaxInt(a: int, b: int): int { if a >= b then a else b }

  function Abs(x: int): nat { if x < 0 then -x else x }

  function MinInt(a: int, b: int): int { if a <= b then a else b }

  /** Dividing by the period is multiplying by the rate. */
  lemma DivideByPeriod(x: real, hz: real)
    requires hz > 0.0
    ensures 1.0 / hz > 0.0
    ensures x / (1.0 / hz) == x * hz
  {
    var period := 1.0 / hz;
    assert period * hz == 1.0;
    assert x == (x * hz) * period;
  }

  lemma SameSign(x: real, y: real)
    requires y > 0.0
    ensures x > 0.0 <==> x * y > 0.0
  {
    if x > 0.0 { assert x * y > 0.0; }
  }

  lemma Product(x: real, y: real)
    requires x >= 0.0 && y >= 0.0
    ensures x * y >= 0.0
  {
    if y > 0.0 { SameSign(x, y); }
  }

  /** A share of a positive whole. */
  lemma ShareRange(part: real, whole: real)
    requires whole > 0.0 && 0.0 <= part <= whole
    ensures 0.0 <= part / whole <= 1.0
    ensures part == whole ==> part / whole == 1.0
  {
    var share := part / whole;
    assert share * whole == part;
    SameSign(-share, whole);
    SameSign(share - 1.0, whole);
    assert (-share) * whole == -part && (share - 1.0) * whole == part - whole;
  }

  /** Comparing a span with 1.5 periods is comparing its length in periods with 1.5. */
  lemma CompareWithPeriods(x: real, hz: real)
    requires hz > 0.0
    ensures x > (1.0 / hz) * 1.5 <==> x * hz > 1.5
  {
    var period := 1.0 / hz;
    assert period * hz == 1.0;
    var over := x - period * 1.5;
    assert over * hz == x * hz - 1.5;
    SameSign(over, hz);
  }
}
