/** pkg/report/math.go: rounding helpers, over exact reals instead of float64. */
module ReportMath {

  /**
   * Go's `int(math.Round(num))`: the nearest integer, with halves rounded
   * away from zero.
   */
  function Round(x: real): (n: int)
    ensures x >= 0.0 ==> x - 0.5 < n as real <= x + 0.5
    ensures x < 0.0 ==> x - 0.5 <= n as real < x + 0.5
  {
    if x >= 0.0 then (x + 0.5).Floor else -((-x + 0.5).Floor)
  }

  /** Rounding is within one half of its input. */
  lemma RoundIsNearest(x: real)
    ensures -0.5 <= Round(x) as real - x <= 0.5
  {
  }

  /** Rounding is symmetric about zero (halves go away from zero on both sides). */
  lemma RoundIsOdd(x: real)
    ensures Round(-x) == -Round(x)
  {
  }

  /** An integral input is returned as it is. */
  lemma RoundOfInteger(n: int)
    ensures Round(n as real) == n
  {
  }

  /** Rounding never reverses the order of its inputs. */
  lemma RoundMonotone(x: real, y: real)
    requires x <= y
    ensures Round(x) <= Round(y)
  {
    if x >= 0.0 {
      assert (x + 0.5).Floor <= (y + 0.5).Floor;
    } else if y < 0.0 {
      assert (-y + 0.5).Floor <= (-x + 0.5).Floor;
    }
  }

  /** math.Pow(10, p) for an integer exponent. */
  function Pow10(p: int): (r: real)
    ensures r > 0.0
    decreases if p >= 0 then p else -p
  {
    if p == 0 then 1.0
    else if p > 0 then 10.0 * Pow10(p - 1)
    else Pow10(p + 1) / 10.0
  }

  /**
   * pkg/report/math.go ToFixed: despite its doc comment it rounds (half away
   * from zero) to `precision` decimal places; it does not truncate.
   */
  function ToFixed(num: real, precision: int): real
  {
    OnGrid(num, Pow10(precision))
  }

  /** The multiple of 1/m nearest to x, halves away from zero. */
  function OnGrid(x: real, m: real): real
    requires m > 0.0
  {
    Round(x * m) as real / m
  }

  lemma DivThenMul(a: real, m: real)
    requires m > 0.0
    ensures (a / m) * m == a
  {
  }

  /** Snapping to the grid moves x by at most half a grid step. */
  lemma OnGridError(x: real, m: real)
    requires m > 0.0
    ensures -0.5 <= (OnGrid(x, m) - x) * m <= 0.5
  {
    var n := Round(x * m);
    RoundIsNearest(x * m);
    DivThenMul(n as real, m);
    assert (n as real / m - x) * m == (n as real / m) * m - x * m;
  }

  /** A point already on the grid stays where it is. */
  lemma OnGridIdempotent(x: real, m: real)
    requires m > 0.0
    ensures OnGrid(OnGrid(x, m), m) == OnGrid(x, m)
  {
    var n := Round(x * m);
    var g := n as real / m;
    assert OnGrid(x, m) == g;
    DivThenMul(n as real, m);
    assert g * m == n as real;
    RoundOfInteger(n);
    assert Round(g * m) == n;
    OnGridUnfold(g, m);
  }

  lemma OnGridUnfold(x: real, m: real)
    requires m > 0.0
    ensures OnGrid(x, m) == Round(x * m) as real / m
  {
  }

  /** Snapping to the grid keeps the order of its inputs. */
  lemma OnGridMonotone(x: real, y: real, m: real)
    requires x <= y && m > 0.0
    ensures OnGrid(x, m) <= OnGrid(y, m)
  {
    assert x * m <= y * m;
    RoundMonotone(x * m, y * m);
    var a, b := Round(x * m), Round(y * m);
    assert a as real / m <= b as real / m;
  }

  /** ToFixed is within half a unit of the last kept place from its input. */
  lemma ToFixedError(x: real, p: int)
    ensures -0.5 <= (ToFixed(x, p) - x) * Pow10(p) <= 0.5
  {
    OnGridError(x, Pow10(p));
  }

  /** Rounding an already rounded value changes nothing. */
  lemma ToFixedIdempotent(x: real, p: int)
    ensures ToFixed(ToFixed(x, p), p) == ToFixed(x, p)
  {
    OnGridIdempotent(x, Pow10(p));
  }

  /** ToFixed keeps the order of its inputs. */
  lemma ToFixedMonotone(x: real, y: real, p: int)
    requires x <= y
    ensures ToFixed(x, p) <= ToFixed(y, p)
  {
    OnGridMonotone(x, y, Pow10(p));
  }

  /** A non-negative power of ten is a whole number. */
  lemma {:induction false} PowIsWhole(p: nat)
    ensures Pow10(p) == Pow10(p).Floor as real
  {
    if p > 0 {
      PowIsWhole(p - 1);
      var k := Pow10(p - 1).Floor;
      assert Pow10(p) == (10 * k) as real;
    }
  }

  /** For a non-negative precision, zero and one are kept exactly. */
  lemma ToFixedKeepsZeroAndOne(p: nat)
    ensures ToFixed(0.0, p) == 0.0 && ToFixed(1.0, p) == 1.0
  {
    var m := Pow10(p);
    assert 0.0 * m == 0.0;
    assert 1.0 * m == m;
    RoundOfInteger(0);
    PowIsWhole(p);
    RoundOfInteger(m.Floor);
    assert Round(m) as real == m;
  }

  /** For a non-negative precision, ToFixed maps the unit interval into itself. */
  lemma ToFixedUnitInterval(x: real, p: nat)
    requires 0.0 <= x <= 1.0
    ensures 0.0 <= ToFixed(x, p) <= 1.0
  {
    ToFixedMonotone(0.0, x, p);
    ToFixedMonotone(x, 1.0, p);
    ToFixedKeepsZeroAndOne(p);
  }

  /** The cases pinned by pkg/report/math_test.go. */
  lemma MathTestCases()
    ensures Round(1.5) == 2 && Round(1.4) == 1 && Round(-1.5) == -2
    ensures ToFixed(1.234, 2) == 1.23 && ToFixed(1.235, 2) == 1.24 && ToFixed(0.0, 2) == 0.0
  {
    assert Pow10(2) == 100.0;
  }
}
