/** Numeric helpers shared by the music-theory modules (src/utils/mod.rs). */
module Utils {

  /** `x` has no fractional part. */
  predicate IsInteger(x: real) {
    x.Floor as real == x
  }

  /**
   * `float_mod(a, b) = a - b * floor(a / b)`: the remainder of flooring
   * division, which takes the sign of the divisor (unlike Dafny's `%`).
   * Modelled over exact reals; a zero divisor (NaN in IEEE arithmetic) is
   * excluded.
   */
  function FloatMod(a: real, b: real): (r: real)
    requires b != 0.0
    ensures b > 0.0 ==> 0.0 <= r < b
    ensures b < 0.0 ==> b < r <= 0.0
    ensures IsInteger((a - r) / b)
  {
    var f := (a / b).Floor;
    FloatModBounds(a, b, a / b, f, a - b * f as real);
    a - b * f as real
  }

  lemma FloatModBounds(a: real, b: real, q: real, f: int, r: real)
    requires b != 0.0 && q == a / b && f == q.Floor && r == a - b * f as real
    ensures b > 0.0 ==> 0.0 <= r < b
    ensures b < 0.0 ==> b < r <= 0.0
    ensures IsInteger((a - r) / b)
  {
    var fr := f as real;
    FloorBounds(q);
    DivTimes(a, b);
    RemainderBounds(a, b, q, fr);
    Cancel(a, b, fr);
    assert (a - r) / b == fr;
    assert fr.Floor == f;
  }

  lemma FloorBounds(q: real)
    ensures q.Floor as real <= q < q.Floor as real + 1.0
  {
  }

  lemma DivTimes(a: real, b: real)
    requires b != 0.0
    ensures (a / b) * b == a
  {
  }

  /** The remainder `a - b * f` for `f <= a / b < f + 1`, free of floors. */
  lemma RemainderBounds(a: real, b: real, q: real, f: real)
    requires b != 0.0 && a == q * b && f <= q < f + 1.0
    ensures b > 0.0 ==> 0.0 <= a - b * f < b
    ensures b < 0.0 ==> b < a - b * f <= 0.0
  {
    var x := q - f;
    assert a - b * f == x * b;
    if b > 0.0 {
      Positive(x, b);
      Positive(1.0 - x, b);
    } else if b < 0.0 {
      Positive(x, -b);
      Positive(1.0 - x, -b);
    }
  }

  lemma Positive(x: real, y: real)
    requires 0.0 <= x && 0.0 < y
    ensures 0.0 <= x * y
    ensures 0.0 < x ==> 0.0 < x * y
  {
  }

  lemma Cancel(a: real, b: real, f: real)
    requires b != 0.0
    ensures (a - (a - b * f)) / b == f
  {
    assert a - (a - b * f) == b * f;
  }

  /** The values the source's unit test expects. */
  lemma FloatModExamples()
    ensures FloatMod(5.0, 3.0) == 2.0
    ensures FloatMod(-5.0, 3.0) == 1.0
    ensures FloatMod(5.0, -3.0) == -1.0
    ensures FloatMod(-5.0, -3.0) == -2.0
  {
    assert (5.0 / 3.0).Floor == 1;
    assert (-5.0 / 3.0).Floor == -2;
    assert (5.0 / -3.0).Floor == -2;
    assert (-5.0 / -3.0).Floor == 1;
  }
}
