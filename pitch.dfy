/**
 * The pitch coordinate algebra of src/theory/pitch.rs.
 *
 * A pitch is a letter, an accidental and a signed 8-bit octave. The source
 * maps it to one `f32` coordinate whose unit is the whole step (a half step
 * is 0.5, an octave 6.0). Every coordinate it produces is a multiple of 0.5,
 * so this model counts in half steps instead: `Coord(p)` is twice the
 * source's value and `CoordValue(p)` gives the source's value back.
 * Equality and order are those of the coordinate, so enharmonic spellings
 * compare equal; Dafny's structural `==` on `Pitch` is NOT the source's `==`,
 * `Eq` is.
 */
module Pitches {
  import opened Results
  import opened Utils
  import opened IntervalSteps

  datatype PitchName = C | D | E | F | G | A | B

  datatype Accidental = Sharp | Flat | DoubleSharp | DoubleFlat | None

  /** Rust's `i8`, the type of the octave field. */
  type I8 = x: int | -128 <= x <= 127

  datatype Pitch = Pitch(name: PitchName, accidental: Accidental, octave: I8)

  /** `Pitch::new`. */
  function New(name: PitchName, octave: I8, accidental: Accidental): (p: Pitch)
    ensures p.name == name && p.accidental == accidental && p.octave == octave
    ensures Coord(p) == NameOffset(name) + AccidentalOffset(accidental) + 12 * octave
  {
    Pitch(name, accidental, octave)
  }

  /** `Pitch::new_without_accidental`: the natural of that letter. */
  function NewWithoutAccidental(name: PitchName, octave: I8): (p: Pitch)
    ensures p == New(name, octave, None)
    ensures Coord(p) == NameOffset(name) + 12 * octave
  {
    Pitch(name, None, octave)
  }

  /** The letter's offset within its octave, in half steps (C D E F G A B = 0 2 4 5 7 9 11). */
  function NameOffset(name: PitchName): int {
    match name
    case C => 0
    case D => 2
    case E => 4
    case F => 5
    case G => 7
    case A => 9
    case B => 11
  }

  /** The accidental's offset, in half steps. */
  function AccidentalOffset(accidental: Accidental): int {
    match accidental
    case Sharp => 1
    case Flat => -1
    case DoubleSharp => 2
    case DoubleFlat => -2
    case None => 0
  }

  /**
   * Twice `f32::from(p)`: letter offset plus accidental offset plus twelve
   * half steps per octave. A pitch lies within two half steps below its
   * octave's C and two above its octave's B.
   */
  function Coord(p: Pitch): (h: int)
    ensures 12 * p.octave - 2 <= h <= 12 * p.octave + 13
  {
    NameOffset(p.name) + AccidentalOffset(p.accidental) + 12 * p.octave
  }

  /** A real that the source's coordinate can take: a multiple of 0.5. */
  predicate IsHalfStepMultiple(v: real) {
    IsInteger(2.0 * v)
  }

  /** `f32::from(p)`, the coordinate in whole steps, exactly. */
  function CoordValue(p: Pitch): (v: real)
    ensures IsHalfStepMultiple(v)
    ensures 2.0 * v == Coord(p) as real
  {
    var v := Coord(p) as real / 2.0;
    assert 2.0 * v == Coord(p) as real;
    v
  }

  /** The coordinates, in the source's own unit, that its unit tests expect. */
  lemma CoordValueExamples()
    ensures CoordValue(Pitch(C, None, 0)) == 0.0 && CoordValue(Pitch(D, None, 0)) == 1.0
    ensures CoordValue(Pitch(E, None, 0)) == 2.0 && CoordValue(Pitch(F, None, 0)) == 2.5
    ensures CoordValue(Pitch(G, None, 0)) == 3.5 && CoordValue(Pitch(A, None, 0)) == 4.5
    ensures CoordValue(Pitch(B, None, 0)) == 5.5
    ensures CoordValue(Pitch(C, None, 1)) == 6.0 && CoordValue(Pitch(F, None, 1)) == 8.5
    ensures CoordValue(Pitch(B, None, 1)) == 11.5
    ensures CoordValue(Pitch(C, Sharp, 0)) == 0.5 && CoordValue(Pitch(C, Flat, 0)) == -0.5
    ensures CoordValue(Pitch(C, DoubleSharp, 0)) == 1.0 && CoordValue(Pitch(C, DoubleFlat, 0)) == -1.0
  {
  }

  // ---------------------------------------------------------------------
  // Equality and order: `PartialEq`, `PartialOrd` and `Ord` for `Pitch`
  // ---------------------------------------------------------------------

  /** `p == q` in the source: the coordinates are equal. */
  predicate Eq(p: Pitch, q: Pitch) {
    Coord(p) == Coord(q)
  }

  /** `p < q` in the source. */
  predicate Lt(p: Pitch, q: Pitch) {
    Coord(p) < Coord(q)
  }

  /** `p <= q` in the source. */
  predicate Le(p: Pitch, q: Pitch) {
    Coord(p) <= Coord(q)
  }

  datatype Ordering = Less | Equal | Greater

  /**
   * `Ord::cmp`. `partial_cmp` always answers, since no coordinate is NaN,
   * so the `unwrap` in `cmp` never panics and both give this ordering.
   */
  function Cmp(p: Pitch, q: Pitch): (r: Ordering)
    ensures r == Equal <==> Eq(p, q)
    ensures r == Less <==> Lt(p, q)
    ensures r == Greater <==> Lt(q, p)
  {
    if Coord(p) < Coord(q) then Less
    else if Coord(p) == Coord(q) then Equal
    else Greater
  }

  /** The source's equality is an equivalence relation. */
  lemma EqIsEquivalence(p: Pitch, q: Pitch, s: Pitch)
    ensures Eq(p, p)
    ensures Eq(p, q) ==> Eq(q, p)
    ensures Eq(p, q) && Eq(q, s) ==> Eq(p, s)
  {
  }

  /** The order is total, and `p <= q && q <= p` holds exactly when `p == q`. */
  lemma LeIsTotalOrder(p: Pitch, q: Pitch, s: Pitch)
    ensures Le(p, q) || Le(q, p)
    ensures Le(p, q) && Le(q, p) <==> Eq(p, q)
    ensures Le(p, q) && Le(q, s) ==> Le(p, s)
    ensures Lt(p, q) <==> Le(p, q) && !Eq(p, q)
  {
  }

  /** Enharmonic spellings are equal; other letters or octaves differ. */
  lemma EqExamples()
    ensures Eq(Pitch(C, Sharp, 0), Pitch(D, Flat, 0))
    ensures Eq(Pitch(C, Sharp, 1), Pitch(D, Flat, 1))
    ensures Pitch(C, Sharp, 0) != Pitch(D, Flat, 0)
    ensures !Eq(Pitch(C, None, 0), Pitch(D, None, 0))
    ensures !Eq(Pitch(C, None, 0), Pitch(C, None, 1))
    ensures Le(Pitch(C, None, 0), Pitch(C, None, 0)) && Lt(Pitch(C, None, 0), Pitch(D, None, 0))
  {
  }

  // ---------------------------------------------------------------------
  // `TryFrom<f32> for Pitch`: from a coordinate back to a sharp spelling
  // ---------------------------------------------------------------------

  /** The `match` on `float_mod(value, 6.0)`: twelve residues, each spelled with a sharp or nothing. */
  function SharpSpellingOf(m: real): Result<(PitchName, Accidental), ()> {
    if m == 0.0 then Ok((C, None))
    else if m == 0.5 then Ok((C, Sharp))
    else if m == 1.0 then Ok((D, None))
    else if m == 1.5 then Ok((D, Sharp))
    else if m == 2.0 then Ok((E, None))
    else if m == 2.5 then Ok((F, None))
    else if m == 3.0 then Ok((F, Sharp))
    else if m == 3.5 then Ok((G, None))
    else if m == 4.0 then Ok((G, Sharp))
    else if m == 4.5 then Ok((A, None))
    else if m == 5.0 then Ok((A, Sharp))
    else if m == 5.5 then Ok((B, None))
    else Err(())
  }

  /** Within one octave the table answers exactly the multiples of 0.5, and its spelling has that offset. */
  lemma SharpSpellingCovers(m: real)
    requires 0.0 <= m < 6.0
    ensures SharpSpellingOf(m).Ok? <==> IsHalfStepMultiple(m)
    ensures SharpSpellingOf(m).Ok? ==>
      var (name, accidental) := SharpSpellingOf(m).value;
      && (NameOffset(name) + AccidentalOffset(accidental)) as real == 2.0 * m
      && (accidental == None || accidental == Sharp)
  {
    if IsHalfStepMultiple(m) {
      var k := (2.0 * m).Floor;
      assert 0 <= k < 12;
      assert m == k as real / 2.0;
    }
  }

  /** Adding an integer does not change whether a real is an integer. */
  lemma IntegerShift(x: real, n: int)
    ensures IsInteger(x + n as real) <==> IsInteger(x)
  {
    assert (x + n as real).Floor == x.Floor + n;
  }

  /** `value` splits into the residue `float_mod(value, 6.0)` and six times the octave. */
  lemma ResidueSplit(v: real)
    ensures v == FloatMod(v, 6.0) + 6.0 * (v / 6.0).Floor as real
    ensures IsHalfStepMultiple(v) <==> IsHalfStepMultiple(FloatMod(v, 6.0))
  {
    var k := (v / 6.0).Floor;
    var m := FloatMod(v, 6.0);
    assert 2.0 * v == 2.0 * m + (12 * k) as real;
    IntegerShift(2.0 * m, 12 * k);
  }

  /** `(value / 6.0).floor() as i8`: Rust's float-to-int cast saturates. */
  function SaturateI8(k: int): I8 {
    if k < -128 then -128 else if k > 127 then 127 else k
  }

  /**
   * `Pitch::try_from(value)`. It succeeds exactly on multiples of 0.5,
   * spells with a sharp or no accidental, takes `floor(value / 6)` as the
   * octave (saturated to `i8`), and, when that octave fits, yields a pitch
   * whose coordinate is `value`.
   */
  function TryFromValue(v: real): (r: Result<Pitch, ()>)
    ensures r.Ok? <==> IsHalfStepMultiple(v)
    ensures r.Ok? ==> r.value.accidental == None || r.value.accidental == Sharp
    ensures r.Ok? ==> r.value.octave == SaturateI8((v / 6.0).Floor)
    ensures r.Ok? && -128 <= (v / 6.0).Floor <= 127 ==> CoordValue(r.value) == v
  {
    var m := FloatMod(v, 6.0);
    ResidueSplit(v);
    SharpSpellingCovers(m);
    match SharpSpellingOf(m)
    case Err(_) => Err(())
    case Ok((name, accidental)) => Ok(New(name, SaturateI8((v / 6.0).Floor), accidental))
  }

  /** The source's tests of `try_from`, and a value between two half steps. */
  lemma TryFromValueExamples()
    ensures TryFromValue(0.0) == Ok(Pitch(C, None, 0))
    ensures TryFromValue(2.5) == Ok(Pitch(F, None, 0))
    ensures TryFromValue(5.5) == Ok(Pitch(B, None, 0))
    ensures TryFromValue(6.0) == Ok(Pitch(C, None, 1))
    ensures TryFromValue(11.5) == Ok(Pitch(B, None, 1))
    ensures TryFromValue(-0.5) == Ok(Pitch(B, None, -1))
    ensures TryFromValue(0.25) == Err(())
  {
    assert FloatMod(0.0, 6.0) == 0.0;
    assert FloatMod(2.5, 6.0) == 2.5;
    assert FloatMod(5.5, 6.0) == 5.5;
    assert (6.0 / 6.0).Floor == 1;
    assert FloatMod(6.0, 6.0) == 0.0;
    assert (11.5 / 6.0).Floor == 1;
    assert FloatMod(11.5, 6.0) == 5.5;
    assert (-0.5 / 6.0).Floor == -1;
    assert FloatMod(-0.5, 6.0) == 5.5;
    assert (2.0 * 0.25).Floor == 0;
  }

  /** Dividing an integer by twelve and flooring is Dafny's `/` by 12. */
  lemma FloorTwelfth(h: int)
    ensures (h as real / 12.0).Floor == h / 12
  {
    var q, s := h / 12, h % 12;
    assert h == 12 * q + s;
    assert h as real / 12.0 == q as real + s as real / 12.0;
  }

  /** The octave of the sharp spelling of `p`'s coordinate fits in `i8`. */
  predicate SpellableOctave(p: Pitch) {
    -128 <= Coord(p) / 12 <= 127
  }

  /**
   * `Pitch::try_from(f32::from(p))`: the enharmonic spelling with a sharp
   * or no accidental. It equals `p` in the source's sense.
   */
  function SharpSpelled(p: Pitch): (s: Pitch)
    requires SpellableOctave(p)
    ensures Eq(s, p)
    ensures s.accidental == None || s.accidental == Sharp
    ensures s.name == E || s.name == B ==> s.accidental == None
    ensures s.octave == Coord(p) / 12
  {
    var v := CoordValue(p);
    FloorTwelfth(Coord(p));
    assert v / 6.0 == Coord(p) as real / 12.0;
    ResidueSplit(v);
    SharpSpellingCovers(FloatMod(v, 6.0));
    var s := TryFromValue(v).value;
    assert 2.0 * CoordValue(s) == 2.0 * v;
    s
  }

  /** A coordinate goes back to a pitch that the source calls equal to the original. */
  lemma CoordRoundTrip(p: Pitch)
    requires SpellableOctave(p)
    ensures TryFromValue(CoordValue(p)).Ok?
    ensures Eq(TryFromValue(CoordValue(p)).value, p)
  {
    assert TryFromValue(CoordValue(p)).value == SharpSpelled(p);
  }

  /**
   * Two pitches are equal in the source's sense exactly when they have the
   * same sharp spelling: enharmonic equality is structural equality of the
   * canonical spelling.
   */
  lemma EqIffSameSharpSpelling(p: Pitch, q: Pitch)
    requires SpellableOctave(p) && SpellableOctave(q)
    ensures Eq(p, q) <==> SharpSpelled(p) == SharpSpelled(q)
  {
    if Eq(p, q) {
      assert CoordValue(p) == CoordValue(q);
    }
  }

  /**
   * The sharp spelling is the only spelling with a sharp or no accidental
   * that avoids E sharp and B sharp.
   */
  lemma {:induction false} SharpSpellingUnique(p: Pitch, q: Pitch)
    requires SpellableOctave(p)
    requires Eq(p, q)
    requires q.accidental == None || (q.accidental == Sharp && q.name != E && q.name != B)
    ensures q == SharpSpelled(p)
  {
    var s := SharpSpelled(p);
    var hq := NameOffset(q.name) + AccidentalOffset(q.accidental);
    var hs := NameOffset(s.name) + AccidentalOffset(s.accidental);
    assert 0 <= hq < 12 && 0 <= hs < 12;
    assert hq + 12 * q.octave == hs + 12 * s.octave;
    assert q.octave == s.octave;
    assert hq == hs;
  }

  // ---------------------------------------------------------------------
  // The semitone count inside `to_hertz`
  // ---------------------------------------------------------------------

  /** The reference pitch of `to_hertz`, A4 (440 Hz). */
  const StandardPitch: Pitch := Pitch(A, None, 4)

  /**
   * `number_of_semitones` in `to_hertz`: the coordinate distance from A4
   * divided by the half step. The exponentiation that turns it into hertz
   * is not modelled.
   */
  function SemitonesFromA4(p: Pitch): (n: int)
    ensures n as real == (CoordValue(p) - CoordValue(StandardPitch)) / StepValue(Half)
    ensures n == 0 <==> Eq(p, StandardPitch)
  {
    Coord(p) - Coord(StandardPitch)
  }

  /** A4 is 0 semitones away, A3 is -12, C4 is -9; raising the octave adds 12. */
  lemma SemitonesFromA4Examples(p: Pitch)
    requires p.octave < 127
    ensures SemitonesFromA4(Pitch(A, None, 4)) == 0
    ensures SemitonesFromA4(Pitch(A, None, 3)) == -12
    ensures SemitonesFromA4(Pitch(C, None, 4)) == -9
    ensures SemitonesFromA4(p.(octave := p.octave + 1)) == SemitonesFromA4(p) + 12
  {
  }
}
