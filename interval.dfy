/**
 * The interval calculator of src/theory/interval.rs: the diatonic number,
 * the half-step count and the quality of the interval between two pitches.
 *
 * The source computes in `u8`, `u16` and `i8` and, built for debugging,
 * panics when one of those operations overflows. The predicates
 * `NumberDefined` and `SemitonesDefined` state exactly when no operation
 * overflows, and the model requires them; it then computes in `int`.
 */
module Intervals {
  import opened Results
  import opened IntervalSteps
  import opened Pitches

  datatype IntervalQuality = Perfect | Major | Minor | Augmented | Diminished

  /** The two pitches of an interval, the lower first. */
  datatype Interval = Interval(lower: Pitch, upper: Pitch)

  /**
   * The invariant `Interval::new` establishes. The fields are private in the
   * source, so every interval it handles is ordered.
   */
  predicate Ordered(iv: Interval) {
    Le(iv.lower, iv.upper)
  }

  /**
   * `Interval::new`: the two pitches, the lower first. When they compare
   * equal (the same pitch or two enharmonic spellings) the second argument
   * becomes the lower one.
   */
  function NewInterval(p1: Pitch, p2: Pitch): (iv: Interval)
    ensures Ordered(iv)
    ensures iv == Interval(p1, p2) || iv == Interval(p2, p1)
    ensures Eq(p1, p2) ==> iv == Interval(p2, p1)
  {
    if Lt(p1, p2) then Interval(p1, p2) else Interval(p2, p1)
  }

  /** Pitches that do not compare equal give the same interval in either order. */
  lemma NewIntervalSymmetric(p1: Pitch, p2: Pitch)
    requires !Eq(p1, p2)
    ensures NewInterval(p1, p2) == NewInterval(p2, p1)
  {
  }

  /**
   * Exactly when swapping the arguments keeps the interval: the pitches do
   * not compare equal, or they are the same spelling. Two different
   * spellings of one pitch give the two intervals with the ends swapped.
   */
  lemma NewIntervalSwapIff(p1: Pitch, p2: Pitch)
    ensures NewInterval(p1, p2) == NewInterval(p2, p1) <==> !Eq(p1, p2) || p1 == p2
  {
    if Eq(p1, p2) && p1 != p2 {
      assert NewInterval(p1, p2).lower == p2 != p1 == NewInterval(p2, p1).lower;
    }
  }

  // ---------------------------------------------------------------------
  // get_number
  // ---------------------------------------------------------------------

  /** The `get_position` closure: the letter's index, C to B = 0 to 6. */
  function Position(name: PitchName): int {
    match name
    case C => 0
    case D => 1
    case E => 2
    case F => 3
    case G => 4
    case A => 5
    case B => 6
  }

  /** The letter with a given index. */
  function LetterAt(i: int): (name: PitchName)
    requires 0 <= i < 7
    ensures Position(name) == i
  {
    [C, D, E, F, G, A, B][i]
  }

  /** The number of letter steps from C0 to the pitch. */
  function DiatonicIndex(p: Pitch): int {
    Position(p.name) + 7 * p.octave
  }

  /** The number of letter steps from the lower to the upper pitch. */
  function LetterSteps(iv: Interval): int {
    DiatonicIndex(iv.upper) - DiatonicIndex(iv.lower)
  }

  /** `upper.octave - lower.octave`, an `i8` subtraction in the source. */
  function OctaveDiff(iv: Interval): int {
    iv.upper.octave - iv.lower.octave
  }

  function Abs(x: int): nat {
    if x < 0 then -x else x
  }

  /**
   * `get_number` does not overflow: `(upper.octave - lower.octave).abs() as
   * u8 * 7` stays within `i8` and `u8` (it is computed on both branches),
   * and on the octave-keeping branch `upper_position - lower_position + 1 +
   * octave_diff` stays within `u8`.
   */
  predicate NumberDefined(iv: Interval, ignoreOctave: bool) {
    var u, l := Position(iv.upper.name), Position(iv.lower.name);
    && -36 <= OctaveDiff(iv) <= 36
    && (!ignoreOctave ==> u >= l && u - l + 1 + 7 * Abs(OctaveDiff(iv)) <= 255)
  }

  /**
   * `get_number`: the diatonic number of the interval, counting both ends.
   * Ignoring octaves it is in 1..7. `GetNumberLetterSteps` and
   * `GetNumberModSeven` relate it to the letter-step distance.
   */
  function GetNumber(iv: Interval, ignoreOctave: bool): (n: int)
    requires NumberDefined(iv, ignoreOctave)
    ensures 1 <= n
    ensures ignoreOctave ==> n <= 7
  {
    var lower, upper := Position(iv.lower.name), Position(iv.upper.name);
    var octaveDiff := Abs(OctaveDiff(iv)) * 7;
    if ignoreOctave then
      if upper < lower then upper + 7 - lower + 1 else upper - lower + 1
    else
      upper - lower + 1 + octaveDiff
  }

  /**
   * Keeping octaves, and when the upper pitch's octave is not below the
   * lower's, the number is the letter-step distance plus one.
   */
  lemma GetNumberLetterSteps(iv: Interval)
    requires NumberDefined(iv, false)
    requires iv.lower.octave <= iv.upper.octave
    ensures GetNumber(iv, false) == LetterSteps(iv) + 1
  {
  }

  /**
   * Both numbers count the letter steps plus one, modulo 7; with octaves
   * ignored that fixes the number, since it lies in 1..7.
   */
  lemma GetNumberModSeven(iv: Interval, ignoreOctave: bool)
    requires NumberDefined(iv, ignoreOctave)
    ensures (GetNumber(iv, ignoreOctave) - 1) % 7 == LetterSteps(iv) % 7
  {
    var x := Position(iv.upper.name) - Position(iv.lower.name);
    assert LetterSteps(iv) == x + 7 * OctaveDiff(iv);
    ShiftModSeven(x, OctaveDiff(iv));
    if ignoreOctave {
      ShiftModSeven(x, 1);
    } else {
      ShiftModSeven(x, Abs(OctaveDiff(iv)));
    }
  }

  /** Adding whole weeks of letters keeps the letter modulo 7. */
  lemma ShiftModSeven(a: int, k: int)
    ensures (a + 7 * k) % 7 == a % 7
  {
    var q := a / 7;
    assert a + 7 * k == 7 * (q + k) + a % 7;
  }

  /** Keeping octaves adds seven per octave of difference to the simple number. */
  lemma GetNumberCompound(iv: Interval)
    requires NumberDefined(iv, false)
    ensures NumberDefined(iv, true)
    ensures GetNumber(iv, false) == GetNumber(iv, true) + 7 * Abs(OctaveDiff(iv))
  {
  }

  // ---------------------------------------------------------------------
  // get_number_of_semitones
  // ---------------------------------------------------------------------

  /** Rust's saturating float-to-`u16` cast, on an integral value. */
  function SaturateU16(x: int): int {
    if x < 0 then 0 else if x > 65535 then 65535 else x
  }

  /**
   * `((f32::from(upper) - f32::from(lower)) / 0.5) as u16`. For an ordered
   * interval the cast loses nothing: it is the half-step distance.
   */
  function RawSemitones(iv: Interval): (n: int)
    ensures Ordered(iv) ==> n == Coord(iv.upper) - Coord(iv.lower)
  {
    assert Coord(iv.upper) - Coord(iv.lower) <= 255 * 12 + 15;
    SaturateU16(Coord(iv.upper) - Coord(iv.lower))
  }

  /**
   * `get_number_of_semitones` does not overflow: the interval is ordered; and
   * when ignoring octaves, `.abs()` of the `i8` octave difference does not
   * overflow and the `u16` subtraction `semitones - octave_diff * 12` does
   * not go below zero.
   */
  predicate SemitonesDefined(iv: Interval, ignoreOctave: bool) {
    && Ordered(iv)
    && (ignoreOctave ==>
          && -127 <= OctaveDiff(iv) <= 127
          && (RawSemitones(iv) > 12 ==> 12 * Abs(OctaveDiff(iv)) <= RawSemitones(iv)))
  }

  /** The half-step offset of a pitch within its own octave. */
  function OffsetInOctave(p: Pitch): int {
    NameOffset(p.name) + AccidentalOffset(p.accidental)
  }

  /**
   * `get_number_of_semitones`. Keeping octaves it is the half-step distance
   * `(coord(upper) - coord(lower)) / 0.5`. Ignoring octaves a distance of at
   * most 12 is kept; a larger one is reduced by twelve per octave of
   * difference (`GetNumberOfSemitonesInOctave`). The result is never above
   * the distance, and `GetNumberOfSemitonesModTwelve` adds that it is
   * congruent to it modulo 12.
   */
  function GetNumberOfSemitones(iv: Interval, ignoreOctave: bool): (n: int)
    requires SemitonesDefined(iv, ignoreOctave)
    ensures 0 <= n <= Coord(iv.upper) - Coord(iv.lower)
    ensures Coord(iv.upper) - Coord(iv.lower) <= 12 ==> n == Coord(iv.upper) - Coord(iv.lower)
  {
    var semitones := RawSemitones(iv);
    if ignoreOctave then
      var octaveDiff := Abs(OctaveDiff(iv));
      if semitones > 12 then
        semitones - octaveDiff * 12
      else
        semitones
    else
      semitones
  }

  /**
   * Keeping octaves, the count is the source's formula on the coordinates
   * in whole steps: their difference divided by the half step's value.
   */
  lemma GetNumberOfSemitonesIsHalfSteps(iv: Interval)
    requires Ordered(iv)
    ensures GetNumberOfSemitones(iv, false) as real == (CoordValue(iv.upper) - CoordValue(iv.lower)) / StepValue(Half)
  {
    assert 2.0 * CoordValue(iv.upper) == Coord(iv.upper) as real;
    assert 2.0 * CoordValue(iv.lower) == Coord(iv.lower) as real;
  }

  /**
   * Ignoring octaves, a distance above 12 with the upper octave not below
   * the lower one reduces to the difference of the two in-octave offsets.
   */
  lemma GetNumberOfSemitonesInOctave(iv: Interval)
    requires SemitonesDefined(iv, true)
    requires Coord(iv.upper) - Coord(iv.lower) > 12 && iv.lower.octave <= iv.upper.octave
    ensures GetNumberOfSemitones(iv, true) == OffsetInOctave(iv.upper) - OffsetInOctave(iv.lower)
  {
  }

  /** Removing whole octaves keeps the residue modulo 12. */
  lemma ShiftModTwelve(a: int, k: int)
    ensures (a - 12 * k) % 12 == a % 12
  {
    var q := a / 12;
    assert a - 12 * k == 12 * (q - k) + a % 12;
  }

  /** Ignoring octaves removes whole octaves only: the count is congruent to the distance modulo 12. */
  lemma GetNumberOfSemitonesModTwelve(iv: Interval, ignoreOctave: bool)
    requires SemitonesDefined(iv, ignoreOctave)
    ensures GetNumberOfSemitones(iv, ignoreOctave) % 12 == (Coord(iv.upper) - Coord(iv.lower)) % 12
  {
    var raw := RawSemitones(iv);
    if ignoreOctave && raw > 12 {
      var k := Abs(OctaveDiff(iv));
      assert GetNumberOfSemitones(iv, ignoreOctave) == raw - 12 * k;
      ShiftModTwelve(raw, k);
    }
  }

  /** The half-step count keeping octaves is the same in either argument order, even for enharmonic pairs. */
  lemma SemitonesSymmetric(p1: Pitch, p2: Pitch)
    ensures GetNumberOfSemitones(NewInterval(p1, p2), false) == GetNumberOfSemitones(NewInterval(p2, p1), false)
    ensures GetNumberOfSemitones(NewInterval(p1, p2), false) == Abs(Coord(p1) - Coord(p2))
  {
  }

  /** Letters later in the octave lie more half steps above C, by at most eleven. */
  lemma NameOffsetMonotone(a: PitchName, b: PitchName)
    requires Position(a) < Position(b)
    ensures 0 < NameOffset(b) - NameOffset(a) <= 11
  {
  }

  /**
   * Ignoring octaves, the source subtracts twelve half steps per unit of
   * octave-number difference. When the upper letter comes before the lower
   * one within the octave (B0 up to C2, a minor ninth) the letters span one
   * octave fewer than that difference, and for every such natural interval
   * of more than an octave the `u16` subtraction goes below zero, so
   * `get_number_of_semitones(true)` panics.
   */
  lemma SemitonesUnderflowWhenLetterWraps(iv: Interval)
    requires Ordered(iv)
    requires iv.lower.accidental == None && iv.upper.accidental == None
    requires Position(iv.upper.name) < Position(iv.lower.name)
    requires RawSemitones(iv) > 12
    ensures !SemitonesDefined(iv, true)
  {
    NameOffsetMonotone(iv.upper.name, iv.lower.name);
    assert RawSemitones(iv) == NameOffset(iv.upper.name) - NameOffset(iv.lower.name) + 12 * OctaveDiff(iv);
  }

  /**
   * The count `get_number_of_semitones(true)` evidently intends: a distance
   * above an octave loses twelve half steps for every octave the letters
   * span, `LetterSteps / 7`, the same reduction `get_number(true)` makes.
   * A distance of at most an octave is kept, as in the source.
   */
  function ReducedSemitones(iv: Interval): (n: int)
    requires Ordered(iv)
    ensures RawSemitones(iv) <= 12 ==> n == RawSemitones(iv)
  {
    var raw := RawSemitones(iv);
    if raw > 12 then raw - 12 * (LetterSteps(iv) / 7) else raw
  }

  /** The corrected count, too, removes whole octaves only. */
  lemma ReducedSemitonesModTwelve(iv: Interval)
    requires Ordered(iv)
    ensures ReducedSemitones(iv) % 12 == RawSemitones(iv) % 12
  {
    if RawSemitones(iv) > 12 {
      var raw, k := RawSemitones(iv), LetterSteps(iv) / 7;
      assert ReducedSemitones(iv) == raw - 12 * k;
      ShiftModTwelve(raw, k);
    }
  }

  /**
   * Where the upper letter is not before the lower one and the upper octave
   * is not below the lower one, the letters span exactly the octave-number
   * difference, and the corrected count is the source's.
   */
  lemma ReducedSemitonesAgrees(iv: Interval)
    requires SemitonesDefined(iv, true)
    requires Position(iv.lower.name) <= Position(iv.upper.name)
    requires iv.lower.octave <= iv.upper.octave
    ensures ReducedSemitones(iv) == GetNumberOfSemitones(iv, true)
  {
    var d := Position(iv.upper.name) - Position(iv.lower.name);
    assert LetterSteps(iv) == d + 7 * OctaveDiff(iv);
    assert LetterSteps(iv) / 7 == OctaveDiff(iv);
  }

  /** Between natural pitches the corrected count always lies within one octave. */
  lemma ReducedSemitonesNaturalBounds(iv: Interval)
    requires Ordered(iv)
    requires iv.lower.accidental == None && iv.upper.accidental == None
    ensures 0 <= ReducedSemitones(iv) <= 12
  {
    var u, l := iv.upper.name, iv.lower.name;
    var d := Position(u) - Position(l);
    assert LetterSteps(iv) == d + 7 * OctaveDiff(iv);
    assert RawSemitones(iv) == NameOffset(u) - NameOffset(l) + 12 * OctaveDiff(iv);
    if RawSemitones(iv) > 12 {
      if d >= 0 {
        if d > 0 { NameOffsetMonotone(l, u); }
        assert LetterSteps(iv) / 7 == OctaveDiff(iv);
      } else {
        NameOffsetMonotone(u, l);
        assert LetterSteps(iv) / 7 == OctaveDiff(iv) - 1;
      }
    }
  }

  // ---------------------------------------------------------------------
  // get_quality and get_specific_interval
  // ---------------------------------------------------------------------

  /** Unisons, fourths and fifths are perfect intervals; the others are major or minor. */
  predicate IsPerfectNumber(number: int) {
    number == 1 || number == 4 || number == 5
  }

  /**
   * The quality as music theory defines it: the major scale's degree
   * `number` lies `NameOffset` half steps above its tonic. A perfect number
   * at that distance is perfect, one half step less diminished and one more
   * augmented; any other number there is major, one less minor, two less
   * diminished and one more augmented. Everything else has no quality.
   */
  function ReferenceQuality(number: nat, semitones: nat): Result<IntervalQuality, ()> {
    if 1 <= number <= 7 then
      var degree := NameOffset(LetterAt(number - 1));
      if IsPerfectNumber(number) then
        if semitones + 1 == degree then Ok(Diminished)
        else if semitones == degree then Ok(Perfect)
        else if semitones == degree + 1 then Ok(Augmented)
        else Err(())
      else
        if semitones + 2 == degree then Ok(Diminished)
        else if semitones + 1 == degree then Ok(Minor)
        else if semitones == degree then Ok(Major)
        else if semitones == degree + 1 then Ok(Augmented)
        else Err(())
    else
      Err(())
  }

  /** The nested `match` of `get_quality`: a fixed table that agrees with the music-theory rule. */
  function QualityTable(number: nat, semitones: nat): (r: Result<IntervalQuality, ()>)
    ensures r == ReferenceQuality(number, semitones)
  {
    match number
    case 1 =>
      (match semitones
       case 0 => Ok(Perfect)
       case 1 => Ok(Augmented)
       case _ => Err(()))
    case 2 =>
      (match semitones
       case 0 => Ok(Diminished)
       case 1 => Ok(Minor)
       case 2 => Ok(Major)
       case 3 => Ok(Augmented)
       case _ => Err(()))
    case 3 =>
      (match semitones
       case 2 => Ok(Diminished)
       case 3 => Ok(Minor)
       case 4 => Ok(Major)
       case 5 => Ok(Augmented)
       case _ => Err(()))
    case 4 =>
      (match semitones
       case 4 => Ok(Diminished)
       case 5 => Ok(Perfect)
       case 6 => Ok(Augmented)
       case _ => Err(()))
    case 5 =>
      (match semitones
       case 6 => Ok(Diminished)
       case 7 => Ok(Perfect)
       case 8 => Ok(Augmented)
       case _ => Err(()))
    case 6 =>
      (match semitones
       case 7 => Ok(Diminished)
       case 8 => Ok(Minor)
       case 9 => Ok(Major)
       case 10 => Ok(Augmented)
       case _ => Err(()))
    case 7 =>
      (match semitones
       case 9 => Ok(Diminished)
       case 10 => Ok(Minor)
       case 11 => Ok(Major)
       case 12 => Ok(Augmented)
       case _ => Err(()))
    case _ => Err(())
  }

  /** Neither `get_number(true)` nor `get_number_of_semitones(true)` overflows. */
  predicate QualityDefined(iv: Interval) {
    NumberDefined(iv, true) && SemitonesDefined(iv, true)
  }

  /**
   * `get_quality`: the music-theory quality of the simple number and the
   * octave-reduced half-step count, or `Err` when the pair has none.
   */
  function GetQuality(iv: Interval): (r: Result<IntervalQuality, ()>)
    requires QualityDefined(iv)
    ensures r == ReferenceQuality(GetNumber(iv, true), GetNumberOfSemitones(iv, true))
  {
    QualityTable(GetNumber(iv, true), GetNumberOfSemitones(iv, true))
  }

  /**
   * `get_specific_interval`: the simple number, the quality and whether the
   * interval spans more than an octave. The source unwraps the quality, so
   * it panics exactly where `GetQuality` is `Err`; the model returns `Err`.
   */
  function GetSpecificInterval(iv: Interval): (r: Result<(int, IntervalQuality, bool), ()>)
    requires QualityDefined(iv)
    ensures r.Ok? <==> GetQuality(iv).Ok?
    ensures r.Ok? ==> 1 <= r.value.0 <= 7 && r.value.0 == GetNumber(iv, true)
    ensures r.Ok? ==> GetQuality(iv) == Ok(r.value.1)
    ensures r.Ok? ==> (r.value.2 <==> Coord(iv.upper) - Coord(iv.lower) > 12)
  {
    match GetQuality(iv)
    case Err(_) => Err(())
    case Ok(quality) => Ok((GetNumber(iv, true), quality, GetNumberOfSemitones(iv, false) > 12))
  }

  /**
   * The quality with the corrected half-step count; a count that the double
   * accidentals push below zero has no quality. It needs no guard against
   * the `u16` subtraction.
   */
  function CorrectedQuality(iv: Interval): (r: Result<IntervalQuality, ()>)
    requires Ordered(iv) && NumberDefined(iv, true)
    ensures ReducedSemitones(iv) >= 0 ==> r == ReferenceQuality(GetNumber(iv, true), ReducedSemitones(iv))
    ensures ReducedSemitones(iv) < 0 ==> r.Err?
  {
    var semitones := ReducedSemitones(iv);
    if semitones < 0 then Err(()) else QualityTable(GetNumber(iv, true), semitones)
  }

  /** Where the source's count is the corrected one, so is its quality. */
  lemma CorrectedQualityAgrees(iv: Interval)
    requires QualityDefined(iv)
    requires Position(iv.lower.name) <= Position(iv.upper.name)
    requires iv.lower.octave <= iv.upper.octave
    ensures CorrectedQuality(iv) == GetQuality(iv)
  {
    ReducedSemitonesAgrees(iv);
  }

  /**
   * Above C in the same octave, a letter with a flat, no accidental or a
   * sharp has the music-theory quality of its letter number and its
   * half-step distance from C.
   */
  lemma QualityAboveC(name: PitchName, accidental: Accidental, octave: I8)
    requires accidental == Flat || accidental == None || accidental == Sharp
    requires name == C ==> accidental != Flat
    ensures QualityDefined(NewInterval(Pitch(C, None, octave), Pitch(name, accidental, octave)))
    ensures GetQuality(NewInterval(Pitch(C, None, octave), Pitch(name, accidental, octave)))
         == ReferenceQuality(Position(name) + 1, NameOffset(name) + AccidentalOffset(accidental))
  {
    var iv := NewInterval(Pitch(C, None, octave), Pitch(name, accidental, octave));
    assert iv == Interval(Pitch(C, None, octave), Pitch(name, accidental, octave));
    assert GetNumber(iv, true) == Position(name) + 1;
    assert GetNumberOfSemitones(iv, true) == NameOffset(name) + AccidentalOffset(accidental);
  }

  /** In particular every natural letter above C is a perfect or major interval: the major scale. */
  lemma NaturalQualityAboveC(name: PitchName, octave: I8)
    ensures QualityDefined(NewInterval(Pitch(C, None, octave), Pitch(name, None, octave)))
    ensures GetQuality(NewInterval(Pitch(C, None, octave), Pitch(name, None, octave)))
         == Ok(if name == C || name == F || name == G then Perfect else Major)
  {
    QualityAboveC(name, None, octave);
    assert LetterAt(Position(name)) == name;
  }
}
