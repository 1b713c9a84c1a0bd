/**
 * The unit tests of src/theory/interval.rs, stated on the model. An interval
 * is always built with `NewInterval`, as the tests build it with
 * `Interval::new`.
 *
 * Dafny proves every example here from the definitions alone. A few
 * lemmas keep an `assert NewInterval(..) == Interval(..)` hint, which
 * fixes the orientation of the interval early and lets the solver evaluate
 * the rest with much less search.
 */
module IntervalExamples {
  import opened Results
  import opened Pitches
  import opened Intervals

  /** Tests of `get_number(false)` within one octave. */
  lemma GetNumberSameOctaveExamples()
    ensures GetNumber(NewInterval(Pitch(C, None, 0), Pitch(E, None, 0)), false) == 3
    ensures GetNumber(NewInterval(Pitch(C, None, 2), Pitch(G, None, 2)), false) == 5
  {
  }

  /** Tests of `get_number(false)` across octaves. */
  lemma GetNumberDifferentOctaveExamples()
    ensures GetNumber(NewInterval(Pitch(C, None, 0), Pitch(E, None, 1)), false) == 10
    ensures GetNumber(NewInterval(Pitch(C, None, 1), Pitch(G, None, 3)), false) == 19
  {
  }

  /** Tests of `get_number(true)`. */
  lemma GetNumberIgnoreOctaveExamples()
    ensures GetNumber(NewInterval(Pitch(C, None, 0), Pitch(E, None, 0)), true) == 3
    ensures GetNumber(NewInterval(Pitch(C, None, 0), Pitch(E, None, 1)), true) == 3
    ensures GetNumber(NewInterval(Pitch(C, None, 1), Pitch(G, None, 3)), true) == 5
    ensures GetNumber(NewInterval(Pitch(C, None, 1), Pitch(B, None, 0)), true) == 2
    ensures GetNumber(NewInterval(Pitch(C, None, 1), Pitch(G, None, 0)), true) == 4
  {
  }

  /** Tests of `get_number_of_semitones`. */
  lemma GetNumberOfSemitonesExamples()
    ensures GetNumberOfSemitones(NewInterval(Pitch(C, None, 0), Pitch(E, None, 0)), false) == 4
    ensures GetNumberOfSemitones(NewInterval(Pitch(C, None, 0), Pitch(E, None, 1)), false) == 16
    ensures GetNumberOfSemitones(NewInterval(Pitch(C, None, 1), Pitch(G, None, 3)), false) == 31
    ensures GetNumberOfSemitones(NewInterval(Pitch(C, None, 0), Pitch(E, None, 0)), true) == 4
    ensures GetNumberOfSemitones(NewInterval(Pitch(C, None, 0), Pitch(E, None, 1)), true) == 4
    ensures GetNumberOfSemitones(NewInterval(Pitch(C, None, 1), Pitch(G, None, 3)), true) == 7
    ensures GetNumberOfSemitones(NewInterval(Pitch(C, None, 1), Pitch(B, None, 0)), true) == 1
    ensures GetNumberOfSemitones(NewInterval(Pitch(C, None, 1), Pitch(G, None, 0)), true) == 5
  {
  }

  /** The unison, the fifth and the fourth above C are perfect. */
  lemma GetQualityPerfectSimpleExamples(name: PitchName)
    requires name == C || name == G || name == F
    ensures GetQuality(NewInterval(Pitch(C, None, 0), Pitch(name, None, 0))) == Ok(Perfect)
  {
    NaturalQualityAboveC(name, 0);
  }


  /** A fifth plus an octave is reduced to a perfect fifth. */
  lemma GetQualityPerfectTwelfth()
    ensures GetQuality(NewInterval(Pitch(C, None, 0), Pitch(G, None, 1))) == Ok(Perfect)
  {
    assert NewInterval(Pitch(C, None, 0), Pitch(G, None, 1)) == Interval(Pitch(C, None, 0), Pitch(G, None, 1));
  }

  /** G0 below C1 is a perfect fourth, whichever is given first. */
  lemma GetQualityPerfectFourthBelow()
    ensures GetQuality(NewInterval(Pitch(C, None, 1), Pitch(G, None, 0))) == Ok(Perfect)
  {
    assert NewInterval(Pitch(C, None, 1), Pitch(G, None, 0)) == Interval(Pitch(G, None, 0), Pitch(C, None, 1));
  }

  /** E to F is a minor second. */
  lemma GetQualityMinorSecondEF()
    ensures GetQuality(NewInterval(Pitch(E, None, 0), Pitch(F, None, 0))) == Ok(Minor)
  {
    assert NewInterval(Pitch(E, None, 0), Pitch(F, None, 0)) == Interval(Pitch(E, None, 0), Pitch(F, None, 0));
  }

  /** B0 to C1 is a minor second across an octave boundary. */
  lemma GetQualityMinorSecondAcrossOctave()
    ensures GetQuality(NewInterval(Pitch(B, None, 0), Pitch(C, None, 1))) == Ok(Minor)
  {
    assert NewInterval(Pitch(B, None, 0), Pitch(C, None, 1)) == Interval(Pitch(B, None, 0), Pitch(C, None, 1));
  }

  /** The flattened second, third, sixth and seventh above C are minor. */
  lemma GetQualityMinorExamples(name: PitchName)
    requires name == D || name == E || name == A || name == B
    ensures GetQuality(NewInterval(Pitch(C, None, 0), Pitch(name, Flat, 0))) == Ok(Minor)
  {
    QualityAboveC(name, Flat, 0);
  }


  /** The natural second, third, sixth and seventh above C are major. */
  lemma GetQualityMajorExamples(name: PitchName)
    requires name == D || name == E || name == A || name == B
    ensures GetQuality(NewInterval(Pitch(C, None, 0), Pitch(name, None, 0))) == Ok(Major)
  {
    NaturalQualityAboveC(name, 0);
  }


  /** The flattened fourth and fifth above C are diminished, the sharpened ones augmented. */
  lemma GetQualityAlteredExamples(name: PitchName, accidental: Accidental)
    requires name == F || name == G
    requires accidental == Flat || accidental == Sharp
    ensures GetQuality(NewInterval(Pitch(C, None, 0), Pitch(name, accidental, 0)))
         == Ok(if accidental == Flat then Diminished else Augmented)
  {
    QualityAboveC(name, accidental, 0);
  }


  /** An exact octave reduces to a "unison" of twelve half steps, which the table rejects. */
  lemma GetQualityOctave()
    ensures GetNumber(NewInterval(Pitch(C, None, 0), Pitch(C, None, 1)), true) == 1
    ensures GetNumberOfSemitones(NewInterval(Pitch(C, None, 0), Pitch(C, None, 1)), true) == 12
    ensures GetQuality(NewInterval(Pitch(C, None, 0), Pitch(C, None, 1))) == Err(())
  {
  }

  /** C0 to E0 is a simple major third. */
  lemma GetSpecificThird()
    ensures GetSpecificInterval(NewInterval(Pitch(C, None, 0), Pitch(E, None, 0))) == Ok((3, Major, false))
  {
  }

  /** C0 to G0 is a simple perfect fifth. */
  lemma GetSpecificFifth()
    ensures GetSpecificInterval(NewInterval(Pitch(C, None, 0), Pitch(G, None, 0))) == Ok((5, Perfect, false))
  {
  }

  /** C0 to E1 is a major third plus an octave. */
  lemma GetSpecificCompoundThird()
    ensures GetSpecificInterval(NewInterval(Pitch(C, None, 0), Pitch(E, None, 1))) == Ok((3, Major, true))
  {
    assert NewInterval(Pitch(C, None, 0), Pitch(E, None, 1)) == Interval(Pitch(C, None, 0), Pitch(E, None, 1));
  }

  /** C1 to G3 is a perfect fifth plus two octaves. */
  lemma GetSpecificCompoundFifth()
    ensures GetSpecificInterval(NewInterval(Pitch(C, None, 1), Pitch(G, None, 3))) == Ok((5, Perfect, true))
  {
  }

  /** For an exact octave the `unwrap` of the quality panics. */
  lemma GetSpecificIntervalOctave()
    ensures GetSpecificInterval(NewInterval(Pitch(C, None, 0), Pitch(C, None, 1))) == Err(())
  {
  }

  /**
   * Two enharmonic spellings give different intervals in the two argument
   * orders: C sharp over D flat is a diminished second, D flat over C sharp
   * a "seventh" of no half steps, which has no quality.
   */
  lemma EnharmonicIntervalDependsOnOrder()
    ensures Eq(Pitch(C, Sharp, 0), Pitch(D, Flat, 0))
    ensures GetNumber(NewInterval(Pitch(D, Flat, 0), Pitch(C, Sharp, 0)), true) == 2
    ensures GetNumber(NewInterval(Pitch(C, Sharp, 0), Pitch(D, Flat, 0)), true) == 7
    ensures GetQuality(NewInterval(Pitch(D, Flat, 0), Pitch(C, Sharp, 0))) == Ok(Diminished)
    ensures GetQuality(NewInterval(Pitch(C, Sharp, 0), Pitch(D, Flat, 0))) == Err(())
  {
  }

  /**
   * B0 up to C2, a minor ninth: the source's count ignoring octaves would
   * be 13 - 24, below zero, so it panics; the corrected count reduces the
   * ninth to a minor second.
   */
  lemma MinorNinthUnderflows()
    ensures Ordered(NewInterval(Pitch(B, None, 0), Pitch(C, None, 2)))
    ensures RawSemitones(NewInterval(Pitch(B, None, 0), Pitch(C, None, 2))) == 13
    ensures 12 * Abs(OctaveDiff(NewInterval(Pitch(B, None, 0), Pitch(C, None, 2)))) == 24
    ensures !SemitonesDefined(NewInterval(Pitch(B, None, 0), Pitch(C, None, 2)), true)
  {
  }

  /** With the corrected count the minor ninth B0 to C2 is a minor second. */
  lemma MinorNinthCorrected()
    ensures ReducedSemitones(NewInterval(Pitch(B, None, 0), Pitch(C, None, 2))) == 1
    ensures CorrectedQuality(NewInterval(Pitch(B, None, 0), Pitch(C, None, 2))) == Ok(Minor)
  {
    assert NewInterval(Pitch(B, None, 0), Pitch(C, None, 2)) == Interval(Pitch(B, None, 0), Pitch(C, None, 2));
  }
}
