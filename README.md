# Ecotonova music theory core, in Dafny

Ecotonova plays an instrument's recorded samples at any pitch. Its core is a
small music-theory value algebra, and this project models it:

- **Pitches** (`pitch.dfy`, module `Pitches`): a letter, an accidental and an
  `i8` octave. Each pitch has one coordinate. The model counts it in half
  steps: twice the source's `f32` value, so C0..B0 = 0, 2, 4, 5, 7, 9, 11,
  accidentals add ±1 or ±2 and each octave adds 12. `CoordValue` is the
  source's own value. Equality and order look only at the coordinate, so C♯0
  equals D♭0. `TryFromValue` is the partial inverse: it takes a value back
  to a pitch spelled with a sharp or no accidental. The module also has the
  semitone offset from A4 that `to_hertz` computes.
- **Interval steps** (`interval_step.dfy`, module `IntervalSteps`): the half
  and the whole step and their `f32` values. These live in `interval.rs`.
  They get a module of their own because pitches use them and intervals use
  pitches.
- **Intervals** (`interval.dfy`, module `Intervals`): two pitches, the lower
  one first. The module covers the diatonic number, the half-step count
  (either with octaves or folded into one octave), the quality table and
  the specific interval. The source's unit tests are stated on the model in
  `interval_examples.dfy` (module `IntervalExamples`).
- **Scales** (`scale.dfy`, module `Scales`): a step sequence is a scale
  exactly when its steps total 12 half steps.
- **Floor modulo** (`utils.dfy`, module `Utils`): `a - b * floor(a / b)` over
  the reals.
- **Sample pipeline** (`player.dfy`, module `Player`): the computable part
  of `generate_pitch_samples`:
  - which sample file is read;
  - the signed half-step shift;
  - the channel-count check;
  - the stereo-to-mono downmix.

  The folder lookup, the decoded file contents and the pitch shifter are
  inputs to the method.
- `results.dfy` (module `Results`) holds the `Result` type.

The source's integer types are modelled explicitly:
- `Octave` values are the subset type `I8`.
- Float-to-integer casts saturate (`SaturateI8`, `SaturateU16`).
- The source panics on `u8`, `u16` and `i8` overflow in a debug build. The
  predicates `NumberDefined` and `SemitonesDefined` state exactly when no
  operation overflows, and the interval functions require them.

Where the documented behaviour and the code disagree, the model follows the
code. Pitches that do not compare equal give the same interval in either
order (`NewIntervalSymmetric`). Two different spellings of one pitch can
give different intervals: swapping the arguments keeps the interval exactly
when the pitches do not compare equal or are the same spelling
(`NewIntervalSwapIff`). `Interval::new` puts the second argument lower
whenever the two are equal.
So the enharmonic pair C♯0 and D♭0 gives a diminished second in one order.
In the other order it gives a "seventh" of zero half steps, which has no
quality (`IntervalExamples.EnharmonicIntervalDependsOnOrder`). The
half-step count keeping octaves is symmetric for every pair
(`SemitonesSymmetric`).

In the source, the sum that decides a scale is an `f32` fold without
rounding. The model adds the integers exactly. The two decisions agree:
- Every partial sum up to 12 is a small integer, which an `f32` holds
  exactly.
- Adding a non-negative step never lowers a rounded partial sum. So once
  a partial sum is above 12, the rounded sum stays above 12.

## Model

| member | source | states |
|---|---|---|
| Utils.FloatMod | src/utils/mod.rs:3-5 | for b > 0 the result lies in [0, b), for b < 0 in (b, 0], and a minus the result is an integer multiple of b |
| Utils.FloatModExamples | src/utils/mod.rs:11-17 | (5, 3) gives 2, (-5, 3) gives 1, (5, -3) gives -1, (-5, -3) gives -2 |
| IntervalSteps.StepValue | src/theory/interval.rs:30-37 | defines a step's `f32` value: 0.5 for the half step, 1.0 for the whole step |
| IntervalSteps.StepTryFrom | src/theory/interval.rs:18-28 | succeeds exactly on the value of some step, and then returns a step with that value |
| IntervalSteps.StepRoundTrip | src/theory/interval.rs:18-37 | converting a step to its value and back gives the step |
| Pitches.New | src/theory/pitch.rs:33-39 | keeps the three fields; the coordinate is letter offset plus accidental offset plus 12 per octave |
| Pitches.NewWithoutAccidental | src/theory/pitch.rs:40-46 | is `New` with no accidental, so its coordinate is the letter offset plus 12 per octave |
| Pitches.NameOffset | src/theory/pitch.rs:106-114 | defines the letter's offset from C in half steps: C, D, E, F, G, A, B are 0, 2, 4, 5, 7, 9, 11 (twice the source's table) |
| Pitches.AccidentalOffset | src/theory/pitch.rs:115-121 | defines the accidental's offset in half steps: sharp +1, flat -1, double sharp +2, double flat -2, none 0 (twice the source's table) |
| Pitches.Coord | src/theory/pitch.rs:104-123 | a pitch lies from two half steps below its octave's C to two above its octave's B |
| Pitches.CoordValue | src/theory/pitch.rs:104-123 | the source's value is a multiple of 0.5 and is half the half-step coordinate |
| Pitches.CoordValueExamples | src/theory/pitch.rs:155-188 | C0..B0 are 0, 1, 2, 2.5, 3.5, 4.5, 5.5; octaves add 6; C♯0 is 0.5, C♭♭0 is -1 |
| Pitches.Eq | src/theory/pitch.rs:54-60 | defines the source's `==`: the coordinates are equal |
| Pitches.Lt | src/theory/pitch.rs:64-70 | defines the source's `<`: the first coordinate is smaller |
| Pitches.Le | src/theory/pitch.rs:64-70 | defines the source's `<=`: the first coordinate is not larger |
| Pitches.Cmp | src/theory/pitch.rs:64-78 | the ordering is Equal, Less or Greater exactly when the coordinates are equal, smaller or larger; `cmp` never panics |
| Pitches.EqIsEquivalence | src/theory/pitch.rs:54-62 | coordinate equality is reflexive, symmetric and transitive |
| Pitches.LeIsTotalOrder | src/theory/pitch.rs:64-78 | `<=` is total and transitive; `p <= q && q <= p` holds exactly when p equals q; `<` is `<=` without equality |
| Pitches.EqExamples | src/theory/pitch.rs:190-223 | C♯0 equals D♭0 but is a different spelling; C0 differs from D0 and from C1 |
| Pitches.SharpSpellingOf | src/theory/pitch.rs:84-98 | defines the twelve-entry match from a residue in 0, 0.5, ..., 5.5 to a sharp or natural spelling, and `Err` for any other residue |
| Pitches.SharpSpellingCovers | src/theory/pitch.rs:84-98 | for a residue in [0, 6) the table answers exactly the multiples of 0.5; its spelling has the residue's offset and a sharp or no accidental |
| Pitches.ResidueSplit | src/theory/pitch.rs:84-99 | a value is its residue modulo 6 plus 6 times the floored octave; it is a multiple of 0.5 exactly when the residue is |
| Pitches.SaturateI8 | src/theory/pitch.rs:99 | defines Rust's saturating cast to `i8`: below -128 gives -128, above 127 gives 127, anything else is kept |
| Pitches.TryFromValue | src/theory/pitch.rs:80-101 | succeeds exactly on multiples of 0.5; spells with a sharp or no accidental; the octave is floor(value / 6) saturated to `i8`; when that octave fits, the pitch's value is the input |
| Pitches.TryFromValueExamples | src/theory/pitch.rs:128-153 | 0.0, 2.5, 5.5, 6.0 and 11.5 give C0, F0, B0, C1 and B1; -0.5 gives B-1; 0.25 is an error |
| Pitches.SharpSpelled | src/theory/pitch.rs:80-124 | converting a pitch to its value and back gives a pitch equal to it, with a sharp or no accidental, never E♯ or B♯, in octave floor(coordinate / 12) |
| Pitches.CoordRoundTrip | src/theory/pitch.rs:80-124 | `try_from(f32::from(p))` succeeds and equals p whenever its octave fits in `i8` |
| Pitches.EqIffSameSharpSpelling | src/theory/pitch.rs:54-60 | two pitches are equal exactly when their sharp spellings are the same |
| Pitches.SharpSpellingUnique | src/theory/pitch.rs:84-98 | the sharp spelling is the only equal spelling with no accidental, or with a sharp on a letter other than E and B |
| Pitches.SemitonesFromA4 | src/theory/pitch.rs:47-49 | the semitone offset is the value difference from A4 divided by the half step's value; it is 0 exactly for pitches equal to A4 |
| Pitches.SemitonesFromA4Examples | src/theory/pitch.rs:225-264 | A4 is 0, A3 is -12, C4 is -9; one octave up adds 12 |
| Intervals.NewInterval | src/theory/interval.rs:46-52 | the interval is ordered; it holds the two pitches in one order or the other; equal pitches put the second argument lower |
| Intervals.NewIntervalSymmetric | src/theory/interval.rs:46-52 | pitches that do not compare equal give the identical interval in either argument order |
| Intervals.NewIntervalSwapIff | src/theory/interval.rs:46-52 | swapping the arguments keeps the interval exactly when the pitches do not compare equal or are the same spelling |
| Intervals.Position | src/theory/interval.rs:64-74 | defines `get_position`: the letter's index, C..B as 0..6 |
| Intervals.GetNumber | src/theory/interval.rs:63-87 | the number is at least 1, and at most 7 when octaves are ignored |
| Intervals.GetNumberLetterSteps | src/theory/interval.rs:75-86 | keeping octaves, with the upper octave not below the lower one, the number is the letter-step distance plus one |
| Intervals.GetNumberModSeven | src/theory/interval.rs:63-87 | either way, the number minus one is the letter-step distance modulo 7 |
| Intervals.GetNumberCompound | src/theory/interval.rs:77-86 | keeping octaves adds 7 per octave of difference to the number with octaves ignored |
| Intervals.SaturateU16 | src/theory/interval.rs:99 | defines Rust's saturating cast to `u16`: negatives give 0, above 65535 gives 65535, anything else is kept |
| Intervals.RawSemitones | src/theory/interval.rs:99 | for an ordered interval the saturating cast loses nothing: it is the half-step distance |
| Intervals.GetNumberOfSemitones | src/theory/interval.rs:98-110 | the count is between 0 and the half-step distance, and equals the distance when that is at most 12 |
| Intervals.GetNumberOfSemitonesIsHalfSteps | src/theory/interval.rs:98-109 | keeping octaves, the count is the value difference of the two pitches divided by the half step's value |
| Intervals.GetNumberOfSemitonesInOctave | src/theory/interval.rs:100-104 | ignoring octaves, a distance above 12 with the upper octave not below the lower one becomes the difference of the two in-octave offsets |
| Intervals.GetNumberOfSemitonesModTwelve | src/theory/interval.rs:98-110 | the count is congruent to the half-step distance modulo 12 |
| Intervals.SemitonesSymmetric | src/theory/interval.rs:98-110 | keeping octaves, the count is the same in either argument order, even for enharmonic pairs, and is the coordinates' absolute difference |
| Intervals.SemitonesUnderflowWhenLetterWraps | src/theory/interval.rs:100-104 | for natural pitches more than an octave apart whose upper letter comes before the lower one, the `u16` subtraction goes below zero |
| Intervals.ReducedSemitones | src/theory/interval.rs:100-106 | the corrected count keeps a distance of at most 12 unchanged |
| Intervals.ReducedSemitonesModTwelve | src/theory/interval.rs:100-106 | the corrected count is congruent to the half-step distance modulo 12 |
| Intervals.ReducedSemitonesAgrees | src/theory/interval.rs:100-106 | the corrected count equals the source's wherever the upper letter and octave are not below the lower ones |
| Intervals.ReducedSemitonesNaturalBounds | src/theory/interval.rs:100-106 | between natural pitches the corrected count lies in 0..12 |
| Intervals.QualityTable | src/theory/interval.rs:120-181 | the nested table equals the music-theory rule `ReferenceQuality`, which is built from major-scale degrees and perfect numbers, on every pair |
| Intervals.GetQuality | src/theory/interval.rs:117-183 | the quality is the music-theory quality of the octave-folded number and half-step count, or `Err` where that pair has none |
| Intervals.GetSpecificInterval | src/theory/interval.rs:190-196 | succeeds exactly when the quality does (the source's `unwrap` panics otherwise); the number is in 1..7; the flag is set exactly when the distance exceeds 12 |
| Intervals.CorrectedQuality | src/theory/interval.rs:117-183 | the music-theory quality of the folded number and the corrected count |
| Intervals.CorrectedQualityAgrees | src/theory/interval.rs:117-183 | the corrected quality is the source's wherever the two counts agree |
| Intervals.QualityAboveC | src/theory/interval.rs:63-183 | above C in one octave, a letter that is flat, natural or sharp has the music-theory quality of its letter number and its distance from C |
| Intervals.NaturalQualityAboveC | src/theory/interval.rs:117-183 | every natural letter above C in one octave is perfect (C, F, G) or major (the major scale) |
| IntervalExamples.GetNumberSameOctaveExamples | src/theory/interval.rs:204-215 | C0–E0 is 3 and C2–G2 is 5, keeping octaves |
| IntervalExamples.GetNumberDifferentOctaveExamples | src/theory/interval.rs:217-228 | C0–E1 is 10 and C1–G3 is 19, keeping octaves |
| IntervalExamples.GetNumberIgnoreOctaveExamples | src/theory/interval.rs:230-256 | ignoring octaves, C0–E0 and C0–E1 are 3, C1–G3 is 5, C1–B0 is 2, C1–G0 is 4 |
| IntervalExamples.GetNumberOfSemitonesExamples | src/theory/interval.rs:263-310 | C0–E0 is 4, C0–E1 is 16, C1–G3 is 31; ignoring octaves 4, 4, 7, and C1–B0 1, C1–G0 5 |
| IntervalExamples.GetQualityPerfectSimpleExamples | src/theory/interval.rs:318-332 | C0 to C0, G0 and F0 are perfect |
| IntervalExamples.GetQualityPerfectTwelfth | src/theory/interval.rs:334-337 | C0–G1 is perfect |
| IntervalExamples.GetQualityPerfectFourthBelow | src/theory/interval.rs:339-342 | C1 with G0 is perfect |
| IntervalExamples.GetQualityMinorSecondEF | src/theory/interval.rs:347-350 | E0–F0 is minor |
| IntervalExamples.GetQualityMinorSecondAcrossOctave | src/theory/interval.rs:352-355 | B0–C1 is minor |
| IntervalExamples.GetQualityMinorExamples | src/theory/interval.rs:357-375 | C0 to D♭0, E♭0, A♭0 and B♭0 are minor |
| IntervalExamples.GetQualityMajorExamples | src/theory/interval.rs:379-399 | C0 to D0, E0, A0 and B0 are major |
| IntervalExamples.GetQualityAlteredExamples | src/theory/interval.rs:402-425 | C0 to F♭0 and G♭0 are diminished, to F♯0 and G♯0 augmented |
| IntervalExamples.GetQualityOctave | src/theory/interval.rs:100-126 | C0–C1 folds to number 1 with 12 half steps, which has no quality |
| IntervalExamples.GetSpecificThird | src/theory/interval.rs:434-437 | C0–E0 is (3, Major, false) |
| IntervalExamples.GetSpecificFifth | src/theory/interval.rs:439-442 | C0–G0 is (5, Perfect, false) |
| IntervalExamples.GetSpecificCompoundThird | src/theory/interval.rs:447-450 | C0–E1 is (3, Major, true) |
| IntervalExamples.GetSpecificCompoundFifth | src/theory/interval.rs:452-455 | C1–G3 is (5, Perfect, true) |
| IntervalExamples.GetSpecificIntervalOctave | src/theory/interval.rs:190-196 | for C0–C1 the quality's `unwrap` panics |
| IntervalExamples.EnharmonicIntervalDependsOnOrder | src/theory/interval.rs:46-87 | C♯0 equals D♭0, yet the interval built from them is a diminished second in one order and a quality-less "seventh" in the other |
| IntervalExamples.MinorNinthUnderflows | src/theory/interval.rs:100-104 | B0–C2 is ordered with distance 13 and octave difference 2, so the folded count would be 13 - 24 and the source panics |
| IntervalExamples.MinorNinthCorrected | src/theory/interval.rs:100-106 | the corrected count of B0–C2 is 1 and its quality is minor |
| Scales.Sum | src/theory/scale.rs:17-18 | defines the reference total of the steps, by recursion on the sequence |
| Scales.FoldSum | src/theory/scale.rs:18 | defines the source's `fold`: the steps added one at a time, left to right, onto the accumulator |
| Scales.FoldSumIsSum | src/theory/scale.rs:18 | the left fold from a starting value adds the steps' total to it |
| Scales.SumAppend | src/theory/scale.rs:18 | the total of two step sequences laid end to end is the sum of their totals |
| Scales.TryNew | src/theory/scale.rs:12-23 | a scale exactly when the steps total 12, and the scale keeps the steps as given |
| Scales.ScaleStepsAtMostOctave | src/theory/scale.rs:17-21 | no step of a scale is larger than 12 |
| Scales.RotationIsScale | src/theory/scale.rs:17-21 | a rotation of the steps (a mode) is a scale exactly when the original is |
| Scales.TryNewExamples | src/theory/scale.rs:12-36 | the major scale is accepted as given; [12], [0, 12, 0] and twelve single steps are accepted; [], [2, 2, 2] and [255, 2] are refused |
| Player.ChooseSample | src/instruments/player.rs:70-91 | with the requested pitch's own file the shift is 0; a failed listing is an error; otherwise the nearest pitch is used and the shift is its coordinate minus the requested one |
| Player.ShiftSign | src/instruments/player.rs:87-90 | the shift is negative exactly when the sample lies below the requested pitch, and its size is the interval's half-step count |
| Player.KeepEvenIndexed | src/instruments/player.rs:100-102 | the result has ⌈n/2⌉ elements and element i is input element 2i |
| Player.Downmix | src/instruments/player.rs:100-102 | a stereo stream keeps its even-indexed samples; any other stream is unchanged |
| Player.ChosenPitch | src/instruments/player.rs:70-86 | defines the pitch whose file is read: the nearest pitch when the requested file is missing, else the requested pitch |
| Player.ChosenFileMissing | src/instruments/player.rs:73-93 | defines the case in which the nearest pitch is the requested pitch itself, whose file line 73 found missing, so the open at line 93 fails |
| Player.GeneratePitchSamples | src/instruments/player.rs:63-115 | a missing folder is an error before anything else; a failed listing is an error; a nearest pitch that is the requested one fails to open (the source's `unwrap` panic); more than two channels is an error; otherwise the result is the chosen file's sample rate and its mono samples, shifted by the requested coordinate minus the sample's, with the length of the mono samples |

## Left out

- `Display for Pitch`, `TryFrom<String> for Pitch` and `get_the_nearest_pitch` are called by the sample pipeline, but their bodies are not part of this model. The nearest pitch is an input (`SampleLookup.NearestFile`), and it may be the requested pitch itself. A malformed file name, which makes the source's `unwrap` panic, is not modelled.
- File system access is an input: whether the sample folder and the exact file exist, and whether the folder listing succeeds.
- FLAC decoding is an input (`decode`). This covers the per-sample `unwrap` and the normalisation by 2^bits / 2 - 1 (floating point). The model only sees the decoded samples and the stream information.
- Player.GeneratePitchSamples: the panic of `FlacReader::open(...).unwrap()` is modelled only where the model can see that the file is missing (`ChosenFileMissing`, as `SampleFileMissing`). A nearest pitch other than the requested one is taken to have a file that opens, and a file that fails to decode is not modelled.
- `PitchShifter` is a function input whose output has the length of its output buffer. Its window size and oversampling constants are not modelled.
- `Instrument::play`, `Instrument::sample_folder_path` (the `snake_case` foreign call) and playback through rodio are I/O and are not modelled.
- `to_hertz` beyond its semitone offset: `440 * 2^(n/12)` is floating-point exponentiation.
- `f32` rounding is not modelled. The value of every pitch is a multiple of 0.5 below 800 in size, which `f32` holds exactly. The scale sum is discussed above.
- Release-build wrap-around of the `u8`/`u16`/`i8` arithmetic is not modelled; the overflow cases are excluded by `NumberDefined` and `SemitonesDefined`, as a debug build panics there.
- Pitches.TryFromValue: the input and `float_mod` are exact reals. NaN and infinite inputs do not exist in the model; for them `float_mod` gives NaN and the source returns `Err`. Beyond about 2^25 in size, the source's `f32` `float_mod` rounds, so its residue can differ from the exact one or be refused: for 33554444.0 the rounded residue is 4.0 (G♯), the exact one 2.0 (E). The octave has saturated long before that size.
- Utils.FloatMod: requires a non-zero divisor. With b = 0 the source returns NaN. The only call in the core passes 6.
- The GUI in src/app.rs is not part of this model.

## Findings

| source | as written | input that shows it | evidently intended | confidence | as-written member | corrected member |
|---|---|---|---|---|---|---|
| src/theory/interval.rs:100-104 | ignoring octaves, a distance above 12 loses 12 half steps per unit of octave-number difference, in `u16` arithmetic | B0 and C2 (a minor ninth): distance 13, octave difference 2, so 13 - 24 goes below zero. A debug build panics in `get_number_of_semitones(true)` and so in `get_quality` and `get_specific_interval`. This happens for every natural interval above an octave whose upper letter comes before the lower one, such as A1–C3 | subtract 12 per octave the letters span (letter steps / 7), as `get_number(true)` folds the number; B0–C2 becomes 1 half step, a minor second | high; not executed | Intervals.SemitonesUnderflowWhenLetterWraps, IntervalExamples.MinorNinthUnderflows | Intervals.ReducedSemitones, Intervals.CorrectedQuality |

`GetQuality` and `GetSpecificInterval` keep the source's count, since they
model the code as written. `CorrectedQuality` is the quality with the
corrected count, and `CorrectedQualityAgrees` shows that it agrees with the
source wherever the source does not over-subtract. The sample pipeline is not
affected: it only uses the count that keeps octaves.
