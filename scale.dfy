/**
 * The scale validator of src/theory/scale.rs: a scale is a sequence of
 * steps, each a number of half steps, that together make up one octave.
 */
module Scales {
  import opened Results

  /** Rust's `u8`. */
  type U8 = x: int | 0 <= x <= 255

  /** `Scale`: its steps, in half steps, in the order given. */
  datatype Scale = Scale(steps: seq<U8>)

  /** The half steps of one octave, which the steps of a scale must total. */
  const Octave := 12

  /** The total of the steps, the reference the validator is measured against. */
  function Sum(steps: seq<U8>): nat {
    if |steps| == 0 then 0 else steps[0] + Sum(steps[1..])
  }

  /**
   * `steps.iter().fold(0.0, |acc, step| acc + f32::from(*step))`: the steps
   * added one at a time, left to right, onto an accumulator.
   */
  function FoldSum(acc: int, steps: seq<U8>): int
    decreases |steps|
  {
    if |steps| == 0 then acc else FoldSum(acc + steps[0], steps[1..])
  }

  /** The left fold adds the steps' total to its starting value. */
  lemma {:induction false} FoldSumIsSum(acc: int, steps: seq<U8>)
    ensures FoldSum(acc, steps) == acc + Sum(steps)
    decreases |steps|
  {
    if |steps| > 0 {
      FoldSumIsSum(acc + steps[0], steps[1..]);
    }
  }

  /** The total of two sequences of steps laid end to end. */
  lemma {:induction false} SumAppend(a: seq<U8>, b: seq<U8>)
    ensures Sum(a + b) == Sum(a) + Sum(b)
  {
    if |a| == 0 {
      assert a + b == b;
    } else {
      assert (a + b)[1..] == a[1..] + b;
      SumAppend(a[1..], b);
    }
  }

  /** No step exceeds the total. */
  lemma {:induction false} StepAtMostSum(steps: seq<U8>, i: int)
    requires 0 <= i < |steps|
    ensures steps[i] <= Sum(steps)
  {
    if i > 0 {
      StepAtMostSum(steps[1..], i - 1);
    }
  }

  /**
   * `Scale::try_new`: a scale exactly when the steps total an octave, and
   * then it keeps the steps as given. Nothing else is checked: any number
   * of steps, zero steps among them, is accepted.
   */
  function TryNew(steps: seq<U8>): (r: Result<Scale, ()>)
    ensures r.Ok? <==> Sum(steps) == Octave
    ensures r.Ok? ==> r.value.steps == steps
  {
    FoldSumIsSum(0, steps);
    if FoldSum(0, steps) != Octave then Err(()) else Ok(Scale(steps))
  }

  /** Every step of a scale spans at most an octave. */
  lemma ScaleStepsAtMostOctave(steps: seq<U8>, i: int)
    requires TryNew(steps).Ok?
    requires 0 <= i < |steps|
    ensures steps[i] <= Octave
  {
    StepAtMostSum(steps, i);
  }

  /**
   * Starting a scale on another of its degrees gives a scale again (the
   * modes of the major scale are scales): the validator only looks at the
   * total, which a rotation keeps.
   */
  lemma RotationIsScale(steps: seq<U8>, k: int)
    requires 0 <= k <= |steps|
    ensures TryNew(steps[k..] + steps[..k]).Ok? <==> TryNew(steps).Ok?
  {
    assert steps == steps[..k] + steps[k..];
    SumAppend(steps[..k], steps[k..]);
    SumAppend(steps[k..], steps[..k]);
  }

  /** The test of the source, and the edge cases the validator allows and refuses. */
  lemma TryNewExamples()
    ensures TryNew([2, 2, 1, 2, 2, 2, 1]) == Ok(Scale([2, 2, 1, 2, 2, 2, 1]))
    ensures TryNew([12]).Ok?
    ensures TryNew([0, 12, 0]).Ok?
    ensures TryNew([1, 1, 1, 1, 1, 1, 1, 1, 1, 1, 1, 1]).Ok?
    ensures TryNew([]) == Err(())
    ensures TryNew([2, 2, 2]) == Err(())
    ensures TryNew([255, 2]) == Err(())
  {
  }
}
