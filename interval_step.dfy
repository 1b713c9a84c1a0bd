/**
 * The two step sizes of src/theory/interval.rs and their value in the
 * coordinate unit (a half step is 0.5). Kept in a module of its own because
 * the pitch algebra divides by the half step, and the interval calculator
 * builds on the pitch algebra.
 */
module IntervalSteps {
  import opened Results

  datatype IntervalStep = Half | Whole

  /** `From<IntervalStep> for f32`. */
  function StepValue(step: IntervalStep): real {
    match step
    case Half => 0.5
    case Whole => 1.0
  }

  /** `TryFrom<f32> for IntervalStep`: only the two step values convert. */
  function StepTryFrom(v: real): (r: Result<IntervalStep, ()>)
    ensures r.Ok? <==> exists step :: StepValue(step) == v
    ensures r.Ok? ==> StepValue(r.value) == v
  {
    if v == 0.5 then assert StepValue(Half) == v; Ok(Half)
    else if v == 1.0 then assert StepValue(Whole) == v; Ok(Whole)
    else
      assert StepValue(Half) != v && StepValue(Whole) != v;
      Err(())
  }

  /** Converting a step to its value and back gives the step. */
  lemma StepRoundTrip(step: IntervalStep)
    ensures StepTryFrom(StepValue(step)) == Ok(step)
  {
  }
}
