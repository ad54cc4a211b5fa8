/**
 * The input checks of `App._newWorkout`: `validInputs` (every input is a
 * finite number) and `allPositive` (every input is greater than zero), and
 * how the two workout types combine them.
 */
module Validation {

  /**
   * A JavaScript number after `+input.value`. Only finite values carry a
   * magnitude; NaN and the two infinities are kept apart because they
   * compare differently with 0.
   */
  datatype JsNumber = Finite(value: real) | NaN | Infinity | NegInfinity

  /** `Number.isFinite`. */
  predicate IsFinite(x: JsNumber) {
    x.Finite?
  }

  /** `x > 0` on JavaScript numbers: NaN compares false, +Infinity true. */
  predicate GreaterThanZero(x: JsNumber) {
    match x
    case Finite(v) => v > 0.0
    case Infinity => true
    case _ => false
  }

  /** `validInputs(...inputs)`: `inputs.every(Number.isFinite)`, scanning left to right. */
  function ValidInputs(inputs: seq<JsNumber>): (ok: bool)
    ensures ok <==> forall i :: 0 <= i < |inputs| ==> inputs[i].Finite?
  {
    if |inputs| == 0 then true
    else IsFinite(inputs[0]) && ValidInputs(inputs[1..])
  }

  /** `allPositive(...inputs)`: `inputs.every(inp => inp > 0)`, scanning left to right. */
  function AllPositive(inputs: seq<JsNumber>): (ok: bool)
    ensures ok <==> forall i :: 0 <= i < |inputs| ==> GreaterThanZero(inputs[i])
  {
    if |inputs| == 0 then true
    else GreaterThanZero(inputs[0]) && AllPositive(inputs[1..])
  }

  /** The running branch: all three fields finite, all three positive. */
  function RunningAccepted(distance: JsNumber, duration: JsNumber, cadence: JsNumber): (ok: bool)
    ensures ok <==> (distance.Finite? && duration.Finite? && cadence.Finite?
                     && distance.value > 0.0 && duration.value > 0.0 && cadence.value > 0.0)
  {
    var inputs := [distance, duration, cadence];
    assert inputs[0] == distance && inputs[1] == duration && inputs[2] == cadence;
    !(!ValidInputs(inputs) || !AllPositive(inputs))
  }

  /** The cycling branch: all three fields finite, but only distance and duration positive. */
  function CyclingAccepted(distance: JsNumber, duration: JsNumber, elevation: JsNumber): (ok: bool)
    ensures ok <==> (distance.Finite? && duration.Finite? && elevation.Finite?
                     && distance.value > 0.0 && duration.value > 0.0)
  {
    var inputs, positives := [distance, duration, elevation], [distance, duration];
    assert inputs[0] == distance && inputs[1] == duration && inputs[2] == elevation;
    assert positives[0] == distance && positives[1] == duration;
    !(!ValidInputs(inputs) || !AllPositive(positives))
  }

  /** The asymmetry: whatever running accepts, cycling accepts, and cycling also takes a non-positive elevation. */
  lemma CyclingLaxerThanRunning(distance: real, duration: real, metric: real)
    ensures RunningAccepted(Finite(distance), Finite(duration), Finite(metric))
            ==> CyclingAccepted(Finite(distance), Finite(duration), Finite(metric))
    ensures distance > 0.0 && duration > 0.0 && metric <= 0.0
            ==> CyclingAccepted(Finite(distance), Finite(duration), Finite(metric))
                && !RunningAccepted(Finite(distance), Finite(duration), Finite(metric))
  {
  }
}
