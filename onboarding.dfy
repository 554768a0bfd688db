/**
 * The multi-step onboarding form: "Back" and "Next" move between steps,
 * and "Next" only acts once the inputs of the step on screen are valid.
 * The browser's validity check is an input to the model.
 */
module Onboarding {

  /** What a click on "Next" did. */
  datatype NextOutcome =
    | Rejected   // an input of the step on screen is invalid; an error is shown
    | Moved      // went on to the next step
    | Completed  // the last step was valid; the redirect is scheduled

  /** The state the onboarding handlers share. */
  class Wizard {
    const stepCount: nat
    var currentStep: nat

    /**
     * The step on screen is one of the form's steps; a form without steps
     * stays at step 0.
     */
    ghost predicate Valid()
      reads this
    {
      currentStep < stepCount || currentStep == 0
    }

    /** `currentStep = 0` over a form with `stepCount` steps. */
    constructor(stepCount: nat)
      ensures Valid()
      ensures this.stepCount == stepCount && currentStep == 0
    {
      this.stepCount := stepCount;
      currentStep := 0;
    }

    /** "Back": one step back unless on the first step. */
    method Back()
      requires Valid()
      modifies this
      ensures Valid()
      ensures currentStep == if old(currentStep) > 0 then old(currentStep) - 1 else old(currentStep)
    {
      if currentStep > 0 {
        currentStep := currentStep - 1;
      }
    }

    /**
     * "Next": `stepIsValid` is the outcome of the browser's check of the
     * step's inputs. An invalid step stays; a valid one moves on unless it
     * is the last, which completes the form and stays on screen. With no
     * steps at all, `currentStep < steps.length - 1` is `0 < -1`, so a
     * valid click completes at once.
     */
    method Next(stepIsValid: bool) returns (outcome: NextOutcome)
      requires Valid()
      modifies this
      ensures Valid()
      ensures !stepIsValid ==> outcome == Rejected && currentStep == old(currentStep)
      ensures stepIsValid && old(currentStep) < stepCount - 1 ==>
        outcome == Moved && currentStep == old(currentStep) + 1
      ensures stepIsValid && old(currentStep) >= stepCount - 1 ==>
        outcome == Completed && currentStep == old(currentStep)
    {
      if !stepIsValid {
        return Rejected;
      }
      if currentStep + 1 < stepCount {
        currentStep := currentStep + 1;
        return Moved;
      }
      outcome := Completed;
    }
  }
}
