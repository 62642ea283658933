/**
 * The "how it works" steps: a single `activeStep`, set by a click on a step
 * card or on its progress dot. Unlike the FAQ there is no way to deselect.
 */
module HowItWorks {
  import opened Indicators

  datatype Step = Step(number: string, title: string)

  const Steps: seq<Step> := [
    Step("01", "We Design Your System"),
    Step("02", "Expert Installation"),
    Step("03", "Start Saving")
  ]

  class StepSelector {
    var activeStep: int

    ghost predicate Valid()
      reads this
    {
      0 <= activeStep < |Steps|
    }

    /** The first step starts active. */
    constructor ()
      ensures Valid() && activeStep == 0
    {
      activeStep := 0;
    }

    /**
     * A click on the card or the dot of step `index` (both handlers do the
     * same): that step becomes active whatever was active before, including
     * when it already was.
     */
    method SelectStep(index: int)
      requires Valid() && 0 <= index < |Steps|
      modifies this
      ensures Valid() && activeStep == index
    {
      activeStep := index;
    }

    /** The highlighted card is the one whose step number is the active step's. */
    predicate IsActive(index: int): (r: bool)
      reads this
      ensures Valid() ==> (r <==> 0 <= index < |Steps| && Steps[index].number == Steps[activeStep].number)
    {
      activeStep == index
    }

    /** Exactly one step card is highlighted. */
    function ActiveCount(): (c: nat)
      reads this
      requires Valid()
      ensures c == 1
      ensures exists index :: 0 <= index < |Steps| && IsActive(index)
      ensures forall i, j :: 0 <= i < |Steps| && 0 <= j < |Steps| && IsActive(i) && IsActive(j) ==> i == j
    {
      assert IsActive(activeStep);
      MarkedCount(activeStep, |Steps|)
    }
  }
}
