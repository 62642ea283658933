/**
 * The FAQ accordion: a single `openIndex`, either a question's position or
 * null, overwritten by a click on a question.
 */
module Faq {
  import opened Wrappers
  import opened Indicators

  /** The number of questions listed. */
  const QuestionCount: nat := 6

  /** `toggleFaq(index)`: clicking the open question closes it, any other question opens alone. */
  function Toggled(open: Option<int>, index: int): (r: Option<int>)
    ensures r == None <==> open == Some(index)
    ensures r != None ==> r == Some(index)
  {
    if open == Some(index) then None else Some(index)
  }

  /** How many questions render open (`isOpen` is equality with the one stored index). */
  function OpenCount(open: Option<int>): (c: nat)
    ensures c <= 1
    ensures c == 1 <==> open.Some? && 0 <= open.value < QuestionCount
  {
    match open
    case None => 0
    case Some(k) =>
      MarkedCount(k, QuestionCount)
  }

  /** Clicking a closed question twice opens it and then closes everything. */
  lemma ToggleTwiceCloses(open: Option<int>, index: int)
    requires open != Some(index)
    ensures Toggled(open, index) == Some(index)
    ensures Toggled(Toggled(open, index), index) == None
  {
  }

  /** A click never opens a question other than the one clicked. */
  lemma ToggleOpensOnlyClicked(open: Option<int>, index: int, other: int)
    requires other != index
    ensures Toggled(open, index) != Some(other)
  {
  }

  class Accordion {
    var openIndex: Option<int>

    ghost predicate Valid()
      reads this
    {
      openIndex.Some? ==> 0 <= openIndex.value < QuestionCount
    }

    /** The first question starts open. */
    constructor ()
      ensures Valid() && openIndex == Some(0)
    {
      openIndex := Some(0);
    }

    /** A click on the question at `index`, one of the listed positions. */
    method ToggleFaq(index: int)
      requires Valid() && 0 <= index < QuestionCount
      modifies this
      ensures Valid() && openIndex == Toggled(old(openIndex), index)
    {
      openIndex := if openIndex == Some(index) then None else Some(index);
    }

    /** A question renders open exactly when a click on it would close everything. */
    predicate IsOpen(index: int): (r: bool)
      reads this
      ensures r <==> Toggled(openIndex, index) == None
    {
      openIndex == Some(index)
    }

    /** At most one question is open at any time. */
    function OpenItems(): (c: nat)
      reads this
      ensures c <= 1
      ensures c == 0 <==> forall i :: 0 <= i < QuestionCount ==> !IsOpen(i)
    {
      var c := OpenCount(openIndex);
      assert c == 1 ==> IsOpen(openIndex.value);
      c
    }
  }
}
