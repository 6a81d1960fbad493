/** The FAQ accordion: at most one answer is open at a time. */
module Faq {
  import opened Wrappers

  /** The number of questions in the `faqs` list. */
  const FaqCount: nat := 6

  /** `setOpenIndex(openIndex === index ? null : index)`. */
  function Toggle(open: Option<int>, index: int): (next: Option<int>)
    ensures next.None? <==> open == Some(index)
    ensures next.Some? ==> next == Some(index)
  {
    if open == Some(index) then None else Some(index)
  }

  /** Answer i is shown, and its chevron points up, exactly when it is the open one. */
  predicate Shown(open: Option<int>, i: int) {
    open == Some(i)
  }

  /** Toggling the same question twice restores a closed accordion, or the
      question itself when it was the open one. */
  lemma ToggleTwice(open: Option<int>, index: int)
    ensures Toggle(Toggle(open, index), index) == if open == Some(index) then open else None
  {
  }

  /** After a toggle of i no other answer is shown, and i is shown exactly
      when it was not shown before. */
  lemma ToggleShows(open: Option<int>, index: int, j: int)
    ensures Shown(Toggle(open, index), index) <==> !Shown(open, index)
    ensures j != index ==> !Shown(Toggle(open, index), j)
  {
  }

  class FaqList {
    var openIndex: Option<int>

    constructor()
      ensures openIndex == None
      ensures ShownAnswers() == {}
    {
      openIndex := None;
    }

    /** The answers currently displayed. */
    function ShownAnswers(): (shown: set<int>)
      reads this
      ensures forall i :: i in shown <==> 0 <= i < FaqCount && Shown(openIndex, i)
      ensures |shown| <= 1
    {
      if openIndex.Some? && 0 <= openIndex.value < FaqCount then {openIndex.value} else {}
    }

    /** `toggleFAQ(index)`. */
    method ToggleFaq(index: int)
      modifies this
      ensures openIndex == Toggle(old(openIndex), index)
      ensures 0 <= index < FaqCount ==>
        ShownAnswers() == if old(openIndex) == Some(index) then {} else {index}
    {
      openIndex := Toggle(openIndex, index);
    }
  }
}
