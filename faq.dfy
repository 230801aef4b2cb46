/** The FAQ accordion: eight questions, at most one of them open, the first one
    open on arrival, and a click on a question opening it or closing it. */
module FAQ {
  import opened Wrappers

  /** The questions, in page order (their answers are display text only). */
  const Questions := [
    "What's the typical turnaround time?",
    "How many revisions are included?",
    "What do I own after the ad is delivered?",
    "What assets do you need from me?",
    "Which platforms do you optimize for?",
    "What if I'm not satisfied with the result?",
    "Can you handle ongoing ad creation?",
    "Do you provide A/B testing variations?"]

  /** The number of questions on the page. */
  const QuestionCount: nat := |Questions|

  /** `toggleFAQ`: clicking the open question closes every question; clicking
      any other opens that one alone. */
  function Toggled(openIndex: Option<nat>, index: nat): (r: Option<nat>)
    ensures r == None <==> openIndex == Some(index)
    ensures r != None ==> r == Some(index)
  {
    if openIndex == Some(index) then None else Some(index)
  }

  /** The accordion's state. */
  class Accordion {
    var openIndex: Option<nat>

    /** The open index, if any, names one of the questions. */
    ghost predicate Valid()
      reads this
    {
      openIndex.Some? ==> openIndex.value < QuestionCount
    }

    /** The first question starts open. */
    constructor ()
      ensures Valid() && openIndex == Some(0) && QuestionCount == 8
    {
      openIndex := Some(0);
    }

    /** A click on question `index`. */
    method Toggle(index: nat)
      requires Valid() && index < QuestionCount
      modifies this
      ensures Valid()
      ensures openIndex == Toggled(old(openIndex), index)
    {
      if openIndex == Some(index) {
        openIndex := None;
      } else {
        openIndex := Some(index);
      }
    }

    /** Whether question `index` shows its answer and a turned chevron. */
    predicate IsOpen(index: nat)
      reads this
    {
      openIndex == Some(index)
    }
  }

  /** At most one question is open at a time. This holds by the representation:
      the component keeps a single optional index, which cannot name two
      questions. */
  lemma AtMostOneOpen(a: Accordion, i: nat, j: nat)
    requires a.IsOpen(i) && a.IsOpen(j)
    ensures i == j
  {
  }

  /** After a click, the clicked question is open exactly when it was closed
      before, and every other question is closed. */
  lemma ToggleOpensOrCloses(openIndex: Option<nat>, index: nat, other: nat)
    requires other != index
    ensures Toggled(openIndex, index) == Some(index) <==> openIndex != Some(index)
    ensures Toggled(openIndex, index) != Some(other)
  {
  }

  /** Two clicks on the same question restore the state exactly when that
      question was open or nothing was; when another question was open, it is
      left closed. */
  lemma ToggleTwice(openIndex: Option<nat>, index: nat)
    ensures Toggled(Toggled(openIndex, index), index) == openIndex
      <==> openIndex == None || openIndex == Some(index)
    ensures openIndex.Some? && openIndex.value != index ==> Toggled(Toggled(openIndex, index), index) == None
  {
  }
}
