/** The FAQ accordion (src/pages/Home/FAQSection.jsx): at most one answer
    open at a time, toggled by its question. */
module Faq {
  import opened Lists

  /** An answer renders iff its id is the open one. */
  predicate AnswerShown(open: Option<int>, id: int) {
    open == Some(id)
  }

  /** At most one answer shows, whatever the state. */
  lemma AtMostOneAnswer(open: Option<int>, a: int, b: int)
    requires AnswerShown(open, a) && AnswerShown(open, b)
    ensures a == b
  {
  }

  /** The card border: blue for the open item, purple for a hovered closed item. */
  datatype Border = OpenBorder | HoverBorder | PlainBorder

  function CardBorder(open: Option<int>, hovered: Option<int>, id: int): (r: Border)
    ensures r == OpenBorder <==> AnswerShown(open, id)
    ensures r == HoverBorder <==> !AnswerShown(open, id) && hovered == Some(id)
    ensures r == PlainBorder <==> open != Some(id) && hovered != Some(id)
  {
    if open == Some(id) then OpenBorder else if hovered == Some(id) then HoverBorder else PlainBorder
  }

  /** At most one card has the open border, whatever the state. */
  lemma OneOpenBorder(open: Option<int>, hovered: Option<int>, a: int, b: int)
    requires CardBorder(open, hovered, a) == OpenBorder && CardBorder(open, hovered, b) == OpenBorder
    ensures a == b
  {
  }

  /** The section's state: the open question and the hovered one. */
  class FaqSection {
    var openItem: Option<int>
    var hoveredItem: Option<int>

    constructor ()
      ensures openItem == None && hoveredItem == None
    {
      openItem := None;
      hoveredItem := None;
    }

    /** `toggleItem(id)`. */
    method ToggleItem(id: int)
      modifies this`openItem
      ensures openItem == ToggleSelected(old(openItem), id)
      ensures AnswerShown(openItem, id) <==> !AnswerShown(old(openItem), id)
    {
      openItem := ToggleSelected(openItem, id);
    }

    method MouseEnter(id: int)
      modifies this`hoveredItem
      ensures hoveredItem == Some(id)
    {
      hoveredItem := Some(id);
    }

    method MouseLeave()
      modifies this`hoveredItem
      ensures hoveredItem == None
    {
      hoveredItem := None;
    }
  }
}
