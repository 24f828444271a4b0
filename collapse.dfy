/**
 * The render-time collapsing of long post bodies in ThreadItem: a body over
 * the threshold shows its first 300 characters and an ellipsis until the
 * reader expands it. The post itself is never changed.
 */
module Collapse {
  import opened Wrappers

  const MaxTextLength: nat := 300
  const Ellipsis: string := "..."

  /** `thread.text.length > MAX_TEXT_LENGTH`. */
  predicate IsLongText(text: string)
  {
    |text| > MaxTextLength
  }

  /** `displayedText`: the collapsed form of a long body unless it is expanded, else the body itself. */
  function DisplayedText(text: string, isExpanded: bool): string
  {
    if IsLongText(text) && !isExpanded then text[..MaxTextLength] + Ellipsis else text
  }

  /** The Show More / Show Less button: present only for a long body, labelled by the expansion state. */
  function ToggleLabel(text: string, isExpanded: bool): (button: Option<string>)
    ensures button.Some? <==> IsLongText(text)
    ensures button.Some? ==> (button.value == "Show Less" <==> isExpanded)
  {
    if IsLongText(text) then Some(if isExpanded then "Show Less" else "Show More") else None
  }

  /** A body of at most 300 characters is shown unchanged, expanded or not. */
  lemma ShortTextUnchanged(text: string, isExpanded: bool)
    requires |text| <= MaxTextLength
    ensures DisplayedText(text, isExpanded) == text
  {
  }

  /** An expanded body is shown in full. */
  lemma ExpandedShowsAll(text: string)
    ensures DisplayedText(text, true) == text
  {
  }

  /** A collapsed long body is its first 300 characters followed by "...". */
  lemma LongTextCollapsed(text: string)
    requires |text| > MaxTextLength
    ensures |DisplayedText(text, false)| == MaxTextLength + 3
    ensures DisplayedText(text, false)[..MaxTextLength] == text[..MaxTextLength]
    ensures DisplayedText(text, false)[MaxTextLength..] == "..."
  {
  }

  /** The threshold is exclusive: 300 characters are never cut, a collapsed 301-character body is. */
  lemma ThresholdBoundary(at: string, over: string)
    requires |at| == MaxTextLength && |over| == MaxTextLength + 1
    ensures DisplayedText(at, false) == at
    ensures DisplayedText(over, false) != over
  {
    LongTextCollapsed(over);
  }

  /** One click on the toggle of a long body changes the body shown unless the body already ends its 300th character with "...". */
  lemma ToggleChangesDisplay(text: string)
    requires IsLongText(text)
    ensures DisplayedText(text, false) == DisplayedText(text, true) <==> text == text[..MaxTextLength] + Ellipsis
  {
  }
}
