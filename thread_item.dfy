/**
 * The per-post state of one ThreadItem: whether its reply box is open, the
 * reply being typed, and whether its body is expanded.
 */
module ThreadItems {
  import opened Wrappers
  import opened JsText
  import opened Posts
  import opened Collapse
  import opened Submission

  class ThreadItem {
    const thread: Post
    var showReplyBox: bool
    var replyText: string
    var isExpanded: bool

    /** A freshly mounted item: reply box closed, no reply typed, body collapsed. */
    constructor (thread: Post)
      ensures this.thread == thread
      ensures !showReplyBox && replyText == "" && !isExpanded
    {
      this.thread := thread;
      showReplyBox := false;
      replyText := "";
      isExpanded := false;
    }

    /** The body shown for the post in the current expansion state. */
    function Displayed(): string
      reads this
    {
      DisplayedText(thread.text, isExpanded)
    }

    /** The toggle button, if any, in the current expansion state. */
    function Toggle(): Option<string>
      reads this
    {
      ToggleLabel(thread.text, isExpanded)
    }

    /** Show More / Show Less: the button exists only for a long body; a click flips the expansion state and nothing else. */
    method ToggleExpanded()
      requires IsLongText(thread.text)
      modifies this`isExpanded
      ensures isExpanded == !old(isExpanded)
      ensures Displayed() == DisplayedText(thread.text, !old(isExpanded))
    {
      isExpanded := !isExpanded;
    }

    /** The Reply button: opens or closes the reply box. */
    method ToggleReplyBox()
      modifies this`showReplyBox
      ensures showReplyBox == !old(showReplyBox)
    {
      showReplyBox := !showReplyBox;
    }

    /**
     * `handleReply`: a blank reply does nothing; otherwise the reply is handed
     * on as `{ text, parentId: thread._id }` and the box is emptied and closed.
     */
    method HandleReply() returns (submitted: Option<Draft>)
      modifies this`replyText, this`showReplyBox
      ensures IsBlank(old(replyText)) ==> submitted == None && replyText == old(replyText) && showReplyBox == old(showReplyBox)
      ensures !IsBlank(old(replyText)) ==> submitted == Some(Draft(None, old(replyText), Some(thread.id)))
      ensures !IsBlank(old(replyText)) ==> replyText == "" && !showReplyBox
    {
      BlankIffTrimEmpty(replyText);
      if Trim(replyText) == "" {
        return None;
      }
      submitted := Some(Draft(None, replyText, Some(thread.id)));
      replyText := "";
      showReplyBox := false;
    }
  }

  /** Show More followed by Show Less gives back the collapsed display of before. */
  method ExpandThenCollapse(item: ThreadItem)
    requires IsLongText(item.thread.text)
    modifies item
    ensures item.isExpanded == old(item.isExpanded)
    ensures item.Displayed() == old(item.Displayed())
    ensures item.replyText == old(item.replyText) && item.showReplyBox == old(item.showReplyBox)
  {
    item.ToggleExpanded();
    item.ToggleExpanded();
  }
}
