/**
 * The App component's state for one client session: the post cache that
 * the initial fetch seeds and `new-thread` pushes extend, the root
 * composer, and the user name.
 */
module Session {
  import opened Wrappers
  import opened JsText
  import opened Posts
  import opened Tree
  import opened Submission
  import opened ThreadItems

  /** How the awaited `fetch` promise settles: resolved (whatever the HTTP status) or rejected. */
  datatype Settlement = Resolved | Rejected

  /** A file chosen in the image input. */
  datatype ImageFile = ImageFile(name: string)

  class App {
    var threads: seq<Post>
    var newTitle: string
    var newText: string
    var newImage: Option<ImageFile>
    var imagePreview: string
    var userName: string
    var nameInput: string
    var isNameSet: bool

    /** The initial state plus the mount effect's reading of the saved name (taken as a parameter). */
    constructor (savedName: Option<string>)
      ensures threads == [] && newTitle == "" && newText == "" && newImage == None && imagePreview == ""
      ensures nameInput == ""
      ensures Truthy(savedName) ==> userName == savedName.value && isNameSet
      ensures !Truthy(savedName) ==> userName == "" && !isNameSet
    {
      threads := [];
      newTitle, newText, newImage, imagePreview := "", "", None, "";
      nameInput := "";
      if Truthy(savedName) {
        userName, isNameSet := savedName.value, true;
      } else {
        userName, isNameSet := "", false;
      }
    }

    /** The posts listed at the top level. */
    function RootThreads(): seq<Post>
      reads this
    {
      Roots(threads)
    }

    /** The whole rendered forest. */
    function View(): seq<Node>
      reads this
    {
      Render(threads)
    }

    /** `.then(setThreads)`: the fetched collection replaces the cache wholesale. */
    method ReplaceThreads(fetched: seq<Post>)
      modifies this`threads
      ensures threads == fetched
    {
      threads := fetched;
    }

    /**
     * `setThreads((prev) => [...prev, thread])`: one more post at the end,
     * earlier posts untouched, no de-duplication; a root post becomes the last
     * root, a reply the last reply of its parent.
     */
    method AppendThread(thread: Post)
      modifies this`threads
      ensures threads == old(threads) + [thread]
      ensures |threads| == |old(threads)| + 1
      ensures multiset(threads)[thread] == multiset(old(threads))[thread] + 1
      ensures RootThreads() == old(RootThreads()) + (if IsRoot(thread) then [thread] else [])
      ensures forall id :: Replies(threads, id) == Replies(old(threads), id) + (if thread.parentId == Some(id) then [thread] else [])
    {
      RootsAfterAppend(threads, thread);
      forall id
        ensures Replies(threads + [thread], id) == Replies(threads, id) + (if thread.parentId == Some(id) then [thread] else [])
      {
        RepliesAfterAppend(threads, id, thread);
      }
      threads := threads + [thread];
    }

    /** `handleNameSubmit`: a non-blank name is trimmed, saved and set; a blank one changes nothing. */
    method HandleNameSubmit() returns (saved: Option<string>)
      modifies this`userName, this`isNameSet
      ensures IsBlank(nameInput) ==> saved == None && userName == old(userName) && isNameSet == old(isNameSet)
      ensures !IsBlank(nameInput) ==> saved == Some(Trim(nameInput)) && userName == Trim(nameInput) && isNameSet
      ensures !IsBlank(nameInput) ==> userName != "" && !IsWhite(userName[0]) && !IsWhite(userName[|userName| - 1])
    {
      BlankIffTrimEmpty(nameInput);
      saved := None;
      if Trim(nameInput) != "" {
        var finalName := Trim(nameInput);
        saved := Some(finalName);
        userName := finalName;
        isNameSet := true;
      }
    }

    /**
     * `addThread`: a draft the guard rejects sends nothing and changes
     * nothing. Otherwise the request carries the draft, the current image
     * preview and the user name; once the request settles as resolved, a
     * root draft clears the root composer; a reply, or a rejected request,
     * leaves it as it was.
     */
    method AddThread(d: Draft, settles: Settlement) returns (sent: Option<Request>)
      modifies this`newTitle, this`newText, this`newImage, this`imagePreview
      ensures !Admits(d) ==> sent == None
      ensures Admits(d) ==> sent == Some(Request(d.title, d.text, d.parentId, old(imagePreview), userName))
      ensures Admits(d) && settles == Resolved && !Truthy(d.parentId) ==>
        newTitle == "" && newText == "" && newImage == None && imagePreview == ""
      ensures !(Admits(d) && settles == Resolved && !Truthy(d.parentId)) ==>
        newTitle == old(newTitle) && newText == old(newText) && newImage == old(newImage) && imagePreview == old(imagePreview)
    {
      sent := None;
      if Admits(d) {
        var imageUrl := imagePreview;
        sent := Some(Request(d.title, d.text, d.parentId, imageUrl, userName));
        if settles == Resolved && !Truthy(d.parentId) {
          ClearComposer();
        }
      }
    }

    /** The four setters that empty the root composer after a root post. */
    method ClearComposer()
      modifies this`newTitle, this`newText, this`newImage, this`imagePreview
      ensures newTitle == "" && newText == "" && newImage == None && imagePreview == ""
    {
      newTitle, newText, newImage, imagePreview := "", "", None, "";
    }

    /** The Post Thread button: `addThread({ title: newTitle, text: newText })`. */
    method PostThread(settles: Settlement) returns (sent: Option<Request>)
      modifies this`newTitle, this`newText, this`newImage, this`imagePreview
      ensures (IsBlank(old(newTitle)) || IsBlank(old(newText))) ==> sent == None
      ensures !IsBlank(old(newTitle)) && !IsBlank(old(newText)) ==>
        sent == Some(Request(Some(old(newTitle)), old(newText), None, old(imagePreview), userName))
      ensures !IsBlank(old(newTitle)) && !IsBlank(old(newText)) && settles == Resolved ==>
        newTitle == "" && newText == "" && newImage == None && imagePreview == ""
      ensures !(!IsBlank(old(newTitle)) && !IsBlank(old(newText)) && settles == Resolved) ==>
        newTitle == old(newTitle) && newText == old(newText) && newImage == old(newImage) && imagePreview == old(imagePreview)
    {
      sent := AddThread(Draft(Some(newTitle), newText, None), settles);
    }

    /**
     * Send Reply on `item`, whose `onReply` is this session's `addThread`: a
     * non-blank reply goes out with the post's id as `parentId` and no title,
     * and the root composer is never cleared by it. (Were the id empty, the
     * guard would call `trim()` on the missing title and throw: nothing is sent.)
     * The reply box is emptied and closed for every non-blank reply, because
     * `handleReply` does not wait for `addThread`.
     */
    method SubmitReply(item: ThreadItem, settles: Settlement) returns (sent: Option<Request>)
      modifies item`replyText, item`showReplyBox, this`newTitle, this`newText, this`newImage, this`imagePreview
      ensures IsBlank(old(item.replyText)) || item.thread.id == "" ==> sent == None
      ensures !IsBlank(old(item.replyText)) && item.thread.id != "" ==>
        sent == Some(Request(None, old(item.replyText), Some(item.thread.id), old(imagePreview), userName))
      ensures IsBlank(old(item.replyText)) ==> item.replyText == old(item.replyText) && item.showReplyBox == old(item.showReplyBox)
      ensures !IsBlank(old(item.replyText)) ==> item.replyText == "" && !item.showReplyBox
      ensures newTitle == old(newTitle) && newText == old(newText) && newImage == old(newImage) && imagePreview == old(imagePreview)
    {
      var draft := item.HandleReply();
      sent := None;
      if draft.Some? {
        sent := AddThread(draft.value, settles);
      }
    }
  }
}
