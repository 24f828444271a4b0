# Threadify client: thread tree, collapsing, post cache and composer guards

Threadify is a live, threaded message board. Its server stores posts
("threads") and pushes each new one to every connected browser as a
`new-thread` event. All decisions of the system sit in the client
component `client1/src/App.jsx`, and this project models that component:

- **Thread tree.** The App lists the root posts, those whose `parentId`
  is falsy. Each ThreadItem lists, below its post, the posts whose
  `parentId` is strictly equal to its `_id`, in collection order, and
  renders them recursively (modules `Posts`, `Tree`).
- **Collapsing.** A body longer than 300 characters shows its first 300
  characters and `...` until Show More is clicked. The post itself is
  never changed (`Collapse`, and `ThreadItems` for the per-item state).
- **Post cache.** The session's `threads` array is replaced by the initial
  fetch and extended by each `new-thread` push, with no de-duplication
  (`Session.App`).
- **Composer guards.** `addThread`, `handleReply` and `handleNameSubmit`
  decide, through `trim()`, whether anything is sent or saved, and which
  inputs they clear. `Avatar` shows the capitalised initial of a name
  (`Submission`, `ThreadItems`, `Session`, `Avatar`, `JsText`).

The pure parts are functions and lemmas. The `threads` state and the
composer and ThreadItem state are classes whose methods update their
fields.

ThreadItem recurses without a bound, so it never returns when a cycle of
parent references can be reached from a root. `Tree.BuildNode` therefore carries a depth budget, which
`Render` sets to the number of posts. `Tree.RenderComplete` shows that the
budget never hides a reply when the collection is well formed. Well formed
means that ids are non-empty and that two copies of one id carry the same
parent reference. Store-assigned ObjectIds are non-empty and unique, so a
fetched snapshot plus duplicate push echoes meets this.

Three behaviours of the code are modelled as written, though a reader
might expect otherwise:
- `new-thread` appends even when the id is already known.
- The root composer is cleared when the `fetch` promise resolves, which
  includes an HTTP 400 reply, not only on success.
- The client never checks a reply's parent.

Reading from and writing to local storage appear as values: the saved
name is a constructor parameter, and the name to save is what
`HandleNameSubmit` returns. How the `fetch` promise settles is a parameter
of `AddThread`.

## Model

| member | source | states |
|---|---|---|
| `Posts.SelectMembership` | client1/src/App.jsx:117 | a post is kept by a filter exactly when it is in the collection and matches the filter's condition |
| `Posts.SelectCount` | client1/src/App.jsx:303 | a filter keeps every copy of a matching post and no copy of any other post: nothing is added or merged |
| `Posts.SelectAppend` | client1/src/App.jsx:303 | filtering distributes over concatenation, so the kept posts stay in collection order |
| `Posts.RootsAfterAppend` | client1/src/App.jsx:251-253 | after a push, the root list is the old root list plus the pushed post at the end exactly when its parent reference is falsy |
| `Posts.RepliesAfterAppend` | client1/src/App.jsx:117 | after a push, a post's replies are the old ones plus the pushed post at the end exactly when the pushed post names that post's id as parent |
| `Tree.Render` | client1/src/App.jsx:422-430 | the top level of the view has one node per root post, in collection order |
| `Tree.BuildNodeLinked` | client1/src/App.jsx:207-215 | every reply node at any depth is a post of the collection whose parent reference equals its parent node's id |
| `Tree.OccursBelow` | client1/src/App.jsx:117 | a post rendered below a node is in the collection, and names that node or another post of the collection as its parent |
| `Tree.RenderedPostsInCollection` | client1/src/App.jsx:303 | every post rendered anywhere is an element of the collection, and it is a root or the reply of a post in the collection |
| `Tree.OrphanNotRendered` | client1/src/App.jsx:117 | a reply whose parent is not in the collection is rendered nowhere |
| `Tree.WellFormedIffSameParent` | client1/src/App.jsx:207-215 | the well-formedness the completeness proof assumes holds exactly when ids are non-empty and every copy of an id names the same parent |
| `Tree.ExtendAncestry` | client1/src/App.jsx:207-215 | on a well-formed collection, descending from a post to one of its replies never revisits an id on the path from the root |
| `Tree.ChainBound` | client1/src/App.jsx:207-215 | such a path is never longer than the collection, so the depth budget of Render suffices |
| `Tree.BuildNodeComplete` | client1/src/App.jsx:207-215 | along any such path, the node built with the remaining budget lists exactly the replies of its post in collection order, at every depth below it |
| `Tree.RenderComplete` | client1/src/App.jsx:117 | on a well-formed collection, every rendered node's children are exactly the posts whose `parentId` equals its id, in collection order, at every depth |
| `Collapse.ShortTextUnchanged` | client1/src/App.jsx:119-122 | a body of at most 300 characters is shown unchanged whether or not it is expanded |
| `Collapse.ExpandedShowsAll` | client1/src/App.jsx:119-122 | an expanded body is shown in full |
| `Collapse.LongTextCollapsed` | client1/src/App.jsx:107-108 | a collapsed body over 300 characters shows as 303 characters: its first 300, then `...` |
| `Collapse.ThresholdBoundary` | client1/src/App.jsx:108 | the threshold is exclusive: 300 characters are never cut, and a collapsed 301-character body is cut |
| `Collapse.ToggleLabel` | client1/src/App.jsx:153-160 | the toggle exists exactly for long bodies and reads "Show Less" exactly when expanded |
| `Collapse.ToggleChangesDisplay` | client1/src/App.jsx:119-122 | one click changes the body shown unless the long body already reads as its own collapsed form |
| `ThreadItems.ThreadItem.constructor` | client1/src/App.jsx:103-105 | on mount the reply box is closed, the reply is empty and the body is collapsed |
| `ThreadItems.ThreadItem.ToggleExpanded` | client1/src/App.jsx:153-156 | the Show More / Show Less click, possible only for a long body, flips the expansion state and changes nothing else, the post included |
| `ThreadItems.ThreadItem.ToggleReplyBox` | client1/src/App.jsx:164 | the Reply click opens or closes the reply box |
| `ThreadItems.ThreadItem.HandleReply` | client1/src/App.jsx:110-115 | a blank reply hands nothing on and changes nothing; any other reply is handed on as text plus the post's id with no title, then the box is emptied and closed |
| `ThreadItems.ExpandThenCollapse` | client1/src/App.jsx:153-160 | two clicks on the toggle restore the display and leave the reply state alone |
| `JsText.TrimStart` | client1/src/App.jsx:279 | what is left after the whitespace prefix is a suffix of the input that does not start with whitespace, and all that was dropped is whitespace |
| `JsText.TrimEnd` | client1/src/App.jsx:279 | what is left after the whitespace suffix is a prefix of the input that does not end with whitespace, and all that was dropped is whitespace |
| `JsText.Trim` | client1/src/App.jsx:263 | `trim()` yields the slice between the whitespace prefix and the whitespace suffix; it neither starts nor ends with whitespace |
| `JsText.BlankIffTrimEmpty` | client1/src/App.jsx:111 | `!s.trim()` holds exactly when every character of `s` is whitespace |
| `JsText.ToUpper` | client1/src/App.jsx:82 | an ASCII lower-case letter becomes its upper-case letter and every other character is kept |
| `Avatar.AvatarFace` | client1/src/App.jsx:82-83 | the icon is shown exactly for a falsy name; otherwise the upper-cased first character |
| `Avatar.JoinedNameShowsInitial` | client1/src/App.jsx:260-268 | a name accepted by the join form always shows a visible initial, never the icon and never a blank |
| `Submission.Admits` | client1/src/App.jsx:279 | a draft is sent only with a non-blank text; a reply needs no title; a root draft also needs a present, non-blank title |
| `Submission.PostButtonAgreesWithGuard` | client1/src/App.jsx:401-403 | the Post Thread button is enabled exactly when `addThread` would send the root draft it submits |
| `Session.App.constructor` | client1/src/App.jsx:227-243 | the session starts with an empty cache and empty composer, and is named exactly when a truthy name was saved |
| `Session.App.ReplaceThreads` | client1/src/App.jsx:248 | the fetched collection replaces the cache wholesale |
| `Session.App.AppendThread` | client1/src/App.jsx:251-253 | a push adds one post at the end with earlier posts untouched and duplicates kept, and becomes the last root or the last reply of its parent |
| `Session.App.HandleNameSubmit` | client1/src/App.jsx:260-268 | a blank name changes nothing and saves nothing; any other name is saved and set trimmed, and is non-empty with no whitespace at either end |
| `Session.App.AddThread` | client1/src/App.jsx:278-301 | a rejected draft sends nothing and changes nothing; an admitted one sends the draft with the image preview and user name; the root composer is cleared only for a root draft whose request resolved |
| `Session.App.PostThread` | client1/src/App.jsx:401 | Post Thread sends the title and text only when both are non-blank, and clears the composer once the request resolves |
| `Session.App.SubmitReply` | client1/src/App.jsx:112 | a non-blank reply to a post goes out with that post's id as parent and no title, and never clears the root composer |

## Left out

- `server/index.js` is not part of this model. It is Express, Mongoose and Socket.IO wiring: id and `createdAt` assignment, storage order, save-then-emit. It has no text validation of its own.
- Network I/O is left out: the two `fetch` calls, JSON decoding and HTTP status. `AddThread` takes the way the promise settles as a parameter.
- The socket connection, `socket.off` teardown and the `./socket` module are left out.
- Local storage is read and written only as values, as described above.
- `handleImageChange`, file inputs and `URL.createObjectURL` are left out. The image preview is a plain string field.
- Date formatting, the "Anonymous" fallback, the title and image display, icons, CSS classes and markup are left out.
- React scheduling is left out: every state setter is an atomic assignment. `addThread` runs from guard to settlement in one step, so a composer edit made while the request is in flight cannot be modelled. In the source, such an edit is wiped by the clearing.
- The text boxes' `onChange` handlers are plain assignments to the public fields `newTitle`, `newText`, `nameInput` and `replyText`.
- Tree.Render: recursion depth is bounded by the number of posts. On some collections that are not well formed the source recurses forever: those with a cycle of parent references reachable from a root, which needs an empty id or one id with two parents. There the model cuts the tree off at depth |posts|. `Tree.RenderComplete` covers only well-formed collections.
- JsText.ToUpper: maps only ASCII letters. JavaScript's full Unicode case mapping, which can also turn one character into several, is not modelled.
- Collapse.DisplayedText: lengths and the 300-character cut count Unicode scalar values. JavaScript counts UTF-16 code units, so a character outside the Basic Multilingual Plane counts twice there and may be split by `substring`.
- Avatar.AvatarFace: the initial is the first Unicode scalar value of the name. `charAt(0)` takes one UTF-16 code unit, so for a name starting outside the Basic Multilingual Plane (an emoji, say) the source shows a lone surrogate where the model shows the whole character.
- The App shows the composer and the thread view only once `isNameSet` holds; before that it shows the join form alone. The model does not track which screen is shown, so `PostThread`, `SubmitReply` and the ThreadItem methods can run in any session state.
- The `console.error` logging in the two catch blocks (after the initial fetch and in `addThread`) is dropped.
- A post without a `text` field makes the source throw at `thread.text.length`. The model gives every post a text.
