/**
 * What a composer hands to `addThread`, the guard that decides whether it
 * is sent, and the body of the `POST /threads` request that results.
 */
module Submission {
  import opened Wrappers
  import opened JsText
  import opened Posts

  /** The `{ title, text, parentId }` argument of `addThread`; the reply composer passes no title. */
  datatype Draft = Draft(title: Option<string>, text: string, parentId: Option<Id>)

  /** The JSON body `{ title, text, parentId, imageUrl, userName }`. */
  datatype Request = Request(
    title: Option<string>,
    text: string,
    parentId: Option<Id>,
    imageUrl: string,
    userName: string)

  /**
   * `!text.trim() || (!parentId && !title.trim())` rejects the draft. With a
   * falsy `parentId` and no title at all, `title.trim()` throws before any
   * request is made, so such a draft is not sent either.
   */
  function Admits(d: Draft): (send: bool)
    ensures send ==> !IsBlank(d.text)
    ensures Truthy(d.parentId) ==> (send <==> !IsBlank(d.text))
    ensures !Truthy(d.parentId) ==> (send <==> !IsBlank(d.text) && d.title.Some? && !IsBlank(d.title.value))
  {
    BlankIffTrimEmpty(d.text);
    if d.title.Some? then BlankIffTrimEmpty(d.title.value); GuardPasses(d) else GuardPasses(d)
  }

  /** The guard as written, on `trim()`. */
  function GuardPasses(d: Draft): bool
  {
    Trim(d.text) != "" && (Truthy(d.parentId) || (d.title.Some? && Trim(d.title.value) != ""))
  }

  /** The root composer's Post Thread button (`disabled={!newText.trim() || !newTitle.trim()}`) is enabled exactly when `addThread` would send its draft. */
  lemma PostButtonAgreesWithGuard(title: string, text: string)
    ensures (Trim(text) != "" && Trim(title) != "") <==> Admits(Draft(Some(title), text, None))
  {
    BlankIffTrimEmpty(title);
    BlankIffTrimEmpty(text);
  }
}
