/**
 * The posts ("threads") the client receives from `GET /threads` and from
 * `new-thread` pushes, and the two filters the renderer applies to the
 * collection: the root filter of the App component and the reply filter
 * of ThreadItem.
 */
module Posts {
  import opened Wrappers

  /** The string form of a store-assigned ObjectId, as the client sees `_id`. */
  type Id = string

  /** One post as delivered in JSON; fields the client never reads are absent. */
  datatype Post = Post(
    id: Id,
    title: Option<string>,
    text: string,
    imageUrl: Option<string>,
    userName: Option<string>,
    parentId: Option<Id>,
    createdAt: string)

  /** JavaScript truthiness of an optional string: `null`, `undefined` and `""` are falsy. */
  predicate Truthy(s: Option<string>)
  {
    s.Some? && s.value != ""
  }

  /** `!t.parentId`: a post with a falsy parent reference starts a thread. */
  predicate IsRoot(p: Post)
  {
    !Truthy(p.parentId)
  }

  /** The two filter callbacks of the client. */
  datatype Query = RootPosts | RepliesTo(parent: Id)

  predicate Matches(q: Query, p: Post)
  {
    match q
    case RootPosts => IsRoot(p)
    case RepliesTo(parent) => p.parentId == Some(parent)
  }

  /** `posts.filter(...)`: the matching posts, in collection order. */
  function Select(posts: seq<Post>, q: Query): (r: seq<Post>)
  {
    if posts == [] then []
    else (if Matches(q, posts[0]) then [posts[0]] else []) + Select(posts[1..], q)
  }

  /** `threads.filter((t) => !t.parentId)`. */
  function Roots(posts: seq<Post>): seq<Post>
  {
    Select(posts, RootPosts)
  }

  /** `allThreads.filter((r) => r.parentId === id)` (strict equality, no coercion). */
  function Replies(posts: seq<Post>, id: Id): seq<Post>
  {
    Select(posts, RepliesTo(id))
  }

  /** The filter keeps exactly the matching posts of the collection. */
  lemma {:induction false} SelectMembership(posts: seq<Post>, q: Query, x: Post)
    ensures x in Select(posts, q) <==> x in posts && Matches(q, x)
  {
    if posts != [] {
      SelectMembership(posts[1..], q, x);
      assert posts == [posts[0]] + posts[1..];
    }
  }

  /** The filter keeps every copy of a matching post and no copy of another: nothing is added or de-duplicated. */
  lemma {:induction false} SelectCount(posts: seq<Post>, q: Query, x: Post)
    ensures multiset(Select(posts, q))[x] == if Matches(q, x) then multiset(posts)[x] else 0
  {
    if posts != [] {
      SelectCount(posts[1..], q, x);
      assert posts == [posts[0]] + posts[1..];
    }
  }

  /** The filter distributes over concatenation, so it keeps collection order. */
  lemma {:induction false} SelectAppend(a: seq<Post>, b: seq<Post>, q: Query)
    ensures Select(a + b, q) == Select(a, q) + Select(b, q)
  {
    if a == [] {
      assert a + b == b;
    } else {
      var head := if Matches(q, a[0]) then [a[0]] else [];
      assert (a + b)[0] == a[0] && (a + b)[1..] == a[1..] + b;
      assert Select(a + b, q) == head + Select(a[1..] + b, q);
      SelectAppend(a[1..], b, q);
      assert Select(a, q) == head + Select(a[1..], q);
    }
  }

  /** A post appended to the collection becomes the last root exactly when its parent reference is falsy. */
  lemma RootsAfterAppend(posts: seq<Post>, t: Post)
    ensures Roots(posts + [t]) == Roots(posts) + (if IsRoot(t) then [t] else [])
  {
    SelectAppend(posts, [t], RootPosts);
  }

  /** A post appended to the collection becomes the last reply of `id` exactly when its parent reference is `id`. */
  lemma RepliesAfterAppend(posts: seq<Post>, id: Id, t: Post)
    ensures Replies(posts + [t], id) == Replies(posts, id) + (if t.parentId == Some(id) then [t] else [])
  {
    SelectAppend(posts, [t], RepliesTo(id));
  }
}
