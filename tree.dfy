/**
 * The nested view that the App and ThreadItem components render: one node
 * per root post, and under every node a node per direct reply, recursively.
 *
 * ThreadItem recurses with no bound. Here the recursion carries a depth
 * budget (`fuel`), which Render sets to the size of the collection; the
 * lemmas below show that on a well-formed collection the budget is never
 * the reason a reply is missing.
 */
module Tree {
  import opened Wrappers
  import opened Posts

  /** A rendered ThreadItem: its post and the ThreadItems of its replies, in order. */
  datatype Node = Node(post: Post, replies: seq<Node>)

  /** ThreadItem for `p`, with at most `fuel` further levels of replies. */
  function BuildNode(posts: seq<Post>, p: Post, fuel: nat): Node
    decreases fuel
  {
    var rs := Replies(posts, p.id);
    Node(p, if fuel == 0 then []
            else seq(|rs|, k requires 0 <= k < |rs| => BuildNode(posts, rs[k], fuel - 1)))
  }

  /** `rootThreads.map((t) => <ThreadItem thread={t} allThreads={threads} .../>)`. */
  function Render(posts: seq<Post>): (forest: seq<Node>)
    ensures |forest| == |Roots(posts)|
    ensures forall k :: 0 <= k < |forest| ==> forest[k].post == Roots(posts)[k]
  {
    var roots := Roots(posts);
    seq(|roots|, k requires 0 <= k < |roots| => BuildNode(posts, roots[k], |posts|))
  }

  /** Every child of a node (at any depth) is a post of the collection whose parent reference is its parent's id. */
  ghost predicate Linked(n: Node, posts: seq<Post>)
    decreases n
  {
    forall k :: 0 <= k < |n.replies| ==>
      && n.replies[k].post in posts
      && n.replies[k].post.parentId == Some(n.post.id)
      && Linked(n.replies[k], posts)
  }

  /** `q` is rendered somewhere in the subtree `n`. */
  ghost predicate Occurs(q: Post, n: Node)
    decreases n
  {
    n.post == q || exists k :: 0 <= k < |n.replies| && Occurs(q, n.replies[k])
  }

  /** `q`'s parent reference names a post of the collection. */
  ghost predicate HasParentIn(q: Post, posts: seq<Post>)
  {
    exists r :: r in posts && q.parentId == Some(r.id)
  }

  /** At every depth, the children of a node are exactly the replies filter of its post, in collection order. */
  ghost predicate Complete(n: Node, posts: seq<Post>)
    decreases n
  {
    var rs := Replies(posts, n.post.id);
    && |n.replies| == |rs|
    && forall k :: 0 <= k < |rs| ==> n.replies[k].post == rs[k] && Complete(n.replies[k], posts)
  }

  /** The ids present in the collection. */
  ghost function Ids(posts: seq<Post>): set<Id>
  {
    set p | p in posts :: p.id
  }

  /** The parent reference of the first post with id `id`; `None` when there is none. */
  function ParentOf(posts: seq<Post>, id: Id): Option<Id>
  {
    if posts == [] then None
    else if posts[0].id == id then posts[0].parentId
    else ParentOf(posts[1..], id)
  }

  /**
   * What the store guarantees of any snapshot the client holds, duplicate
   * echoes included: ids are non-empty ObjectId strings, and every copy of
   * an id carries the same parent reference as its first copy.
   */
  ghost predicate WellFormed(posts: seq<Post>)
  {
    forall p :: p in posts ==> p.id != "" && p.parentId == ParentOf(posts, p.id)
  }

  /** `ParentOf` is the parent reference of some post of the collection carrying that id. */
  lemma {:induction false} FirstWithId(posts: seq<Post>, q: Post) returns (first: Post)
    requires q in posts
    ensures first in posts && first.id == q.id && first.parentId == ParentOf(posts, q.id)
  {
    if posts[0].id == q.id {
      first := posts[0];
    } else {
      assert q in posts[1..];
      first := FirstWithId(posts[1..], q);
    }
  }

  /** Well-formedness says exactly: ids are non-empty, and two copies of one id carry the same parent reference. */
  lemma WellFormedIffSameParent(posts: seq<Post>)
    ensures WellFormed(posts) <==>
      && (forall p :: p in posts ==> p.id != "")
      && (forall p, p' :: p in posts && p' in posts && p.id == p'.id ==> p.parentId == p'.parentId)
  {
    if (forall p, p' :: p in posts && p' in posts && p.id == p'.id ==> p.parentId == p'.parentId) {
      forall p | p in posts
        ensures p.parentId == ParentOf(posts, p.id)
      {
        var first := FirstWithId(posts, p);
      }
    }
  }

  /**
   * `chain` is the path of ids from a root post down to a post: distinct ids
   * of the collection, the first one a root, each later one a reply to the
   * one before it.
   */
  ghost predicate Ancestry(posts: seq<Post>, chain: seq<Id>)
  {
    && |chain| > 0
    && (forall i :: 0 <= i < |chain| ==> chain[i] in Ids(posts))
    && (forall i, j :: 0 <= i < j < |chain| ==> chain[i] != chain[j])
    && !Truthy(ParentOf(posts, chain[0]))
    && (forall i :: 0 < i < |chain| ==> ParentOf(posts, chain[i]) == Some(chain[i - 1]))
  }

  /** The building of a node only ever places a reply under the post it names as parent. */
  lemma {:induction false} BuildNodeLinked(posts: seq<Post>, p: Post, fuel: nat)
    ensures Linked(BuildNode(posts, p, fuel), posts)
    decreases fuel, 1
  {
    var n := BuildNode(posts, p, fuel);
    forall k | 0 <= k < |n.replies|
      ensures n.replies[k].post in posts
      ensures n.replies[k].post.parentId == Some(n.post.id)
      ensures Linked(n.replies[k], posts)
    {
      ChildLinked(posts, p, fuel, k);
    }
  }

  /** The `k`-th child built for `p` is a linked node for a post of the collection that names `p` as parent. */
  lemma {:induction false} ChildLinked(posts: seq<Post>, p: Post, fuel: nat, k: nat)
    requires k < |BuildNode(posts, p, fuel).replies|
    ensures BuildNode(posts, p, fuel).replies[k].post in posts
    ensures BuildNode(posts, p, fuel).replies[k].post.parentId == Some(p.id)
    ensures Linked(BuildNode(posts, p, fuel).replies[k], posts)
    decreases fuel, 0
  {
    var rs := Replies(posts, p.id);
    var y := rs[k];
    assert BuildNode(posts, p, fuel).replies[k] == BuildNode(posts, y, fuel - 1);
    assert y in rs;
    SelectMembership(posts, RepliesTo(p.id), y);
    BuildNodeLinked(posts, y, fuel - 1);
  }

  /** A post rendered strictly below a linked node is in the collection and its parent is in the collection or is that node. */
  lemma {:induction false} OccursBelow(n: Node, posts: seq<Post>, q: Post)
    requires Linked(n, posts) && Occurs(q, n) && q != n.post
    ensures q in posts
    ensures q.parentId == Some(n.post.id) || HasParentIn(q, posts)
    decreases n
  {
    var k :| 0 <= k < |n.replies| && Occurs(q, n.replies[k]);
    var c := n.replies[k];
    if c.post != q {
      OccursBelow(c, posts, q);
      if q.parentId == Some(c.post.id) {
        assert c.post in posts;
      }
    }
  }

  /**
   * Every post rendered anywhere is an element of the collection, and is
   * either a root or a reply whose parent is in the collection.
   */
  lemma RenderedPostsInCollection(posts: seq<Post>, k: nat, q: Post)
    requires k < |Render(posts)| && Occurs(q, Render(posts)[k])
    ensures q in posts
    ensures IsRoot(q) || HasParentIn(q, posts)
  {
    var n := Render(posts)[k];
    var r := Roots(posts)[k];
    assert r in Roots(posts);
    SelectMembership(posts, RootPosts, r);
    BuildNodeLinked(posts, r, |posts|);
    if q != n.post {
      OccursBelow(n, posts, q);
    }
  }

  /** A reply whose parent is not in the collection is rendered nowhere. */
  lemma OrphanNotRendered(posts: seq<Post>, q: Post)
    requires !IsRoot(q) && !HasParentIn(q, posts)
    ensures forall k :: 0 <= k < |Render(posts)| ==> !Occurs(q, Render(posts)[k])
  {
    forall k | 0 <= k < |Render(posts)|
      ensures !Occurs(q, Render(posts)[k])
    {
      if Occurs(q, Render(posts)[k]) {
        RenderedPostsInCollection(posts, k, q);
      }
    }
  }

  lemma {:induction false} DistinctCard(s: seq<Id>)
    requires forall i, j :: 0 <= i < j < |s| ==> s[i] != s[j]
    ensures |set i | 0 <= i < |s| :: s[i]| == |s|
  {
    if s != [] {
      var tail := s[1..];
      DistinctCard(tail);
      var all := set i | 0 <= i < |s| :: s[i];
      var rest := set i | 0 <= i < |tail| :: tail[i];
      assert all == {s[0]} + rest by {
        forall x | x in all ensures x in {s[0]} + rest {
          var i :| 0 <= i < |s| && s[i] == x;
          if i > 0 {
            assert tail[i - 1] == x;
          }
        }
        forall x | x in rest ensures x in all {
          var i :| 0 <= i < |tail| && tail[i] == x;
          assert s[i + 1] == x;
        }
      }
      assert s[0] !in rest;
    }
  }

  lemma {:induction false} IdsCard(posts: seq<Post>)
    ensures |Ids(posts)| <= |posts|
  {
    if posts != [] {
      IdsCard(posts[1..]);
      assert Ids(posts) == {posts[0].id} + Ids(posts[1..]) by {
        assert posts == [posts[0]] + posts[1..];
      }
    }
  }

  /** A path of distinct ids from the collection is no longer than the collection. */
  lemma ChainBound(posts: seq<Post>, chain: seq<Id>)
    requires Ancestry(posts, chain)
    ensures |chain| <= |posts|
  {
    DistinctCard(chain);
    IdsCard(posts);
    var elems := set i | 0 <= i < |chain| :: chain[i];
    assert elems <= Ids(posts);
    SubsetCard(elems, Ids(posts));
  }

  lemma {:induction false} SubsetCard(a: set<Id>, b: set<Id>)
    requires a <= b
    ensures |a| <= |b|
    decreases |b|
  {
    if a != {} {
      var x :| x in a;
      SubsetCard(a - {x}, b - {x});
    }
  }

  /** Stepping from a post of a path to one of its replies yields a longer path. */
  lemma ExtendAncestry(posts: seq<Post>, chain: seq<Id>, p: Post, y: Post)
    requires WellFormed(posts) && Ancestry(posts, chain)
    requires p in posts && p.id == chain[|chain| - 1]
    requires y in posts && y.parentId == Some(p.id)
    ensures Ancestry(posts, chain + [y.id])
  {
    var last := |chain| - 1;
    assert ParentOf(posts, y.id) == Some(p.id) && Truthy(Some(p.id));
    forall i | 0 <= i < |chain|
      ensures chain[i] != y.id
    {
      if i > 0 {
        assert chain[i - 1] != chain[last];
      }
    }
    var ext := chain + [y.id];
    forall i | 0 < i < |ext|
      ensures ParentOf(posts, ext[i]) == Some(ext[i - 1])
    {
      if i < |chain| {
        assert ext[i] == chain[i] && ext[i - 1] == chain[i - 1];
      }
    }
  }

  /** Along a path, the fuel that is left always covers the replies still to be shown. */
  lemma {:induction false} BuildNodeComplete(posts: seq<Post>, chain: seq<Id>, p: Post, fuel: nat)
    requires WellFormed(posts) && Ancestry(posts, chain)
    requires p in posts && p.id == chain[|chain| - 1]
    requires fuel + |chain| == |posts| + 1
    ensures Complete(BuildNode(posts, p, fuel), posts)
    decreases fuel
  {
    ChainBound(posts, chain);
    var rs := Replies(posts, p.id);
    var n := BuildNode(posts, p, fuel);
    forall k | 0 <= k < |rs|
      ensures n.replies[k].post == rs[k] && Complete(n.replies[k], posts)
    {
      var y := rs[k];
      assert n.replies[k] == BuildNode(posts, y, fuel - 1);
      ChildOnPath(posts, chain, p, y);
      BuildNodeComplete(posts, chain + [y.id], y, fuel - 1);
    }
  }

  /** A reply of the last post of a path extends the path. */
  lemma ChildOnPath(posts: seq<Post>, chain: seq<Id>, p: Post, y: Post)
    requires WellFormed(posts) && Ancestry(posts, chain)
    requires p in posts && p.id == chain[|chain| - 1]
    requires y in Replies(posts, p.id)
    ensures y in posts && Ancestry(posts, chain + [y.id])
  {
    SelectMembership(posts, RepliesTo(p.id), y);
    ExtendAncestry(posts, chain, p, y);
  }

  /**
   * On a well-formed collection the rendered forest shows, under every
   * post at every depth, exactly its replies in collection order.
   */
  lemma RenderComplete(posts: seq<Post>)
    requires WellFormed(posts)
    ensures forall k :: 0 <= k < |Render(posts)| ==> Complete(Render(posts)[k], posts)
  {
    var roots := Roots(posts);
    forall k | 0 <= k < |roots|
      ensures Complete(Render(posts)[k], posts)
    {
      var r := roots[k];
      assert r in roots;
      SelectMembership(posts, RootPosts, r);
      assert Ancestry(posts, [r.id]);
      BuildNodeComplete(posts, [r.id], r, |posts|);
    }
  }
}
