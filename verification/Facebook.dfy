/** Flattening a crawled Facebook batch into records (internal/uap/usecase/facebook_parser.go). */
module Facebook {
  import opened Model
  import opened Text

  datatype Comment = Comment(id: string, message: string, author: string, reactions: int)
  datatype Post = Post(id: string, message: string, url: string, author: string, reactions: int, comments: seq<Comment>)

  datatype Kind = PostKind | CommentKind

  datatype Record = Record(uapId: string, originId: string, kind: Kind, url: string, parentId: Option<string>, rootId: string,
                           depth: nat, text: string, author: string, likes: int, crawlKeyword: string)

  const POST_PREFIX := "fb_p_"
  const COMMENT_PREFIX := "fb_c_"

  /** `buildUAPID`. */
  function BuildUAPID(prefix: string, originId: string): string {
    prefix + TrimSpace(originId)
  }

  /** `mapFacebookPost`; None for a post without an id. */
  function MapPost(p: Post, keyword: string): Option<Record> {
    var postId := TrimSpace(p.id);
    if postId == "" then None
    else
      var rootId := BuildUAPID(POST_PREFIX, postId);
      Some(Record(rootId, postId, PostKind, TrimSpace(p.url), None, rootId, 0, TrimSpace(p.message), TrimSpace(p.author), p.reactions, keyword))
  }

  /** `mapFacebookComment`. */
  function MapComment(c: Comment, rootId: string, keyword: string): Option<Record> {
    var commentId := TrimSpace(c.id);
    if commentId == "" then None
    else Some(Record(BuildUAPID(COMMENT_PREFIX, commentId), commentId, CommentKind, "", Some(rootId), rootId, 1,
                     TrimSpace(c.message), TrimSpace(c.author), c.reactions, keyword))
  }

  /** Where the parser's callback goes. */
  class Sink {
    var seen: seq<Record>

    constructor ()
      ensures seen == []
    {
      seen := [];
    }

    method OnRecord(r: Record)
      modifies this
      ensures seen == old(seen) + [r]
    {
      seen := seen + [r];
    }
  }

  // ---------------------------------------------------------------- the flattened order

  function CommentRecords(comments: seq<Comment>, rootId: string, keyword: string): seq<Record> {
    if comments == [] then []
    else
      var kept := CommentRecords(comments[..|comments| - 1], rootId, keyword);
      var last := MapComment(comments[|comments| - 1], rootId, keyword);
      if last.Some? then kept + [last.value] else kept
  }

  function Bundle(p: Post, keyword: string): seq<Record> {
    var post := MapPost(p, keyword);
    if post.None? then [] else [post.value] + CommentRecords(p.comments, post.value.uapId, keyword)
  }

  /** Posts in order, each followed by its comments in order; entries without an id are left out. */
  function Preorder(posts: seq<Post>, keyword: string): seq<Record> {
    if posts == [] then [] else Preorder(posts[..|posts| - 1], keyword) + Bundle(posts[|posts| - 1], keyword)
  }

  /** The inner loop: the comments of one post. */
  method FlattenComments(comments: seq<Comment>, rootId: string, keyword: string, sink: Sink?) returns (records: seq<Record>)
    modifies sink
    ensures records == CommentRecords(comments, rootId, keyword)
    ensures sink != null ==> sink.seen == old(sink.seen) + records
  {
    records := [];
    for j := 0 to |comments|
      invariant records == CommentRecords(comments[..j], rootId, keyword)
      invariant sink != null ==> sink.seen == old(sink.seen) + records
    {
      assert comments[..j + 1][..j] == comments[..j];
      var comment := MapComment(comments[j], rootId, keyword);
      if comment.None? {
        continue;
      }
      records := records + [comment.value];
      if sink != null {
        sink.OnRecord(comment.value);
      }
    }
    assert comments[..|comments|] == comments;
  }

  /** One turn of the outer loop: a post and its comments, or nothing. */
  method FlattenBundle(p: Post, keyword: string, sink: Sink?) returns (records: seq<Record>)
    modifies sink
    ensures records == Bundle(p, keyword)
    ensures sink != null ==> sink.seen == old(sink.seen) + records
  {
    var post := MapPost(p, keyword);
    if post.None? {
      return [];
    }
    ghost var before := if sink != null then sink.seen else [];
    if sink != null {
      sink.OnRecord(post.value);
    }
    var comments := FlattenComments(p.comments, post.value.uapId, keyword, sink);
    assert before + [post.value] + comments == before + ([post.value] + comments);
    records := [post.value] + comments;
  }

  /** `flattenFacebookFullFlow`, after parsing. The callback sees exactly the returned sequence. */
  method Flatten(posts: seq<Post>, keyword: string, sink: Sink?) returns (records: seq<Record>)
    modifies sink
    ensures records == Preorder(posts, keyword)
    ensures sink != null ==> sink.seen == old(sink.seen) + records
  {
    records := [];
    ghost var before := if sink != null then sink.seen else [];
    for i := 0 to |posts|
      invariant records == Preorder(posts[..i], keyword)
      invariant sink != null ==> sink.seen == before + records
    {
      var bundle := FlattenBundle(posts[i], keyword, sink);
      PreorderAdds(posts, i, keyword);
      assert before + records + bundle == before + (records + bundle);
      records := records + bundle;
    }
    assert posts[..|posts|] == posts;
  }

  lemma PreorderAdds(posts: seq<Post>, i: nat, keyword: string)
    requires i < |posts|
    ensures Preorder(posts[..i + 1], keyword) == Preorder(posts[..i], keyword) + Bundle(posts[i], keyword)
  {
    assert posts[..i + 1][..i] == posts[..i];
  }

  // ---------------------------------------------------------------- a rooted forest

  /** Position of the nearest post at or before `i`. */
  function RootOf(records: seq<Record>, i: nat): Option<nat>
    requires i < |records|
  {
    if records[i].kind.PostKind? then Some(i) else if i == 0 then None else RootOf(records, i - 1)
  }

  /** A post is its own root and has no parent; a comment hangs, at depth one, below the nearest post
      before it. Ids are made of the kind's prefix and a trimmed origin id. */
  ghost predicate Rooted(records: seq<Record>, i: nat)
    requires i < |records|
  {
    var r := records[i];
    && (r.kind.PostKind? <==> r.parentId.None?) && (r.kind.PostKind? <==> r.depth == 0) && r.depth <= 1
    && r.originId != "" && TrimSpace(r.originId) == r.originId
    && r.uapId == (if r.kind.PostKind? then "fb_p_" else "fb_c_") + r.originId
    && RootOf(records, i).Some? && RootOf(records, i).value <= i
    && var root := records[RootOf(records, i).value];
       root.kind.PostKind? && r.rootId == root.uapId && (r.kind.CommentKind? ==> r.parentId == Some(root.uapId))
  }

  ghost predicate Forest(records: seq<Record>) {
    forall i :: 0 <= i < |records| ==> Rooted(records, i)
  }

  lemma {:induction false} RootOfPrefix(a: seq<Record>, b: seq<Record>, i: nat)
    requires i < |a|
    ensures RootOf(a + b, i) == RootOf(a, i)
  {
    if i > 0 {
      RootOfPrefix(a, b, i - 1);
    }
  }

  lemma {:induction false} RootOfSuffix(a: seq<Record>, b: seq<Record>, i: nat)
    requires i < |b| && RootOf(b, i).Some?
    ensures RootOf(a + b, |a| + i) == Some(|a| + RootOf(b, i).value)
  {
    if !b[i].kind.PostKind? {
      RootOfSuffix(a, b, i - 1);
    }
  }

  lemma ForestAppend(a: seq<Record>, b: seq<Record>)
    requires Forest(a) && Forest(b)
    ensures Forest(a + b)
  {
    forall i | 0 <= i < |a + b| ensures Rooted(a + b, i) {
      if i < |a| {
        RootOfPrefix(a, b, i);
        assert Rooted(a, i);
      } else {
        assert Rooted(b, i - |a|);
        RootOfSuffix(a, b, i - |a|);
      }
    }
  }

  /** One post and its comments. */
  ghost predicate Tree(records: seq<Record>, root: Record) {
    && records != [] && records[0] == root && Forest(records)
    && forall i :: 0 <= i < |records| ==> RootOf(records, i) == Some(0)
  }

  /** A comment on the post of a tree extends the tree. */
  lemma TreeGrows(records: seq<Record>, root: Record, r: Record)
    requires Tree(records, root) && root.kind.PostKind?
    requires r.kind.CommentKind? && r.depth == 1 && r.rootId == root.uapId && r.parentId == Some(root.uapId)
    requires r.originId != "" && TrimSpace(r.originId) == r.originId && r.uapId == COMMENT_PREFIX + r.originId
    ensures Tree(records + [r], root)
  {
    var all := records + [r];
    forall i | 0 <= i < |all| ensures RootOf(all, i) == Some(0) && Rooted(all, i) {
      if i < |records| {
        RootOfPrefix(records, [r], i);
        assert Rooted(records, i);
      } else {
        RootOfPrefix(records, [r], i - 1);
      }
    }
  }

  lemma {:induction false} BundleIsTree(root: Record, comments: seq<Comment>, keyword: string)
    requires root.kind.PostKind? && Tree([root], root)
    ensures Tree([root] + CommentRecords(comments, root.uapId, keyword), root)
  {
    if comments == [] {
      assert [root] + [] == [root];
    } else {
      var n := |comments| - 1;
      BundleIsTree(root, comments[..n], keyword);
      var kept := [root] + CommentRecords(comments[..n], root.uapId, keyword);
      var last := MapComment(comments[n], root.uapId, keyword);
      if last.Some? {
        TrimSpaceIdempotent(comments[n].id);
        TreeGrows(kept, root, last.value);
        assert [root] + CommentRecords(comments, root.uapId, keyword) == kept + [last.value];
      }
    }
  }

  lemma PostIsTree(p: Post, keyword: string)
    ensures MapPost(p, keyword).Some? ==> Tree([MapPost(p, keyword).value], MapPost(p, keyword).value)
  {
    TrimSpaceIdempotent(p.id);
  }

  /** Every flattened batch is a rooted forest in pre-order. */
  lemma {:induction false} PreorderIsForest(posts: seq<Post>, keyword: string)
    ensures Forest(Preorder(posts, keyword))
  {
    if posts != [] {
      var n := |posts| - 1;
      PreorderIsForest(posts[..n], keyword);
      var post := MapPost(posts[n], keyword);
      if post.Some? {
        PostIsTree(posts[n], keyword);
        BundleIsTree(post.value, posts[n].comments, keyword);
      }
      ForestAppend(Preorder(posts[..n], keyword), Bundle(posts[n], keyword));
    }
  }

  /** No comment shares its id with a post. */
  lemma IdsOfKindsDiffer(posts: seq<Post>, keyword: string, i: nat, j: nat)
    requires i < |Preorder(posts, keyword)| && j < |Preorder(posts, keyword)|
    requires Preorder(posts, keyword)[i].kind != Preorder(posts, keyword)[j].kind
    ensures Preorder(posts, keyword)[i].uapId != Preorder(posts, keyword)[j].uapId
  {
    var records := Preorder(posts, keyword);
    PreorderIsForest(posts, keyword);
    assert Rooted(records, i) && Rooted(records, j);
    assert POST_PREFIX[3] != COMMENT_PREFIX[3];
    assert records[i].uapId[3] != records[j].uapId[3];
  }

  // ---------------------------------------------------------------- nothing is lost

  /** Reading the forest back: a post opens a thread, a comment joins the last one. */
  function Threads(records: seq<Record>): seq<Post> {
    if records == [] then []
    else
      var r, before := records[|records| - 1], Threads(records[..|records| - 1]);
      if r.kind.PostKind? then before + [Post(r.originId, r.text, r.url, r.author, r.likes, [])]
      else if before == [] then []
      else
        var open := before[|before| - 1];
        before[..|before| - 1] + [open.(comments := open.comments + [Comment(r.originId, r.text, r.author, r.likes)])]
  }

  function KeptComments(comments: seq<Comment>): seq<Comment> {
    if comments == [] then []
    else
      var kept, c := KeptComments(comments[..|comments| - 1]), comments[|comments| - 1];
      if TrimSpace(c.id) == "" then kept
      else kept + [Comment(TrimSpace(c.id), TrimSpace(c.message), TrimSpace(c.author), c.reactions)]
  }

  /** The threads of the input: posts and comments with an id, their texts trimmed. */
  function InputThreads(posts: seq<Post>): seq<Post> {
    if posts == [] then []
    else
      var before, p := InputThreads(posts[..|posts| - 1]), posts[|posts| - 1];
      if TrimSpace(p.id) == "" then before
      else before + [Post(TrimSpace(p.id), TrimSpace(p.message), TrimSpace(p.url), TrimSpace(p.author), p.reactions, KeptComments(p.comments))]
  }

  lemma {:induction false} ThreadsExtend(records: seq<Record>, post: Record, comments: seq<Comment>, keyword: string)
    requires post.kind.PostKind?
    ensures Threads(records + ([post] + CommentRecords(comments, post.uapId, keyword)))
         == Threads(records) + [Post(post.originId, post.text, post.url, post.author, post.likes, KeptComments(comments))]
  {
    if comments == [] {
      assert records + ([post] + []) == records + [post];
      assert (records + [post])[..|records|] == records;
    } else {
      var n := |comments| - 1;
      ThreadsExtend(records, post, comments[..n], keyword);
      var before := records + ([post] + CommentRecords(comments[..n], post.uapId, keyword));
      var last := MapComment(comments[n], post.uapId, keyword);
      if last.Some? {
        assert records + ([post] + CommentRecords(comments, post.uapId, keyword)) == before + [last.value];
        assert (before + [last.value])[..|before|] == before;
      }
    }
  }

  /** Every record carries the keyword of the crawl. */
  lemma {:induction false} KeywordIsOnEach(posts: seq<Post>, keyword: string)
    ensures forall i :: 0 <= i < |Preorder(posts, keyword)| ==> Preorder(posts, keyword)[i].crawlKeyword == keyword
  {
    if posts != [] {
      var p := posts[|posts| - 1];
      KeywordIsOnEach(posts[..|posts| - 1], keyword);
      KeywordIsOnComments(p.comments, BuildUAPID(POST_PREFIX, TrimSpace(p.id)), keyword);
    }
  }

  lemma {:induction false} KeywordIsOnComments(comments: seq<Comment>, rootId: string, keyword: string)
    ensures forall i :: 0 <= i < |CommentRecords(comments, rootId, keyword)| ==> CommentRecords(comments, rootId, keyword)[i].crawlKeyword == keyword
  {
    if comments != [] {
      KeywordIsOnComments(comments[..|comments| - 1], rootId, keyword);
    }
  }

  /** Flattening keeps every thread that has ids with its content, in order, and adds none. */
  lemma {:induction false} FlattenKeepsThreads(posts: seq<Post>, keyword: string)
    ensures Threads(Preorder(posts, keyword)) == InputThreads(posts)
  {
    if posts != [] {
      var n := |posts| - 1;
      FlattenKeepsThreads(posts[..n], keyword);
      var before, post := Preorder(posts[..n], keyword), MapPost(posts[n], keyword);
      if post.Some? {
        ThreadsExtend(before, post.value, posts[n].comments, keyword);
      } else {
        assert Preorder(posts, keyword) == before;
      }
    }
  }
}
