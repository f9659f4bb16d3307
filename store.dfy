/** The in-memory repository (internal/store/in_memory_store.go): posts by id, and for
    every post id the list of its comments in insertion order.

    The store's contents are described twice: as a value of type `State` with the
    functions `AddPost`, `AddComment`, `FindPost` and `CommentsOf` that say what each
    operation does to it, and as the class `InMemoryStore`, whose map fields its methods
    update in place and whose contracts tie every call to those functions. The lock
    around each operation is not modelled: each method is one sequential step. */
module Store {
  import opened Wrappers
  import opened Model
  import Ids

  /** Everything the store holds: the two maps, and the state of the id generator. */
  datatype State = State(
    posts: map<string, Post>,
    comments: map<string, seq<Comment>>,
    nextSerial: nat)

  /** A store as `NewInMemoryStore` builds it. */
  const Empty: State := State(map[], map[], 0)

  /** What a write returns: the new contents, the caller's record as the store
      completed it, and the `error` result. */
  datatype Stored<T> = Stored(state: State, record: T, err: Outcome)

  /** The error `GetPost` returns for an unknown id. */
  const PostNotFound: string := "post not found"

  /** The error `CreateComment` returns when the comment names an unknown post. */
  function CommentPostNotFound(postId: string): string {
    "post with id " + postId + " not found"
  }

  // ---------------------------------------------------------------------------
  // Invariant

  /** Comments are only filed under the id of a post that exists. */
  ghost predicate ReferentialIntegrity(s: State) {
    forall p :: p in s.comments ==> p in s.posts
  }

  /** Every post is filed under its own id. */
  ghost predicate PostsKeyedById(s: State) {
    forall p :: p in s.posts ==> s.posts[p].id == p
  }

  /** Every post id spells a number below the id counter. */
  ghost predicate PostIdsIssued(s: State) {
    forall p :: p in s.posts ==> Ids.SerialBelow(p, s.nextSerial)
  }

  /** Every comment sits in the list of the post it names, and its id spells a number
      below the id counter. */
  ghost predicate CommentsFiledByPost(s: State) {
    forall p, i :: p in s.comments && 0 <= i < |s.comments[p]| ==>
      s.comments[p][i].postId == p && Ids.SerialBelow(s.comments[p][i].id, s.nextSerial)
  }

  /** No two comments anywhere in the store share an id. */
  ghost predicate CommentIdsUnique(s: State) {
    forall p, i, q, j ::
      p in s.comments && q in s.comments && 0 <= i < |s.comments[p]| && 0 <= j < |s.comments[q]|
      && (p != q || i != j)
      ==> s.comments[p][i].id != s.comments[q][j].id
  }

  ghost predicate Inv(s: State) {
    ReferentialIntegrity(s) && PostsKeyedById(s) && PostIdsIssued(s) && CommentsFiledByPost(s) && CommentIdsUnique(s)
  }

  // ---------------------------------------------------------------------------
  // Operations on the contents

  /** The comment list filed under `postId`; a missing key reads as the empty list, as a
      nil slice does in Go. */
  function CommentsOf(s: State, postId: string): seq<Comment> {
    if postId in s.comments then s.comments[postId] else []
  }

  function FindPost(s: State, id: string): Result<Post> {
    if id in s.posts then Ok(s.posts[id]) else Err(PostNotFound)
  }

  /** `CreatePost`: the store overwrites the record's id and timestamp and files it. */
  function AddPost(s: State, post: Post, now: Timestamp): Stored<Post> {
    var created := post.(id := Ids.NewId(s.nextSerial), createdAt := now);
    Stored(s.(posts := s.posts[created.id := created], nextSerial := s.nextSerial + 1), created, Pass)
  }

  /** `CreateComment`: refuse a comment on an unknown post; otherwise give it an id and a
      timestamp and append it to its post's list. */
  function AddComment(s: State, comment: Comment, now: Timestamp): Stored<Comment> {
    if comment.postId !in s.posts then
      Stored(s, comment, Fail(CommentPostNotFound(comment.postId)))
    else
      var stored := comment.(id := Ids.NewId(s.nextSerial), createdAt := now);
      var list := CommentsOf(s, comment.postId) + [stored];
      Stored(s.(comments := s.comments[comment.postId := list], nextSerial := s.nextSerial + 1), stored, Pass)
  }

  /** `s2` keeps every post of `s1` unchanged and every comment list of `s1` as a prefix. */
  ghost predicate Extends(s1: State, s2: State) {
    && (forall id :: id in s1.posts ==> id in s2.posts && s2.posts[id] == s1.posts[id])
    && (forall p :: CommentsOf(s1, p) <= CommentsOf(s2, p))
  }

  // ---------------------------------------------------------------------------
  // Properties of the operations

  lemma EmptyStoreIsValid()
    ensures Inv(Empty) && |Empty.posts| == 0 && |Empty.comments| == 0
    ensures forall p :: CommentsOf(Empty, p) == [] && FindPost(Empty, p) == Err(PostNotFound)
  {
  }

  /** A new post gets an id no stored post has; it is filed under that id, nothing else
      changes, and looking the id up gives the post back. */
  lemma AddPostAddsOnePost(s: State, post: Post, now: Timestamp)
    requires Inv(s)
    ensures var r := AddPost(s, post, now);
      && r.err == Pass
      && r.record.id !in s.posts
      && r.record.content == post.content && r.record.createdAt == now
      && r.state.posts.Keys == s.posts.Keys + {r.record.id}
      && |r.state.posts| == |s.posts| + 1
      && (forall id :: id in s.posts ==> r.state.posts[id] == s.posts[id])
      && r.state.comments == s.comments
      && FindPost(r.state, r.record.id) == Ok(r.record)
  {
    Ids.NewIdSerialBelow(s.nextSerial, s.nextSerial);
  }

  lemma AddPostPreservesInv(s: State, post: Post, now: Timestamp)
    requires Inv(s)
    ensures Inv(AddPost(s, post, now).state)
  {
    Ids.NewIdSerialBelow(s.nextSerial, s.nextSerial + 1);
  }

  /** A comment naming an unknown post is refused with the post's id in the message, and
      the store is left as it was. */
  lemma AddCommentRefusesUnknownPost(s: State, comment: Comment, now: Timestamp)
    requires comment.postId !in s.posts
    ensures var r := AddComment(s, comment, now);
      r.err == Fail(CommentPostNotFound(comment.postId)) && r.state == s && r.record == comment
  {
  }

  /** A comment on a stored post gets a fresh id and the given time, and goes at the end of
      that post's list; no other list and no post changes. */
  lemma AddCommentAppends(s: State, comment: Comment, now: Timestamp)
    requires Inv(s) && comment.postId in s.posts
    ensures var r := AddComment(s, comment, now);
      && r.err == Pass
      && r.record == comment.(id := r.record.id, createdAt := now)
      && CommentsOf(r.state, comment.postId) == CommentsOf(s, comment.postId) + [r.record]
      && |CommentsOf(r.state, comment.postId)| == |CommentsOf(s, comment.postId)| + 1
      && (forall p :: p != comment.postId ==> CommentsOf(r.state, p) == CommentsOf(s, p))
      && r.state.posts == s.posts
      && (forall p, i :: p in s.comments && 0 <= i < |s.comments[p]| ==> s.comments[p][i].id != r.record.id)
  {
    var r := AddComment(s, comment, now);
    Ids.NewIdSerialBelow(s.nextSerial, s.nextSerial);
    forall p, i | p in s.comments && 0 <= i < |s.comments[p]|
      ensures s.comments[p][i].id != r.record.id
    {
      assert Ids.SerialBelow(s.comments[p][i].id, s.nextSerial);
    }
  }

  lemma AddCommentPreservesInv(s: State, comment: Comment, now: Timestamp)
    requires Inv(s)
    ensures Inv(AddComment(s, comment, now).state)
  {
    if comment.postId in s.posts {
      var r := AddComment(s, comment, now);
      var pid, t := comment.postId, r.state;
      AddCommentAppends(s, comment, now);
      Ids.NewIdSerialBelow(s.nextSerial, t.nextSerial);
      forall p, i, q, j |
        p in t.comments && q in t.comments && 0 <= i < |t.comments[p]| && 0 <= j < |t.comments[q]|
        && (p != q || i != j)
        ensures t.comments[p][i].id != t.comments[q][j].id
      {
        var n := |CommentsOf(s, pid)|;
        if p == pid && i == n {
          assert t.comments[p][i] == r.record;
        } else if q == pid && j == n {
          assert t.comments[q][j] == r.record;
        } else {
          assert t.comments[p][i] == s.comments[p][i];
          assert t.comments[q][j] == s.comments[q][j];
        }
      }
    }
  }

  /** Writes never remove or reorder anything: posts stay as they were and every comment
      list only grows at its end. */
  lemma WritesOnlyExtend(s: State, post: Post, comment: Comment, now: Timestamp)
    requires Inv(s)
    ensures Extends(s, AddPost(s, post, now).state)
    ensures Extends(s, AddComment(s, comment, now).state)
  {
    AddPostAddsOnePost(s, post, now);
    if comment.postId in s.posts {
      AddCommentAppends(s, comment, now);
    }
  }

  /** Creating a post and then a comment on it: the comment is accepted, names the post,
      and is the only comment listed for it. */
  lemma PostThenComment(s: State, post: Post, text: string, html: string, t1: Timestamp, t2: Timestamp)
    requires Inv(s)
    ensures var a := AddPost(s, post, t1);
      var b := AddComment(a.state, Comment("", a.record.id, text, html, ZeroTime), t2);
      && b.err == Pass
      && b.record.postId == a.record.id && b.record.contentRaw == text
      && FindPost(b.state, a.record.id) == Ok(a.record)
      && CommentsOf(b.state, a.record.id) == [b.record]
  {
    var a := AddPost(s, post, t1);
    AddPostAddsOnePost(s, post, t1);
    AddPostPreservesInv(s, post, t1);
    assert a.record.id !in s.comments;
    AddCommentAppends(a.state, Comment("", a.record.id, text, html, ZeroTime), t2);
  }

  /** Applying `AddComment` to each record in turn, as a sequence of `CreateComment` calls. */
  function AddComments(s: State, batch: seq<Comment>, now: Timestamp): State
    decreases |batch|
  {
    if batch == [] then s else AddComments(AddComment(s, batch[0], now).state, batch[1..], now)
  }

  /** `n` comments posted under one stored post lengthen its list by exactly `n`: no
      update is lost, and the list keeps what it had as a prefix. */
  lemma {:induction false} NoLostComments(s: State, postId: string, batch: seq<Comment>, now: Timestamp)
    requires Inv(s) && postId in s.posts
    requires forall k :: 0 <= k < |batch| ==> batch[k].postId == postId
    ensures var t := AddComments(s, batch, now);
      Inv(t) && |CommentsOf(t, postId)| == |CommentsOf(s, postId)| + |batch|
      && CommentsOf(s, postId) <= CommentsOf(t, postId)
    decreases |batch|
  {
    if batch != [] {
      var r := AddComment(s, batch[0], now);
      AddCommentAppends(s, batch[0], now);
      AddCommentPreservesInv(s, batch[0], now);
      NoLostComments(r.state, postId, batch[1..], now);
    }
  }

  // ---------------------------------------------------------------------------
  // The store object

  class InMemoryStore {
    var posts: map<string, Post>
    var comments: map<string, seq<Comment>>
    /** State of the id generator (stands in for `uuid.NewString`). */
    var nextSerial: nat

    function Current(): State
      reads this
    {
      State(posts, comments, nextSerial)
    }

    ghost predicate Valid()
      reads this
    {
      Inv(Current())
    }

    /** `NewInMemoryStore`: both maps empty. */
    constructor ()
      ensures Valid() && Current() == Empty
    {
      posts, comments, nextSerial := map[], map[], 0;
    }

    method CreatePost(post: Post, now: Timestamp) returns (created: Post, err: Outcome)
      requires Valid()
      modifies this
      ensures Valid()
      ensures AddPost(old(Current()), post, now) == Stored(Current(), created, err)
      ensures err == Pass && created.content == post.content && created.createdAt == now
      ensures created.id !in old(posts) && posts == old(posts)[created.id := created]
      ensures comments == old(comments)
    {
      AddPostAddsOnePost(Current(), post, now);
      AddPostPreservesInv(Current(), post, now);
      created := post.(id := Ids.NewId(nextSerial), createdAt := now);
      nextSerial := nextSerial + 1;
      posts := posts[created.id := created];
      err := Pass;
    }

    method GetPost(id: string) returns (r: Result<Post>)
      requires Valid()
      ensures r == FindPost(Current(), id)
      ensures r.Ok? <==> id in posts
      ensures r.Ok? ==> r.value == posts[id] && r.value.id == id
      ensures r.Err? ==> r.message == PostNotFound
    {
      if id !in posts {
        return Err(PostNotFound);
      }
      r := Ok(posts[id]);
    }

    method GetAllPosts() returns (r: Result<seq<Post>>)
      requires Valid()
      ensures r.Ok? && ListsEachPostOnce(r.value, posts)
    {
      var all: seq<Post> := [];
      var pending := posts.Keys;
      ghost var listed: set<string> := {};
      while pending != {}
        invariant listed !! pending && listed + pending == posts.Keys
        invariant PostIds(all) == listed && |all| == |listed|
        invariant forall i :: 0 <= i < |all| ==> all[i].id in posts && posts[all[i].id] == all[i]
        invariant forall i, j :: 0 <= i < j < |all| ==> all[i].id != all[j].id
        decreases pending
      {
        var id :| id in pending;
        ListingGrows(posts, all, listed, id);
        all := all + [posts[id]];
        pending := pending - {id};
        listed := listed + {id};
      }
      assert listed == posts.Keys;
      r := Ok(all);
    }

    method CreateComment(comment: Comment, now: Timestamp) returns (stored: Comment, err: Outcome)
      requires Valid()
      modifies this
      ensures Valid()
      ensures AddComment(old(Current()), comment, now) == Stored(Current(), stored, err)
      ensures err.Fail? <==> comment.postId !in old(posts)
      ensures err.Fail? ==> err.message == CommentPostNotFound(comment.postId) && Current() == old(Current())
      ensures err.Pass? ==> posts == old(posts)
      ensures err.Pass? ==>
        comments == old(comments)[comment.postId := CommentsOf(old(Current()), comment.postId) + [stored]]
    {
      if comment.postId !in posts {
        return comment, Fail(CommentPostNotFound(comment.postId));
      }
      AddCommentPreservesInv(Current(), comment, now);
      var list := CommentsOf(Current(), comment.postId);
      stored := comment.(id := Ids.NewId(nextSerial), createdAt := now);
      nextSerial := nextSerial + 1;
      comments := comments[comment.postId := list + [stored]];
      err := Pass;
    }

    method GetCommentsByPostID(postId: string) returns (r: Result<seq<Comment>>)
      requires Valid()
      ensures r == Ok(CommentsOf(Current(), postId))
      ensures forall i :: 0 <= i < |r.value| ==> r.value[i].postId == postId
      ensures postId !in posts ==> r.value == []
    {
      if postId !in comments {
        return Ok([]);
      }
      r := Ok(comments[postId]);
    }
  }

  /** The ids of a list of posts. */
  function PostIds(ps: seq<Post>): (ids: set<string>)
    ensures forall i :: 0 <= i < |ps| ==> ps[i].id in ids
  {
    if ps == [] then {} else PostIds(ps[..|ps| - 1]) + {ps[|ps| - 1].id}
  }

  /** One step of the listing loop in `GetAllPosts`: appending a post not yet listed keeps
      the list free of repeats and in step with the set of listed ids. */
  lemma ListingGrows(posts: map<string, Post>, all: seq<Post>, listed: set<string>, id: string)
    requires id in posts && posts[id].id == id && id !in listed
    requires PostIds(all) == listed && |all| == |listed|
    requires forall i :: 0 <= i < |all| ==> all[i].id in posts && posts[all[i].id] == all[i]
    requires forall i, j :: 0 <= i < j < |all| ==> all[i].id != all[j].id
    ensures var more := all + [posts[id]];
      && PostIds(more) == listed + {id} && |more| == |listed + {id}|
      && (forall i :: 0 <= i < |more| ==> more[i].id in posts && posts[more[i].id] == more[i])
      && (forall i, j :: 0 <= i < j < |more| ==> more[i].id != more[j].id)
  {
  }

  /** `ps` lists every post of `posts` exactly once, in some order. */
  ghost predicate ListsEachPostOnce(ps: seq<Post>, posts: map<string, Post>) {
    && |ps| == |posts|
    && PostIds(ps) == posts.Keys
    && (forall i :: 0 <= i < |ps| ==> ps[i].id in posts && posts[ps[i].id] == ps[i])
    && (forall i, j :: 0 <= i < j < |ps| ==> ps[i].id != ps[j].id)
  }
}
