/** The post endpoints (internal/handler/post_handler.go). */
module PostHandlers {
  import opened Wrappers
  import opened Model
  import opened Http
  import opened Store
  import Ids

  const EmptyContent: string := "Post content cannot be empty"
  const CreateFailed: string := "Failed to create post"
  const ListFailed: string := "Failed to retrieve posts"
  const CommentsFailed: string := "Failed to retrieve comments for post"

  /** How `CreatePost` answers once the store has been called, as the handler is written:
      after reporting a store error it does not return, so it goes on to the success path.
      The 500 status stands (a second `WriteHeader` is ignored) and the post's JSON is
      appended to the error text. */
  function CreatePostReply(created: Post, err: Outcome): (w: Response)
    ensures err.Pass? ==> w == Response(Some(StatusCreated), [Encoded(PostJson(created))])
    ensures err.Fail? ==>
      w == Response(Some(StatusInternalServerError), [Text(CreateFailed), Encoded(PostJson(created))])
  {
    var reported := if err.Fail? then Error(Unwritten, CreateFailed, StatusInternalServerError) else Unwritten;
    WriteJson(reported, StatusCreated, PostJson(created))
  }

  /** The answer the handler evidently intends: stop after reporting a store error. */
  function CreatePostReplyIntended(created: Post, err: Outcome): (w: Response)
    ensures w.status == Some(StatusCreated) <==> err.Pass?
    ensures w.status == Some(StatusInternalServerError) <==> err.Fail?
    ensures |w.body| == 1
    ensures err.Pass? ==> w.body == [Encoded(PostJson(created))]
    ensures err.Fail? ==> w.body == [Text(CreateFailed)]
  {
    if err.Fail? then Error(Unwritten, CreateFailed, StatusInternalServerError)
    else WriteJson(Unwritten, StatusCreated, PostJson(created))
  }

  /** The handler as written and as intended answer alike exactly when the store succeeds. */
  lemma CreatePostRepliesAgree(created: Post, err: Outcome)
    ensures CreatePostReply(created, err) == CreatePostReplyIntended(created, err) <==> err.Pass?
  {
  }

  /** How `GetAllPosts` answers the store's listing. */
  function PostsReply(listing: Result<seq<Post>>): (w: Response)
    ensures w.status == Some(StatusOK) <==> listing.Ok?
    ensures w.status == Some(StatusInternalServerError) <==> listing.Err?
    ensures listing.Ok? ==> w.body == [Encoded(PostsJson(listing.value))]
    ensures listing.Err? ==> w.body == [Text(ListFailed)]
  {
    if listing.Err? then Error(Unwritten, ListFailed, StatusInternalServerError)
    else WriteJson(Unwritten, StatusOK, PostsJson(listing.value))
  }

  /** How `GetPostByID` answers once the post was found. */
  function PostWithCommentsReply(post: Post, listing: Result<seq<Comment>>): (w: Response)
    ensures w.status == Some(StatusOK) <==> listing.Ok?
    ensures w.status == Some(StatusInternalServerError) <==> listing.Err?
    ensures listing.Ok? ==> w.body == [Encoded(PostResponseJson(post, listing.value))]
    ensures listing.Err? ==> w.body == [Encoded(ErrorJson(CommentsFailed))]
  {
    if listing.Err? then RespondWithError(Unwritten, StatusInternalServerError, CommentsFailed)
    else RespondWithJSON(Unwritten, StatusOK, PostResponseJson(post, listing.value))
  }

  /** How `GetPostByID` answers the store's two calls. Any lookup error, whatever the
      store's reason, gives 404 with that error's text as JSON; the comment listing is only
      consulted once the post was found. */
  function PostByIdReply(found: Result<Post>, listing: Result<seq<Comment>>): (w: Response)
    ensures w.status == Some(StatusNotFound) <==> found.Err?
    ensures w.status == Some(StatusOK) <==> found.Ok? && listing.Ok?
    ensures w.status == Some(StatusInternalServerError) <==> found.Ok? && listing.Err?
    ensures found.Err? ==> w.body == [Encoded(ErrorJson(found.message))]
    ensures found.Ok? && listing.Ok? ==> w.body == [Encoded(PostResponseJson(found.value, listing.value))]
    ensures found.Ok? && listing.Err? ==> w.body == [Encoded(ErrorJson(CommentsFailed))]
  {
    if found.Err? then RespondWithError(Unwritten, StatusNotFound, found.message)
    else PostWithCommentsReply(found.value, listing)
  }

  class PostHandler {
    const store: InMemoryStore

    /** `NewPostHandler`. */
    constructor (s: InMemoryStore)
      ensures store == s
    {
      store := s;
    }

    /** POST /posts. The decoded body is a whole post record; whatever id and time the
        client sent are overwritten by the store. */
    method CreatePost(body: Decoded<Post>, now: Timestamp) returns (w: Response)
      requires store.Valid()
      modifies store
      ensures store.Valid()
      ensures w.status == Some(StatusBadRequest) <==> body.Malformed? || body.value.content == ""
      ensures w.status == Some(StatusCreated) <==> body.Decoded? && body.value.content != ""
      ensures body.Malformed? ==> w.body == [Text(body.reason)]
      ensures body.Decoded? && body.value.content == "" ==> w.body == [Text(EmptyContent)]
      ensures |w.body| == 1
      ensures w.status != Some(StatusCreated) ==> store.Current() == old(store.Current())
      ensures w.status == Some(StatusCreated) ==>
        var created := body.value.(id := Ids.NewId(old(store.nextSerial)), createdAt := now);
        && w == CreatePostReplyIntended(created, Pass)
        && w.body == [Encoded(PostJson(created))]
        && created.id !in old(store.posts)
        && store.posts == old(store.posts)[created.id := created]
        && store.comments == old(store.comments)
    {
      if body.Malformed? {
        return Error(Unwritten, body.reason, StatusBadRequest);
      }
      if body.value.content == "" {
        return Error(Unwritten, EmptyContent, StatusBadRequest);
      }
      var created, err := store.CreatePost(body.value, now);
      w := CreatePostReply(created, err);
      CreatePostRepliesAgree(created, err);
    }

    /** GET /posts. */
    method GetAllPosts() returns (w: Response)
      requires store.Valid()
      ensures w.status == Some(StatusOK) && |w.body| == 1
      ensures w.body[0].Encoded? && w.body[0].json.PostsJson?
      ensures ListsEachPostOnce(w.body[0].json.posts, store.posts)
    {
      var listing := store.GetAllPosts();
      w := PostsReply(listing);
    }

    /** GET /posts/{postId}: the post together with its comments. */
    method GetPostByID(postId: string) returns (w: Response)
      requires store.Valid()
      ensures w.status == Some(StatusNotFound) <==> postId !in store.posts
      ensures postId !in store.posts ==> w.body == [Encoded(ErrorJson(PostNotFound))]
      ensures postId in store.posts ==>
        && w == Response(Some(StatusOK), [Encoded(PostResponseJson(store.posts[postId], CommentsOf(store.Current(), postId)))])
        && store.posts[postId].id == postId
    {
      var found := store.GetPost(postId);
      var listing: Result<seq<Comment>> := Ok([]);
      if found.Ok? {
        listing := store.GetCommentsByPostID(postId);
      }
      w := PostByIdReply(found, listing);
    }
  }
}
