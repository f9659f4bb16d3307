/** The comment endpoints (internal/handler/comment_handler.go): request validation, the
    store call, and the status chosen from the store's answer. */
module CommentHandlers {
  import opened Wrappers
  import opened Model
  import opened Http
  import opened Store
  import Ids

  const InvalidBody: string := "Invalid request body"
  const EmptyContent: string := "Comment content cannot be empty"
  const MarkdownFailed: string := "Failed to parse markdown"
  const CreateFailed: string := "Failed to create comment"
  const PostMissing: string := "Post not found"
  const ListFailed: string := "Failed to retrieve comments"

  /** The record the handler builds for the store: the post id from the URL, the raw text
      and its HTML; the id and the time are still Go's zero values. */
  function NewCommentRecord(postId: string, content: string, html: string): Comment {
    Comment("", postId, content, html, ZeroTime)
  }

  /** How `CreateComment` answers once the store has been called. The store's error is
      told apart by its text only: exactly the "post with id <postId> not found" message
      means 404, any other error 500. */
  function CreateCommentReply(postId: string, stored: Comment, err: Outcome): (w: Response)
    ensures w.status == Some(StatusCreated) <==> err.Pass?
    ensures w.status == Some(StatusNotFound) <==> err.Fail? && err.message == CommentPostNotFound(postId)
    ensures w.status == Some(StatusInternalServerError) <==> err.Fail? && err.message != CommentPostNotFound(postId)
    ensures err.Pass? ==> w.body == [Encoded(CommentJson(stored))]
    ensures err.Fail? ==>
      w.body == [Text(if err.message == CommentPostNotFound(postId) then err.message else CreateFailed)]
  {
    if err.Fail? then
      if err.message == CommentPostNotFound(postId) then Error(Unwritten, err.message, StatusNotFound)
      else Error(Unwritten, CreateFailed, StatusInternalServerError)
    else
      WriteJson(Unwritten, StatusCreated, CommentJson(stored))
  }

  /** How `GetCommentsForPost` answers once the post is known to exist. */
  function CommentsReply(listing: Result<seq<Comment>>): (w: Response)
    ensures w.status == Some(StatusOK) <==> listing.Ok?
    ensures w.status == Some(StatusInternalServerError) <==> listing.Err?
    ensures listing.Ok? ==> w.body == [Encoded(CommentsJson(listing.value))]
    ensures listing.Err? ==> w.body == [Text(ListFailed)]
  {
    if listing.Err? then Error(Unwritten, ListFailed, StatusInternalServerError)
    else WriteJson(Unwritten, StatusOK, CommentsJson(listing.value))
  }

  /** How `GetCommentsForPost` answers the store's two calls. Any lookup error, whatever
      the store's reason, gives 404 "Post not found"; the comment listing is only consulted
      once the post was found. */
  function PostCommentsReply(found: Result<Post>, listing: Result<seq<Comment>>): (w: Response)
    ensures w.status == Some(StatusNotFound) <==> found.Err?
    ensures w.status == Some(StatusOK) <==> found.Ok? && listing.Ok?
    ensures w.status == Some(StatusInternalServerError) <==> found.Ok? && listing.Err?
    ensures found.Err? ==> w.body == [Text(PostMissing)]
    ensures found.Ok? && listing.Ok? ==> w.body == [Encoded(CommentsJson(listing.value))]
    ensures found.Ok? && listing.Err? ==> w.body == [Text(ListFailed)]
  {
    if found.Err? then Error(Unwritten, PostMissing, StatusNotFound)
    else CommentsReply(listing)
  }

  class CommentHandler {
    const store: InMemoryStore
    /** The markdown converter: the HTML for a text, or `None` when conversion fails. */
    const markdown: string -> Option<string>

    /** `NewCommentHandler`. */
    constructor (s: InMemoryStore, md: string -> Option<string>)
      ensures store == s && markdown == md
    {
      store, markdown := s, md;
    }

    /** The body decodes, its content is not empty and renders: the request reaches the store. */
    predicate ReachesStore(body: Decoded<string>) {
      body.Decoded? && body.value != "" && markdown(body.value).Some?
    }

    /** POST /posts/{postId}/comments. */
    method CreateComment(postId: string, body: Decoded<string>, now: Timestamp) returns (w: Response)
      requires store.Valid()
      modifies store
      ensures store.Valid()
      ensures w.status == Some(StatusBadRequest) <==> body.Malformed? || body.value == ""
      ensures w.status == Some(StatusInternalServerError) <==>
        body.Decoded? && body.value != "" && markdown(body.value).None?
      ensures w.status == Some(StatusNotFound) <==> ReachesStore(body) && postId !in old(store.posts)
      ensures w.status == Some(StatusCreated) <==> ReachesStore(body) && postId in old(store.posts)
      ensures body.Malformed? ==> w.body == [Text(InvalidBody)]
      ensures body.Decoded? && body.value == "" ==> w.body == [Text(EmptyContent)]
      ensures body.Decoded? && body.value != "" && markdown(body.value).None? ==> w.body == [Text(MarkdownFailed)]
      ensures w.status == Some(StatusNotFound) ==> w.body == [Text(CommentPostNotFound(postId))]
      ensures w.status != Some(StatusCreated) ==> store.Current() == old(store.Current())
      ensures w.status == Some(StatusCreated) ==>
        var c := Comment(Ids.NewId(old(store.nextSerial)), postId, body.value, markdown(body.value).value, now);
        && w.body == [Encoded(CommentJson(c))]
        && CommentsOf(store.Current(), postId) == CommentsOf(old(store.Current()), postId) + [c]
        && (forall p :: p != postId ==> CommentsOf(store.Current(), p) == CommentsOf(old(store.Current()), p))
        && store.posts == old(store.posts)
    {
      if body.Malformed? {
        return Error(Unwritten, InvalidBody, StatusBadRequest);
      }
      if body.value == "" {
        return Error(Unwritten, EmptyContent, StatusBadRequest);
      }
      var html := markdown(body.value);
      if html.None? {
        return Error(Unwritten, MarkdownFailed, StatusInternalServerError);
      }
      var record := NewCommentRecord(postId, body.value, html.value);
      var stored, err := store.CreateComment(record, now);
      w := CreateCommentReply(postId, stored, err);
    }

    /** GET /posts/{postId}/comments. */
    method GetCommentsForPost(postId: string) returns (w: Response)
      requires store.Valid()
      ensures w.status == Some(StatusNotFound) <==> postId !in store.posts
      ensures postId !in store.posts ==> w.body == [Text(PostMissing)]
      ensures postId in store.posts ==>
        w == Response(Some(StatusOK), [Encoded(CommentsJson(CommentsOf(store.Current(), postId)))])
    {
      var found := store.GetPost(postId);
      var listing: Result<seq<Comment>> := Ok([]);
      if found.Ok? {
        listing := store.GetCommentsByPostID(postId);
      }
      w := PostCommentsReply(found, listing);
    }
  }
}
