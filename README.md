# Post/comment service: the in-memory store and its handlers

This project models the core of a small HTTP service for blog posts and their comments.

The core is the in-memory repository `InMemoryStore`. It holds a map from post id to post and a map from post id to that post's comments in insertion order. It has five operations: `CreatePost`, `GetPost`, `GetAllPosts`, `CreateComment` and `GetCommentsByPostID`. The store assigns ids and creation times by completing the record the caller hands in. It enforces one foreign-key rule: a comment is only filed under a post id that names a stored post.

Around the store sit the request handlers. Each handler is a chain of early-return checks: decode the body, check that the content is not empty, render the markdown, call the store, and choose an HTTP status from the store's answer.

Files:

- `wrappers.dfy` (`Wrappers`): `Option`, `Result` and `Outcome`. A Go `error` is modelled by its message.
- `model.dfy` (`Model`): the `Post` and `Comment` records and the `Timestamp` type.
- `ids.dfy` (`Ids`): the id generator. The n-th id is the decimal spelling of n. It is proved that a new id differs from every id already in the store.
- `store.dfy` (`Store`): the store's contents as a value `State`, and the invariant `Inv`. `Inv` says four things:
  - comment lists are only filed under existing posts;
  - each post is filed under its own id;
  - each comment sits in its own post's list;
  - every post and comment id spells a number below the id counter, and comment ids are unique.
  
  The file also holds the functions `AddPost`, `AddComment`, `FindPost` and `CommentsOf`, the lemmas about them, and the class `InMemoryStore`. Its map fields are updated in place, and its methods are proved against those functions.
- `http.dfy` (`Http`): what a handler leaves in the `http.ResponseWriter`. The first `WriteHeader` fixes the status, and a write before any header means 200. The payloads written are kept in order. The file also holds `http.Error`, `RespondWithJSON` and `RespondWithError`.
- `comment_handler.dfy` (`CommentHandlers`) and `post_handler.dfy` (`PostHandlers`): the handlers. Each handler is a class method over the concrete store. Pure `...Reply` functions say how any store answer maps to a response.

Three behaviours worth noting, each taken from the code:

- Listing comments for an unknown post returns an empty list from the store. The `GET /posts/{postId}/comments` handler answers 404 for it, because it looks the post up first.
- `GET /posts` answers 500 if the store reports an error.
- `POST /posts` does not stop after a store error (see Findings).

## Model

| member | source | states |
|---|---|---|
| `Ids.NewIdSerialBelow` | internal/store/in_memory_store.go:33 | the id drawn when the generator stands at n spells a number below a bound exactly when n is below it, so a newly drawn id differs from every id that spells a number below the counter, which every stored id does |
| `Ids.NewIdInjective` | internal/store/in_memory_store.go:77 | different generator states give different ids |
| `Store.EmptyStoreIsValid` | internal/store/in_memory_store.go:21-26 | a new store satisfies the invariant, has no posts and no comment lists, lists no comments for any id, and finds no post |
| `Store.InMemoryStore.constructor` | internal/store/in_memory_store.go:21-26 | `NewInMemoryStore` yields a valid store whose post and comment maps are both empty |
| `Store.AddPostAddsOnePost` | internal/store/in_memory_store.go:29-38 | `CreatePost` always succeeds. It gives the record an id no stored post has, stamps it with the given time and keeps its content. It adds exactly that key, leaves every other post and the whole comment map unchanged, and afterwards looking the id up returns the record |
| `Store.AddPostPreservesInv` | internal/store/in_memory_store.go:29-38 | creating a post preserves the store invariant (referential integrity, records keyed by their ids, ids below the counter, unique comment ids) |
| `Store.InMemoryStore.CreatePost` | internal/store/in_memory_store.go:29-38 | the method updates its maps as `AddPost` says: nil error, the caller's record completed with a fresh id and the time, `posts` gains exactly that entry, `comments` is unchanged, and the store stays valid |
| `Store.InMemoryStore.GetPost` | internal/store/in_memory_store.go:41-51 | returns the stored post exactly when the id is a key, and that post carries the id asked for. Otherwise it returns the error "post not found". It changes nothing |
| `Store.InMemoryStore.GetAllPosts` | internal/store/in_memory_store.go:54-64 | returns every stored post exactly once in some order. The length equals the number of posts, so an empty store gives an empty list. There is never an error |
| `Store.AddCommentRefusesUnknownPost` | internal/store/in_memory_store.go:72-75 | a comment whose post id is not stored is refused with "post with id <PostID> not found". The store and the caller's record are left unchanged |
| `Store.AddCommentAppends` | internal/store/in_memory_store.go:72-81 | a comment on a stored post succeeds. It gets a fresh id (distinct from every stored comment id) and the given time. It is appended at the end of its post's list, so the length grows by one and the old list is a prefix. Every other list and all posts are unchanged |
| `Store.AddCommentPreservesInv` | internal/store/in_memory_store.go:68-82 | creating a comment, whether it succeeds or is refused, preserves the invariant: comment lists only under existing posts, each comment under its own post id, unique comment ids |
| `Store.InMemoryStore.CreateComment` | internal/store/in_memory_store.go:68-82 | the method updates its maps as `AddComment` says. It fails exactly when the post id is not a key, and then returns the not-found message and changes nothing. Otherwise `posts` is unchanged and only the named post's list gains the completed record at its end |
| `Store.InMemoryStore.GetCommentsByPostID` | internal/store/in_memory_store.go:85-95 | returns the post's comment list as stored, in insertion order, and never an error. Every listed comment carries the id asked for. An unknown post id gives the empty list |
| `Store.WritesOnlyExtend` | internal/store/in_memory_store.go:29-81 | neither write removes or alters a stored post, and every comment list only grows at its end (append-only) |
| `Store.PostThenComment` | internal/store/in_memory_store.go:29-95 | creating a post and then a comment on its new id succeeds. The comment names the post, the post can be found, and listing the post's comments gives exactly that one comment |
| `Store.NoLostComments` | internal/store/in_memory_store.go:68-82 | n successive comments on one stored post lengthen its list by exactly n, keep the old list as a prefix and preserve the invariant: no update is lost |
| `CommentHandlers.CreateCommentReply` | internal/handler/comment_handler.go:67-78 | for any store answer: success gives 201 with the completed comment as JSON. An error whose text is exactly "post with id "+postID+" not found" gives 404 and forwards that text. Any other error gives 500 with "Failed to create comment" |
| `CommentHandlers.CommentsReply` | internal/handler/comment_handler.go:93-101 | once the post is known: a listing error gives 500 with "Failed to retrieve comments", otherwise 200 with the listed comments |
| `CommentHandlers.PostCommentsReply` | internal/handler/comment_handler.go:87-101 | for any answers of the two store calls: any lookup error, whatever its reason, gives 404 "Post not found". Once the post is found, a listing error gives 500 "Failed to retrieve comments" and a listing gives 200 with those comments |
| `CommentHandlers.CommentHandler.constructor` | internal/handler/comment_handler.go:24-30 | the handler holds the given store and markdown converter |
| `CommentHandlers.CommentHandler.CreateComment` | internal/handler/comment_handler.go:38-79 | 400 exactly for an undecodable body ("Invalid request body") or empty content ("Comment content cannot be empty"). 500 exactly when the markdown conversion fails ("Failed to parse markdown"). In all three cases the store is not touched. Otherwise the record sent to the store carries the URL's post id and the request's content. The answer is 404 exactly when the post is absent, with the store's "post with id <postID> not found" text (store unchanged), and otherwise 201 with the comment, which now carries a fresh id, appended to that post's list alone |
| `CommentHandlers.CommentHandler.GetCommentsForPost` | internal/handler/comment_handler.go:86-102 | 404 "Post not found" exactly when the post is absent. Otherwise 200 with that post's comments in insertion order |
| `PostHandlers.CreatePostReply` | internal/handler/post_handler.go:50-56 | as written: a store success gives 201 with the post. A store error gives status 500 with the error text followed by the post's JSON, because the handler does not return after the error |
| `PostHandlers.CreatePostReplyIntended` | internal/handler/post_handler.go:50-56 | as intended: 201 exactly on success and 500 exactly on error, with a single payload. On success it is the post, on error the text "Failed to create post" alone |
| `PostHandlers.CreatePostRepliesAgree` | internal/handler/post_handler.go:50-56 | the written and the intended answers coincide exactly when the store succeeds |
| `PostHandlers.PostsReply` | internal/handler/post_handler.go:65-73 | 200 with the listing when the store succeeds, 500 with "Failed to retrieve posts" exactly when it errs |
| `PostHandlers.PostWithCommentsReply` | internal/handler/post_handler.go:90-101 | once the post was found: 200 with the post and its comments embedded, or 500 with a JSON error when the comment listing errs |
| `PostHandlers.PostByIdReply` | internal/handler/post_handler.go:84-101 | for any answers of the two store calls: any lookup error, whatever its reason, gives 404 with that error's text as JSON. Once the post is found, a listing error gives 500 with `{"error": "Failed to retrieve comments for post"}` and a listing gives 200 with the post and its comments |
| `PostHandlers.PostHandler.constructor` | internal/handler/post_handler.go:26-30 | the handler holds the given store |
| `PostHandlers.PostHandler.CreatePost` | internal/handler/post_handler.go:38-57 | 400 exactly for an undecodable body (with the decoder's message) or empty content ("Post content cannot be empty"), with the store untouched. Otherwise 201 with the post as the store completed it: a fresh id and the current time replace whatever the client sent, the post is the one new entry, and comments are unchanged. The answer always has one payload, as the intended reply does, because this store never fails |
| `PostHandlers.PostHandler.GetAllPosts` | internal/handler/post_handler.go:64-74 | 200 with a JSON list holding every stored post exactly once |
| `PostHandlers.PostHandler.GetPostByID` | internal/handler/post_handler.go:81-102 | 404 with the store's error as JSON exactly when the post is absent. Otherwise 200 with the stored post, which carries the requested id, together with exactly the store's comment list for that id |

## Findings

| source | as written | input that shows it | evidently intended | confidence | as-written member | corrected member |
|---|---|---|---|---|---|---|
| internal/handler/post_handler.go:50-52 | after `http.Error(w, "Failed to create post", 500)` there is no `return`, so the handler goes on to `WriteHeader(201)` (ignored) and encodes the post | a `Store` whose `CreatePost` returns an error: the response is status 500 with body "Failed to create post" followed by the post's JSON | return after reporting the error: status 500 with the error text only | not executed; the in-memory store never returns an error, so only another `Store` implementation shows it | `PostHandlers.CreatePostReply` | `PostHandlers.CreatePostReplyIntended` |

`PostHandlers.PostHandler.CreatePost` runs the code as written. Its contract is the intended reply: `CreatePostRepliesAgree` shows that the two coincide on store success, which is the only answer the in-memory store gives.

## Left out

- Locking: the `sync.RWMutex` is not modelled. Each store method is one atomic sequential step, so concurrent interleavings are not covered. `Store.NoLostComments` states the sequential form of "no lost updates".
- `uuid.NewString()` is replaced by a serial counter (`nextSerial`) whose ids are decimal numbers. Only uniqueness is modelled, not the uuid format.
- `time.Now()` is a `now` parameter of each write. Its value is never inspected.
- The markdown converter (goldmark) is an arbitrary function `markdown: string -> Option<string>` held by the handler. `None` stands for a conversion error, and the HTML it produces is not modelled.
- JSON decoding is an input `Decoded<T>` (the decoder's error or the value). JSON encoding keeps the encoded value rather than its text. Encoder errors and the marshal-failure branch of `RespondWithJSON` are not modelled, because these values always marshal.
- Response headers (Content-Type) and the trailing newline `http.Error` adds are not modelled.
- The `Store` interface (internal/store/store.go:8-24) is not a separate abstraction. The handlers hold the concrete `InMemoryStore`. Store errors this store never produces are covered by the `...Reply` functions, which take any store answer as input. These functions cover every store call the handlers make: `CreateCommentReply`, `PostCommentsReply` (which includes its `CommentsReply`), `CreatePostReply`, `PostsReply` and `PostByIdReply` (which includes its `PostWithCommentsReply`). Both lookups therefore show that any `GetPost` error, not only "post not found", reaches the client as a 404.
- Shared records: records are values. The store never changes a record after filing it. The fact that `GetCommentsByPostID` returns the store's own slice is not observable here.
- `GetAllPosts`: the map's iteration order is modelled by an arbitrary choice, so no order is promised.
- The router, middleware, health endpoint and server start (cmd/api/main.go) are not modelled. `chi.URLParam` is replaced by a plain `postId` argument.
- internal/model/post.go is not part of this model. The `Post` fields `ID`, `Content` and `CreatedAt` are inferred from their uses in the store and the post handler.
