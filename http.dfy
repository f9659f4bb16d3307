/** What a handler leaves behind in Go's `http.ResponseWriter`, and the helpers the
    handlers write through (`http.Error`, `json.NewEncoder(w).Encode`, and
    `RespondWithJSON` / `RespondWithError` of internal/handler/utils.go).

    A response is the status of the first `WriteHeader` call, or 200 when the body is
    written before any header (later `WriteHeader` calls are ignored), and the payloads
    written, in order. Header fields such as Content-Type are not modelled, and JSON is
    kept as the value that was encoded rather than as text. */
module Http {
  import opened Wrappers
  import opened Model

  const StatusOK: int := 200
  const StatusCreated: int := 201
  const StatusBadRequest: int := 400
  const StatusNotFound: int := 404
  const StatusInternalServerError: int := 500

  /** A request body as the JSON decoder left it: the decoder's error, or the value. */
  datatype Decoded<T> = Malformed(reason: string) | Decoded(value: T)

  /** The values the handlers encode as JSON. */
  datatype Json =
    | PostJson(post: Post)
    | PostsJson(posts: seq<Post>)
    | CommentJson(comment: Comment)
    | CommentsJson(comments: seq<Comment>)
    | PostResponseJson(post: Post, comments: seq<Comment>)  // `PostResponse`: a post and its comments
    | ErrorJson(error: string)                              // `ErrorResponse`

  /** One write to the body: a plain-text error line, or an encoded JSON value. */
  datatype Payload = Text(text: string) | Encoded(json: Json)

  datatype Response = Response(status: Option<int>, body: seq<Payload>)

  /** The writer as the handler receives it. */
  const Unwritten: Response := Response(None, [])

  function WriteHeader(w: Response, code: int): Response {
    if w.status.None? then w.(status := Some(code)) else w
  }

  function Write(w: Response, p: Payload): Response {
    var headed := WriteHeader(w, StatusOK);
    headed.(body := headed.body + [p])
  }

  /** `http.Error(w, message, code)`. */
  function Error(w: Response, message: string, code: int): Response {
    Write(WriteHeader(w, code), Text(message))
  }

  /** `WriteHeader(code)` followed by `json.NewEncoder(w).Encode(v)`. */
  function WriteJson(w: Response, code: int, v: Json): Response {
    Write(WriteHeader(w, code), Encoded(v))
  }

  /** `RespondWithJSON`; marshalling the values above cannot fail, so its 500 branch is
      not reachable from the handlers. */
  function RespondWithJSON(w: Response, code: int, v: Json): Response {
    WriteJson(w, code, v)
  }

  /** `RespondWithError`: the message wrapped in `{"error": ...}`. */
  function RespondWithError(w: Response, code: int, message: string): Response {
    RespondWithJSON(w, code, ErrorJson(message))
  }
}
