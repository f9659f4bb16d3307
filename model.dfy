/** The two records the service stores (package `model`). Records are values here: the
    store never changes a record after inserting it, so sharing of pointers between the
    store and its callers is not observable and is not modelled. */
module Model {

  /** Wall-clock instant as returned by the system clock; the model never inspects it. */
  type Timestamp = nat

  /** The zero `time.Time` a freshly decoded record carries before the store stamps it. */
  const ZeroTime: Timestamp := 0

  /** A blog post: `ID`, `Content` and `CreatedAt`. */
  datatype Post = Post(id: string, content: string, createdAt: Timestamp)

  /** A comment on a post: its raw markdown text and the HTML rendered from it. */
  datatype Comment = Comment(
    id: string,
    postId: string,
    contentRaw: string,
    contentHtml: string,
    createdAt: Timestamp)
}
