/** Records shared by the SOP chatbot's route handlers (lib/types.ts), and the
    optional-value wrapper they need for absent fields, nulls and failed calls. */
module Types {

  /** An absent (`undefined`, `null`) or present value. */
  datatype Option<T> = None | Some(value: T) {
    /** The value, or `default` when there is none (JavaScript's `??`). */
    function GetOr(default: T): T {
      match this
      case Some(v) => v
      case None => default
    }
  }

  /** The role of a chat message. `Other` stands for any further role string
      the chat library allows, never `user`, `assistant` or `system`, which are
      the three named constructors; the handlers only ever test for `user`. */
  datatype Role = User | Assistant | System | Other(name: string)

  /** An embedding vector, handled as an opaque value. */
  type Embedding = seq<real>

  /** One row of the similarity search (`SearchResult`). */
  datatype SearchResult = SearchResult(id: string, title: string, category: string, content: string, similarity: real)

  /** A chat message; `sourceDocuments` is set only on assistant replies that used retrieved documents
      (`ChatWithSOPContext`). */
  datatype Message = Message(role: Role, content: string, sourceDocuments: Option<seq<SearchResult>>)

  /** One entry of the category statistics (`SopCategory`). */
  datatype SopCategory = SopCategory(name: string, count: nat)
}
