# SOP chatbot route handlers in Dafny

This project models the server core of an SOP (standard operating procedure)
chatbot for pharmacy staff. It covers three route handlers:

- **Chat turn** (`app/api/chat/route.ts`, `POST`). The handler picks the last user message and retrieves
  up to three matching SOP documents for it. It renders them as a numbered context block and splices
  that block into the prompt as a system message. Once the completion has streamed, it builds the
  conversation record that is upserted. Retrieval is best effort: a failed embedding or search leaves
  the context empty, and the chat goes on without it.
- **Document upload** (`app/api/sop/route.ts`, `POST`). The handler runs an ordered chain of checks:
  session, form, required fields, size limit, then MIME allow-list. It then extracts the text, embeds
  it and inserts the new document.
- **Category statistics** (`app/api/sop/stats/route.ts`, `GET`). The handler returns the document
  count, plus one entry per category with its number of documents, most frequent first.

The records of `lib/types.ts` (`SearchResult`, `ChatWithSOPContext`, `SopCategory`) are datatypes in
`types.dfy`. The JavaScript string and array operations the handlers use are in `text.dfy`:
`substring(0, n)`, `split`, `join`, `splice` and number rendering.

The session lookup is passed in as its result: the signed-in user's id, or `None` when no user is
signed in. The other calls into code outside the handlers are function-valued parameters: the
OpenAI embedding, the `match_documents` search, text extraction, the database insert and
`parseInt`. A `None` from one of them means it threw, or returned null or `NaN`. The upload and chat
handlers record each external call in order, in a `calls` trace. So "nothing is extracted, embedded
or stored before validation passes" can be stated and proved.

The statistics handler is imperative:

- a counting loop over the rows fills an insertion-ordered `Map`, modelled as a key list plus a map
  of counts;
- the entries go into an array;
- the array is sorted in place by a stable insertion sort, proved equal to the function
  `SortByCount`.

JavaScript's `Array.prototype.sort` is stable, so with the comparator `b.count - a.count` it puts
entries in the same order.

The chat handler's own comment (app/api/chat/route.ts:89) reads "Insert SOP context before the last
user message". The code under it (line 90) splices it in at `length - 1`, that is, before
the last message, whatever its role. The model follows the code.
`Chat.ContextPrecedesTrailingUserMessage` and `Chat.ContextFollowsLastUserMessageOtherwise` state
where the context lands in each case.

## Model

| member | source | states |
|---|---|---|
| Chat.LastUserIndex | app/api/chat/route.ts:50-52 | Reference definition of the last user message: the index it names has role `user` and no later message does; with no index, no message has role `user` |
| Chat.LastUserMessageIsLastUserRole | app/api/chat/route.ts:50-52 | Filtering on role `user` and popping gives the message at the last index with role `user`, and gives nothing exactly when no message has that role |
| Chat.Excerpt | app/api/chat/route.ts:76 | Content of at most 1000 characters is kept as is; longer content becomes its first 1000 characters followed by `...` |
| Chat.ContextHoldsEachDocumentInOrder | app/api/chat/route.ts:74-78 | The context is the fixed preamble, then one block per document in input order (block `i` labelled `Document i+1 [category - title]:` with the document's excerpt, blocks separated by a blank line), then a trailing blank line |
| Chat.BuildPrompt | app/api/chat/route.ts:86-94 | An empty context leaves the messages unchanged. Otherwise the prompt is one longer and the context message sits at `length - 1`, just before the last message. Removing it gives back the original messages. With no messages the prompt is only the context message |
| Chat.ContextPrecedesTrailingUserMessage | app/api/chat/route.ts:88-93 | When the conversation ends with a user message, the context message is immediately before it and that message stays the last user message |
| Chat.ContextFollowsLastUserMessageOtherwise | app/api/chat/route.ts:88-93 | When the conversation ends with a message of another role, the last user message keeps its index and the context is placed after it |
| Chat.Post | app/api/chat/route.ts:37-94 | 401 exactly when the user id is missing or empty (`!userId`). Without a user message nothing is called and the prompt is the messages unchanged. Otherwise it embeds the last user message's content; only on success does it search with threshold 0.5 and count 3. The source documents are what the search returned (none on failure). The context is non-empty exactly when there are source documents, and then equals the assembled context. The prompt is `BuildPrompt` of the messages and the context |
| Chat.CompletionRecord | app/api/chat/route.ts:105-123 | No record when there is no first message. The stored messages are the request's messages followed by one assistant reply carrying the completion. The reply has source documents exactly when some were retrieved. The title is the first message's first 100 characters (all of it when shorter). The id is the request's id or a fresh one, with path `/chat/<id>`, the caller's user id and the clock's time |
| Text.Take | app/api/chat/route.ts:105 | `substring(0, n)` is a prefix of the string whose length is the smaller of `n` and the string's length |
| Text.SpliceInsert | app/api/chat/route.ts:90-93 | `splice(start, 0, item)` grows the list by one and puts `item` at the relative start index; removing it gives back the list |
| Text.SpliceIndex | app/api/chat/route.ts:90 | A start index within the list is used as is, and a negative one counts from the end. A start past the end is clamped to the length, and one before `-length` to 0 |
| Text.SplitPiecesAreFree | app/api/sop/route.ts:67 | No piece of `split(c)` contains `c` |
| Text.JoinSplit | app/api/sop/route.ts:67 | Joining the pieces of `split(c)` with `c` gives back the string |
| Text.SplitJoin | app/api/sop/route.ts:67 | Splitting the join of separator-free pieces gives back the pieces |
| Upload.ValidateForm | app/api/sop/route.ts:50-73 | Missing fields exactly when title or category is absent or empty, or there is no file. Otherwise too large exactly when the size exceeds a parsed limit. Otherwise unsupported exactly when the MIME type is not in the allow-list. Otherwise the fields are accepted as given |
| Upload.Post | app/api/sop/route.ts:39-106 | 401 and no call without a session. An unreadable form gives 500 (processing failed) after reading it. A rejected form gives the field check's 400 response, with only the form read. An accepted form is extracted, then embedded, then inserted, each step only if the previous one succeeded. A failed extraction or embedding gives 500 (processing failed). A failed insert gives 500 (save failed). A successful insert gives 201 with the first returned row, or none when no row came back. The inserted record is the title, category, extracted text, MIME type, the session's user id and the embedding |
| Upload.RejectedFormReachesNoExternalStep | app/api/sop/route.ts:50-79 | A rejected form gives the same response and trace whatever extraction, embedding and insert would do |
| Upload.DefaultAllowList | app/api/sop/route.ts:67 | Without configuration the allow-list is exactly `application/pdf` and `text/plain` |
| Upload.DefaultLimits | app/api/sop/route.ts:58-73 | Without configuration a file of 10485760 bytes passes the size check and is accepted exactly when it is PDF or plain text; a 10485761-byte file is too large |
| Upload.AllowListIsNotTrimmed | app/api/sop/route.ts:67-68 | Allow-list entries are not trimmed: with `application/pdf, text/plain` configured, `text/plain` is refused and ` text/plain` is allowed |
| Upload.UnparsableLimitAcceptsAnySize | app/api/sop/route.ts:58-59 | A configured limit that parses to `NaN` never rejects a file as too large |
| Stats.FirstIndex | app/api/sop/stats/route.ts:49-52 | The position of the first row with a given category: that row has it, no earlier row does |
| Stats.CountByCategory | app/api/sop/stats/route.ts:48-55 | The counting loop over the rows yields the tally: one entry per category in order of first appearance, each with its number of rows |
| Stats.TallyEntries | app/api/sop/stats/route.ts:48-55 | Every tally entry counts the rows of its category (at least one). Every row's category has an entry, and no category has two |
| Stats.TallySumsToRowCount | app/api/sop/stats/route.ts:48-55 | The tally's counts add up to the number of rows |
| Stats.InsertIntoSortedPrefix | app/api/sop/stats/route.ts:56 | One step of the in-place sort turns the sorted prefix plus the next entry into `Insert` of that entry and leaves the rest of the array unchanged |
| Stats.SortByCountInPlace | app/api/sop/stats/route.ts:56 | The array sorted in place equals `SortByCount` of its former contents |
| Stats.SortByCountSortsAndPermutes | app/api/sop/stats/route.ts:56 | The sort is a permutation of its input and has non-increasing counts |
| Stats.SortByCountIsStable | app/api/sop/stats/route.ts:56 | Entries of equal count keep their input order |
| Stats.SortByCountKeepsSum | app/api/sop/stats/route.ts:56 | Sorting keeps the sum of the counts |
| Stats.SortedTallyKeepsFirstAppearanceOrder | app/api/sop/stats/route.ts:48-56 | In the sorted tally, entries of equal count are ranked by their category's first row |
| Stats.SortedTallyCounts | app/api/sop/stats/route.ts:48-56 | Every sorted entry names a category among the rows and counts its rows, at least one |
| Stats.SortedTallyNamesEveryCategory | app/api/sop/stats/route.ts:48-56 | A category occurs among the rows exactly when some sorted entry names it |
| Stats.SortedTallyNamesEachCategoryOnce | app/api/sop/stats/route.ts:48-56 | No two sorted entries name the same category |
| Stats.SortedTallySum | app/api/sop/stats/route.ts:48-56 | The sorted counts add up to the number of rows |
| Stats.SortedTallyTiesInFirstAppearanceOrder | app/api/sop/stats/route.ts:48-56 | Among sorted entries of equal count, the category that first appears earlier among the rows comes first |
| Stats.Get | app/api/sop/stats/route.ts:13-63 | The handler's outcome and categories: see the paragraph after this table |

`Stats.Get` states:

- 401 exactly when there is no session;
- 500 exactly when either query failed;
- 200 exactly when there is a session and both queries succeeded;
- then the total is the count query's value, unchanged;
- each entry counts the rows of its category, at least one;
- every category among the rows is named, and only those, once each;
- the counts add up to the number of rows;
- counts are non-increasing;
- ties appear in order of first appearance.

## Left out

- Streaming and the completion call: the OpenAI chat completion, `OpenAIStream` and the streamed response are not modelled. The completion text is a parameter of `CompletionRecord`.
- The upsert into `chats` and its failure are not modelled. `CompletionRecord` builds the payload only.
- `previewToken` is not modelled. It overwrites the shared API key and only affects the external calls, which are parameters here.
- `generateEmbedding`, `extractTextFromFile`, `parseInt` and the Supabase queries are parameters, and the session lookup is an input value. Their internals and the session lookup's are outside the model, for example response parsing, PDF extraction and SQL.
- `parseInt` is applied to the default size limit `'10485760'` only by value. Without configuration the model uses the number 10485760 directly rather than calling the `parseInt` parameter.
- Environment variables are strings in which an unset variable is the empty string. JavaScript's `||` treats the two alike.
- Upload.Post: a form entry that is a string where a `File` is expected is not modelled. A file is present or absent.
- Upload.Post: the request body is only "read or failed". The form's own parsing errors lead to the same 500 as any other throw.
- Upload.Post: an exception thrown anywhere else inside the `try` block is not modelled separately. Failures come only from the external steps, each of which is modelled.
- Stats.Get: category values are strings. A `null` category, which JavaScript would use as its own `Map` key, is not modelled.
- Stats.Get: the count query's `null` count is `None` and is passed through unchanged.
- String lengths are counted in characters, whereas `substring` and `length` in JavaScript count UTF-16 code units. The 1000- and 100-character cuts match the source only for text without surrogate pairs.
- Message ids and other extra fields of chat messages are not modelled. A message is its role, its content and its optional source documents.
- A session lookup that throws is not modelled. The `auth()` calls (app/api/chat/route.ts:37, app/api/sop/route.ts:39, app/api/sop/stats/route.ts:13) sit outside any `try`, so such a throw escapes the handler rather than giving a 401 or 500.
- Chat.Post: a request body that does not parse is not modelled. `req.json()` (app/api/chat/route.ts:35) runs before the user check, so such a request throws before any 401. The model takes the parsed messages as given.
- The remaining routes are not modelled: the search route, the document list, document deletion, the pages and components. The similarity search itself is a parameter of `Chat.Post`.
