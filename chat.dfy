/** One chat turn of the SOP assistant (app/api/chat/route.ts, `POST`):
    pick the last user message, retrieve matching SOP documents for it, turn
    them into a context block, splice that block into the prompt as a system
    message, and, once the completion has streamed, build the conversation
    record that is upserted. The embedding call, the similarity search and the
    completion are parameters; a retrieval step that throws or returns no data
    is `None`. */
module Chat {
  import opened Types
  import opened Text

  const MatchThreshold: real := 0.5
  const MatchCount: nat := 3
  const ExcerptLength: nat := 1000
  const TitleLength: nat := 100
  const ContextPreamble: string := "Here is information from relevant SOP documents:\n\n"
  const BlockSeparator: string := "\n\n"
  const AnswerInstruction: string :=
    "Answer the user's question based on the information from these SOP documents. "
    + "If the documents don't contain relevant information, say so and provide a general answer. "
    + "Reference specific documents in your answer when possible (e.g., \"According to Document 1...\")."
  const ChatPathPrefix: string := "/chat/"

  // ---------------------------------------------------------------------------
  // The last user message

  /** `messages.filter(m => m.role === 'user')`. */
  function UserMessages(messages: seq<Message>): seq<Message>
  {
    if messages == [] then []
    else
      var last := messages[|messages| - 1];
      UserMessages(messages[..|messages| - 1]) + (if last.role == User then [last] else [])
  }

  /** `.pop()` of the filtered list: its last element, if any. */
  function LastUserMessage(messages: seq<Message>): Option<Message>
  {
    var users := UserMessages(messages);
    if users == [] then None else Some(users[|users| - 1])
  }

  /** Reference definition: the position of the last message whose role is `user`. */
  function LastUserIndex(messages: seq<Message>): (r: Option<nat>)
    ensures r.None? ==> forall i :: 0 <= i < |messages| ==> messages[i].role != User
    ensures r.Some? ==> r.value < |messages| && messages[r.value].role == User
    ensures r.Some? ==> forall j :: r.value < j < |messages| ==> messages[j].role != User
  {
    if messages == [] then None
    else if messages[|messages| - 1].role == User then Some(|messages| - 1)
    else LastUserIndex(messages[..|messages| - 1])
  }

  /** The filtered-and-popped message is the last message whose role is `user`,
      and there is none exactly when no message has that role. */
  lemma {:induction false} LastUserMessageIsLastUserRole(messages: seq<Message>)
    ensures LastUserMessage(messages).None? <==> LastUserIndex(messages).None?
    ensures LastUserIndex(messages).Some? ==>
      LastUserMessage(messages) == Some(messages[LastUserIndex(messages).value])
  {
    if messages != [] {
      var n := |messages|;
      var init := messages[..n - 1];
      var last := messages[n - 1];
      LastUserMessageIsLastUserRole(init);
      assert UserMessages(messages) == UserMessages(init) + (if last.role == User then [last] else []);
      if last.role == User {
        assert LastUserIndex(messages) == Some(n - 1);
      } else {
        assert UserMessages(messages) == UserMessages(init);
        assert LastUserIndex(messages) == LastUserIndex(init);
        if LastUserIndex(init).Some? {
          assert init[LastUserIndex(init).value] == messages[LastUserIndex(init).value];
        }
      }
    }
  }

  // ---------------------------------------------------------------------------
  // The context block

  /** A document body: its first 1000 characters, with `...` when it was cut. */
  function Excerpt(content: string): (r: string)
    ensures |content| <= ExcerptLength ==> r == content
    ensures |content| > ExcerptLength ==> r == content[..ExcerptLength] + "..."
  {
    Take(content, ExcerptLength) + (if |content| > ExcerptLength then "..." else "")
  }

  /** `Document <index> [<category> - <title>]:`. */
  function DocumentLabel(index: nat, doc: SearchResult): string
  {
    "Document " + DecimalString(index) + " [" + doc.category + " - " + doc.title + "]:"
  }

  /** The block for one retrieved document: its label, a newline, its excerpt. */
  function DocumentBlock(index: nat, doc: SearchResult): string
  {
    DocumentLabel(index, doc) + "\n" + Excerpt(doc.content)
  }

  /** `documents.map((doc, index) => ...)`: one block per document, numbered from 1. */
  function DocumentBlocks(docs: seq<SearchResult>): (blocks: seq<string>)
  {
    seq(|docs|, i requires 0 <= i < |docs| => DocumentBlock(i + 1, docs[i]))
  }

  /** The context text built from a non-empty list of retrieved documents. */
  function AssembleContext(docs: seq<SearchResult>): string
  {
    ContextPreamble + Join(DocumentBlocks(docs), BlockSeparator) + "\n\n"
  }

  /** The blocks before block `i`, each followed by a blank line. */
  function BlocksBefore(docs: seq<SearchResult>, i: nat): string
    requires i <= |docs|
  {
    if i == 0 then "" else Join(DocumentBlocks(docs)[..i], BlockSeparator) + BlockSeparator
  }

  /** The blocks after block `i`, each preceded by a blank line. */
  function BlocksAfter(docs: seq<SearchResult>, i: nat): string
    requires i < |docs|
  {
    if i == |docs| - 1 then "" else BlockSeparator + Join(DocumentBlocks(docs)[i + 1..], BlockSeparator)
  }

  /** The context holds one block per document, in input order: block `i` carries
      label `i + 1` and the excerpt of document `i`, with a blank line between
      consecutive blocks, after the fixed preamble and before the trailing blank line. */
  lemma ContextHoldsEachDocumentInOrder(docs: seq<SearchResult>, i: nat)
    requires i < |docs|
    ensures |DocumentBlocks(docs)| == |docs|
    ensures AssembleContext(docs) ==
      ContextPreamble + (BlocksBefore(docs, i) + DocumentBlock(i + 1, docs[i]) + BlocksAfter(docs, i)) + "\n\n"
  {
    var blocks := DocumentBlocks(docs);
    JoinAt(blocks, BlockSeparator, i);
    assert blocks[i] == DocumentBlock(i + 1, docs[i]);
  }

  // ---------------------------------------------------------------------------
  // The prompt

  /** The system message carrying the context and the fixed instruction. */
  function ContextMessage(context: string): Message
  {
    Message(System, context + AnswerInstruction, None)
  }

  /** The messages sent for completion: `messages` itself when there is no
      context, otherwise `messages` with the context message spliced in at
      `length - 1`. */
  function BuildPrompt(messages: seq<Message>, context: string): (prompt: seq<Message>)
    ensures context == "" ==> prompt == messages
    ensures context != "" ==> |prompt| == |messages| + 1
    ensures context != "" && messages != [] ==>
      && prompt[|messages| - 1] == ContextMessage(context)
      && prompt[|messages|] == messages[|messages| - 1]
      && RemoveAt(prompt, |messages| - 1) == messages
    ensures context != "" && messages == [] ==> prompt == [ContextMessage(context)]
  {
    if context == "" then messages
    else SpliceInsert(messages, |messages| - 1, ContextMessage(context))
  }

  /** When the conversation ends with a user message, the context message sits
      immediately before it, and that message is still the last user message. */
  lemma ContextPrecedesTrailingUserMessage(messages: seq<Message>, context: string)
    requires context != "" && messages != [] && messages[|messages| - 1].role == User
    ensures LastUserIndex(BuildPrompt(messages, context)) == Some(|messages|)
    ensures BuildPrompt(messages, context)[|messages| - 1] == ContextMessage(context)
  {
  }

  /** The splice goes by position, not by role: when the conversation ends with
      a message of another role, the context lands after the last user message. */
  lemma {:induction false} ContextFollowsLastUserMessageOtherwise(messages: seq<Message>, context: string)
    requires context != "" && messages != [] && messages[|messages| - 1].role != User
    ensures LastUserIndex(BuildPrompt(messages, context)) == LastUserIndex(messages)
    ensures LastUserIndex(messages).Some? ==> LastUserIndex(messages).value < |messages| - 1
  {
    var n := |messages|;
    var init := messages[..n - 1];
    var prompt := BuildPrompt(messages, context);
    assert prompt == init + [ContextMessage(context)] + [messages[n - 1]];
    assert prompt[..n] == init + [ContextMessage(context)];
    assert prompt[..n][..n - 1] == init;
    assert LastUserIndex(prompt) == LastUserIndex(prompt[..n]);
    assert LastUserIndex(prompt[..n]) == LastUserIndex(init);
  }

  // ---------------------------------------------------------------------------
  // The turn up to the start of streaming

  /** An external call made while preparing the turn. */
  datatype ChatCall =
    | Embed(text: string)
    | MatchDocuments(embedding: Embedding, threshold: real, count: nat)

  /** What the handler does with a request: refuse it (401), or stream a
      completion of `prompt`, having made `calls`, with the context and the
      source documents the completion hook will persist. */
  datatype ChatTurn =
    | Unauthorized
    | Streaming(calls: seq<ChatCall>, prompt: seq<Message>, sopContext: string, sourceDocuments: seq<SearchResult>)

  /** Prepare a chat turn. A missing or empty user id is refused. Retrieval is best effort: an embedding or a search
      that fails leaves the context empty and the turn goes on. */
  method Post(
    userId: Option<string>,
    messages: seq<Message>,
    embed: string -> Option<Embedding>,
    matchDocuments: (Embedding, real, nat) -> Option<seq<SearchResult>>)
    returns (turn: ChatTurn)
    ensures turn.Unauthorized? <==> userId.None? || userId.value == ""
    ensures turn.Streaming? && LastUserMessage(messages).None? ==>
      turn.calls == [] && turn.sopContext == "" && turn.sourceDocuments == [] && turn.prompt == messages
    ensures turn.Streaming? && LastUserMessage(messages).Some? ==>
      var query := LastUserMessage(messages).value.content;
      && |turn.calls| >= 1 && turn.calls[0] == Embed(query)
      && (embed(query).None? ==> turn.calls == [Embed(query)] && turn.sourceDocuments == [])
      && (embed(query).Some? ==>
            var e := embed(query).value;
            && turn.calls == [Embed(query), MatchDocuments(e, MatchThreshold, MatchCount)]
            && turn.sourceDocuments == matchDocuments(e, MatchThreshold, MatchCount).GetOr([]))
    ensures turn.Streaming? ==> (turn.sopContext != "" <==> turn.sourceDocuments != [])
    ensures turn.Streaming? && turn.sourceDocuments != [] ==>
      turn.sopContext == AssembleContext(turn.sourceDocuments)
    ensures turn.Streaming? ==> turn.prompt == BuildPrompt(messages, turn.sopContext)
  {
    if userId.None? || userId.value == "" {
      return Unauthorized;
    }
    var calls: seq<ChatCall> := [];
    var lastUserMessage := LastUserMessage(messages);
    var sopContext := "";
    var sourceDocuments: seq<SearchResult> := [];
    if lastUserMessage.Some? {
      var query := lastUserMessage.value.content;
      calls := calls + [Embed(query)];
      var embedding := embed(query);
      if embedding.Some? {
        calls := calls + [MatchDocuments(embedding.value, MatchThreshold, MatchCount)];
        var documents := matchDocuments(embedding.value, MatchThreshold, MatchCount);
        if documents.Some? && |documents.value| > 0 {
          sourceDocuments := documents.value;
          sopContext := AssembleContext(documents.value);
        }
      }
    }
    var promptMessages := messages;
    if sopContext != "" {
      promptMessages := SpliceInsert(promptMessages, |promptMessages| - 1, ContextMessage(sopContext));
    }
    turn := Streaming(calls, promptMessages, sopContext, sourceDocuments);
  }

  // ---------------------------------------------------------------------------
  // The record upserted when the completion has streamed

  datatype ChatRecord = ChatRecord(
    id: string, title: string, userId: string, createdAt: int, path: string, messages: seq<Message>)

  /** The conversation payload of the completion hook. `requestId` is the id the
      request carried, `freshId` the one generated otherwise, `now` the clock.
      With no first message, reading its content throws: no record. */
  function CompletionRecord(
    messages: seq<Message>, sourceDocuments: seq<SearchResult>, userId: string,
    requestId: Option<string>, freshId: string, now: int, completion: string): (r: Option<ChatRecord>)
    ensures r.None? <==> messages == []
    ensures r.Some? ==> |r.value.messages| == |messages| + 1
    ensures r.Some? ==>
      var reply := r.value.messages[|messages|];
      && r.value.messages[..|messages|] == messages
      && reply.role == Assistant && reply.content == completion
      && (reply.sourceDocuments.Some? <==> sourceDocuments != [])
      && (sourceDocuments != [] ==> reply.sourceDocuments.value == sourceDocuments)
    ensures r.Some? ==>
      && r.value.title == Take(messages[0].content, TitleLength)
      && r.value.title <= messages[0].content
      && |r.value.title| == (if |messages[0].content| < TitleLength then |messages[0].content| else TitleLength)
      && (|messages[0].content| <= TitleLength ==> r.value.title == messages[0].content)
    ensures r.Some? ==>
      && (requestId.Some? ==> r.value.id == requestId.value)
      && (requestId.None? ==> r.value.id == freshId)
      && r.value.path == ChatPathPrefix + r.value.id
      && r.value.userId == userId && r.value.createdAt == now
  {
    if messages == [] then None
    else
      var id := requestId.GetOr(freshId);
      var reply := Message(Assistant, completion, if |sourceDocuments| > 0 then Some(sourceDocuments) else None);
      Some(ChatRecord(id, Take(messages[0].content, TitleLength), userId, now, ChatPathPrefix + id, messages + [reply]))
  }
}
