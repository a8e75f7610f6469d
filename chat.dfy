/**
 * The turn handler of the chat page: on each submitted prompt it refreshes the
 * extracted-text cache when the uploaded file changed, assembles the prompt,
 * records the user turn, calls the completion endpoint and records the reply.
 * The page's session state is the `Session` object; the upload widget, the
 * chat input and the endpoint are parameters of `HandlePrompt`.
 */
module Chat {
  import opened Wrappers
  import opened PdfText
  import opened Completion
  import opened Prompting

  /** The upload widget's file: its name, and what the PDF parser makes of its bytes. */
  datatype UploadedFile = UploadedFile(name: string, document: PdfDocument)

  /**
   * The session fields `uploaded_file_name` and `doc_text`, which are always
   * set together; `docText` is `None` when the extraction failed.
   */
  datatype Cache = Cache(fileName: string, docText: Option<string>)

  /** The re-extraction test: no `doc_text` yet, or a cached name other than the upload's. */
  predicate NeedsExtraction(cache: Option<Cache>, file: UploadedFile): (b: bool)
    ensures cache.None? ==> b
    ensures cache.Some? && cache.value.fileName != file.name ==> b
    ensures cache.Some? && cache.value.fileName == file.name ==> !b
  {
    cache.None? || cache.value.fileName != file.name
  }

  /** The cache after the document step of one handled prompt. */
  function CacheAfter(cache: Option<Cache>, file: Option<UploadedFile>): (r: Option<Cache>)
    ensures file.None? ==> r == cache
    ensures file.Some? ==> r.Some? && r.value.fileName == file.value.name
    ensures file.Some? && !NeedsExtraction(cache, file.value) ==> r == cache
    ensures file.Some? && r != cache ==> r.value.docText == ExtractedText(file.value.document)
  {
    if file.Some? && NeedsExtraction(cache, file.value) then
      Some(Cache(file.value.name, ExtractedText(file.value.document)))
    else
      cache
  }

  /** The cached text the context block reads, `None` when there is none. */
  function CachedText(cache: Option<Cache>): Option<string> {
    if cache.Some? then cache.value.docText else None
  }

  /** The cache after a run of handled prompts, each made with the upload in `files`. */
  function Replay(cache: Option<Cache>, files: seq<Option<UploadedFile>>): Option<Cache>
    decreases |files|
  {
    if files == [] then cache else Replay(CacheAfter(cache, files[0]), files[1..])
  }

  /** How many of those prompts run the extraction. */
  function Extractions(cache: Option<Cache>, files: seq<Option<UploadedFile>>): nat
    decreases |files|
  {
    if files == [] then 0
    else (if files[0].Some? && NeedsExtraction(cache, files[0].value) then 1 else 0)
         + Extractions(CacheAfter(cache, files[0]), files[1..])
  }

  predicate AllNamed(files: seq<Option<UploadedFile>>, name: string) {
    forall i :: 0 <= i < |files| ==> files[i].Some? && files[i].value.name == name
  }

  /**
   * Any number of prompts made while files of one name are uploaded run the
   * extraction at most once, on the first prompt and only if the cache was
   * empty or held another name; the cache then keeps what that first step
   * left, even when a later upload of the same name has other contents.
   */
  lemma {:induction false} SameNameExtractsOnce(cache: Option<Cache>, files: seq<Option<UploadedFile>>, name: string)
    requires AllNamed(files, name)
    ensures Extractions(cache, files) == if files != [] && NeedsExtraction(cache, files[0].value) then 1 else 0
    ensures files != [] ==> Replay(cache, files) == CacheAfter(cache, files[0])
    decreases |files|
  {
    if files != [] {
      var next := CacheAfter(cache, files[0]);
      var rest := files[1..];
      assert AllNamed(rest, name) by {
        forall i | 0 <= i < |rest| ensures rest[i].Some? && rest[i].value.name == name {
          assert rest[i] == files[i + 1];
        }
      }
      SameNameExtractsOnce(next, rest, name);
      if rest != [] {
        assert rest[0] == files[1];
        assert !NeedsExtraction(next, rest[0].value);
        assert CacheAfter(next, rest[0]) == next;
      }
    }
  }

  /**
   * A failed extraction is cached as `None` under the file's name: later
   * prompts with that name do not try again and send no document context.
   */
  lemma FailedExtractionSticks(cache: Option<Cache>, files: seq<Option<UploadedFile>>, name: string)
    requires AllNamed(files, name) && files != []
    requires NeedsExtraction(cache, files[0].value)
    requires ExtractedText(files[0].value.document) == None
    ensures Replay(cache, files) == Some(Cache(name, None))
    ensures Extractions(cache, files) == 1
    ensures DocumentContext(true, CachedText(Replay(cache, files))) == ""
  {
    SameNameExtractsOnce(cache, files, name);
  }

  /** An upload under another name than the cached one is extracted again, whatever was cached. */
  lemma RenamedFileReextracts(cache: Option<Cache>, first: UploadedFile, second: UploadedFile)
    requires first.name != second.name
    ensures var c := CacheAfter(cache, Some(first));
      NeedsExtraction(c, second) && CacheAfter(c, Some(second)) == Some(Cache(second.name, ExtractedText(second.document)))
  {
  }

  /** A prompt in Python's truth sense: submitted and not empty. */
  predicate Truthy(prompt: Option<string>) {
    prompt.Some? && prompt.value != ""
  }

  /** The assistant turn a reply adds to the history: none when the call raised. */
  function AssistantTurns(reply: Option<string>): seq<Message> {
    if reply.Some? then [Message(Assistant, reply.value)] else []
  }

  /** What one run of the handler did: nothing, or what it extracted, sent and received. */
  datatype TurnOutcome =
    | Skipped
    | Handled(extracted: bool, fullPrompt: string, sent: seq<Message>, reply: Option<string>)

  /** The page's `st.session_state`: the chat history and the extracted-text cache. */
  class Session {
    var messages: seq<Message>
    var cache: Option<Cache>

    /** A new session: empty history, nothing cached. */
    constructor ()
      ensures messages == [] && cache == None
    {
      messages := [];
      cache := None;
    }

    /**
     * `get_llm_response`: sends the system turn, the whole history and the
     * new prompt, and returns the reply text, the error message of a failed
     * request, or `None` when the reply lacks its content field and the call
     * raises.
     */
    method GetLlmResponse(promptText: string, endpoint: seq<Message> -> CallOutcome)
      returns (reply: Option<string>, sent: seq<Message>)
      ensures sent == Payload(messages, promptText)
      ensures reply == ReplyText(endpoint(sent))
    {
      sent := Payload(messages, promptText);
      reply := ReplyText(endpoint(sent));
    }

    /**
     * The document step of a turn: extract again when the cache is empty or
     * names another file, then build the context block from the cached text.
     */
    method PrepareContext(file: Option<UploadedFile>) returns (extracted: bool, context: string)
      modifies this`cache
      ensures extracted == (file.Some? && NeedsExtraction(old(cache), file.value))
      ensures cache == CacheAfter(old(cache), file)
      ensures context == DocumentContext(file.Some?, CachedText(cache))
    {
      extracted := false;
      context := "";
      if file.Some? {
        if NeedsExtraction(cache, file.value) {
          var text := ExtractTextFromPdf(file.value.document);
          cache := Some(Cache(file.value.name, text));
          extracted := true;
        }
        context := DocumentContext(true, cache.value.docText);
      }
    }

    /**
     * The exchange of a turn: record the raw prompt as a user turn, send the
     * assembled prompt after the history that now holds it, and record the
     * returned text as an assistant turn unless the call raised.
     */
    method RecordExchange(question: string, promptText: string, endpoint: seq<Message> -> CallOutcome)
      returns (reply: Option<string>, sent: seq<Message>)
      modifies this`messages
      ensures sent == Payload(old(messages) + [Message(User, question)], promptText)
      ensures |sent| == |old(messages)| + 3
      ensures sent[|sent| - 2] == Message(User, question) && sent[|sent| - 1] == Message(User, promptText)
      ensures reply == ReplyText(endpoint(sent))
      ensures messages == old(messages) + [Message(User, question)] + AssistantTurns(reply)
      ensures !endpoint(sent).MalformedReply? ==>
        |messages| == |old(messages)| + 2 && messages[|messages| - 1] == Message(Assistant, reply.value)
    {
      var userTurn := Message(User, question);
      messages := messages + [userTurn];
      reply, sent := GetLlmResponse(promptText, endpoint);
      assert sent[|sent| - 2] == userTurn by {
        assert sent[1..|sent| - 1] == old(messages) + [userTurn];
      }
      if reply.Some? {
        messages := messages + [Message(Assistant, reply.value)];
      }
    }

    /**
     * The turn for a submitted, non-empty question: refresh the cache if it is
     * stale, assemble the prompt from it, and run the exchange.
     */
    method HandleQuestion(question: string, file: Option<UploadedFile>, endpoint: seq<Message> -> CallOutcome)
      returns (outcome: TurnOutcome)
      modifies this
      ensures outcome.Handled?
      ensures outcome.extracted == (file.Some? && NeedsExtraction(old(cache), file.value))
      ensures cache == CacheAfter(old(cache), file)
      ensures outcome.fullPrompt == FullPrompt(DocumentContext(file.Some?, CachedText(cache)), question)
      ensures outcome.sent == Payload(old(messages) + [Message(User, question)], outcome.fullPrompt)
      ensures |outcome.sent| == |old(messages)| + 3
      ensures outcome.sent[|outcome.sent| - 2] == Message(User, question)
      ensures outcome.sent[|outcome.sent| - 1] == Message(User, outcome.fullPrompt)
      ensures outcome.reply == ReplyText(endpoint(outcome.sent))
      ensures messages == old(messages) + [Message(User, question)] + AssistantTurns(outcome.reply)
      ensures !endpoint(outcome.sent).MalformedReply? ==>
        |messages| == |old(messages)| + 2 && messages[|messages| - 1] == Message(Assistant, outcome.reply.value)
    {
      var extracted, context := PrepareContext(file);
      var fullPrompt := FullPrompt(context, question);
      ghost var refreshed := cache;
      var reply, sent := RecordExchange(question, fullPrompt, endpoint);
      assert cache == refreshed;
      outcome := Handled(extracted, fullPrompt, sent, reply);
    }

    /**
     * One run of the page's main logic for the chat input `prompt`, with
     * `file` in the upload widget. A falsy prompt changes nothing and calls
     * nothing. Otherwise the cache is refreshed if stale, the raw prompt is
     * recorded, the assembled prompt is sent after the history that already
     * holds the raw prompt, and the reply (an error message included) is
     * recorded; only a reply that raises leaves the user turn unanswered.
     */
    method HandlePrompt(prompt: Option<string>, file: Option<UploadedFile>, endpoint: seq<Message> -> CallOutcome)
      returns (outcome: TurnOutcome)
      modifies this
      ensures !Truthy(prompt) ==> outcome == Skipped && messages == old(messages) && cache == old(cache)
      ensures Truthy(prompt) ==> outcome.Handled?
      ensures Truthy(prompt) ==> outcome.extracted == (file.Some? && NeedsExtraction(old(cache), file.value))
      ensures Truthy(prompt) ==> cache == CacheAfter(old(cache), file)
      ensures Truthy(prompt) ==> outcome.fullPrompt == FullPrompt(DocumentContext(file.Some?, CachedText(cache)), prompt.value)
      ensures Truthy(prompt) ==> outcome.sent == Payload(old(messages) + [Message(User, prompt.value)], outcome.fullPrompt)
      ensures Truthy(prompt) ==>
        |outcome.sent| == |old(messages)| + 3 &&
        outcome.sent[|outcome.sent| - 2] == Message(User, prompt.value) &&
        outcome.sent[|outcome.sent| - 1] == Message(User, outcome.fullPrompt)
      ensures Truthy(prompt) ==> outcome.reply == ReplyText(endpoint(outcome.sent))
      ensures Truthy(prompt) ==> messages == old(messages) + [Message(User, prompt.value)] + AssistantTurns(outcome.reply)
      ensures Truthy(prompt) && !endpoint(outcome.sent).MalformedReply? ==>
        |messages| == |old(messages)| + 2 && messages[|messages| - 1] == Message(Assistant, outcome.reply.value)
    {
      if !Truthy(prompt) {
        return Skipped;
      }
      outcome := HandleQuestion(prompt.value, file, endpoint);
    }
  }
}
