/**
 * The retrieve-augment-generate pipeline: the numbered context block built
 * from a retrieval result, the prompt sent to the language model, the
 * classification of the model's failures, and the result handed back to the
 * front ends.
 *
 * The vector-store query and the model call are outside the model: the
 * retrieval result is an input, and the model is a function from the request
 * it receives to its outcome.
 */
module RagPipeline {
  import opened Wrappers
  import opened PyStr
  import opened KnowledgeBase

  // ---------------------------------------------------------------------------
  // Data
  // ---------------------------------------------------------------------------

  /** The inner lists of a one-query store response, best match first as the store ranks them. */
  datatype Retrieval = Retrieval(documents: seq<string>, metadatas: seq<Metadata>, distances: seq<real>, ids: seq<string>)

  /** The store answers with four lists of one length; the pipeline itself does not rely on it. */
  predicate WellFormed(r: Retrieval)
  {
    |r.metadatas| == |r.documents| && |r.distances| == |r.documents| && |r.ids| == |r.documents|
  }

  /** One source attribution: the record's id, name and type. */
  datatype Source = Source(id: string, name: string, kind: string)

  datatype RAGResult = RAGResult(answer: string, sources: seq<Source>, retrievedDocs: seq<string>, distances: seq<real>)

  datatype Message = Message(role: string, content: string)

  datatype Request = Request(model: string, maxTokens: nat, system: string, messages: seq<Message>)

  /** Exceptions by kind: the model client's API errors, and any exception that is not one of them. */
  datatype ErrorKind = Authentication | RateLimit | OtherApi | NotApi

  datatype Exception = Exception(kind: ErrorKind, message: string)

  /** The `IndexError` that `metadatas[i]` raises past the end of the list. */
  const IndexOutOfRange: Exception := Exception(NotApi, "list index out of range")

  /** What the model call does: return the first content block's text, or raise. */
  datatype Outcome = Completed(text: string) | Raised(exception: Exception)

  /** What `generate_answer` does: return a result or let an exception out; and the request it sent, if any. */
  datatype Answered = Answered(result: Result<RAGResult, Exception>, request: Option<Request>)

  // ---------------------------------------------------------------------------
  // Fixed texts and settings
  // ---------------------------------------------------------------------------

  const ClaudeModel: string := "claude-sonnet-4-20250514"

  const MaxTokens: nat := 1024

  const SystemPrompt: string :=
    "You are ICRA, the Intelligent Campus Resource Assistant. Your job is to help "
    + "students, faculty, and visitors find information about campus facilities and "
    + "services.\n"
    + "\n"
    + "Rules:\n"
    + "- Answer ONLY based on the provided context documents. Do not make up information.\n"
    + "- If the context does not contain enough information to answer, say so honestly "
    + "and suggest where the user might find help.\n"
    + "- Be concise but helpful. Use bullet points when listing multiple items.\n"
    + "- Always mention the source facility name(s) you used to answer.\n"
    + "- If hours or contact info are in the context, include them in your answer.\n"

  const NoResultsAnswer: string :=
    "I couldn't find any relevant information in the campus "
    + "knowledge base. Please try rephrasing your question or "
    + "contact Student Services for help."

  const MissingKeyAnswer: string :=
    "ERROR: ANTHROPIC_API_KEY is not set. "
    + "Please add it to your .env file.\n"
    + "See .env.example for the expected format."

  const InvalidKeyAnswer: string := "ERROR: Invalid Anthropic API key. " + "Please check your .env file."

  const RateLimitAnswer: string := "ERROR: Rate limit exceeded. " + "Please wait a moment and try again."

  const ApiErrorPrefix: string := "ERROR: Anthropic API error \U{2014} "

  // ---------------------------------------------------------------------------
  // build_context_block
  // ---------------------------------------------------------------------------

  /** The block for the source numbered `n`, with its distance already formatted. */
  function Block(n: nat, document: string, distance: string): string
  {
    "--- Source " + NatToString(n) + " (similarity distance: " + distance + ") ---\n" + document + "\n"
  }

  /**
   * `enumerate(zip(docs, metadatas, distances), start)`, one block per triple:
   * it stops at the shortest of the three lists.
   */
  function Blocks(docs: seq<string>, metadatas: seq<Metadata>, distances: seq<real>,
                  format: real -> string, start: nat): seq<string>
  {
    if |docs| == 0 || |metadatas| == 0 || |distances| == 0 then []
    else [Block(start, docs[0], format(distances[0]))]
         + Blocks(docs[1..], metadatas[1..], distances[1..], format, start + 1)
  }

  function Min3(a: nat, b: nat, c: nat): nat
  {
    if a <= b && a <= c then a else if b <= c then b else c
  }

  /** The context block; `format` renders a distance with four decimals. */
  function ContextBlock(r: Retrieval, format: real -> string): string
  {
    Join("\n", Blocks(r.documents, r.metadatas, r.distances, format, 1))
  }

  /** There are as many blocks as the shortest list is long, numbered on from `start` in retrieval order. */
  lemma {:induction false} BlocksAt(docs: seq<string>, metadatas: seq<Metadata>, distances: seq<real>,
                                    format: real -> string, start: nat)
    ensures |Blocks(docs, metadatas, distances, format, start)| == Min3(|docs|, |metadatas|, |distances|)
    ensures forall i :: 0 <= i < |Blocks(docs, metadatas, distances, format, start)| ==>
              Blocks(docs, metadatas, distances, format, start)[i] == Block(start + i, docs[i], format(distances[i]))
  {
    if |docs| > 0 && |metadatas| > 0 && |distances| > 0 {
      BlocksAt(docs[1..], metadatas[1..], distances[1..], format, start + 1);
    }
  }

  /**
   * `build_context_block`: appends one numbered block per retrieved triple,
   * then joins the blocks with newlines.
   */
  method BuildContextBlock(r: Retrieval, format: real -> string) returns (context: string)
    ensures context == ContextBlock(r, format)
  {
    var n := Min3(|r.documents|, |r.metadatas|, |r.distances|);
    var blocks: seq<string> := [];
    var i := 0;
    while i < n
      invariant 0 <= i <= n
      invariant |blocks| == i
      invariant forall j :: 0 <= j < i ==> blocks[j] == Block(j + 1, r.documents[j], format(r.distances[j]))
    {
      blocks := blocks + [Block(i + 1, r.documents[i], format(r.distances[i]))];
      i := i + 1;
    }
    BlocksAt(r.documents, r.metadatas, r.distances, format, 1);
    assert blocks == Blocks(r.documents, r.metadatas, r.distances, format, 1);
    context := Join("\n", blocks);
  }

  // ---------------------------------------------------------------------------
  // The prompt
  // ---------------------------------------------------------------------------

  function UserMessage(context: string, question: string): string
  {
    "Context documents:\n\n" + context + "\n\n"
    + "Student question: " + question + "\n\n"
    + "Provide a helpful answer based on the context above."
  }

  /** The single request the pipeline sends: model, output bound, system prompt and one user turn. */
  function GenerationRequest(context: string, question: string): Request
  {
    Request(ClaudeModel, MaxTokens, SystemPrompt, [Message("user", UserMessage(context, question))])
  }

  // ---------------------------------------------------------------------------
  // Classifying the model's outcome
  // ---------------------------------------------------------------------------

  /** The exception classes the pipeline catches. */
  datatype ExceptionClass = AuthenticationErrorClass | RateLimitErrorClass | APIErrorClass

  /** `isinstance(e, cls)`: authentication and rate-limit errors are API errors too. */
  predicate IsInstance(e: Exception, cls: ExceptionClass)
  {
    match cls
    case AuthenticationErrorClass => e.kind == Authentication
    case RateLimitErrorClass => e.kind == RateLimit
    case APIErrorClass => e.kind != NotApi
  }

  /** The answer text each `except` clause sets. */
  function HandlerText(cls: ExceptionClass, e: Exception): string
  {
    match cls
    case AuthenticationErrorClass => InvalidKeyAnswer
    case RateLimitErrorClass => RateLimitAnswer
    case APIErrorClass => ApiErrorPrefix + e.message
  }

  /** The `except` clauses, tried in order. */
  const Handlers: seq<ExceptionClass> := [AuthenticationErrorClass, RateLimitErrorClass, APIErrorClass]

  /** The first clause in `handlers` that matches catches `e`; with none, `e` propagates. */
  function Catch(e: Exception, handlers: seq<ExceptionClass>): Option<string>
  {
    if |handlers| == 0 then None
    else if IsInstance(e, handlers[0]) then Some(HandlerText(handlers[0], e))
    else Catch(e, handlers[1..])
  }

  /** The answer text the model's outcome leads to; `None` when the exception escapes. */
  function AnswerText(o: Outcome): (t: Option<string>)
    ensures o.Completed? ==> t == Some(o.text)
    ensures o.Raised? && o.exception.kind == Authentication ==> t == Some(InvalidKeyAnswer)
    ensures o.Raised? && o.exception.kind == RateLimit ==> t == Some(RateLimitAnswer)
    ensures o.Raised? && o.exception.kind == OtherApi ==> t == Some(ApiErrorPrefix + o.exception.message)
    ensures o.Raised? && o.exception.kind == NotApi ==> t == None
  {
    match o
    case Completed(text) => Some(text)
    case Raised(e) =>
      assert Handlers[1..] == [RateLimitErrorClass, APIErrorClass];
      assert Handlers[1..][1..] == [APIErrorClass] && Handlers[1..][1..][1..] == [];
      assert !IsInstance(e, Handlers[0]) ==> Catch(e, Handlers) == Catch(e, Handlers[1..]);
      assert !IsInstance(e, Handlers[1..][0]) ==> Catch(e, Handlers[1..]) == Catch(e, Handlers[1..][1..]);
      assert !IsInstance(e, APIErrorClass) ==> Catch(e, Handlers[1..][1..]) == None;
      Catch(e, Handlers)
  }

  /**
   * The order of the clauses is load-bearing: with the generic API-error
   * clause first, an authentication failure would be reported as a generic
   * API error rather than as an invalid key.
   */
  lemma HandlerOrderMatters(message: string)
    ensures Catch(Exception(Authentication, message), [APIErrorClass, AuthenticationErrorClass, RateLimitErrorClass])
         != Catch(Exception(Authentication, message), Handlers)
  {
    var e := Exception(Authentication, message);
    var generic := ApiErrorPrefix + message;
    assert Catch(e, [APIErrorClass, AuthenticationErrorClass, RateLimitErrorClass]) == Some(generic);
    assert Catch(e, Handlers) == Some(InvalidKeyAnswer);
    assert '\U{2014}' in ApiErrorPrefix && '\U{2014}' !in InvalidKeyAnswer;
  }

  // ---------------------------------------------------------------------------
  // generate_answer
  // ---------------------------------------------------------------------------

  /** `not config.ANTHROPIC_API_KEY`: the key is unset or empty. */
  predicate KeyMissing(apiKey: Option<string>)
  {
    apiKey.None? || |apiKey.value| == 0
  }

  /** One attribution per id, from the id and the metadata at the same position. */
  function Sources(ids: seq<string>, metadatas: seq<Metadata>): (s: seq<Source>)
    requires |ids| <= |metadatas|
  {
    seq(|ids|, i requires 0 <= i < |ids| => Source(ids[i], metadatas[i].name, metadatas[i].kind))
  }

  /**
   * `generate_answer` after retrieval: no evidence short-circuits; a missing
   * key stops before any request; otherwise one request is sent and its
   * outcome is classified. `format` renders a distance with four decimals.
   */
  function GenerateAnswer(question: string, r: Retrieval, apiKey: Option<string>,
                          llm: Request -> Outcome, format: real -> string): (a: Answered)
    ensures a.request.Some? <==> |r.documents| > 0 && !KeyMissing(apiKey)
    ensures |r.documents| == 0 ==> a.result == Ok(RAGResult(NoResultsAnswer, [], [], []))
    ensures |r.documents| > 0 && KeyMissing(apiKey) ==>
              a.result == Ok(RAGResult(MissingKeyAnswer, [], r.documents, r.distances))
    ensures a.request.Some? ==> a.request.value == GenerationRequest(ContextBlock(r, format), question)
    ensures a.request.Some? && a.result.Ok? ==>
              && |r.ids| <= |r.metadatas|
              && a.result.value.sources == Sources(r.ids, r.metadatas)
              && a.result.value.retrievedDocs == r.documents
              && a.result.value.distances == r.distances
              && Some(a.result.value.answer) == AnswerText(llm(a.request.value))
    ensures a.result.Err? <==>
              a.request.Some? && (AnswerText(llm(a.request.value)).None? || |r.ids| > |r.metadatas|)
    ensures a.result.Err? ==>
              a.result.error == (if AnswerText(llm(a.request.value)).None? then llm(a.request.value).exception
                                 else IndexOutOfRange)
  {
    if |r.documents| == 0 then
      Answered(Ok(RAGResult(NoResultsAnswer, [], [], [])), None)
    else
      var context := ContextBlock(r, format);
      var request := GenerationRequest(context, question);
      if KeyMissing(apiKey) then
        Answered(Ok(RAGResult(MissingKeyAnswer, [], r.documents, r.distances)), None)
      else
        var outcome := llm(request);
        match AnswerText(outcome)
        case None => Answered(Err(outcome.exception), Some(request))
        case Some(text) =>
          if |r.ids| > |r.metadatas| then Answered(Err(IndexOutOfRange), Some(request))
          else Answered(Ok(RAGResult(text, Sources(r.ids, r.metadatas), r.documents, r.distances)), Some(request))
  }

  /** Every path past the key check, failures included, attributes one source per retrieved id, in order. */
  lemma SourcesFollowRetrieval(question: string, r: Retrieval, apiKey: Option<string>,
                               llm: Request -> Outcome, format: real -> string)
    requires |r.documents| > 0 && !KeyMissing(apiKey) && |r.ids| <= |r.metadatas|
    requires !(llm(GenerationRequest(ContextBlock(r, format), question)).Raised?
               && llm(GenerationRequest(ContextBlock(r, format), question)).exception.kind == NotApi)
    ensures var a := GenerateAnswer(question, r, apiKey, llm, format);
      && a.result.Ok?
      && |a.result.value.sources| == |r.ids|
      && forall i :: 0 <= i < |r.ids| ==>
           a.result.value.sources[i] == Source(r.ids[i], r.metadatas[i].name, r.metadatas[i].kind)
  {
  }

  /** The retrieved triples are entries of the collection: each is the (id, document, metadata) of one stored entry. */
  predicate DrawnFrom(r: Retrieval, entries: seq<IndexEntry>)
  {
    WellFormed(r) &&
    forall i :: 0 <= i < |r.ids| ==> IndexEntry(r.ids[i], r.documents[i], r.metadatas[i]) in entries
  }

  /** Every source of a successful answer is the retrieved id at its position, with that position's name and type. */
  lemma SourcesAreRetrieved(question: string, r: Retrieval, apiKey: Option<string>,
                            llm: Request -> Outcome, format: real -> string)
    ensures var a := GenerateAnswer(question, r, apiKey, llm, format);
      a.result.Ok? ==>
        forall i :: 0 <= i < |a.result.value.sources| ==>
          && i < |r.ids| && i < |r.metadatas|
          && a.result.value.sources[i] == Source(r.ids[i], r.metadatas[i].name, r.metadatas[i].kind)
  {
  }

  /**
   * When the collection was populated from `data` and the store returns its
   * entries, every source names a record of `data`: its id, name and type are
   * that record's, and the retrieved document is that record's document.
   */
  lemma {:induction false} SourcesAttributeRecords(question: string, r: Retrieval, apiKey: Option<string>,
                                llm: Request -> Outcome, format: real -> string, data: seq<Entry>)
    requires Batch(data).Ok? && DrawnFrom(r, Batch(data).value)
    ensures var a := GenerateAnswer(question, r, apiKey, llm, format);
      a.result.Ok? ==>
        forall i :: 0 <= i < |a.result.value.sources| ==>
          exists j :: (0 <= j < |data|
                       && Field(data[j], "id") == Some(a.result.value.sources[i].id)
                       && Field(data[j], "name") == Some(a.result.value.sources[i].name)
                       && Field(data[j], "type") == Some(a.result.value.sources[i].kind)
                       && Document(data[j]) == Ok(r.documents[i]))
  {
    var a := GenerateAnswer(question, r, apiKey, llm, format);
    SourcesAreRetrieved(question, r, apiKey, llm, format);
    if a.result.Ok? {
      forall i | 0 <= i < |a.result.value.sources|
        ensures exists j :: (0 <= j < |data|
                             && Field(data[j], "id") == Some(a.result.value.sources[i].id)
                             && Field(data[j], "name") == Some(a.result.value.sources[i].name)
                             && Field(data[j], "type") == Some(a.result.value.sources[i].kind)
                             && Document(data[j]) == Ok(r.documents[i]))
      {
        RetrievedFromRecord(r, data, i);
      }
    }
  }

  /** A retrieved triple drawn from the collection is one record's id, metadata and document. */
  lemma RetrievedFromRecord(r: Retrieval, data: seq<Entry>, i: nat)
    requires Batch(data).Ok? && DrawnFrom(r, Batch(data).value) && i < |r.ids|
    ensures exists j :: (0 <= j < |data|
                         && Field(data[j], "id") == Some(r.ids[i])
                         && Field(data[j], "name") == Some(r.metadatas[i].name)
                         && Field(data[j], "type") == Some(r.metadatas[i].kind)
                         && Document(data[j]) == Ok(r.documents[i]))
  {
    var entries := Batch(data).value;
    BatchEntries(data);
    var entry := IndexEntry(r.ids[i], r.documents[i], r.metadatas[i]);
    assert entry in entries;
    var j :| 0 <= j < |entries| && entries[j] == entry;
    assert Field(data[j], "id") == Some(entries[j].id);
  }
}
