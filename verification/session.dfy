/** How the two services meet inside one server process: uploads go through
    `process_uploaded_document`, questions through `generate_ai_response`.

    `services/chat_service.py` reaches the retriever through a from-import of
    the name `vector_store_retriever`. That import runs once, when the module
    is first loaded, and copies the value the global holds at that moment
    (`None`, since nothing has been uploaded at start-up). Later uploads
    rebind the global inside `rag_service` only, so the chat service keeps
    consulting its own copy. `BoundAtImport` models
    that wiring as written; `Live` models the evidently intended one, where
    each question consults the retriever the last successful upload left. */
module Session {
  import opened Outcomes
  import opened Config
  import opened RagService
  import opened ChatService

  datatype Event = Upload(content: seq<byte>, tempPath: string) | Ask(message: string)

  datatype Reply = UploadReply(result: ProcessResult) | AnswerReply(text: string)

  /** Which retriever value the chat routing sees. */
  datatype Binding = BoundAtImport(captured: Option<Retriever>) | Live

  /** Everything outside the two services' own logic. */
  datatype Env = Env(pipeline: Pipeline, collaborators: Collaborators, settings: Settings)

  /** The import of the chat service: it copies the retriever global. */
  function ImportChatService(s: RagState): (b: Binding)
    ensures b.BoundAtImport? && b.captured == s.retriever
  {
    BoundAtImport(s.retriever)
  }

  /** The retriever a question is routed on. */
  function Consulted(b: Binding, s: RagState): Option<Retriever>
  {
    match b
    case BoundAtImport(captured) => captured
    case Live => s.retriever
  }

  /** One request against the shared state. */
  function Step(b: Binding, s: RagState, e: Event, env: Env): (RagState, Reply)
  {
    match e
    case Upload(content, tempPath) =>
      var (s', result) := ProcessUploadedDocument(s, content, tempPath, env.pipeline, env.settings);
      (s', UploadReply(result))
    case Ask(message) =>
      (s, AnswerReply(GenerateAiResponse(Consulted(b, s), message, env.collaborators)))
  }

  /** A series of requests served one after another: the final state and
      one reply per request. */
  function Run(b: Binding, s: RagState, events: seq<Event>, env: Env): (r: (RagState, seq<Reply>))
    ensures |r.1| == |events|
    decreases |events|
  {
    if events == [] then (s, [])
    else
      var (s1, reply) := Step(b, s, events[0], env);
      var (s2, replies) := Run(b, s1, events[1..], env);
      (s2, [reply] + replies)
  }

  /** An upload of these bytes succeeds end to end. */
  predicate UploadSucceeds(content: seq<byte>, tempPath: string, env: Env)
  {
    && env.pipeline.create(tempPath)
    && env.pipeline.write(content)
    && BuildRetriever(content, env.pipeline, env.settings).Ok?
  }

  /** Reference definition: the retriever built by the last successful
      upload among `events`, or `start` when none succeeded. */
  function LatestRetriever(start: Option<Retriever>, events: seq<Event>, env: Env): Option<Retriever>
    decreases |events|
  {
    if events == [] then start
    else
      var last := events[|events| - 1];
      if last.Upload? && UploadSucceeds(last.content, last.tempPath, env)
      then Some(BuildRetriever(last.content, env.pipeline, env.settings).value)
      else LatestRetriever(start, events[..|events| - 1], env)
  }

  lemma {:induction false} RunSnoc(b: Binding, s: RagState, events: seq<Event>, e: Event, env: Env)
    ensures Run(b, s, events + [e], env).0 == Step(b, Run(b, s, events, env).0, e, env).0
    decreases |events|
  {
    if events == [] {
      assert ([] + [e])[1..] == [];
    } else {
      assert (events + [e])[0] == events[0];
      assert (events + [e])[1..] == events[1..] + [e];
      RunSnoc(b, Step(b, s, events[0], env).0, events[1..], e, env);
    }
  }

  /** After any series of requests the retriever global holds what the last
      successful upload built; failed uploads and questions leave it alone. */
  lemma {:induction false} RunRetriever(b: Binding, s: RagState, events: seq<Event>, env: Env)
    ensures Run(b, s, events, env).0.retriever == LatestRetriever(s.retriever, events, env)
    decreases |events|
  {
    if events != [] {
      var front := events[..|events| - 1];
      var last := events[|events| - 1];
      assert events == front + [last];
      RunSnoc(b, s, front, last, env);
      RunRetriever(b, s, front, env);
    }
  }

  /** The reply to the i-th request is what that request gives in the state
      the requests before it left. */
  lemma {:induction false} RunPrefix(b: Binding, s: RagState, events: seq<Event>, i: nat, env: Env)
    requires i < |events|
    ensures Run(b, s, events, env).1[i] == Step(b, Run(b, s, events[..i], env).0, events[i], env).1
    decreases |events|
  {
    if i > 0 {
      var s1 := Step(b, s, events[0], env).0;
      RunPrefix(b, s1, events[1..], i - 1, env);
      assert events[..i][0] == events[0];
      assert events[..i][1..] == events[1..][..i - 1];
    }
  }

  /** As written: every question is routed on the value copied at import,
      whatever was uploaded before it. */
  lemma ImportBindingIgnoresUploads(
    captured: Option<Retriever>, s: RagState, events: seq<Event>, i: nat, env: Env)
    requires i < |events| && events[i].Ask?
    ensures Run(BoundAtImport(captured), s, events, env).1[i]
         == AnswerReply(GenerateAiResponse(captured, events[i].message, env.collaborators))
  {
    RunPrefix(BoundAtImport(captured), s, events, i, env);
  }

  /** As written, from start-up: a question asked right after a successful
      upload is answered without the document. */
  lemma UploadThenAskAsWritten(content: seq<byte>, tempPath: string, message: string, env: Env)
    requires UploadSucceeds(content, tempPath, env)
    ensures Run(ImportChatService(Startup), Startup, [Upload(content, tempPath), Ask(message)], env).1
         == [UploadReply(Returned(true)), AnswerReply(UnaidedAnswer(message, env.collaborators))]
  {
  }

  /** Intended: every question is routed on the retriever the last
      successful upload before it built, or on the starting one. */
  lemma LiveBindingUsesLatestUpload(s: RagState, events: seq<Event>, i: nat, env: Env)
    requires i < |events| && events[i].Ask?
    ensures Run(Live, s, events, env).1[i]
         == AnswerReply(GenerateAiResponse(
              LatestRetriever(s.retriever, events[..i], env), events[i].message, env.collaborators))
  {
    RunPrefix(Live, s, events, i, env);
    RunRetriever(Live, s, events[..i], env);
  }

  /** Intended, from start-up: a question asked right after a successful
      upload is answered from the document just indexed. */
  lemma UploadThenAskLive(content: seq<byte>, tempPath: string, message: string, env: Env)
    requires UploadSucceeds(content, tempPath, env)
    ensures Run(Live, Startup, [Upload(content, tempPath), Ask(message)], env).1[1]
         == AnswerReply(DocumentAnswer(
              BuildRetriever(content, env.pipeline, env.settings).value, message, env.collaborators))
  {
  }

  /** A concrete environment in which every upload succeeds and the model
      echoes its prompt back, so that the answer shows which prompt it got. */
  function EchoEnv(): (env: Env)
    ensures forall content, tempPath :: UploadSucceeds(content, tempPath, env)
    ensures forall p :: env.collaborators.llm(p) == Ok(p)
  {
    Env(
      Pipeline(
        _ => true,
        _ => true,
        _ => Ok([Doc("invoice total 420", 1)]),
        (pages, _) => Ok(pages),
        (_, _) => true),
      Collaborators(p => Ok(p), (_, _) => Ok([]), _ => ""),
      Settings("key"))
  }

  /** The discrepancy on one input: after a successful upload, the service
      as written answers differently from the intended wiring, because it
      never builds the document prompt. */
  lemma AsWrittenDiffersFromLive(message: string)
    ensures Run(ImportChatService(Startup), Startup, [Upload([37], "/tmp/upload.pdf"), Ask(message)], EchoEnv()).1[1]
         == AnswerReply(message)
    ensures Run(Live, Startup, [Upload([37], "/tmp/upload.pdf"), Ask(message)], EchoEnv()).1[1]
         == AnswerReply(RagPrompt("", message))
    ensures Run(ImportChatService(Startup), Startup, [Upload([37], "/tmp/upload.pdf"), Ask(message)], EchoEnv()).1[1]
         != Run(Live, Startup, [Upload([37], "/tmp/upload.pdf"), Ask(message)], EchoEnv()).1[1]
  {
  }
}
