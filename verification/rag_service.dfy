/** The document ingestion of `services/rag_service.py`. The module-level
    `vector_store_retriever` and the server's temporary files form the state
    `RagState`; `process_uploaded_document` is a transition on it. The
    library stages (PDF loading, text splitting, embedding and the FAISS
    build) are function-valued parameters: only their success or failure
    and what they are given are modelled. */
module RagService {
  import opened Outcomes
  import opened Config

  newtype byte = x: int | 0 <= x < 256

  /** A loaded page or a chunk of one: its text and the page it came from. */
  datatype Doc = Doc(text: string, page: nat)

  datatype SplitterConfig = SplitterConfig(chunkSize: nat, chunkOverlap: nat)

  datatype EmbeddingConfig = EmbeddingConfig(model: string, googleApiKey: string)

  /** A FAISS index, recorded by what it was built from. */
  datatype VectorIndex = VectorIndex(chunks: seq<Doc>, embedding: EmbeddingConfig)

  /** `db.as_retriever(search_kwargs={"k": k})`. */
  datatype Retriever = Retriever(index: VectorIndex, k: nat)

  const ChunkSize: nat := 1000
  const ChunkOverlap: nat := 200
  const EmbeddingModel: string := "models/gemini-embedding-001"
  const RetrieverK: nat := 5

  /** The library calls of the pipeline.
      - `create`: creating the temporary file of this name succeeds;
      - `write`: writing the upload into the created file (and closing it)
        succeeds;
      - `load`: `PyPDFLoader(path).load()` on a file holding these bytes;
      - `split`: `RecursiveCharacterTextSplitter(...).split_documents`;
      - `embed`: building the embeddings client and `FAISS.from_documents`
        succeed for these chunks. */
  datatype Pipeline = Pipeline(
    create: string -> bool,
    write: seq<byte> -> bool,
    load: seq<byte> -> Outcome<seq<Doc>>,
    split: (seq<Doc>, SplitterConfig) -> Outcome<seq<Doc>>,
    embed: (seq<Doc>, EmbeddingConfig) -> bool)

  /** The retriever global and the set of temporary files on disk. */
  datatype RagState = RagState(retriever: Option<Retriever>, tempFiles: set<string>)

  /** How `process_uploaded_document` ends: it returns a boolean, or an
      exception escapes it (creating and writing the temporary file happen
      before the `try`, so nothing catches a failure there). */
  datatype ProcessResult = Returned(success: bool) | Raised

  /** The state at import time: no retriever, no temporary files. */
  const Startup: RagState := RagState(None, {})

  /** The splitter's fixed parameters. */
  function SplitterSettings(): (c: SplitterConfig)
    ensures c.chunkSize == 1000 && c.chunkOverlap == 200
    ensures c.chunkOverlap < c.chunkSize
  {
    SplitterConfig(ChunkSize, ChunkOverlap)
  }

  /** The embeddings client's parameters: always the same model id. */
  function EmbeddingSettings(settings: Settings): (e: EmbeddingConfig)
    ensures e.model == "models/gemini-embedding-001"
    ensures e.googleApiKey == settings.googleApiKey
  {
    EmbeddingConfig(EmbeddingModel, settings.googleApiKey)
  }

  /** The body of the `try`: load, split, embed and index, then wrap the
      index as a retriever. Any failing stage makes the whole body fail. */
  function BuildRetriever(content: seq<byte>, p: Pipeline, settings: Settings): (r: Outcome<Retriever>)
    ensures r.Ok? <==>
              && p.load(content).Ok?
              && p.split(p.load(content).value, SplitterSettings()).Ok?
              && p.embed(p.split(p.load(content).value, SplitterSettings()).value,
                         EmbeddingSettings(settings))
    ensures r.Ok? ==>
              && r.value.k == 5
              && r.value.index.embedding == EmbeddingSettings(settings)
              && r.value.index.chunks
                 == p.split(p.load(content).value, SplitterSettings()).value
  {
    match p.load(content)
    case Fail => Fail
    case Ok(pages) =>
      match p.split(pages, SplitterSettings())
      case Fail => Fail
      case Ok(chunks) =>
        var embedding := EmbeddingSettings(settings);
        if p.embed(chunks, embedding)
        then Ok(Retriever(VectorIndex(chunks, embedding), RetrieverK))
        else Fail
  }

  /** `process_uploaded_document(file_content)`, with `tempPath` the name the
      operating system gives the new temporary file (in the source, never a
      name already in use; see `FailureIsAtomic`). */
  function ProcessUploadedDocument(
    s: RagState, content: seq<byte>, tempPath: string, p: Pipeline, settings: Settings
  ): (r: (RagState, ProcessResult))
    ensures r.1 == Returned(true) <==>
              p.create(tempPath) && p.write(content) && BuildRetriever(content, p, settings).Ok?
    ensures r.1 == Returned(false) <==>
              p.create(tempPath) && p.write(content) && BuildRetriever(content, p, settings).Fail?
    ensures r.1.Raised? <==> !p.create(tempPath) || !p.write(content)
    ensures r.1 == Returned(true) ==> r.0.retriever == Some(BuildRetriever(content, p, settings).value)
    ensures r.1 != Returned(true) ==> r.0.retriever == s.retriever
    ensures r.1.Returned? ==> tempPath !in r.0.tempFiles && r.0.tempFiles == s.tempFiles - {tempPath}
    ensures !p.create(tempPath) ==> r.0.tempFiles == s.tempFiles
    ensures p.create(tempPath) && !p.write(content) ==> r.0.tempFiles == s.tempFiles + {tempPath}
  {
    if !p.create(tempPath) then
      (s, Raised)
    else
      var created := s.tempFiles + {tempPath};
      if !p.write(content) then
        (s.(tempFiles := created), Raised)
      else
        var cleaned := created - {tempPath};
        match BuildRetriever(content, p, settings)
        case Ok(retriever) => (RagState(Some(retriever), cleaned), Returned(true))
        case Fail => (RagState(s.retriever, cleaned), Returned(false))
  }

  /** The retriever every reachable state holds, if any: five results per
      query, over an index embedded with the fixed embedding model. */
  predicate WellFormed(s: RagState)
  {
    s.retriever.Some? ==>
      && s.retriever.value.k == RetrieverK
      && s.retriever.value.index.embedding.model == EmbeddingModel
  }

  /** Ingestion keeps the retriever well formed, so indexes built with
      different embedding models are never served. */
  lemma ProcessKeepsWellFormed(
    s: RagState, content: seq<byte>, tempPath: string, p: Pipeline, settings: Settings)
    requires WellFormed(s)
    ensures WellFormed(ProcessUploadedDocument(s, content, tempPath, p, settings).0)
  {
  }

  /** A successful upload replaces the retriever: the new one depends only
      on the new file, never on what was held before. */
  lemma SuccessReplacesRetriever(
    s1: RagState, s2: RagState, content: seq<byte>, tempPath: string, p: Pipeline, settings: Settings)
    requires ProcessUploadedDocument(s1, content, tempPath, p, settings).1 == Returned(true)
    ensures ProcessUploadedDocument(s2, content, tempPath, p, settings).1 == Returned(true)
    ensures ProcessUploadedDocument(s1, content, tempPath, p, settings).0.retriever
         == ProcessUploadedDocument(s2, content, tempPath, p, settings).0.retriever
  {
  }

  /** A failed upload is atomic: the whole state is as before, except that a
      temporary file that was created but not fully written is left on
      disk. `NamedTemporaryFile` always creates a file under a name not in
      use, so the name given to an upload is never one already on disk. */
  lemma FailureIsAtomic(
    s: RagState, content: seq<byte>, tempPath: string, p: Pipeline, settings: Settings)
    requires tempPath !in s.tempFiles
    requires ProcessUploadedDocument(s, content, tempPath, p, settings).1 != Returned(true)
    ensures ProcessUploadedDocument(s, content, tempPath, p, settings).1 == Returned(false) ==>
              ProcessUploadedDocument(s, content, tempPath, p, settings).0 == s
    ensures !p.create(tempPath) ==> ProcessUploadedDocument(s, content, tempPath, p, settings).0 == s
    ensures p.create(tempPath) && !p.write(content) ==>
              ProcessUploadedDocument(s, content, tempPath, p, settings).0
              == s.(tempFiles := s.tempFiles + {tempPath})
  {
  }
}
