# SamagraAI backend services: a verified Dafny model

This project models the three services at the centre of the SamagraAI chat
backend.

- **Model selector** (`ModelManager`). It holds a fixed catalogue of six Gemini model profiles and one current model id. It rejects unknown ids. It rebuilds its client only when the id actually changes. It derives the client configuration from the current profile, and image models get an extra response-modalities field.
- **Document ingestion** (`RagService`). `process_uploaded_document` writes the upload to a temporary file, then loads it as a PDF, splits it (chunk size 1000, overlap 200), embeds it with `models/gemini-embedding-001` and builds a FAISS index. Only when every stage succeeds does it replace the global retriever (top 5) and return true. Any failure after the upload is written returns false and keeps the old retriever, and the temporary file is then removed whether the stages succeed or fail. A failure while creating or writing the temporary file happens before the `try` and escapes as an exception.
- **Answer routing** (`ChatService`). `generate_ai_response` sends the bare message to the model when there is no retriever. With a retriever it runs the retrieval chain on a context-plus-question prompt. Each branch turns any failure into its own fixed apology text.
- **Wiring** (`Session`). This module serves a series of uploads and questions against the shared state. It makes visible which retriever value the chat service actually consults (see Findings).

Every operation is a pure function over immutable datatypes. Each returns the new state together with what the Python code returns. The language model, the retriever search, the PDF loader, the text splitter, the embedding service and FAISS are not modelled by their code. They are passed in as function-valued parameters (`Collaborators`, `Pipeline`), so the proofs hold for every behaviour of those libraries. The API key comes in as a `Config.Settings` value instead of being read from the environment.

The services hold one retriever at a time with `k = 5`, and the document branch never falls back to the unaided branch.

## Model

| member | source | states |
|---|---|---|
| ModelManager.BuildConfig | samagra_backend/services/model_manager.py:76-93 | the configuration names the given id, the API key, streaming and the system instruction; it carries response modalities `[2, 1]` (image, text) exactly when the profile's mode is image |
| ModelManager.InitializeModel | samagra_backend/services/model_manager.py:70-95 | afterwards the current id is a catalogue key (an unknown id falls back to `gemini-2.5-flash-lite`, a known one is kept) and the client is rebuilt once from that id's configuration |
| ModelManager.NewManager | samagra_backend/services/model_manager.py:65-68 | a fresh manager has current id `gemini-2.5-flash-lite`, satisfies the invariant, and has built exactly one client |
| ModelManager.GetLlm | samagra_backend/services/model_manager.py:97-99 | on a manager that keeps the invariant, the client returned is exactly the one built from the current id's configuration |
| ModelManager.IsImageGenerationModel | samagra_backend/services/model_manager.py:101-105 | true exactly when the current id is a catalogue key whose profile is an image model; an unknown id gives false |
| ModelManager.SetModel | samagra_backend/services/model_manager.py:107-127 | when the client builds: an unknown id returns false and changes nothing; a known id returns true and becomes current; the same id again leaves the manager untouched; only a different known id rebuilds the client; the invariant is kept |
| ModelManager.SelectedIdIsReported | samagra_backend/services/model_manager.py:117-131 | after selecting a catalogue id the current-id getter returns that id; after an unknown id it returns the previous one |
| ModelManager.SetModelAsWritten | samagra_backend/services/model_manager.py:117-127 | with a client constructor that may raise: an unknown id returns false, the current id returns true untouched, a successful switch is `SetModel`'s, and a raising switch leaves the new id stored next to the previous client |
| ModelManager.FailedSwitchLeavesStaleClient | samagra_backend/services/model_manager.py:121-127 | from a fresh manager, a switch to `gemini-2.5-pro` whose constructor raises, then a retry, returns true while the client is still the default model's, so the invariant is broken |
| ModelManager.SetModelAtomic | samagra_backend/services/model_manager.py:117-127 | building the client before storing the id: an unknown id returns false and the current id returns true, both leaving the manager unchanged; a switch to a different catalogue id fails exactly when its client constructor raises, a failure leaves the manager unchanged, a returning call agrees with `SetModel`, and the invariant is always kept |
| ModelManager.AtomicRetryBuildsClient | samagra_backend/services/model_manager.py:121-127 | with the atomic ordering, a switch whose constructor raises fails and leaves the manager unchanged, and a successful retry then holds the client built for the selected id |
| ModelManager.GetCurrentModelId | samagra_backend/services/model_manager.py:129-131 | returns the current id, which on a manager that keeps the invariant is a catalogue key |
| ModelManager.GetAvailableModels | samagra_backend/services/model_manager.py:133-135 | the copy has exactly the catalogue's keys and profiles |
| ModelManager.ExactlyOneImageModel | samagra_backend/services/model_manager.py:30-63 | the set of catalogue ids with image mode is exactly `{gemini-2.0-flash-preview-image-generation}` |
| ModelManager.ImageModelIsTheImageId | samagra_backend/services/model_manager.py:101-105 | the image check is true exactly when the current id is the one image model's id |
| ModelManager.ModalitiesIffImageModel | samagra_backend/services/model_manager.py:77-93 | on every manager that keeps the invariant, the client requests response modalities exactly when the image check is true, names the current id and streams |
| ModelManager.SetModelIdempotent | samagra_backend/services/model_manager.py:121-127 | selecting the same id twice gives the same manager and result as selecting it once |
| ModelManager.SelectAllTrace | samagra_backend/services/model_manager.py:117-127 | after any series of selections the invariant still holds, the current id is the last known id in the series (or the starting one), and the client was rebuilt once per actual change of id |
| ModelManager.CurrentAlwaysKnown | samagra_backend/services/model_manager.py:65-74 | from construction on, whatever ids callers pass, the current id is a catalogue key |
| RagService.SplitterSettings | samagra_backend/services/rag_service.py:31 | the splitter uses chunk size 1000 and overlap 200, and overlap is smaller than size |
| RagService.EmbeddingSettings | samagra_backend/services/rag_service.py:36-39 | the embeddings client always uses model `models/gemini-embedding-001` and the configured key |
| RagService.BuildRetriever | samagra_backend/services/rag_service.py:25-44 | succeeds exactly when load, split and embed/index all succeed; the retriever then has k = 5 and indexes exactly the split chunks of the new file with the fixed embedding model |
| RagService.ProcessUploadedDocument | samagra_backend/services/rag_service.py:13-54 | returns true exactly when creating and writing the temporary file and every stage succeed, and then holds the new retriever; returns false exactly when the file was written but a stage failed, and keeps the old retriever; a failed create or write raises; every path that reaches the `try` removes the temporary file, a failed create leaves none, a failed write leaves the created one |
| RagService.ProcessKeepsWellFormed | samagra_backend/services/rag_service.py:36-44 | ingestion keeps the held retriever at k = 5 over an index built with the fixed embedding model |
| RagService.SuccessReplacesRetriever | samagra_backend/services/rag_service.py:40-44 | a successful upload gives the same retriever whatever was held before: it replaces, never merges |
| RagService.FailureIsAtomic | samagra_backend/services/rag_service.py:49-54 | a stage failure or a failed create leaves the whole state as it was; a failed write leaves the state as it was plus the created temporary file |
| ChatService.RagPrompt | samagra_backend/services/chat_service.py:36-42 | the prompt is the fixed instruction, the retrieved context, the fixed `Question: ` separator, the question and the fixed trailer, in that order and with nothing else |
| ChatService.UnaidedAnswer | samagra_backend/services/chat_service.py:22-30 | the model's text for the bare message, or the "Sorry, I'm having trouble thinking right now..." apology when the model call fails |
| ChatService.DocumentAnswer | samagra_backend/services/chat_service.py:31-62 | a failed search gives the document apology; otherwise the answer is the model's text for the prompt built from the rendered search results and the question, or the document apology when that call fails |
| ChatService.GenerateAiResponse | samagra_backend/services/chat_service.py:15-62 | no retriever routes to the unaided branch, a retriever routes to the document branch; being total, it gives a string for every input |
| ChatService.AnswerProvenance | samagra_backend/services/chat_service.py:22-62 | every answer is one of the two apologies or a text the model produced for some prompt |
| ChatService.UnaidedIgnoresRetrieval | samagra_backend/services/chat_service.py:22-27 | without a retriever the answer depends only on the model, never on the search or the rendering |
| ChatService.NoFallbackToUnaided | samagra_backend/services/chat_service.py:53-62 | when the document chain fails the answer is the document apology, even when the bare question would have had a model answer |
| ChatService.DocumentAnswerUsesOnlyThePrompt | samagra_backend/services/chat_service.py:45-55 | with a retriever, the model's reply on the context-plus-question prompt is the only model output that can shape the answer |
| Session.ImportChatService | samagra_backend/services/chat_service.py:6 | importing the chat service copies the retriever value the global holds at that moment |
| Session.RunRetriever | samagra_backend/services/rag_service.py:17-51 | after any series of requests the retriever global holds what the last successful upload built, or the starting value |
| Session.ImportBindingIgnoresUploads | samagra_backend/services/chat_service.py:6-22 | with the import-time copy, the reply to any question in a series is the answer routed on the copied value, whatever was uploaded before it |
| Session.UploadThenAskAsWritten | samagra_backend/services/chat_service.py:6-30 | as written, from start-up, a question right after a successful upload gets the unaided answer |
| Session.AsWrittenDiffersFromLive | samagra_backend/services/chat_service.py:6-55 | with an echoing model and a successful upload, the as-written answer is the bare message while the intended answer is the document prompt, so they differ |
| Session.LiveBindingUsesLatestUpload | samagra_backend/services/rag_service.py:44 | when the live global is consulted, the reply to any question in a series is the answer routed on the retriever built by the last successful upload before it (or the starting one) |
| Session.UploadThenAskLive | samagra_backend/services/chat_service.py:31-55 | when the live global is consulted, a question right after a successful upload is answered through the document chain over the new index |

## Left out

- Language model, retriever search, PDF loading, text splitting, embeddings and FAISS: these are library code. They appear only as function-valued parameters. Each is deterministic in its inputs, so a network failure that strikes one call and not the next identical call is not modelled.
- `print` output, the wording of the system instruction, and the Gemini client object itself. The client is represented by the configuration it was built from.
- The temporary file's random name is a parameter. `os.remove` failing inside `finally` is not modelled: it would replace the function's result with an exception.
- Concurrency: the services' globals are shared between concurrent requests. The model serves requests one after another.
- `api/chat.py`, `api/document.py`, `main.py`, `core/config.py` and `schemas/*` are HTTP and configuration wiring and are not part of this model. The API layer is also out of step with these services. It passes keyword arguments `generate_ai_response` does not accept. It reads a `current_model_id` attribute that does not exist. It imports `generate_ai_response_stream` and `document_store`, which are not defined here. It re-catches its own `HTTPException`s as 500 errors.
- The chat service builds its own `gemini-2.5-flash-lite` client (the `llm` field of `ChatService.Collaborators`) and never consults the model selector. In this revision, selecting a model has no effect on chat answers.
- ModelManager.SetModel: assumes the client constructor never raises. When it does raise, the source keeps the new id next to the previous client. That path is modelled separately by `ModelManager.SetModelAsWritten` (see Findings), and the selection traces (`SelectAllTrace`) cover only constructors that succeed.
- ModelManager.InitializeModel: assumes the client constructor at line 95 of `services/model_manager.py` returns. A raising constructor is modelled only on the selection path, through `ModelManager.SetModelAsWritten` and `ModelManager.SetModelAtomic`.
- ModelManager.NewManager: assumes the client constructor succeeds. If it raises, the module-level `model_manager = ModelManager()` fails at import and no manager exists.
- ModelManager.GetAvailableModels: the source's copy is shallow, so the nested profile dictionaries are shared with the catalogue. Profiles are immutable values here, so a mutation of a nested profile through the copy is not modelled.

## Findings

| source | as written | input that shows it | evidently intended | confidence | as-written member | corrected member |
|---|---|---|---|---|---|---|
| samagra_backend/services/chat_service.py:6 | `from services.rag_service import vector_store_retriever` copies the global's import-time value (`None`). The rebinding at rag_service.py:44 is never seen, so line 22 always takes the unaided branch | upload a PDF whose processing succeeds, then ask any question: the answer comes from the bare message, not from the document | each question consults the retriever the last successful upload left | high (not executed) | Session.AsWrittenDiffersFromLive | Session.LiveBindingUsesLatestUpload |
| samagra_backend/services/model_manager.py:123-124 | `set_model` stores the new id before `_initialize_model()` builds the client. If the constructor raises, the manager keeps the new id with the previous client. A retry of the same id then returns true at line 127 without building anything | switch to `gemini-2.5-pro` while client construction fails, then select `gemini-2.5-pro` again: the retry returns true and the client is still `gemini-2.5-flash-lite`'s | a failed switch leaves the manager as it was, so a retry builds the client | medium (not executed; it depends on the client constructor raising) | ModelManager.FailedSwitchLeavesStaleClient | ModelManager.SetModelAtomic |
