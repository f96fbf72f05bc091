/** The answer routing of `services/chat_service.py`. The language model,
    the retriever's similarity search and the way the prompt template prints
    the retrieved documents are collaborators passed in as functions; the
    retriever the routing consults is an explicit parameter (see module
    `Session` for which value the source actually passes). */
module ChatService {
  import opened Outcomes
  import opened RagService

  const UnaidedApology: string :=
    "Sorry, I'm having trouble thinking right now. Please try again later."
  const DocumentApology: string :=
    "An error occurred while answering with the document. Check the server terminal for details."

  /** The fixed text of the question-answering prompt template around its
      `{context}` and `{question}` slots. */
  const PromptHead: string :=
    "\n        You are a helpful assistant. Answer the question based only on the following context:\n        "
  const PromptMiddle: string := "\n\n        Question: "
  const PromptTail: string := "\n        "

  /** - `llm`: invoking the chat service's own `gemini-2.5-flash-lite` client
        on one human message, giving the text content of its reply or
        failing. That client is built when the module loads, independently
        of the model selector, so selecting a model does not change which
        model answers here;
      - `search`: invoking a retriever with the question, giving its
        documents or failing;
      - `render`: how the template prints the retrieved document list. */
  datatype Collaborators = Collaborators(
    llm: string -> Outcome<string>,
    search: (Retriever, string) -> Outcome<seq<Doc>>,
    render: seq<Doc> -> string)

  /** The prompt the template formats from a context and a question. */
  function RagPrompt(context: string, question: string): (p: string)
    ensures |p| == |PromptHead| + |context| + |PromptMiddle| + |question| + |PromptTail|
    ensures p[..|PromptHead|] == PromptHead
    ensures p[|PromptHead|..|PromptHead| + |context|] == context
    ensures p[|PromptHead| + |context|..|PromptHead| + |context| + |PromptMiddle|] == PromptMiddle
    ensures p[|p| - |PromptTail| - |question|..|p| - |PromptTail|] == question
    ensures p[|p| - |PromptTail|..] == PromptTail
  {
    PromptHead + context + PromptMiddle + question + PromptTail
  }

  /** The branch without a document: the raw message goes to the model. */
  function UnaidedAnswer(message: string, c: Collaborators): (r: string)
    ensures c.llm(message).Ok? ==> r == c.llm(message).value
    ensures c.llm(message).Fail? ==> r == UnaidedApology
  {
    match c.llm(message)
    case Ok(text) => text
    case Fail => UnaidedApology
  }

  /** The branch with a document: retrieve, format the prompt, ask the
      model, return its text; a failure anywhere in the chain gives the
      document apology. */
  function DocumentAnswer(retriever: Retriever, message: string, c: Collaborators): (r: string)
    ensures c.search(retriever, message).Fail? ==> r == DocumentApology
    ensures c.search(retriever, message).Ok? ==>
              var prompt := RagPrompt(c.render(c.search(retriever, message).value), message);
              r == (if c.llm(prompt).Ok? then c.llm(prompt).value else DocumentApology)
  {
    match c.search(retriever, message)
    case Fail => DocumentApology
    case Ok(docs) =>
      match c.llm(RagPrompt(c.render(docs), message))
      case Ok(text) => text
      case Fail => DocumentApology
  }

  /** `generate_ai_response(message)` with the retriever it consults made
      explicit. Being a total function, it gives a string for every input
      and every collaborator behaviour: no exception escapes. */
  function GenerateAiResponse(retriever: Option<Retriever>, message: string, c: Collaborators): (r: string)
    ensures retriever.None? ==> r == UnaidedAnswer(message, c)
    ensures retriever.Some? ==> r == DocumentAnswer(retriever.value, message, c)
  {
    match retriever
    case None => UnaidedAnswer(message, c)
    case Some(rv) => DocumentAnswer(rv, message, c)
  }

  /** Every answer is either one of the two apologies or a text the model
      produced for some prompt. */
  lemma AnswerProvenance(retriever: Option<Retriever>, message: string, c: Collaborators)
    ensures var r := GenerateAiResponse(retriever, message, c);
            r == UnaidedApology || r == DocumentApology || exists p :: c.llm(p) == Ok(r)
  {
  }

  /** Without a retriever, neither the search nor the rendering is
      consulted: collaborators that agree on the model give the same
      answer. */
  lemma UnaidedIgnoresRetrieval(message: string, c1: Collaborators, c2: Collaborators)
    requires c1.llm == c2.llm
    ensures GenerateAiResponse(None, message, c1) == GenerateAiResponse(None, message, c2)
  {
  }

  /** The document chain fails: the search fails, or the model fails on
      the prompt built from what the search found. */
  predicate ChainFails(retriever: Retriever, message: string, c: Collaborators)
  {
    || c.search(retriever, message).Fail?
    || c.llm(RagPrompt(c.render(c.search(retriever, message).value), message)).Fail?
  }

  /** With a retriever, a failing chain gives the document apology and never
      falls back to asking the model the bare question, even when that
      would have produced an answer. */
  lemma NoFallbackToUnaided(retriever: Retriever, message: string, c: Collaborators)
    requires ChainFails(retriever, message, c)
    ensures GenerateAiResponse(Some(retriever), message, c) == DocumentApology
    ensures c.llm(message).Ok? && c.llm(message).value != DocumentApology ==>
              GenerateAiResponse(Some(retriever), message, c) != UnaidedAnswer(message, c)
  {
  }

  /** With a retriever, the only model call that can shape the answer is the
      one on the prompt holding the retrieved context and the question. */
  lemma DocumentAnswerUsesOnlyThePrompt(
    retriever: Retriever, message: string, c1: Collaborators, c2: Collaborators)
    requires c1.search == c2.search && c1.render == c2.render
    requires c1.search(retriever, message).Ok?
    requires var prompt := RagPrompt(c1.render(c1.search(retriever, message).value), message);
             c1.llm(prompt) == c2.llm(prompt)
    ensures GenerateAiResponse(Some(retriever), message, c1)
         == GenerateAiResponse(Some(retriever), message, c2)
  {
  }
}
