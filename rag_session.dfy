/**
 * One script run of the legal assistant WITH retrieval
 * (cap-14/dsa_app_com_rag.py), as far as the session keys, the readiness of
 * the retriever and the calls into outside services are concerned. The PDF
 * loader, splitter, embedding model, vector store and language model are
 * not modelled: indexing is recorded as a call, search and generation are
 * function parameters.
 */
module RagSession {
  import opened Options
  import opened ChatMessages
  import opened ContextFormat

  /** The vector collection built from one uploaded PDF and persisted under one directory. */
  datatype VectorDb = VectorDb(persistDir: string, pdf: seq<bv8>)

  /** A similarity-search retriever over a collection that returns the `k` closest chunks. */
  datatype Retriever = Retriever(db: VectorDb, k: nat)

  /** How many chunks the retriever returns. */
  const TopK: nat := 3

  const SystemBlock: string :=
    "Você é um assistente jurídico " +
    "que responde usando " +
    "estritamente o conteúdo do " +
    "PDF fornecido quando " +
    "possível.\n" +
    "Se a resposta não estiver no " +
    "PDF, diga que não encontrou " +
    "no documento e ofereça passos " +
    "de verificação.\n" +
    "Formate a resposta com: " +
    "Resumo, Fundamentação (com " +
    "citações de trechos entre " +
    "aspas) e Próximos passos.\n" +
    "Se houver conflito entre o " +
    "PDF e conhecimento externo, " +
    "priorize o PDF e sinalize a " +
    "divergência."

  const MissingKeyWarning: string := "Informe a GROQ API Key na barra lateral para continuar."
  const NoPdfError: string := "Envie um PDF primeiro para habilitar o RAG."

  /** The human turn of the question-answering template, with question and context filled in. */
  function QuestionText(question: string, context: string): string {
    "Pergunta: " + question + "\n\nContexto do PDF:\n" + context + "\n\nResponda de forma sucinta, técnica e didática."
  }

  /** The messages sent to the model: the fixed instructions, then the filled-in question. */
  function QaPrompt(question: string, context: string): seq<Message> {
    [SystemMessage(SystemBlock), HumanMessage(QuestionText(question, context))]
  }

  /** `dsa_cria_banco_vetorial`: the collection for these PDF bytes, persisted in `dir`. */
  function CreateVectorDb(pdf: seq<bv8>, dir: string): VectorDb {
    VectorDb(dir, pdf)
  }

  /** The session keys the script uses; `None` is a key not yet in the session. */
  datatype RagState = RagState(
    chromaDir: Option<string>,
    vectordb: Option<VectorDb>,
    vectordbReady: Option<bool>,
    chatReady: Option<bool>)

  /** A fresh browser session. */
  const EmptySession := RagState(None, None, None, None)

  /**
   * What every reachable session satisfies: the ready flag, when present, is
   * True and comes with a collection, which lives in the session's directory.
   */
  ghost predicate Consistent(s: RagState) {
    && (s.vectordbReady.Some? <==> s.vectordb.Some?)
    && (s.vectordbReady.Some? ==> s.vectordbReady.value)
    && (s.vectordb.Some? ==> s.chromaDir == Some(s.vectordb.value.persistDir))
  }

  /** What one run of the script gets from the page and the browser. */
  datatype RagInput = RagInput(
    apiKey: string,            // the sidebar key field
    pdf: Option<seq<bv8>>,     // the uploaded file's bytes, if a file is uploaded
    tempDir: string,           // the directory a temporary-directory request would return on this run
    pergunta: string,          // the question text area
    button: bool)              // whether "Perguntar" was pressed

  /** The calls into outside services, in the order they happen. */
  datatype Call =
    | IndexPdf(pdf: seq<bv8>, dir: string)
    | Retrieve(db: VectorDb, query: string, k: nat)
    | Generate(prompt: seq<Message>)

  /** How the run ends on the page. */
  datatype RagOutcome =
    | Warned(warning: string)     // stopped before anything else
    | Waiting                     // ran to the end without a question
    | ErrorShown(error: string)   // stopped with an error message
    | Answered(answer: string)    // showed the model's answer

  /** The session after a run, the run's retriever, its outcome and its calls. */
  datatype RagRun = RagRun(state: RagState, retriever: Option<Retriever>, outcome: RagOutcome, calls: seq<Call>)

  /** Whether this run indexes: a file is uploaded and the ready flag is not in the session yet. */
  predicate IndexNow(s: RagState, inp: RagInput) {
    inp.pdf.Some? && s.vectordbReady.None?
  }

  /**
   * The session after the set-up part of a run that has a key: the directory
   * key is created if absent, the PDF is indexed if `IndexNow`, and the chat
   * flag is created if absent.
   */
  function Prepared(s: RagState, inp: RagInput): (t: RagState)
    requires Consistent(s)
    ensures Consistent(t)
  {
    var dir := s.chromaDir.GetOr(inp.tempDir);
    var s1 := s.(chromaDir := Some(dir));
    var s2 := if IndexNow(s, inp)
              then s1.(vectordb := Some(CreateVectorDb(inp.pdf.value, dir)), vectordbReady := Some(true))
              else s1;
    if s2.chatReady.None? then s2.(chatReady := Some(true)) else s2
  }

  /** The indexing call of the set-up part, if any. */
  function IndexCalls(s: RagState, inp: RagInput): seq<Call> {
    if IndexNow(s, inp) then [IndexPdf(inp.pdf.value, s.chromaDir.GetOr(inp.tempDir))] else []
  }

  /** The retriever the run builds: one exists only when the ready flag is True. */
  function RetrieverOf(t: RagState): Option<Retriever>
    requires Consistent(t)
  {
    if t.vectordbReady == Some(true) then Some(Retriever(t.vectordb.value, TopK)) else None
  }

  /** One run of the script. */
  function RagStep(s: RagState, inp: RagInput,
                   search: (VectorDb, string, nat) -> seq<Document>,
                   llm: seq<Message> -> string): (r: RagRun)
    requires Consistent(s)
    ensures Consistent(r.state)
  {
    if inp.apiKey == "" then RagRun(s, None, Warned(MissingKeyWarning), [])
    else
      var t := Prepared(s, inp);
      var retriever := RetrieverOf(t);
      if !inp.button then RagRun(t, retriever, Waiting, IndexCalls(s, inp))
      else if retriever.None? then RagRun(t, retriever, ErrorShown(NoPdfError), IndexCalls(s, inp))
      else
        var docs := search(retriever.value.db, inp.pergunta, retriever.value.k);
        var prompt := QaPrompt(inp.pergunta, Formatted(docs));
        RagRun(t, retriever, Answered(llm(prompt)),
               IndexCalls(s, inp) + [Retrieve(retriever.value.db, inp.pergunta, retriever.value.k), Generate(prompt)])
  }

  /** How many times the PDF was indexed. */
  function IndexCount(calls: seq<Call>): nat {
    if calls == [] then 0 else (if calls[0].IndexPdf? then 1 else 0) + IndexCount(calls[1..])
  }

  lemma {:induction false} IndexCountAppend(a: seq<Call>, b: seq<Call>)
    ensures IndexCount(a + b) == IndexCount(a) + IndexCount(b)
    decreases |a|
  {
    if a != [] {
      assert (a + b)[1..] == a[1..] + b;
      IndexCountAppend(a[1..], b);
    } else {
      assert a + b == b;
    }
  }

  /** Calls that do not index count zero. */
  lemma {:induction false} NoIndexCalls(calls: seq<Call>)
    requires forall i :: 0 <= i < |calls| ==> !calls[i].IndexPdf?
    ensures IndexCount(calls) == 0
    decreases |calls|
  {
    if calls != [] {
      NoIndexCalls(calls[1..]);
    }
  }

  /** Several runs of the script in one session: the final session and every call made. */
  function RagRuns(s: RagState, inputs: seq<RagInput>,
                   search: (VectorDb, string, nat) -> seq<Document>,
                   llm: seq<Message> -> string): (r: (RagState, seq<Call>))
    requires Consistent(s)
    ensures Consistent(r.0)
    decreases |inputs|
  {
    if inputs == [] then (s, [])
    else
      var first := RagStep(s, inputs[0], search, llm);
      var rest := RagRuns(first.state, inputs[1..], search, llm);
      (rest.0, first.calls + rest.1)
  }

  /** Without a key the run stops at once: the session is untouched and nothing is called. */
  lemma NoKeyStopsEarly(s: RagState, inp: RagInput,
                        search: (VectorDb, string, nat) -> seq<Document>, llm: seq<Message> -> string)
    requires Consistent(s) && inp.apiKey == ""
    ensures RagStep(s, inp, search, llm) == RagRun(s, None, Warned(MissingKeyWarning), [])
  {
  }

  /**
   * A run indexes the PDF exactly when a file is uploaded and the session
   * has no ready flag yet; afterwards the flag is set and the collection
   * holds that file. A session that already had the flag keeps its
   * collection whatever is uploaded.
   */
  lemma IndexOnlyWhenNotReady(s: RagState, inp: RagInput,
                              search: (VectorDb, string, nat) -> seq<Document>, llm: seq<Message> -> string)
    requires Consistent(s)
    ensures var r := RagStep(s, inp, search, llm);
            var indexNow := inp.apiKey != "" && inp.pdf.Some? && s.vectordbReady.None?;
            IndexCount(r.calls) == (if indexNow then 1 else 0) &&
            (indexNow ==> r.state.vectordbReady == Some(true) &&
                          r.state.vectordb == Some(VectorDb(r.state.chromaDir.value, inp.pdf.value))) &&
            (s.vectordbReady.Some? ==> r.state.vectordb == s.vectordb && r.state.vectordbReady == s.vectordbReady)
  {
    var r := RagStep(s, inp, search, llm);
    if inp.apiKey != "" {
      var calls := IndexCalls(s, inp);
      assert IndexCount(calls) == (if IndexNow(s, inp) then 1 else 0);
      var retriever := RetrieverOf(Prepared(s, inp));
      if inp.button && retriever.Some? {
        var ret := retriever.value;
        var prompt := QaPrompt(inp.pergunta, Formatted(search(ret.db, inp.pergunta, ret.k)));
        var tail := [Retrieve(ret.db, inp.pergunta, ret.k), Generate(prompt)];
        assert r.calls == calls + tail;
        NoIndexCalls(tail);
        IndexCountAppend(calls, tail);
      }
    }
  }

  /** A retriever exists exactly when the session's ready flag is set, and it searches the session's collection for 3 chunks. */
  lemma RetrieverIffReady(s: RagState, inp: RagInput,
                          search: (VectorDb, string, nat) -> seq<Document>, llm: seq<Message> -> string)
    requires Consistent(s)
    ensures var r := RagStep(s, inp, search, llm);
            (r.retriever.Some? <==> inp.apiKey != "" && r.state.vectordbReady == Some(true)) &&
            (r.retriever.Some? ==> r.retriever.value == Retriever(r.state.vectordb.value, TopK))
  {
  }

  /**
   * Pressing the button without a retriever shows the "send a PDF first"
   * error and calls neither the search nor the model; with a retriever the
   * question is searched, the passages are formatted into the prompt, and
   * the model's reply is the answer.
   */
  lemma AskNeedsRetriever(s: RagState, inp: RagInput,
                          search: (VectorDb, string, nat) -> seq<Document>, llm: seq<Message> -> string)
    requires Consistent(s) && inp.apiKey != "" && inp.button
    ensures var r := RagStep(s, inp, search, llm);
            (r.retriever.None? ==> r.outcome == ErrorShown(NoPdfError) &&
                                   forall c :: c in r.calls ==> c.IndexPdf?) &&
            (r.retriever.Some? ==>
               var docs := search(r.retriever.value.db, inp.pergunta, TopK);
               var prompt := QaPrompt(inp.pergunta, Formatted(docs));
               r.outcome == Answered(llm(prompt)) &&
               r.calls[|r.calls| - 2..] == [Retrieve(r.retriever.value.db, inp.pergunta, TopK), Generate(prompt)])
  {
  }

  /**
   * Over any number of runs in one session the PDF is indexed at most once,
   * and not at all if the session was already ready; once ready, the
   * session keeps its collection.
   */
  lemma {:induction false} IndexedAtMostOnce(s: RagState, inputs: seq<RagInput>,
                                             search: (VectorDb, string, nat) -> seq<Document>,
                                             llm: seq<Message> -> string)
    requires Consistent(s)
    ensures var r := RagRuns(s, inputs, search, llm);
            IndexCount(r.1) <= (if s.vectordbReady.None? then 1 else 0) &&
            (s.vectordbReady.Some? ==> r.0.vectordb == s.vectordb && r.0.vectordbReady == s.vectordbReady)
    decreases |inputs|
  {
    if inputs != [] {
      var first := RagStep(s, inputs[0], search, llm);
      IndexOnlyWhenNotReady(s, inputs[0], search, llm);
      IndexedAtMostOnce(first.state, inputs[1..], search, llm);
      var rest := RagRuns(first.state, inputs[1..], search, llm);
      IndexCountAppend(first.calls, rest.1);
    }
  }

  /** The session keys of one browser session, updated in place by each run. */
  class RagApp {
    var chromaDir: Option<string>
    var vectordb: Option<VectorDb>
    var vectordbReady: Option<bool>
    var chatReady: Option<bool>

    function State(): RagState
      reads this
    {
      RagState(chromaDir, vectordb, vectordbReady, chatReady)
    }

    ghost predicate Valid()
      reads this
    {
      Consistent(State())
    }

    constructor ()
      ensures Valid() && State() == EmptySession
    {
      chromaDir, vectordb, vectordbReady, chatReady := None, None, None, None;
    }

    /** The set-up part of a run with a key: session keys created as needed, the PDF indexed if due. */
    method Prepare(inp: RagInput) returns (calls: seq<Call>)
      requires Valid()
      modifies this
      ensures Valid()
      ensures State() == Prepared(old(State()), inp) && calls == IndexCalls(old(State()), inp)
    {
      calls := [];
      if chromaDir.None? {
        chromaDir := Some(inp.tempDir);
      }
      if inp.pdf.Some? && vectordbReady.None? {
        vectordb := Some(CreateVectorDb(inp.pdf.value, chromaDir.value));
        vectordbReady := Some(true);
        calls := [IndexPdf(inp.pdf.value, chromaDir.value)];
      }
      if chatReady.None? {
        chatReady := Some(true);
      }
    }

    /** One run of the script, updating the session keys as it goes. */
    method Run(inp: RagInput, search: (VectorDb, string, nat) -> seq<Document>, llm: seq<Message> -> string)
      returns (outcome: RagOutcome, calls: seq<Call>)
      requires Valid()
      modifies this
      ensures Valid()
      ensures var r := RagStep(old(State()), inp, search, llm);
              State() == r.state && outcome == r.outcome && calls == r.calls
    {
      if inp.apiKey == "" {
        outcome, calls := Warned(MissingKeyWarning), [];
        return;
      }
      calls := Prepare(inp);
      var retriever: Option<Retriever> := None;
      if vectordbReady == Some(true) {
        retriever := Some(Retriever(vectordb.value, TopK));
      }
      if !inp.button {
        outcome := Waiting;
        return;
      }
      if retriever.None? {
        outcome := ErrorShown(NoPdfError);
        return;
      }
      var docs := search(retriever.value.db, inp.pergunta, retriever.value.k);
      var context := FormatDocs(docs);
      var prompt := QaPrompt(inp.pergunta, context);
      calls := calls + [Retrieve(retriever.value.db, inp.pergunta, retriever.value.k), Generate(prompt)];
      outcome := Answered(llm(prompt));
    }
  }
}
