/**
 * The legal assistant WITHOUT retrieval (cap-14/dsa_app_sem_rag.py): a
 * conversation history kept in the browser session, sent to the model with
 * every new question and extended by each question and its reply. The
 * language model is a function parameter.
 */
module ChatHistory {
  import opened Options
  import opened ChatMessages

  const SystemBlock: string :=
    "Você é um assistente jurídico " +
    "que escreve de forma objetiva " +
    "e clara, sem dar " +
    "aconselhamento legal " +
    "definitivo.\n" +
    "Forneça análise, contexto e " +
    "referências genéricas (leis, " +
    "súmulas, doutrina) sem " +
    "afirmar certeza absoluta.\n" +
    "Se algo for incerto, explique " +
    "como um profissional " +
    "verificaria a informação " +
    "(consultar legislação " +
    "atualizada, jurisprudência " +
    "local, etc.).\n" +
    "Estruture a resposta com: " +
    "Contexto breve, Pontos " +
    "principais, " +
    "Riscos/limitações, Próximos " +
    "passos práticos."

  const MissingKeyWarning: string := "Informe a GROQ API Key na barra lateral para começar."

  /** The human turn of the prompt template for a new question. */
  function QuestionText(pergunta: string): string {
    "Pergunta: " + pergunta + "\nResponda de forma sucinta, técnica e didática."
  }

  /** The human turn stored in the history for a question (without the closing instruction). */
  function HistoryText(pergunta: string): string {
    "Pergunta: " + pergunta
  }

  /** The messages sent to the model: instructions, the whole history, the new question. */
  function Prompt(history: seq<Message>, pergunta: string): seq<Message> {
    [SystemMessage(SystemBlock)] + history + [HumanMessage(QuestionText(pergunta))]
  }

  /** What one run gets from the page. */
  datatype ChatInput = ChatInput(apiKey: string, pergunta: string, enviado: bool)

  /** How the run ends on the page. */
  datatype ChatOutcome =
    | Warned(warning: string)                   // stopped before anything else
    | Idle                                      // no question was submitted
    | Replied(prompt: seq<Message>, reply: string)  // the prompt sent and the reply shown

  /** The session's history key after the run (`None` while absent) and the outcome. */
  datatype ChatRun = ChatRun(history: Option<seq<Message>>, outcome: ChatOutcome)

  predicate Submitted(inp: ChatInput) {
    inp.apiKey != "" && inp.enviado
  }

  /** One run of the script. */
  function ChatStep(history: Option<seq<Message>>, inp: ChatInput, llm: seq<Message> -> string): ChatRun
  {
    if inp.apiKey == "" then ChatRun(history, Warned(MissingKeyWarning))
    else
      var h := history.GetOr([]);
      if !inp.enviado then ChatRun(Some(h), Idle)
      else
        var msgs := Prompt(h, inp.pergunta);
        var resp := AiMessage(llm(msgs));
        ChatRun(Some(h + [HumanMessage(HistoryText(inp.pergunta)), resp]), Replied(msgs, resp.content))
  }

  /**
   * Without a key a run stops with the history untouched; otherwise the
   * history key exists afterwards and only grows at its end, by the question
   * and the reply exactly when one was submitted, and the prompt is the one
   * built from the old history.
   */
  lemma StepEffects(history: Option<seq<Message>>, inp: ChatInput, llm: seq<Message> -> string)
    ensures var r := ChatStep(history, inp, llm);
            && (inp.apiKey == "" ==> r == ChatRun(history, Warned(MissingKeyWarning)))
            && (inp.apiKey != "" ==> r.history.Some? && history.GetOr([]) <= r.history.value)
            && |r.history.GetOr([])| == |history.GetOr([])| + (if Submitted(inp) then 2 else 0)
            && (r.outcome.Replied? <==> Submitted(inp))
            && (r.outcome.Replied? ==>
                  var old_ := history.GetOr([]);
                  r.outcome.prompt == Prompt(old_, inp.pergunta) &&
                  r.outcome.reply == llm(r.outcome.prompt) &&
                  r.history.value[|old_|..] == [HumanMessage(HistoryText(inp.pergunta)), AiMessage(r.outcome.reply)])
  {
  }

  /** Several runs in one session; returns the final history key. */
  function ChatRuns(history: Option<seq<Message>>, inputs: seq<ChatInput>, llm: seq<Message> -> string): Option<seq<Message>>
    decreases |inputs|
  {
    if inputs == [] then history
    else ChatRuns(ChatStep(history, inputs[0], llm).history, inputs[1..], llm)
  }

  /** How many runs submitted a question with a key present. */
  function Submissions(inputs: seq<ChatInput>): nat {
    if inputs == [] then 0 else (if Submitted(inputs[0]) then 1 else 0) + Submissions(inputs[1..])
  }

  /** A history of question/reply pairs: human turns at even positions, model replies at odd ones. */
  predicate Alternating(h: seq<Message>) {
    && |h| % 2 == 0
    && (forall i :: 0 <= i < |h| && i % 2 == 0 ==> h[i].HumanMessage?)
    && (forall i :: 0 <= i < |h| && i % 2 == 1 ==> h[i].AiMessage?)
  }

  /** The prompt is the instructions, then every history message in order, then the new question. */
  lemma PromptOrder(history: seq<Message>, pergunta: string)
    ensures var p := Prompt(history, pergunta);
            |p| == |history| + 2 &&
            p[0] == SystemMessage(SystemBlock) &&
            p[1..|p| - 1] == history &&
            p[|p| - 1] == HumanMessage(QuestionText(pergunta))
  {
    var p := Prompt(history, pergunta);
    assert p[1..|p| - 1] == history;
  }

  /** The history is created empty only when absent; without a submission it is left as it was. */
  lemma HistoryInitializedOnce(history: Option<seq<Message>>, inp: ChatInput, llm: seq<Message> -> string)
    requires inp.apiKey != "" && !inp.enviado
    ensures ChatStep(history, inp, llm).history == Some(history.GetOr([]))
    ensures history.Some? ==> ChatStep(history, inp, llm).history == history
  {
  }

  /** Appending a question and a reply to a history of pairs gives a history of pairs. */
  lemma AppendPairKeepsAlternating(h0: seq<Message>, question: Message, reply: Message)
    requires Alternating(h0) && question.HumanMessage? && reply.AiMessage?
    ensures Alternating(h0 + [question, reply])
  {
    var h1 := h0 + [question, reply];
    forall i | 0 <= i < |h1|
      ensures (i % 2 == 0 ==> h1[i].HumanMessage?) && (i % 2 == 1 ==> h1[i].AiMessage?)
    {
      if i < |h0| { assert h1[i] == h0[i]; }
    }
  }

  /** One run keeps the history a sequence of question/reply pairs. */
  lemma StepKeepsAlternating(history: Option<seq<Message>>, inp: ChatInput, llm: seq<Message> -> string)
    requires Alternating(history.GetOr([]))
    ensures Alternating(ChatStep(history, inp, llm).history.GetOr([]))
  {
    if Submitted(inp) {
      var h0 := history.GetOr([]);
      var msgs := Prompt(h0, inp.pergunta);
      AppendPairKeepsAlternating(h0, HumanMessage(HistoryText(inp.pergunta)), AiMessage(llm(msgs)));
    }
  }

  /**
   * Over any runs the history only grows at its end, by two messages per
   * submission, and a sequence of question/reply pairs stays one.
   */
  lemma {:induction false} HistoryAfterRuns(history: Option<seq<Message>>, inputs: seq<ChatInput>, llm: seq<Message> -> string)
    ensures var h := ChatRuns(history, inputs, llm).GetOr([]);
            history.GetOr([]) <= h &&
            |h| == |history.GetOr([])| + 2 * Submissions(inputs) &&
            (Alternating(history.GetOr([])) ==> Alternating(h))
    decreases |inputs|
  {
    if inputs != [] {
      var next := ChatStep(history, inputs[0], llm).history;
      StepEffects(history, inputs[0], llm);
      if Alternating(history.GetOr([])) {
        StepKeepsAlternating(history, inputs[0], llm);
      }
      HistoryAfterRuns(next, inputs[1..], llm);
    }
  }

  /** When every run submits a question, there are as many submissions as runs. */
  lemma {:induction false} AllSubmitted(inputs: seq<ChatInput>)
    requires forall i :: 0 <= i < |inputs| ==> Submitted(inputs[i])
    ensures Submissions(inputs) == |inputs|
    decreases |inputs|
  {
    if inputs != [] {
      AllSubmitted(inputs[1..]);
    }
  }

  /** Position `at` of `h` holds the human turn for `pergunta`, and the next one a model reply. */
  predicate PairAt(h: seq<Message>, at: nat, pergunta: string) {
    at + 1 < |h| && h[at] == HumanMessage(HistoryText(pergunta)) && h[at + 1].AiMessage?
  }

  /** A pair stays where it is when the history grows at its end. */
  lemma PairAtExtends(h: seq<Message>, h': seq<Message>, at: nat, pergunta: string)
    requires PairAt(h, at, pergunta) && h <= h'
    ensures PairAt(h', at, pergunta)
  {
    assert h'[at] == h[at] && h'[at + 1] == h[at + 1];
  }

  /** A submitted question is stored right after the old history, followed by the model's reply. */
  lemma SubmitStoresPair(history: Option<seq<Message>>, inp: ChatInput, llm: seq<Message> -> string)
    requires Submitted(inp)
    ensures var h0 := history.GetOr([]);
            var h1 := ChatStep(history, inp, llm).history.GetOr([]);
            |h1| == |h0| + 2 && PairAt(h1, |h0|, inp.pergunta)
  {
    var h0 := history.GetOr([]);
    var question := HumanMessage(HistoryText(inp.pergunta));
    var reply := AiMessage(llm(Prompt(h0, inp.pergunta)));
    assert ChatStep(history, inp, llm).history.value == h0 + [question, reply];
  }

  /**
   * When every run submits a question, the i-th question is stored as a
   * human turn right after the earlier pairs, followed by a model reply.
   */
  lemma {:induction false} SubmittedAt(history: Option<seq<Message>>, inputs: seq<ChatInput>, llm: seq<Message> -> string, i: nat)
    requires forall j :: 0 <= j < |inputs| ==> Submitted(inputs[j])
    requires i < |inputs|
    ensures PairAt(ChatRuns(history, inputs, llm).GetOr([]), |history.GetOr([])| + 2 * i, inputs[i].pergunta)
    decreases i
  {
    var next := ChatStep(history, inputs[0], llm).history;
    var h := ChatRuns(next, inputs[1..], llm).GetOr([]);
    SubmitStoresPair(history, inputs[0], llm);
    assert ChatRuns(history, inputs, llm) == ChatRuns(next, inputs[1..], llm);
    if i == 0 {
      HistoryAfterRuns(next, inputs[1..], llm);
      PairAtExtends(next.GetOr([]), h, |history.GetOr([])|, inputs[0].pergunta);
    } else {
      SubmittedAt(next, inputs[1..], llm, i - 1);
      assert inputs[1..][i - 1] == inputs[i];
      assert |next.GetOr([])| + 2 * (i - 1) == |history.GetOr([])| + 2 * i;
    }
  }

  /**
   * After n submitted questions in a fresh session the history holds 2n
   * messages: the i-th question as a human turn at 2i, a model reply at 2i + 1.
   */
  lemma SubmissionsFromFreshSession(inputs: seq<ChatInput>, llm: seq<Message> -> string)
    requires forall i :: 0 <= i < |inputs| ==> Submitted(inputs[i])
    ensures var h := ChatRuns(None, inputs, llm).GetOr([]);
            |h| == 2 * |inputs| &&
            forall i :: 0 <= i < |inputs| ==> PairAt(h, 2 * i, inputs[i].pergunta)
  {
    var start: Option<seq<Message>> := None;
    assert |start.GetOr([])| == 0;
    HistoryAfterRuns(start, inputs, llm);
    AllSubmitted(inputs);
    forall i | 0 <= i < |inputs|
      ensures PairAt(ChatRuns(start, inputs, llm).GetOr([]), 2 * i, inputs[i].pergunta)
    {
      SubmittedAt(start, inputs, llm, i);
    }
  }

  /** The session's history key, extended in place by each run. */
  class ChatApp {
    var history: Option<seq<Message>>

    constructor ()
      ensures history == None
    {
      history := None;
    }

    /** One run of the script. */
    method Run(inp: ChatInput, llm: seq<Message> -> string) returns (outcome: ChatOutcome)
      modifies this
      ensures ChatRun(history, outcome) == ChatStep(old(history), inp, llm)
    {
      if inp.apiKey == "" {
        outcome := Warned(MissingKeyWarning);
        return;
      }
      if history.None? {
        history := Some([]);
      }
      if !inp.enviado {
        outcome := Idle;
        return;
      }
      var msgs := Prompt(history.value, inp.pergunta);
      var resp := AiMessage(llm(msgs));
      history := Some(history.value + [HumanMessage(HistoryText(inp.pergunta)), resp]);
      outcome := Replied(msgs, resp.content);
    }
  }
}
