# Legal assistant and trip planner: the deterministic core

Three small demonstration apps wrap third-party language-model services in a
web page. This project models the part of them that is their own logic, with
the outside services as function parameters:

- **The legal assistant with retrieval** (`cap-14/dsa_app_com_rag.py`).
  - `dsa_formata_docs` turns the retrieved passages into the prompt's context block.
  - Each passage becomes `[p.<page>] "<excerpt><…>"` and the entries are joined by blank lines.
  - Around it sits the session gating: the uploaded PDF is indexed at most once per session, a retriever exists only once the session is ready, and asking before that shows an error.
- **The legal assistant without retrieval** (`cap-14/dsa_app_sem_rag.py`).
  - A conversation history is created once per session.
  - It is sent to the model with every new question.
  - It is then extended by the question and the reply.
- **The trip planner** (`cap-15/dsa_app.py`).
  - The Groq key, the Tavily key and the city are checked in that order.
  - The keys are written into the process environment.
  - A crew of three agents runs three tasks that form a linear chain.

Modules, one per concern: `Options` (absent session keys), `Text` (Python's
`str.strip()`, `sep.join`, `str(int)`), `ChatMessages`, `ContextFormat`
(`dsa_formata_docs`), `RagSession` (one run of the retrieval app, as a pure
step `RagStep` and as the class `RagApp` whose `Run` updates the session keys
in place), `ChatHistory` (likewise `ChatStep` and the class `ChatApp`), and
`TripPlanner` (validation, the environment as the class `Environ`, the crew,
and `Run`).

The ellipsis is decided by the length of the passage *before* stripping,
not by whether the excerpt was cut. So a passage padded with whitespace is
quoted whole and still gets `…` (`EllipsisWithoutCut`).

## Model

| member | source | states |
|---|---|---|
| `Text.Strip` | cap-14/dsa_app_com_rag.py:159 | Python's `str.strip()`; its contract only bounds the length, its properties are in `StripIsTrimmedSlice`, `TrimStartAt`, `TrimEndAt` |
| `Text.StripIsTrimmedSlice` | cap-14/dsa_app_com_rag.py:159 | `strip()` yields the unique slice with only whitespace around it that starts and ends with non-whitespace (Python's whitespace set) |
| `Text.TrimStartAt` | cap-14/dsa_app_com_rag.py:159 | dropping leading whitespace up to the first non-space character leaves exactly the rest |
| `Text.TrimEndAt` | cap-14/dsa_app_com_rag.py:159 | dropping trailing whitespace after the last non-space character leaves exactly the front |
| `Text.Join` | cap-14/dsa_app_com_rag.py:162 | `sep.join(parts)`; no contract, its properties are in `JoinLength` and `JoinPieceAt` |
| `Text.JoinLength` | cap-14/dsa_app_com_rag.py:162 | the joined text is the parts' lengths plus one separator per gap |
| `Text.JoinPieceAt` | cap-14/dsa_app_com_rag.py:162 | each part sits at its offset in input order and is followed by the separator unless it is last |
| `Text.NatToDecimal` | cap-14/dsa_app_com_rag.py:158 | `str(n)` of a natural number is a non-empty digit string without a leading zero |
| `Text.NatToDecimalRoundTrip` | cap-14/dsa_app_com_rag.py:158 | reading the rendered digits back gives the number |
| `Text.IntToDecimal` | cap-15/dsa_app.py:145 | `str(i)` of an integer; no contract, its properties are in `IntToDecimalRoundTrip` |
| `Text.IntToDecimalRoundTrip` | cap-15/dsa_app.py:145 | `str(i)` of any integer, sign included, reads back as `i` |
| `ContextFormat.Excerpt` | cap-14/dsa_app_com_rag.py:159 | the excerpt is a prefix of the stripped text, at most 800 characters, and all of it when it fits |
| `ContextFormat.FormatDocs` | cap-14/dsa_app_com_rag.py:150-162 | the loop builds one entry per passage in order and joins them with blank lines; no passages give the empty string |
| `ContextFormat.Entry` | cap-14/dsa_app_com_rag.py:156-159 | one passage's entry; no contract, its properties are in `EntryLayout`, `CutIsMarked`, `EllipsisWithoutCut` |
| `ContextFormat.PageLabel` | cap-14/dsa_app_com_rag.py:157-158 | the page label; no contract, its properties are in `PageNumberReadable` and `MissingPageIsQuestionMark` |
| `ContextFormat.EntryLayout` | cap-14/dsa_app_com_rag.py:156-159 | an entry is `[p.<page>] "`, the first min(800, length) characters of the stripped text, `…` exactly when the unstripped text exceeds 800 characters, and a closing quote |
| `ContextFormat.CutIsMarked` | cap-14/dsa_app_com_rag.py:159 | every cut excerpt carries the ellipsis; an uncut one carries it exactly when only surrounding whitespace made the passage long |
| `ContextFormat.EllipsisWithoutCut` | cap-14/dsa_app_com_rag.py:159 | `"a"` followed by 800 spaces is quoted whole and still gets the ellipsis: `[p.?] "a…"` |
| `ContextFormat.PageNumberReadable` | cap-14/dsa_app_com_rag.py:157-158 | an integer `page` value is printed as digits that read back as that page |
| `ContextFormat.MissingPageIsQuestionMark` | cap-14/dsa_app_com_rag.py:157-158 | no metadata, empty metadata or no `page` key gives the label `?` |
| `ContextFormat.Formatted` | cap-14/dsa_app_com_rag.py:153-162 | the context block as a value; no contract, its properties are in `FormattedLayout`, and `FormatDocs` computes it |
| `ContextFormat.FormattedLayout` | cap-14/dsa_app_com_rag.py:153-162 | the context block holds entry k at its offset, followed by a blank line unless last, and has the entries' length plus 2 per gap |
| `RagSession.Prepared` | cap-14/dsa_app_com_rag.py:78-166 | the session preparation (directory, indexing, ready flag, chat flag) keeps the session consistent |
| `RagSession.RagApp.Prepare` | cap-14/dsa_app_com_rag.py:78-112 | the in-place session updates and the indexing call are those of `Prepared` and `IndexCalls` |
| `RagSession.RagStep` | cap-14/dsa_app_com_rag.py:63-197 | one run keeps the session consistent: a ready flag is True and comes with a collection in the session's directory |
| `RagSession.RagRuns` | cap-14/dsa_app_com_rag.py:78-119 | repeated runs in one session keep it consistent |
| `RagSession.NoKeyStopsEarly` | cap-14/dsa_app_com_rag.py:64-66 | without a key the run warns and stops: session untouched, no service called |
| `RagSession.IndexOnlyWhenNotReady` | cap-14/dsa_app_com_rag.py:107-112 | a run indexes exactly when a PDF is uploaded and the ready flag is absent; then the flag is set; an already ready session keeps its collection |
| `RagSession.RetrieverIffReady` | cap-14/dsa_app_com_rag.py:114-119 | a retriever exists exactly when the ready flag is set, over the session's collection with k = 3 |
| `RagSession.AskNeedsRetriever` | cap-14/dsa_app_com_rag.py:178-197 | pressing without a retriever shows "Envie um PDF primeiro…" and calls neither search nor model; otherwise the answer is the model's reply to the prompt built from the formatted passages |
| `RagSession.IndexedAtMostOnce` | cap-14/dsa_app_com_rag.py:107-112 | over any number of runs the PDF is indexed at most once (never if already ready), and a ready session keeps its collection |
| `RagSession.RagApp.Run` | cap-14/dsa_app_com_rag.py:63-197 | the in-place update of the session keys and the run's outcome and calls are those of `RagStep` |
| `ChatHistory.ChatStep` | cap-14/dsa_app_sem_rag.py:41-98 | one run of the script; no contract, its properties are in `StepEffects`, `HistoryInitializedOnce`, `SubmitStoresPair`, `StepKeepsAlternating` |
| `ChatHistory.StepEffects` | cap-14/dsa_app_sem_rag.py:41-98 | no key: stop with history untouched; otherwise the history is created if absent and only grows at its end, by exactly the human turn `Pergunta: …` and the model reply on a submission; the prompt is the system block, the old history, the new question |
| `ChatHistory.Prompt` | cap-14/dsa_app_sem_rag.py:58-69 | the prompt sent to the model; no contract, its properties are in `PromptOrder` |
| `ChatHistory.PromptOrder` | cap-14/dsa_app_sem_rag.py:58-69 | the prompt is the system block, then every history message in order, then `Pergunta: {pergunta}` with the closing instruction |
| `ChatHistory.HistoryInitializedOnce` | cap-14/dsa_app_sem_rag.py:72-85 | an absent history becomes empty, an existing one is kept, and without a submission nothing is added |
| `ChatHistory.HistoryAfterRuns` | cap-14/dsa_app_sem_rag.py:94-98 | over any runs the history is extend-only, grows by 2 per submission and stays human/model alternating |
| `ChatHistory.SubmissionsFromFreshSession` | cap-14/dsa_app_sem_rag.py:72-98 | after n submissions in a fresh session the history has 2n messages, the i-th question at 2i and a model reply at 2i + 1 |
| `ChatHistory.StepKeepsAlternating` | cap-14/dsa_app_sem_rag.py:94-98 | after one run, a history made of question/reply pairs is still made of such pairs |
| `ChatHistory.SubmitStoresPair` | cap-14/dsa_app_sem_rag.py:94-98 | a submission grows the history by two: the human turn `Pergunta: …` right after the old history, then the model's reply |
| `ChatHistory.SubmittedAt` | cap-14/dsa_app_sem_rag.py:94-98 | when every run submits, the i-th question sits right after the earlier history and i earlier pairs, followed by a model reply |
| `ChatHistory.ChatApp.Run` | cap-14/dsa_app_sem_rag.py:41-98 | the in-place update of the history and the outcome are those of `ChatStep` |
| `TripPlanner.FirstMissingIsFirstEmpty` | cap-15/dsa_app.py:96-114 | in the reference definition the first empty field decides the error |
| `TripPlanner.FirstMissingNone` | cap-15/dsa_app.py:96-116 | in the reference definition there is no error exactly when no field is empty |
| `TripPlanner.Validate` | cap-15/dsa_app.py:96-116 | the checks before the crew runs; no contract, its properties are in `ValidationOrder` |
| `TripPlanner.ValidationOrder` | cap-15/dsa_app.py:96-116 | the checks equal the first-missing rule over Groq key, Tavily key, city: each error whatever the later fields hold, none only when all three are present |
| `TripPlanner.StartupEnv` | cap-15/dsa_app.py:57-61 | the environment writes at start-up; no contract, its properties are in `StartupWrites` |
| `TripPlanner.ValidatedEnv` | cap-15/dsa_app.py:119-125 | the environment writes after validation; no contract, its properties are in `TripEnvWrites` |
| `TripPlanner.TripEnv` | cap-15/dsa_app.py:57-125 | all environment writes of a run; no contract, its properties are in `TripEnvWrites` |
| `TripPlanner.StartupWrites` | cap-15/dsa_app.py:57-61 | before the press the Tavily variable is the typed key, else its earlier value, else empty; the OpenAI variable is empty; nothing else changes |
| `TripPlanner.TripEnvWrites` | cap-15/dsa_app.py:116-125 | after any run the OpenAI variable is empty; a passing run stores both typed keys; other runs leave the Groq variable as it was; other variables are unchanged |
| `TripPlanner.Environ.Set` | cap-15/dsa_app.py:119-125 | an environment write changes exactly that variable |
| `TripPlanner.BuildCrew` | cap-15/dsa_app.py:133-268 | three agents and three tasks in order, the tasks form a linear chain, task i is done by agent i, all agents share the Groq model with the typed key and do not delegate, only the guide has the search tool, the process is sequential |
| `TripPlanner.ChainUpstream` | cap-15/dsa_app.py:222-252 | in a linear chain, the work reaching task i is exactly the tasks before it, in order |
| `TripPlanner.ItineraryBuildsOnAll` | cap-15/dsa_app.py:209-264 | the itinerary's context is exactly [planning], planning's is exactly [research], so the itinerary builds on both |
| `TripPlanner.TripResult` | cap-15/dsa_app.py:96-278 | the outcome of a run; no contract, its properties are in `OneOutcomePerPress` |
| `TripPlanner.OneOutcomePerPress` | cap-15/dsa_app.py:96-278 | without a press nothing is checked or run; with one, exactly one error or the crew's itinerary is shown |
| `TripPlanner.Run` | cap-15/dsa_app.py:57-278 | the in-place environment writes are those of `TripEnv` and the outcome is that of `TripResult` |

## Left out

- The web page itself: rendering, widgets, spinners, link buttons and the text shown around the outcomes. Only the warnings and errors that decide a run are modelled.
- The language models, the Tavily search and the crew's execution are foreign network calls. They appear as function parameters (`llm`, `search`, `kickoff`) that return strings or passages.
- `RagSession.IndexedAtMostOnce`: indexing (cap-14/dsa_app_com_rag.py:110) is taken to always succeed. If it raised, line 111 would not run, `vectordb_ready` would stay unset and a later run with the file would index again; the lemma counts successful indexings only.
- `RagSession.RagStep`: the search and the model (cap-14/dsa_app_com_rag.py:193) are taken to always return. If the pipeline raised, the run would end with the error and no answer shown.
- `ChatHistory.ChatStep`: the model call (cap-14/dsa_app_sem_rag.py:91) is taken to always return. If it raised, the `extend` at line 94 would be skipped and the history would stay as it was.
- The exception handler around the crew's run (cap-15/dsa_app.py:281-287) is a catch-all around those foreign calls. `TripPlanner.Run` assumes the crew returns a result.
- PDF loading, the temporary PDF file, the text splitter (chunks of 1000 with overlap 150), the embedding model and the vector store's storage and similarity search are library internals, partly floating point.
  - Indexing is recorded as an `IndexPdf` call.
  - The collection is an opaque `VectorDb` value.
  - The directory a temporary-directory request would return is an input of the run.
- The parallel branches of the retrieval pipeline are library concurrency. The model composes them in sequence: the context is the formatted search result and the question passes through unchanged.
- In cap-14 the environment writes (`TOKENIZERS_PARALLELISM`, `GROQ_API_KEY`) and the model's settings are not modelled. They only configure the outside services.
- Metadata values are modelled as integers, strings, booleans and None, rendered as Python's `str()` renders them. Other value types, such as floats, are not modelled.
- Passages are values here, so the formatter cannot change them. Whether a caller could alias and mutate a passage is not modelled.
- `TripPlanner.BuildCrew` models the agents' and tasks' construction data. CrewAI's own defaults for fields the apps do not set are not modelled. The planner's and writer's tool lists are taken to be empty.
- The day count comes from a number field limited to 1–14. It is rendered with `str()` and not otherwise constrained.
