/**
 * The multi-agent trip planner (cap-15/dsa_app.py): it validates the keys
 * and the city in a fixed order, writes the keys into the process
 * environment, and builds a crew of three agents whose three tasks form a
 * linear chain run one after the other. The crew's run is a function
 * parameter.
 */
module TripPlanner {
  import opened Options
  import opened Text

  const GroqKeyVar: string := "GROQ_API_KEY"
  const TavilyKeyVar: string := "TAVILY_API_KEY"
  const OpenAiKeyVar: string := "OPENAI_API_KEY"

  /** What one run gets from the page. */
  datatype TripInput = TripInput(
    groqApiKey: string,
    tavilyApiKey: string,
    city: string,
    days: int,        // the page's number field, 1 to 14
    interests: string,
    startButton: bool)

  // ---------------------------------------------------------------- validation

  /** The three checks, in the order they are made. */
  datatype ValidationError = MissingGroqKey | MissingTavilyKey | MissingCity

  /** The error shown for a failed check. */
  function ErrorText(e: ValidationError): string {
    match e
    case MissingGroqKey => "Por favor, insira sua Groq API Key na barra lateral."
    case MissingTavilyKey => "Por favor, insira sua Tavily API Key na barra lateral."
    case MissingCity => "Por favor, insira uma cidade."
  }

  /** The checks made when the button is pressed; an empty string is a missing field. */
  function Validate(groqApiKey: string, tavilyApiKey: string, city: string): Option<ValidationError> {
    if groqApiKey == "" then Some(MissingGroqKey)
    else if tavilyApiKey == "" then Some(MissingTavilyKey)
    else if city == "" then Some(MissingCity)
    else None
  }

  /** Reference definition: the error of the first empty field of a list, or None if none is empty. */
  function FirstMissing(fields: seq<(string, ValidationError)>): Option<ValidationError> {
    if fields == [] then None
    else if fields[0].0 == "" then Some(fields[0].1)
    else FirstMissing(fields[1..])
  }

  /** The first empty field decides the error. */
  lemma {:induction false} FirstMissingIsFirstEmpty(fields: seq<(string, ValidationError)>, i: nat)
    requires i < |fields| && fields[i].0 == ""
    requires forall j :: 0 <= j < i ==> fields[j].0 != ""
    ensures FirstMissing(fields) == Some(fields[i].1)
  {
    if i > 0 {
      FirstMissingIsFirstEmpty(fields[1..], i - 1);
    }
  }

  /** No error exactly when no field is empty. */
  lemma {:induction false} FirstMissingNone(fields: seq<(string, ValidationError)>)
    ensures FirstMissing(fields) == None <==> forall j :: 0 <= j < |fields| ==> fields[j].0 != ""
  {
    if fields != [] {
      FirstMissingNone(fields[1..]);
      if fields[0].0 != "" {
        assert forall j :: 1 <= j < |fields| ==> fields[j].0 == fields[1..][j - 1].0;
      }
    }
  }

  /**
   * The checks report the first missing field of Groq key, Tavily key, city,
   * whatever the later fields hold, and report nothing only when all three
   * are present.
   */
  lemma ValidationOrder(groqApiKey: string, tavilyApiKey: string, city: string)
    ensures var fields := [(groqApiKey, MissingGroqKey), (tavilyApiKey, MissingTavilyKey), (city, MissingCity)];
            Validate(groqApiKey, tavilyApiKey, city) == FirstMissing(fields)
    ensures Validate(groqApiKey, tavilyApiKey, city) == None <==>
              groqApiKey != "" && tavilyApiKey != "" && city != ""
    ensures groqApiKey == "" ==> Validate(groqApiKey, tavilyApiKey, city) == Some(MissingGroqKey)
    ensures groqApiKey != "" && tavilyApiKey == "" ==> Validate(groqApiKey, tavilyApiKey, city) == Some(MissingTavilyKey)
    ensures groqApiKey != "" && tavilyApiKey != "" && city == "" ==> Validate(groqApiKey, tavilyApiKey, city) == Some(MissingCity)
  {
    var fields := [(groqApiKey, MissingGroqKey), (tavilyApiKey, MissingTavilyKey), (city, MissingCity)];
    FirstMissingNone(fields);
    if groqApiKey == "" {
      FirstMissingIsFirstEmpty(fields, 0);
    } else if tavilyApiKey == "" {
      FirstMissingIsFirstEmpty(fields, 1);
    } else if city == "" {
      FirstMissingIsFirstEmpty(fields, 2);
    }
  }

  // --------------------------------------------------------------- environment

  /** Python's `os.environ.get(key, default)`. */
  function Lookup(env: map<string, string>, key: string, default: string): string {
    if key in env then env[key] else default
  }

  /** The writes made on every run, before the button is looked at. */
  function StartupEnv(env: map<string, string>, tavilyApiKey: string): map<string, string> {
    var tavily := if tavilyApiKey != "" then tavilyApiKey else Lookup(env, TavilyKeyVar, "");
    env[TavilyKeyVar := tavily][OpenAiKeyVar := ""]
  }

  /** The writes made once the three checks pass. */
  function ValidatedEnv(env: map<string, string>, groqApiKey: string, tavilyApiKey: string): map<string, string> {
    var e := env[GroqKeyVar := groqApiKey][TavilyKeyVar := tavilyApiKey];
    e[OpenAiKeyVar := Lookup(e, OpenAiKeyVar, "")]
  }

  /** Whether a run goes past the checks. */
  predicate Proceeds(inp: TripInput) {
    inp.startButton && Validate(inp.groqApiKey, inp.tavilyApiKey, inp.city) == None
  }

  /** The environment after one run. */
  function TripEnv(env: map<string, string>, inp: TripInput): map<string, string> {
    var e := StartupEnv(env, inp.tavilyApiKey);
    if Proceeds(inp) then ValidatedEnv(e, inp.groqApiKey, inp.tavilyApiKey) else e
  }

  /**
   * Before the button is looked at, the Tavily variable holds the typed key,
   * or else its earlier value, or else the empty string; the OpenAI variable
   * is empty; nothing else changes.
   */
  lemma StartupWrites(env: map<string, string>, tavilyApiKey: string)
    ensures var e := StartupEnv(env, tavilyApiKey);
            e.Keys == env.Keys + {TavilyKeyVar, OpenAiKeyVar} &&
            e[TavilyKeyVar] == (if tavilyApiKey != "" then tavilyApiKey
                                else if TavilyKeyVar in env then env[TavilyKeyVar] else "") &&
            e[OpenAiKeyVar] == "" &&
            forall k :: k in env && k != TavilyKeyVar && k != OpenAiKeyVar ==> e[k] == env[k]
  {
  }

  /**
   * After any run the OpenAI variable is empty. A run that passes the checks
   * leaves the two typed keys in their variables; any other run leaves the
   * Groq variable as it was. No other variable changes.
   */
  lemma TripEnvWrites(env: map<string, string>, inp: TripInput)
    ensures var e := TripEnv(env, inp);
            e[OpenAiKeyVar] == "" &&
            (Proceeds(inp) ==> e[GroqKeyVar] == inp.groqApiKey && e[TavilyKeyVar] == inp.tavilyApiKey) &&
            (!Proceeds(inp) ==> (GroqKeyVar in e <==> GroqKeyVar in env) &&
                                (GroqKeyVar in env ==> e[GroqKeyVar] == env[GroqKeyVar])) &&
            forall k :: k in env && k != GroqKeyVar && k != TavilyKeyVar && k != OpenAiKeyVar ==> k in e && e[k] == env[k]
  {
  }

  /** The process environment, changed in place. */
  class Environ {
    var vars: map<string, string>

    constructor (initial: map<string, string>)
      ensures vars == initial
    {
      vars := initial;
    }

    function Get(key: string, default: string): string
      reads this
    {
      Lookup(vars, key, default)
    }

    method Set(key: string, value: string)
      modifies this
      ensures vars == old(vars)[key := value]
    {
      vars := vars[key := value];
    }
  }

  // ---------------------------------------------------------------- the crew

  /** The language model the agents share, with the key it is given. */
  datatype LlmConfig = LlmConfig(model: string, apiKey: string)

  const Model: string := "groq/llama-3.3-70b-versatile"

  datatype Tool = TavilySearch

  datatype Agent = Agent(
    role: string, goal: string, backstory: string,
    llm: LlmConfig, tools: seq<Tool>, allowDelegation: bool, verbose: bool)

  /** A task; `context` lists the tasks whose output it receives. */
  datatype Task = Task(description: string, expectedOutput: string, agent: Agent, context: seq<Task>)

  datatype Process = Sequential

  datatype Crew = Crew(agents: seq<Agent>, tasks: seq<Task>, process: Process, verbose: int)

  // The fixed wording of the agents and tasks; the run's city, day count and
  // interests are spliced between these pieces.
  const GuideRole: string := "Especialista Local de "
  const GuideGoal: string := "Fornecer as melhores sugestões de locais para uma viagem de "
  const GuideBackstory: string := "Você é um guia turístico local de "
  const GuideBackstoryEnd: string := ", apaixonado por compartilhar os segredos da sua cidade."
  const PlannerRole: string := "Planejador Logístico de Viagem"
  const PlannerGoal: string := "Organizar as sugestões em um roteiro lógico e eficiente para "
  const PlannerBackstory: string := "Você é um especialista em logística que agrupa atividades por proximidade e horários."
  const WriterRole: string := "Revisor e Escritor de Roteiros"
  const WriterGoal: string := "Transformar o esboço em um itinerário diário detalhado e agradável em Markdown."
  const WriterBackstory: string := "Você é um concierge de hotel 5 estrelas."
  const ResearchDescription: string := "Use a ferramenta de busca para achar atrações, restaurantes e experiências para "
  const ResearchDescriptionEnd: string := ". Explique brevemente o motivo de cada sugestão e inclua a fonte/URL."
  const ResearchOutput: string := "Lista com pelo menos 10 sugestões, cada uma com 1 motivo e 1 URL."
  const PlanningDescription: string := "Agrupe as sugestões por localização e crie um esboço dia a dia para "
  const PlanningOutput: string := "Plano estruturado por dia, com blocos por região e janelas de horário."
  const ItineraryDescription: string := "Escreva o roteiro final em Markdown, com seções por dia e dicas práticas."
  const ItineraryOutput: string := "Roteiro completo em Markdown, pronto para copiar."

  function GuideAgent(llm: LlmConfig, city: string, days: string, interests: string): Agent {
    Agent(GuideRole + city,
          GuideGoal + days + " dias em " + city + ", com foco em " + interests + ".",
          GuideBackstory + city + GuideBackstoryEnd,
          llm, [TavilySearch], false, false)
  }

  function PlannerAgent(llm: LlmConfig, days: string): Agent {
    Agent(PlannerRole, PlannerGoal + days + " dias.", PlannerBackstory, llm, [], false, false)
  }

  function WriterAgent(llm: LlmConfig): Agent {
    Agent(WriterRole, WriterGoal, WriterBackstory, llm, [], false, false)
  }

  function ResearchTask(agent: Agent, city: string, days: string, interests: string): Task {
    Task(ResearchDescription + days + " dias em " + city + " com base em: " + interests + ResearchDescriptionEnd,
         ResearchOutput, agent, [])
  }

  function PlanningTask(agent: Agent, days: string, research: Task): Task {
    Task(PlanningDescription + days + " dias.", PlanningOutput, agent, [research])
  }

  function ItineraryTask(agent: Agent, planning: Task): Task {
    Task(ItineraryDescription, ItineraryOutput, agent, [planning])
  }

  /** The first task takes no context and each later task takes exactly the one before it. */
  predicate LinearChain(tasks: seq<Task>) {
    && tasks != []
    && tasks[0].context == []
    && forall i :: 1 <= i < |tasks| ==> tasks[i].context == [tasks[i - 1]]
  }

  /** The tasks whose output reaches `t` through single-task contexts, earliest first. */
  function Upstream(t: Task): seq<Task>
    decreases t
  {
    if |t.context| == 1 then Upstream(t.context[0]) + [t.context[0]] else []
  }

  /** In a linear chain, the work that reaches task i is exactly the tasks before it, in list order. */
  lemma {:induction false} ChainUpstream(tasks: seq<Task>, i: nat)
    requires LinearChain(tasks) && i < |tasks|
    ensures Upstream(tasks[i]) == tasks[..i]
  {
    if i > 0 {
      ChainUpstream(tasks, i - 1);
      assert tasks[..i] == tasks[..i - 1] + [tasks[i - 1]];
    }
  }

  /** The crew built for a run that passed the checks. */
  function BuildCrew(inp: TripInput): (c: Crew)
    ensures |c.agents| == 3 && |c.tasks| == 3
    ensures LinearChain(c.tasks)
    ensures forall i :: 0 <= i < 3 ==> c.tasks[i].agent == c.agents[i]
    ensures forall i :: 0 <= i < 3 ==>
              c.agents[i].llm == LlmConfig(Model, inp.groqApiKey) && !c.agents[i].allowDelegation
    ensures c.agents[0].tools == [TavilySearch] && c.agents[1].tools == [] && c.agents[2].tools == []
    ensures c.process == Sequential
  {
    var llm := LlmConfig(Model, inp.groqApiKey);
    var days := IntToDecimal(inp.days);
    var guide := GuideAgent(llm, inp.city, days, inp.interests);
    var planner := PlannerAgent(llm, days);
    var writer := WriterAgent(llm);
    var research := ResearchTask(guide, inp.city, days, inp.interests);
    var planning := PlanningTask(planner, days, research);
    var itinerary := ItineraryTask(writer, planning);
    Crew([guide, planner, writer], [research, planning, itinerary], Sequential, 0)
  }

  /** The itinerary task receives the planning, which receives the research. */
  lemma ItineraryBuildsOnAll(inp: TripInput)
    ensures var c := BuildCrew(inp);
            Upstream(c.tasks[2]) == c.tasks[..2] &&
            c.tasks[2].context == [c.tasks[1]] && c.tasks[1].context == [c.tasks[0]]
  {
    ChainUpstream(BuildCrew(inp).tasks, 2);
  }

  // ------------------------------------------------------------------ one run

  /** How the run ends on the page. */
  datatype TripOutcome =
    | Idle                      // the button was not pressed
    | ErrorShown(error: string)  // a check failed
    | Itinerary(markdown: string)

  /** The page's outcome for one run, given what the crew produces. */
  function TripResult(inp: TripInput, kickoff: Crew -> string): TripOutcome {
    if !inp.startButton then Idle
    else
      match Validate(inp.groqApiKey, inp.tavilyApiKey, inp.city)
      case Some(e) => ErrorShown(ErrorText(e))
      case None => Itinerary(kickoff(BuildCrew(inp)))
  }

  /**
   * Without a press nothing is checked and the crew does not run; with a
   * press exactly one of the three errors or the crew's itinerary is shown.
   */
  lemma OneOutcomePerPress(inp: TripInput, kickoff: Crew -> string)
    ensures var o := TripResult(inp, kickoff);
            (!inp.startButton <==> o == Idle) &&
            (o.Itinerary? <==> Proceeds(inp)) &&
            (o.Itinerary? ==> o.markdown == kickoff(BuildCrew(inp))) &&
            (o.ErrorShown? ==> exists e :: Validate(inp.groqApiKey, inp.tavilyApiKey, inp.city) == Some(e) &&
                                           o.error == ErrorText(e))
  {
  }

  /** One run of the script: environment writes, checks, and the crew's run. */
  method Run(env: Environ, inp: TripInput, kickoff: Crew -> string) returns (outcome: TripOutcome)
    modifies env
    ensures env.vars == TripEnv(old(env.vars), inp)
    ensures outcome == TripResult(inp, kickoff)
  {
    env.Set(TavilyKeyVar, if inp.tavilyApiKey != "" then inp.tavilyApiKey else env.Get(TavilyKeyVar, ""));
    env.Set(OpenAiKeyVar, "");
    if !inp.startButton {
      outcome := Idle;
      return;
    }
    if inp.groqApiKey == "" {
      outcome := ErrorShown(ErrorText(MissingGroqKey));
    } else if inp.tavilyApiKey == "" {
      outcome := ErrorShown(ErrorText(MissingTavilyKey));
    } else if inp.city == "" {
      outcome := ErrorShown(ErrorText(MissingCity));
    } else {
      env.Set(GroqKeyVar, inp.groqApiKey);
      env.Set(TavilyKeyVar, inp.tavilyApiKey);
      env.Set(OpenAiKeyVar, env.Get(OpenAiKeyVar, ""));
      var crew := BuildCrew(inp);
      outcome := Itinerary(kickoff(crew));
    }
  }
}
