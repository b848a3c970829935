// The research team (graph/nodes/research_team_node.py): the dispatcher that picks the
// next agent, the web-search usage check, the recursion-limit fallback, and the step
// executor that runs one agent on the first unfinished sub-question.
module ResearchTeamNode {
  import opened Wrappers
  import opened Strings
  import opened Values
  import opened Messages
  import opened DecomposerModel
  import opened CitationExtraction
  import opened ContextManagement
  import opened JsonUtils
  import opened Retriever
  import opened GraphTypes
  import opened GraphUtils
  import opened Builder

  // ---------------------------------------------------------------------------
  // research_team_node

  predicate KnownStep(q: SubQuestion)
    reads q
  {
    q.stepType in TaskTypeNames
  }

  /** The question the dispatcher acts on: the first unfinished one with a known type;
      unfinished questions of any other type are passed over. */
  function TeamDispatchIndex(qs: seq<SubQuestion>): (r: Option<nat>)
    reads qs
    ensures r.Some? ==> r.value < |qs| && Unfinished(qs[r.value]) && KnownStep(qs[r.value])
    ensures r.Some? ==> forall j :: 0 <= j < r.value ==> !(Unfinished(qs[j]) && KnownStep(qs[j]))
    ensures r.None? ==> forall j :: 0 <= j < |qs| ==> !(Unfinished(qs[j]) && KnownStep(qs[j]))
    decreases |qs|
  {
    if |qs| == 0 then None
    else if Unfinished(qs[0]) && KnownStep(qs[0]) then Some(0)
    else match TeamDispatchIndex(qs[1..])
      case Some(i) => Some(i + 1)
      case None => None
  }

  /** `research_team_node`: the meta fields, and the agent for the dispatched question or
      "reporter" when there is none. */
  function ResearchTeamNode(state: State): (c: Command)
    reads QuestionsOf(GetPlan(state))
    ensures c.update == PreserveStateMetaFields(state)
    ensures c.goto in ConditionalTargets
    ensures c.goto == "reporter" <==> TeamDispatchIndex(QuestionsOf(GetPlan(state))).None?
  {
    var qs := QuestionsOf(GetPlan(state));
    match TeamDispatchIndex(qs)
    case Some(i) => Command(PreserveStateMetaFields(state), AgentFor(qs[i].stepType))
    case None => Command(PreserveStateMetaFields(state), "reporter")
  }

  /** On a question list whose first unfinished question has a known type, both
      dispatchers select the same question. */
  lemma {:induction false} DispatchIndexAgrees(qs: seq<SubQuestion>)
    requires FirstUnfinished(qs).Some? ==> KnownStep(qs[FirstUnfinished(qs).value])
    ensures TeamDispatchIndex(qs) == FirstUnfinished(qs)
    decreases |qs|
  {
    if |qs| > 0 && !Unfinished(qs[0]) {
      DispatchIndexAgrees(qs[1..]);
    }
  }

  /** The two dispatchers agree whenever the first unfinished question (if any) has a
      known step type. */
  lemma DispatchersAgree(state: State)
    requires var qs := QuestionsOf(GetPlan(state));
      FirstUnfinished(qs).Some? ==> KnownStep(qs[FirstUnfinished(qs).value])
    ensures ResearchTeamNode(state).goto == ContinueToRunningResearchTeam(GetPlan(state))
  {
    DispatchIndexAgrees(QuestionsOf(GetPlan(state)));
  }

  /** They part ways on an unknown step type: the builder sends it to the researcher while
      the node passes over it, to a later question or to the reporter. */
  lemma DispatchersDiverge(state: State)
    requires var qs := QuestionsOf(GetPlan(state));
      FirstUnfinished(qs).Some? && !KnownStep(qs[FirstUnfinished(qs).value])
    ensures ContinueToRunningResearchTeam(GetPlan(state)) == "researcher"
    ensures var t := TeamDispatchIndex(QuestionsOf(GetPlan(state)));
      t.None? || t.value > FirstUnfinished(QuestionsOf(GetPlan(state))).value
  {
    var qs := QuestionsOf(GetPlan(state));
    DispatchIndexBound(qs);
  }

  /** The dispatcher never selects a question before the first unfinished one. */
  lemma {:induction false} DispatchIndexBound(qs: seq<SubQuestion>)
    requires FirstUnfinished(qs).Some?
    ensures TeamDispatchIndex(qs).None? || TeamDispatchIndex(qs).value >= FirstUnfinished(qs).value
    ensures !KnownStep(qs[FirstUnfinished(qs).value]) ==>
      TeamDispatchIndex(qs).None? || TeamDispatchIndex(qs).value > FirstUnfinished(qs).value
    decreases |qs|
  {
    if !Unfinished(qs[0]) {
      DispatchIndexBound(qs[1..]);
    }
  }

  /** Validated plans never reach the divergence: every sub-question of a plan built by
      `model_validate` has a known step type. */
  lemma ValidatedPlanStepsKnown(p: Plan, f: PlanFields)
    requires Built(p, f)
    ensures forall j :: 0 <= j < |p.questions| ==> KnownStep(p.questions[j])
  {
    forall j | 0 <= j < |p.questions| ensures KnownStep(p.questions[j]) {
      assert HoldsOne(p.questions[j], f.questions[j]);
    }
  }

  // ---------------------------------------------------------------------------
  // validate_web_search_usage

  /** A trace of the web_search tool: its tool message, a call to it, or its name. */
  predicate UsesWebSearch(m: Message)
  {
    (m.kind.Tool? && m.name == Some("web_search")) ||
    (exists k :: 0 <= k < |m.toolCalls| && m.toolCalls[k].name == "web_search") ||
    m.name == Some("web_search")
  }

  /** `validate_web_search_usage`: true exactly when some message shows a web search. */
  function ValidateWebSearchUsage(ms: seq<Message>): (r: bool)
    ensures r <==> exists i :: 0 <= i < |ms| && UsesWebSearch(ms[i])
    decreases |ms|
  {
    if |ms| == 0 then false
    else if UsesWebSearch(ms[0]) then true
    else
      var rest := ValidateWebSearchUsage(ms[1..]);
      assert forall i :: 1 <= i < |ms| ==> ms[i] == ms[1..][i - 1];
      rest
  }

  // ---------------------------------------------------------------------------
  // The recursion-limit fallback

  /** The transcript without its trailing system messages. */
  function StripTrailingSystem(ms: seq<Message>): (r: seq<Message>)
    ensures r <= ms
    ensures r == [] || TypeTag(r[|r| - 1].kind) != "system"
    ensures forall i :: |r| <= i < |ms| ==> TypeTag(ms[i].kind) == "system"
    decreases |ms|
  {
    if |ms| > 0 && TypeTag(ms[|ms| - 1].kind) == "system" then StripTrailingSystem(ms[..|ms| - 1]) else ms
  }

  /** The foreign calls of the step executor: the agent run, the fallback model (the
      reply's content or the exception text), the prompt templates by name and locale,
      `str()`, and the converters of the context manager and the citation extractor. */
  datatype AgentEnv = AgentEnv(
    agent: (seq<Message>, int) -> AgentRun,
    llm: seq<Message> -> Result<Value, string>,
    render: (string, string) -> string,
    show: Value -> string,
    codec: Codec,
    parsers: Parsers)

  /** How the agent's stream ended: with its final transcript, on the recursion limit
      (with the messages streamed so far and the error text), or with another exception. */
  datatype AgentRun = Completed(messages: seq<Message>) | RecursionLimited(accumulated: seq<Message>, error: string)
                    | Failed(error: string)

  /** What `_handle_recursion_limit_fallback` returns, with the execution result it writes:
      an empty transcript comes back as is; otherwise the stripped transcript plus one AI
      message holding the sanitised summary, or the model's exception. */
  function FallbackOutcome(messages: seq<Message>, agentName: string, locale: string, env: AgentEnv)
    : Result<(seq<Message>, Option<string>), string>
  {
    if messages == [] then Ok(([], None))
    else
      var cleared := StripTrailingSystem(messages);
      var prompt := cleared + [TextMessage(System, env.render(agentName, locale), None),
                               TextMessage(System, env.render("recursion_fallback", locale), None)];
      match env.llm(prompt)
      case Err(e) => Err(e)
      case Ok(content) =>
        var text := SanitizeToolResponse(env.show(content), 50000);
        Ok((cleared + [TextMessage(AI, text, Some(agentName))], Some(text)))
  }

  /** The fallback returns an empty transcript unchanged; otherwise it keeps the messages
      up to the last non-system one and appends exactly one AI message, named after the
      agent, whose content is the execution result it records. */
  lemma FallbackOutcomeSpec(messages: seq<Message>, agentName: string, locale: string, env: AgentEnv)
    ensures messages == [] ==> FallbackOutcome(messages, agentName, locale, env) == Ok(([], None))
    ensures messages != [] && FallbackOutcome(messages, agentName, locale, env).Ok? ==>
      var (out, res) := FallbackOutcome(messages, agentName, locale, env).value;
      |out| >= 1 && out[..|out| - 1] == StripTrailingSystem(messages) &&
      out[|out| - 1].kind == AI && out[|out| - 1].name == Some(agentName) &&
      res.Some? && out[|out| - 1].content == Str(res.value) && |res.value| <= 50003
  {
    if messages != [] && FallbackOutcome(messages, agentName, locale, env).Ok? {
      var cleared := StripTrailingSystem(messages);
      var out := FallbackOutcome(messages, agentName, locale, env).value.0;
      assert out[..|out| - 1] == cleared;
      var prompt := cleared + [TextMessage(System, env.render(agentName, locale), None),
                               TextMessage(System, env.render("recursion_fallback", locale), None)];
      SanitizeToolResponseSpec(env.show(env.llm(prompt).value), 50000);
    }
  }

  /** `_handle_recursion_limit_fallback`: the trimming loop, the model call, and the
      write of the summary into the current sub-question. */
  method HandleRecursionLimitFallback(messages: seq<Message>, agentName: string, current: SubQuestion,
                                      locale: string, env: AgentEnv)
    returns (r: Result<seq<Message>, string>)
    modifies current
    ensures var o := FallbackOutcome(messages, agentName, locale, env);
      (o.Ok? ==> r == Ok(o.value.0)) && (o.Err? ==> r == Err(o.error)) &&
      current.executionRes == (if o.Ok? && o.value.1.Some? then o.value.1 else old(current.executionRes))
    ensures current.question == old(current.question) && current.description == old(current.description)
    ensures current.stepType == old(current.stepType) && current.needSearch == old(current.needSearch)
  {
    if |messages| == 0 {
      return Ok(messages);
    }
    var cleared := messages;
    while |cleared| > 0 && TypeTag(cleared[|cleared| - 1].kind) == "system"
      invariant StripTrailingSystem(cleared) == StripTrailingSystem(messages)
      decreases |cleared|
    {
      cleared := cleared[..|cleared| - 1];
    }
    var systemPrompt := env.render(agentName, locale);
    var limitPrompt := env.render("recursion_fallback", locale);
    var fallbackMessages := cleared + [TextMessage(System, systemPrompt, None), TextMessage(System, limitPrompt, None)];
    var reply := env.llm(fallbackMessages);
    if reply.Err? {
      return Err(reply.error);
    }
    var content := SanitizeToolResponse(env.show(reply.value), 50000);
    current.executionRes := Some(content);
    r := Ok(cleared + [TextMessage(AI, content, Some(agentName))]);
  }

  // ---------------------------------------------------------------------------
  // The recursion limit

  const DefaultRecursionLimit := 25

  /** `AGENT_RECURSION_LIMIT` when it parses to a positive integer, else 25. */
  function RecursionLimit(env: Option<string>): (n: int)
    ensures n > 0
  {
    var raw := env.GetOr(NatToString(DefaultRecursionLimit));
    match ParseInt(raw)
    case Some(v) => if v > 0 then v else DefaultRecursionLimit
    case None => DefaultRecursionLimit
  }

  /** An unset variable gives 25, a positive number is taken as written, and a value
      that is not a positive integer falls back to 25. */
  lemma RecursionLimitSpec(env: Option<string>)
    ensures env.None? ==> RecursionLimit(env) == DefaultRecursionLimit
    ensures forall n: nat :: n > 0 ==> RecursionLimit(Some(NatToString(n))) == n
    ensures env.Some? && (ParseInt(env.value).None? || ParseInt(env.value).value <= 0) ==>
      RecursionLimit(env) == DefaultRecursionLimit
  {
    ParseIntOfNat(DefaultRecursionLimit);
    forall n: nat | n > 0 ensures RecursionLimit(Some(NatToString(n))) == n {
      ParseIntOfNat(n);
    }
  }

  // ---------------------------------------------------------------------------
  // The agent's input

  /** `f"{x}"` of an optional text. */
  function ResultText(o: Option<string>): string
  {
    match o
    case Some(s) => s
    case None => "None"
  }

  /** One completed step in the agent's briefing. */
  function CompletedEntry(n: nat, question: string, result: string): string
  {
    "## Completed Step " + NatToString(n) + ": " + question + "\n\n<finding>\n" + result + "\n</finding>\n\n"
  }

  /** The completed steps, numbered from 1. */
  function CompletedEntries(done: seq<(string, string)>): string
    decreases |done|
  {
    if |done| == 0 then []
    else CompletedEntries(done[..|done| - 1]) + CompletedEntry(|done|, done[|done| - 1].0, done[|done| - 1].1)
  }

  /** One more completed step appends its entry. */
  lemma CompletedEntriesStep(done: seq<(string, string)>, i: nat)
    requires i < |done|
    ensures CompletedEntries(done[..i + 1]) == CompletedEntries(done[..i]) + CompletedEntry(i + 1, done[i].0, done[i].1)
  {
    assert done[..i + 1][..i] == done[..i];
  }

  function CompletedInfo(done: seq<(string, string)>): string
  {
    if done == [] then [] else "# Completed Research Steps\n\n" + CompletedEntries(done)
  }

  /** The question and result text of each question before the current one. */
  function DonePairs(qs: seq<SubQuestion>): (r: seq<(string, string)>)
    reads qs
    ensures |r| == |qs|
    ensures forall i :: 0 <= i < |qs| ==> r[i] == (qs[i].question, ResultText(qs[i].executionRes))
  {
    seq(|qs|, i reads qs requires 0 <= i < |qs| => (qs[i].question, ResultText(qs[i].executionRes)))
  }

  /** The loop that writes the briefing on completed steps. */
  method BuildCompletedInfo(done: seq<(string, string)>) returns (info: string)
    ensures info == CompletedInfo(done)
  {
    info := [];
    if |done| > 0 {
      info := "# Completed Research Steps\n\n";
      for i := 0 to |done|
        invariant info == "# Completed Research Steps\n\n" + CompletedEntries(done[..i])
      {
        CompletedEntriesStep(done, i);
        ConcatAssoc("# Completed Research Steps\n\n", CompletedEntries(done[..i]), CompletedEntry(i + 1, done[i].0, done[i].1));
        info := info + CompletedEntry(i + 1, done[i].0, done[i].1);
      }
      assert done[..|done|] == done;
    }
  }

  function ResourceLine(r: Resource): string
  {
    "- " + r.title + " (" + ResultText(r.description) + ")\n"
  }

  function ResourceLines(rs: seq<Resource>): string
    decreases |rs|
  {
    if |rs| == 0 then [] else ResourceLines(rs[..|rs| - 1]) + ResourceLine(rs[|rs| - 1])
  }

  function ResourcesOf(state: State): seq<Resource>
  {
    if "resources" in state && state["resources"].Resources? then state["resources"].rs else []
  }

  const CitationReminder: string :=
    "IMPORTANT: DO NOT include inline citations in the text. Instead, track all sources and include a References section at the end using link reference format. Include an empty line between each citation for better readability. Use this format for each reference:\n- [Source Title](URL)\n\n- [Another Source](URL)"
  const LocalSearchReminder: string :=
    "You MUST use the **local_search_tool** to retrieve the information from the resource files."

  function ResourcesMessage(rs: seq<Resource>): Message
  {
    TextMessage(Human, "**The user mentioned the following resource files:**\n\n" + ResourceLines(rs) + "\n\n" + LocalSearchReminder, None)
  }

  function StepBriefing(title: string, info: string, question: string, description: string, locale: string): string
  {
    "# Research Topic\n\n" + title + "\n\n" + info + "# Current Step\n\n## Question\n\n" + question +
    "\n\n## Description\n\n" + description + "\n\n## Locale\n\n" + locale
  }

  /** The agent's input: the briefing, and for the researcher the resource note (when
      resources were given) and the citation reminder. */
  function AgentInput(briefing: string, agentName: string, rs: seq<Resource>): (ms: seq<Message>)
    ensures 1 <= |ms| <= 3 && ms[0] == TextMessage(Human, briefing, None)
    ensures agentName != "researcher" ==> |ms| == 1
    ensures agentName == "researcher" ==> ms[|ms| - 1] == TextMessage(Human, CitationReminder, Some("system"))
    ensures agentName == "researcher" ==> (|ms| == 3 <==> rs != [])
  {
    [TextMessage(Human, briefing, None)] +
    (if agentName == "researcher" then
       (if rs != [] then [ResourcesMessage(rs)] else []) + [TextMessage(Human, CitationReminder, Some("system"))]
     else [])
  }

  /** The input after validation (kept as it was when validation raises) and, under a
      token limit, compression keeping the first three messages. */
  function PreparedMessages(ms: seq<Message>, tokenLimit: Option<int>, c: Codec): seq<Message>
  {
    var validated := match ValidMessages(ms, 100000, c) case Ok(v) => v case Err(_) => ms;
    if tokenLimit.Some? && tokenLimit.value != 0 then
      CompressedState(Manager(tokenLimit, 3), Some(validated), c).GetOr([])
    else validated
  }

  // ---------------------------------------------------------------------------
  // The step executor

  /** The configuration the executor reads: the recursion fallback switch, the
      researcher search enforcement and web search switches, the raw
      `AGENT_RECURSION_LIMIT`, and the model's token limit. */
  datatype StepConfig = StepConfig(enableRecursionFallback: bool, enforceResearcherSearch: bool,
                                   enableWebSearch: bool, recursionLimitEnv: Option<string>,
                                   tokenLimit: Option<int>)

  /** Where the run leads: a transcript to finish with, the standard error handling, or an
      exception that leaves the node. */
  datatype RunOutcome = Done(messages: seq<Message>) | AgentError(error: string) | Escaped(error: string)

  /** The exception handlers around the agent run. A recursion-limit error with the
      fallback off, or a failing fallback, is re-raised inside its own handler, which the
      sibling `except Exception` does not catch, so it leaves the node. */
  function ClassifyRun(run: AgentRun, cfg: StepConfig, agentName: string, locale: string, env: AgentEnv): RunOutcome
  {
    match run
    case Completed(ms) => Done(ms)
    case Failed(e) => AgentError(e)
    case RecursionLimited(acc, e) =>
      if !cfg.enableRecursionFallback then Escaped(e)
      else match FallbackOutcome(acc, agentName, locale, env)
        case Err(fe) => Escaped(fe)
        case Ok(o) => Done(o.0)
  }

  function Capitalize(s: string): (r: string)
    ensures |r| == |s|
  {
    if s == [] then [] else [UpperChar(s[0])] + Lower(s[1..])
  }

  function ErrorBlock(agentName: string, question: string, e: string): string
  {
    "[ERROR] " + Capitalize(agentName) + " Agent Error\n\nStep: " + question + "\n\nError Details:\n" + e +
    "\n\nPlease check the logs for more information."
  }

  const SearchWarning: string :=
    "\n\n[WARNING] This research was completed without using the web_search tool. Please verify that the information provided is accurate and up-to-date.\n\n[VALIDATION WARNING] Researcher did not use the web_search tool as recommended."

  function AnswersOf(state: State): seq<Value>
  {
    if "answers" in state && state["answers"].Val? && state["answers"].v.List? then state["answers"].v.items else []
  }

  function AnswerEntry(question: string, answer: string, agentName: string): Value
  {
    Dict([("question", Str(question)), ("answer", Str(answer)), ("agent", Str(agentName))])
  }

  /** The outcome of one step, and the execution result written into the current
      sub-question (its index and text), if any. */
  datatype StepResult = StepResult(result: Result<Command, string>, written: Option<(nat, string)>)

  /** The warning appended to the researcher's answer when enforcement is on and no
      message shows a web search. */
  function ValidationInfo(agentName: string, cfg: StepConfig, ms: seq<Message>): string
  {
    if agentName == "researcher" && cfg.enforceResearcherSearch && cfg.enableWebSearch && !ValidateWebSearchUsage(ms)
    then SearchWarning else []
  }

  function ErrorCommand(state: State, agentName: string, question: string, e: string): Command
  {
    var detailed := ErrorBlock(agentName, question, e);
    Command(map["messages" := Msgs([TextMessage(Human, detailed, Some(agentName))]),
                "answers" := Val(List(AnswersOf(state) + [AnswerEntry(question, detailed, agentName)]))]
            + PreserveStateMetaFields(state),
            "research_team")
  }

  function SuccessCommand(state: State, agentName: string, question: string, ms: seq<Message>, answer: string,
                          merged: seq<CitationDict>): Command
  {
    Command(PreserveStateMetaFields(state) +
            map["messages" := Msgs(ms),
                "answers" := Val(List(AnswersOf(state) + [AnswerEntry(question, answer, agentName)])),
                "citations" := Cites(merged)],
            "research_team")
  }

  /** The last part of `_execute_agent_step` for the question at index `i`. */
  function Finish(state: State, i: nat, agentName: string, question: string, outcome: RunOutcome,
                  cfg: StepConfig, env: AgentEnv): (s: StepResult)
    ensures s.written.Some? ==> s.written.value.0 == i
  {
    match outcome
    case Escaped(e) => StepResult(Err(e), None)
    case AgentError(e) =>
      StepResult(Ok(ErrorCommand(state, agentName, question, e)), Some((i, ErrorBlock(agentName, question, e))))
    case Done(ms) =>
      if ms == [] then StepResult(Err("IndexError: list index out of range"), None)
      else
        var content := SanitizeToolResponse(env.show(ms[|ms| - 1].content), 50000);
        match ExtractedCitations(ms, env.parsers)
        case Err(e) => StepResult(Err(e), Some((i, content)))
        case Ok(cs) =>
          match Merged(GetCitations(state), cs)
          case Err(e) => StepResult(Err(e), Some((i, content)))
          case Ok(merged) =>
            StepResult(Ok(SuccessCommand(state, agentName, question, ms, content + ValidationInfo(agentName, cfg, ms), merged)),
                       Some((i, content)))
  }

  /** `_execute_agent_step`, on values: with no plan or no unfinished question the meta
      fields and research_team; otherwise the agent runs on the first unfinished one. */
  function AgentStep(state: State, agentName: string, cfg: StepConfig, env: AgentEnv): (s: StepResult)
    reads QuestionsOf(GetPlan(state))
    ensures s.written.Some? ==> s.written.value.0 < |QuestionsOf(GetPlan(state))|
  {
    var qs := QuestionsOf(GetPlan(state));
    match FirstUnfinished(qs)
    case None => StepResult(Ok(Command(PreserveStateMetaFields(state), "research_team")), None)
    case Some(i) =>
      var locale := GetText(state, "locale", "en-US");
      var briefing := StepBriefing(GetPlan(state).plan.title, CompletedInfo(DonePairs(qs[..i])),
                                   qs[i].question, qs[i].description, locale);
      StepOn(state, i, agentName, qs[i].question, briefing, locale, cfg, env)
  }

  /** The run of the agent on the current question, from its briefing on. */
  function StepOn(state: State, i: nat, agentName: string, question: string, briefing: string, locale: string,
                  cfg: StepConfig, env: AgentEnv): (s: StepResult)
    ensures s.written.Some? ==> s.written.value.0 == i
  {
    var input := PreparedMessages(AgentInput(briefing, agentName, ResourcesOf(state)), cfg.tokenLimit, env.codec);
    var run := env.agent(input, RecursionLimit(cfg.recursionLimitEnv));
    Finish(state, i, agentName, question, ClassifyRun(run, cfg, agentName, locale, env), cfg, env)
  }

  /** With no plan object, or every question finished, the step only passes the meta
      fields on and writes nothing. */
  lemma AgentStepIdle(state: State, agentName: string, cfg: StepConfig, env: AgentEnv)
    requires FirstUnfinished(QuestionsOf(GetPlan(state))).None?
    ensures AgentStep(state, agentName, cfg, env) ==
      StepResult(Ok(Command(PreserveStateMetaFields(state), "research_team")), None)
  {
  }

  /** A recursion-limit error leaves the node when the fallback is off or the fallback
      model itself fails: the re-raise happens inside its own handler. */
  lemma RecursionLimitEscapes(state: State, i: nat, agentName: string, question: string, run: AgentRun,
                              cfg: StepConfig, locale: string, env: AgentEnv)
    requires run.RecursionLimited?
    requires !cfg.enableRecursionFallback || FallbackOutcome(run.accumulated, agentName, locale, env).Err?
    ensures var s := Finish(state, i, agentName, question, ClassifyRun(run, cfg, agentName, locale, env), cfg, env);
      s.result.Err? && s.written.None? &&
      s.result.error == (if !cfg.enableRecursionFallback then run.error
                         else FallbackOutcome(run.accumulated, agentName, locale, env).error)
  {
  }

  /** A recursion-limit error before any message was streamed: the fallback returns the
      empty list and reading its last message raises an `IndexError`. */
  lemma EmptyFallbackEscapes(state: State, i: nat, agentName: string, question: string, e: string,
                             cfg: StepConfig, locale: string, env: AgentEnv)
    requires cfg.enableRecursionFallback
    ensures Finish(state, i, agentName, question, ClassifyRun(RecursionLimited([], e), cfg, agentName, locale, env), cfg, env)
      == StepResult(Err("IndexError: list index out of range"), None)
  {
    FallbackOutcomeSpec([], agentName, locale, env);
  }

  /** Every key the meta-field preservation copies reaches the update unchanged. */
  predicate KeepsMeta(c: Command, state: State)
  {
    forall k :: k in MetaKeys ==> k in c.update && c.update[k] == PreserveStateMetaFields(state)[k]
  }

  /** Any agent failure other than the recursion limit is turned into an error report:
      the question is finished with the report as its result, the report is the one new
      message (named after the agent) and the last answer, and the meta fields are kept. */
  lemma AgentErrorReported(state: State, i: nat, agentName: string, question: string, e: string,
                           cfg: StepConfig, env: AgentEnv)
    ensures var s := Finish(state, i, agentName, question, AgentError(e), cfg, env);
      var report := ErrorBlock(agentName, question, e);
      s.written == Some((i, report)) && report != [] &&
      s.result.Ok? && s.result.value.goto == "research_team" && KeepsMeta(s.result.value, state) &&
      s.result.value.update["messages"] == Msgs([TextMessage(Human, report, Some(agentName))]) &&
      s.result.value.update["answers"] == Val(List(AnswersOf(state) + [AnswerEntry(question, report, agentName)]))
  {
    var c := ErrorCommand(state, agentName, question, e);
    StepKeysNotMeta();
    assert KeepsMeta(c, state);
  }

  /** A completed run: the sanitised last message becomes the question's result, while
      the answer also carries the search warning; the messages and merged citations are
      stored and the meta fields kept. */
  lemma CompletedStepRecorded(state: State, i: nat, agentName: string, question: string, ms: seq<Message>,
                              cfg: StepConfig, env: AgentEnv)
    requires ms != []
    requires ExtractedCitations(ms, env.parsers).Ok?
    requires Merged(GetCitations(state), ExtractedCitations(ms, env.parsers).value).Ok?
    ensures var s := Finish(state, i, agentName, question, Done(ms), cfg, env);
      var content := SanitizeToolResponse(env.show(ms[|ms| - 1].content), 50000);
      var merged := Merged(GetCitations(state), ExtractedCitations(ms, env.parsers).value).value;
      s.written == Some((i, content)) &&
      s.result.Ok? && s.result.value.goto == "research_team" && KeepsMeta(s.result.value, state) &&
      s.result.value.update["messages"] == Msgs(ms) &&
      s.result.value.update["citations"] == Cites(merged) &&
      s.result.value.update["answers"] ==
        Val(List(AnswersOf(state) + [AnswerEntry(question, content + ValidationInfo(agentName, cfg, ms), agentName)]))
  {
    var content := SanitizeToolResponse(env.show(ms[|ms| - 1].content), 50000);
    var merged := Merged(GetCitations(state), ExtractedCitations(ms, env.parsers).value).value;
    var c := SuccessCommand(state, agentName, question, ms, content + ValidationInfo(agentName, cfg, ms), merged);
    assert Finish(state, i, agentName, question, Done(ms), cfg, env) == StepResult(Ok(c), Some((i, content)));
    SuccessKeepsMeta(state, agentName, question, ms, content + ValidationInfo(agentName, cfg, ms), merged);
  }

  lemma SuccessKeepsMeta(state: State, agentName: string, question: string, ms: seq<Message>, answer: string,
                         merged: seq<CitationDict>)
    ensures KeepsMeta(SuccessCommand(state, agentName, question, ms, answer, merged), state)
  {
    StepKeysNotMeta();
  }

  /** The keys the step writes are not meta fields. */
  lemma StepKeysNotMeta()
    ensures "messages" !in MetaKeys && "answers" !in MetaKeys && "citations" !in MetaKeys
  {
    assert "citations"[0] != "resources"[0];
  }

  /** The search warning is added exactly when the researcher ran with enforcement and
      web search on and no message shows a web search; otherwise nothing is added. */
  lemma ValidationInfoSpec(agentName: string, cfg: StepConfig, ms: seq<Message>)
    ensures ValidationInfo(agentName, cfg, ms) == SearchWarning <==>
      (agentName == "researcher" && cfg.enforceResearcherSearch && cfg.enableWebSearch &&
       forall j :: 0 <= j < |ms| ==> !UsesWebSearch(ms[j]))
    ensures ValidationInfo(agentName, cfg, ms) != SearchWarning ==> ValidationInfo(agentName, cfg, ms) == []
  {
  }

  /** An empty final answer is written as the empty string, which leaves the question
      unfinished (see `Builder.EmptyResultIsUnfinished`): the next round runs it again. */
  lemma EmptyAnswerStaysUnfinished(state: State, i: nat, agentName: string, question: string, ms: seq<Message>,
                                   cfg: StepConfig, env: AgentEnv)
    requires ms != [] && env.show(ms[|ms| - 1].content) == []
    ensures Finish(state, i, agentName, question, Done(ms), cfg, env).written == Some((i, []))
  {
    SanitizeToolResponseSpec([], 50000);
  }

  /** The scan for the first unfinished sub-question, collecting the earlier ones. */
  method FindCurrentStep(qs: seq<SubQuestion>) returns (idx: nat, done: seq<(string, string)>)
    ensures idx <= |qs| && done == DonePairs(qs[..idx])
    ensures idx == |qs| <==> FirstUnfinished(qs).None?
    ensures idx < |qs| ==> FirstUnfinished(qs) == Some(idx)
  {
    idx := 0;
    done := [];
    while idx < |qs| && !Unfinished(qs[idx])
      invariant 0 <= idx <= |qs|
      invariant forall j :: 0 <= j < idx ==> !Unfinished(qs[j])
      invariant done == DonePairs(qs[..idx])
    {
      done := done + [(qs[idx].question, ResultText(qs[idx].executionRes))];
      idx := idx + 1;
    }
    if idx < |qs| {
      FirstUnfinishedAt(qs, idx);
    }
  }

  lemma {:induction false} FirstUnfinishedAt(qs: seq<SubQuestion>, i: nat)
    requires i < |qs| && Unfinished(qs[i]) && forall j :: 0 <= j < i ==> !Unfinished(qs[j])
    ensures FirstUnfinished(qs) == Some(i)
    decreases i
  {
    if i > 0 {
      FirstUnfinishedAt(qs[1..], i - 1);
    }
  }

  /** The agent's input as the executor assembles it. */
  method AssembleAgentInput(briefing: string, agentName: string, rs: seq<Resource>) returns (messages: seq<Message>)
    ensures messages == AgentInput(briefing, agentName, rs)
  {
    messages := [TextMessage(Human, briefing, None)];
    if agentName == "researcher" {
      if rs != [] {
        messages := messages + [ResourcesMessage(rs)];
      }
      messages := messages + [TextMessage(Human, CitationReminder, Some("system"))];
    }
  }

  /** Validation and compression of the agent's input. */
  method PrepareMessages(ms: seq<Message>, cfg: StepConfig, env: AgentEnv) returns (messages: seq<Message>)
    ensures messages == PreparedMessages(ms, cfg.tokenLimit, env.codec)
  {
    messages := ms;
    var validated := ValidateMessageContent(messages, 100000, env.codec);
    if validated.Ok? {
      messages := validated.value;
    }
    if cfg.tokenLimit.Some? && cfg.tokenLimit.value != 0 {
      var compressed := CompressMessages(Manager(cfg.tokenLimit, 3), Some(messages), env.codec);
      messages := compressed.GetOr([]);
    }
  }

  /** The handlers around the agent run; the fallback may write the current question. */
  method HandleAgentRun(run: AgentRun, cfg: StepConfig, agentName: string, current: SubQuestion, locale: string,
                        env: AgentEnv)
    returns (outcome: RunOutcome)
    modifies current
    ensures outcome == ClassifyRun(run, cfg, agentName, locale, env)
    ensures (outcome.Done? && outcome.messages != []) || current.executionRes == old(current.executionRes)
    ensures current.question == old(current.question) && current.stepType == old(current.stepType)
  {
    match run {
      case Completed(ms) =>
        outcome := Done(ms);
      case Failed(e) =>
        outcome := AgentError(e);
      case RecursionLimited(acc, e) =>
        if !cfg.enableRecursionFallback {
          outcome := Escaped(e);
        } else {
          var fallback := HandleRecursionLimitFallback(acc, agentName, current, locale, env);
          outcome := if fallback.Ok? then Done(fallback.value) else Escaped(fallback.error);
          FallbackOutcomeSpec(acc, agentName, locale, env);
        }
    }
  }

  /** The answer handling after the run, writing the current question's result. */
  method FinishStep(state: State, i: nat, agentName: string, question: string, current: SubQuestion,
                    outcome: RunOutcome, cfg: StepConfig, env: AgentEnv)
    returns (r: Result<Command, string>)
    modifies current
    ensures var s := Finish(state, i, agentName, question, outcome, cfg, env);
      r == s.result &&
      current.executionRes == (if s.written.Some? then Some(s.written.value.1) else old(current.executionRes))
    ensures current.question == old(current.question) && current.stepType == old(current.stepType)
  {
    match outcome {
      case Escaped(e) =>
        r := Err(e);
      case AgentError(e) =>
        current.executionRes := Some(ErrorBlock(agentName, question, e));
        r := Ok(ErrorCommand(state, agentName, question, e));
      case Done(ms) =>
        if ms == [] {
          return Err("IndexError: list index out of range");
        }
        var content := SanitizeToolResponse(env.show(ms[|ms| - 1].content), 50000);
        var validationInfo := ValidationInfo(agentName, cfg, ms);
        current.executionRes := Some(content);
        var extracted := ExtractCitationsFromMessages(ms, env.parsers);
        if extracted.Err? {
          return Err(extracted.error);
        }
        var merged := MergeCitations(GetCitations(state), extracted.value);
        if merged.Err? {
          return Err(merged.error);
        }
        r := Ok(SuccessCommand(state, agentName, question, ms, content + validationInfo, merged.value));
    }
  }

  /** The executor from the briefing on: the run, its handlers and the answer handling. */
  method RunStep(state: State, i: nat, agentName: string, briefing: string, locale: string, current: SubQuestion,
                 cfg: StepConfig, env: AgentEnv)
    returns (r: Result<Command, string>)
    modifies current
    ensures var s := StepOn(state, i, agentName, old(current.question), briefing, locale, cfg, env);
      r == s.result &&
      current.executionRes == (if s.written.Some? then Some(s.written.value.1) else old(current.executionRes))
    ensures current.question == old(current.question) && current.stepType == old(current.stepType)
  {
    var input := AssembleAgentInput(briefing, agentName, ResourcesOf(state));
    var messages := PrepareMessages(input, cfg, env);
    var question := current.question;
    var run := env.agent(messages, RecursionLimit(cfg.recursionLimitEnv));
    var outcome := HandleAgentRun(run, cfg, agentName, current, locale, env);
    r := FinishStep(state, i, agentName, question, current, outcome, cfg, env);
  }

  /** `_execute_agent_step` as written: the scan for the current question, the input
      assembly, the run and its handlers, and the writes to the current sub-question. */
  method ExecuteAgentStep(state: State, agentName: string, cfg: StepConfig, env: AgentEnv)
    returns (r: Result<Command, string>)
    modifies QuestionsOf(GetPlan(state))
    ensures r == old(AgentStep(state, agentName, cfg, env)).result
    ensures var s := old(AgentStep(state, agentName, cfg, env)); var qs := QuestionsOf(GetPlan(state));
      s.written.Some? ==> s.written.value.0 < |qs| && qs[s.written.value.0].executionRes == Some(s.written.value.1)
    ensures var s := old(AgentStep(state, agentName, cfg, env)); var qs := QuestionsOf(GetPlan(state));
      forall j :: 0 <= j < |qs| && (s.written.None? || qs[j] != qs[s.written.value.0]) ==>
        qs[j].executionRes == old(qs[j].executionRes)
    ensures var qs := QuestionsOf(GetPlan(state));
      forall j :: 0 <= j < |qs| ==> qs[j].question == old(qs[j].question) && qs[j].stepType == old(qs[j].stepType)
  {
    var qs := QuestionsOf(GetPlan(state));
    var idx, done := FindCurrentStep(qs);
    if idx == |qs| {
      AgentStepIdle(state, agentName, cfg, env);
      return Ok(Command(PreserveStateMetaFields(state), "research_team"));
    }
    AgentStepAt(state, agentName, cfg, env, idx);
    var current := qs[idx];
    var locale := GetText(state, "locale", "en-US");
    var info := BuildCompletedInfo(done);
    var briefing := StepBriefing(GetPlan(state).plan.title, info, current.question, current.description, locale);
    r := RunStep(state, idx, agentName, briefing, locale, current, cfg, env);
  }

  /** On the first unfinished question the step is the run on that question's briefing. */
  lemma AgentStepAt(state: State, agentName: string, cfg: StepConfig, env: AgentEnv, i: nat)
    requires FirstUnfinished(QuestionsOf(GetPlan(state))) == Some(i)
    ensures var qs := QuestionsOf(GetPlan(state));
      var locale := GetText(state, "locale", "en-US");
      AgentStep(state, agentName, cfg, env) ==
        StepOn(state, i, agentName, qs[i].question,
               StepBriefing(GetPlan(state).plan.title, CompletedInfo(DonePairs(qs[..i])), qs[i].question,
                            qs[i].description, locale),
               locale, cfg, env)
  {
  }
}
