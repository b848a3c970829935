// The decomposer node (graph/nodes/question_decomposer_node.py): it turns the research
// topic into a plan of sub-questions, or routes to the reporter or the end when it
// cannot. The prompt, the model call and JSON parsing are parameters.
module QuestionDecomposerNode {
  import opened Wrappers
  import opened Strings
  import opened Values
  import opened Messages
  import opened DecomposerModel
  import opened JsonUtils
  import opened GraphTypes
  import opened GraphUtils
  import opened Builder

  /** The configuration the node reads. */
  datatype DecomposerConfig = DecomposerConfig(enableDeepThinking: bool, maxDecomposeIterations: int,
                                               enforceWebSearch: bool, enableWebSearch: bool)

  /** The foreign calls: the prompt template, the basic model's reply text (its JSON dump
      or its content, "" when there is none), the reasoning model's streamed chunks,
      `json.loads`, and the parser and serialiser that `repair_json_output` uses, and the
      `json.dumps` and `str()` that `extract_subquestions_content` uses. */
  datatype DecomposerEnv = DecomposerEnv(
    template: State -> seq<Value>,
    invoke: seq<Value> -> string,
    stream: seq<Value> -> seq<string>,
    loads: string -> Option<Value>,
    repairLoads: string -> Option<Value>,
    jsonDumps: Value -> Result<string, string>,
    dumps: Value -> string,
    show: Value -> string)

  /** `decompose_iterations` when it is a non-zero number, else 0. */
  function Iterations(state: State): real
  {
    if "decompose_iterations" in state && state["decompose_iterations"].Val? && state["decompose_iterations"].v.Num?
    then state["decompose_iterations"].v.x else 0.0
  }

  /** The iteration count has reached `max_decompose_interations`. */
  predicate AtCap(state: State, cfg: DecomposerConfig)
  {
    Iterations(state) >= cfg.maxDecomposeIterations as real
  }

  /** Every question of the plan has a (truthy) result. */
  predicate AllFinished(qs: seq<SubQuestion>)
    reads qs
  {
    forall j :: 0 <= j < |qs| ==> !Unfinished(qs[j])
  }

  /** A plan object with questions, all of them answered. */
  predicate PlanDone(slot: PlanSlot)
    reads QuestionsOf(slot)
  {
    slot.PlanObject? && |slot.plan.questions| > 0 && AllFinished(slot.plan.questions)
  }

  function BackgroundMessage(results: string): Value
  {
    Dict([("role", Str("user")), ("content", Str("background investigation results of user query:\n" + results + "\n"))])
  }

  predicate WantsBackground(state: State)
  {
    GetFlag(state, "enable_background_investigation", false) && GetFlag(state, "background_investigation_results", false)
  }

  /** The prompt, plus the background results as a user message when the flag is on and
      there are results. */
  function DecomposerMessages(state: State, env: DecomposerEnv): (ms: seq<Value>)
    ensures |ms| >= |env.template(state)| && ms[..|env.template(state)|] == env.template(state)
    ensures WantsBackground(state) <==> |ms| == |env.template(state)| + 1
    ensures WantsBackground(state) ==>
      ms[|ms| - 1] == BackgroundMessage(GetText(state, "background_investigation_results", ""))
    ensures !WantsBackground(state) ==> ms == env.template(state)
  {
    var base := env.template(state);
    if WantsBackground(state) then base + [BackgroundMessage(GetText(state, "background_investigation_results", ""))]
    else base
  }

  /** The text of a streamed reply. */
  function Concat(chunks: seq<string>): string
    decreases |chunks|
  {
    if |chunks| == 0 then [] else Concat(chunks[..|chunks| - 1]) + chunks[|chunks| - 1]
  }

  /** Streaming in pieces gives the text of the whole. */
  lemma {:induction false} ConcatAppend(a: seq<string>, b: seq<string>)
    ensures Concat(a + b) == Concat(a) + Concat(b)
    decreases |b|
  {
    if |b| == 0 {
      assert a + b == a;
    } else {
      assert (a + b)[..|a + b| - 1] == a + b[..|b| - 1];
      ConcatAppend(a, b[..|b| - 1]);
    }
  }

  /** The model's reply: the basic model's text, or with deep thinking the reasoning
      model's chunks joined. */
  function FullResponse(cfg: DecomposerConfig, ms: seq<Value>, env: DecomposerEnv): string
  {
    if !cfg.enableDeepThinking then env.invoke(ms) else Concat(env.stream(ms))
  }

  /** The streaming loop. */
  method AccumulateStream(chunks: seq<string>) returns (full: string)
    ensures full == Concat(chunks)
  {
    full := [];
    for i := 0 to |chunks|
      invariant full == Concat(chunks[..i])
    {
      assert chunks[..i + 1][..i] == chunks[..i];
      full := full + chunks[i];
    }
    assert chunks[..|chunks|] == chunks;
  }

  /** The parsed value as `extract_subquestions_content` sees it. */
  function AsData(v: Value, show: Value -> string): SubquestionsData
  {
    match v
    case Str(s) => Text(s)
    case Dict(es) => DictData(es)
    case _ => OtherData(show(v))
  }

  /** The two-stage parse: the cleaned reply, its sub-question content, and that content
      repaired and parsed again. `Ok(None)` is a JSON decode error; `Err` is any other
      exception, which leaves the node. */
  function ParsedPlan(cleaned: string, env: DecomposerEnv): Result<Option<Value>, string>
  {
    match env.loads(cleaned)
    case None => Ok(None)
    case Some(v) =>
      match ExtractSubquestionsContent(AsData(v, env.show), env.dumps, env.show)
      case Err(e) => Err(e)
      case Ok(Str(c)) => Ok(env.loads(RepairJsonOutput(c, env.repairLoads, env.jsonDumps)))
      case Ok(_) => Err("AttributeError: object has no attribute 'strip'")
  }

  /** Where the node leads: a plain update, a new plan (its validated fields and the
      reply that produced it), or an exception. */
  datatype DecomposerOutcome =
    | Route(update: map<string, Field>, goto: string)
    | NewPlan(fields: PlanFields, response: string, goto: string)
    | Escape(error: string)

  predicate LooksLikeJson(s: string)
  {
    StartsWith(Strip(s), "{") || StartsWith(Strip(s), "[")
  }

  /** The route taken when the reply is not usable JSON. */
  function NoPlanTarget(state: State): string
  {
    if Iterations(state) > 0.0 then "reporter" else End
  }

  /** `question_decomposer_node`, from the model's reply on. */
  function FromReply(state: State, cfg: DecomposerConfig, full: string, env: DecomposerEnv): DecomposerOutcome
  {
    var cleaned := RepairJsonOutput(full, env.repairLoads, env.jsonDumps);
    if !LooksLikeJson(cleaned) then Route(PreserveStateMetaFields(state), NoPlanTarget(state))
    else FromParsed(state, cfg, full, ParsedPlan(cleaned, env))
  }

  /** The node once the reply has been parsed. */
  function FromParsed(state: State, cfg: DecomposerConfig, full: string, parsed: Result<Option<Value>, string>)
    : DecomposerOutcome
  {
    match parsed
    case Err(e) => Escape(e)
    case Ok(None) => Route(PreserveStateMetaFields(state), NoPlanTarget(state))
    case Ok(Some(v)) => FromValue(cfg, full, v)
  }

  /** A truthy `has_enough_context` in a dict plan. */
  predicate EnoughContext(w: Value)
  {
    w.Dict? && Truthy(Get(w, "has_enough_context").GetOr(Null))
  }

  /** The node for a decoded plan value: repair, then validation. */
  function FromValue(cfg: DecomposerConfig, full: string, v: Value): DecomposerOutcome
  {
    match FixedPlan(v, cfg.enforceWebSearch, cfg.enableWebSearch)
    case Err(e) => Escape(e)
    case Ok(w) =>
      match ValidPlan(w)
      case Err(e) => Escape(e)
      case Ok(f) => NewPlan(f, full, if EnoughContext(w) then "reporter" else "human_feedback")
  }

  /** `question_decomposer_node`. */
  function Decompose(state: State, cfg: DecomposerConfig, env: DecomposerEnv): DecomposerOutcome
    reads QuestionsOf(GetPlan(state))
  {
    var meta := PreserveStateMetaFields(state);
    if PlanDone(GetPlan(state)) then Route(map["son_questions" := PlanField(GetPlan(state))] + meta, "reporter")
    else if AtCap(state, cfg) then Route(meta, "reporter")
    else FromReply(state, cfg, FullResponse(cfg, DecomposerMessages(state, env), env), env)
  }

  /** A plan whose questions all have results goes to the reporter, kept as it is. */
  lemma FinishedPlanReported(state: State, cfg: DecomposerConfig, env: DecomposerEnv)
    requires PlanDone(GetPlan(state))
    ensures var o := Decompose(state, cfg, env);
      o.Route? && o.goto == "reporter" && o.update["son_questions"] == state["son_questions"] &&
      forall k :: k in MetaKeys ==> o.update[k] == PreserveStateMetaFields(state)[k]
  {
    assert "son_questions" !in MetaKeys;
  }

  /** At the iteration cap the node goes to the reporter before the model is asked: the
      outcome is the same whatever the model would have said. */
  lemma IterationCapReported(state: State, cfg: DecomposerConfig, env: DecomposerEnv, env': DecomposerEnv)
    requires !PlanDone(GetPlan(state)) && AtCap(state, cfg)
    ensures Decompose(state, cfg, env) == Route(PreserveStateMetaFields(state), "reporter")
    ensures Decompose(state, cfg, env) == Decompose(state, cfg, env')
  {
  }

  /** A reply that does not open a JSON value, or one that fails to decode, leads to the
      reporter after the first round and to the end before it, with the meta fields only. */
  lemma UnusableReplyRoute(state: State, cfg: DecomposerConfig, full: string, env: DecomposerEnv)
    requires var cleaned := RepairJsonOutput(full, env.repairLoads, env.jsonDumps);
      !LooksLikeJson(cleaned) || ParsedPlan(cleaned, env) == Ok(None)
    ensures FromReply(state, cfg, full, env) ==
      Route(PreserveStateMetaFields(state), if Iterations(state) > 0.0 then "reporter" else "__end__")
  {
  }

  /** A decoded plan is repaired with both web-search flags and validated; it goes to the
      reporter exactly when the repaired plan has a truthy `has_enough_context`, and to
      human feedback otherwise. */
  lemma NewPlanRoute(cfg: DecomposerConfig, full: string, v: Value)
    requires FromValue(cfg, full, v).NewPlan?
    ensures var o := FromValue(cfg, full, v);
      var w := FixedPlan(v, cfg.enforceWebSearch, cfg.enableWebSearch);
      w.Ok? && ValidPlan(w.value) == Ok(o.fields) && o.response == full &&
      (o.goto == "reporter" <==> Truthy(Get(w.value, "has_enough_context").GetOr(Null))) &&
      (o.goto != "reporter" ==> o.goto == "human_feedback")
  {
    var w := FixedPlan(v, cfg.enforceWebSearch, cfg.enableWebSearch);
    ValidPlanFields(w.value);
  }

  /** A new plan comes only from a reply that decodes twice into a value. */
  lemma NewPlanFromDecodedReply(state: State, cfg: DecomposerConfig, full: string, env: DecomposerEnv)
    requires FromReply(state, cfg, full, env).NewPlan?
    ensures var cleaned := RepairJsonOutput(full, env.repairLoads, env.jsonDumps);
      LooksLikeJson(cleaned) && ParsedPlan(cleaned, env).Ok? && ParsedPlan(cleaned, env).value.Some? &&
      FromReply(state, cfg, full, env) == FromValue(cfg, full, ParsedPlan(cleaned, env).value.value)
  {
  }

  /** No update from this node touches `decompose_iterations`: a plain update is the meta
      fields, with the kept plan when it is finished. */
  lemma IterationsNeverWritten(state: State, cfg: DecomposerConfig, env: DecomposerEnv)
    ensures var o := Decompose(state, cfg, env);
      o.Route? ==> (o.update == PreserveStateMetaFields(state) ||
                    o.update == map["son_questions" := PlanField(GetPlan(state))] + PreserveStateMetaFields(state)) &&
                   "decompose_iterations" !in o.update
  {
    RouteUpdates(state, cfg, env);
    MetaLacksIterations(state);
  }

  lemma MetaLacksIterations(state: State)
    ensures "decompose_iterations" !in PreserveStateMetaFields(state)
    ensures "decompose_iterations" !in map["son_questions" := PlanField(GetPlan(state))] + PreserveStateMetaFields(state)
  {
    assert "decompose_iterations" !in MetaKeys;
  }

  lemma RouteUpdates(state: State, cfg: DecomposerConfig, env: DecomposerEnv)
    ensures var o := Decompose(state, cfg, env);
      o.Route? ==> (o.update == PreserveStateMetaFields(state) ||
                    o.update == map["son_questions" := PlanField(GetPlan(state))] + PreserveStateMetaFields(state))
  {
    if !PlanDone(GetPlan(state)) && !AtCap(state, cfg) {
      var full := FullResponse(cfg, DecomposerMessages(state, env), env);
      assert Decompose(state, cfg, env) == FromReply(state, cfg, full, env);
      FromReplyRoute(state, cfg, full, env);
    }
  }

  lemma FromReplyRoute(state: State, cfg: DecomposerConfig, full: string, env: DecomposerEnv)
    ensures FromReply(state, cfg, full, env).Route? ==>
      FromReply(state, cfg, full, env).update == PreserveStateMetaFields(state)
  {
    var cleaned := RepairJsonOutput(full, env.repairLoads, env.jsonDumps);
    if LooksLikeJson(cleaned) {
      assert FromReply(state, cfg, full, env) == FromParsed(state, cfg, full, ParsedPlan(cleaned, env));
      FromParsedRoute(state, cfg, full, ParsedPlan(cleaned, env));
    } else {
      assert FromReply(state, cfg, full, env) == Route(PreserveStateMetaFields(state), NoPlanTarget(state));
    }
  }

  lemma FromParsedRoute(state: State, cfg: DecomposerConfig, full: string, parsed: Result<Option<Value>, string>)
    ensures FromParsed(state, cfg, full, parsed).Route? ==>
      FromParsed(state, cfg, full, parsed).update == PreserveStateMetaFields(state)
  {
    if parsed.Ok? && parsed.value.Some? {
      var o := FromValue(cfg, full, parsed.value.value);
      assert !o.Route?;
    }
  }

  /** The node's update for a new plan: the reply as the decomposer's AI message, the plan,
      and the meta fields. */
  function PlanUpdate(state: State, response: string, p: Plan): map<string, Field>
  {
    map["messages" := Msgs([TextMessage(AI, response, Some("decomposer"))]), "son_questions" := PlanField(PlanObject(p))]
      + PreserveStateMetaFields(state)
  }

  /** What the node returns for an outcome, with the plan object `model_validate` built. */
  predicate Delivers(r: Result<Command, string>, o: DecomposerOutcome, state: State)
    reads if r.Ok? && "son_questions" in r.value.update && r.value.update["son_questions"].PlanField?
          then QuestionsOf(r.value.update["son_questions"].slot) else []
  {
    (o.Route? ==> r == Ok(Command(o.update, o.goto))) &&
    (o.Escape? ==> r == Err(o.error)) &&
    (o.NewPlan? ==> (r.Ok? && r.value.goto == o.goto &&
       r.value.update.Keys == {"messages", "son_questions"} + MetaKeys &&
       "decompose_iterations" !in r.value.update &&
       r.value.update["messages"] == Msgs([TextMessage(AI, o.response, Some("decomposer"))]) &&
       r.value.update["son_questions"].PlanField? && r.value.update["son_questions"].slot.PlanObject? &&
       Built(r.value.update["son_questions"].slot.plan, o.fields) &&
       forall k :: k in MetaKeys ==> r.value.update[k] == PreserveStateMetaFields(state)[k]))
  }

  lemma PlanUpdateDelivers(state: State, p: Plan, o: DecomposerOutcome)
    requires o.NewPlan? && Built(p, o.fields)
    ensures Delivers(Ok(Command(PlanUpdate(state, o.response, p), o.goto)), o, state)
  {
    assert "decompose_iterations" !in MetaKeys && "messages" !in MetaKeys && "son_questions" !in MetaKeys;
  }

  /** A finished plan goes to the reporter with the plan kept. */
  lemma DecomposeDone(state: State, cfg: DecomposerConfig, env: DecomposerEnv)
    requires PlanDone(GetPlan(state))
    ensures Delivers(Ok(Command(map["son_questions" := PlanField(GetPlan(state))] + PreserveStateMetaFields(state), "reporter")),
                     Decompose(state, cfg, env), state)
  {
  }

  /** At the iteration cap the node goes to the reporter with the meta fields only. */
  lemma DecomposeAtCap(state: State, cfg: DecomposerConfig, env: DecomposerEnv)
    requires !PlanDone(GetPlan(state)) && AtCap(state, cfg)
    ensures Delivers(Ok(Command(PreserveStateMetaFields(state), "reporter")), Decompose(state, cfg, env), state)
  {
  }

  /** Otherwise the outcome is decided by the model's reply. */
  lemma DecomposeFromReply(state: State, cfg: DecomposerConfig, env: DecomposerEnv)
    requires !PlanDone(GetPlan(state)) && !AtCap(state, cfg)
    ensures Decompose(state, cfg, env) == FromReply(state, cfg, FullResponse(cfg, DecomposerMessages(state, env), env), env)
  {
  }

  /** The scan of an existing plan for a question without a result. */
  method ScanFinished(slot: PlanSlot) returns (done: bool)
    ensures done == PlanDone(slot)
  {
    if !slot.PlanObject? || |slot.plan.questions| == 0 {
      return false;
    }
    var qs := slot.plan.questions;
    var i := 0;
    while i < |qs| && !Unfinished(qs[i])
      invariant 0 <= i <= |qs| && forall j :: 0 <= j < i ==> !Unfinished(qs[j])
    {
      i := i + 1;
    }
    done := i == |qs|;
  }

  /** `question_decomposer_node` as written: the scan of an existing plan, the message list,
      the model call (streamed with deep thinking), and the rest from the reply on. */
  method QuestionDecomposer(state: State, cfg: DecomposerConfig, env: DecomposerEnv) returns (r: Result<Command, string>)
    ensures Delivers(r, Decompose(state, cfg, env), state)
  {
    var meta := PreserveStateMetaFields(state);
    var existing := GetPlan(state);
    var done := ScanFinished(existing);
    if done {
      DecomposeDone(state, cfg, env);
      return Ok(Command(map["son_questions" := PlanField(existing)] + meta, "reporter"));
    }
    var messages := BuildMessages(state, env);
    if AtCap(state, cfg) {
      DecomposeAtCap(state, cfg, env);
      return Ok(Command(meta, "reporter"));
    }
    DecomposeFromReply(state, cfg, env);
    var full := AskModel(cfg, messages, env);
    r := PlanFromReply(state, cfg, full, env);
  }

  /** The prompt, with the background results appended when wanted. */
  method BuildMessages(state: State, env: DecomposerEnv) returns (messages: seq<Value>)
    ensures messages == DecomposerMessages(state, env)
  {
    messages := env.template(state);
    if WantsBackground(state) {
      messages := messages + [BackgroundMessage(GetText(state, "background_investigation_results", ""))];
    }
  }

  /** The call to the model: `invoke` on the basic model, or the reasoning model's stream
      accumulated. */
  method AskModel(cfg: DecomposerConfig, messages: seq<Value>, env: DecomposerEnv) returns (full: string)
    ensures full == FullResponse(cfg, messages, env)
  {
    if !cfg.enableDeepThinking {
      full := env.invoke(messages);
    } else {
      full := AccumulateStream(env.stream(messages));
    }
  }

  /** The node from the model's reply on: the cleaning, the two-stage parse, the repair and
      `model_validate`. */
  method PlanFromReply(state: State, cfg: DecomposerConfig, full: string, env: DecomposerEnv)
    returns (r: Result<Command, string>)
    ensures Delivers(r, FromReply(state, cfg, full, env), state)
  {
    var meta := PreserveStateMetaFields(state);
    var cleaned := RepairJsonOutput(full, env.repairLoads, env.jsonDumps);
    if !LooksLikeJson(cleaned) {
      return Ok(Command(meta, NoPlanTarget(state)));
    }
    var parsed := ParsedPlan(cleaned, env);
    if parsed.Err? {
      return Err(parsed.error);
    }
    if parsed.value.None? {
      return Ok(Command(meta, NoPlanTarget(state)));
    }
    var fixed := FixedPlan(parsed.value.value, cfg.enforceWebSearch, cfg.enableWebSearch);
    if fixed.Err? {
      return Err(fixed.error);
    }
    var w := fixed.value;
    var goto := if EnoughContext(w) then "reporter" else "human_feedback";
    var plan := ModelValidate(w);
    if plan.Err? {
      return Err(plan.error);
    }
    PlanUpdateDelivers(state, plan.value, FromReply(state, cfg, full, env));
    r := Ok(Command(PlanUpdate(state, full, plan.value), goto));
  }
}
