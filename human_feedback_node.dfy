// The human-feedback node (graph/nodes/human_feedback_node.py): it asks for a review of
// the plan, sends an edit request back to the decomposer, and otherwise re-parses,
// repairs and validates the plan before the research team starts. The interrupt's reply
// and the JSON library are parameters.
module HumanFeedbackNode {
  import opened Wrappers
  import opened Strings
  import opened Values
  import opened Messages
  import opened DecomposerModel
  import opened JsonUtils
  import opened GraphTypes
  import opened GraphUtils
  import opened Builder

  /** What `interrupt(...)` gives: the reviewer's reply, or a `RuntimeError` when no
      interrupt is possible in the current context. */
  datatype InterruptReply = Reply(feedback: Value) | NoInterrupt

  /** The two web-search flags of the configuration. */
  datatype FeedbackConfig = FeedbackConfig(enforceWebSearch: bool, enableWebSearch: bool)

  /** The foreign calls: `json.loads`, the parser and serialiser that `repair_json_output`
      uses, `json.dumps` and `str()`. */
  datatype FeedbackEnv = FeedbackEnv(
    loads: string -> Option<Value>,
    repairLoads: string -> Option<Value>,
    jsonDumps: Value -> Result<string, string>,
    dumps: Value -> string,
    show: Value -> string)

  /** `decompose_iterations` when it holds a non-zero number, else 0. */
  function IterationsOf(state: State): real
  {
    if "decompose_iterations" in state && state["decompose_iterations"].Val? && state["decompose_iterations"].v.Num?
    then state["decompose_iterations"].v.x else 0.0
  }

  /** `model_dump()` of a plan object, read from its sub-question objects. */
  function ObjectDump(p: Plan): Value
    reads p.questions
  {
    Dict(Zip(PlanKeys, [Str(p.locale), Bool(p.hasEnoughContext), Str(p.thought), Str(p.title),
                        List(QuestionObjectDumps(p.questions))]))
  }

  function QuestionObjectDumps(qs: seq<SubQuestion>): (r: seq<Value>)
    reads qs
    ensures |r| == |qs|
  {
    seq(|qs|, i reads qs requires 0 <= i < |qs| =>
      Dict(Zip(QuestionKeys, [Str(qs[i].question), Str(qs[i].description), Str(qs[i].stepType),
                              Bool(qs[i].needSearch), OptStr(qs[i].executionRes)])))
  }

  /** `state.get("son_questions", "")` as `extract_subquestions_content` sees it: text, or a
      plan model whose `model_dump_json()` may fail (then its `str()` is used). */
  function SlotData(slot: PlanSlot, env: FeedbackEnv): SubquestionsData
    reads QuestionsOf(slot)
  {
    match slot
    case NoPlan => Text("")
    case PlanText(t) => Text(t)
    case PlanObject(p) => PlanModel(env.jsonDumps(ObjectDump(p)), env.show(ObjectDump(p)))
  }

  /** The plan text parsed: `Ok(Some(v))` once the first `json.loads` succeeded, `Ok(None)`
      for an exception the node catches (`ValueError` from the content extraction,
      `AttributeError` from a non-text content, `JSONDecodeError`). */
  function ParsedFeedbackPlan(data: SubquestionsData, env: FeedbackEnv): Option<Value>
  {
    match ExtractSubquestionsContent(data, env.dumps, env.show)
    case Err(_) => None
    case Ok(Str(c)) => env.loads(RepairJsonOutput(c, env.repairLoads, env.jsonDumps))
    case Ok(_) => None
  }

  /** Where the node leads: a plain update, an accepted plan (the validated fields, the
      repaired plan dict and the new counter), or an exception that leaves the node. */
  datatype FeedbackOutcome =
    | Route(update: map<string, Field>, goto: string)
    | Accepted(fields: PlanFields, plan: Value, iterations: real)
    | Escape(error: string)

  /** The accepted path: the plan is parsed; a parse failure ends the run in the first
      rounds and goes to the reporter later; a parsed plan counts one more iteration, is
      repaired with both web-search flags and must then validate. */
  function AcceptPlan(state: State, cfg: FeedbackConfig, env: FeedbackEnv): FeedbackOutcome
    reads QuestionsOf(GetPlan(state))
  {
    var before := IterationsOf(state);
    match ParsedFeedbackPlan(SlotData(GetPlan(state), env), env)
    case None => Route(PreserveStateMetaFields(state), if before > 1.0 then "reporter" else End)
    case Some(v) => CheckedPlan(v, cfg, before + 1.0)
  }

  /** A parsed plan: repaired with both web-search flags, then validated. */
  function CheckedPlan(v: Value, cfg: FeedbackConfig, iterations: real): FeedbackOutcome
  {
    match FixedPlan(v, cfg.enforceWebSearch, cfg.enableWebSearch)
    case Err(e) => Escape(e)
    case Ok(w) =>
      match ValidPlan(w)
      case Err(e) => Escape(e)
      case Ok(f) => Accepted(f, w, iterations)
  }

  /** `str(feedback)`. */
  function FeedbackText(v: Value, env: FeedbackEnv): string
  {
    if v.Str? then v.s else env.show(v)
  }

  /** The feedback asks for an edit of the plan. */
  predicate IsEditRequest(v: Value, env: FeedbackEnv)
  {
    StartsWith(Upper(Strip(FeedbackText(v, env))), "[EDIT_PLAN]")
  }

  /** The message that carries an edit request to the decomposer. */
  function FeedbackMessage(v: Value): Message
  {
    Message(Human, v, Some("feedback"), None, [], [])
  }

  /** `human_feedback_node`. */
  function HumanFeedback(state: State, cfg: FeedbackConfig, reply: InterruptReply, env: FeedbackEnv): FeedbackOutcome
    reads QuestionsOf(GetPlan(state))
  {
    if GetFlag(state, "auto_accepted_questions", false) then AcceptPlan(state, cfg, env)
    else
      var feedback := if reply.NoInterrupt? then Str("[ACCEPTED]") else reply.feedback;
      if !Truthy(feedback) then Route(PreserveStateMetaFields(state), "decomposer")
      else if IsEditRequest(feedback, env) then
        Route(map["messages" := Msgs([FeedbackMessage(feedback)])] + PreserveStateMetaFields(state), "decomposer")
      else AcceptPlan(state, cfg, env)
  }

  /** With auto-accept on, the reviewer is never asked: the outcome is the same whatever
      the interrupt would have answered. */
  lemma AutoAcceptSkipsInterrupt(state: State, cfg: FeedbackConfig, reply: InterruptReply, reply': InterruptReply,
                                 env: FeedbackEnv)
    requires GetFlag(state, "auto_accepted_questions", false)
    ensures HumanFeedback(state, cfg, reply, env) == HumanFeedback(state, cfg, reply', env)
    ensures HumanFeedback(state, cfg, reply, env) == AcceptPlan(state, cfg, env)
  {
  }

  /** An interrupt that cannot be raised counts as the feedback "[ACCEPTED]", which is
      no edit request and so accepts the plan. */
  lemma UnavailableInterruptAccepts(state: State, cfg: FeedbackConfig, env: FeedbackEnv)
    ensures HumanFeedback(state, cfg, NoInterrupt, env) == HumanFeedback(state, cfg, Reply(Str("[ACCEPTED]")), env)
    ensures HumanFeedback(state, cfg, NoInterrupt, env) == AcceptPlan(state, cfg, env)
  {
    AcceptedMarkerIsNoEdit(env);
    assert Truthy(Str("[ACCEPTED]"));
    if !GetFlag(state, "auto_accepted_questions", false) {
      assert HumanFeedback(state, cfg, NoInterrupt, env) == AcceptPlan(state, cfg, env);
      assert HumanFeedback(state, cfg, Reply(Str("[ACCEPTED]")), env) == AcceptPlan(state, cfg, env);
    }
  }

  lemma AcceptedMarkerIsNoEdit(env: FeedbackEnv)
    ensures !IsEditRequest(Str("[ACCEPTED]"), env)
  {
    var t := FeedbackText(Str("[ACCEPTED]"), env);
    assert |t| == 10;
    assert |Upper(Strip(t))| < |"[EDIT_PLAN]"|;
  }

  /** Empty or missing feedback sends the run back to the decomposer with only the meta
      fields. */
  lemma EmptyFeedbackRedecomposes(state: State, cfg: FeedbackConfig, v: Value, env: FeedbackEnv)
    requires !GetFlag(state, "auto_accepted_questions", false) && !Truthy(v)
    ensures HumanFeedback(state, cfg, Reply(v), env) == Route(PreserveStateMetaFields(state), "decomposer")
  {
  }

  /** An edit request goes back to the decomposer carrying the feedback as a human
      message named "feedback", besides the meta fields, and nothing else. */
  lemma EditRequestRedecomposes(state: State, cfg: FeedbackConfig, v: Value, env: FeedbackEnv)
    requires !GetFlag(state, "auto_accepted_questions", false) && Truthy(v) && IsEditRequest(v, env)
    ensures var o := HumanFeedback(state, cfg, Reply(v), env);
      o.Route? && o.goto == "decomposer" && o.update.Keys == {"messages"} + MetaKeys &&
      o.update["messages"] == Msgs([Message(Human, v, Some("feedback"), None, [], [])]) &&
      forall k :: k in MetaKeys ==> o.update[k] == PreserveStateMetaFields(state)[k]
  {
    assert HumanFeedback(state, cfg, Reply(v), env) ==
      Route(map["messages" := Msgs([FeedbackMessage(v)])] + PreserveStateMetaFields(state), "decomposer");
    MessagesWithMeta(state, Msgs([FeedbackMessage(v)]));
  }

  lemma MessagesWithMeta(state: State, f: Field)
    ensures var u := map["messages" := f] + PreserveStateMetaFields(state);
      u.Keys == {"messages"} + MetaKeys && u["messages"] == f &&
      forall k :: k in MetaKeys ==> u[k] == PreserveStateMetaFields(state)[k]
  {
    assert "messages" !in MetaKeys;
  }

  /** Any other non-empty feedback is taken as acceptance; no keyword is looked for, so
      "no" and "reject" accept the plan too. */
  lemma OtherFeedbackAccepts(state: State, cfg: FeedbackConfig, v: Value, env: FeedbackEnv)
    requires Truthy(v) && !IsEditRequest(v, env)
    ensures HumanFeedback(state, cfg, Reply(v), env) == AcceptPlan(state, cfg, env)
  {
  }

  /** An edit marker is recognised in any case and after leading whitespace. */
  lemma EditMarkerNormalised(env: FeedbackEnv)
    ensures IsEditRequest(Str(" [edit_plan]"), env)
  {
    var s := " [edit_plan]";
    var t := s[1..];
    assert IsSpace(s[0]) && !IsSpace(t[0]) && !IsSpace(t[|t| - 1]);
    assert LStrip(s) == LStrip(t);
    StripOfTrimmed(t);
    assert Strip(s) == t;
    var u := Upper(t);
    assert u[0] == '[' && u[1] == 'E' && u[2] == 'D' && u[3] == 'I' && u[4] == 'T' && u[5] == '_';
    assert u[6] == 'P' && u[7] == 'L' && u[8] == 'A' && u[9] == 'N' && u[10] == ']';
    assert u == "[EDIT_PLAN]";
  }

  /** A plan text that does not parse leads to the reporter once more than one round has
      been counted, and to the end before that; the counter is not incremented. */
  lemma ParseFailureRoute(state: State, cfg: FeedbackConfig, env: FeedbackEnv)
    requires ParsedFeedbackPlan(SlotData(GetPlan(state), env), env).None?
    ensures AcceptPlan(state, cfg, env) ==
      Route(PreserveStateMetaFields(state), if IterationsOf(state) > 1.0 then "reporter" else "__end__")
  {
  }

  /** An accepted plan has been parsed, repaired with both web-search flags and validated,
      and the counter is one more than the state's. */
  lemma AcceptedPlanCounted(state: State, cfg: FeedbackConfig, env: FeedbackEnv)
    requires AcceptPlan(state, cfg, env).Accepted?
    ensures var o := AcceptPlan(state, cfg, env);
      var p := ParsedFeedbackPlan(SlotData(GetPlan(state), env), env);
      p.Some? && FixedPlan(p.value, cfg.enforceWebSearch, cfg.enableWebSearch) == Ok(o.plan) &&
      ValidPlan(o.plan) == Ok(o.fields) && o.iterations == IterationsOf(state) + 1.0
  {
  }

  /** A parsed plan text is checked, with the counter one more than the state's. */
  lemma ParsedPlanChecked(state: State, cfg: FeedbackConfig, env: FeedbackEnv)
    requires ParsedFeedbackPlan(SlotData(GetPlan(state), env), env).Some?
    ensures AcceptPlan(state, cfg, env) ==
      CheckedPlan(ParsedFeedbackPlan(SlotData(GetPlan(state), env), env).value, cfg, IterationsOf(state) + 1.0)
  {
  }

  /** A plan of text that is no JSON at all is a parse failure. */
  lemma UnparsableTextFails(state: State, cfg: FeedbackConfig, env: FeedbackEnv)
    requires GetPlan(state).PlanText?
    requires env.loads(RepairJsonOutput(GetPlan(state).text, env.repairLoads, env.jsonDumps)).None?
    ensures AcceptPlan(state, cfg, env).Route?
  {
  }

  /** The update for an accepted plan: the plan object, the new counter and the meta
      fields, with the plan's locale over the state's when the plan has a non-empty one. */
  function AcceptedUpdate(state: State, p: Plan, iterations: real): map<string, Field>
  {
    var u := map["son_questions" := PlanField(PlanObject(p)), "decompose_iterations" := Val(Num(iterations))]
      + PreserveStateMetaFields(state);
    if p.locale != [] then u["locale" := Val(Str(p.locale))] else u
  }

  /** What the node returns for an outcome, with the plan object `model_validate` built. */
  predicate Delivers(r: Result<Command, string>, o: FeedbackOutcome, state: State)
    reads if r.Ok? && "son_questions" in r.value.update && r.value.update["son_questions"].PlanField?
          then QuestionsOf(r.value.update["son_questions"].slot) else []
  {
    (o.Route? ==> r == Ok(Command(o.update, o.goto))) &&
    (o.Escape? ==> r == Err(o.error)) &&
    (o.Accepted? ==> (r.Ok? && r.value.goto == "research_team" &&
       r.value.update.Keys == {"son_questions", "decompose_iterations"} + MetaKeys &&
       r.value.update["decompose_iterations"] == Val(Num(o.iterations)) &&
       r.value.update["son_questions"].PlanField? && r.value.update["son_questions"].slot.PlanObject? &&
       Built(r.value.update["son_questions"].slot.plan, o.fields) &&
       r.value.update["locale"] ==
         (if o.fields.locale != [] then Val(Str(o.fields.locale)) else PreserveStateMetaFields(state)["locale"]) &&
       forall k :: k in MetaKeys && k != "locale" ==> r.value.update[k] == PreserveStateMetaFields(state)[k]))
  }

  lemma AcceptedUpdateDelivers(state: State, p: Plan, o: FeedbackOutcome)
    requires o.Accepted? && Built(p, o.fields)
    ensures Delivers(Ok(Command(AcceptedUpdate(state, p, o.iterations), "research_team")), o, state)
  {
    assert "son_questions" !in MetaKeys && "decompose_iterations" !in MetaKeys && "locale" in MetaKeys;
  }

  /** The accepted path as written: parse, count, repair, then `model_validate`. */
  method AcceptFeedbackPlan(state: State, cfg: FeedbackConfig, env: FeedbackEnv) returns (r: Result<Command, string>)
    ensures Delivers(r, AcceptPlan(state, cfg, env), state)
  {
    var decomposeIterations := IterationsOf(state);
    var parsed := ParsedFeedbackPlan(SlotData(GetPlan(state), env), env);
    if parsed.None? {
      ParseFailureRoute(state, cfg, env);
      var goto := if decomposeIterations > 1.0 then "reporter" else End;
      return Ok(Command(PreserveStateMetaFields(state), goto));
    }
    decomposeIterations := decomposeIterations + 1.0;
    ParsedPlanChecked(state, cfg, env);
    var fixed := FixedPlan(parsed.value, cfg.enforceWebSearch, cfg.enableWebSearch);
    if fixed.Err? {
      return Err(fixed.error);
    }
    var plan := ModelValidate(fixed.value);
    if plan.Err? {
      return Err(plan.error);
    }
    var o := AcceptPlan(state, cfg, env);
    assert o == Accepted(ValidPlan(fixed.value).value, fixed.value, decomposeIterations);
    AcceptedUpdateDelivers(state, plan.value, o);
    r := Ok(Command(AcceptedUpdate(state, plan.value, decomposeIterations), "research_team"));
  }

  /** `human_feedback_node`. */
  method HumanFeedbackNode(state: State, cfg: FeedbackConfig, reply: InterruptReply, env: FeedbackEnv)
    returns (r: Result<Command, string>)
    ensures Delivers(r, HumanFeedback(state, cfg, reply, env), state)
  {
    if !GetFlag(state, "auto_accepted_questions", false) {
      var feedback := if reply.NoInterrupt? then Str("[ACCEPTED]") else reply.feedback;
      if !Truthy(feedback) {
        return Ok(Command(PreserveStateMetaFields(state), "decomposer"));
      }
      if IsEditRequest(feedback, env) {
        return Ok(Command(map["messages" := Msgs([FeedbackMessage(feedback)])] + PreserveStateMetaFields(state),
                          "decomposer"));
      }
    }
    r := AcceptFeedbackPlan(state, cfg, env);
  }
}
