// The coordinator (graph/nodes/coordinator_node.py): it normalises the prompt's messages,
// asks the model, and routes on the first tool call it recognises. The prompt template
// and the model are parameters.
module CoordinatorNode {
  import opened Wrappers
  import opened Strings
  import opened Values
  import opened Messages
  import opened Retriever
  import opened GraphTypes
  import opened GraphUtils
  import opened Builder

  /** The instruction the node appends to the prompt. */
  const ClarificationNotice: string :=
    "Clarification is DISABLED. For research questions, use handoff_to_question_decomposer. " +
    "For greetings or small talk，use direct_response. Do NOT ask clarifying questions."

  /** The instruction as the source builds it: the parentheses around the text end in a
      comma, so `content` is a one-element tuple, and the normalisation below replaces a
      non-text content by its `str()`, the tuple's repr. */
  const NoticeAsWritten: string := "('" + ClarificationNotice + "',)"

  /** The instruction message as the source sends it. */
  function NoticeMessageAsWritten(): AnyMessage
  {
    DictMessage([("role", Str("system")), ("content", Str(NoticeAsWritten))])
  }

  /** The instruction message with its text as content, as evidently intended. */
  function NoticeMessage(): AnyMessage
  {
    DictMessage([("role", Str("system")), ("content", Str(ClarificationNotice))])
  }

  /** The model is handed the repr of a tuple instead of the instruction: the text it
      sees opens with "('" and is three characters longer at the end. */
  lemma NoticeSentAsTupleRepr()
    ensures NoticeMessageAsWritten() != NoticeMessage()
    ensures MessageContent(NoticeMessageAsWritten()) == Str("('" + ClarificationNotice + "',)")
    ensures MessageContent(NoticeMessage()) == Str(ClarificationNotice)
  {
    assert |NoticeAsWritten| == |ClarificationNotice| + 5;
  }

  /** The prompt: the rendered system prompt followed by the conversation so far. */
  function PromptMessages(systemPrompt: string, state: State): seq<AnyMessage>
  {
    [DictMessage([("role", Str("system")), ("content", Str(systemPrompt))])]
      + seq(|GetMessages(state)|, i requires 0 <= i < |GetMessages(state)| => ObjectMessage(GetMessages(state)[i]))
  }

  predicate AllText(items: seq<Value>)
  {
    forall i :: 0 <= i < |items| ==> items[i].Str?
  }

  function Texts(items: seq<Value>): (r: seq<string>)
    requires AllText(items)
    ensures |r| == |items| && forall i :: 0 <= i < |items| ==> r[i] == items[i].s
  {
    seq(|items|, i requires 0 <= i < |items| => items[i].s)
  }

  /** One message of the normalisation loop: a dict whose content is a list of strings
      gets them joined by newlines, a dict whose content is neither text, nor a list, nor
      `None` gets its `str()`; everything else passes unchanged. */
  function NormalizeMessage(msg: AnyMessage, show: Value -> string): (r: AnyMessage)
    ensures msg.ObjectMessage? ==> r == msg
  {
    match msg
    case ObjectMessage(_) => msg
    case DictMessage(es) =>
      match Get(Dict(es), "content")
      case Some(List(items)) =>
        if AllText(items) then DictMessage(Put(es, "content", Str(Join("\n", Texts(items))))) else msg
      case Some(Str(_)) => msg
      case Some(Null) => msg
      case None => msg
      case Some(c) => DictMessage(Put(es, "content", Str(show(c))))
  }

  /** After normalisation a dict message's content is text, unless it was a list that
      held a non-string or it was missing or `None`. */
  lemma NormalizeMessageSpec(es: seq<(string, Value)>, show: Value -> string)
    ensures var r := NormalizeMessage(DictMessage(es), show);
      var c := Lookup(es, "content");
      r.DictMessage? &&
      (c.Some? && c.value.List? && AllText(c.value.items) ==>
        Lookup(r.entries, "content") == Some(Str(Join("\n", Texts(c.value.items))))) &&
      (c.Some? && !c.value.List? && !c.value.Null? && !c.value.Str? ==>
        Lookup(r.entries, "content") == Some(Str(show(c.value)))) &&
      (forall k :: k != "content" ==> Lookup(r.entries, k) == Lookup(es, k)) &&
      (c.None? || c.value.Null? || c.value.Str? ==> r == DictMessage(es))
  {
    var c := Lookup(es, "content");
    if c.Some? {
      PutLookupAll(es, "content", Str(Join("\n", if c.value.List? && AllText(c.value.items) then Texts(c.value.items) else [])));
      PutLookupAll(es, "content", Str(show(c.value)));
    }
  }

  /** A list of strings is sent as the lines of one text. */
  lemma NormalizeJoinsLines(a: string, b: string, show: Value -> string)
    ensures NormalizeMessage(DictMessage([("content", List([Str(a), Str(b)]))]), show) ==
      DictMessage([("content", Str(a + "\n" + b))])
  {
    var items := [Str(a), Str(b)];
    assert Texts(items) == [a, b];
    assert Join("\n", [a, b]) == a + "\n" + Join("\n", [b]);
  }

  function NormalizeAll(ms: seq<AnyMessage>, show: Value -> string): (r: seq<AnyMessage>)
    ensures |r| == |ms| && forall i :: 0 <= i < |ms| ==> r[i] == NormalizeMessage(ms[i], show)
  {
    seq(|ms|, i requires 0 <= i < |ms| => NormalizeMessage(ms[i], show))
  }

  /** The normalisation loop: one message out per message in, in order. */
  method NormalizeMessages(ms: seq<AnyMessage>, show: Value -> string) returns (normalized: seq<AnyMessage>)
    ensures normalized == NormalizeAll(ms, show)
  {
    normalized := [];
    for i := 0 to |ms|
      invariant normalized == NormalizeAll(ms[..i], show)
    {
      normalized := normalized + [NormalizeMessage(ms[i], show)];
    }
    assert ms[..|ms|] == ms;
  }

  /** What the model answers: its content and its tool calls. */
  datatype CoordinatorReply = CoordinatorReply(content: Value, toolCalls: seq<ToolCall>)

  /** The foreign calls: the coordinator prompt template, the model bound to the two
      tools, `str()`, and the configured resources. */
  datatype CoordinatorEnv = CoordinatorEnv(
    template: State -> string,
    invoke: seq<AnyMessage> -> CoordinatorReply,
    show: Value -> string,
    resources: seq<Resource>)

  predicate Recognised(c: ToolCall)
  {
    c.name == "handoff_to_question_decomposer" || c.name == "direct_response"
  }

  /** The tool call the loop stops at: the first one it recognises. */
  function FirstRecognised(calls: seq<ToolCall>): (r: Option<nat>)
    ensures r.Some? ==> r.value < |calls| && Recognised(calls[r.value])
    ensures r.Some? ==> forall j :: 0 <= j < r.value ==> !Recognised(calls[j])
    ensures r.None? ==> forall j :: 0 <= j < |calls| ==> !Recognised(calls[j])
    decreases |calls|
  {
    if |calls| == 0 then None
    else if Recognised(calls[0]) then Some(0)
    else match FirstRecognised(calls[1..])
      case Some(i) => Some(i + 1)
      case None => None
  }

  /** What the tool-call loop leaves behind: the route, the research topic and the
      direct reply. */
  datatype ToolDecision = ToolDecision(goto: string, topic: Field, directReply: Option<Value>)

  /** The argument `tool_args.get(k)` when truthy. */
  function TruthyArg(args: Value, k: string): Option<Value>
  {
    match Get(args, k)
    case Some(v) => if Truthy(v) then Some(v) else None
    case None => None
  }

  /** The decision of the first recognised tool call; `__end__`, the given topic and no
      reply when there is none. */
  function Decide(calls: seq<ToolCall>, topic: Field): ToolDecision
  {
    match FirstRecognised(calls)
    case None => ToolDecision(End, topic, None)
    case Some(i) =>
      var c := calls[i];
      if c.name == "handoff_to_question_decomposer" then
        ToolDecision("decomposer", match TruthyArg(c.args, "research_topic")
                                   case Some(v) => Val(v)
                                   case None => topic, None)
      else ToolDecision(End, topic, TruthyArg(c.args, "message"))
  }

  /** The tool-call loop as written: it stops at the first recognised call. */
  method ProcessToolCalls(calls: seq<ToolCall>, topic: Field) returns (d: ToolDecision)
    ensures d == Decide(calls, topic)
  {
    var goto := End;
    var researchTopic := topic;
    var directReply: Option<Value> := None;
    var i := 0;
    while i < |calls|
      invariant 0 <= i <= |calls|
      invariant forall j :: 0 <= j < i ==> !Recognised(calls[j])
      invariant goto == End && researchTopic == topic && directReply == None
    {
      var c := calls[i];
      if c.name == "handoff_to_question_decomposer" {
        goto := "decomposer";
        var arg := TruthyArg(c.args, "research_topic");
        if arg.Some? {
          researchTopic := Val(arg.value);
        }
        assert FirstRecognised(calls) == Some(i);
        return ToolDecision(goto, researchTopic, directReply);
      }
      if c.name == "direct_response" {
        goto := End;
        directReply := TruthyArg(c.args, "message");
        assert FirstRecognised(calls) == Some(i);
        return ToolDecision(goto, researchTopic, directReply);
      }
      i := i + 1;
    }
    d := ToolDecision(goto, researchTopic, directReply);
  }

  /** The messages of the update: the conversation, the model's content as a human
      message named "coordinator" when it has any, and the direct reply as an AI message. */
  function CoordinatorMessages(state: State, content: Value, directReply: Option<Value>): seq<Message>
  {
    GetMessages(state)
      + (if Truthy(content) then [Message(Human, content, Some("coordinator"), None, [], [])] else [])
      + (if directReply.Some? then [Message(AI, directReply.value, Some("coordinator"), None, [], [])] else [])
  }

  /** The node's route: the decision's, with the decomposer replaced by the background
      investigator when background investigation is on. */
  function Route(state: State, d: ToolDecision): string
  {
    if d.goto == "decomposer" && GetFlag(state, "enable_background_investigation", false)
    then "background_investigator" else d.goto
  }

  /** The messages the model is sent: the prompt with the given instruction appended,
      normalised. */
  function SentPrompt(state: State, env: CoordinatorEnv, notice: AnyMessage): seq<AnyMessage>
  {
    NormalizeAll(PromptMessages(env.template(state), state) + [notice], env.show)
  }

  /** `coordinator_node`, with the given instruction message appended to the prompt. */
  function CoordinateWith(state: State, env: CoordinatorEnv, notice: AnyMessage): Command
  {
    var reply := env.invoke(SentPrompt(state, env, notice));
    var initial := GetField(state, "research_topic", Val(Str("")));
    var d := Decide(reply.toolCalls, initial);
    var goto := Route(state, d);
    Command(map[
      "messages" := Msgs(CoordinatorMessages(state, reply.content, d.directReply)),
      "locale" := GetField(state, "locale", Val(Str("en-US"))),
      "research_topic" := d.topic,
      "clarified_research_topic" := if FieldTruthy(initial) then initial else d.topic,
      "resources" := Resources(env.resources),
      "goto" := Val(Str(goto)),
      "citations" := GetField(state, "citations", Cites([]))], goto)
  }

  /** The node as written: the model is sent the tuple's `str()` as the instruction. */
  function CoordinateAsWritten(state: State, env: CoordinatorEnv): Command
  {
    CoordinateWith(state, env, NoticeMessageAsWritten())
  }

  /** The node as evidently intended: the model is sent the instruction's text. */
  function Coordinate(state: State, env: CoordinatorEnv): Command
  {
    CoordinateWith(state, env, NoticeMessage())
  }

  /** The model sees the normalised prompt: every message in order, the instruction last. */
  lemma ModelSeesNormalisedPrompt(state: State, env: CoordinatorEnv)
    ensures var sent := SentPrompt(state, env, NoticeMessage());
      |sent| == |GetMessages(state)| + 2 && sent[|sent| - 1] == NoticeMessage() &&
      forall i :: 0 <= i < |GetMessages(state)| ==> sent[i + 1] == ObjectMessage(GetMessages(state)[i])
  {
    var prompt := PromptMessages(env.template(state), state) + [NoticeMessage()];
    var sent := NormalizeAll(prompt, env.show);
    assert prompt[|prompt| - 1] == NoticeMessage();
    assert Get(Dict(NoticeMessage().entries), "content") == Some(Str(ClarificationNotice));
    assert sent[|sent| - 1] == NoticeMessage();
    forall i | 0 <= i < |GetMessages(state)| ensures sent[i + 1] == ObjectMessage(GetMessages(state)[i]) {
      assert prompt[i + 1] == ObjectMessage(GetMessages(state)[i]);
    }
  }

  /** As written, the model is sent the same messages as intended except the last, whose
      content is the tuple's repr instead of the instruction; the two nodes differ only
      through what the model answers to that prompt. */
  lemma ModelSeesTupleRepr(state: State, env: CoordinatorEnv)
    ensures var asWritten := SentPrompt(state, env, NoticeMessageAsWritten());
      var intended := SentPrompt(state, env, NoticeMessage());
      && |asWritten| == |intended| == |GetMessages(state)| + 2
      && asWritten[..|asWritten| - 1] == intended[..|intended| - 1]
      && asWritten[|asWritten| - 1] == NoticeMessageAsWritten()
      && MessageContent(asWritten[|asWritten| - 1]) == Str("('" + ClarificationNotice + "',)")
      && asWritten != intended
      && (env.invoke(asWritten) == env.invoke(intended) ==> CoordinateAsWritten(state, env) == Coordinate(state, env))
  {
    var base := PromptMessages(env.template(state), state);
    var asWritten := SentPrompt(state, env, NoticeMessageAsWritten());
    var intended := SentPrompt(state, env, NoticeMessage());
    NoticeSentAsTupleRepr();
    assert Get(Dict(NoticeMessageAsWritten().entries), "content") == Some(Str(NoticeAsWritten));
    assert Get(Dict(NoticeMessage().entries), "content") == Some(Str(ClarificationNotice));
    assert (base + [NoticeMessageAsWritten()])[|base|] == NoticeMessageAsWritten();
    assert (base + [NoticeMessage()])[|base|] == NoticeMessage();
    assert asWritten[|base|] == NoticeMessageAsWritten();
    assert intended[|base|] == NoticeMessage();
    forall i | 0 <= i < |base|
      ensures asWritten[i] == intended[i]
    {
      assert (base + [NoticeMessageAsWritten()])[i] == base[i] == (base + [NoticeMessage()])[i];
    }
  }

  /** Without a recognised tool call the run ends; the topic is kept and no reply is
      recorded. */
  lemma NoToolCallEnds(calls: seq<ToolCall>, topic: Field)
    requires forall j :: 0 <= j < |calls| ==> !Recognised(calls[j])
    ensures Decide(calls, topic) == ToolDecision("__end__", topic, None)
  {
    assert FirstRecognised(calls) == None;
  }

  /** The first recognised call decides; later calls are never looked at. */
  lemma FirstCallDecides(calls: seq<ToolCall>, more: seq<ToolCall>, topic: Field)
    requires FirstRecognised(calls).Some?
    ensures Decide(calls + more, topic) == Decide(calls, topic)
  {
    var i := FirstRecognised(calls).value;
    var cs := calls + more;
    assert forall j :: 0 <= j <= i ==> cs[j] == calls[j];
    FirstRecognisedPrefix(cs, i);
  }

  lemma {:induction false} FirstRecognisedPrefix(calls: seq<ToolCall>, i: nat)
    requires i < |calls| && Recognised(calls[i]) && forall j :: 0 <= j < i ==> !Recognised(calls[j])
    ensures FirstRecognised(calls) == Some(i)
  {
    if i > 0 {
      FirstRecognisedPrefix(calls[1..], i - 1);
    }
  }

  /** A hand-off leads to the decomposer, or to the background investigator when that is
      on; a non-empty `research_topic` argument replaces the topic. */
  lemma HandoffRoute(state: State, calls: seq<ToolCall>, topic: Field)
    requires FirstRecognised(calls).Some? && calls[FirstRecognised(calls).value].name == "handoff_to_question_decomposer"
    ensures var d := Decide(calls, topic);
      var args := calls[FirstRecognised(calls).value].args;
      d.directReply == None &&
      Route(state, d) == (if GetFlag(state, "enable_background_investigation", false)
                          then "background_investigator" else "decomposer") &&
      (Get(args, "research_topic").Some? && Truthy(Get(args, "research_topic").value) ==>
        d.topic == Val(Get(args, "research_topic").value)) &&
      (!(Get(args, "research_topic").Some? && Truthy(Get(args, "research_topic").value)) ==> d.topic == topic)
  {
  }

  /** A direct response ends the run and records a non-empty message as the AI's reply,
      after the model's own content. */
  lemma DirectResponseRoute(state: State, content: Value, calls: seq<ToolCall>, topic: Field)
    requires FirstRecognised(calls).Some? && calls[FirstRecognised(calls).value].name == "direct_response"
    ensures var d := Decide(calls, topic);
      var args := calls[FirstRecognised(calls).value].args;
      Route(state, d) == "__end__" && d.topic == topic &&
      (d.directReply.Some? <==> (Get(args, "message").Some? && Truthy(Get(args, "message").value))) &&
      (d.directReply.Some? ==> var ms := CoordinatorMessages(state, content, d.directReply);
        ms[|ms| - 1] == Message(AI, Get(args, "message").value, Some("coordinator"), None, [], []))
  {
  }

  /** The update: the conversation grown by the model's content and the direct reply, the
      locale, both topics, the configured resources, the route, and the citations passed
      through unchanged; the clarified topic is the state's topic when that is non-empty. */
  lemma CoordinatorUpdate(state: State, env: CoordinatorEnv, notice: AnyMessage)
    ensures var c := CoordinateWith(state, env, notice);
      var initial := GetField(state, "research_topic", Val(Str("")));
      c.update.Keys == {"messages", "locale", "research_topic", "clarified_research_topic", "resources", "goto", "citations"} &&
      c.update["goto"] == Val(Str(c.goto)) &&
      c.goto in {"decomposer", "background_investigator", "__end__"} &&
      c.update["citations"] == GetField(state, "citations", Cites([])) &&
      c.update["locale"] == GetField(state, "locale", Val(Str("en-US"))) &&
      c.update["resources"] == Resources(env.resources) &&
      (FieldTruthy(initial) ==> c.update["clarified_research_topic"] == initial) &&
      (!FieldTruthy(initial) ==> c.update["clarified_research_topic"] == c.update["research_topic"]) &&
      c.update["messages"].Msgs? && GetMessages(state) <= c.update["messages"].ms &&
      |c.update["messages"].ms| <= |GetMessages(state)| + 2
  {
    var reply := env.invoke(SentPrompt(state, env, notice));
    var initial := GetField(state, "research_topic", Val(Str("")));
    var d := Decide(reply.toolCalls, initial);
    var goto := Route(state, d);
    var ms := CoordinatorMessages(state, reply.content, d.directReply);
    var clarified := if FieldTruthy(initial) then initial else d.topic;
    var c := CoordinateWith(state, env, notice);
    assert c.goto == goto;
    UpdateLookups(c.update, Msgs(ms), GetField(state, "locale", Val(Str("en-US"))), d.topic, clarified,
                  Resources(env.resources), Val(Str(goto)), GetField(state, "citations", Cites([])));
    assert goto in {"decomposer", "background_investigator", "__end__"} by {
      assert d.goto in {"decomposer", "__end__"};
    }
    assert GetMessages(state) <= ms && |ms| <= |GetMessages(state)| + 2;
  }

  /** The keys of the update and what each holds. */
  lemma UpdateLookups(m: map<string, Field>, messages: Field, locale: Field, topic: Field,
                      clarified: Field, resources: Field, goto: Field, citations: Field)
    requires m == map["messages" := messages, "locale" := locale, "research_topic" := topic,
                      "clarified_research_topic" := clarified, "resources" := resources,
                      "goto" := goto, "citations" := citations]
    ensures m.Keys == {"messages", "locale", "research_topic", "clarified_research_topic", "resources", "goto", "citations"}
    ensures m["messages"] == messages && m["locale"] == locale && m["research_topic"] == topic
    ensures m["clarified_research_topic"] == clarified && m["resources"] == resources
    ensures m["goto"] == goto && m["citations"] == citations
  {
  }

  /** `coordinator_node` as written: the prompt, the instruction sent as the tuple's
      `str()`, the normalisation loop, the model call, the tool-call loop, and the update. */
  method CoordinatorNode(state: State, env: CoordinatorEnv) returns (c: Command)
    ensures c == CoordinateAsWritten(state, env)
  {
    var messages := PromptMessages(env.template(state), state);
    messages := messages + [NoticeMessageAsWritten()];
    var normalized := NormalizeMessages(messages, env.show);
    var response := env.invoke(normalized);
    var locale := GetField(state, "locale", Val(Str("en-US")));
    var initial := GetField(state, "research_topic", Val(Str("")));
    var d := ProcessToolCalls(response.toolCalls, initial);
    var history := GetMessages(state);
    if Truthy(response.content) {
      history := history + [Message(Human, response.content, Some("coordinator"), None, [], [])];
    }
    if d.directReply.Some? {
      history := history + [Message(AI, d.directReply.value, Some("coordinator"), None, [], [])];
    }
    var goto := d.goto;
    if goto == "decomposer" && GetFlag(state, "enable_background_investigation", false) {
      goto := "background_investigator";
    }
    assert normalized == SentPrompt(state, env, NoticeMessageAsWritten());
    assert history == CoordinatorMessages(state, response.content, d.directReply);
    assert goto == Route(state, d);
    var clarified := if FieldTruthy(initial) then initial else d.topic;
    c := Command(map[
      "messages" := Msgs(history),
      "locale" := locale,
      "research_topic" := d.topic,
      "clarified_research_topic" := clarified,
      "resources" := Resources(env.resources),
      "goto" := Val(Str(goto)),
      "citations" := GetField(state, "citations", Cites([]))], goto);
  }
}
