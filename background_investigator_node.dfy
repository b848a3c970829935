// The background investigator (graph/nodes/background_investigator_node.py): one web
// search on the topic before decomposition, its hits formatted as markdown snippets.
// The search tools and the JSON library are parameters.
module BackgroundInvestigatorNode {
  import opened Wrappers
  import opened Strings
  import opened Values
  import opened GraphTypes

  /** What the search tool's `invoke` returns: one value, or a tuple whose first element
      is the payload. */
  datatype SearchReply = Single(v: Value) | Tuple(first: Value, rest: seq<Value>)

  /** The configuration and the foreign calls: the selected engine, the web-search flag,
      `max_search_results`, the Tavily tool, the tool of any other engine, `json.loads`,
      `json.dumps` and `str()`. */
  datatype InvestigatorEnv = InvestigatorEnv(
    engine: string,
    enableWebSearch: bool,
    maxSearchResults: int,
    tavily: (Option<Field>, int) -> SearchReply,
    otherSearch: (Option<Field>, int) -> Value,
    loads: string -> Option<Value>,
    dumps: Value -> string,
    show: Value -> string)

  /** `state.get("clarified_research_topic") or state.get("research_topic")`. */
  function Query(state: State): (q: Option<Field>)
    ensures GetFlag(state, "clarified_research_topic", false) ==> q == Some(state["clarified_research_topic"])
    ensures !GetFlag(state, "clarified_research_topic", false) ==>
      q == (if "research_topic" in state then Some(state["research_topic"]) else None)
  {
    if GetFlag(state, "clarified_research_topic", false) then Some(state["clarified_research_topic"])
    else if "research_topic" in state then Some(state["research_topic"])
    else None
  }

  /** A value inside an f-string. */
  function Fmt(v: Value, show: Value -> string): string
  {
    if v.Str? then v.s else show(v)
  }

  /** One hit as markdown: `head` then the title, a blank line and the content, with the
      given defaults for missing fields. A hit that is not a dict has no `get`. */
  function FormatEntry(elem: Value, head: string, contentDefault: string, show: Value -> string)
    : (r: Result<string, string>)
    ensures r.Ok? <==> elem.Dict?
  {
    if !elem.Dict? then Err("AttributeError: object has no attribute 'get'")
    else
      var title := Fmt(Get(elem, "title").GetOr(Str("Untitled")), show);
      var content := Fmt(Get(elem, "content").GetOr(Str(contentDefault)), show);
      Ok(head + title + "\n\n" + content)
  }

  /** The comprehension over the hits: one entry per hit, in order. */
  function FormatEntries(items: seq<Value>, head: string, contentDefault: string, show: Value -> string)
    : (r: Result<seq<string>, string>)
    ensures r.Ok? <==> forall i :: 0 <= i < |items| ==> items[i].Dict?
    ensures r.Ok? ==> (|r.value| == |items| &&
      forall i :: 0 <= i < |items| ==> Ok(r.value[i]) == FormatEntry(items[i], head, contentDefault, show))
    decreases |items|
  {
    if |items| == 0 then Ok([])
    else
      var init :- FormatEntries(items[..|items| - 1], head, contentDefault, show);
      var last :- FormatEntry(items[|items| - 1], head, contentDefault, show);
      Ok(init + [last])
  }

  /** The Tavily branch: a JSON text is parsed (an error dict, a decoding failure or any
      shape but a list give no results); a list is formatted directly; anything else
      gives no results. */
  function TavilyResults(reply: SearchReply, env: InvestigatorEnv): Result<seq<string>, string>
  {
    var content := if reply.Tuple? then reply.first else reply.v;
    match content
    case Str(s) =>
      (match env.loads(s)
       case None => Ok([])
       case Some(List(items)) => FormatEntries(items, "##", "No content", env.show)
       case Some(_) => Ok([]))
    case List(items) => FormatEntries(items, "## ", "", env.show)
    case _ => Ok([])
  }

  /** `background_investigation_node`: its only key is the results, serialised; `Err` is
      an exception that leaves the node. */
  function Investigate(state: State, env: InvestigatorEnv): (r: Result<map<string, Field>, string>)
    ensures r.Ok? ==> r.value.Keys == {"background_investigation_results"}
  {
    if !env.enableWebSearch then Ok(map["background_investigation_results" := Val(Str(env.dumps(List([]))))])
    else if env.engine == "tavily" then
      var results :- TavilyResults(env.tavily(Query(state), env.maxSearchResults), env);
      Ok(map["background_investigation_results" := Val(Str(env.dumps(StrList(results))))])
    else
      Ok(map["background_investigation_results" :=
        Val(Str(env.dumps(env.otherSearch(Query(state), env.maxSearchResults))))])
  }

  /** The text stored for a payload. */
  function Stored(payload: Value, env: InvestigatorEnv): map<string, Field>
  {
    map["background_investigation_results" := Val(Str(env.dumps(payload)))]
  }

  /** With web search off nothing is searched and the stored text is the empty list's. */
  lemma DisabledStoresEmptyList(state: State, env: InvestigatorEnv)
    requires !env.enableWebSearch
    ensures Investigate(state, env) == Ok(Stored(List([]), env))
  {
  }

  /** A Tavily reply that does not decode, an error dict, or any decoded shape but a list
      is stored as an empty list. */
  lemma UnusableTavilyReplyIsEmpty(state: State, env: InvestigatorEnv, s: string)
    requires env.enableWebSearch && env.engine == "tavily"
    requires env.tavily(Query(state), env.maxSearchResults) == Single(Str(s))
    requires env.loads(s).None? || !env.loads(s).value.List?
    ensures Investigate(state, env) == Ok(Stored(List([]), env))
  {
    assert StrList([]) == List([]);
  }

  /** A reply that is neither text nor a list is stored as an empty list. */
  lemma MalformedTavilyReplyIsEmpty(state: State, env: InvestigatorEnv)
    requires env.enableWebSearch && env.engine == "tavily"
    requires var r := env.tavily(Query(state), env.maxSearchResults);
      var c := if r.Tuple? then r.first else r.v;
      !c.Str? && !c.List?
    ensures Investigate(state, env) == Ok(Stored(List([]), env))
  {
    assert StrList([]) == List([]);
  }

  /** A JSON list of dict hits gives one "##{title}\n\n{content}" entry per hit, with
      "Untitled" and "No content" for missing fields. */
  lemma JsonHitsFormatted(reply: SearchReply, env: InvestigatorEnv, items: seq<Value>)
    requires (if reply.Tuple? then reply.first else reply.v).Str?
    requires env.loads((if reply.Tuple? then reply.first else reply.v).s) == Some(List(items))
    requires forall i :: 0 <= i < |items| ==> items[i].Dict?
    ensures var r := TavilyResults(reply, env);
      r.Ok? && |r.value| == |items| &&
      forall i :: 0 <= i < |items| ==>
        r.value[i] == "##" + Fmt(Get(items[i], "title").GetOr(Str("Untitled")), env.show) + "\n\n" +
                      Fmt(Get(items[i], "content").GetOr(Str("No content")), env.show)
  {
    var r := FormatEntries(items, "##", "No content", env.show);
    forall i | 0 <= i < |items|
      ensures r.value[i] == "##" + Fmt(Get(items[i], "title").GetOr(Str("Untitled")), env.show) + "\n\n" +
                            Fmt(Get(items[i], "content").GetOr(Str("No content")), env.show)
    {
      assert Ok(r.value[i]) == FormatEntry(items[i], "##", "No content", env.show);
    }
  }

  /** A list of dict hits returned directly gives one "## {title}\n\n{content}" entry per
      hit, with "" for a missing content. */
  lemma RawHitsFormatted(items: seq<Value>, env: InvestigatorEnv)
    requires forall i :: 0 <= i < |items| ==> items[i].Dict?
    ensures var r := TavilyResults(Single(List(items)), env);
      r.Ok? && |r.value| == |items| &&
      forall i :: 0 <= i < |items| ==>
        r.value[i] == "## " + Fmt(Get(items[i], "title").GetOr(Str("Untitled")), env.show) + "\n\n" +
                      Fmt(Get(items[i], "content").GetOr(Str("")), env.show)
  {
    var r := FormatEntries(items, "## ", "", env.show);
    forall i | 0 <= i < |items|
      ensures r.value[i] == "## " + Fmt(Get(items[i], "title").GetOr(Str("Untitled")), env.show) + "\n\n" +
                            Fmt(Get(items[i], "content").GetOr(Str("")), env.show)
    {
      assert Ok(r.value[i]) == FormatEntry(items[i], "## ", "", env.show);
    }
  }

  /** Another engine's output is stored as it is, serialised. */
  lemma OtherEnginePassesThrough(state: State, env: InvestigatorEnv)
    requires env.enableWebSearch && env.engine != "tavily"
    ensures Investigate(state, env) == Ok(Stored(env.otherSearch(Query(state), env.maxSearchResults), env))
  {
  }

  /** With web search on, the search the node performs is asked about the clarified
      topic when that is truthy, else about the research topic, or about None when neither
      is there; Tavily's reply is formatted, another engine's is stored as it is. */
  lemma SearchesClarifiedTopic(state: State, env: InvestigatorEnv)
    requires env.enableWebSearch
    ensures var q := if "clarified_research_topic" in state && FieldTruthy(state["clarified_research_topic"])
                     then Some(state["clarified_research_topic"])
                     else if "research_topic" in state then Some(state["research_topic"])
                     else None;
      && (env.engine != "tavily" ==>
            Investigate(state, env) == Ok(Stored(env.otherSearch(q, env.maxSearchResults), env)))
      && (env.engine == "tavily" ==>
            Investigate(state, env) ==
              match TavilyResults(env.tavily(q, env.maxSearchResults), env)
              case Ok(results) => Ok(Stored(StrList(results), env))
              case Err(e) => Err(e))
  {
  }
}
