// Helpers shared by the workflow nodes (graph/utils.py): recognising the user's
// messages, the clarification history, the meta fields every node hands on, and the
// repair of a decomposition plan produced by the model.
module GraphUtils {
  import opened Wrappers
  import opened Strings
  import opened Values
  import opened Messages
  import opened GraphTypes

  const AssistantSpeakerNames: set<string> :=
    {"coordinator", "planner", "researcher", "coder", "reporter", "background_investigator"}

  /** A message as the helpers accept it: a plain dict or a message object. */
  datatype AnyMessage = DictMessage(entries: seq<(string, Value)>) | ObjectMessage(m: Message)

  /** `get_message_content`: the `content` entry or attribute, "" when missing. */
  function MessageContent(msg: AnyMessage): Value
  {
    match msg
    case DictMessage(es) => Lookup(es, "content").GetOr(Str(""))
    case ObjectMessage(m) => m.content
  }

  /** `(x or "").lower()` for a value that is text when set. */
  function LoweredText(v: Option<Value>): string
  {
    match v
    case Some(Str(s)) => Lower(s)
    case _ => ""
  }

  function DictRole(es: seq<(string, Value)>): string { LoweredText(Lookup(es, "role")) }
  function DictName(es: seq<(string, Value)>): string { LoweredText(Lookup(es, "name")) }

  /** `is_user_message` on a dict, as the cascade of checks is written. */
  predicate IsUserDict(es: seq<(string, Value)>)
  {
    var role := DictRole(es);
    if role in {"user", "human"} then true
    else if role in {"assistant", "system"} then false
    else
      var name := DictName(es);
      if name != "" && name in AssistantSpeakerNames then false
      else role == "" && name !in AssistantSpeakerNames
  }

  /** A dict is from the user exactly when its role says so, or it has no role and is
      not named after an assistant speaker. */
  lemma IsUserDictSpec(es: seq<(string, Value)>)
    ensures IsUserDict(es) <==>
      DictRole(es) in {"user", "human"} || (DictRole(es) == "" && DictName(es) !in AssistantSpeakerNames)
  {
  }

  /** Whether a role text names the user. */
  predicate UserRole(s: string)
  {
    Lower(s) in {"user", "human"}
  }

  /** `is_user_message` on a message object. */
  predicate IsUserObject(m: Message)
  {
    var name := Lower(NameOf(m));
    if Lower(TypeTag(m.kind)) == "human" then !(name != "" && name in AssistantSpeakerNames)
    else if m.role.Some? && UserRole(m.role.value) then true
    else match Lookup(m.additionalKwargs, "role")
      case Some(Str(r)) => UserRole(r)
      case _ => false
  }

  /** A human message is from the user unless named after an assistant speaker; any
      other message only when its `role` attribute or its `additional_kwargs` role names
      the user. */
  lemma IsUserObjectSpec(m: Message)
    ensures m.kind.Human? ==> (IsUserObject(m) <==> Lower(NameOf(m)) !in AssistantSpeakerNames)
    ensures Lower(TypeTag(m.kind)) != "human" ==>
      (IsUserObject(m) <==>
        (m.role.Some? && UserRole(m.role.value)) ||
        (Lookup(m.additionalKwargs, "role").Some? && Lookup(m.additionalKwargs, "role").value.Str? &&
         UserRole(Lookup(m.additionalKwargs, "role").value.s)))
  {
    if m.kind.Human? {
      assert Lower(TypeTag(m.kind)) == "human";
    }
  }

  predicate IsUserMessage(msg: AnyMessage)
  {
    match msg
    case DictMessage(es) => IsUserDict(es)
    case ObjectMessage(m) => IsUserObject(m)
  }

  /** A user message with non-empty content. */
  predicate Qualifies(msg: AnyMessage)
  {
    IsUserMessage(msg) && Truthy(MessageContent(msg))
  }

  /** The position `get_latest_user_message` stops at: the last qualifying message. */
  function LatestUserIndex(ms: seq<AnyMessage>): (r: Option<nat>)
    ensures r.Some? ==> r.value < |ms| && Qualifies(ms[r.value])
    ensures r.Some? ==> forall j :: r.value < j < |ms| ==> !Qualifies(ms[j])
    ensures r.None? ==> forall j :: 0 <= j < |ms| ==> !Qualifies(ms[j])
    decreases |ms|
  {
    if |ms| == 0 then None
    else if Qualifies(ms[|ms| - 1]) then Some(|ms| - 1)
    else LatestUserIndex(ms[..|ms| - 1])
  }

  /** `get_latest_user_message`: the last user message with content, and that content;
      `(None, "")` when there is none. */
  function LatestUserMessage(ms: seq<AnyMessage>): (r: (Option<AnyMessage>, Value))
    ensures r.0.Some? ==> exists i :: (0 <= i < |ms| && ms[i] == r.0.value && Qualifies(ms[i]) &&
                                       r.1 == MessageContent(ms[i]) && forall j :: i < j < |ms| ==> !Qualifies(ms[j]))
    ensures r.0.None? ==> r.1 == Str("") && forall j :: 0 <= j < |ms| ==> !Qualifies(ms[j])
    ensures r.0.Some? ==> Truthy(r.1)
  {
    match LatestUserIndex(ms)
    case Some(i) => (Some(ms[i]), MessageContent(ms[i]))
    case None => (None, Str(""))
  }

  // ---------------------------------------------------------------------------
  // Clarification history.

  /** `[item for item in xs if item]`. */
  function NonEmptyItems(xs: seq<string>): (r: seq<string>)
    ensures |r| <= |xs|
    ensures forall i :: 0 <= i < |r| ==> r[i] != [] && r[i] in xs
    ensures (forall i :: 0 <= i < |xs| ==> xs[i] != []) ==> r == xs
    decreases |xs|
  {
    if |xs| == 0 then []
    else if xs[0] == [] then NonEmptyItems(xs[1..])
    else [xs[0]] + NonEmptyItems(xs[1..])
  }

  /** The filter keeps every non-empty item: none is lost. */
  lemma {:induction false} NonEmptyItemsComplete(xs: seq<string>, i: nat)
    requires i < |xs| && xs[i] != []
    ensures xs[i] in NonEmptyItems(xs)
    decreases |xs|
  {
    if i > 0 {
      NonEmptyItemsComplete(xs[1..], i - 1);
    }
  }

  /** `build_clarified_topic_from_history`: the non-empty items, and the topic text made
      of the first item followed by " - " and the others joined by ", ". */
  function BuildClarifiedTopic(history: seq<string>): (r: (string, seq<string>))
    ensures r.1 == NonEmptyItems(history)
    ensures |r.1| == 1 ==> r.0 == r.1[0]
    ensures |r.1| >= 2 ==> r.0 == r.1[0] + " - " + Join(", ", r.1[1..])
  {
    var sequence := NonEmptyItems(history);
    if |sequence| == 0 then ("", [])
    else if |sequence| == 1 then (sequence[0], sequence)
    else (sequence[0] + " - " + Join(", ", sequence[1..]), sequence)
  }

  /** The topic is empty exactly when the history has no non-empty item; otherwise it
      starts with the first one, and rebuilding from the cleaned history gives the same. */
  lemma BuildClarifiedTopicSpec(history: seq<string>)
    ensures BuildClarifiedTopic(history).0 == [] <==> forall i :: 0 <= i < |history| ==> history[i] == []
    ensures |BuildClarifiedTopic(history).1| >= 1 ==>
      StartsWith(BuildClarifiedTopic(history).0, BuildClarifiedTopic(history).1[0])
    ensures BuildClarifiedTopic(BuildClarifiedTopic(history).1) == BuildClarifiedTopic(history)
  {
    var r := BuildClarifiedTopic(history);
    if exists i :: 0 <= i < |history| && history[i] != [] {
      var i :| 0 <= i < |history| && history[i] != [];
      NonEmptyItemsComplete(history, i);
      assert r.1[0] != [];
    }
  }

  /** The contents of the qualifying messages, in order. */
  function UserContents(ms: seq<AnyMessage>): seq<Value>
    decreases |ms|
  {
    if |ms| == 0 then []
    else
      var init := UserContents(ms[..|ms| - 1]);
      if Qualifies(ms[|ms| - 1]) then init + [MessageContent(ms[|ms| - 1])] else init
  }

  /** Consecutive repeats collapsed to one. */
  function Collapse(xs: seq<Value>): (r: seq<Value>)
    ensures |r| <= |xs| && (r == [] <==> xs == [])
    decreases |xs|
  {
    if |xs| == 0 then []
    else
      var c := Collapse(xs[..|xs| - 1]);
      if |c| > 0 && c[|c| - 1] == xs[|xs| - 1] then c else c + [xs[|xs| - 1]]
  }

  /** One more message extends the collapsed contents of the shorter prefix. */
  lemma HistoryStep(ms: seq<AnyMessage>, i: nat)
    requires i < |ms|
    ensures var c := Collapse(UserContents(ms[..i]));
      var x := MessageContent(ms[i]);
      Collapse(UserContents(ms[..i + 1])) ==
        if Qualifies(ms[i]) && !(|c| > 0 && c[|c| - 1] == x) then c + [x] else c
  {
    var p := ms[..i + 1];
    assert p[..i] == ms[..i];
    var u := UserContents(ms[..i]);
    if Qualifies(ms[i]) {
      assert UserContents(p) == u + [MessageContent(ms[i])];
      assert (u + [MessageContent(ms[i])])[..|u|] == u;
    }
  }

  /** After collapsing no two neighbours are equal, and every item comes from the input. */
  lemma {:induction false} CollapseSpec(xs: seq<Value>)
    ensures forall i :: 0 <= i < |Collapse(xs)| - 1 ==> Collapse(xs)[i] != Collapse(xs)[i + 1]
    ensures forall v :: v in Collapse(xs) ==> v in xs
    decreases |xs|
  {
    if |xs| > 0 {
      CollapseSpec(xs[..|xs| - 1]);
    }
  }

  lemma {:induction false} UserContentsTruthy(ms: seq<AnyMessage>)
    ensures forall v :: v in UserContents(ms) ==> Truthy(v)
    decreases |ms|
  {
    if |ms| > 0 {
      UserContentsTruthy(ms[..|ms| - 1]);
    }
  }

  /** What `reconstruct_clarification_history` returns: the collapsed user contents, else
      the non-empty fallback items, else the stripped base topic when non-empty. */
  function ReconstructedHistory(ms: seq<AnyMessage>, fallback: seq<string>, baseTopic: string): seq<Value>
  {
    var c := Collapse(UserContents(ms));
    if c != [] then c
    else
      var f := NonEmptyItems(fallback);
      if f != [] then StrList(f).items
      else if Strip(baseTopic) != [] then [Str(Strip(baseTopic))]
      else []
  }

  /** Every item of the rebuilt history is non-empty, and taken from the user contents
      (without neighbouring repeats) whenever there are any. */
  lemma ReconstructedHistorySpec(ms: seq<AnyMessage>, fallback: seq<string>, baseTopic: string)
    ensures forall v :: v in ReconstructedHistory(ms, fallback, baseTopic) ==> Truthy(v)
    ensures UserContents(ms) != [] ==>
      var h := ReconstructedHistory(ms, fallback, baseTopic);
      (forall v :: v in h ==> v in UserContents(ms)) && forall i :: 0 <= i < |h| - 1 ==> h[i] != h[i + 1]
    ensures UserContents(ms) == [] && NonEmptyItems(fallback) == [] ==>
      ReconstructedHistory(ms, fallback, baseTopic) == (if Strip(baseTopic) != [] then [Str(Strip(baseTopic))] else [])
  {
    CollapseSpec(UserContents(ms));
    UserContentsTruthy(ms);
    var f := NonEmptyItems(fallback);
    assert forall i :: 0 <= i < |f| ==> StrList(f).items[i] == Str(f[i]);
  }

  /** `reconstruct_clarification_history`, as the loop is written. */
  method ReconstructClarificationHistory(ms: seq<AnyMessage>, fallback: seq<string>, baseTopic: string)
    returns (r: seq<Value>)
    ensures r == ReconstructedHistory(ms, fallback, baseTopic)
  {
    var sequence: seq<Value> := [];
    var i := 0;
    while i < |ms|
      invariant 0 <= i <= |ms|
      invariant sequence == Collapse(UserContents(ms[..i]))
    {
      HistoryStep(ms, i);
      var message := ms[i];
      if IsUserMessage(message) {
        var content := MessageContent(message);
        if Truthy(content) && !(|sequence| > 0 && sequence[|sequence| - 1] == content) {
          sequence := sequence + [content];
        }
      }
      i := i + 1;
    }
    assert ms[..i] == ms;
    if sequence != [] {
      return sequence;
    }
    var cleaned := NonEmptyItems(fallback);
    if cleaned != [] {
      return StrList(cleaned).items;
    }
    var base := Strip(baseTopic);
    r := if base != [] then [Str(base)] else [];
  }

  // ---------------------------------------------------------------------------
  // Meta fields.

  const MetaKeys: set<string> := {"locale", "research_topic", "clarified_research_topic",
    "clarification_history", "enable_clarification", "max_clarification_rounds",
    "clarification_rounds", "resources"}

  /** The default each meta field takes when the state lacks it. */
  function MetaDefault(k: string): Field
  {
    if k == "locale" then Val(Str("en-US"))
    else if k == "research_topic" || k == "clarified_research_topic" then Val(Str(""))
    else if k == "clarification_history" then Val(List([]))
    else if k == "enable_clarification" then Val(Bool(false))
    else if k == "max_clarification_rounds" then Val(Num(3.0))
    else if k == "clarification_rounds" then Val(Num(0.0))
    else Resources([])
  }

  /** `preserve_state_meta_fields`: exactly the eight meta keys, each carrying the
      state's value or its default. */
  function PreserveStateMetaFields(state: State): (r: map<string, Field>)
    ensures r.Keys == MetaKeys
    ensures forall k :: k in r ==> r[k] == (if k in state then state[k] else MetaDefault(k))
  {
    map k | k in MetaKeys :: GetField(state, k, MetaDefault(k))
  }

  /** The defaults are the ones the state declares: "en-US", "", "", [], False, 3, 0, []. */
  lemma MetaDefaults()
    ensures PreserveStateMetaFields(map[]) == map["locale" := Val(Str("en-US")),
      "research_topic" := Val(Str("")), "clarified_research_topic" := Val(Str("")),
      "clarification_history" := Val(List([])), "enable_clarification" := Val(Bool(false)),
      "max_clarification_rounds" := Val(Num(3.0)), "clarification_rounds" := Val(Num(0.0)),
      "resources" := Resources([])]
  {
  }

  /** Handing the meta fields on is stable: a state updated with them yields them again,
      so no meta field reverts to its default along the workflow. */
  lemma PreserveStable(state: State)
    ensures PreserveStateMetaFields(PreserveStateMetaFields(state)) == PreserveStateMetaFields(state)
    ensures PreserveStateMetaFields(state + PreserveStateMetaFields(state)) == PreserveStateMetaFields(state)
  {
  }

  // ---------------------------------------------------------------------------
  // Plan text.

  /** The forms the decomposition output takes: text, a plan model (whose JSON dump may
      fail), an object carrying a `content` attribute, a dict, or anything else. `shown`
      is the object's `str()`. */
  datatype SubquestionsData =
    | Text(s: string)
    | PlanModel(json: Result<string, string>, shown: string)
    | Carrier(content: Value, shown: string)
    | DictData(entries: seq<(string, Value)>)
    | OtherData(shown: string)

  /** The first item of a content list that is a dict with type "text". */
  function FirstTextItem(items: seq<Value>): (r: Option<nat>)
    ensures r.Some? ==> r.value < |items| && IsTextItem(items[r.value])
    ensures r.Some? ==> forall j :: 0 <= j < r.value ==> !IsTextItem(items[j])
    ensures r.None? ==> forall j :: 0 <= j < |items| ==> !IsTextItem(items[j])
    decreases |items|
  {
    if |items| == 0 then None
    else if IsTextItem(items[0]) then Some(0)
    else match FirstTextItem(items[1..])
      case Some(i) => Some(i + 1)
      case None => None
  }

  predicate IsTextItem(v: Value)
  {
    v.Dict? && Lookup(v.entries, "type") == Some(Str("text"))
  }

  /** `extract_subquestions_content`. `dumps` is `json.dumps(..., ensure_ascii=False)` and
      `show` is `str()`; the only failure is a content list without a text part. */
  function ExtractSubquestionsContent(data: SubquestionsData, dumps: Value -> string, show: Value -> string)
    : (r: Result<Value, string>)
    ensures data.Text? ==> r == Ok(Str(data.s))
    ensures data.PlanModel? ==> r == Ok(Str(if data.json.Ok? then data.json.value else data.shown))
    ensures r.Err? <==> (data.DictData? && Lookup(data.entries, "content").Some? &&
                         Lookup(data.entries, "content").value.List? &&
                         FirstTextItem(Lookup(data.entries, "content").value.items).None?)
  {
    match data
    case Text(s) => Ok(Str(s))
    case PlanModel(json, shown) => Ok(Str(if json.Ok? then json.value else shown))
    case Carrier(content, shown) => Ok(Str(if content.Str? then content.s else shown))
    case DictData(es) =>
      (match Lookup(es, "content")
       case None => Ok(Str(dumps(Dict(es))))
       case Some(Str(c)) => Ok(Str(c))
       case Some(Dict(d)) => Ok(Str(dumps(Dict(d))))
       case Some(List(items)) =>
         (match FirstTextItem(items)
          case Some(i) => Ok(Lookup(items[i].entries, "text").GetOr(Str("")))
          case None => Err("ValueError: No valid text content found in multimodal list"))
       case Some(other) => Ok(Str(show(other))))
    case OtherData(shown) => Ok(Str(shown))
  }

  /** A multimodal content list yields the text of its first text part. */
  lemma ExtractFromContentList(es: seq<(string, Value)>, i: nat, dumps: Value -> string, show: Value -> string)
    requires Lookup(es, "content").Some? && Lookup(es, "content").value.List?
    requires var items := Lookup(es, "content").value.items;
      i < |items| && IsTextItem(items[i]) && forall j :: 0 <= j < i ==> !IsTextItem(items[j])
    ensures ExtractSubquestionsContent(DictData(es), dumps, show) ==
      Ok(Lookup(Lookup(es, "content").value.items[i].entries, "text").GetOr(Str("")))
  {
    var items := Lookup(es, "content").value.items;
    var k := FirstTextItem(items);
    assert k == Some(i);
  }

  // ---------------------------------------------------------------------------
  // Plan repair.

  /** The step added when a plan must search but has no questions. */
  const DefaultStep: Value := Dict([("need_search", Bool(true)), ("question", Str("Initial Research")),
    ("description", Str("Gather information about the topic")), ("step_type", Str("research"))])

  function ItemField(q: Value, k: string, default: Value): Value
    requires q.Dict?
  {
    Lookup(q.entries, k).GetOr(default)
  }

  /** A dict question with a missing or empty step_type gets "research" when it needs a
      search and "analysis" otherwise; anything else is left alone. */
  function RepairStepType(q: Value): (r: Value)
    ensures !q.Dict? ==> r == q
    ensures q.Dict? ==> r.Dict? && Truthy(ItemField(r, "step_type", Null))
    ensures q.Dict? && Truthy(ItemField(q, "step_type", Null)) ==> r == q
    ensures q.Dict? && !Truthy(ItemField(q, "step_type", Null)) ==>
      ItemField(r, "step_type", Null) == Str(if Truthy(ItemField(q, "need_search", Bool(false))) then "research" else "analysis")
    ensures q.Dict? ==> forall k :: k != "step_type" ==> Lookup(r.entries, k) == Lookup(q.entries, k)
  {
    if q.Dict? && !Truthy(ItemField(q, "step_type", Null)) then
      var t := Str(if Truthy(ItemField(q, "need_search", Bool(false))) then "research" else "analysis");
      PutLookupAll(q.entries, "step_type", t);
      Dict(Put(q.entries, "step_type", t))
    else q
  }

  lemma PutLookupAll(es: seq<(string, Value)>, k: string, v: Value)
    ensures Lookup(Put(es, k, v), k) == Some(v)
    ensures forall k' :: k' != k ==> Lookup(Put(es, k, v), k') == Lookup(es, k')
  {
    PutLookup(es, k, v, k);
    forall k' | k' != k ensures Lookup(Put(es, k, v), k') == Lookup(es, k') {
      PutLookup(es, k, v, k');
    }
  }

  function RepairAll(items: seq<Value>): (r: seq<Value>)
    ensures |r| == |items| && forall i :: 0 <= i < |items| ==> r[i] == RepairStepType(items[i])
  {
    seq(|items|, i requires 0 <= i < |items| => RepairStepType(items[i]))
  }

  /** Every dict question has a non-empty step_type. */
  predicate Repaired(items: seq<Value>)
  {
    forall i :: 0 <= i < |items| ==> items[i].Dict? ==> Truthy(ItemField(items[i], "step_type", Null))
  }

  predicate NeedsSearch(q: Value)
  {
    q.Dict? && Truthy(ItemField(q, "need_search", Bool(false)))
  }

  predicate HasSearchStep(items: seq<Value>)
  {
    exists i :: 0 <= i < |items| && NeedsSearch(items[i])
  }

  predicate IsResearch(q: Value)
  {
    q.Dict? && Lookup(q.entries, "step_type") == Some(Str("research"))
  }

  function FirstResearch(items: seq<Value>): (r: Option<nat>)
    ensures r.Some? ==> r.value < |items| && IsResearch(items[r.value])
    ensures r.Some? ==> forall j :: 0 <= j < r.value ==> !IsResearch(items[j])
    ensures r.None? ==> forall j :: 0 <= j < |items| ==> !IsResearch(items[j])
    decreases |items|
  {
    if |items| == 0 then None
    else if IsResearch(items[0]) then Some(0)
    else match FirstResearch(items[1..])
      case Some(i) => Some(i + 1)
      case None => None
  }

  function SetSearch(q: Value): Value
    requires q.Dict?
  {
    Dict(Put(q.entries, "need_search", Bool(true)))
  }

  function MakeResearch(q: Value): Value
    requires q.Dict?
  {
    Dict(Put(Put(q.entries, "step_type", Str("research")), "need_search", Bool(true)))
  }

  /** The question list after the web-search enforcement: unchanged when off or when some
      dict question already searches; otherwise the first research question is made to
      search, else question 0 (when a dict) becomes a searching research step, and an
      empty list gets the default step. */
  function Enforced(items: seq<Value>, on: bool): seq<Value>
  {
    if !on || HasSearchStep(items) then items
    else if |items| == 0 then [DefaultStep]
    else match FirstResearch(items)
      case Some(i) => items[i := SetSearch(items[i])]
      case None => if items[0].Dict? then items[0 := MakeResearch(items[0])] else items
  }

  /** The top-level defaults: has_enough_context False when absent, and an empty title
      replaced by the thought or "Decomposition Result". */
  function FixedTop(es: seq<(string, Value)>): seq<(string, Value)>
  {
    FixedTitle(FixedContextFlag(es))
  }

  /** has_enough_context set to False when absent. */
  function FixedContextFlag(es: seq<(string, Value)>): seq<(string, Value)>
  {
    if Lookup(es, "has_enough_context").None? then Put(es, "has_enough_context", Bool(false)) else es
  }

  /** An empty title replaced by the thought or "Decomposition Result". */
  function FixedTitle(es: seq<(string, Value)>): seq<(string, Value)>
  {
    if Truthy(Lookup(es, "title").GetOr(Null)) then es
    else
      var thought := Lookup(es, "thought").GetOr(Str(""));
      Put(es, "title", if Truthy(thought) then thought else Str("Decomposition Result"))
  }

  /** `validate_and_fix_subquestions`, on values: the plan dict after its in-place repair.
      Iterating a `questions` value that is null, a boolean or a number raises `TypeError`,
      and indexing a non-empty dict with 0 raises `KeyError`. */
  function FixedPlan(plan: Value, enforce: bool, enable: bool): (r: Result<Value, string>)
    ensures !plan.Dict? ==> r == Ok(plan)
    ensures r.Ok? ==> r.value.Dict? == plan.Dict?
  {
    if !plan.Dict? then Ok(plan)
    else
      var on := enforce && enable;
      var es := FixedTop(plan.entries);
      match Lookup(es, "questions").GetOr(List([]))
      case List(items) =>
        var qs := Enforced(RepairAll(items), on);
        Ok(Dict(if Lookup(es, "questions").Some? || on then Put(es, "questions", List(qs)) else es))
      case Str(s) =>
        Ok(Dict(if on && s == [] then Put(es, "questions", List([DefaultStep])) else es))
      case Dict(d) =>
        if !on then Ok(Dict(es))
        else if d == [] then Ok(Dict(Put(es, "questions", List([DefaultStep]))))
        else Err("KeyError: 0")
      case _ => Err("TypeError: object is not iterable")
  }

  /** Section 1 of `validate_and_fix_subquestions`: the step-type repair loop. */
  method RepairStepTypes(original: seq<Value>) returns (items: seq<Value>)
    ensures items == RepairAll(original)
  {
    items := original;
    var i := 0;
    while i < |items|
      invariant 0 <= i <= |items| == |original|
      invariant forall j :: 0 <= j < i ==> items[j] == RepairStepType(original[j])
      invariant forall j :: i <= j < |items| ==> items[j] == original[j]
    {
      if items[i].Dict? && !Truthy(ItemField(items[i], "step_type", Null)) {
        var inferred := if Truthy(ItemField(items[i], "need_search", Bool(false))) then "research" else "analysis";
        items := items[i := Dict(Put(items[i].entries, "step_type", Str(inferred)))];
      }
      i := i + 1;
    }
  }

  /** Section 2: the scan for a searching step, then for the first research step. */
  method EnforceWebSearch(original: seq<Value>, on: bool) returns (items: seq<Value>)
    ensures items == Enforced(original, on)
  {
    items := original;
    if !on {
      return;
    }
    var hasSearch := false;
    var i := 0;
    while i < |items| && !hasSearch
      invariant 0 <= i <= |items|
      invariant hasSearch <==> exists j :: 0 <= j < i && NeedsSearch(items[j])
    {
      if NeedsSearch(items[i]) {
        hasSearch := true;
      }
      i := i + 1;
    }
    assert hasSearch <==> HasSearchStep(items);
    if !hasSearch && |items| > 0 {
      var k := 0;
      while k < |items| && !IsResearch(items[k])
        invariant 0 <= k <= |items|
        invariant forall j :: 0 <= j < k ==> !IsResearch(items[j])
      {
        k := k + 1;
      }
      if k < |items| {
        assert FirstResearch(items) == Some(k);
        items := items[k := SetSearch(items[k])];
      } else if items[0].Dict? {
        items := items[0 := MakeResearch(items[0])];
      }
    } else if !hasSearch {
      items := [DefaultStep];
    }
  }

  /** `validate_and_fix_subquestions`: the top-level defaults, then both sections on the
      question list, which the plan holds (and so sees changed) when it has one. */
  method ValidateAndFixSubquestions(plan: Value, enforce: bool, enable: bool) returns (r: Result<Value, string>)
    ensures r == FixedPlan(plan, enforce, enable)
  {
    if !plan.Dict? {
      return Ok(plan);
    }
    var es := plan.entries;
    if Lookup(es, "has_enough_context").None? {
      es := Put(es, "has_enough_context", Bool(false));
    }
    if !Truthy(Lookup(es, "title").GetOr(Null)) {
      var thought := Lookup(es, "thought").GetOr(Str(""));
      es := Put(es, "title", if Truthy(thought) then thought else Str("Decomposition Result"));
    }
    assert es == FixedTop(plan.entries);
    var on := enforce && enable;
    var questions := Lookup(es, "questions").GetOr(List([]));
    match questions {
      case List(original) =>
        var items := RepairStepTypes(original);
        items := EnforceWebSearch(items, on);
        if Lookup(es, "questions").Some? || on {
          es := Put(es, "questions", List(items));
        }
        r := Ok(Dict(es));
      case Str(text) =>
        if on && text == [] {
          es := Put(es, "questions", List([DefaultStep]));
        }
        r := Ok(Dict(es));
      case Dict(d) =>
        if !on {
          r := Ok(Dict(es));
        } else if d == [] {
          r := Ok(Dict(Put(es, "questions", List([DefaultStep]))));
        } else {
          r := Err("KeyError: 0");
        }
      case _ =>
        r := Err("TypeError: object is not iterable");
    }
  }

  /** The top-level fields every repaired plan has. */
  predicate TopFixed(es: seq<(string, Value)>)
  {
    Lookup(es, "has_enough_context").Some? && Truthy(Lookup(es, "title").GetOr(Null))
  }

  lemma FixedTopSpec(es: seq<(string, Value)>)
    ensures TopFixed(FixedTop(es))
    ensures TopFixed(es) ==> FixedTop(es) == es
    ensures Lookup(es, "has_enough_context").Some? ==>
      Lookup(FixedTop(es), "has_enough_context") == Lookup(es, "has_enough_context")
    ensures Lookup(es, "has_enough_context").None? ==>
      Lookup(FixedTop(es), "has_enough_context") == Some(Bool(false))
    ensures Truthy(Lookup(es, "title").GetOr(Null)) ==> Lookup(FixedTop(es), "title") == Lookup(es, "title")
    ensures forall k :: k != "has_enough_context" && k != "title" ==> Lookup(FixedTop(es), k) == Lookup(es, k)
  {
    FixedContextFlagSpec(es);
    FixedTitleSpec(FixedContextFlag(es));
  }

  lemma FixedContextFlagSpec(es: seq<(string, Value)>)
    ensures var r := FixedContextFlag(es);
      Lookup(r, "has_enough_context").Some? &&
      (Lookup(es, "has_enough_context").Some? ==> r == es) &&
      (Lookup(es, "has_enough_context").None? ==> Lookup(r, "has_enough_context") == Some(Bool(false))) &&
      forall k :: k != "has_enough_context" ==> Lookup(r, k) == Lookup(es, k)
  {
    PutLookupAll(es, "has_enough_context", Bool(false));
  }

  lemma FixedTitleSpec(es: seq<(string, Value)>)
    ensures var r := FixedTitle(es);
      Truthy(Lookup(r, "title").GetOr(Null)) &&
      (Truthy(Lookup(es, "title").GetOr(Null)) ==> r == es) &&
      forall k :: k != "title" ==> Lookup(r, k) == Lookup(es, k)
  {
    if !Truthy(Lookup(es, "title").GetOr(Null)) {
      var thought := Lookup(es, "thought").GetOr(Str(""));
      PutLookupAll(es, "title", if Truthy(thought) then thought else Str("Decomposition Result"));
    }
  }

  lemma TopFixedPut(es: seq<(string, Value)>, k: string, v: Value)
    requires TopFixed(es) && k != "has_enough_context" && k != "title"
    ensures TopFixed(Put(es, k, v))
  {
    PutLookupAll(es, k, v);
  }

  /** A repaired plan: every field but `questions` is the one `FixedTop` gives, so the
      defaults for has_enough_context and title are applied and present values kept. */
  lemma FixedPlanTopFields(plan: Value, enforce: bool, enable: bool)
    requires plan.Dict? && FixedPlan(plan, enforce, enable).Ok?
    ensures var r := FixedPlan(plan, enforce, enable).value.entries;
      TopFixed(r) &&
      (forall k :: k != "questions" ==> Lookup(r, k) == Lookup(FixedTop(plan.entries), k)) &&
      (Lookup(plan.entries, "has_enough_context").Some? ==>
        Lookup(r, "has_enough_context") == Lookup(plan.entries, "has_enough_context")) &&
      (Lookup(plan.entries, "has_enough_context").None? ==> Lookup(r, "has_enough_context") == Some(Bool(false))) &&
      (Truthy(Lookup(plan.entries, "title").GetOr(Null)) ==> Lookup(r, "title") == Lookup(plan.entries, "title"))
  {
    var es := FixedTop(plan.entries);
    var r := FixedPlan(plan, enforce, enable).value.entries;
    var v := FixedPlanPuts(plan, enforce, enable);
    assert forall k :: k != "questions" ==> Lookup(r, k) == Lookup(es, k) by {
      PutLookupAll(es, "questions", v);
    }
    assert |"questions"| != |"title"| && |"questions"| != |"has_enough_context"|;
    assert Lookup(r, "has_enough_context") == Lookup(es, "has_enough_context");
    assert Lookup(r, "title") == Lookup(es, "title");
    FixedTopSpec(plan.entries);
  }

  /** The repair leaves the top-level fixes alone or puts a new `questions` value. */
  lemma FixedPlanPuts(plan: Value, enforce: bool, enable: bool) returns (v: Value)
    requires plan.Dict? && FixedPlan(plan, enforce, enable).Ok?
    ensures var r := FixedPlan(plan, enforce, enable).value;
      r.Dict? && (r.entries == FixedTop(plan.entries) || r.entries == Put(FixedTop(plan.entries), "questions", v))
  {
    var es := FixedTop(plan.entries);
    var q := Lookup(es, "questions").GetOr(List([]));
    v := if q.List? then List(Enforced(RepairAll(q.items), enforce && enable)) else List([DefaultStep]);
  }

  lemma RepairAllRepaired(items: seq<Value>)
    ensures Repaired(RepairAll(items))
  {
  }

  lemma RepairAllIdentity(items: seq<Value>)
    requires Repaired(items)
    ensures RepairAll(items) == items
  {
  }

  lemma SetSearchSpec(q: Value)
    requires q.Dict?
    ensures NeedsSearch(SetSearch(q))
    ensures forall k :: k != "need_search" ==> Lookup(SetSearch(q).entries, k) == Lookup(q.entries, k)
  {
    PutLookupAll(q.entries, "need_search", Bool(true));
  }

  lemma MakeResearchSpec(q: Value)
    requires q.Dict?
    ensures NeedsSearch(MakeResearch(q)) && IsResearch(MakeResearch(q))
  {
    var es := Put(q.entries, "step_type", Str("research"));
    PutLookupAll(q.entries, "step_type", Str("research"));
    PutLookupAll(es, "need_search", Bool(true));
  }

  lemma DefaultStepSpec()
    ensures NeedsSearch(DefaultStep) && IsResearch(DefaultStep) && Repaired([DefaultStep])
    ensures HasSearchStep([DefaultStep])
  {
    assert NeedsSearch([DefaultStep][0]);
  }

  /** The enforcement leaves every step type non-empty, and either some dict question
      searches afterwards or nothing could be changed: the list is non-empty, holds no
      research question, and question 0 is not a dict. */
  lemma EnforcedSpec(items: seq<Value>, on: bool)
    ensures Repaired(items) ==> Repaired(Enforced(items, on))
    ensures on ==> (HasSearchStep(Enforced(items, on)) ||
                    (Enforced(items, on) == items && |items| > 0 && !items[0].Dict? &&
                     forall i :: 0 <= i < |items| ==> !IsResearch(items[i])))
    ensures Enforced(Enforced(items, on), on) == Enforced(items, on)
  {
    DefaultStepSpec();
    if on && !HasSearchStep(items) && |items| > 0 {
      match FirstResearch(items)
      case Some(i) =>
        var r := items[i := SetSearch(items[i])];
        SetSearchSpec(items[i]);
        assert NeedsSearch(r[i]);
        if Repaired(items) {
          assert Truthy(ItemField(r[i], "step_type", Null));
        }
      case None =>
        if items[0].Dict? {
          var r := items[0 := MakeResearch(items[0])];
          MakeResearchSpec(items[0]);
          assert NeedsSearch(r[0]);
        }
    }
  }

  /** With enforcement on and no question (or an empty `questions`), the plan gets
      exactly the default research step. */
  lemma FixedPlanDefaultStep(plan: Value, enforce: bool, enable: bool)
    requires plan.Dict? && enforce && enable
    requires var q := Lookup(plan.entries, "questions");
      q.None? || q == Some(List([])) || q == Some(Str([])) || q == Some(Dict([]))
    ensures FixedPlan(plan, enforce, enable).Ok?
    ensures Lookup(FixedPlan(plan, enforce, enable).value.entries, "questions") == Some(List([DefaultStep]))
  {
    FixedTopSpec(plan.entries);
    var es := FixedTop(plan.entries);
    PutLookupAll(es, "questions", List([DefaultStep]));
  }

  /** Every dict question of a repaired plan has a step type, and with enforcement on some
      dict question searches unless no question could be made to (see `EnforcedSpec`). */
  lemma FixedPlanQuestions(plan: Value, enforce: bool, enable: bool, qs: seq<Value>)
    requires plan.Dict? && FixedPlan(plan, enforce, enable).Ok?
    requires Lookup(FixedPlan(plan, enforce, enable).value.entries, "questions") == Some(List(qs))
    ensures Repaired(qs)
    ensures enforce && enable ==> (HasSearchStep(qs) ||
                                   (|qs| > 0 && !qs[0].Dict? && forall i :: 0 <= i < |qs| ==> !IsResearch(qs[i])))
  {
    var on := enforce && enable;
    var es := FixedTop(plan.entries);
    FixedTopSpec(plan.entries);
    DefaultStepSpec();
    var q := Lookup(es, "questions").GetOr(List([]));
    if q.List? {
      var fixed := Enforced(RepairAll(q.items), on);
      RepairAllRepaired(q.items);
      EnforcedSpec(RepairAll(q.items), on);
      PutLookupAll(es, "questions", List(fixed));
    } else {
      PutLookupAll(es, "questions", List([DefaultStep]));
    }
  }

  /** The plans a repair leaves unchanged. */
  predicate Stable(q: Option<Value>, on: bool)
  {
    match q
    case None => !on
    case Some(List(qs)) => Repaired(qs) && Enforced(qs, on) == qs
    case Some(Str(s)) => !on || s != []
    case Some(Dict(d)) => !on
    case Some(_) => false
  }

  lemma StablePlanUnchanged(es: seq<(string, Value)>, enforce: bool, enable: bool)
    requires TopFixed(es) && Stable(Lookup(es, "questions"), enforce && enable)
    ensures FixedPlan(Dict(es), enforce, enable) == Ok(Dict(es))
  {
    FixedTopSpec(es);
    var q := Lookup(es, "questions");
    if q.Some? && q.value.List? {
      RepairAllIdentity(q.value.items);
      PutSame(es, "questions", q.value);
    }
  }

  lemma RepairedPlanStable(plan: Value, enforce: bool, enable: bool)
    requires plan.Dict? && FixedPlan(plan, enforce, enable).Ok?
    ensures TopFixed(FixedPlan(plan, enforce, enable).value.entries)
    ensures Stable(Lookup(FixedPlan(plan, enforce, enable).value.entries, "questions"), enforce && enable)
  {
    var on := enforce && enable;
    var es := FixedTop(plan.entries);
    FixedTopSpec(plan.entries);
    DefaultStepSpec();
    assert Enforced([DefaultStep], on) == [DefaultStep];
    var q := Lookup(es, "questions").GetOr(List([]));
    if q.List? {
      var fixed := Enforced(RepairAll(q.items), on);
      RepairAllRepaired(q.items);
      EnforcedSpec(RepairAll(q.items), on);
      PutLookupAll(es, "questions", List(fixed));
      TopFixedPut(es, "questions", List(fixed));
    } else {
      PutLookupAll(es, "questions", List([DefaultStep]));
      TopFixedPut(es, "questions", List([DefaultStep]));
    }
  }

  /** Repairing a repaired plan changes nothing. */
  lemma FixedPlanIdempotent(plan: Value, enforce: bool, enable: bool)
    requires FixedPlan(plan, enforce, enable).Ok?
    ensures FixedPlan(FixedPlan(plan, enforce, enable).value, enforce, enable) == FixedPlan(plan, enforce, enable)
  {
    if plan.Dict? {
      RepairedPlanStable(plan, enforce, enable);
      StablePlanUnchanged(FixedPlan(plan, enforce, enable).value.entries, enforce, enable);
    }
  }
}
