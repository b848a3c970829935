// The workflow's shared state and the commands its nodes return (graph/types.py and
// langgraph's `Command`).
module GraphTypes {
  import opened Wrappers
  import opened Values
  import opened Messages
  import opened DecomposerModel
  import opened CitationExtraction
  import opened Retriever

  /** What a state key can hold: a JSON-like value, the message list, the plan slot,
      the citation dicts or the resource objects. */
  datatype Field =
    | Val(v: Value)
    | Msgs(ms: seq<Message>)
    | PlanField(slot: PlanSlot)
    | Cites(cs: seq<CitationDict>)
    | Resources(rs: seq<Resource>)

  /** The graph state: keys are present once some node (or the caller) has set them. */
  type State = map<string, Field>

  /** `Command(update=..., goto=...)`. */
  datatype Command = Command(update: map<string, Field>, goto: string)

  /** `state.get(k, default)`. */
  function GetField(state: State, k: string, default: Field): (r: Field)
    ensures k in state ==> r == state[k]
    ensures k !in state ==> r == default
  {
    if k in state then state[k] else default
  }

  /** A text-valued key, or the default when absent or not text. */
  function GetText(state: State, k: string, default: string): (r: string)
    ensures (k in state && state[k].Val? && state[k].v.Str?) ==> r == state[k].v.s
  {
    if k in state && state[k].Val? && state[k].v.Str? then state[k].v.s else default
  }

  /** The truthiness of a field's value. */
  predicate FieldTruthy(f: Field)
  {
    match f
    case Val(v) => Truthy(v)
    case Msgs(ms) => ms != []
    case PlanField(p) => !p.NoPlan? && !(p.PlanText? && p.text == [])
    case Cites(cs) => cs != []
    case Resources(rs) => rs != []
  }

  /** The truthiness of a key's value, absent counting as `default`. */
  function GetFlag(state: State, k: string, default: bool): (r: bool)
    ensures k !in state ==> r == default
    ensures k in state ==> r == FieldTruthy(state[k])
  {
    if k !in state then default else FieldTruthy(state[k])
  }

  /** The message list, `[]` when absent. */
  function GetMessages(state: State): (r: seq<Message>)
    ensures ("messages" in state && state["messages"].Msgs?) ==> r == state["messages"].ms
  {
    if "messages" in state && state["messages"].Msgs? then state["messages"].ms else []
  }

  /** The plan slot, `NoPlan` when absent. */
  function GetPlan(state: State): (r: PlanSlot)
    ensures ("son_questions" in state && state["son_questions"].PlanField?) ==> r == state["son_questions"].slot
  {
    if "son_questions" in state && state["son_questions"].PlanField? then state["son_questions"].slot else NoPlan
  }

  /** The citation list, `[]` when absent. */
  function GetCitations(state: State): (r: seq<CitationDict>)
    ensures ("citations" in state && state["citations"].Cites?) ==> r == state["citations"].cs
  {
    if "citations" in state && state["citations"].Cites? then state["citations"].cs else []
  }
}
