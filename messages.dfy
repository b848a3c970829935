// Chat messages as the workflow passes them around (LangChain message objects).
module Messages {
  import opened Wrappers
  import opened Values

  /** The message classes the core tells apart; any other class keeps its `type` tag. */
  datatype Kind = Human | AI | System | Tool | OtherKind(tag: string)

  /** One entry of `tool_calls`: the tool's name and its argument dict. */
  datatype ToolCall = ToolCall(name: string, args: Value, id: string)

  /** A message object: its class, `content` (a string, a list of parts, or anything a
      caller stored there), the optional `name` and `role` attributes, `tool_calls` and
      `additional_kwargs`. */
  datatype Message = Message(
    kind: Kind,
    content: Value,
    name: Option<string>,
    role: Option<string>,
    toolCalls: seq<ToolCall>,
    additionalKwargs: seq<(string, Value)>)

  /** `message.type`. */
  function TypeTag(k: Kind): (r: string)
    ensures k.OtherKind? || r in ["human", "ai", "system", "tool"]
  {
    match k
    case Human => "human"
    case AI => "ai"
    case System => "system"
    case Tool => "tool"
    case OtherKind(tag) => tag
  }

  /** A message of class `k` carrying only text content. */
  function TextMessage(k: Kind, text: string, name: Option<string>): (m: Message)
    ensures m.kind == k && m.content == Str(text) && m.name == name
    ensures m.toolCalls == [] && m.additionalKwargs == [] && m.role == None
  {
    Message(k, Str(text), name, None, [], [])
  }

  /** `getattr(message, "name", "") or ""`. */
  function NameOf(m: Message): (r: string)
    ensures m.name.Some? ==> r == m.name.value
    ensures m.name.None? ==> r == []
  {
    m.name.GetOr([])
  }
}
