// The human-in-the-loop tool gate (agents/tool_interceptor.py): selected tools ask for
// approval through an interrupt before they run. The interrupt, the tools' own
// functions and `json.dumps`/`str()` are parameters.
module ToolInterceptor {
  import opened Wrappers
  import opened Strings
  import opened Values

  /** The configured interceptor: `interrupt_before_tools or []`. */
  datatype Interceptor = Interceptor(interruptBeforeTools: seq<string>)

  function NewInterceptor(names: Option<seq<string>>): (i: Interceptor)
    ensures names.None? ==> i.interruptBeforeTools == []
    ensures names.Some? ==> i.interruptBeforeTools == names.value
  {
    Interceptor(if names.Some? then names.value else [])
  }

  predicate ShouldInterrupt(i: Interceptor, toolName: string)
  {
    toolName in i.interruptBeforeTools
  }

  /** An interceptor built without names never interrupts. */
  lemma UnconfiguredNeverInterrupts(toolName: string)
    ensures !ShouldInterrupt(NewInterceptor(None), toolName)
    ensures !ShouldInterrupt(NewInterceptor(Some([])), toolName)
  {
  }

  /** How the input is shown in the approval prompt: `indentedDumps` is
      `json.dumps(v, indent=2, default=str)` (`None` when it fails), `show` is `str()`. */
  function FormatToolInput(input: Value, indentedDumps: Value -> Option<string>, show: Value -> string)
    : (r: string)
    ensures input.Null? ==> r == "No input"
    ensures input.Str? ==> r == input.s
    ensures (input.Dict? || input.List?) && indentedDumps(input).Some? ==> r == indentedDumps(input).value
    ensures (input.Dict? || input.List?) && indentedDumps(input).None? ==> r == show(input)
    ensures (input.Bool? || input.Num?) ==> r == show(input)
  {
    match input
    case Null => "No input"
    case Dict(_) => (match indentedDumps(input) case Some(t) => t case None => show(input))
    case List(_) => (match indentedDumps(input) case Some(t) => t case None => show(input))
    case Str(s) => s
    case _ => show(input)
  }

  const ApprovalKeywords: seq<string> :=
    ["approved", "approve", "yes", "proceed", "continue", "ok", "okay", "accepted", "accept", "[approved]"]

  /** Whether one of `keywords` occurs in `text`, scanning in order. */
  function AnyKeyword(text: string, keywords: seq<string>): (r: bool)
    ensures r <==> exists k :: 0 <= k < |keywords| && Contains(text, keywords[k])
  {
    if |keywords| == 0 then false
    else if Contains(text, keywords[0]) then true
    else
      var r := AnyKeyword(text, keywords[1..]);
      assert forall k :: 1 <= k < |keywords| ==> keywords[k] == keywords[1..][k - 1];
      r
  }

  /** `_parse_approval`: falsy feedback rejects; text approves iff, lower-cased and
      stripped, it contains a keyword; feedback of any other type has no `lower` and
      raises. */
  function ParseApproval(feedback: Value): (r: Result<bool, string>)
    ensures !Truthy(feedback) ==> r == Ok(false)
    ensures Truthy(feedback) && feedback.Str? ==>
      r.Ok? && (r.value <==> exists k :: 0 <= k < |ApprovalKeywords| && Contains(Strip(Lower(feedback.s)), ApprovalKeywords[k]))
    ensures Truthy(feedback) && !feedback.Str? ==> r.Err?
  {
    if !Truthy(feedback) then Ok(false)
    else if feedback.Str? then Ok(AnyKeyword(Strip(Lower(feedback.s)), ApprovalKeywords))
    else Err("AttributeError: object has no attribute 'lower'")
  }

  /** Any keyword is a substring match, so a refusal that mentions one approves. */
  lemma NegatedOkayApproves()
    ensures ParseApproval(Str("not okay")) == Ok(true)
  {
    var t := "not okay";
    var okay := ApprovalKeywords[6];
    assert okay == "okay";
    assert Lower(t) == t by { LowerOfLowercase(t); }
    assert Strip(t) == t by { StripOfTrimmed(t); }
    assert okay <= t[4..];
    ContainsAt(t, 4, okay);
    assert AnyKeyword(t, ApprovalKeywords);
  }

  /** "do not proceed" approves as well. */
  lemma RefusalToProceedApproves()
    ensures ParseApproval(Str("do not proceed")) == Ok(true)
  {
    var t := "do not proceed";
    var proceed := ApprovalKeywords[3];
    assert proceed == "proceed";
    assert Lower(t) == t by { LowerOfLowercase(t); }
    assert Strip(t) == t by { StripOfTrimmed(t); }
    assert proceed <= t[7..];
    ContainsAt(t, 7, proceed);
    assert AnyKeyword(t, ApprovalKeywords);
  }

  /** Feedback without any keyword rejects. */
  lemma PlainRefusalRejects()
    ensures ParseApproval(Str("")) == Ok(false)
    ensures ParseApproval(Null) == Ok(false)
  {
  }

  /** The call's arguments: `args[0] if args else kwargs` is what is shown. */
  datatype CallArgs = CallArgs(args: seq<Value>, kwargs: Value)

  function ToolInput(call: CallArgs): Value
  {
    if |call.args| > 0 then call.args[0] else call.kwargs
  }

  /** The text of the interrupt that asks for approval. */
  function ApprovalPrompt(toolName: string, inputRepr: string): string
  {
    "About to execute tool: '" + toolName + "'\n\nInput:\n" + inputRepr + "\n\nApprove execution?"
  }

  /** What an unapproved call returns instead of running the tool. */
  function Rejection(toolName: string): Value
  {
    Dict([("error", Str("Tool execution rejected by user")), ("tool", Str(toolName)), ("status", Str("rejected"))])
  }

  /** The foreign calls of an intercepted call: the interrupt (its exception is re-raised
      as `Err`) and the formatting of the input. */
  datatype GateEnv = GateEnv(
    interrupt: string -> Result<Value, string>,
    indentedDumps: Value -> Option<string>,
    show: Value -> string)

  /** The decision of `intercepted_func`: the original function runs (its result or its
      exception passed through) unless the tool is gated and the feedback does not
      approve. */
  function Intercept(i: Interceptor, toolName: string, call: CallArgs,
                     original: CallArgs -> Result<Value, string>, env: GateEnv): Result<Value, string>
  {
    if !ShouldInterrupt(i, toolName) then original(call)
    else
      var feedback :- env.interrupt(ApprovalPrompt(toolName, FormatToolInput(ToolInput(call), env.indentedDumps, env.show)));
      var approved :- ParseApproval(feedback);
      if approved then original(call) else Ok(Rejection(toolName))
  }

  /** A tool that is not gated behaves exactly like the original. */
  lemma UngatedRunsOriginal(i: Interceptor, toolName: string, call: CallArgs,
                            original: CallArgs -> Result<Value, string>, env: GateEnv)
    requires !ShouldInterrupt(i, toolName)
    ensures Intercept(i, toolName, call, original, env) == original(call)
  {
  }

  /** An unapproved gated call returns the rejection whatever the original would do: the
      original is not run. */
  lemma RejectedCallSkipsOriginal(i: Interceptor, toolName: string, call: CallArgs,
                                  original: CallArgs -> Result<Value, string>,
                                  other: CallArgs -> Result<Value, string>, env: GateEnv)
    requires ShouldInterrupt(i, toolName)
    requires var p := ApprovalPrompt(toolName, FormatToolInput(ToolInput(call), env.indentedDumps, env.show));
      env.interrupt(p).Ok? && ParseApproval(env.interrupt(p).value) == Ok(false)
    ensures Intercept(i, toolName, call, original, env) == Ok(Rejection(toolName))
    ensures Intercept(i, toolName, call, original, env) == Intercept(i, toolName, call, other, env)
  {
  }

  /** An approved gated call returns the original's result or re-raises its error. */
  lemma ApprovedCallRunsOriginal(i: Interceptor, toolName: string, call: CallArgs,
                                 original: CallArgs -> Result<Value, string>, env: GateEnv)
    requires ShouldInterrupt(i, toolName)
    requires var p := ApprovalPrompt(toolName, FormatToolInput(ToolInput(call), env.indentedDumps, env.show));
      env.interrupt(p).Ok? && ParseApproval(env.interrupt(p).value) == Ok(true)
    ensures Intercept(i, toolName, call, original, env) == original(call)
  {
  }

  /** A failing interrupt propagates out of the call. */
  lemma InterruptErrorEscapes(i: Interceptor, toolName: string, call: CallArgs,
                              original: CallArgs -> Result<Value, string>, env: GateEnv)
    requires ShouldInterrupt(i, toolName)
    requires env.interrupt(ApprovalPrompt(toolName, FormatToolInput(ToolInput(call), env.indentedDumps, env.show))).Err?
    ensures Intercept(i, toolName, call, original, env).Err?
  {
  }

  /** The function a tool runs: its own, or the gate around the function it had when it
      was wrapped. The gate reads the tool's name when it is called. */
  datatype ToolFunc = Own(id: nat) | Gated(original: ToolFunc, interceptor: Interceptor)

  /** A tool with its `func` attribute (`None` when the tool has none, so wrapping it
      fails) and its `_run` attribute (`None` when absent). */
  class Tool {
    var name: string
    var func: Option<ToolFunc>
    var run: Option<ToolFunc>

    constructor (name: string, func: Option<ToolFunc>, run: Option<ToolFunc>)
      ensures this.name == name && this.func == func && this.run == run
    {
      this.name := name;
      this.func := func;
      this.run := run;
    }
  }

  /** The gate applied `n` times around `f`. */
  function Wrapped(f: ToolFunc, i: Interceptor, n: nat): (g: ToolFunc)
    ensures n > 0 ==> g.Gated? && g.interceptor == i
  {
    if n == 0 then f else Gated(Wrapped(f, i, n - 1), i)
  }

  /** `wrap_tool`: reading `tool.func` fails for a tool without one, leaving the tool as
      it was; otherwise `func`, and `_run` when present, are both replaced by the gate
      around the old `func`. */
  method WrapTool(tool: Tool, i: Interceptor) returns (wrapped: bool)
    modifies tool
    ensures wrapped <==> old(tool.func).Some?
    ensures tool.name == old(tool.name)
    ensures !wrapped ==> tool.func == old(tool.func) && tool.run == old(tool.run)
    ensures wrapped ==> tool.func == Some(Gated(old(tool.func).value, i))
    ensures wrapped ==> tool.run == (if old(tool.run).Some? then tool.func else None)
  {
    if tool.func.None? {
      return false;
    }
    var gate := Gated(tool.func.value, i);
    tool.func := Some(gate);
    if tool.run.Some? {
      tool.run := Some(gate);
    }
    return true;
  }

  /** The `func` of a tool after `n` wraps. */
  function FuncAfter(f: Option<ToolFunc>, i: Interceptor, n: nat): Option<ToolFunc>
  {
    if f.None? then None else Some(Wrapped(f.value, i, n))
  }

  /** The `_run` of a tool after `n` wraps: unchanged without wraps or without a `func`,
      else the same gate as `func`. */
  function RunAfter(r: Option<ToolFunc>, f: Option<ToolFunc>, i: Interceptor, n: nat): Option<ToolFunc>
  {
    if n == 0 || f.None? || r.None? then r else FuncAfter(f, i, n)
  }

  /** `wrap_tools_with_interceptor`: with no names the list is returned as it is;
      otherwise every tool is wrapped in turn (a tool listed twice is wrapped twice) and
      the same tools come back in the same order, a tool that cannot be wrapped
      included. */
  method WrapTools(tools: seq<Tool>, names: Option<seq<string>>) returns (r: seq<Tool>)
    modifies set t | t in tools
    ensures r == tools
    ensures names.None? || names.value == [] ==>
      forall t :: t in tools ==> t.func == old(t.func) && t.run == old(t.run)
    ensures names.Some? && names.value != [] ==>
      forall t :: t in tools ==>
        t.name == old(t.name) &&
        t.func == FuncAfter(old(t.func), Interceptor(names.value), multiset(tools)[t]) &&
        t.run == RunAfter(old(t.run), old(t.func), Interceptor(names.value), multiset(tools)[t])
  {
    if names.None? || names.value == [] {
      return tools;
    }
    var i := NewInterceptor(names);
    var out: seq<Tool> := [];
    var j := 0;
    while j < |tools|
      invariant 0 <= j <= |tools|
      invariant out == tools[..j]
      invariant forall t :: t in tools ==>
        t.name == old(t.name) &&
        t.func == FuncAfter(old(t.func), i, multiset(tools[..j])[t]) &&
        t.run == RunAfter(old(t.run), old(t.func), i, multiset(tools[..j])[t])
    {
      var tool := tools[j];
      var _ := WrapTool(tool, i);
      out := out + [tool];
      assert tools[..j + 1] == tools[..j] + [tool];
      j := j + 1;
    }
    assert tools[..j] == tools;
    return out;
  }
}
