/**
 * The tool-call layer of the agent: `ToolCallContextHelper` asks the language model for
 * its next move (`ask_tool`), dispatches the calls it proposes (`execute_tool`,
 * `execute_tool_command`), recognises the special tools that end a run, and keeps the
 * tool registry, including the tools of the host bridge; `ToolCallAgent` wires its
 * think/act steps to the helper and always cleans up after a run.
 *
 * The language model's reply, `json.loads` and each tool's `execute` are parameters:
 * `reply`, `decode` and the `outcomes` of the calls, in call order.
 */
module ToolCallAgent {
  import opened Wrappers
  import opened Text
  import opened Dicts
  import opened Schema
  import HostMcp

  const TOOL_CALL_REQUIRED := "Tool calls required but none provided"
  const INVALID_COMMAND := "Error: Invalid command format"
  const NO_CONTENT := "No content or commands to execute"
  const NO_RESPONSE := "No response received from the LLM"
  const DEFAULT_MAX_OBSERVE := 10000

  /** The names of the two tools every helper starts with (`CreateChatCompletion`, `Terminate`). */
  const CREATE_CHAT_COMPLETION := "create_chat_completion"
  const TERMINATE := "terminate"

  function UnknownToolError(name: string): string {
    "Error: Unknown tool '" + name + "'"
  }

  /** The reply for a tool whose `execute` raised; it opens with the warning sign U+26A0 U+FE0F. */
  function ToolProblemError(name: string, detail: string): string {
    "Error: \U{26A0}\U{FE0F} Tool '" + name + "' encountered a problem: " + detail
  }

  function TokenLimitMessage(detail: string): string {
    "Maximum token limit reached, cannot continue execution: " + detail
  }

  function ProcessingErrorMessage(detail: string): string {
    "Error encountered while processing: " + detail
  }

  // ---------------------------------------------------------------------------
  // The tool registry

  /** Where a registered tool runs. */
  datatype Origin = BuiltIn | SandboxClient(clientId: string) | HostBridge(serverName: string, originalName: string)

  datatype ToolEntry = ToolEntry(name: string, origin: Origin)

  function ToolNames(tools: seq<ToolEntry>): (names: seq<string>)
    ensures |names| == |tools|
    ensures forall i :: 0 <= i < |tools| ==> names[i] == tools[i].name
  {
    if |tools| == 0 then [] else [tools[0].name] + ToolNames(tools[1..])
  }

  /** `ToolCollection.add_tool`: a tool whose name is already registered is skipped. */
  function WithTool(tools: seq<ToolEntry>, t: ToolEntry): seq<ToolEntry> {
    if t.name in ToolNames(tools) then tools else tools + [t]
  }

  /** Adding tools one after the other, in order. */
  function WithTools(tools: seq<ToolEntry>, ts: seq<ToolEntry>): seq<ToolEntry> {
    if |ts| == 0 then tools else WithTool(WithTools(tools, ts[..|ts| - 1]), ts[|ts| - 1])
  }

  /** Adding tools never removes or replaces a registered tool. */
  lemma {:induction false} WithToolsExtends(tools: seq<ToolEntry>, ts: seq<ToolEntry>)
    ensures |tools| <= |WithTools(tools, ts)| && WithTools(tools, ts)[..|tools|] == tools
  {
    if |ts| > 0 {
      WithToolsExtends(tools, ts[..|ts| - 1]);
      var prev := WithTools(tools, ts[..|ts| - 1]);
      if ts[|ts| - 1].name !in ToolNames(prev) {
        assert (prev + [ts[|ts| - 1]])[..|tools|] == prev[..|tools|];
      }
    }
  }

  /** After adding tools, every one of their names is registered. */
  lemma {:induction false} WithToolsRegistersAll(tools: seq<ToolEntry>, ts: seq<ToolEntry>)
    ensures forall i :: 0 <= i < |ts| ==> ts[i].name in ToolNames(WithTools(tools, ts))
  {
    if |ts| > 0 {
      var n := |ts| - 1;
      var prev := WithTools(tools, ts[..n]);
      WithToolsRegistersAll(tools, ts[..n]);
      var names := ToolNames(prev);
      var after := WithTool(prev, ts[n]);
      if ts[n].name !in names {
        assert ToolNames(after) == names + [ts[n].name];
      }
      forall i | 0 <= i < |ts|
        ensures ts[i].name in ToolNames(after)
      {
        if i < n {
          assert ts[i] == ts[..n][i];
        }
      }
    }
  }

  /** Registered names stay pairwise distinct: no tool is ever silently overwritten. */
  lemma {:induction false} WithToolsKeepsNamesDistinct(tools: seq<ToolEntry>, ts: seq<ToolEntry>)
    requires Distinct(ToolNames(tools))
    ensures Distinct(ToolNames(WithTools(tools, ts)))
  {
    if |ts| > 0 {
      var n := |ts| - 1;
      var prev := WithTools(tools, ts[..n]);
      WithToolsKeepsNamesDistinct(tools, ts[..n]);
      if ts[n].name !in ToolNames(prev) {
        assert ToolNames(prev + [ts[n]]) == ToolNames(prev) + [ts[n].name];
      }
    }
  }

  /** The registry entries of the host bridge's proxies. */
  function HostEntries(tools: seq<HostMcp.HostClientTool>): (es: seq<ToolEntry>)
    ensures |es| == |tools|
    ensures forall i :: 0 <= i < |tools| ==>
      es[i] == ToolEntry(tools[i].name, HostBridge(tools[i].serverName, tools[i].originalName))
  {
    seq(|tools|, i requires 0 <= i < |tools| => ToolEntry(tools[i].name, HostBridge(tools[i].serverName, tools[i].originalName)))
  }

  /** The MCP client descriptions `add_mcp` accepts: an SSE server or a stdio command. */
  datatype McpClientConfig =
    | SseClient(clientId: string, serverUrl: string)
    | StdioClient(clientId: string, command: string, args: seq<string>, env: Dict<string, string>)
    | Unrecognized

  // ---------------------------------------------------------------------------
  // Dispatching one call

  /**
   * What a tool's `execute` returned, through the three things the dispatcher reads:
   * `str(result)`, `bool(result)` and the `base64_image` attribute.
   */
  datatype ToolValue = ToolValue(text: string, truthy: bool, base64Image: Option<string>)

  /** A tool's `execute` either returns a value or raises an exception with a message. */
  datatype ToolOutcome = Value(value: ToolValue) | Raises(detail: string)

  /** The observation text for a tool that returned. */
  function Observation(name: string, v: ToolValue): string {
    if v.truthy then "Observed output of cmd `" + name + "` executed:\n" + v.text
    else "Cmd `" + name + "` completed with no output"
  }

  /** The image a result carries, when it carries a non-empty one. */
  function ImageOf(v: ToolValue): Option<string> {
    if v.base64Image.Some? && v.base64Image.value != "" then v.base64Image else None
  }

  /** The names special tools are matched against, lower-cased. */
  function LowerAll(names: seq<string>): seq<string> {
    seq(|names|, i requires 0 <= i < |names| => Lower(names[i]))
  }

  /** `_is_special_tool`: case-insensitive membership in the special tool names. */
  predicate IsSpecialTool(name: string, specialNames: seq<string>) {
    Lower(name) in LowerAll(specialNames)
  }

  /** `_should_finish_execution`: every special tool that runs finishes the agent. */
  predicate ShouldFinishExecution(name: string, result: ToolValue) {
    true
  }

  /** The arguments text given to `json.loads`: "{}" when the call has none. */
  function ArgumentsText(arguments: string): string {
    if arguments != "" then arguments else "{}"
  }

  /** What `execute_tool_command` yields for one call, and what it does to the agent. */
  datatype CommandStep = CommandStep(reply: Outcome<string>, finishes: bool, image: Option<string>)

  /**
   * `execute_tool_command` for one call, given the registered names, the special tool
   * names, `json.loads` and what the tool's `execute` does. Undecodable arguments
   * end in `UnboundLocalError`: the handler for them reads `args`, which was never bound.
   */
  function Dispatch(call: ToolCall, names: seq<string>, special: seq<string>, decode: string -> Option<Json>, outcome: ToolOutcome): CommandStep {
    if call.name == "" then CommandStep(Returned(INVALID_COMMAND), false, None)
    else if call.name !in names then CommandStep(Returned(UnknownToolError(call.name)), false, None)
    else if decode(ArgumentsText(call.arguments)).None? then CommandStep(Raised(UnboundLocalError("args")), false, None)
    else match outcome
      case Raises(detail) => CommandStep(Returned(ToolProblemError(call.name, detail)), false, None)
      case Value(v) =>
        CommandStep(
          Returned(Observation(call.name, v)),
          IsSpecialTool(call.name, special) && ShouldFinishExecution(call.name, v),
          ImageOf(v))
  }

  /** Dispatch raises only when a registered tool's arguments do not decode. */
  lemma DispatchRaisesOnlyOnBadArguments(call: ToolCall, names: seq<string>, special: seq<string>, decode: string -> Option<Json>, outcome: ToolOutcome)
    ensures Dispatch(call, names, special, decode, outcome).reply.Raised?
      <==> call.name != "" && call.name in names && decode(ArgumentsText(call.arguments)).None?
  {
  }

  /** A call finishes the agent exactly when a special tool ran and returned. */
  lemma DispatchFinishesIff(call: ToolCall, names: seq<string>, special: seq<string>, decode: string -> Option<Json>, outcome: ToolOutcome)
    ensures Dispatch(call, names, special, decode, outcome).finishes
      <==> call.name != "" && call.name in names && decode(ArgumentsText(call.arguments)).Some?
           && outcome.Value? && IsSpecialTool(call.name, special)
  {
  }

  /** Every error reply leaves the agent's state and image alone. */
  lemma DispatchErrorsChangeNothing(call: ToolCall, names: seq<string>, special: seq<string>, decode: string -> Option<Json>, outcome: ToolOutcome)
    ensures var s := Dispatch(call, names, special, decode, outcome);
      s.reply.Returned? && StartsWith(s.reply.value, "Error: ") ==> !s.finishes && s.image.None?
  {
    var s := Dispatch(call, names, special, decode, outcome);
    if s.reply.Returned? && outcome.Value? && call.name != "" && call.name in names
       && decode(ArgumentsText(call.arguments)).Some? {
      assert s.reply.value[0] != 'E';
    }
  }

  /** Special tools match whatever the case of the name the model used. */
  lemma SpecialToolIgnoresCase(name: string, other: string, special: seq<string>)
    requires Lower(name) == Lower(other)
    ensures IsSpecialTool(name, special) <==> IsSpecialTool(other, special)
  {
  }

  /** A name is special when it equals a special name up to case. */
  lemma SpecialToolMatches(name: string, special: seq<string>, i: nat)
    requires i < |special| && Lower(name) == Lower(special[i])
    ensures IsSpecialTool(name, special)
  {
    assert LowerAll(special)[i] == Lower(special[i]);
  }

  // ---------------------------------------------------------------------------
  // Dispatching all calls

  /** `result[:max_observe]`, applied only when `max_observe` is truthy (Python slicing). */
  function Truncate(s: string, maxObserve: int): string {
    if maxObserve == 0 then s
    else if maxObserve > 0 then (if |s| <= maxObserve then s else s[..maxObserve])
    else if |s| + maxObserve <= 0 then ""
    else s[..|s| + maxObserve]
  }

  /**
   * A truncated observation is a prefix of the observation; a positive limit bounds
   * its length and leaves short observations whole.
   */
  lemma TruncateIsPrefix(s: string, maxObserve: int)
    ensures var r := Truncate(s, maxObserve);
      |r| <= |s| && r == s[..|r|]
      && (maxObserve > 0 ==> |r| == if |s| <= maxObserve then |s| else maxObserve)
      && (maxObserve == 0 ==> r == s)
  {
  }

  /**
   * The tool replies, tool messages and flags of a run over `calls`, dispatched in
   * order until one raises. `image` is what the image slot holds afterwards: it is
   * cleared before each call.
   */
  datatype Batch = Batch(results: seq<string>, messages: seq<Message>, finishes: bool, failure: Option<PyException>, image: Option<string>)

  /** The dispatch of every call, each with its own tool outcome. */
  function Steps(calls: seq<ToolCall>, outcomes: seq<ToolOutcome>, names: seq<string>, special: seq<string>, decode: string -> Option<Json>): (steps: seq<CommandStep>)
    requires |outcomes| == |calls|
    ensures |steps| == |calls|
  {
    seq(|calls|, i requires 0 <= i < |calls| => Dispatch(calls[i], names, special, decode, outcomes[i]))
  }

  /**
   * `steps` are the dispatches of `calls`. The quantifier fires only on a dispatch
   * already in view, so callers that pass `steps` along never unfold `Dispatch`.
   */
  predicate StepsMatch(steps: seq<CommandStep>, calls: seq<ToolCall>, outcomes: seq<ToolOutcome>, names: seq<string>, special: seq<string>, decode: string -> Option<Json>)
    requires |outcomes| == |calls|
  {
    && |steps| == |calls|
    && forall i {:trigger Dispatch(calls[i], names, special, decode, outcomes[i])} :: 0 <= i < |calls| ==>
         steps[i] == Dispatch(calls[i], names, special, decode, outcomes[i])
  }

  /** The run over `calls`, whose dispatches are `steps`, stopping at the first that raises. */
  function RunCalls(calls: seq<ToolCall>, steps: seq<CommandStep>, maxObserve: int): (b: Batch)
    requires |steps| == |calls|
  {
    RunPrefix(calls, steps, |calls|, maxObserve)
  }

  /** The run over the first `k` calls. */
  function RunPrefix(calls: seq<ToolCall>, steps: seq<CommandStep>, k: nat, maxObserve: int): (b: Batch)
    requires |steps| == |calls| && k <= |calls|
    ensures |b.messages| == |b.results| <= k
    ensures b.failure.None? <==> |b.results| == k
  {
    if k == 0 then Batch([], [], false, None, None)
    else
      var prev := RunPrefix(calls, steps, k - 1, maxObserve);
      if prev.failure.Some? then prev
      else RunStep(prev, calls[k - 1], steps[k - 1], maxObserve)
  }

  /** One step of the run: the call's reply, truncated, becomes a tool message, or its exception stops the run. */
  function RunStep(prev: Batch, call: ToolCall, step: CommandStep, maxObserve: int): Batch {
    match step.reply
    case Raised(e) => Batch(prev.results, prev.messages, prev.finishes, Some(e), None)
    case Returned(obs) =>
      var text := Truncate(obs, maxObserve);
      Batch(prev.results + [text], prev.messages + [ToolMessage(text, call.id, call.name, step.image)],
            prev.finishes || step.finishes, None, step.image)
  }

  /** Once the first `k` calls raised, the whole run stops there. */
  lemma {:induction false} RunCallsStops(calls: seq<ToolCall>, steps: seq<CommandStep>, k: nat, m: nat, maxObserve: int)
    requires |steps| == |calls| && k <= m <= |calls|
    requires RunPrefix(calls, steps, k, maxObserve).failure.Some?
    ensures RunPrefix(calls, steps, m, maxObserve) == RunPrefix(calls, steps, k, maxObserve)
    decreases m
  {
    if k < m {
      RunCallsStops(calls, steps, k, m - 1, maxObserve);
    }
  }

  /**
   * The replies of a run are in call order: reply `i` is the truncated reply to call
   * `i`, remembered as a tool message with the call's id, name and image; and a run
   * that stopped early stopped at a call that raised.
   */
  lemma {:induction false} RunCallsReplies(calls: seq<ToolCall>, steps: seq<CommandStep>, k: nat, maxObserve: int)
    requires |steps| == |calls| && k <= |calls|
    ensures var b := RunPrefix(calls, steps, k, maxObserve);
      (forall i :: 0 <= i < |b.results| ==>
        steps[i].reply.Returned?
        && b.results[i] == Truncate(steps[i].reply.value, maxObserve)
        && b.messages[i] == ToolMessage(b.results[i], calls[i].id, calls[i].name, steps[i].image))
      && (b.failure.Some? ==> steps[|b.results|].reply == Raised(b.failure.value))
  {
    if k > 0 {
      RunCallsReplies(calls, steps, k - 1, maxObserve);
    }
  }

  /** A run finishes the agent exactly when one of the calls it got through finished it. */
  lemma {:induction false} RunCallsFinishes(calls: seq<ToolCall>, steps: seq<CommandStep>, k: nat, maxObserve: int)
    requires |steps| == |calls| && k <= |calls|
    ensures var b := RunPrefix(calls, steps, k, maxObserve);
      b.finishes <==> exists i :: 0 <= i < |b.results| && steps[i].finishes
  {
    if k > 0 {
      RunCallsFinishes(calls, steps, k - 1, maxObserve);
    }
  }

  /** When every call's arguments decode, no call raises and every call gets a reply. */
  lemma RunCallsCompleteWhenArgumentsDecode(calls: seq<ToolCall>, outcomes: seq<ToolOutcome>, names: seq<string>, special: seq<string>, decode: string -> Option<Json>, maxObserve: int)
    requires |outcomes| == |calls|
    requires forall i :: 0 <= i < |calls| ==> decode(ArgumentsText(calls[i].arguments)).Some?
    ensures RunCalls(calls, Steps(calls, outcomes, names, special, decode), maxObserve).failure.None?
  {
    RunCallsReplies(calls, Steps(calls, outcomes, names, special, decode), |calls|, maxObserve);
  }

  /** The outcome of `execute_tool`: the list of replies, or the string of the no-call case. */
  datatype ExecResult = Results(results: seq<string>) | Text(text: string)

  /** `execute_tool` when the model proposed no calls. */
  function NoCallsOutcome(choice: ToolChoice, memory: seq<Message>): Outcome<ExecResult> {
    if choice == ChoiceRequired then Raised(ValueError(TOOL_CALL_REQUIRED))
    else if |memory| == 0 then Raised(IndexError)
    else
      var last := memory[|memory| - 1].content;
      Returned(Text(if last != "" then last else NO_CONTENT))
  }

  function BatchOutcome(b: Batch): Outcome<ExecResult> {
    if b.failure.Some? then Raised(b.failure.value) else Returned(Results(b.results))
  }

  /** `"\n\n".join(results)`; a string is joined character by character. */
  function JoinResults(e: ExecResult): string {
    match e
    case Results(rs) => Join(rs, "\n\n")
    case Text(s) => Join(Chars(s), "\n\n")
  }

  function JoinOutcome(o: Outcome<ExecResult>): Outcome<string> {
    match o
    case Raised(e) => Raised(e)
    case Returned(x) => Returned(JoinResults(x))
  }

  /**
   * In the no-call case `act` joins the characters of the last message with blank
   * lines, so a text of n > 0 characters comes back 3n - 2 characters long.
   */
  lemma {:induction false} JoinedTextLength(s: string)
    ensures |JoinResults(Text(s))| == if |s| == 0 then 0 else 3 * |s| - 2
  {
    if |s| > 1 {
      JoinedTextLength(s[1..]);
      assert Chars(s)[1..] == Chars(s[1..]);
    }
  }

  // ---------------------------------------------------------------------------
  // Asking the model

  /** Why the model call raised: a `ValueError`, an error caused by the token limit, or anything else. */
  datatype LlmFailure = ValueFailure(message: string) | CausedByTokenLimit(detail: string) | OtherFailure(detail: string)

  /** What `llm.ask_tool` did: replied (content "" when None), returned None, or raised. */
  datatype LlmReply = Reply(content: string, toolCalls: seq<ToolCall>) | NoReply | LlmError(failure: LlmFailure)

  predicate AllArgumentsDecode(calls: seq<ToolCall>, decode: string -> Option<Json>) {
    forall i :: 0 <= i < |calls| ==> decode(calls[i].arguments).Some?
  }

  /** Decodes every call's arguments in order, stopping at the first that fails. */
  method ArgumentsDecode(calls: seq<ToolCall>, decode: string -> Option<Json>) returns (ok: bool)
    ensures ok <==> AllArgumentsDecode(calls, decode)
  {
    var i := 0;
    while i < |calls|
      invariant 0 <= i <= |calls|
      invariant forall k :: 0 <= k < i ==> decode(calls[k].arguments).Some?
    {
      if decode(calls[i].arguments).None? {
        return false;
      }
      i := i + 1;
    }
    return true;
  }

  /**
   * What `ask_tool` does: the messages it appends, its outcome, the calls it records
   * (None: `tool_calls` is not assigned) and whether it finishes the agent.
   */
  datatype AskStep = AskStep(outcome: Outcome<bool>, appended: seq<Message>, calls: Option<seq<ToolCall>>, finishes: bool)

  /** What `ask_tool` does with the model's answer, after the prompt is recorded. */
  function Answer(choice: ToolChoice, reply: LlmReply, decode: string -> Option<Json>): AskStep {
    match reply
    case LlmError(ValueFailure(m)) => AskStep(Raised(ValueError(m)), [], None, false)
    case LlmError(CausedByTokenLimit(d)) => AskStep(Returned(false), [AssistantMessage(TokenLimitMessage(d))], None, true)
    case LlmError(OtherFailure(d)) => AskStep(Raised(Propagated(d)), [], None, false)
    case NoReply => AskStep(Returned(false), [AssistantMessage(ProcessingErrorMessage(NO_RESPONSE))], Some([]), false)
    case Reply(content, calls) =>
      if !AllArgumentsDecode(calls, decode) then AskStep(Raised(JsonDecodeError), [], Some(calls), false)
      else if choice == ChoiceNone then
        AskStep(Returned(content != ""), if content != "" then [AssistantMessage(content)] else [], Some(calls), false)
      else
        var msg := if calls != [] then FromToolCalls(content, calls) else AssistantMessage(content);
        AskStep(Returned(calls != [] || choice == ChoiceRequired || content != ""), [msg], Some(calls), false)
  }

  function Ask(prompt: string, choice: ToolChoice, reply: LlmReply, decode: string -> Option<Json>): AskStep {
    var s := Answer(choice, reply, decode);
    s.(appended := (if prompt != "" then [UserMessage(prompt)] else []) + s.appended)
  }

  /** A non-empty prompt is recorded as a user message before anything else. */
  lemma AskRecordsPromptFirst(prompt: string, choice: ToolChoice, reply: LlmReply, decode: string -> Option<Json>)
    ensures var s := Ask(prompt, choice, reply, decode);
      (prompt != "" ==> |s.appended| >= 1 && s.appended[0] == UserMessage(prompt))
      && (prompt == "" ==> forall i :: 0 <= i < |s.appended| ==> s.appended[i].role == Assistant)
  {
  }

  /**
   * Under `ToolChoice.NONE` proposed calls are recorded but not offered: the content is
   * remembered when there is some, and the step reports whether there was.
   */
  lemma AskUnderNone(prompt: string, content: string, calls: seq<ToolCall>, decode: string -> Option<Json>)
    requires AllArgumentsDecode(calls, decode)
    ensures var s := Ask(prompt, ChoiceNone, Reply(content, calls), decode);
      s.outcome == Returned(content != "")
      && (forall i :: 0 <= i < |s.appended| ==> s.appended[i].toolCalls == [])
      && s.calls == Some(calls)
  {
  }

  /**
   * Otherwise exactly one assistant message is recorded after the prompt, carrying the
   * calls, and the step goes on to act when there are calls, when calls are required,
   * or when the model said something.
   */
  lemma AskOtherwise(prompt: string, choice: ToolChoice, content: string, calls: seq<ToolCall>, decode: string -> Option<Json>)
    requires choice != ChoiceNone && AllArgumentsDecode(calls, decode)
    ensures var s := Ask(prompt, choice, Reply(content, calls), decode);
      var pre := if prompt != "" then 1 else 0;
      |s.appended| == pre + 1
      && s.appended[pre].role == Assistant && s.appended[pre].content == content
      && s.appended[pre].toolCalls == calls
      && s.outcome == Returned(calls != [] || choice == ChoiceRequired || content != "")
  {
  }

  /** Only a token-limit failure finishes the agent; it records why and reports no progress. */
  lemma AskFinishesOnlyAtTokenLimit(prompt: string, choice: ToolChoice, reply: LlmReply, decode: string -> Option<Json>)
    ensures var s := Ask(prompt, choice, reply, decode);
      (s.finishes <==> reply.LlmError? && reply.failure.CausedByTokenLimit?)
      && (s.finishes ==>
            s.outcome == Returned(false)
            && s.appended[|s.appended| - 1] == AssistantMessage(TokenLimitMessage(reply.failure.detail)))
  {
  }

  /** A proposed call with no arguments text makes `ask_tool` raise, when "" is not JSON. */
  lemma AskRaisesOnEmptyArguments(prompt: string, choice: ToolChoice, content: string, calls: seq<ToolCall>, decode: string -> Option<Json>, i: nat)
    requires decode("") == None && i < |calls| && calls[i].arguments == ""
    ensures Ask(prompt, choice, Reply(content, calls), decode).outcome == Raised(JsonDecodeError)
  {
  }

  /**
   * The calls `ask_tool` records after returning normally all dispatch without raising,
   * provided "{}" decodes: the malformed-JSON path of `execute_tool_command` is never
   * reached in a think-then-act step.
   */
  lemma AskedCallsNeverRaise(prompt: string, choice: ToolChoice, reply: LlmReply, decode: string -> Option<Json>,
                             outcomes: seq<ToolOutcome>, names: seq<string>, special: seq<string>, maxObserve: int)
    requires decode("{}").Some?
    requires var s := Ask(prompt, choice, reply, decode); s.outcome.Returned? && s.calls.Some? && |outcomes| == |s.calls.value|
    ensures var cs := Ask(prompt, choice, reply, decode).calls.value;
      RunCalls(cs, Steps(cs, outcomes, names, special, decode), maxObserve).failure.None?
  {
    var cs := Ask(prompt, choice, reply, decode).calls.value;
    forall i | 0 <= i < |cs|
      ensures decode(ArgumentsText(cs[i].arguments)).Some?
    {
    }
    RunCallsCompleteWhenArgumentsDecode(cs, outcomes, names, special, decode, maxObserve);
  }

  // ---------------------------------------------------------------------------
  // Objects

  /**
   * The agent fields the tool layer reads and writes (they are declared by the base
   * agent, app/agent/base.py, which is not part of this model).
   */
  class Agent {
    var memory: seq<Message>
    var state: AgentState
    var nextStepPrompt: string
    var currentStep: int
    var maxSteps: int

    constructor(nextStepPrompt: string, maxSteps: int)
      ensures memory == [] && state == Running && this.nextStepPrompt == nextStepPrompt
      ensures currentStep == 0 && this.maxSteps == maxSteps
    {
      memory := [];
      state := Running;
      this.nextStepPrompt := nextStepPrompt;
      currentStep := 0;
      this.maxSteps := maxSteps;
    }
  }

  class ToolCallContextHelper {
    const agent: Agent
    var availableTools: seq<ToolEntry>
    var hostConnected: bool
    var toolChoice: ToolChoice
    var specialToolNames: seq<string>
    var toolCalls: seq<ToolCall>
    var maxObserve: int
    var currentImage: Option<string>

    /** A helper starts with the two default tools, `AUTO`, `terminate` as its special tool, and no calls. */
    constructor(agent: Agent)
      ensures this.agent == agent
      ensures availableTools == [ToolEntry(CREATE_CHAT_COMPLETION, BuiltIn), ToolEntry(TERMINATE, BuiltIn)]
      ensures !hostConnected && toolChoice == ChoiceAuto && specialToolNames == [TERMINATE]
      ensures toolCalls == [] && maxObserve == DEFAULT_MAX_OBSERVE && currentImage == None
    {
      this.agent := agent;
      availableTools := [ToolEntry(CREATE_CHAT_COMPLETION, BuiltIn), ToolEntry(TERMINATE, BuiltIn)];
      hostConnected := false;
      toolChoice := ChoiceAuto;
      specialToolNames := [TERMINATE];
      toolCalls := [];
      maxObserve := DEFAULT_MAX_OBSERVE;
      currentImage := None;
    }

    /** `add_tool`. */
    method AddTool(t: ToolEntry)
      modifies this`availableTools
      ensures availableTools == WithTool(old(availableTools), t)
    {
      if t.name !in ToolNames(availableTools) {
        availableTools := availableTools + [t];
      }
    }

    /**
     * `add_mcp`: after the sandbox connects the client, the tools it reports (None when
     * the client is missing) are added in order; an unrecognised description adds nothing.
     */
    method AddMcp(config: McpClientConfig, clientTools: Option<seq<ToolEntry>>)
      modifies this`availableTools
      ensures config.Unrecognized? || clientTools.None? ==> availableTools == old(availableTools)
      ensures !config.Unrecognized? && clientTools.Some? ==>
        availableTools == WithTools(old(availableTools), clientTools.value)
    {
      if config.Unrecognized? || clientTools.None? {
        return;
      }
      var ts := clientTools.value;
      var i := 0;
      while i < |ts|
        invariant 0 <= i <= |ts|
        invariant availableTools == WithTools(old(availableTools), ts[..i])
      {
        assert ts[..i + 1][..i] == ts[..i];
        AddTool(ts[i]);
        i := i + 1;
      }
      assert ts[..i] == ts;
    }

    /**
     * `initialize`: in host mode the bridge connects, which always succeeds, and its
     * proxies are added in order; otherwise nothing happens.
     */
    method Initialize(envHostMode: Option<string>, host: HostMcp.HostMCPTools, discovery: HostMcp.HttpReply<HostMcp.Discovery>)
      modifies this`hostConnected, this`availableTools, host`tools, host`toolMap
      ensures !HostMcp.HostModeEnabled(envHostMode) ==>
        hostConnected == old(hostConnected) && availableTools == old(availableTools)
        && host.tools == old(host.tools) && host.toolMap == old(host.toolMap)
      ensures HostMcp.HostModeEnabled(envHostMode) ==>
        hostConnected
        && HostMcp.Fetched(host.tools, host.toolMap) == HostMcp.FetchResult(discovery, host.hostAddress, host.hostPort)
        && availableTools == WithTools(old(availableTools), HostEntries(host.tools))
    {
      if !HostMcp.HostModeEnabled(envHostMode) {
        return;
      }
      var ok := host.Connect(discovery);
      if ok {
        hostConnected := true;
        AddHostTools(HostEntries(host.tools));
      }
    }

    /** The loop of `initialize` that adds each host tool in turn. */
    method AddHostTools(entries: seq<ToolEntry>)
      modifies this`availableTools
      ensures availableTools == WithTools(old(availableTools), entries)
    {
      var i := 0;
      while i < |entries|
        invariant 0 <= i <= |entries|
        invariant availableTools == WithTools(old(availableTools), entries[..i])
      {
        assert entries[..i + 1][..i] == entries[..i];
        AddTool(entries[i]);
        i := i + 1;
      }
      assert entries[..i] == entries;
    }

    /** `handle_special_tool`: a special tool finishes the agent. */
    method HandleSpecialTool(name: string, result: ToolValue)
      modifies agent`state
      ensures agent.state == if IsSpecialTool(name, specialToolNames) && ShouldFinishExecution(name, result) then Finished else old(agent.state)
    {
      if !(Lower(name) in LowerAll(specialToolNames)) {
        return;
      }
      if ShouldFinishExecution(name, result) {
        agent.state := Finished;
      }
    }

    /**
     * `execute_tool_command`: an invalid or unknown call is answered with an error
     * string, a failing tool with a problem report, a returning tool with its
     * observation; a returning special tool finishes the agent and a returned image
     * is kept for the tool message.
     */
    method ExecuteToolCommand(call: ToolCall, decode: string -> Option<Json>, outcome: ToolOutcome) returns (r: Outcome<string>)
      modifies this`currentImage, agent`state
      ensures var s := Dispatch(call, ToolNames(availableTools), specialToolNames, decode, outcome);
        r == s.reply
        && agent.state == (if s.finishes then Finished else old(agent.state))
        && currentImage == (if s.image.Some? then s.image else old(currentImage))
    {
      if call.name == "" {
        return Returned(INVALID_COMMAND);
      }
      var name := call.name;
      if name !in ToolNames(availableTools) {
        return Returned(UnknownToolError(name));
      }
      var args := decode(if call.arguments != "" then call.arguments else "{}");
      if args.None? {
        // The JSON-error handler reads `args`, which the failed assignment never bound.
        return Raised(UnboundLocalError("args"));
      }
      match outcome {
        case Raises(detail) =>
          return Returned(ToolProblemError(name, detail));
        case Value(v) =>
          HandleSpecialTool(name, v);
          if v.base64Image.Some? && v.base64Image.value != "" {
            currentImage := v.base64Image;
          }
          return Returned(Observation(name, v));
      }
    }

    /**
     * `execute_tool`: with no calls, the required-calls error or the last message's
     * content; otherwise each call is dispatched in order, its reply truncated and
     * remembered as a tool message, until the calls are done or one raises.
     */
    method ExecuteTool(decode: string -> Option<Json>, outcomes: seq<ToolOutcome>) returns (r: Outcome<ExecResult>)
      requires |outcomes| == |toolCalls|
      modifies this`currentImage, agent`state, agent`memory
      ensures toolCalls == [] ==>
        r == NoCallsOutcome(toolChoice, old(agent.memory))
        && agent.memory == old(agent.memory) && agent.state == old(agent.state) && currentImage == old(currentImage)
      ensures toolCalls != [] ==>
        var b := RunCalls(toolCalls, Steps(toolCalls, outcomes, ToolNames(availableTools), specialToolNames, decode), maxObserve);
        r == BatchOutcome(b)
        && agent.memory == old(agent.memory) + b.messages
        && agent.state == (if b.finishes then Finished else old(agent.state))
        && currentImage == b.image
    {
      if toolCalls == [] {
        if toolChoice == ChoiceRequired {
          return Raised(ValueError(TOOL_CALL_REQUIRED));
        }
        if |agent.memory| == 0 {
          return Raised(IndexError);
        }
        var last := agent.memory[|agent.memory| - 1].content;
        return Returned(Text(if last != "" then last else NO_CONTENT));
      }
      r := DispatchAll(decode, outcomes, Steps(toolCalls, outcomes, ToolNames(availableTools), specialToolNames, decode));
    }

    /** The loop of `execute_tool` over a non-empty list of calls. */
    method DispatchAll(decode: string -> Option<Json>, outcomes: seq<ToolOutcome>, ghost steps: seq<CommandStep>) returns (r: Outcome<ExecResult>)
      requires toolCalls != [] && |outcomes| == |toolCalls|
      requires StepsMatch(steps, toolCalls, outcomes, ToolNames(availableTools), specialToolNames, decode)
      modifies this`currentImage, agent`state, agent`memory
      ensures var b := RunCalls(toolCalls, steps, maxObserve);
        r == BatchOutcome(b)
        && agent.memory == old(agent.memory) + b.messages
        && agent.state == (if b.finishes then Finished else old(agent.state))
        && currentImage == b.image
    {
      var calls := toolCalls;
      ghost var b := Batch([], [], false, None, None);
      var results: seq<string> := [];
      var i := 0;
      while i < |calls|
        invariant 0 <= i <= |calls|
        invariant b == RunPrefix(calls, steps, i, maxObserve)
        invariant b.failure.None? && b.results == results
        invariant agent.state == (if b.finishes then Finished else old(agent.state))
        invariant i > 0 ==> currentImage == b.image
        invariant agent.memory == old(agent.memory) + b.messages
      {
        var result := DispatchOne(calls[i], decode, outcomes[i], outcomes, steps, i, b, old(agent.memory), old(agent.state));
        assert RunPrefix(calls, steps, i + 1, maxObserve) == RunStep(b, calls[i], steps[i], maxObserve);
        b := RunStep(b, calls[i], steps[i], maxObserve);
        if result.Raised? {
          RunCallsStops(calls, steps, i + 1, |calls|, maxObserve);
          return Raised(result.exception);
        }
        results := results + [result.value];
        i := i + 1;
      }
      return Returned(Results(results));
    }

    /**
     * One iteration of the loop of `execute_tool`: clears the image slot, dispatches the
     * call, truncates the reply and remembers it as a tool message. `prev` is the run
     * so far, over memory `base` and starting state `baseState`.
     */
    method DispatchOne(call: ToolCall, decode: string -> Option<Json>, outcome: ToolOutcome,
                       ghost outcomes: seq<ToolOutcome>, ghost steps: seq<CommandStep>, ghost i: nat,
                       ghost prev: Batch, ghost base: seq<Message>, ghost baseState: AgentState) returns (result: Outcome<string>)
      requires i < |toolCalls| == |outcomes| && call == toolCalls[i] && outcome == outcomes[i]
      requires StepsMatch(steps, toolCalls, outcomes, ToolNames(availableTools), specialToolNames, decode)
      requires prev.failure.None?
      requires agent.memory == base + prev.messages
      requires agent.state == if prev.finishes then Finished else baseState
      modifies this`currentImage, agent`state, agent`memory
      ensures var next := RunStep(prev, call, steps[i], maxObserve);
        && agent.memory == base + next.messages
        && agent.state == (if next.finishes then Finished else baseState)
        && currentImage == next.image
        && (next.failure.Some? ==> result == Raised(next.failure.value))
        && (next.failure.None? ==> result.Returned? && next.results == prev.results + [result.value])
    {
      currentImage := None;
      var reply := ExecuteToolCommand(call, decode, outcome);
      if reply.Raised? {
        return reply;
      }
      var text := reply.value;
      if maxObserve != 0 {
        text := Truncate(text, maxObserve);
      }
      agent.memory := agent.memory + [ToolMessage(text, call.id, call.name, currentImage)];
      return Returned(text);
    }

    /**
     * `ask_tool`: records the step prompt, asks the model and records its reply under
     * the tool-choice policy; a token-limit failure finishes the agent.
     */
    method AskTool(reply: LlmReply, decode: string -> Option<Json>) returns (r: Outcome<bool>)
      modifies this`toolCalls, agent`memory, agent`state
      ensures var s := Ask(old(agent.nextStepPrompt), toolChoice, reply, decode);
        r == s.outcome
        && agent.memory == old(agent.memory) + s.appended
        && toolCalls == s.calls.GetOr(old(toolCalls))
        && agent.state == (if s.finishes then Finished else old(agent.state))
    {
      ghost var pre := if agent.nextStepPrompt != "" then [UserMessage(agent.nextStepPrompt)] else [];
      if agent.nextStepPrompt != "" {
        agent.memory := agent.memory + [UserMessage(agent.nextStepPrompt)];
      }
      r := RecordAnswer(reply, decode);
      ghost var s := Answer(toolChoice, reply, decode);
      assert agent.memory == old(agent.memory) + (pre + s.appended);
    }

    /** The part of `ask_tool` after the prompt: asks the model and records its answer. */
    method RecordAnswer(reply: LlmReply, decode: string -> Option<Json>) returns (r: Outcome<bool>)
      modifies this`toolCalls, agent`memory, agent`state
      ensures var s := Answer(toolChoice, reply, decode);
        r == s.outcome
        && agent.memory == old(agent.memory) + s.appended
        && toolCalls == s.calls.GetOr(old(toolCalls))
        && agent.state == (if s.finishes then Finished else old(agent.state))
    {
      match reply {
        case LlmError(failure) =>
          match failure {
            case ValueFailure(m) =>
              return Raised(ValueError(m));
            case CausedByTokenLimit(d) =>
              agent.memory := agent.memory + [AssistantMessage(TokenLimitMessage(d))];
              agent.state := Finished;
              return Returned(false);
            case OtherFailure(d) =>
              return Raised(Propagated(d));
          }
        case NoReply =>
          toolCalls := [];
          agent.memory := agent.memory + [AssistantMessage(ProcessingErrorMessage(NO_RESPONSE))];
          return Returned(false);
        case Reply(content, calls) =>
          toolCalls := calls;
          // The selection event decodes every call's arguments, outside any handler.
          var decodes := ArgumentsDecode(calls, decode);
          if !decodes {
            return Raised(JsonDecodeError);
          }
          if toolChoice == ChoiceNone {
            if content != "" {
              agent.memory := agent.memory + [AssistantMessage(content)];
              return Returned(true);
            }
            return Returned(false);
          }
          var message := if toolCalls != [] then FromToolCalls(content, toolCalls) else AssistantMessage(content);
          agent.memory := agent.memory + [message];
          if toolChoice == ChoiceRequired && toolCalls == [] {
            return Returned(true);
          }
          if toolChoice == ChoiceAuto && toolCalls == [] {
            return Returned(content != "");
          }
          return Returned(toolCalls != []);
      }
    }

    /** `cleanup_tools`: disconnects the host bridge when it is connected. */
    method CleanupTools(host: HostMcp.HostMCPTools)
      modifies this`hostConnected, host`tools, host`toolMap
      ensures !hostConnected
      ensures old(hostConnected) ==> host.tools == [] && host.toolMap == []
      ensures !old(hostConnected) ==> host.tools == old(host.tools) && host.toolMap == old(host.toolMap)
    {
      if hostConnected {
        host.Disconnect();
        hostConnected := false;
      }
    }
  }

  /**
   * The agent whose think step asks the model and whose act step dispatches the calls.
   * The source's agent is both the helper's owner and the base agent; here it holds
   * the base agent's fields in `agent`.
   */
  class ToolCallAgent {
    const agent: Agent
    const helper: ToolCallContextHelper

    constructor(agent: Agent)
      ensures this.agent == agent && fresh(helper) && helper.agent == agent
      ensures helper.availableTools == [ToolEntry(CREATE_CHAT_COMPLETION, BuiltIn), ToolEntry(TERMINATE, BuiltIn)]
      ensures helper.toolCalls == [] && helper.toolChoice == ChoiceAuto && !helper.hostConnected
    {
      this.agent := agent;
      helper := new ToolCallContextHelper(agent);
    }

    /** `think`: one `ask_tool`. */
    method Think(reply: LlmReply, decode: string -> Option<Json>) returns (r: Outcome<bool>)
      requires helper.agent == agent
      modifies helper`toolCalls, agent`memory, agent`state
      ensures var s := Ask(old(agent.nextStepPrompt), helper.toolChoice, reply, decode);
        r == s.outcome
        && agent.memory == old(agent.memory) + s.appended
        && helper.toolCalls == s.calls.GetOr(old(helper.toolCalls))
        && agent.state == (if s.finishes then Finished else old(agent.state))
    {
      r := helper.AskTool(reply, decode);
    }

    /** `act`: `execute_tool`, its replies joined with blank lines. */
    method Act(decode: string -> Option<Json>, outcomes: seq<ToolOutcome>) returns (r: Outcome<string>)
      requires helper.agent == agent && |outcomes| == |helper.toolCalls|
      modifies helper`currentImage, agent`state, agent`memory
      ensures helper.toolCalls == [] ==>
        r == JoinOutcome(NoCallsOutcome(helper.toolChoice, old(agent.memory))) && agent.memory == old(agent.memory)
      ensures helper.toolCalls != [] ==>
        var b := RunCalls(helper.toolCalls, Steps(helper.toolCalls, outcomes, ToolNames(helper.availableTools), helper.specialToolNames, decode), helper.maxObserve);
        r == JoinOutcome(BatchOutcome(b))
        && agent.memory == old(agent.memory) + b.messages
        && agent.state == (if b.finishes then Finished else old(agent.state))
    {
      var e := helper.ExecuteTool(decode, outcomes);
      match e {
        case Raised(x) => return Raised(x);
        case Returned(results) => return Returned(JoinResults(results));
      }
    }

    /**
     * `run`: whatever the step loop produced, returned or raised, is passed on
     * unchanged, and cleanup runs in every case.
     */
    method Run(loopOutcome: Outcome<string>, host: HostMcp.HostMCPTools) returns (r: Outcome<string>)
      modifies helper`hostConnected, host`tools, host`toolMap
      ensures r == loopOutcome && !helper.hostConnected
      ensures old(helper.hostConnected) ==> host.tools == [] && host.toolMap == []
      ensures !old(helper.hostConnected) ==> host.tools == old(host.tools) && host.toolMap == old(host.toolMap)
    {
      r := loopOutcome;
      helper.CleanupTools(host);
    }
  }
}
