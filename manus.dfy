/**
 * The Manus agent's own steps around the tool layer: `initialize` records its task,
 * `prepare` assembles the tool list (Terminate, the host bridge's proxies, then the
 * configured system tools and stdio MCP clients in order), `think` asks the model with
 * a step-specific prompt and puts the saved prompt back, and `act` runs the calls.
 *
 * Prompt formatting, the current date, the browser helper's own prompt and the sandbox
 * bridge are parameters: their code is not part of this model.
 */
module Manus {
  import opened Wrappers
  import opened Dicts
  import opened Schema
  import opened ToolCallAgent
  import HostMcp

  const DEFAULT_MAX_STEPS := 20
  const WORKSPACE := "/workspace"

  /** The values `NEXT_STEP_PROMPT` is formatted with. */
  datatype NextStepArgs = NextStepArgs(maxSteps: int, currentStep: int, remainingSteps: int, taskDir: string)

  /** The values `SYSTEM_PROMPT` is formatted with. */
  datatype SystemPromptArgs = SystemPromptArgs(
    directory: string, taskId: string, taskDir: string, language: string,
    currentDate: string, maxSteps: int, currentStep: int)

  /** The next-step arguments for a step: the steps remaining are the maximum less the current step. */
  function StepArgs(maxSteps: int, currentStep: int, taskDir: string): (a: NextStepArgs)
    ensures a.remainingSteps + a.currentStep == a.maxSteps
    ensures a.maxSteps == maxSteps && a.currentStep == currentStep && a.taskDir == taskDir
  {
    NextStepArgs(maxSteps, currentStep, maxSteps - currentStep, taskDir)
  }

  // ---------------------------------------------------------------------------
  // The browser check

  /** `memory.messages[-3:]`: the last three messages, or all of them when there are fewer. */
  function RecentMessages(memory: seq<Message>): (recent: seq<Message>)
    ensures |recent| == if |memory| < 3 then |memory| else 3
    ensures recent == memory[|memory| - |recent|..]
  {
    if |memory| <= 3 then memory else memory[|memory| - 3..]
  }

  /** Some message of `msgs` carries a call of the tool named `name`. */
  predicate CallsTool(msgs: seq<Message>, name: string) {
    if |msgs| == 0 then false
    else CallsTool(msgs[..|msgs| - 1], name) || name in ToolCallNames(msgs[|msgs| - 1].toolCalls)
  }

  function ToolCallNames(calls: seq<ToolCall>): (names: seq<string>)
    ensures |names| == |calls|
    ensures forall i :: 0 <= i < |calls| ==> names[i] == calls[i].name
  {
    if |calls| == 0 then [] else ToolCallNames(calls[..|calls| - 1]) + [calls[|calls| - 1].name]
  }

  /** `_check_browser_in_use_recently`. */
  predicate BrowserInUseRecently(memory: seq<Message>, browserName: string) {
    CallsTool(RecentMessages(memory), browserName)
  }

  /** `CallsTool` holds exactly when some call of some message has the name. */
  lemma {:induction false} CallsToolIff(msgs: seq<Message>, name: string)
    ensures CallsTool(msgs, name) <==>
      exists i, j :: 0 <= i < |msgs| && 0 <= j < |msgs[i].toolCalls| && msgs[i].toolCalls[j].name == name
  {
    if |msgs| > 0 {
      var n := |msgs| - 1;
      CallsToolIff(msgs[..n], name);
      if CallsTool(msgs, name) {
        if CallsTool(msgs[..n], name) {
          var i, j :| 0 <= i < n && 0 <= j < |msgs[..n][i].toolCalls| && msgs[..n][i].toolCalls[j].name == name;
          assert msgs[i] == msgs[..n][i];
        } else {
          var names := ToolCallNames(msgs[n].toolCalls);
          var j :| 0 <= j < |names| && names[j] == name;
          assert msgs[n].toolCalls[j].name == name;
        }
      } else {
        forall i, j | 0 <= i < |msgs| && 0 <= j < |msgs[i].toolCalls|
          ensures msgs[i].toolCalls[j].name != name
        {
          if i < n {
            assert msgs[i] == msgs[..n][i];
          } else {
            assert ToolCallNames(msgs[n].toolCalls)[j] == msgs[n].toolCalls[j].name;
          }
        }
      }
    }
  }

  /**
   * The browser counts as in use exactly when one of the last three messages (or
   * fewer, in a shorter history) carries a call of the browser tool.
   */
  lemma BrowserInUseIff(memory: seq<Message>, browserName: string)
    ensures BrowserInUseRecently(memory, browserName) <==>
      exists i, j :: |memory| - 3 <= i < |memory| && 0 <= i && 0 <= j < |memory[i].toolCalls|
                     && memory[i].toolCalls[j].name == browserName
  {
    var recent := RecentMessages(memory);
    var k := |memory| - |recent|;
    CallsToolIff(recent, browserName);
    if BrowserInUseRecently(memory, browserName) {
      var i, j :| 0 <= i < |recent| && 0 <= j < |recent[i].toolCalls| && recent[i].toolCalls[j].name == browserName;
      assert memory[k + i] == recent[i];
    } else {
      forall i, j | |memory| - 3 <= i < |memory| && 0 <= i && 0 <= j < |memory[i].toolCalls|
        ensures memory[i].toolCalls[j].name != browserName
      {
        assert recent[i - k] == memory[i];
      }
    }
  }

  // ---------------------------------------------------------------------------
  // Assembling the tool list

  /** One configured entry of `tools`: the name of a system tool, or a stdio MCP client. */
  datatype ToolItem =
    | Named(name: string)
    | McpTool(id: string, name: string, command: string, args: seq<string>, env: Dict<string, string>)

  /** The `add_mcp` description of a configured MCP client. */
  function ClientConfig(item: ToolItem): McpClientConfig
    requires item.McpTool?
  {
    StdioClient(item.id, item.command, item.args, item.env)
  }

  /**
   * One entry of the loop of `prepare`: a known system tool name adds that tool, an
   * unknown name is skipped, and an MCP client adds the tools the sandbox reports for it.
   */
  function AddItem(tools: seq<ToolEntry>, item: ToolItem, systemNames: seq<string>,
                   sandbox: McpClientConfig -> Option<seq<ToolEntry>>): seq<ToolEntry> {
    match item
    case Named(n) => if n in systemNames then WithTool(tools, ToolEntry(n, BuiltIn)) else tools
    case McpTool(_, _, _, _, _) =>
      var reported := sandbox(ClientConfig(item));
      if reported.Some? then WithTools(tools, reported.value) else tools
  }

  /** The loop of `prepare` over the configured entries, in order. */
  function ConfiguredTools(tools: seq<ToolEntry>, items: seq<ToolItem>, systemNames: seq<string>,
                           sandbox: McpClientConfig -> Option<seq<ToolEntry>>): seq<ToolEntry> {
    if |items| == 0 then tools
    else AddItem(ConfiguredTools(tools, items[..|items| - 1], systemNames, sandbox), items[|items| - 1], systemNames, sandbox)
  }

  /** The tools before the configured entries: Terminate, then the host proxies in host mode. */
  function BaseTools(hostMode: bool, hostTools: seq<HostMcp.HostClientTool>): seq<ToolEntry> {
    var start := [ToolEntry(TERMINATE, BuiltIn)];
    if hostMode then WithTools(start, HostEntries(hostTools)) else start
  }

  lemma AddItemExtends(tools: seq<ToolEntry>, item: ToolItem, systemNames: seq<string>,
                       sandbox: McpClientConfig -> Option<seq<ToolEntry>>)
    ensures var r := AddItem(tools, item, systemNames, sandbox);
      |tools| <= |r| && r[..|tools|] == tools
  {
    match item {
      case Named(n) =>
        WithToolsExtends(tools, [ToolEntry(n, BuiltIn)]);
        assert WithTools(tools, [ToolEntry(n, BuiltIn)]) == WithTool(tools, ToolEntry(n, BuiltIn)) by {
          assert [ToolEntry(n, BuiltIn)][..0] == [];
        }
      case McpTool(_, _, _, _, _) =>
        var reported := sandbox(ClientConfig(item));
        if reported.Some? {
          WithToolsExtends(tools, reported.value);
        }
    }
  }

  /** The configured entries only add tools after the ones already there. */
  lemma {:induction false} ConfiguredToolsExtends(tools: seq<ToolEntry>, items: seq<ToolItem>, systemNames: seq<string>,
                                                  sandbox: McpClientConfig -> Option<seq<ToolEntry>>)
    ensures var r := ConfiguredTools(tools, items, systemNames, sandbox);
      |tools| <= |r| && r[..|tools|] == tools
  {
    if |items| > 0 {
      var n := |items| - 1;
      var prev := ConfiguredTools(tools, items[..n], systemNames, sandbox);
      ConfiguredToolsExtends(tools, items[..n], systemNames, sandbox);
      AddItemExtends(prev, items[n], systemNames, sandbox);
      var r := AddItem(prev, items[n], systemNames, sandbox);
      assert r[..|tools|] == r[..|prev|][..|tools|];
    }
  }

  /** A name registered before a step of the loop stays registered. */
  lemma NamesKept(tools: seq<ToolEntry>, r: seq<ToolEntry>, name: string)
    requires |tools| <= |r| && r[..|tools|] == tools && name in ToolNames(tools)
    ensures name in ToolNames(r)
  {
    var i :| 0 <= i < |tools| && ToolNames(tools)[i] == name;
    assert r[i] == tools[i];
  }

  /** Every configured name of a system tool ends up registered. */
  lemma {:induction false} SystemToolsRegistered(tools: seq<ToolEntry>, items: seq<ToolItem>, systemNames: seq<string>,
                                                 sandbox: McpClientConfig -> Option<seq<ToolEntry>>)
    ensures forall i :: 0 <= i < |items| && items[i].Named? && items[i].name in systemNames ==>
      items[i].name in ToolNames(ConfiguredTools(tools, items, systemNames, sandbox))
  {
    if |items| > 0 {
      var n := |items| - 1;
      var prev := ConfiguredTools(tools, items[..n], systemNames, sandbox);
      var r := ConfiguredTools(tools, items, systemNames, sandbox);
      SystemToolsRegistered(tools, items[..n], systemNames, sandbox);
      AddItemExtends(prev, items[n], systemNames, sandbox);
      forall i | 0 <= i < |items| && items[i].Named? && items[i].name in systemNames
        ensures items[i].name in ToolNames(r)
      {
        if i < n {
          assert items[..n][i] == items[i];
          NamesKept(prev, r, items[i].name);
        } else {
          var t := ToolEntry(items[n].name, BuiltIn);
          if t.name !in ToolNames(prev) {
            assert ToolNames(prev + [t])[|prev|] == t.name;
          }
        }
      }
    }
  }

  /** Entries that are all unknown names leave the tools as they were. */
  lemma {:induction false} UnknownNamesSkipped(tools: seq<ToolEntry>, items: seq<ToolItem>, systemNames: seq<string>,
                                               sandbox: McpClientConfig -> Option<seq<ToolEntry>>)
    requires forall i :: 0 <= i < |items| ==> items[i].Named? && items[i].name !in systemNames
    ensures ConfiguredTools(tools, items, systemNames, sandbox) == tools
  {
    if |items| > 0 {
      var n := |items| - 1;
      UnknownNamesSkipped(tools, items[..n], systemNames, sandbox);
    }
  }

  /** The configured entries never register two tools under one name. */
  lemma {:induction false} ConfiguredToolsDistinct(tools: seq<ToolEntry>, items: seq<ToolItem>, systemNames: seq<string>,
                                                   sandbox: McpClientConfig -> Option<seq<ToolEntry>>)
    requires Distinct(ToolNames(tools))
    ensures Distinct(ToolNames(ConfiguredTools(tools, items, systemNames, sandbox)))
  {
    if |items| > 0 {
      var n := |items| - 1;
      var prev := ConfiguredTools(tools, items[..n], systemNames, sandbox);
      ConfiguredToolsDistinct(tools, items[..n], systemNames, sandbox);
      match items[n] {
        case Named(name) =>
          WithToolsKeepsNamesDistinct(prev, [ToolEntry(name, BuiltIn)]);
          assert WithTools(prev, [ToolEntry(name, BuiltIn)]) == WithTool(prev, ToolEntry(name, BuiltIn)) by {
            assert [ToolEntry(name, BuiltIn)][..0] == [];
          }
        case McpTool(_, _, _, _, _) =>
          var reported := sandbox(ClientConfig(items[n]));
          if reported.Some? {
            WithToolsKeepsNamesDistinct(prev, reported.value);
          }
      }
    }
  }

  /** After `prepare` no two tools share a name, whatever the host and the configuration report. */
  lemma PreparedToolsDistinct(hostMode: bool, hostTools: seq<HostMcp.HostClientTool>, items: seq<ToolItem>,
                              systemNames: seq<string>, sandbox: McpClientConfig -> Option<seq<ToolEntry>>)
    ensures Distinct(ToolNames(ConfiguredTools(BaseTools(hostMode, hostTools), items, systemNames, sandbox)))
  {
    var start := [ToolEntry(TERMINATE, BuiltIn)];
    assert Distinct(ToolNames(start));
    WithToolsKeepsNamesDistinct(start, HostEntries(hostTools));
    ConfiguredToolsDistinct(BaseTools(hostMode, hostTools), items, systemNames, sandbox);
  }

  /** After `prepare`, Terminate is the first tool, whatever the configuration. */
  lemma TerminateComesFirst(hostMode: bool, hostTools: seq<HostMcp.HostClientTool>, items: seq<ToolItem>,
                            systemNames: seq<string>, sandbox: McpClientConfig -> Option<seq<ToolEntry>>)
    ensures var r := ConfiguredTools(BaseTools(hostMode, hostTools), items, systemNames, sandbox);
      |r| >= 1 && r[0] == ToolEntry(TERMINATE, BuiltIn)
  {
    var start := [ToolEntry(TERMINATE, BuiltIn)];
    var base := BaseTools(hostMode, hostTools);
    WithToolsExtends(start, HostEntries(hostTools));
    assert |base| >= 1 && base[0] == start[0] by {
      assert base[..1] == start;
    }
    ConfiguredToolsExtends(base, items, systemNames, sandbox);
    var r := ConfiguredTools(base, items, systemNames, sandbox);
    assert r[..|base|][0] == r[0];
  }

  // ---------------------------------------------------------------------------
  // The agent

  /** `self.language or "English"`: an unset or empty language falls back to English. */
  function PromptLanguage(language: Option<string>): (l: string)
    ensures l != ""
    ensures l == "English" <==> language.None? || language.value in {"", "English"}
  {
    if language.Some? && language.value != "" then language.value else "English"
  }

  class Manus {
    /** The base-agent part: memory, state, next-step prompt and step counters. */
    const agent: Agent
    /** The names of `SYSTEM_TOOLS_MAP`, declared by tool classes outside this model. */
    const systemToolNames: seq<string>
    /** `BrowserUseTool().name`. */
    const browserToolName: string
    var taskId: string
    var language: Option<string>
    var taskDir: string
    var tools: Option<seq<ToolItem>>
    var taskRequest: string
    var systemPrompt: string
    var helper: ToolCallContextHelper?

    /**
     * A new agent: at most 20 steps, and the system and next-step prompts formatted for
     * step 0 of 20 with no task yet, in English, on the class's creation date.
     */
    constructor (systemToolNames: seq<string>, browserToolName: string,
                 formatSystem: SystemPromptArgs -> string, formatNext: NextStepArgs -> string, currentDate: string)
      ensures this.systemToolNames == systemToolNames && this.browserToolName == browserToolName
      ensures systemPrompt == formatSystem(SystemPromptArgs(WORKSPACE, "Not Specified", "Not Specified", "English",
                                                            currentDate, DEFAULT_MAX_STEPS, 0))
      ensures fresh(agent) && agent.maxSteps == DEFAULT_MAX_STEPS && agent.currentStep == 0
      ensures agent.nextStepPrompt == formatNext(StepArgs(DEFAULT_MAX_STEPS, 0, "Not Specified"))
      ensures agent.memory == [] && agent.state == Running
      ensures taskDir == "" && taskRequest == "" && language.None? && tools.None? && helper == null
    {
      this.systemToolNames := systemToolNames;
      this.browserToolName := browserToolName;
      agent := new Agent(formatNext(NextStepArgs(20, 0, 20, "Not Specified")), 20);
      taskId := "";
      language := None;
      taskDir := "";
      tools := None;
      taskRequest := "";
      systemPrompt := formatSystem(SystemPromptArgs("/workspace", "Not Specified", "Not Specified", "English",
                                                    currentDate, 20, 0));
      helper := null;
    }

    /**
     * `initialize`: records its task and its directory, restarts the step count, and
     * overwrites the step limit and the request only when they are given.
     */
    method Initialize(taskId: string, language: Option<string>, tools: Option<seq<ToolItem>>,
                      maxSteps: Option<int>, taskRequest: Option<string>)
      modifies this`taskId, this`language, this`taskDir, this`tools, this`taskRequest,
               agent`currentStep, agent`maxSteps
      ensures this.taskId == taskId && this.language == language && this.tools == tools
      ensures taskDir == WORKSPACE + "/" + taskId
      ensures agent.currentStep == 0
      ensures agent.maxSteps == maxSteps.GetOr(old(agent.maxSteps))
      ensures this.taskRequest == taskRequest.GetOr(old(this.taskRequest))
    {
      this.taskId := taskId;
      this.language := language;
      taskDir := "/workspace/" + taskId;
      agent.currentStep := 0;
      this.tools := tools;
      if maxSteps.Some? {
        agent.maxSteps := maxSteps.value;
      }
      if taskRequest.Some? {
        this.taskRequest := taskRequest.value;
      }
    }

    /**
     * `prepare`: formats both prompts, records the system prompt, makes a new tool
     * helper holding only Terminate, connects the host bridge, and adds the configured
     * entries in order.
     */
    method Prepare(formatSystem: SystemPromptArgs -> string, formatNext: NextStepArgs -> string, currentDate: string,
                   envHostMode: Option<string>, host: HostMcp.HostMCPTools, discovery: HostMcp.HttpReply<HostMcp.Discovery>,
                   sandbox: McpClientConfig -> Option<seq<ToolEntry>>)
      modifies this`systemPrompt, this`helper, agent`nextStepPrompt, agent`memory, host`tools, host`toolMap
      ensures systemPrompt == formatSystem(SystemPromptArgs(WORKSPACE, taskId, taskDir, PromptLanguage(language),
                                                            currentDate, agent.maxSteps, agent.currentStep))
      ensures agent.nextStepPrompt == formatNext(StepArgs(agent.maxSteps, agent.currentStep, taskDir))
      ensures agent.memory == old(agent.memory) + [SystemMessage(systemPrompt)]
      ensures helper != null && fresh(helper) && helper.agent == agent
      ensures helper.hostConnected == HostMcp.HostModeEnabled(envHostMode)
      ensures HostMcp.HostModeEnabled(envHostMode) ==>
        HostMcp.Fetched(host.tools, host.toolMap) == HostMcp.FetchResult(discovery, host.hostAddress, host.hostPort)
      ensures helper.availableTools
        == ConfiguredTools(BaseTools(HostMcp.HostModeEnabled(envHostMode), host.tools), tools.GetOr([]), systemToolNames, sandbox)
    {
      systemPrompt := formatSystem(SystemPromptArgs("/workspace", taskId, taskDir, PromptLanguage(language),
                                                    currentDate, agent.maxSteps, agent.currentStep));
      agent.nextStepPrompt := formatNext(NextStepArgs(agent.maxSteps, agent.currentStep, agent.maxSteps - agent.currentStep, taskDir));
      agent.memory := agent.memory + [SystemMessage(systemPrompt)];
      var h := new ToolCallContextHelper(agent);
      h.availableTools := [ToolEntry(TERMINATE, BuiltIn)];
      h.Initialize(envHostMode, host, discovery);
      var items := tools.GetOr([]);
      AddConfigured(h, items, sandbox);
      helper := h;
    }

    /** The loop of `prepare` over the configured entries. */
    method AddConfigured(h: ToolCallContextHelper, items: seq<ToolItem>, sandbox: McpClientConfig -> Option<seq<ToolEntry>>)
      modifies h`availableTools
      ensures h.availableTools == ConfiguredTools(old(h.availableTools), items, systemToolNames, sandbox)
    {
      var i := 0;
      while i < |items|
        invariant 0 <= i <= |items|
        invariant h.availableTools == ConfiguredTools(old(h.availableTools), items[..i], systemToolNames, sandbox)
      {
        assert items[..i + 1][..i] == items[..i];
        match items[i] {
          case Named(n) =>
            if n in systemToolNames {
              h.AddTool(ToolEntry(n, BuiltIn));
            }
          case McpTool(id, _, command, args, env) =>
            var config := StdioClient(id, command, args, env);
            h.AddMcp(config, sandbox(config));
        }
        i := i + 1;
      }
      assert items[..i] == items;
    }

    /**
     * `think`: asks the model with the next-step prompt for this step, or the browser
     * helper's prompt when the browser was used in the last three messages; when the
     * ask returns, the prompt from before the call is put back. An exception leaves
     * the step prompt in place.
     */
    method Think(reply: LlmReply, decode: string -> Option<Json>, formatNext: NextStepArgs -> string, browserPrompt: string)
      returns (r: Outcome<bool>)
      requires helper != null && helper.agent == agent
      modifies agent`nextStepPrompt, agent`memory, agent`state, helper`toolCalls
      ensures var used := if BrowserInUseRecently(old(agent.memory), browserToolName) then browserPrompt
                          else formatNext(StepArgs(agent.maxSteps, agent.currentStep, taskDir));
        var s := Ask(used, helper.toolChoice, reply, decode);
        && r == s.outcome
        && agent.memory == old(agent.memory) + s.appended
        && helper.toolCalls == s.calls.GetOr(old(helper.toolCalls))
        && agent.state == (if s.finishes then Finished else old(agent.state))
        && agent.nextStepPrompt == (if r.Returned? then old(agent.nextStepPrompt) else used)
    {
      var original := agent.nextStepPrompt;
      var prompt := formatNext(StepArgs(agent.maxSteps, agent.currentStep, taskDir));
      if BrowserInUseRecently(agent.memory, browserToolName) {
        prompt := browserPrompt;
      }
      agent.nextStepPrompt := prompt;
      r := helper.AskTool(reply, decode);
      if r.Raised? {
        return;
      }
      agent.nextStepPrompt := original;
    }

    /** `act`: `execute_tool`, its replies joined with blank lines. */
    method Act(decode: string -> Option<Json>, outcomes: seq<ToolOutcome>) returns (r: Outcome<string>)
      requires helper != null && helper.agent == agent && |outcomes| == |helper.toolCalls|
      modifies helper`currentImage, agent`state, agent`memory
      ensures helper.toolCalls == [] ==>
        r == JoinOutcome(NoCallsOutcome(helper.toolChoice, old(agent.memory))) && agent.memory == old(agent.memory)
      ensures helper.toolCalls != [] ==>
        var b := RunCalls(helper.toolCalls, Steps(helper.toolCalls, outcomes, ToolNames(helper.availableTools), helper.specialToolNames, decode), helper.maxObserve);
        r == JoinOutcome(BatchOutcome(b))
        && agent.memory == old(agent.memory) + b.messages
        && agent.state == (if b.finishes then Finished else old(agent.state))
    {
      var e := helper.ExecuteTool(decode, outcomes);
      r := JoinOutcome(e);
    }

    /**
     * `cleanup`: when `prepare` has made a tool helper, its tools are cleaned up, which
     * disconnects the host bridge if it was connected; the browser's cleanup is not modelled.
     */
    method Cleanup(host: HostMcp.HostMCPTools)
      modifies if helper != null then {helper} else {}, host`tools, host`toolMap
      ensures helper != null ==> !helper.hostConnected
      ensures helper != null ==>
        helper.availableTools == old(helper.availableTools) && helper.toolCalls == old(helper.toolCalls)
      ensures helper != null && old(helper.hostConnected) ==> host.tools == [] && host.toolMap == []
      ensures helper == null || !old(helper.hostConnected) ==>
        host.tools == old(host.tools) && host.toolMap == old(host.toolMap)
    {
      if helper != null {
        helper.CleanupTools(host);
      }
    }
  }
}
