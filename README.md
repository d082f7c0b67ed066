# OpenManus tool dispatch, host bridge, mounts and file preview — a Dafny model

This project models the parts of OpenManus that decide what happens to a
language-model answer, a tool call, a mount record or a previewed file.

- **Tool-call layer** (`ToolCallAgent`, toolcall.dfy):
  - `ToolCallContextHelper` records the model's answer under the tool-choice policy (`ask_tool`).
  - It dispatches each proposed call to the registered tool and turns every failure into an error reply (`execute_tool_command`).
  - It runs the calls in order, truncating each reply to `max_observe` and remembering it as a tool message (`execute_tool`).
  - Special tools finish the agent (`handle_special_tool`), and the host bridge is disconnected on cleanup.
- **Host MCP bridge** (`HostMcp`, host_mcp.dfy):
  - Discovery registers every tool of every host server as `mcp_<server>_<tool>`.
  - A call to a host tool turns the HTTP status and the JSON body into a tool result.
- **MCP server** (`McpServer`, mcp_server.dfy):
  - It routes composite names back to the host.
  - It forwards calls over HTTP and builds each tool's docstring, signature and parameter schema.
- **Manus agent** (`Manus`, manus.dfy): `initialize`, the tool assembly in `prepare`, the prompt swap in `think`, `act`, the browser-use check and `cleanup`.
- **Mount tables**:
  - the core's `MountManager` (mount_manager.dfy);
  - the monitor container's handlers and its compose-volume rebuild (monitor.dfy);
  - the request id validators (mount_models.dfy).
- **Web client file preview**:
  - the plugin registry (plugin_manager.dfy);
  - in preview_content.dfy, the language table, the HTML test, the too-large-or-binary test, the order of the preview's checks and the workspace path navigation.

Shared modules:
- `Wrappers` has `Option`.
- `Text` has Python and JavaScript string operations: `split`, `split` with a limit, `join`, ASCII `lower`, `strip`, `endswith`, `str` of an integer and `int` of a string.
- `Dicts` is an insertion-ordered dictionary as a sequence of pairs.
- `Schema` has messages, tool calls, agent states, tool choices and Python exceptions as values (`Outcome<T> = Returned | Raised`).

Everything outside the process is a parameter of the model: the language model's answer, `json.loads`, each tool's `execute`, HTTP replies, the environment, the clock and file contents.

Where the code behaves otherwise than its names, comments and messages suggest, the model follows the code:
- A special tool whose `execute` raises does not finish the agent. The handler is only reached after a tool returns (app/agent/toolcall.py:294,327-334).
- Malformed JSON arguments make `execute_tool_command` raise `UnboundLocalError` instead of returning its error string, because the handler reads `args` (app/agent/toolcall.py:317-326). `ask_tool` calls `json.loads` outside any `try` (app/agent/toolcall.py:161), so this path is never reached after a normal `ask_tool`. `ToolCallAgent.AskedCallsNeverRaise` proves that.
- `Manus.think` puts the saved prompt back only when `ask_tool` returns, not when it raises (app/agent/manus.py:186-209).
- `HostMCPTools.connect` always reports success (app/tool/host_mcp.py:86-101).
- `get_mount_info` writes the ids into the stored record itself (app/container/mount_manager.py:70-73).

## Model

| member | source | states |
|---|---|---|
| ToolCallAgent.IsSpecialTool | app/agent/toolcall.py:351-353 | a name is special exactly when its lower-cased form is among the lower-cased special tool names |
| ToolCallAgent.ShouldFinishExecution | app/agent/toolcall.py:347-349 | every special tool that runs finishes the agent, whatever it returned |
| ToolCallAgent.Dispatch | app/agent/toolcall.py:262-334 | one call: an invalid or unknown name, undecodable arguments ending in UnboundLocalError, a tool that raises, or the observation with special-tool handling |
| ToolCallAgent.Truncate | app/agent/toolcall.py:243-244 | `result[:max_observe]` when the limit is truthy, the whole result otherwise |
| ToolCallAgent.NoCallsOutcome | app/agent/toolcall.py:225-232 | with no calls, REQUIRED raises ValueError, an empty memory raises IndexError, and otherwise the last message's content or the fallback text |
| ToolCallAgent.Answer | app/agent/toolcall.py:126-218 | the messages recorded, the calls kept and the value returned for the model's answer under each tool-choice mode and failure |
| ToolCallAgent.Ask | app/agent/toolcall.py:111-218 | `ask_tool`: a non-empty step prompt recorded as a user message, then the answer |
| ToolCallAgent.WithToolsExtends | app/agent/toolcall.py:60-62 | adding tools keeps every registered tool in place and only appends |
| ToolCallAgent.WithToolsRegistersAll | app/agent/toolcall.py:60-62 | after adding tools, every added name is registered |
| ToolCallAgent.WithToolsKeepsNamesDistinct | app/agent/toolcall.py:60-62 | registered tool names stay pairwise distinct |
| ToolCallAgent.DispatchRaisesOnlyOnBadArguments | app/agent/toolcall.py:262-334 | dispatching one call raises only for a registered tool whose arguments do not decode (the unbound `args` path) |
| ToolCallAgent.DispatchFinishesIff | app/agent/toolcall.py:336-349 | a call finishes the agent exactly when a special tool ran and returned |
| ToolCallAgent.DispatchErrorsChangeNothing | app/agent/toolcall.py:262-334 | an invalid name, an unknown tool or a raising tool gives its error reply and leaves the agent state and the image slot unchanged |
| ToolCallAgent.SpecialToolIgnoresCase | app/agent/toolcall.py:351-353 | the special-tool test does not depend on the case of the name |
| ToolCallAgent.SpecialToolMatches | app/agent/toolcall.py:351-353 | a name is special exactly when it equals a special name up to ASCII case |
| ToolCallAgent.TruncateIsPrefix | app/agent/toolcall.py:243-244 | a truncated reply is a prefix of the reply; a positive limit bounds its length and leaves shorter replies whole |
| ToolCallAgent.RunCallsStops | app/agent/toolcall.py:237-258 | once a call raises, the later calls change nothing |
| ToolCallAgent.RunCallsReplies | app/agent/toolcall.py:237-260 | reply i is the truncated reply to call i, remembered as a tool message with the call's id, name and image; a run that stops early stops at a call that raised |
| ToolCallAgent.RunCallsFinishes | app/agent/toolcall.py:237-258 | a run finishes the agent exactly when one of the calls it reached finished it |
| ToolCallAgent.RunCallsCompleteWhenArgumentsDecode | app/agent/toolcall.py:237-260 | when every call's arguments decode, no call raises and every call gets a reply |
| ToolCallAgent.JoinedTextLength | app/agent/toolcall.py:398-401 | with no calls, `act` joins the characters of the last message with blank lines: n > 0 characters become 3n - 2 |
| ToolCallAgent.ArgumentsDecode | app/agent/toolcall.py:155-165 | the decode loop returns true exactly when every call's arguments decode |
| ToolCallAgent.AskRecordsPromptFirst | app/agent/toolcall.py:111-125 | a non-empty step prompt is recorded as a user message before anything else |
| ToolCallAgent.AskUnderNone | app/agent/toolcall.py:181-191 | under NONE, content is recorded only when non-empty and the step reports whether there was content |
| ToolCallAgent.AskOtherwise | app/agent/toolcall.py:194-208 | otherwise exactly one assistant message with the calls is recorded, and the step acts when there are calls, calls are required, or there is content |
| ToolCallAgent.AskFinishesOnlyAtTokenLimit | app/agent/toolcall.py:126-138 | only a token-limit failure finishes the agent; it records why and reports no progress |
| ToolCallAgent.AskRaisesOnEmptyArguments | app/agent/toolcall.py:155-165 | a proposed call with an empty arguments text makes `ask_tool` raise a JSON decode error, when "" does not decode |
| ToolCallAgent.AskedCallsNeverRaise | app/agent/toolcall.py:317-326 | the calls recorded by a returning `ask_tool` all dispatch without raising |
| ToolCallAgent.ToolCallContextHelper.constructor | app/agent/toolcall.py:40-58 | a helper starts with the two default tools, AUTO, `terminate` as special tool, no calls and no image |
| ToolCallAgent.ToolCallContextHelper.AddTool | app/agent/toolcall.py:60-62 | the tool is added unless its name is taken; nothing else changes |
| ToolCallAgent.ToolCallContextHelper.AddMcp | app/agent/toolcall.py:64-82 | an sse or stdio description adds the client's tools in order; anything else adds nothing |
| ToolCallAgent.ToolCallContextHelper.Initialize | app/agent/toolcall.py:84-109 | in host mode the bridge connects and its proxies are added in order; otherwise nothing changes |
| ToolCallAgent.ToolCallContextHelper.AddHostTools | app/agent/toolcall.py:101-103 | the proxies are added one by one, in order |
| ToolCallAgent.ToolCallContextHelper.HandleSpecialTool | app/agent/toolcall.py:336-349 | a special tool sets FINISHED; any other tool leaves the state alone |
| ToolCallAgent.ToolCallContextHelper.ExecuteToolCommand | app/agent/toolcall.py:262-334 | the reply, new state and image are those of the dispatch function for this call |
| ToolCallAgent.ToolCallContextHelper.ExecuteTool | app/agent/toolcall.py:220-260 | with no calls, the required-calls error or the last content; otherwise the run over the calls, with its replies and memory |
| ToolCallAgent.ToolCallContextHelper.DispatchAll | app/agent/toolcall.py:237-258 | the loop ends in the state and memory of the run over all calls |
| ToolCallAgent.ToolCallContextHelper.DispatchOne | app/agent/toolcall.py:238-258 | one iteration extends the run by one step |
| ToolCallAgent.ToolCallContextHelper.AskTool | app/agent/toolcall.py:111-218 | the memory, state and calls after `ask_tool` are those of the answer function for this prompt and reply |
| ToolCallAgent.ToolCallContextHelper.RecordAnswer | app/agent/toolcall.py:126-218 | records the model's answer under the tool-choice policy |
| ToolCallAgent.ToolCallContextHelper.CleanupTools | app/agent/toolcall.py:355-378 | a connected bridge is disconnected and marked so; otherwise nothing changes |
| ToolCallAgent.ToolCallAgent.constructor | app/agent/toolcall.py:389-392 | the agent gets a fresh helper |
| ToolCallAgent.ToolCallAgent.Think | app/agent/toolcall.py:394-396 | `think` is one `ask_tool` |
| ToolCallAgent.ToolCallAgent.Act | app/agent/toolcall.py:398-401 | `act` joins the replies of `execute_tool` with blank lines |
| ToolCallAgent.ToolCallAgent.Run | app/agent/toolcall.py:426-431 | the result of the step loop, returned or raised, is passed on unchanged, and cleanup always runs |
| HostMcp.CallResult | app/tool/host_mcp.py:36-55 | a host reply as the proxy's result: the joined text items on 200, flagged as error when the host says so, and the HTTP error otherwise |
| HostMcp.FetchResult | app/tool/host_mcp.py:103-149 | `_fetch_available_tools` for a reply: both collections cleared, the tools registered in order, and `tools` filled only when every discovered tool had a name |
| HostMcp.PortSetting | app/tool/host_mcp.py:77 | `int` of `MCP_HOST_PORT` or of "8001": the integer, or ValueError for text that is not one |
| HostMcp.ExecuteClientTool | app/tool/host_mcp.py:25-61 | posts to the tool's own URL; the result is the collected text of the reply's text items under its status and error flag |
| HostMcp.ContentTextAppend | app/tool/host_mcp.py:44-48 | the collected text of concatenated item lists is the concatenation of their texts |
| HostMcp.NonTextItemIgnored | app/tool/host_mcp.py:44-48 | an item that is not a text item adds nothing |
| HostMcp.CallResultShape | app/tool/host_mcp.py:36-55 | a 200 reply is an error exactly when the host flags it, and is never both output and error; a non-200 reply is the HTTP error |
| HostMcp.ServerRegistrationsSnoc | app/tool/host_mcp.py:122-141 | one more tool of a server adds one registration after those before it |
| HostMcp.RegisterServerStep | app/tool/host_mcp.py:126-141 | registering tool j of a server is one step after tools 0..j-1 |
| HostMcp.RegisterServerStops | app/tool/host_mcp.py:126-149 | a nameless tool stops registration for the rest of its server |
| HostMcp.RegistrationsSnoc | app/tool/host_mcp.py:122-141 | one more server adds its tools after those of the servers before it |
| HostMcp.RegistrationsAppend | app/tool/host_mcp.py:122-141 | the registrations of concatenated server lists are those of each list, in order |
| HostMcp.RegisterStops | app/tool/host_mcp.py:146-149 | once registration has stopped, further tools change nothing |
| HostMcp.RegisterCompleteIff | app/tool/host_mcp.py:122-149 | registration gets through every tool exactly when every discovered tool has a name |
| HostMcp.RegisterMapsLastRegistered | app/tool/host_mcp.py:122-143 | each composite name maps to the proxy of the last discovered tool with that name |
| HostMcp.FetchResultShape | app/tool/host_mcp.py:103-149 | `tools` is always the map's values or empty; a non-200 reply leaves both empty |
| HostMcp.NamelessToolEmptiesTools | app/tool/host_mcp.py:128-149 | a nameless discovered tool leaves `tools` empty, whatever else was found |
| HostMcp.PortSettingDefault | app/tool/host_mcp.py:77 | an unset `MCP_HOST_PORT` gives port 8001 |
| HostMcp.PortSettingAcceptsAnyInteger | app/tool/host_mcp.py:77 | the text of any integer, negative ones included, becomes that port: nothing checks the range |
| HostMcp.PortSettingRejects | app/tool/host_mcp.py:77 | port text holding a character other than whitespace, a sign or a digit raises ValueError |
| HostMcp.NewHostMCPTools | app/tool/host_mcp.py:73-84 | raises exactly when the port text does not convert, with that ValueError; otherwise a new empty collection with the environment's address and the converted port |
| HostMcp.HostMCPTools.constructor | app/tool/host_mcp.py:73-84 | the collection starts empty, with the host address from the environment or its default and the converted port |
| HostMcp.HostMCPTools.FetchAvailableTools | app/tool/host_mcp.py:103-149 | `tools` and `tool_map` become those of the fetch function for the host's reply |
| HostMcp.HostMCPTools.RegisterServer | app/tool/host_mcp.py:126-141 | the inner loop registers a server's tools on top of earlier registrations and reports a nameless tool |
| HostMcp.HostMCPTools.Connect | app/tool/host_mcp.py:86-101 | fetches the tool list and always reports success |
| HostMcp.HostMCPTools.Disconnect | app/tool/host_mcp.py:151-155 | leaves the collection empty, which makes it idempotent |
| McpServer.RouteFor | app/mcp/server.py:63-72 | in host mode a name `mcp_<server>_<tool>` that splits into three parts goes to the host; every other call runs locally |
| McpServer.ViaHttpResult | app/mcp/server.py:106-150 | the string `_execute_via_http` returns for each kind of host reply; it never raises |
| McpServer.ToolMethod | app/mcp/server.py:59-83 | the generated method: the host's reply, the JSON text of a dumpable or dict result, or the local result unchanged; a local exception passes through |
| McpServer.Docstring | app/mcp/server.py:152-172 | the description, then the header and one line per property when there are properties |
| McpServer.ParameterSchema | app/mcp/server.py:91-100 | one entry per property with its description, type and required flag |
| McpServer.LocalWhenHostModeOff | app/mcp/server.py:63 | with host mode off every call runs locally |
| McpServer.LocalWithoutPrefix | app/mcp/server.py:63 | a name that does not start with "mcp_" runs locally |
| McpServer.CompositeNameShape | app/mcp/server.py:63-68 | a composite name "mcp_<server>_<tool>" starts with "mcp_" and splits at the next underscore |
| McpServer.CompositeNameRoundTrip | app/mcp/server.py:65-68 | splitting a composite name recovers server and tool exactly when the server name has no underscore |
| McpServer.HostRouteRecoversName | app/mcp/server.py:63-70 | a call routed to the host came in host mode from exactly the composite name of that server and tool, with an underscore-free server name |
| McpServer.ViaHttpAgreesWithClientTool | app/mcp/server.py:106-150 | forwarding agrees with the bridge's client tool: the same output on success and the same text on a host-reported error or non-200 status |
| McpServer.HostCallIgnoresLocalTool | app/mcp/server.py:63-72 | a forwarded call never raises and never consults the local tool |
| McpServer.LocalCallIgnoresHost | app/mcp/server.py:75-83 | a local call raises exactly when the tool raises and returns the result unchanged exactly when it is neither a model nor a dict |
| McpServer.ParamLinesSnoc | app/mcp/server.py:163-170 | one more property adds its line after the earlier ones |
| McpServer.ParamLinesAppend | app/mcp/server.py:163-170 | the lines of concatenated property lists are those of each, in order |
| McpServer.DocstringShape | app/mcp/server.py:152-172 | the docstring starts with the description, is nothing more exactly when there are no properties, and otherwise continues with the parameters header |
| McpServer.AnnotationTableRoundTrip | app/mcp/server.py:186-199 | the type table is a bijection between the six JSON-schema type names and six annotations; every other name gets `Any` |
| McpServer.Signature | app/mcp/server.py:174-210 | one parameter per property in order, each under the property's name, with no default exactly when required and the annotation of the type table |
| McpServer.IsIdentifier | app/mcp/server.py:202-207 | `str.isidentifier()`, which `inspect.Parameter` applies to each parameter name |
| McpServer.ValidParamName | app/mcp/server.py:202-207 | the names `inspect.Parameter` accepts: identifiers that are not Python keywords |
| McpServer.ParamNameError | app/mcp/server.py:202-207 | what `inspect.Parameter` raises for a keyword-only parameter name: something exactly when the name is refused; IndexError for the empty name, the implicit-argument ValueError for ".N", otherwise the ValueError quoting `repr(name)` |
| McpServer.ParamNameErrorPlain | app/mcp/server.py:202-207 | a refused name of printable ASCII without quotes or backslashes, a keyword for instance, appears in the message between single quotes as it is |
| McpServer.ParamNameErrorDoubleQuoted | app/mcp/server.py:202-207 | a refused name holding `'` and no `"` raises a ValueError whose message quotes it with `"` |
| Text.ReprRoundTrip | app/mcp/server.py:202-207 | `repr` of a parameter name, as the refusal message quotes it: enclosed in its quote, and its escapes read back to the name |
| Text.ReprPlain | app/mcp/server.py:202-207 | `repr` of printable ASCII without quotes or backslashes is the text between single quotes |
| McpServer.SignatureOutcome | app/mcp/server.py:174-210 | `_build_signature`: the signature, or the exception `inspect.Parameter` raises for the first property name it refuses |
| McpServer.FirstInvalidSkipsValid | app/mcp/server.py:181-209 | accepted names in front of the properties do not change which name is refused first |
| McpServer.SignatureOutcomeIff | app/mcp/server.py:174-210 | building the signature raises exactly when some property name is refused, with that name's exception (IndexError, the implicit-argument ValueError or the `repr`-quoting ValueError); otherwise it returns the signature |
| McpServer.ParameterSchemaKeys | app/mcp/server.py:91-100 | the schema's keys are exactly the property names, in order |
| McpServer.ParameterSchemaHas | app/mcp/server.py:91-100 | a name is in the schema exactly when it is a property name |
| McpServer.ParameterSchemaGet | app/mcp/server.py:93-99 | with distinct property names, each maps to its own description (default ""), type (default "any") and required flag |
| McpServer.ViewsAgree | app/mcp/server.py:87-100 | the docstring line, schema entry and signature parameter of a property agree on type, requiredness and description |
| McpServer.MethodsFor | app/mcp/server.py:220-223 | one generated method per tool, in order, under the tool's own name |
| McpServer.RegistrationError | app/mcp/server.py:52-104 | `register_tool` raises exactly the error of the tool's signature |
| McpServer.RegisterAll | app/mcp/server.py:220-223 | `register_all_tools`: the methods registered until the first exception, and that exception |
| McpServer.RegisterAllSnoc | app/mcp/server.py:220-223 | one more tool adds nothing after an exception, and otherwise its error or its method |
| McpServer.RegisterAllStops | app/mcp/server.py:220-223 | once a tool has raised, the tools after it change nothing |
| McpServer.RegisterAllStepRaises | app/mcp/server.py:220-223 | a tool that raises, after tools that did not, ends the loop with its exception and no further method |
| McpServer.RegisterAllStepAppends | app/mcp/server.py:220-223 | a tool whose signature builds, after tools that did not raise, adds its method after theirs |
| McpServer.RegisterAllCount | app/mcp/server.py:220-223 | one method per tool until the first tool that raises; every tool before it has a buildable signature, and the exception is that tool's |
| McpServer.RegisterAllPrefix | app/mcp/server.py:220-223 | the methods registered are those of a prefix of the tools, in order and under their own names |
| McpServer.RegisterAllRaisesIff | app/mcp/server.py:220-223 | the loop raises exactly when some tool's signature cannot be built; otherwise every tool is registered in order |
| McpServer.AllRegistered | app/mcp/server.py:220-223 | with no exception, the methods of every tool are registered, in order |
| McpServer.NewMCPServer | app/mcp/server.py:30-50 | raises exactly when the port text does not convert, with that ValueError; otherwise a new server with host mode and address from the environment, the converted port, the four standard tools and nothing registered |
| McpServer.MCPServer.constructor | app/mcp/server.py:30-50 | host mode and address come from the environment, the port is the converted one, and the four standard tools are installed |
| McpServer.MCPServer.BuildDocstring | app/mcp/server.py:152-172 | the loop builds the docstring of the specification function |
| McpServer.MCPServer.BuildSignature | app/mcp/server.py:174-210 | raises exactly when some property name is not an identifier or is a keyword, with `inspect.Parameter`'s exception for the first one; otherwise one keyword-only parameter per property, in order, with no default exactly when required and the annotation of the type table |
| McpServer.MCPServer.RegisterTool | app/mcp/server.py:52-104 | raises the signature's ValueError and registers nothing, or appends the generated method (name, docstring, signature, schema) |
| McpServer.MCPServer.RegisterAllTools | app/mcp/server.py:220-223 | the registered methods and the exception are those of the registration function over the tools, in order |
| McpServer.MCPServer.ExecuteViaHttp | app/mcp/server.py:106-150 | posts to the URL of the tool part alone and returns the string of the reply mapping |
| McpServer.MCPServer.CallTool | app/mcp/server.py:59-83 | a call of a generated method is its route's result under this server's host mode |
| Manus.BrowserInUseRecently | app/agent/manus.py:216-225 | `_check_browser_in_use_recently`: one of the last three messages calls the browser tool |
| Manus.ConfiguredTools | app/agent/manus.py:141-156 | the loop of `prepare`: a known system tool name adds its tool, an MCP entry adds what its client reports, anything else adds nothing |
| Manus.StepArgs | app/agent/manus.py:190-195 | the steps remaining are the maximum less the current step |
| Manus.RecentMessages | app/agent/manus.py:218-219 | the last three messages, or all of them when there are fewer |
| Manus.CallsToolIff | app/agent/manus.py:220-224 | the call test holds exactly when some call of some message has the name |
| Manus.BrowserInUseIff | app/agent/manus.py:216-225 | the browser counts as in use exactly when one of the last three messages carries a browser call |
| Manus.AddItemExtends | app/agent/manus.py:141-156 | one configured entry only appends tools |
| Manus.ConfiguredToolsExtends | app/agent/manus.py:141-156 | the configured entries only add tools after those already there |
| Manus.NamesKept | app/agent/manus.py:141-156 | a name registered before an entry stays registered |
| Manus.SystemToolsRegistered | app/agent/manus.py:141-147 | every configured system tool name ends up registered |
| Manus.UnknownNamesSkipped | app/agent/manus.py:143-147 | unknown names leave the tools as they were |
| Manus.ConfiguredToolsDistinct | app/agent/manus.py:141-156 | the configured entries never register two tools under one name |
| Manus.PreparedToolsDistinct | app/agent/manus.py:134-156 | after `prepare` no two tools share a name |
| Manus.TerminateComesFirst | app/agent/manus.py:134-139 | after `prepare`, Terminate is the first tool |
| Manus.Manus.constructor | app/agent/manus.py:50-83 | a new agent has 20 steps, the system prompt formatted for no task in English on the creation date, and the next-step prompt for step 0 of 20 |
| Manus.Manus.Initialize | app/agent/manus.py:85-105 | records its task and `/workspace/<task id>`, resets the step count, and overwrites step limit and request only when given |
| Manus.PromptLanguage | app/agent/manus.py:117 | `self.language or "English"`: never empty, and English exactly when the language is unset, empty or English |
| Manus.Manus.Prepare | app/agent/manus.py:111-156 | formats both prompts (an unset or empty language as English), records the system prompt, and ends with a fresh helper whose tools are the prepared tool list |
| Manus.Manus.AddConfigured | app/agent/manus.py:141-156 | the loop adds the configured entries in order |
| Manus.Manus.Think | app/agent/manus.py:186-209 | asks with the step prompt or the browser prompt; a returning ask restores the prompt from before the call |
| Manus.Manus.Act | app/agent/manus.py:211-214 | `execute_tool`'s replies joined with blank lines |
| Manus.Manus.Cleanup | app/agent/manus.py:227-234 | a prepared helper's tools are cleaned up; otherwise nothing changes |
| MountManager.MountKey | app/container/mount_manager.py:62-64 | the key is the user id, ":" and the workspace id, at known positions |
| MountManager.MountKeySplitIff | app/container/mount_manager.py:81 | splitting a key at its first ":" gives back user and workspace exactly when the user id has no ":" |
| MountManager.AnnotatedGet | app/container/mount_manager.py:70-73 | the annotated record carries the two ids and keeps every other field |
| MountManager.AnnotatedIdempotent | app/container/mount_manager.py:70-73 | annotating twice with the same ids is annotating once |
| MountManager.KeyParts | app/container/mount_manager.py:81 | a key splits into a ":"-free user part and the rest |
| MountManager.KeyPartsOfKey | app/container/mount_manager.py:81 | a key made from a ":"-free user id splits back into its ids |
| MountManager.Listing | app/container/mount_manager.py:76-87 | `list_mounts`: one entry per key with a ":", in table order |
| MountManager.Rewritten | app/container/mount_manager.py:218-231 | the volumes not mounted at the workspace's target, in order, then the new entry |
| MountManager.ListEntryGet | app/container/mount_manager.py:80-86 | a listed entry has the key's ids unless the stored record overrides them; every other field is the stored one |
| MountManager.ListingContains | app/container/mount_manager.py:76-87 | every entry whose key has a ":" is listed |
| MountManager.ListingSkipsPlainKeys | app/container/mount_manager.py:80 | keys without ":" are not listed |
| MountManager.ListingAppend | app/container/mount_manager.py:76-87 | the listing of a concatenated table is the listings of its parts, in order |
| MountManager.ListingSkipsPlainKey | app/container/mount_manager.py:80 | an entry whose key has no ":" contributes nothing, wherever it is in the table |
| MountManager.ListingLength | app/container/mount_manager.py:76-87 | the listing has exactly one entry per key with a ":" |
| MountManager.ListingOnlyEntries | app/container/mount_manager.py:76-87 | every listed entry is made from a table entry whose key has a ":" |
| MountManager.AddedMountListed | app/container/mount_manager.py:76-115 | a mount added for a ":"-free user id is listed with its ids and stored fields |
| MountManager.OtherVolumes | app/container/mount_manager.py:225 | the kept volumes are exactly those not ending with the target suffix |
| MountManager.OtherVolumesAppend | app/container/mount_manager.py:225 | filtering distributes over concatenation |
| MountManager.OtherVolumesIdempotent | app/container/mount_manager.py:225 | filtering twice is filtering once |
| MountManager.ReplacedIdempotent | app/container/mount_manager.py:225-228 | replacing twice with an entry that has the suffix is replacing once |
| MountManager.RewrittenIdempotent | app/container/mount_manager.py:218-231 | rewriting the volumes twice for one mount is rewriting once |
| MountManager.MountManager.constructor | app/container/mount_manager.py:33-52 | the table is the loaded one, or empty when there is none |
| MountManager.MountManager.GetMountInfo | app/container/mount_manager.py:66-74 | None when absent; a non-empty record comes back annotated and is stored annotated; an empty record is returned as it is |
| MountManager.MountManager.ListMounts | app/container/mount_manager.py:76-87 | the loop yields the listing of the table |
| MountManager.MountManager.AddMount | app/container/mount_manager.py:89-115 | stores the new record under the key, replacing any earlier one, and returns True |
| MountManager.MountManager.RemoveMount | app/container/mount_manager.py:117-124 | True exactly when the key was present; the key is removed and nothing else changes |
| MountManager.MountManager.UpdateDockerCompose | app/container/mount_manager.py:206-231 | the new entry is last, no other volume is mounted at the target, and the others keep their order |
| MountManager.MountManager.ApplyMount | app/container/mount_manager.py:183-241 | adds the mount; an unreadable compose file, a missing key or a failed write returns False without a restart; otherwise the rewritten volumes are written and the result is the restart's |
| MountManager.AddThenGet | app/container/mount_manager.py:66-115 | after an add, a lookup finds the new, non-empty record |
| MountManager.RemoveThenGet | app/container/mount_manager.py:117-124 | after a remove, the key is absent and every other key is unchanged |
| Monitor.Rebuilt | monitor/app.py:113-151 | the system volumes, then each table entry's volume once; nothing when a local path is not a string |
| Monitor.SystemVolumes | monitor/app.py:117-121 | the kept volumes are exactly the volumes that are not user volumes |
| Monitor.HostPath | monitor/app.py:135-139 | the written local path has no backslash |
| Monitor.Contributions | monitor/app.py:127-142 | one contribution per table entry, in table order |
| Monitor.AddEntriesPrefix | monitor/app.py:124-147 | the rebuild keeps the starting volumes as a prefix and adds each new volume once, never one already there |
| Monitor.AddEntriesOnlyEntries | monitor/app.py:127-147 | everything added is the entry of some table record |
| Monitor.AddEntriesHasEntries | monitor/app.py:127-147 | every table entry ends up in the list |
| Monitor.AddEntriesFailsIff | monitor/app.py:128-136 | the rebuild fails exactly when a qualifying record's `local_path` is null |
| Monitor.RebuiltShape | monitor/app.py:113-151 | the rebuilt list is the system volumes in order, then each table entry once, and nothing else |
| Monitor.Partition | monitor/app.py:113-121 | the loop splits the volumes into the system volumes in order and the user volumes |
| Monitor.AppendEntries | monitor/app.py:124-147 | the loop appends the table's entries as the rebuild function does, stopping on a null path |
| Monitor.UpdateDockerCompose | monitor/app.py:100-161 | True and the rebuilt list exactly when the compose volumes were read, the rebuild succeeds and the write succeeds; otherwise False and no list |
| Monitor.MountStore.constructor | monitor/app.py:75-86 | the store holds the loaded table |
| Monitor.MountStore.GetMount | monitor/app.py:296-315 | 200 with the ids and the stored fields, or 404 when the key is absent |
| Monitor.MountStore.AddMount | monitor/app.py:317-370 | 400 when a required field is missing; otherwise the key of the formatted ids gets the new record, with 200 and the mount under the request's own ids when saved, and 500 and no change when not |
| Monitor.AddedMountReply | monitor/app.py:331-360 | the reply gives back the request's ids unchanged, null included, and every stored field, while the container path holds the formatted ids |
| Monitor.MountStore.RemoveMount | monitor/app.py:372-405 | 404 when absent; otherwise only that key is removed, with 200 when saved and 500 and no change when not |
| Monitor.AddThenGetMount | monitor/app.py:296-358 | the mount returned by an add is what a later get returns |
| Monitor.RemoveOnlyThatKey | monitor/app.py:376-381 | a remove deletes its own key and no other |
| Monitor.AddedMountContributes | monitor/app.py:127-147 | an added mount for a ":"-free user id contributes `<path>:/workspace/<u>/<w>` to the next rebuild |
| MountModels.NonBlank | app/apis/models/mount.py:17-19 | raises exactly for a blank value and returns any other value unchanged |
| MountModels.ValidateUserId | app/apis/models/mount.py:14-19 | blank user ids raise their ValueError; others come back unchanged |
| MountModels.ValidateWorkspaceId | app/apis/models/mount.py:21-26 | blank workspace ids raise their ValueError; others come back unchanged |
| MountModels.EmptyIdRefused | app/apis/models/mount.py:17-19 | the empty id raises |
| MountModels.PaddedIdKept | app/apis/models/mount.py:17-19 | an id with a character other than whitespace is accepted unchanged, blanks around it included |
| MountModels.ValidateIdempotent | app/apis/models/mount.py:14-26 | an accepted id passes the validator again unchanged |
| PluginManager.LoadAll | web/src/components/features/chat/preview/preview-content/file-preview-plugin-manager.ts:44-54 | `loadAllPlugins`: the loads in order, up to and including the first failure, and whether all succeeded |
| PluginManager.PluginFor | web/src/components/features/chat/preview/preview-content/file-preview-plugin-manager.ts:97-111 | `getPluginForFileType` over the manifests in the map's order |
| PluginManager.PluginForCases | web/src/components/features/chat/preview/preview-content/file-preview-plugin-manager.ts:97-111 | for "html" or "htm" in any case the first manifest handling either wins; otherwise the first manifest listing the lower-cased type, or none |
| PluginManager.LoadAllSucceedsIff | web/src/components/features/chat/preview/preview-content/file-preview-plugin-manager.ts:50-54 | loading all plugins succeeds exactly when every load succeeds |
| PluginManager.LoadAllStopsAtFailure | web/src/components/features/chat/preview/preview-content/file-preview-plugin-manager.ts:44-54 | the loads after the first failure never happen |
| PluginManager.Find | web/src/components/features/chat/preview/preview-content/file-preview-plugin-manager.ts:103-110 | the result is the first manifest accepted, or none exactly when no manifest is accepted |
| PluginManager.PluginForIgnoresQueryCase | web/src/components/features/chat/preview/preview-content/file-preview-plugin-manager.ts:99 | the case of the queried type does not matter |
| PluginManager.UpperCaseTypesNeverMatch | web/src/components/features/chat/preview/preview-content/file-preview-plugin-manager.ts:99-110 | a manifest whose every file type has an upper-case letter is never returned |
| PluginManager.FilePreviewPluginManager.constructor | web/src/components/features/chat/preview/preview-content/file-preview-plugin-manager.ts:32 | the registry starts empty |
| PluginManager.FilePreviewPluginManager.LoadPlugin | web/src/components/features/chat/preview/preview-content/file-preview-plugin-manager.ts:34-48 | a fetched manifest is stored under its name; the load succeeds only when fetch and resources succeed |
| PluginManager.FilePreviewPluginManager.LoadAllPlugins | web/src/components/features/chat/preview/preview-content/file-preview-plugin-manager.ts:50-54 | the loop ends in the state and outcome of loading in order up to the first failure |
| PluginManager.FilePreviewPluginManager.GetPluginForFileType | web/src/components/features/chat/preview/preview-content/file-preview-plugin-manager.ts:97-111 | the lookup result is a registered manifest chosen as the lookup function does |
| PreviewContent.FileLanguageAsWritten | web/src/components/features/chat/preview/preview-content/index.tsx:672-715 | `getFileLanguage` as written: an own entry's language, an inherited `Object.prototype` member, or 'text' |
| PreviewContent.IsHtmlFile | web/src/components/features/chat/preview/preview-content/index.tsx:184-187 | `isHtmlFile`: the lower-cased name ends in ".html" or ".htm" |
| PreviewContent.TooLargeOrBinary | web/src/components/features/chat/preview/preview-content/index.tsx:618 | the test for showing only a download button: too long, or a control character in the head |
| PreviewContent.ViewFor | web/src/components/features/chat/preview/preview-content/index.tsx:512-636 | the preview's checks in order: no content, HTML, a plugin, too large or binary, otherwise highlighting |
| PreviewContent.IsRootDirectory | web/src/components/features/chat/preview/preview-content/index.tsx:199 | `isRootDirectory`: an empty path, or one that splits at "/" into one piece |
| PreviewContent.Back | web/src/components/features/chat/preview/preview-content/index.tsx:202-207 | `handleBackClick`: the root stays, otherwise the last segment is dropped |
| PreviewContent.Enter | web/src/components/features/chat/preview/preview-content/index.tsx:215-220 | `handleItemClick`: the item's name appended after a "/" |
| PreviewContent.Extension | web/src/components/features/chat/preview/preview-content/index.tsx:516 | the extension never contains "." |
| PreviewContent.ExtensionOfSuffixed | web/src/components/features/chat/preview/preview-content/index.tsx:516 | the extension of `<base>.<ext>` is the lower-cased `ext` when `ext` has no "." |
| PreviewContent.ExtensionWithoutDot | web/src/components/features/chat/preview/preview-content/index.tsx:673 | a name without "." is its own extension, lower-cased |
| PreviewContent.LanguageEntry | web/src/components/features/chat/preview/preview-content/index.tsx:674-713 | a table entry is a non-empty language |
| PreviewContent.ConstructorExtensionAsWritten | web/src/components/features/chat/preview/preview-content/index.tsx:714 | as written, a file named `<x>.constructor` gets the object's inherited constructor as its language |
| PreviewContent.AsWrittenOfExtension | web/src/components/features/chat/preview/preview-content/index.tsx:672-715 | the as-written language depends on the path only through its extension |
| PreviewContent.FileLanguage | web/src/components/features/chat/preview/preview-content/index.tsx:672-715 | the language is always a table language or 'text' |
| PreviewContent.FileLanguageAgrees | web/src/components/features/chat/preview/preview-content/index.tsx:714 | the corrected and as-written languages agree on every path whose extension is not an inherited member name |
| PreviewContent.DockerfileLanguage | web/src/components/features/chat/preview/preview-content/index.tsx:710 | a bare `Dockerfile`, in any case, is highlighted as dockerfile |
| PreviewContent.UnknownExtensionIsText | web/src/components/features/chat/preview/preview-content/index.tsx:714 | an extension outside the table gives 'text' |
| PreviewContent.HtmlFileLanguage | web/src/components/features/chat/preview/preview-content/index.tsx:184-187 | an HTML file is highlighted as html |
| PreviewContent.HtmlSuffixes | web/src/components/features/chat/preview/preview-content/index.tsx:184-187 | a name ending in ".html" or ".htm", in any case, is an HTML file |
| PreviewContent.Head | web/src/components/features/chat/preview/preview-content/index.tsx:618 | the head is the first 1000 characters, or all of a shorter content |
| PreviewContent.TooLargeOrBinaryIff | web/src/components/features/chat/preview/preview-content/index.tsx:618 | too large or binary exactly when longer than 100000 characters or one of the first 1000 is in U+0000-U+0008 or U+000E-U+001F |
| PreviewContent.TextControlsAllowed | web/src/components/features/chat/preview/preview-content/index.tsx:618 | tab, line feed, vertical tab, form feed and carriage return never make content binary |
| PreviewContent.HighlightedOnlyWhenShowable | web/src/components/features/chat/preview/preview-content/index.tsx:512-636 | highlighting happens exactly for non-empty, non-HTML content no plugin claims that is neither too large nor binary, always in a language of the corrected table lookup |
| PreviewContent.HighlightedAgreesWithSource | web/src/components/features/chat/preview/preview-content/index.tsx:714 | wherever `getFileLanguage` as written gives a language name, the highlighted view uses that name |
| PreviewContent.HtmlNeverReachesPlugins | web/src/components/features/chat/preview/preview-content/index.tsx:516-615 | an HTML file always gets the built-in preview, whatever plugins claim html |
| PreviewContent.PluginViewListsExtension | web/src/components/features/chat/preview/preview-content/index.tsx:612-615 | a plugin that gets the file is registered and lists the file's extension |
| PreviewContent.RootIff | web/src/components/features/chat/preview/preview-content/index.tsx:199 | a path is the root exactly when it has no "/" |
| PreviewContent.BackAfterEnter | web/src/components/features/chat/preview/preview-content/index.tsx:202-219 | entering a "/"-free name leaves the root, and going back returns to the same path |
| PreviewContent.BackDropsOneSegment | web/src/components/features/chat/preview/preview-content/index.tsx:202-207 | going back below the root keeps every segment but the last, in order |

## Left out

- The language model, planning, prompt text and token counting are inputs. The model's reply is a value: content and calls, or a token-limit or other failure.
- `json.loads` is a parameter `decode`. JSON text is not parsed.
- Each tool's `execute` is an outcome given in call order. A tool result is abstracted to its text, truthiness and image. app/tool/base.py is not part of this model.
- `ToolCollection.add_tool` is modelled as "skip a name already registered". app/tool/tool_collection.py is not part of this model.
- The sandbox MCP host (`MCPToolCallSandboxHost`) is not modelled: what a client reports is an input, and `disconnect_all` is not modelled.
- HTTP sessions, timeouts and exceptions inside them are not modelled: a reply is a status plus a body, or a failure.
- Events, logging, `asyncio` scheduling and locks are not modelled. Every operation is sequential.
- FastMCP registration is not modelled. Python `Signature` objects are lists of parameter records.
- Files are not read or written: `mount_data.json`, the compose YAML and the Docker and docker-compose commands are out. Loaded data, save success and restart success are inputs.
- The clock and `str(Path(...))` normalisation are parameters.
- The HTTP routes, the mount service, the CLI script and the tests are not part of this model.
- The React rendering of the preview is not modelled: JSX, loading and error states, downloads, `formatFileSize` and the plugin container.
- Fetching plugin manifests and loading their styles and scripts is described by an outcome per plugin.
- Lower-casing is modelled for ASCII letters only. JavaScript lengths count UTF-16 code units, which the model does not distinguish from characters.
- Manus.Cleanup: the browser helper's cleanup is not modelled.
- Manus.Prepare: the browser context helper is not modelled.
- HostMcp.HostMCPTools.Connect: the swallowed exceptions of `_fetch_available_tools` are one failed-reply case.
- McpServer.IsIdentifier: every non-ASCII character counts as a letter, where Python admits only the Unicode identifier categories.
- McpServer.ParamNameError: the implicit-name test accepts ASCII digits after the dot only, where `str.isdigit` also accepts other Unicode digits; the IndexError carries no message.
- Text.Repr: characters beyond Latin-1 are written as they are, where Python escapes those it does not count as printable.
- HostMcp.PortSetting: `int` also accepts underscores between digits and non-ASCII decimal digits, which the model rejects. The error message quotes the text without `repr` escaping.
- ToolCallAgent.ToolCallContextHelper.constructor: in the source `available_tools` is a class attribute, one collection shared by every helper and changed in place by `add_tool` (app/agent/toolcall.py:41-43 and 62). The model gives each helper its own collection, so a tool added through one helper is not seen by another. `Manus` rebinds the attribute to a collection of its own (app/agent/manus.py:136), as the model does.
- ToolCallAgent.ToolCallAgent.Run: the outcome of the step loop, `BaseAgent.run` (app/agent/base.py, not part of this model), is a parameter.

## Findings

| source | as written | input that shows it | evidently intended | confidence | as-written member | corrected member |
|---|---|---|---|---|---|---|
| web/src/components/features/chat/preview/preview-content/index.tsx:714 | `languageMap[ext \|\| ''] \|\| 'text'` looks the extension up on a plain object, so names inherited from `Object.prototype` also match | a file named `x.constructor` gets the `Object` constructor function, not a language string | 'text' for every extension outside the table | not executed | PreviewContent.ConstructorExtensionAsWritten | PreviewContent.FileLanguageAgrees |
