/**
 * The host bridge: tools that live on the host machine, reached over HTTP.
 *
 * `HostMCPTools` asks the host for its tool list (`GET /mcp/tools`) and registers one
 * proxy per discovered tool under the composite name `mcp_<server>_<tool>`; each proxy,
 * `HostMCPClientTool`, forwards a call as `POST /mcp/tools/<tool>/call` and turns the
 * reply into a tool result. The HTTP exchange itself is a parameter: the reply the host
 * sent, or the transport failure that occurred instead.
 */
module HostMcp {
  import opened Wrappers
  import opened Text
  import opened Dicts
  import opened Schema

  /** The prefix of every error reported for a failed call to a host tool. */
  const CALL_FAILED := "调用宿主机工具失败: "
  /** The error reported when the host flags an error but sends no text. */
  const ERROR_WITHOUT_TEXT := "调用出错，但未返回错误信息"
  const NO_OUTPUT := "No output returned."

  const DEFAULT_HOST_ADDRESS := "host.docker.internal"
  const DEFAULT_HOST_PORT := 8001
  /** `MCP_HOST_PORT`'s default, as the text `int` is applied to. */
  const DEFAULT_HOST_PORT_TEXT := "8001"

  /** `MCP_HOST_MODE` (default "false") turns host mode on when it lower-cases to "true". */
  predicate HostModeEnabled(env: Option<string>) {
    Lower(env.GetOr("false")) == "true"
  }

  /**
   * What an HTTP request produced: a reply with its status, raw text and decoded JSON
   * body, or an exception raised while sending it or decoding the body.
   */
  datatype HttpReply<T> = Response(status: nat, text: string, body: T) | TransportError(detail: string)

  /** One item of a call result's `content` list: its `type` and `text`, when present. */
  datatype ContentItem = ContentItem(kind: Option<string>, text: Option<string>)

  /** The JSON body of a call reply: `content` when present, and `isError`. */
  datatype CallBody = CallBody(content: Option<seq<ContentItem>>, isError: bool)

  /** `ToolResult(output=…)` or `ToolResult(error=…)`. */
  datatype ToolResult = ToolResult(output: Option<string>, error: Option<string>)

  /** A proxy for one host tool. */
  datatype HostClientTool = HostClientTool(
    name: string,
    description: string,
    parameters: Option<ParamSchema>,
    originalName: string,
    hostAddress: string,
    hostPort: int,
    serverName: string)

  /** The name under which the agent sees tool `tool` of host server `server`. */
  function CompositeName(server: string, tool: string): string {
    "mcp_" + server + "_" + tool
  }

  function ToolsUrl(address: string, port: int): string {
    "http://" + address + ":" + IntText(port) + "/mcp/tools"
  }

  /** The endpoint that runs host tool `tool`; only the tool's own name appears in it. */
  function CallUrl(address: string, port: int, tool: string): string {
    ToolsUrl(address, port) + "/" + tool + "/call"
  }

  /** The text an item contributes: its `text` when its `type` is "text", else nothing. */
  function ItemText(item: ContentItem): string {
    if item.kind == Some("text") && item.text.Some? then item.text.value else ""
  }

  /** The text items of `items` concatenated in order. */
  function ContentText(items: seq<ContentItem>): string {
    if |items| == 0 then "" else ContentText(items[..|items| - 1]) + ItemText(items[|items| - 1])
  }

  function BodyText(body: CallBody): string {
    if body.content.Some? then ContentText(body.content.value) else ""
  }

  /** The result a call to a host tool yields for a given host reply. */
  function CallResult(reply: HttpReply<CallBody>): ToolResult {
    match reply
    case TransportError(detail) => ToolResult(None, Some(CALL_FAILED + detail))
    case Response(status, _, body) =>
      if status != 200 then ToolResult(None, Some(CALL_FAILED + "HTTP " + Decimal(status)))
      else
        var text := BodyText(body);
        if body.isError then ToolResult(None, Some(if text != "" then text else ERROR_WITHOUT_TEXT))
        else ToolResult(Some(if text != "" then text else NO_OUTPUT), None)
  }

  /**
   * `HostMCPClientTool.execute`: posts the call to the tool's URL and collects the text
   * items of the reply. Returns the URL it posted to and the tool result.
   */
  method ExecuteClientTool(tool: HostClientTool, reply: HttpReply<CallBody>) returns (url: string, r: ToolResult)
    ensures url == CallUrl(tool.hostAddress, tool.hostPort, tool.originalName)
    ensures r == CallResult(reply)
  {
    url := "http://" + tool.hostAddress + ":" + IntText(tool.hostPort) + "/mcp/tools/" + tool.originalName + "/call";
    match reply {
      case TransportError(detail) =>
        return url, ToolResult(None, Some(CALL_FAILED + detail));
      case Response(status, _, body) =>
        if status != 200 {
          return url, ToolResult(None, Some(CALL_FAILED + "HTTP " + Decimal(status)));
        }
        var text := "";
        if body.content.Some? {
          var items := body.content.value;
          var i := 0;
          while i < |items|
            invariant 0 <= i <= |items|
            invariant text == ContentText(items[..i])
          {
            assert items[..i + 1][..i] == items[..i];
            if items[i].kind == Some("text") && items[i].text.Some? {
              text := text + items[i].text.value;
            }
            i := i + 1;
          }
          assert items[..i] == items;
        }
        if body.isError {
          return url, ToolResult(None, Some(if text != "" then text else ERROR_WITHOUT_TEXT));
        }
        return url, ToolResult(Some(if text != "" then text else NO_OUTPUT), None);
    }
  }

  /** The text of a concatenation of item lists is the concatenation of their texts. */
  lemma {:induction false} ContentTextAppend(a: seq<ContentItem>, b: seq<ContentItem>)
    ensures ContentText(a + b) == ContentText(a) + ContentText(b)
    decreases |b|
  {
    if |b| > 0 {
      var n := |b| - 1;
      assert (a + b)[..|a + b| - 1] == a + b[..n];
      ContentTextAppend(a, b[..n]);
    } else {
      assert a + b == a;
    }
  }

  /** An item that is not a text item changes nothing in the collected text. */
  lemma NonTextItemIgnored(a: seq<ContentItem>, x: ContentItem, b: seq<ContentItem>)
    requires x.kind != Some("text")
    ensures ContentText(a + [x] + b) == ContentText(a + b)
  {
    ContentTextAppend(a + [x], b);
    ContentTextAppend(a, b);
    assert (a + [x])[..|a|] == a;
  }

  /** A successful reply is an error exactly when the host flags it, and never both. */
  lemma CallResultShape(reply: HttpReply<CallBody>)
    ensures (CallResult(reply).output.Some? <==> CallResult(reply).error.None?)
    ensures CallResult(reply).error.Some? <==> reply.TransportError? || reply.status != 200 || reply.body.isError
    ensures CallResult(reply).output.Some? ==> CallResult(reply).output.value != ""
    ensures CallResult(reply).error.Some? ==> CallResult(reply).error.value != ""
  {
  }

  // ---------------------------------------------------------------------------
  // Discovery

  /** One entry of a server's `tools` list; missing keys are None. */
  datatype DiscoveredTool = DiscoveredTool(name: Option<string>, description: Option<string>, inputSchema: Option<ParamSchema>)

  /** The value the host gives for one server: its `tools` list when present. */
  datatype ServerEntry = ServerEntry(tools: Option<seq<DiscoveredTool>>)

  /** The body of `GET /mcp/tools`: server names to their entries, in order. */
  type Discovery = seq<(string, ServerEntry)>

  /** The proxy registered for tool `t` of server `server`. */
  function MakeTool(server: string, t: DiscoveredTool, address: string, port: int): HostClientTool
    requires t.name.Some?
  {
    HostClientTool(
      CompositeName(server, t.name.value), t.description.GetOr(""), t.inputSchema,
      t.name.value, address, port, server)
  }

  /** The tools one server contributes, each paired with its server's name. */
  function ServerRegistrations(server: string, entry: ServerEntry): (regs: seq<(string, DiscoveredTool)>)
    ensures entry.tools.None? ==> regs == []
    ensures entry.tools.Some? ==> |regs| == |entry.tools.value|
    ensures entry.tools.Some? ==> forall i :: 0 <= i < |regs| ==> regs[i] == (server, entry.tools.value[i])
  {
    if entry.tools.None? then []
    else seq(|entry.tools.value|, i requires 0 <= i < |entry.tools.value| => (server, entry.tools.value[i]))
  }

  lemma ServerRegistrationsSnoc(server: string, ts: seq<DiscoveredTool>, t: DiscoveredTool)
    ensures ServerRegistrations(server, ServerEntry(Some(ts + [t])))
            == ServerRegistrations(server, ServerEntry(Some(ts))) + [(server, t)]
  {
  }

  /** Registering tool `j` of a server is one registration step after tools `0..j-1`. */
  lemma RegisterServerStep(done: seq<(string, DiscoveredTool)>, server: string, list: seq<DiscoveredTool>, j: nat, address: string, port: int)
    requires j < |list|
    ensures var before := done + ServerRegistrations(server, ServerEntry(Some(list[..j])));
      Register(done + ServerRegistrations(server, ServerEntry(Some(list[..j + 1]))), address, port)
      == RegisterOne(Register(before, address, port), (server, list[j]), address, port)
  {
    var before := done + ServerRegistrations(server, ServerEntry(Some(list[..j])));
    var after := done + ServerRegistrations(server, ServerEntry(Some(list[..j + 1])));
    assert list[..j + 1] == list[..j] + [list[j]];
    ServerRegistrationsSnoc(server, list[..j], list[j]);
    assert after == before + [(server, list[j])];
    assert after[..|after| - 1] == before;
  }

  /** A nameless tool stops registration for the rest of its server's list. */
  lemma RegisterServerStops(done: seq<(string, DiscoveredTool)>, server: string, list: seq<DiscoveredTool>, j: nat, address: string, port: int)
    requires j < |list|
    requires !Register(done + ServerRegistrations(server, ServerEntry(Some(list[..j + 1]))), address, port).complete
    ensures Register(done + ServerRegistrations(server, ServerEntry(Some(list))), address, port)
            == Register(done + ServerRegistrations(server, ServerEntry(Some(list[..j + 1]))), address, port)
  {
    var after := done + ServerRegistrations(server, ServerEntry(Some(list[..j + 1])));
    var whole := ServerRegistrations(server, ServerEntry(Some(list)));
    RegisterStops(after, whole[j + 1..], address, port);
    assert after + whole[j + 1..] == done + whole;
  }

  /** Every (server, tool) pair of a discovery body, in the order the body lists them. */
  function Registrations(servers: Discovery): seq<(string, DiscoveredTool)> {
    if |servers| == 0 then []
    else
      var last := servers[|servers| - 1];
      Registrations(servers[..|servers| - 1]) + ServerRegistrations(last.0, last.1)
  }

  /** One more server adds its tools after those of the servers before it. */
  lemma RegistrationsSnoc(s: Discovery, x: (string, ServerEntry))
    ensures Registrations(s + [x]) == Registrations(s) + ServerRegistrations(x.0, x.1)
  {
    assert (s + [x])[..|s|] == s;
  }

  /** The registrations of a concatenation are those of its halves, in order. */
  lemma {:induction false} RegistrationsAppend(a: Discovery, b: Discovery)
    ensures Registrations(a + b) == Registrations(a) + Registrations(b)
    decreases |b|
  {
    if |b| == 0 {
      assert a + b == a;
    } else {
      var n := |b| - 1;
      var last := ServerRegistrations(b[n].0, b[n].1);
      assert a + b == (a + b[..n]) + [b[n]];
      assert b == b[..n] + [b[n]];
      RegistrationsSnoc(a + b[..n], b[n]);
      RegistrationsSnoc(b[..n], b[n]);
      RegistrationsAppend(a, b[..n]);
      AppendAssoc(Registrations(a), Registrations(b[..n]), last);
    }
  }

  /**
   * The tool map built so far, and whether registration got through every tool:
   * a tool without a name raises `KeyError`, which ends registration.
   */
  datatype Registry = Registry(toolMap: Dict<string, HostClientTool>, complete: bool)

  function Register(regs: seq<(string, DiscoveredTool)>, address: string, port: int): Registry {
    if |regs| == 0 then Registry([], true)
    else RegisterOne(Register(regs[..|regs| - 1], address, port), regs[|regs| - 1], address, port)
  }

  /** One registration step: `tool_map[name] = proxy`, or the `KeyError` of a nameless tool. */
  function RegisterOne(prev: Registry, reg: (string, DiscoveredTool), address: string, port: int): Registry {
    if !prev.complete then prev
    else if reg.1.name.None? then Registry(prev.toolMap, false)
    else Registry(Put(prev.toolMap, CompositeName(reg.0, reg.1.name.value), MakeTool(reg.0, reg.1, address, port)), true)
  }

  /** Once registration has stopped, further tools change nothing. */
  lemma {:induction false} RegisterStops(regs: seq<(string, DiscoveredTool)>, more: seq<(string, DiscoveredTool)>, address: string, port: int)
    requires !Register(regs, address, port).complete
    ensures Register(regs + more, address, port) == Register(regs, address, port)
    decreases |more|
  {
    if |more| == 0 {
      assert regs + more == regs;
    } else {
      var n := |more| - 1;
      assert (regs + more)[..|regs + more| - 1] == regs + more[..n];
      RegisterStops(regs, more[..n], address, port);
    }
  }

  /** Registration gets through every tool exactly when every discovered tool has a name. */
  lemma {:induction false} RegisterCompleteIff(regs: seq<(string, DiscoveredTool)>, address: string, port: int)
    ensures Register(regs, address, port).complete <==> forall i :: 0 <= i < |regs| ==> regs[i].1.name.Some?
  {
    if |regs| > 0 {
      var n := |regs| - 1;
      var init := regs[..n];
      RegisterCompleteIff(init, address, port);
      var prev := Register(init, address, port);
      assert Register(regs, address, port) == RegisterOne(prev, regs[n], address, port);
      assert RegisterOne(prev, regs[n], address, port).complete == (prev.complete && regs[n].1.name.Some?);
      assert forall i :: 0 <= i < n ==> init[i] == regs[i];
    }
  }

  /** The tool the last registration under `key` in `regs` would register, if any. */
  function LastRegistered(regs: seq<(string, DiscoveredTool)>, key: string, address: string, port: int): Option<HostClientTool> {
    if |regs| == 0 then None
    else
      var (server, t) := regs[|regs| - 1];
      if t.name.Some? && CompositeName(server, t.name.value) == key then Some(MakeTool(server, t, address, port))
      else LastRegistered(regs[..|regs| - 1], key, address, port)
  }

  /**
   * After a complete registration, each composite name maps to the proxy of the last
   * discovered tool with that name; later servers overwrite earlier ones.
   */
  lemma {:induction false} RegisterMapsLastRegistered(regs: seq<(string, DiscoveredTool)>, key: string, address: string, port: int)
    requires Register(regs, address, port).complete
    ensures Get(Register(regs, address, port).toolMap, key) == LastRegistered(regs, key, address, port)
  {
    if |regs| > 0 {
      var n := |regs| - 1;
      var prev := Register(regs[..n], address, port);
      var (server, t) := regs[n];
      assert prev.complete && t.name.Some?;
      RegisterMapsLastRegistered(regs[..n], key, address, port);
      var k := CompositeName(server, t.name.value);
      assert Register(regs, address, port).toolMap == Put(prev.toolMap, k, MakeTool(server, t, address, port));
      PutGet(prev.toolMap, k, MakeTool(server, t, address, port), key);
      if k != key {
        assert LastRegistered(regs, key, address, port) == LastRegistered(regs[..n], key, address, port);
      }
    }
  }

  /** What discovery leaves in the collection: the tuple `tools` and the `tool_map`. */
  datatype Fetched = Fetched(tools: seq<HostClientTool>, toolMap: Dict<string, HostClientTool>)

  /**
   * `_fetch_available_tools` for a given reply: everything is cleared first; on a
   * successful reply the tools are registered in order, and `tools` becomes the
   * map's values only when registration got through every tool.
   */
  function FetchResult(reply: HttpReply<Discovery>, address: string, port: int): Fetched {
    match reply
    case TransportError(_) => Fetched([], [])
    case Response(status, _, body) =>
      if status != 200 then Fetched([], [])
      else
        var reg := Register(Registrations(body), address, port);
        Fetched(if reg.complete then Values(reg.toolMap) else [], reg.toolMap)
  }

  /** `tools` is always the map's values or empty, and a failed request leaves both empty. */
  lemma FetchResultShape(reply: HttpReply<Discovery>, address: string, port: int)
    ensures var f := FetchResult(reply, address, port);
      (f.tools == Values(f.toolMap) || f.tools == [])
      && (reply.TransportError? || reply.status != 200 ==> f == Fetched([], []))
  {
  }

  /** A discovered tool without a name leaves `tools` empty, whatever else was found. */
  lemma NamelessToolEmptiesTools(reply: HttpReply<Discovery>, address: string, port: int, i: nat)
    requires reply.Response? && reply.status == 200
    requires i < |Registrations(reply.body)| && Registrations(reply.body)[i].1.name.None?
    ensures FetchResult(reply, address, port).tools == []
  {
    RegisterCompleteIff(Registrations(reply.body), address, port);
  }

  /**
   * `int(os.environ.get("MCP_HOST_PORT", "8001"))`: the port text, or its default,
   * converted to an integer; text that is not a base-10 integer raises ValueError.
   */
  function PortSetting(envHostPort: Option<string>): Outcome<int> {
    var text := envHostPort.GetOr(DEFAULT_HOST_PORT_TEXT);
    match ParseInt(text)
    case Some(n) => Returned(n)
    case None => Raised(ValueError("invalid literal for int() with base 10: '" + text + "'"))
  }

  /** An unset `MCP_HOST_PORT` gives port 8001. */
  lemma PortSettingDefault()
    ensures PortSetting(None) == Returned(DEFAULT_HOST_PORT)
  {
    assert Decimal(8) == "8";
    assert Decimal(80) == "80";
    assert Decimal(800) == "800";
    assert IntText(DEFAULT_HOST_PORT) == DEFAULT_HOST_PORT_TEXT;
    ParseIntText(DEFAULT_HOST_PORT);
  }

  /** Any integer's text is taken as the port, negative ones included: nothing checks the range. */
  lemma PortSettingAcceptsAnyInteger(i: int)
    ensures PortSetting(Some(IntText(i))) == Returned(i)
  {
    ParseIntText(i);
  }

  /** Port text holding a character other than whitespace, a sign or a digit raises ValueError. */
  lemma PortSettingRejects(text: string, k: nat)
    requires k < |text| && !IsSpace(text[k]) && !IsDigit(text[k]) && text[k] != '-' && text[k] != '+'
    ensures PortSetting(Some(text)).Raised?
    ensures PortSetting(Some(text)).exception.ValueError?
  {
    if ParseInt(text).Some? {
      ParseIntChars(text, k);
    }
  }

  class HostMCPTools {
    var tools: seq<HostClientTool>
    var toolMap: Dict<string, HostClientTool>
    const hostAddress: string
    const hostPort: int

    /**
     * The collection starts empty; the host's address comes from `MCP_HOST_IP`, with
     * its default when unset, and `port` is `MCP_HOST_PORT` once converted (see
     * `NewHostMCPTools` for the conversion, which may raise).
     */
    constructor(envHostIp: Option<string>, port: int)
      ensures tools == [] && toolMap == []
      ensures hostAddress == envHostIp.GetOr(DEFAULT_HOST_ADDRESS)
      ensures hostPort == port
    {
      tools := [];
      toolMap := [];
      hostAddress := envHostIp.GetOr(DEFAULT_HOST_ADDRESS);
      hostPort := port;
    }

    /** `_fetch_available_tools`, given the host's reply to `GET /mcp/tools`. */
    method FetchAvailableTools(reply: HttpReply<Discovery>)
      modifies this`tools, this`toolMap
      ensures Fetched(tools, toolMap) == FetchResult(reply, hostAddress, hostPort)
    {
      tools := [];
      toolMap := [];
      match reply {
        case TransportError(_) =>
          return;
        case Response(status, _, body) =>
          if status != 200 {
            return;
          }
          var i := 0;
          while i < |body|
            invariant 0 <= i <= |body|
            invariant Register(Registrations(body[..i]), hostAddress, hostPort) == Registry(toolMap, true)
            invariant tools == []
          {
            var stopped := RegisterServer(Registrations(body[..i]), body[i].0, body[i].1);
            assert body[..i + 1][..i] == body[..i];
            if stopped {
              // `tool['name']` raised KeyError, which is logged and swallowed.
              RegistrationsAppend(body[..i + 1], body[i + 1..]);
              assert body[..i + 1] + body[i + 1..] == body;
              RegisterStops(Registrations(body[..i + 1]), Registrations(body[i + 1..]), hostAddress, hostPort);
              return;
            }
            i := i + 1;
          }
          assert body[..i] == body;
          tools := Values(toolMap);
      }
    }

    /**
     * The inner loop of discovery: registers the tools of one server on top of the
     * registrations `done` already made, and reports whether a nameless tool stopped it.
     */
    method RegisterServer(ghost done: seq<(string, DiscoveredTool)>, server: string, entry: ServerEntry) returns (stopped: bool)
      requires Register(done, hostAddress, hostPort) == Registry(toolMap, true)
      modifies this`toolMap
      ensures Register(done + ServerRegistrations(server, entry), hostAddress, hostPort) == Registry(toolMap, !stopped)
    {
      if entry.tools.None? {
        assert done + [] == done;
        return false;
      }
      var list := entry.tools.value;
      var j := 0;
      assert done + ServerRegistrations(server, ServerEntry(Some(list[..0]))) == done;
      while j < |list|
        invariant 0 <= j <= |list|
        invariant Register(done + ServerRegistrations(server, ServerEntry(Some(list[..j]))), hostAddress, hostPort)
                  == Registry(toolMap, true)
      {
        var t := list[j];
        RegisterServerStep(done, server, list, j, hostAddress, hostPort);
        if t.name.None? {
          RegisterServerStops(done, server, list, j, hostAddress, hostPort);
          return true;
        }
        toolMap := Put(toolMap, CompositeName(server, t.name.value), MakeTool(server, t, hostAddress, hostPort));
        j := j + 1;
      }
      assert list[..j] == list;
      assert ServerEntry(Some(list)) == entry;
      return false;
    }

    /** `connect`: fetches the tool list and reports success, which it always does. */
    method Connect(reply: HttpReply<Discovery>) returns (ok: bool)
      modifies this`tools, this`toolMap
      ensures ok
      ensures Fetched(tools, toolMap) == FetchResult(reply, hostAddress, hostPort)
    {
      FetchAvailableTools(reply);
      return true;
    }

    /** `disconnect`: empties the collection; doing it twice is the same as once. */
    method Disconnect()
      modifies this`tools, this`toolMap
      ensures tools == [] && toolMap == []
    {
      tools := [];
      toolMap := [];
    }
  }

  /**
   * `HostMCPTools()`: raises the ValueError of `int(...)` when `MCP_HOST_PORT` is not
   * an integer, and otherwise returns a new empty collection for the host named by
   * the environment.
   */
  method NewHostMCPTools(envHostIp: Option<string>, envHostPort: Option<string>) returns (r: Outcome<HostMCPTools>)
    ensures r.Raised? <==> PortSetting(envHostPort).Raised?
    ensures r.Raised? ==> r.exception == PortSetting(envHostPort).exception
    ensures r.Returned? ==>
      && fresh(r.value)
      && r.value.tools == [] && r.value.toolMap == []
      && r.value.hostAddress == envHostIp.GetOr(DEFAULT_HOST_ADDRESS)
      && r.value.hostPort == PortSetting(envHostPort).value
  {
    match PortSetting(envHostPort)
    case Raised(e) =>
      r := Raised(e);
    case Returned(port) =>
      var host := new HostMCPTools(envHostIp, port);
      r := Returned(host);
  }
}
