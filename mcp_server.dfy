/**
 * The MCP server that exposes the agent's tools (`MCPServer`). Each registered tool
 * gets a generated method whose docstring, signature and parameter schema come from
 * the tool's JSON-schema parameter object. In host mode a method whose name has the
 * composite form `mcp_<server>_<tool>` does not run locally: the name is split apart
 * again and the call is forwarded to the host over HTTP.
 *
 * FastMCP itself, `json.dumps` and the HTTP exchange are not part of this model: the
 * registry is a list of the generated methods, `json.dumps` is a parameter, and the
 * host's reply is an input.
 */
module McpServer {
  import opened Wrappers
  import opened Text
  import opened Dicts
  import opened Schema
  import HostMcp

  /** Prefix of the reply when the host reports a tool error. */
  const HOST_TOOL_ERROR := "宿主机工具执行错误: "
  /** Prefix of the reply when the HTTP exchange itself raised. */
  const HTTP_CALL_FAILED := "HTTP调用宿主机工具失败: "
  /** What the docstring puts between the description and the parameter lines. */
  const PARAMETERS_HEADER := "\n\nParameters:\n"

  // ---------------------------------------------------------------------------
  // Routing composite names

  /** Where a generated method sends a call. */
  datatype Route = HostRoute(serverName: string, toolName: string) | LocalRoute

  /**
   * The routing test of `tool_method`: in host mode a name starting with "mcp_" is
   * split at the first two underscores; with three pieces, the second is the server
   * and the third, which keeps any further underscores, is the tool.
   */
  function RouteFor(hostMode: bool, name: string): Route {
    if hostMode && StartsWith(name, "mcp_") then
      var parts := SplitN(name, '_', 2);
      if |parts| >= 3 then HostRoute(parts[1], parts[2]) else LocalRoute
    else LocalRoute
  }

  /** With host mode off every call runs locally. */
  lemma LocalWhenHostModeOff(name: string)
    ensures RouteFor(false, name) == LocalRoute
  {
  }

  /** A name that does not start with "mcp_" runs locally. */
  lemma LocalWithoutPrefix(hostMode: bool, name: string)
    requires !StartsWith(name, "mcp_")
    ensures RouteFor(hostMode, name) == LocalRoute
  {
  }

  /** A composite name "mcp_<server>_<tool>" with its leading "mcp_" split off. */
  lemma CompositeNameShape(server: string, tool: string)
    ensures var name := HostMcp.CompositeName(server, tool);
      StartsWith(name, "mcp_")
      && SplitN(name, '_', 2) == ["mcp"] + SplitN(server + "_" + tool, '_', 1)
  {
    var name := HostMcp.CompositeName(server, tool);
    assert name == "mcp" + ['_'] + (server + "_" + tool);
    SplitNConcat("mcp", server + "_" + tool, '_', 2);
  }

  /**
   * Splitting a composite name recovers the server and the tool exactly when the
   * server name has no underscore.
   */
  lemma CompositeNameRoundTrip(server: string, tool: string)
    ensures RouteFor(true, HostMcp.CompositeName(server, tool)) == HostRoute(server, tool)
            <==> '_' !in server
  {
    var rest := server + "_" + tool;
    CompositeNameShape(server, tool);
    if '_' !in server {
      assert rest == server + ['_'] + tool;
      SplitNConcat(server, tool, '_', 1);
    } else {
      assert '_' in rest by {
        assert rest[..|server|] == server;
      }
      SplitNTwoPieces(rest, '_', 1);
      var q := SplitN(rest, '_', 1);
      assert '_' !in q[0];
      assert q[0] != server;
    }
  }

  /**
   * A call routed to the host came from host mode and a name that is exactly the
   * composite name of that server and tool, with an underscore-free server name.
   */
  lemma HostRouteRecoversName(hostMode: bool, name: string, server: string, tool: string)
    requires RouteFor(hostMode, name) == HostRoute(server, tool)
    ensures hostMode && '_' !in server
    ensures name == HostMcp.CompositeName(server, tool)
  {
    var rest := name[4..];
    assert name == "mcp" + ['_'] + rest;
    SplitNConcat("mcp", rest, '_', 2);
    var q := SplitN(rest, '_', 1);
    assert SplitN(name, '_', 2) == ["mcp"] + q;
    assert q == [server, tool];
    JoinSplitN(rest, '_', 1);
    assert Join(q, "_") == server + "_" + Join([tool], "_");
  }

  // ---------------------------------------------------------------------------
  // Forwarding a call to the host

  /**
   * The string `_execute_via_http` returns for a reply of the host. It never raises:
   * a failed exchange becomes an error string as well.
   */
  function ViaHttpResult(reply: HostMcp.HttpReply<HostMcp.CallBody>): string {
    match reply
    case TransportError(detail) => HTTP_CALL_FAILED + detail
    case Response(status, text, body) =>
      if status != 200 then HostMcp.CALL_FAILED + "HTTP " + Decimal(status) + ": " + text
      else
        var content := HostMcp.BodyText(body);
        if body.isError then HOST_TOOL_ERROR + content
        else if content != "" then content else HostMcp.NO_OUTPUT
  }

  /**
   * The server's forwarding agrees with the host bridge's own client tool: the same
   * output on success; on a host-reported error or a non-200 status it reports the
   * same text, with its own prefix and without the bridge's fallback message.
   */
  lemma ViaHttpAgreesWithClientTool(reply: HostMcp.HttpReply<HostMcp.CallBody>)
    ensures var bridge := HostMcp.CallResult(reply);
      && (bridge.output.Some? ==> ViaHttpResult(reply) == bridge.output.value)
      && (reply.Response? && reply.status == 200 && reply.body.isError ==>
            ViaHttpResult(reply) == HOST_TOOL_ERROR + HostMcp.BodyText(reply.body)
            && bridge.error == Some(if HostMcp.BodyText(reply.body) != "" then HostMcp.BodyText(reply.body)
                                    else HostMcp.ERROR_WITHOUT_TEXT))
      && (reply.Response? && reply.status != 200 ==>
            ViaHttpResult(reply) == bridge.error.value + ": " + reply.text)
  {
  }

  // ---------------------------------------------------------------------------
  // Running a generated method

  /** What a local tool's `execute` returned: an object with `model_dump`, a dict, or anything else. */
  datatype LocalValue = Dumpable(dump: Json) | DictValue(fields: seq<(string, Json)>) | OtherValue(value: string)

  /** What a generated method returns: the host's reply text, a JSON text, or the tool's own result. */
  datatype MethodReturn = HostReply(text: string) | Serialized(text: string) | Unchanged(value: string)

  /**
   * `tool_method`: forwards a call with a host route; otherwise runs the local tool,
   * serialises a result with `model_dump` or a dict result, and returns anything else
   * unchanged. An exception of the local tool passes through.
   */
  function ToolMethod(hostMode: bool, toolName: string, local: Outcome<LocalValue>,
                      reply: HostMcp.HttpReply<HostMcp.CallBody>, dumps: Json -> string): Outcome<MethodReturn> {
    match RouteFor(hostMode, toolName)
    case HostRoute(_, _) => Returned(HostReply(ViaHttpResult(reply)))
    case LocalRoute =>
      match local
      case Raised(e) => Raised(e)
      case Returned(Dumpable(d)) => Returned(Serialized(dumps(d)))
      case Returned(DictValue(fields)) => Returned(Serialized(dumps(JObject(fields))))
      case Returned(OtherValue(v)) => Returned(Unchanged(v))
  }

  /** A forwarded call never raises and never consults the local tool. */
  lemma HostCallIgnoresLocalTool(hostMode: bool, toolName: string, local1: Outcome<LocalValue>, local2: Outcome<LocalValue>,
                                 reply: HostMcp.HttpReply<HostMcp.CallBody>, dumps: Json -> string)
    requires RouteFor(hostMode, toolName).HostRoute?
    ensures ToolMethod(hostMode, toolName, local1, reply, dumps) == ToolMethod(hostMode, toolName, local2, reply, dumps)
    ensures ToolMethod(hostMode, toolName, local1, reply, dumps).Returned?
  {
  }

  /**
   * A local call never consults the host; it raises exactly when the tool raises and
   * returns its result unchanged exactly when that is neither a model nor a dict.
   */
  lemma LocalCallIgnoresHost(hostMode: bool, toolName: string, local: Outcome<LocalValue>,
                             reply1: HostMcp.HttpReply<HostMcp.CallBody>, reply2: HostMcp.HttpReply<HostMcp.CallBody>,
                             dumps: Json -> string)
    requires RouteFor(hostMode, toolName) == LocalRoute
    ensures var r := ToolMethod(hostMode, toolName, local, reply1, dumps);
      && r == ToolMethod(hostMode, toolName, local, reply2, dumps)
      && (r.Raised? <==> local.Raised?)
      && (r.Returned? && r.value.Unchanged? <==> local.Returned? && local.value.OtherValue?)
  {
  }

  // ---------------------------------------------------------------------------
  // Docstring

  function RequiredMark(name: string, required: seq<string>): string {
    if name in required then "(required)" else "(optional)"
  }

  /** The docstring line of one property: name, type ("any" when absent), mark, description. */
  function ParamLine(name: string, p: Property, required: seq<string>): string {
    "    " + name + " (" + p.typeName.GetOr("any") + ") " + RequiredMark(name, required) + ": "
    + p.description.GetOr("") + "\n"
  }

  /** The lines of `props` in order. */
  function ParamLines(props: seq<(string, Property)>, required: seq<string>): string {
    if |props| == 0 then ""
    else ParamLines(props[..|props| - 1], required) + ParamLine(props[|props| - 1].0, props[|props| - 1].1, required)
  }

  /** The parameter object of a tool function; an absent one has no properties. */
  function SchemaOf(parameters: Option<ParamSchema>): ParamSchema {
    parameters.GetOr(ParamSchema([], []))
  }

  /** `_build_docstring`: the description, then the parameter lines when there are properties. */
  function Docstring(description: Option<string>, schema: ParamSchema): string {
    if |schema.properties| == 0 then description.GetOr("")
    else description.GetOr("") + PARAMETERS_HEADER + ParamLines(schema.properties, schema.required)
  }

  /** One more property adds its line after the lines before it. */
  lemma ParamLinesSnoc(props: seq<(string, Property)>, x: (string, Property), required: seq<string>)
    ensures ParamLines(props + [x], required) == ParamLines(props, required) + ParamLine(x.0, x.1, required)
  {
    assert (props + [x])[..|props|] == props;
  }

  /** The lines of a concatenation of property lists are the lines of each, in order. */
  lemma {:induction false} ParamLinesAppend(a: seq<(string, Property)>, b: seq<(string, Property)>, required: seq<string>)
    ensures ParamLines(a + b, required) == ParamLines(a, required) + ParamLines(b, required)
    decreases |b|
  {
    if |b| == 0 {
      assert a + b == a;
    } else {
      var n := |b| - 1;
      var line := ParamLine(b[n].0, b[n].1, required);
      assert a + b == (a + b[..n]) + [b[n]];
      assert b == b[..n] + [b[n]];
      ParamLinesSnoc(a + b[..n], b[n], required);
      ParamLinesSnoc(b[..n], b[n], required);
      ParamLinesAppend(a, b[..n], required);
      AppendAssoc(ParamLines(a, required), ParamLines(b[..n], required), line);
    }
  }

  /**
   * The docstring starts with the description; it is nothing more exactly when there
   * are no properties, and otherwise the header follows it.
   */
  lemma DocstringShape(description: Option<string>, schema: ParamSchema)
    ensures var d := description.GetOr("");
      var doc := Docstring(description, schema);
      && StartsWith(doc, d)
      && (|schema.properties| == 0 ==> doc == d)
      && (|schema.properties| > 0 ==> StartsWith(doc[|d|..], PARAMETERS_HEADER) && |doc| > |d|)
  {
    var d := description.GetOr("");
    var doc := Docstring(description, schema);
    if |schema.properties| > 0 {
      var lines := ParamLines(schema.properties, schema.required);
      AppendAssoc(d, PARAMETERS_HEADER, lines);
      assert doc[|d|..] == PARAMETERS_HEADER + lines;
      assert doc[..|d|] == d;
    } else {
      assert doc[..|d|] == d;
    }
  }

  // ---------------------------------------------------------------------------
  // Signature

  /** The Python annotation of a parameter. */
  datatype Annotation = AnyType | StrType | IntType | FloatType | BoolType | DictType | ListType

  /** A parameter's default: none (required) or `None` (optional). */
  datatype Default = NoDefault | DefaultNone

  /** A keyword-only parameter of the generated signature. */
  datatype SigParam = SigParam(name: string, default: Default, annotation: Annotation)

  /** The annotation table of `_build_signature`; any other type name maps to `Any`. */
  function AnnotationFor(typeName: string): Annotation {
    if typeName == "string" then StrType
    else if typeName == "integer" then IntType
    else if typeName == "number" then FloatType
    else if typeName == "boolean" then BoolType
    else if typeName == "object" then DictType
    else if typeName == "array" then ListType
    else AnyType
  }

  /** The JSON-schema type name an annotation stands for; `Any` stands for none. */
  function JsonTypeName(a: Annotation): Option<string> {
    match a
    case AnyType => None
    case StrType => Some("string")
    case IntType => Some("integer")
    case FloatType => Some("number")
    case BoolType => Some("boolean")
    case DictType => Some("object")
    case ListType => Some("array")
  }

  /**
   * The table is a bijection between the six JSON-schema type names and the six
   * specific annotations; every other name gets `Any`.
   */
  lemma AnnotationTableRoundTrip(a: Annotation, typeName: string)
    ensures a != AnyType ==> AnnotationFor(JsonTypeName(a).value) == a
    ensures AnnotationFor(typeName) != AnyType ==> JsonTypeName(AnnotationFor(typeName)) == Some(typeName)
    ensures AnnotationFor(typeName) == AnyType <==> typeName !in ["string", "integer", "number", "boolean", "object", "array"]
  {
  }

  /** The parameter generated for property `name`; an absent type counts as "". */
  function SigParamFor(name: string, p: Property, required: seq<string>): SigParam {
    SigParam(name, if name in required then NoDefault else DefaultNone, AnnotationFor(p.typeName.GetOr("")))
  }

  /** The parameters `_build_signature` builds when every property name is accepted. */
  function Signature(schema: ParamSchema): (params: seq<SigParam>)
    ensures |params| == |schema.properties|
    ensures forall i :: 0 <= i < |params| ==>
      && params[i].name == schema.properties[i].0
      && (params[i].default == NoDefault <==> schema.properties[i].0 in schema.required)
      && params[i].annotation == AnnotationFor(schema.properties[i].1.typeName.GetOr(""))
  {
    seq(|schema.properties|, i requires 0 <= i < |schema.properties| =>
      SigParamFor(schema.properties[i].0, schema.properties[i].1, schema.required))
  }

  /** Python's reserved words, which `inspect.Parameter` refuses as parameter names. */
  const PYTHON_KEYWORDS: seq<string> := [
    "False", "None", "True", "and", "as", "assert", "async", "await", "break", "class",
    "continue", "def", "del", "elif", "else", "except", "finally", "for", "from", "global",
    "if", "import", "in", "is", "lambda", "nonlocal", "not", "or", "pass", "raise",
    "return", "try", "while", "with", "yield"]

  /** A character that may begin an identifier; every non-ASCII character counts as a letter. */
  predicate IdentifierStart(c: char) {
    'a' <= c <= 'z' || 'A' <= c <= 'Z' || c == '_' || c >= '\U{80}'
  }

  predicate IdentifierPart(c: char) {
    IdentifierStart(c) || '0' <= c <= '9'
  }

  /** `str.isidentifier()`. */
  predicate IsIdentifier(name: string) {
    |name| > 0 && IdentifierStart(name[0]) && forall i :: 1 <= i < |name| ==> IdentifierPart(name[i])
  }

  /** The names `inspect.Parameter` accepts: identifiers that are not keywords. */
  predicate ValidParamName(name: string) {
    IsIdentifier(name) && name !in PYTHON_KEYWORDS
  }

  /** The ValueError `inspect.Parameter` raises for an implicit name of a keyword-only parameter. */
  const IMPLICIT_ARGUMENT_MESSAGE: string :=
    "implicit arguments must be passed as positional or keyword arguments, not keyword-only parameter"

  /** `name[0] == '.' and name[1:].isdigit()`: the implicit argument names of comprehensions. */
  predicate ImplicitArgumentName(name: string) {
    |name| > 1 && name[0] == '.' && AllDigits(name[1..])
  }

  /**
   * What `inspect.Parameter(name, KEYWORD_ONLY, ...)` raises, checked in its order:
   * IndexError for the empty name (it reads `name[0]` first), the implicit-argument
   * ValueError for ".N", and the ValueError quoting `repr(name)` for any other name
   * that is not an identifier or is a keyword.
   */
  function ParamNameError(name: string): (e: Option<PyException>)
    ensures e.Some? <==> !ValidParamName(name)
  {
    if |name| == 0 then Some(IndexError)
    else if ImplicitArgumentName(name) then Some(ValueError(IMPLICIT_ARGUMENT_MESSAGE))
    else if !ValidParamName(name) then Some(ValueError(Repr(name) + " is not a valid parameter name"))
    else None
  }

  /**
   * A refused name of printable ASCII without quotes or backslashes, keywords among
   * them, appears in the message between single quotes as it is.
   */
  lemma ParamNameErrorPlain(name: string)
    requires |name| > 0 && !ValidParamName(name) && !ImplicitArgumentName(name)
    requires forall i :: 0 <= i < |name| ==> PlainChar(name[i])
    ensures ParamNameError(name) == Some(ValueError("'" + name + "' is not a valid parameter name"))
  {
    ReprPlain(name);
    assert "'" + name + "'" + " is not a valid parameter name" == "'" + name + "' is not a valid parameter name";
  }

  /** A refused name holding a single quote and no double quote is quoted with `"`. */
  lemma ParamNameErrorDoubleQuoted(name: string)
    requires '\'' in name && '"' !in name && !ValidParamName(name)
    ensures ParamNameError(name).Some? && ParamNameError(name).value.ValueError?
    ensures ParamNameError(name).value.message[0] == '"'
  {
    var i :| 0 <= i < |name| && name[i] == '\'';
    assert name[0] == '.' ==> !AllDigits(name[1..]) by {
      if i > 0 { assert name[1..][i - 1] == name[i]; }
    }
    ReprRoundTrip(name);
  }

  /** The first property name `inspect.Parameter` refuses, if any. */
  function FirstInvalidName(props: seq<(string, Property)>): (r: Option<string>)
    ensures r.Some? ==> !ValidParamName(r.value)
  {
    if |props| == 0 then None
    else if !ValidParamName(props[0].0) then Some(props[0].0)
    else FirstInvalidName(props[1..])
  }

  /**
   * `_build_signature`: the signature, or the ValueError of the first property whose
   * name is not a valid parameter name.
   */
  function SignatureOutcome(schema: ParamSchema): Outcome<seq<SigParam>> {
    match FirstInvalidName(schema.properties)
    case Some(name) => Raised(ParamNameError(name).value)
    case None => Returned(Signature(schema))
  }

  /** Properties with accepted names in front do not change which name is refused first. */
  lemma {:induction false} FirstInvalidSkipsValid(props: seq<(string, Property)>, i: nat)
    requires i <= |props| && forall k :: 0 <= k < i ==> ValidParamName(props[k].0)
    ensures FirstInvalidName(props) == FirstInvalidName(props[i..])
  {
    if i > 0 {
      assert ValidParamName(props[0].0);
      FirstInvalidSkipsValid(props[1..], i - 1);
      assert props[1..][i - 1..] == props[i..];
    }
  }

  /**
   * Building the signature raises exactly when some property name is refused, and then
   * with the error for the first such name.
   */
  lemma SignatureOutcomeIff(schema: ParamSchema)
    ensures SignatureOutcome(schema).Raised? <==>
      exists i :: 0 <= i < |schema.properties| && !ValidParamName(schema.properties[i].0)
    ensures SignatureOutcome(schema).Raised? ==>
      exists i :: 0 <= i < |schema.properties|
        && Some(SignatureOutcome(schema).exception) == ParamNameError(schema.properties[i].0)
        && !ValidParamName(schema.properties[i].0)
        && forall k :: 0 <= k < i ==> ValidParamName(schema.properties[k].0)
    ensures SignatureOutcome(schema).Returned? ==> SignatureOutcome(schema).value == Signature(schema)
  {
    var props := schema.properties;
    var i := 0;
    while i < |props| && ValidParamName(props[i].0)
      invariant 0 <= i <= |props|
      invariant forall k :: 0 <= k < i ==> ValidParamName(props[k].0)
    {
      i := i + 1;
    }
    FirstInvalidSkipsValid(props, i);
  }

  // ---------------------------------------------------------------------------
  // Parameter schema

  /** One entry of `_parameter_schema`. */
  datatype SchemaEntry = SchemaEntry(description: string, typeName: string, required: bool)

  function EntryFor(name: string, p: Property, required: seq<string>): SchemaEntry {
    SchemaEntry(p.description.GetOr(""), p.typeName.GetOr("any"), name in required)
  }

  /** `_parameter_schema`: the dict comprehension over the properties, entry by entry. */
  function ParameterSchema(props: seq<(string, Property)>, required: seq<string>): Dict<string, SchemaEntry> {
    if |props| == 0 then []
    else
      var last := props[|props| - 1];
      Put(ParameterSchema(props[..|props| - 1], required), last.0, EntryFor(last.0, last.1, required))
  }

  /** The schema has exactly the property names as keys, in the same order. */
  lemma {:induction false} ParameterSchemaKeys(props: seq<(string, Property)>, required: seq<string>)
    requires Distinct(Keys(props))
    ensures Keys(ParameterSchema(props, required)) == Keys(props)
  {
    if |props| > 0 {
      var n := |props| - 1;
      var init := props[..n];
      var before := ParameterSchema(init, required);
      assert ParameterSchema(props, required) == Put(before, props[n].0, EntryFor(props[n].0, props[n].1, required));
      KeysOfInit(props);
      assert Distinct(Keys(init)) && props[n].0 !in Keys(init) by {
        assert forall i :: 0 <= i < n ==> Keys(init)[i] == Keys(props)[i];
      }
      ParameterSchemaKeys(init, required);
      PutKeys(before, props[n].0, EntryFor(props[n].0, props[n].1, required));
    }
  }

  /** A name is in the schema exactly when it is a property name. */
  lemma {:induction false} ParameterSchemaHas(props: seq<(string, Property)>, required: seq<string>, name: string)
    ensures Get(ParameterSchema(props, required), name).None? <==> name !in Keys(props)
  {
    if |props| > 0 {
      var n := |props| - 1;
      var init := props[..n];
      var before := ParameterSchema(init, required);
      assert ParameterSchema(props, required) == Put(before, props[n].0, EntryFor(props[n].0, props[n].1, required));
      ParameterSchemaHas(init, required, name);
      PutGet(before, props[n].0, EntryFor(props[n].0, props[n].1, required), name);
      KeysOfInit(props);
    }
  }

  /** With distinct property names, the schema maps each property to its own entry. */
  lemma {:induction false} ParameterSchemaGet(props: seq<(string, Property)>, required: seq<string>, i: nat)
    requires Distinct(Keys(props)) && i < |props|
    ensures Get(ParameterSchema(props, required), props[i].0) == Some(EntryFor(props[i].0, props[i].1, required))
  {
    var n := |props| - 1;
    var init := props[..n];
    var name := props[i].0;
    PutGet(ParameterSchema(init, required), props[n].0, EntryFor(props[n].0, props[n].1, required), name);
    if i < n {
      assert Keys(init) == Keys(props)[..n];
      assert Keys(props)[i] != Keys(props)[n];
      assert init[i] == props[i];
      ParameterSchemaGet(init, required, i);
    }
  }

  /**
   * The three views of a property agree: the docstring line shows the schema entry's
   * type, mark and description, and the signature parameter has no default exactly
   * when the entry is required and the annotation the entry's type maps to.
   */
  lemma ViewsAgree(name: string, p: Property, required: seq<string>)
    ensures var e := EntryFor(name, p, required);
      && ParamLine(name, p, required)
         == "    " + name + " (" + e.typeName + ") " + (if e.required then "(required)" else "(optional)")
            + ": " + e.description + "\n"
      && (SigParamFor(name, p, required).default == NoDefault <==> e.required)
      && SigParamFor(name, p, required).annotation == AnnotationFor(e.typeName)
  {
  }

  // ---------------------------------------------------------------------------
  // The server

  /** A tool as `to_param` describes it: its name, description and parameter object. */
  datatype ToolSpec = ToolSpec(name: string, description: Option<string>, parameters: Option<ParamSchema>)

  /** A generated method as registered with FastMCP. */
  datatype RegisteredMethod = RegisteredMethod(
    name: string,
    doc: string,
    signature: seq<SigParam>,
    parameterSchema: Dict<string, SchemaEntry>)

  /** `method_name or tool.name`: an empty method name counts as none. */
  function MethodName(tool: ToolSpec, methodName: Option<string>): string {
    if methodName.Some? && methodName.value != "" then methodName.value else tool.name
  }

  /** The method `register_tool` generates for a tool. */
  function MethodFor(tool: ToolSpec, methodName: Option<string>): RegisteredMethod {
    var schema := SchemaOf(tool.parameters);
    RegisteredMethod(
      MethodName(tool, methodName),
      Docstring(tool.description, schema),
      Signature(schema),
      ParameterSchema(schema.properties, schema.required))
  }

  /** The methods generated for `specs`, in order, each under its tool's own name. */
  function MethodsFor(specs: seq<ToolSpec>): (ms: seq<RegisteredMethod>)
    ensures |ms| == |specs|
    ensures forall i :: 0 <= i < |specs| ==> ms[i].name == specs[i].name
  {
    if |specs| == 0 then []
    else MethodsFor(specs[..|specs| - 1]) + [MethodFor(specs[|specs| - 1], None)]
  }

  /** The exception `register_tool` raises for a tool: that of its signature, if any. */
  function RegistrationError(tool: ToolSpec): Option<PyException> {
    var outcome := SignatureOutcome(SchemaOf(tool.parameters));
    if outcome.Raised? then Some(outcome.exception) else None
  }

  /**
   * `register_all_tools` over `specs`: the methods registered, and the exception that
   * stopped the loop, if any.
   */
  function RegisterAll(specs: seq<ToolSpec>): (seq<RegisteredMethod>, Option<PyException>) {
    if |specs| == 0 then ([], None)
    else
      var prev := RegisterAll(specs[..|specs| - 1]);
      var tool := specs[|specs| - 1];
      if prev.1.Some? then prev
      else if RegistrationError(tool).Some? then (prev.0, RegistrationError(tool))
      else (prev.0 + [MethodFor(tool, None)], None)
  }

  /** Once a tool has raised, the tools after it change nothing. */
  lemma {:induction false} RegisterAllStops(a: seq<ToolSpec>, b: seq<ToolSpec>)
    requires RegisterAll(a).1.Some?
    ensures RegisterAll(a + b) == RegisterAll(a)
  {
    if |b| > 0 {
      var n := |b| - 1;
      assert (a + b)[..|a + b| - 1] == a + b[..n];
      RegisterAllStops(a, b[..n]);
    } else {
      assert a + b == a;
    }
  }

  /** One more tool: nothing after an exception, otherwise its error or its method. */
  lemma RegisterAllSnoc(a: seq<ToolSpec>, tool: ToolSpec)
    ensures RegisterAll(a + [tool]) ==
      if RegisterAll(a).1.Some? then RegisterAll(a)
      else if RegistrationError(tool).Some? then (RegisterAll(a).0, RegistrationError(tool))
      else (RegisterAll(a).0 + [MethodFor(tool, None)], None)
  {
    assert (a + [tool])[..|a|] == a;
  }

  /** A tool that raises ends `register_all_tools` with its error and no further method. */
  lemma RegisterAllStepRaises(all: seq<ToolSpec>, i: nat)
    requires i < |all| && RegisterAll(all[..i]).1.None?
    requires RegistrationError(all[i]).Some?
    ensures RegisterAll(all) == (RegisterAll(all[..i]).0, RegistrationError(all[i]))
  {
    TakeOneMore(all, i);
    RegisterAllSnoc(all[..i], all[i]);
    RegisterAllStops(all[..i + 1], all[i + 1..]);
  }

  /** A tool whose signature builds adds its method after those registered before it. */
  lemma RegisterAllStepAppends(start: seq<RegisteredMethod>, all: seq<ToolSpec>, i: nat)
    requires i < |all| && RegisterAll(all[..i]).1.None?
    requires RegistrationError(all[i]).None?
    ensures RegisterAll(all[..i + 1]).1.None?
    ensures start + RegisterAll(all[..i + 1]).0 == start + RegisterAll(all[..i]).0 + [MethodFor(all[i], None)]
  {
    TakeOneMore(all, i);
    RegisterAllSnoc(all[..i], all[i]);
    AppendAssoc(start, RegisterAll(all[..i]).0, [MethodFor(all[i], None)]);
  }

  /**
   * The loop registers one method per tool until the first tool that raises: each tool
   * before it has a buildable signature, and the exception is that tool's.
   */
  lemma {:induction false} RegisterAllCount(specs: seq<ToolSpec>)
    ensures |RegisterAll(specs).0| <= |specs|
    ensures forall i :: 0 <= i < |RegisterAll(specs).0| ==> RegistrationError(specs[i]).None?
    ensures RegisterAll(specs).1.Some? ==>
      |RegisterAll(specs).0| < |specs| && RegisterAll(specs).1 == RegistrationError(specs[|RegisterAll(specs).0|])
    ensures RegisterAll(specs).1.None? ==> |RegisterAll(specs).0| == |specs|
  {
    if |specs| > 0 {
      var n := |specs| - 1;
      var init := specs[..n];
      RegisterAllCount(init);
      TakeOneMore(specs, n);
      assert specs[..n + 1] == specs;
      RegisterAllSnoc(init, specs[n]);
      assert forall i :: 0 <= i < n ==> init[i] == specs[i];
    }
  }

  /** The methods registered are those of a prefix of the tools, in order. */
  lemma {:induction false} RegisterAllPrefix(specs: seq<ToolSpec>)
    ensures |RegisterAll(specs).0| <= |specs|
    ensures RegisterAll(specs).0 == MethodsFor(specs[..|RegisterAll(specs).0|])
  {
    RegisterAllCount(specs);
    if |specs| > 0 {
      var n := |specs| - 1;
      var init := specs[..n];
      RegisterAllPrefix(init);
      RegisterAllCount(init);
      TakeOneMore(specs, n);
      assert specs[..n + 1] == specs;
      RegisterAllSnoc(init, specs[n]);
      var ms := RegisterAll(init).0;
      if RegisterAll(init).1.Some? || RegistrationError(specs[n]).Some? {
        assert RegisterAll(specs).0 == ms;
        assert specs[..|ms|] == init[..|ms|];
      } else {
        var m := MethodFor(specs[n], None);
        assert RegisterAll(specs).0 == ms + [m];
        assert |ms| == n && init[..n] == init;
        assert MethodsFor(specs) == MethodsFor(init) + [m];
      }
    }
  }

  /**
   * The loop raises exactly when some tool's signature cannot be built; when none
   * raises, every tool is registered in order.
   */
  lemma RegisterAllRaisesIff(specs: seq<ToolSpec>)
    ensures RegisterAll(specs).1.Some? <==> exists i :: 0 <= i < |specs| && RegistrationError(specs[i]).Some?
    ensures RegisterAll(specs).1.None? ==> RegisterAll(specs).0 == MethodsFor(specs)
  {
    RegisterAllCount(specs);
    var r := RegisterAll(specs);
    var k := |r.0|;
    if r.1.Some? {
      assert RegistrationError(specs[k]).Some?;
    } else {
      assert forall i :: 0 <= i < |specs| ==> RegistrationError(specs[i]).None?;
      AllRegistered(specs);
    }
  }

  lemma AllRegistered(specs: seq<ToolSpec>)
    requires RegisterAll(specs).1.None?
    ensures RegisterAll(specs).0 == MethodsFor(specs)
  {
    RegisterAllCount(specs);
    RegisterAllPrefix(specs);
    var ms := RegisterAll(specs).0;
    var prefix := specs[..|ms|];
    assert prefix == specs;
    assert ms == MethodsFor(prefix);
  }

  class MCPServer {
    /** `self.tools`: the standard tools under their keys. */
    var tools: Dict<string, ToolSpec>
    /** The methods registered with FastMCP, in registration order. */
    var registered: seq<RegisteredMethod>
    const hostMode: bool
    const hostAddress: string
    const hostPort: int

    /**
     * `__init__` once the port is converted: reads host mode and address from the
     * environment (already looked up) and installs the four standard tools.
     * `NewMCPServer` performs the conversion, which may raise.
     */
    constructor (envHostMode: Option<string>, envHostIp: Option<string>, port: int,
                 bash: ToolSpec, browser: ToolSpec, editor: ToolSpec, terminate: ToolSpec)
      ensures hostMode == HostMcp.HostModeEnabled(envHostMode)
      ensures hostAddress == envHostIp.GetOr(HostMcp.DEFAULT_HOST_ADDRESS)
      ensures hostPort == port
      ensures tools == [("bash", bash), ("browser", browser), ("editor", editor), ("terminate", terminate)]
      ensures registered == []
    {
      hostMode := HostMcp.HostModeEnabled(envHostMode);
      hostAddress := envHostIp.GetOr(HostMcp.DEFAULT_HOST_ADDRESS);
      hostPort := port;
      registered := [];
      tools := [("bash", bash), ("browser", browser), ("editor", editor), ("terminate", terminate)];
    }

    /** `_build_docstring`, accumulating the lines in a loop. */
    method BuildDocstring(description: Option<string>, schema: ParamSchema) returns (doc: string)
      ensures doc == Docstring(description, schema)
    {
      doc := description.GetOr("");
      var props := schema.properties;
      if |props| > 0 {
        doc := doc + PARAMETERS_HEADER;
        var i := 0;
        while i < |props|
          invariant 0 <= i <= |props|
          invariant doc == description.GetOr("") + PARAMETERS_HEADER + ParamLines(props[..i], schema.required)
        {
          var line := ParamLine(props[i].0, props[i].1, schema.required);
          assert props[..i + 1] == props[..i] + [props[i]];
          ParamLinesSnoc(props[..i], props[i], schema.required);
          AppendAssoc(description.GetOr("") + PARAMETERS_HEADER, ParamLines(props[..i], schema.required), line);
          doc := doc + line;
          i := i + 1;
        }
        assert props[..i] == props;
      }
    }

    /**
     * `_build_signature`: one keyword-only parameter per property, in order, without a
     * default exactly when the property is required; `inspect.Parameter` raises
     * ValueError at the first property name that is not an identifier or is a keyword.
     */
    method BuildSignature(schema: ParamSchema) returns (r: Outcome<seq<SigParam>>)
      ensures r.Raised? <==> exists i :: 0 <= i < |schema.properties| && !ValidParamName(schema.properties[i].0)
      ensures r.Returned? ==>
        && |r.value| == |schema.properties|
        && forall i :: 0 <= i < |r.value| ==>
          && r.value[i].name == schema.properties[i].0
          && (r.value[i].default == NoDefault <==> schema.properties[i].0 in schema.required)
          && r.value[i].annotation == AnnotationFor(schema.properties[i].1.typeName.GetOr(""))
      ensures r == SignatureOutcome(schema)
    {
      var params := [];
      var props := schema.properties;
      var i := 0;
      while i < |props|
        invariant 0 <= i <= |props|
        invariant |params| == i
        invariant forall k :: 0 <= k < i ==> params[k] == SigParamFor(props[k].0, props[k].1, schema.required)
        invariant forall k :: 0 <= k < i ==> ValidParamName(props[k].0)
      {
        if !ValidParamName(props[i].0) {
          FirstInvalidSkipsValid(props, i);
          return Raised(ParamNameError(props[i].0).value);
        }
        var typeName := props[i].1.typeName.GetOr("");
        var default := if props[i].0 in schema.required then NoDefault else DefaultNone;
        var annotation := AnyType;
        if typeName == "string" {
          annotation := StrType;
        } else if typeName == "integer" {
          annotation := IntType;
        } else if typeName == "number" {
          annotation := FloatType;
        } else if typeName == "boolean" {
          annotation := BoolType;
        } else if typeName == "object" {
          annotation := DictType;
        } else if typeName == "array" {
          annotation := ListType;
        }
        params := params + [SigParam(props[i].0, default, annotation)];
        i := i + 1;
      }
      FirstInvalidSkipsValid(props, i);
      assert props[i..] == [];
      assert params == Signature(schema);
      r := Returned(params);
    }

    /**
     * `register_tool`: generates the tool's method and registers it, or raises the
     * ValueError of its signature and registers nothing.
     */
    method RegisterTool(tool: ToolSpec, methodName: Option<string>) returns (error: Option<PyException>)
      modifies this`registered
      ensures error == RegistrationError(tool)
      ensures registered == if error.Some? then old(registered) else old(registered) + [MethodFor(tool, methodName)]
    {
      var name := if methodName.Some? && methodName.value != "" then methodName.value else tool.name;
      var schema := SchemaOf(tool.parameters);
      var doc := BuildDocstring(tool.description, schema);
      var signature := BuildSignature(schema);
      if signature.Raised? {
        return Some(signature.exception);
      }
      var parameterSchema := ParameterSchema(schema.properties, schema.required);
      registered := registered + [RegisteredMethod(name, doc, signature.value, parameterSchema)];
      error := None;
    }

    /**
     * `register_all_tools`: registers the tools in order, each under its own name,
     * until one raises; that exception ends the loop.
     */
    method RegisterAllTools() returns (error: Option<PyException>)
      modifies this`registered
      ensures registered == old(registered) + RegisterAll(Values(tools)).0
      ensures error == RegisterAll(Values(tools)).1
    {
      var all := Values(tools);
      var i := 0;
      error := None;
      while i < |all|
        invariant 0 <= i <= |all|
        invariant registered == old(registered) + RegisterAll(all[..i]).0
        invariant RegisterAll(all[..i]).1.None? && error.None?
      {
        error := RegisterTool(all[i], None);
        if error.Some? {
          RegisterAllStepRaises(all, i);
          return;
        }
        RegisterAllStepAppends(old(registered), all, i);
        i := i + 1;
      }
      assert all[..i] == all;
    }

    /**
     * `_execute_via_http`: posts to the URL of the tool part alone and turns the reply
     * into a string, collecting the text items in a loop. Returns the URL and the string.
     */
    method ExecuteViaHttp(serverName: string, toolName: string, reply: HostMcp.HttpReply<HostMcp.CallBody>)
      returns (url: string, r: string)
      ensures url == HostMcp.CallUrl(hostAddress, hostPort, toolName)
      ensures r == ViaHttpResult(reply)
    {
      url := "http://" + hostAddress + ":" + IntText(hostPort) + "/mcp/tools/" + toolName + "/call";
      match reply {
        case TransportError(detail) =>
          return url, HTTP_CALL_FAILED + detail;
        case Response(status, text, body) =>
          if status != 200 {
            return url, HostMcp.CALL_FAILED + "HTTP " + Decimal(status) + ": " + text;
          }
          var content := "";
          if body.content.Some? {
            var items := body.content.value;
            var i := 0;
            while i < |items|
              invariant 0 <= i <= |items|
              invariant content == HostMcp.ContentText(items[..i])
            {
              assert items[..i + 1][..i] == items[..i];
              if items[i].kind == Some("text") && items[i].text.Some? {
                content := content + items[i].text.value;
              }
              i := i + 1;
            }
            assert items[..i] == items;
          }
          if body.isError {
            return url, HOST_TOOL_ERROR + content;
          }
          return url, if content != "" then content else HostMcp.NO_OUTPUT;
      }
    }

    /** A call of the generated method named `toolName`, with this server's host mode. */
    method CallTool(toolName: string, local: Outcome<LocalValue>, reply: HostMcp.HttpReply<HostMcp.CallBody>,
                    dumps: Json -> string) returns (r: Outcome<MethodReturn>)
      ensures r == ToolMethod(hostMode, toolName, local, reply, dumps)
    {
      if hostMode && StartsWith(toolName, "mcp_") {
        var parts := SplitN(toolName, '_', 2);
        if |parts| >= 3 {
          var _, text := ExecuteViaHttp(parts[1], parts[2], reply);
          return Returned(HostReply(text));
        }
      }
      match local {
        case Raised(e) => r := Raised(e);
        case Returned(v) =>
          match v {
            case Dumpable(d) => r := Returned(Serialized(dumps(d)));
            case DictValue(fields) => r := Returned(Serialized(dumps(JObject(fields))));
            case OtherValue(x) => r := Returned(Unchanged(x));
          }
      }
    }
  }

  /**
   * `MCPServer()`: raises the ValueError of `int(...)` when `MCP_HOST_PORT` is not an
   * integer, and otherwise returns a new server with the four standard tools and
   * nothing registered yet.
   */
  method NewMCPServer(envHostMode: Option<string>, envHostIp: Option<string>, envHostPort: Option<string>,
                      bash: ToolSpec, browser: ToolSpec, editor: ToolSpec, terminate: ToolSpec)
    returns (r: Outcome<MCPServer>)
    ensures r.Raised? <==> HostMcp.PortSetting(envHostPort).Raised?
    ensures r.Raised? ==> r.exception == HostMcp.PortSetting(envHostPort).exception
    ensures r.Returned? ==>
      && fresh(r.value)
      && r.value.hostMode == HostMcp.HostModeEnabled(envHostMode)
      && r.value.hostAddress == envHostIp.GetOr(HostMcp.DEFAULT_HOST_ADDRESS)
      && r.value.hostPort == HostMcp.PortSetting(envHostPort).value
      && r.value.tools == [("bash", bash), ("browser", browser), ("editor", editor), ("terminate", terminate)]
      && r.value.registered == []
  {
    match HostMcp.PortSetting(envHostPort)
    case Raised(e) =>
      r := Raised(e);
    case Returned(port) =>
      var server := new MCPServer(envHostMode, envHostIp, port, bash, browser, editor, terminate);
      r := Returned(server);
  }
}
