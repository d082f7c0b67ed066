/**
 * The value types the agent core passes around: agent state, tool-choice policy,
 * tool calls, conversation messages, JSON values, JSON-schema parameter objects,
 * and Python exceptions as values.
 *
 * app/schema.py, which declares the first four in the source, is not part of this
 * model; the shapes below are the fields the modelled code reads and writes.
 */
module Schema {
  import opened Wrappers

  /** The agent states the tool layer distinguishes; FINISHED ends the run. */
  datatype AgentState = Running | Finished

  datatype Role = System | User | Assistant | Tool

  /** `ToolChoice.NONE`, `ToolChoice.AUTO`, `ToolChoice.REQUIRED`. */
  datatype ToolChoice = ChoiceNone | ChoiceAuto | ChoiceRequired

  /**
   * One tool call proposed by the language model: its id, `function.name` (the empty
   * string stands for a missing or empty name) and the raw `function.arguments` text.
   */
  datatype ToolCall = ToolCall(id: string, name: string, arguments: string)

  /** A conversation message; `content` is "" where the source has None. */
  datatype Message = Message(
    role: Role,
    content: string,
    toolCalls: seq<ToolCall>,
    toolCallId: string,
    name: string,
    base64Image: Option<string>)

  function UserMessage(content: string): Message {
    Message(User, content, [], "", "", None)
  }

  function SystemMessage(content: string): Message {
    Message(System, content, [], "", "", None)
  }

  function AssistantMessage(content: string): Message {
    Message(Assistant, content, [], "", "", None)
  }

  /** `Message.from_tool_calls`: an assistant message carrying the proposed calls. */
  function FromToolCalls(content: string, calls: seq<ToolCall>): Message {
    Message(Assistant, content, calls, "", "", None)
  }

  /** `Message.tool_message`: the observation of one call, with the call's id and name. */
  function ToolMessage(content: string, toolCallId: string, name: string, image: Option<string>): Message {
    Message(Tool, content, [], toolCallId, name, image)
  }

  /** A decoded JSON value (what `json.loads` returns). */
  datatype Json =
    | JNull
    | JBool(b: bool)
    | JNumber(n: int)
    | JString(s: string)
    | JArray(items: seq<Json>)
    | JObject(fields: seq<(string, Json)>)

  /** One entry of a JSON-schema `properties` object; absent keys are None. */
  datatype Property = Property(typeName: Option<string>, description: Option<string>)

  /** A JSON-schema parameter object: `properties` in order and the `required` names. */
  datatype ParamSchema = ParamSchema(properties: seq<(string, Property)>, required: seq<string>)

  /** The Python exceptions the modelled code raises or lets through. */
  datatype PyException =
    | ValueError(message: string)
    | JsonDecodeError
    | UnboundLocalError(variable: string)
    | IndexError
      /** An exception of an external collaborator, passed on unchanged. */
    | Propagated(detail: string)

  /** The result of a Python call: a returned value or a raised exception. */
  datatype Outcome<+T> = Returned(value: T) | Raised(exception: PyException)
}
