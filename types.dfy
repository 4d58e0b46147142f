/** The data model of the orchestrator: the interfaces of src/types.ts and the
    fields of the Agent class of src/agents/Agent.ts. Agent, Tool and the raw
    result of a tool refer to one another (a tool may return an agent), so they
    share this module. */
module Types {
  import opened Wrappers

  /** A JavaScript value, as far as the orchestrator looks at one. Numbers are
      integers here; floating point is not modelled. */
  datatype Value =
    | Undefined
    | Null
    | Bool(b: bool)
    | Number(n: int)
    | Str(s: string)
    | Array(items: seq<Value>)
    | Object(fields: map<string, Value>)

  /** JavaScript truthiness, the test behind every `x || fallback`. */
  predicate Truthy(v: Value) {
    match v
    case Undefined => false
    case Null => false
    case Bool(b) => b
    case Number(n) => n != 0
    case Str(s) => s != ""
    case Array(_) => true
    case Object(_) => true
  }

  /** The shared context: `Record<string, any>`. */
  type Context = map<string, Value>

  /** The `function` part of a tool call: the tool's name and its arguments as
      the model serialised them. */
  datatype FunctionCall = FunctionCall(name: string, arguments: string)

  /** ChatCompletionMessageToolCall. The id is absent for a call that came from
      the legacy `function_call` field. */
  datatype ToolCall = ToolCall(id: Option<string>, call: FunctionCall)

  /** ChatCompletionMessage, with the two fields an assistant message may carry
      to request tools. An absent field is None; a present but empty
      `tool_calls` array is Some([]), which JavaScript treats as true. */
  datatype Message = Message(
    role: string,
    content: string,
    name: Option<string>,
    toolCallId: Option<string>,
    toolCalls: Option<seq<ToolCall>>,
    functionCall: Option<FunctionCall>)

  /** An agent's system prompt: a fixed string, or a function of the shared
      context. */
  datatype Instructions = Text(text: string) | Render(render: Context -> string)

  /** The fields of an Agent instance; the constructor's defaulting is in
      module Agents. */
  datatype Agent = Agent(
    name: string,
    instructions: Instructions,
    functions: seq<Tool>,
    model: string,
    toolChoice: Value,
    parallelToolCalls: int)

  /** A host function offered to the model as a tool: what JavaScript reflection
      sees of it (`func.name`, `func.toString()`, `func.length`) and the call
      itself, on the positional argument list. */
  datatype Tool = Tool(
    name: string,
    source: string,
    arity: nat,
    invoke: seq<Value> -> Invocation)

  /** What calling a tool does: it returns a value or throws. */
  datatype Invocation = Returned(result: RawResult) | Threw(message: string)

  /** The shapes of a tool's return value that handleFunctionResult tells
      apart: an Agent instance; an object with a `value` field; `null`; and
      any other value, with the text `String(result)` gives for it, or None
      when that conversion throws. */
  datatype RawResult =
    | AgentValue(agent: Agent)
    | ResultValue(result: ToolResult)
    | NullValue
    | OtherValue(text: Option<string>)

  /** The `Result` interface: what one tool call contributes. */
  datatype ToolResult = ToolResult(
    value: string,
    agent: Option<Agent>,
    contextVariables: Option<Context>)

  /** The `Response` interface: a run's outcome, and also the partial outcome of
      one batch of tool calls (whose agent may be null). */
  datatype Response = Response(
    messages: seq<Message>,
    agent: Option<Agent>,
    contextVariables: Context)

  /** The exceptions the core raises or lets through. */
  datatype Error =
    | NotAFunction                     // functionToJson on a non-function
    | ArgumentsNotJson(text: string)   // JSON.parse of the tool arguments threw
    | NullResult                       // `'value' in null` threw a TypeError
    | NotStringifiable                 // String(result) threw; rethrown as TypeError
    | ToolThrew(message: string)       // the tool itself threw
    | ProviderFailed                   // the completion call failed
}
