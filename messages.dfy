/** The values exchanged with the language-model API: content blocks, transcript
    turns, the requests the generator sends and the replies it receives. */
module Messages {

  datatype Option<+T> = None | Some(value: T)

  /** A JSON value inside a tool_use block's input object. Numbers are kept as
      exact rationals: JSON has no infinities or NaN. */
  datatype Value =
    | Null
    | Bool(b: bool)
    | Num(n: real)
    | Str(s: string)
    | Arr(items: seq<Value>)
    | Obj(fields: map<string, Value>)

  /** The keyword arguments a tool_use block asks for. */
  type ToolInput = map<string, Value>

  /** One content block of a model response. */
  datatype Block =
    | Text(text: string)
    | ToolUse(id: string, name: string, input: ToolInput)

  /** A `tool_result` entry: the id of the tool_use block it answers and the text handed back. */
  datatype ToolResult = ToolResult(toolUseId: string, content: string)

  datatype Role = User | Assistant

  /** What a transcript turn carries. */
  datatype Content =
    | Query(text: string)                 // the user's question, a plain string
    | Blocks(blocks: seq<Block>)          // an assistant turn echoing a response's content
    | Results(results: seq<ToolResult>)   // a user turn carrying one round's tool results

  datatype Turn = Turn(role: Role, content: Content)

  /** A tool definition as exposed to the model; its fields pass through untouched. */
  datatype ToolDef = ToolDef(name: string, description: string, inputSchema: string)

  /** The `tool_choice` parameter; the generator only ever sends `{"type": "auto"}`. */
  datatype ToolChoice = Auto

  /** The parameters of one `messages.create` call that the generator decides:
      the system text, the transcript, and the optional tools and tool choice.
      The model name, temperature and token limit are fixed pass-through values. */
  datatype Request = Request(
    system: string,
    messages: seq<Turn>,
    tools: Option<seq<ToolDef>>,
    toolChoice: Option<ToolChoice>)

  /** The stop reason with which the model asks for tools. */
  const TOOL_USE: string := "tool_use"

  datatype Response = Response(stopReason: string, content: seq<Block>)

  /** What one call of the client yields: a response, or a transport exception. */
  datatype Reply = Delivered(response: Response) | TransportFailure(detail: string)

  /** The language-model client as an oracle: the reply to the call with the given
      0-based number (within one generate_response) and the given request. */
  type Client = (nat, Request) -> Reply

  /** `content[0].text`: a value only when the first block is a text block. With no
      block Python raises IndexError; a tool_use block has no `text` attribute. */
  function LeadingText(content: seq<Block>): (text: Option<string>)
    ensures text.Some? <==> |content| > 0 && content[0].Text?
    ensures text.Some? ==> text.value == content[0].text
  {
    if |content| > 0 && content[0].Text? then Some(content[0].text) else None
  }
}
