/** Values exchanged between the generator, the language-model client and the tool manager. */
module Messages {

  datatype Option<+T> = None | Some(value: T)

  /** The keyword arguments of a tool call (the block's `input` dictionary). */
  type Args = map<string, string>

  /** A content block of a model reply: plain text or a request to run a tool. */
  datatype Block =
    | Text(text: string)
    | ToolUse(id: string, name: string, input: Args)

  /** The stop reason with which the model asks for tools to be run. */
  const ToolUseStop: string := "tool_use"

  datatype Response = Response(stopReason: string, content: seq<Block>)

  /** A `tool_result` block sent back to the model. */
  datatype ToolResult = ToolResult(toolUseId: string, content: string, isError: bool)

  datatype Role = User | Assistant

  /** A message's content: the user's query, the assistant's raw blocks, or a batch of tool results. */
  datatype Content =
    | Plain(text: string)
    | Blocks(blocks: seq<Block>)
    | ToolResults(results: seq<ToolResult>)

  datatype Message = Message(role: Role, content: Content)

  /** A tool definition as the tool manager publishes it; the schema is kept opaque. */
  datatype ToolDef = ToolDef(name: string, description: string, inputSchema: string)

  /** The only tool-choice policy the generator ever sends: `{"type": "auto"}`. */
  datatype ToolChoice = Auto

  /** The keyword arguments of one `messages.create` call, apart from the fixed base parameters. */
  datatype Request = Request(
    messages: seq<Message>,
    system: string,
    tools: Option<seq<ToolDef>>,
    toolChoice: Option<ToolChoice>)

  /** What one model call does: return a reply or raise. */
  datatype CallOutcome = Replied(response: Response) | Failed(error: string)

  /** What one `execute_tool` call does: return a string or raise. */
  datatype ToolOutcome = Returned(text: string) | Raised(error: string)

  /** The tool manager seen through its two entry points. */
  datatype ToolManager = ToolManager(
    definitions: seq<ToolDef>,
    execute: (string, Args) -> ToolOutcome)

  /** What `generate_response` does: return an answer or let an exception escape. */
  datatype Outcome = Answer(text: string) | Error(error: string)
}
