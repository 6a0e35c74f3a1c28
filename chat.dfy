/** The chat-completion values the sessions and agent loops exchange with an
    OpenAI-compatible endpoint: tool definitions, tool calls, replies
    (completions) and conversation messages. Only the parts the core reads or
    writes are kept; the parameter schema of a tool, usage figures and
    similar reply metadata are left out.
 */
module Chat {

  import opened Wrappers
  import opened Json

  /** `ChatCompletionFunctionTool`: the name the registry keys on, and the
      description shown to the model. */
  datatype ToolDefinition = ToolDefinition(name: string, description: string)

  /** A tool's handler: given the parsed arguments it returns the tool's text
      or throws. */
  type Handler = Json -> Outcome<string>

  /** `OpenAITool`: a definition bundled with its handler. */
  datatype OpenAITool = OpenAITool(definition: ToolDefinition, handler: Handler)

  /** A tool call requested by the model; `type === 'function'` calls carry
      the name and the JSON text of the arguments. */
  datatype ToolCall =
    | FunctionCall(id: string, name: string, arguments: string)
    | CustomCall(id: string, name: string, input: string)
  {
    predicate IsFunction() {
      FunctionCall?
    }
  }

  datatype FinishReason = Stop | Length | ToolCalls | ContentFilter | FunctionCallReason

  /** The assistant message of a choice. `content` may be null; `toolCalls`
      may be absent. */
  datatype AssistantMessage = AssistantMessage(content: Option<string>, toolCalls: Option<seq<ToolCall>>)

  datatype Choice = Choice(message: AssistantMessage, finishReason: FinishReason)

  /** A `ChatCompletion` reply. */
  datatype Completion = Completion(choices: seq<Choice>)

  /** A message of the conversation history. */
  datatype Message =
    | SystemMessage(text: string)
    | UserMessage(text: string)
    | Assistant(reply: AssistantMessage)
    | ToolMessage(toolCallId: string, content: string)

  /** `ToolResult`: the content produced for one tool call. */
  datatype ToolResult = ToolResult(toolCallId: string, content: string)

  /** What a `chat.completions.create` call sends: the model, the full
      history at that moment, and the tools when there are any. */
  datatype Request = Request(model: string, messages: seq<Message>, tools: Option<seq<ToolDefinition>>)
}
