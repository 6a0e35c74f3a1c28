/** `Session` (src/ai/session.ts): an append-only conversation history sent in
    full with every completion request.

    The completion endpoint is not modelled: each call that would reach it
    takes the endpoint's reply as a parameter and returns, beside the reply,
    the request that was sent.
 */
module Session {

  import opened Wrappers
  import opened Chat

  datatype SessionOptions = SessionOptions(
    model: Option<string>,
    systemPrompt: Option<string>,
    tools: Option<seq<ToolDefinition>>)

  /** `options.model ?? process.env['OPENAI_MODEL'] ?? 'gpt-4'`: only an
      absent value falls through, an empty string is kept. */
  function ChooseModel(model: Option<string>, envModel: Option<string>): string {
    model.GetOr(envModel.GetOr("gpt-4"))
  }

  lemma ChooseModelCases(model: Option<string>, envModel: Option<string>)
    ensures model.Some? ==> ChooseModel(model, envModel) == model.value
    ensures model.None? && envModel.Some? ==> ChooseModel(model, envModel) == envModel.value
    ensures model.None? && envModel.None? ==> ChooseModel(model, envModel) == "gpt-4"
  {
  }

  /** The history a new session starts with: the system message when
      `systemPrompt` is a non-empty string. */
  function InitialHistory(systemPrompt: Option<string>): (h: seq<Message>)
    ensures |h| <= 1
    ensures h != [] <==> systemPrompt.Some? && systemPrompt.value != ""
    ensures h != [] ==> h[0] == SystemMessage(systemPrompt.value)
  {
    if systemPrompt.Some? && systemPrompt.value != "" then [SystemMessage(systemPrompt.value)] else []
  }

  /** `Session.requiresToolCall`: the first choice exists and stopped to call
      tools. */
  predicate RequiresToolCall(response: Completion) {
    |response.choices| > 0 && response.choices[0].finishReason == ToolCalls
  }

  lemma NoChoicesNoToolCall(response: Completion)
    requires response.choices == []
    ensures !RequiresToolCall(response)
  {
  }

  /** The message a reply adds to the history: its first choice's message,
      if there is a first choice. */
  function ReplyMessages(response: Completion): (r: seq<Message>)
    ensures |r| <= 1
    ensures |r| == 1 <==> |response.choices| > 0
    ensures |r| == 1 ==> r[0] == Assistant(response.choices[0].message)
  {
    if |response.choices| > 0 then [Assistant(response.choices[0].message)] else []
  }

  /** One `tool` message per result, in order, carrying its id and content. */
  function ToolMessages(results: seq<ToolResult>): (r: seq<Message>)
    ensures |r| == |results|
    ensures forall i :: 0 <= i < |results| ==>
      r[i] == ToolMessage(results[i].toolCallId, results[i].content)
  {
    if results == [] then []
    else [ToolMessage(results[0].toolCallId, results[0].content)] + ToolMessages(results[1..])
  }

  /** The `tools` member of a request: present only for a non-empty list. */
  function ToolsField(tools: seq<ToolDefinition>): (r: Option<seq<ToolDefinition>>)
    ensures r.Some? <==> tools != []
    ensures r.Some? ==> r.value == tools
  {
    if |tools| > 0 then Some(tools) else None
  }

  class Session {
    var messages: seq<Message>
    var model: string
    var tools: seq<ToolDefinition>

    /** `new Session(options)`, with `envModel` the `OPENAI_MODEL` variable. */
    constructor (options: SessionOptions, envModel: Option<string>)
      ensures model == ChooseModel(options.model, envModel)
      ensures tools == options.tools.GetOr([])
      ensures messages == InitialHistory(options.systemPrompt)
    {
      messages := [];
      model := ChooseModel(options.model, envModel);
      tools := options.tools.GetOr([]);
      if options.systemPrompt.Some? && options.systemPrompt.value != "" {
        messages := messages + [SystemMessage(options.systemPrompt.value)];
      }
    }

    /** The request a completion call sends now. */
    function CurrentRequest(): (r: Request)
      reads this
      ensures r.model == model && r.messages == messages
      ensures r.tools == ToolsField(tools)
    {
      Request(model, messages, ToolsField(tools))
    }

    method AddUserMessage(content: string)
      modifies this
      ensures messages == old(messages) + [UserMessage(content)]
      ensures model == old(model) && tools == old(tools)
    {
      messages := messages + [UserMessage(content)];
    }

    method AddAssistantMessage(content: string)
      modifies this
      ensures messages == old(messages) + [Assistant(AssistantMessage(Some(content), None))]
      ensures model == old(model) && tools == old(tools)
    {
      messages := messages + [Assistant(AssistantMessage(Some(content), None))];
    }

    /** `chat(userMessage)`: the user message is appended, the whole history
        is sent, and the first choice's message of the reply is appended. */
    method Chat(userMessage: string, reply: Completion) returns (response: Completion, sent: Request)
      modifies this
      ensures sent == Request(old(model), old(messages) + [UserMessage(userMessage)], ToolsField(old(tools)))
      ensures response == reply
      ensures messages == old(messages) + [UserMessage(userMessage)] + ReplyMessages(reply)
      ensures model == old(model) && tools == old(tools)
    {
      AddUserMessage(userMessage);
      sent := CurrentRequest();
      response := reply;
      if |response.choices| > 0 {
        messages := messages + [Assistant(response.choices[0].message)];
      }
    }

    /** `submitToolResults(results)`: one tool message per result is
        appended, the whole history is sent, and the first choice's message
        of the reply is appended. */
    method SubmitToolResults(results: seq<ToolResult>, reply: Completion) returns (response: Completion, sent: Request)
      modifies this
      ensures sent == Request(old(model), old(messages) + ToolMessages(results), ToolsField(old(tools)))
      ensures response == reply
      ensures messages == old(messages) + ToolMessages(results) + ReplyMessages(reply)
      ensures model == old(model) && tools == old(tools)
    {
      messages := messages + ToolMessages(results);
      sent := CurrentRequest();
      response := reply;
      if |response.choices| > 0 {
        messages := messages + [Assistant(response.choices[0].message)];
      }
    }

    /** `getMessages()`: a copy of the history. Sequences are values, so
        nothing done to the copy reaches the session. */
    method GetMessages() returns (copy: seq<Message>)
      ensures copy == messages
    {
      copy := messages;
    }

    /** `clearMessages()`: the history becomes empty, system message
        included. */
    method ClearMessages()
      modifies this
      ensures messages == []
      ensures model == old(model) && tools == old(tools)
    {
      messages := [];
    }
  }
}
