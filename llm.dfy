/**
 * What the orchestration core exchanges with a language-model provider. The provider base
 * class (nanobot/providers/base.py) is not part of this model; the agent loop and the
 * subagents see a provider as an oracle that answers its n-th call.
 */
module Llm {
  import opened Wrappers

  /** A tool-call argument: a string, or any other JSON value kept as its text. */
  datatype Value = Text(text: string) | Json(encoded: string)

  type Args = map<string, Value>

  /** One tool call requested by the model; `id` keys the result back to the call. */
  datatype ToolCallRequest = ToolCallRequest(id: string, name: string, arguments: Args)

  datatype LLMResponse = LLMResponse(
    content: Option<string>,
    toolCalls: seq<ToolCallRequest>,
    finishReason: string,
    usage: map<string, int>)
  {
    predicate HasToolCalls() {
      |toolCalls| > 0
    }
  }

  /** The model-facing message sequence. */
  datatype ChatMessage =
    | System(content: string)
    | User(content: string, media: seq<string>)
    | Assistant(reply: Option<string>, toolCalls: seq<ToolCallRequest>)
    | Tool(toolCallId: string, name: string, content: string)

  /** One provider call: the messages, the names of the advertised tools and the model name. */
  datatype ChatRequest = ChatRequest(messages: seq<ChatMessage>, tools: seq<string>, model: string)

  /** What a provider call does: it answers, or it raises. */
  datatype ChatOutcome = Reply(response: LLMResponse) | Raise(error: string)

  /** A provider shared by reference: `respond(n, request)` is its answer to its n-th call. */
  class Provider {
    const respond: (nat, ChatRequest) -> ChatOutcome
    const defaultModel: string
    var calls: nat

    constructor (respond: (nat, ChatRequest) -> ChatOutcome, defaultModel: string)
      ensures this.respond == respond && this.defaultModel == defaultModel && calls == 0
    {
      this.respond := respond;
      this.defaultModel := defaultModel;
      calls := 0;
    }

    /** `provider.chat(messages, tools, model)` */
    method Chat(request: ChatRequest) returns (o: ChatOutcome)
      modifies this
      ensures o == respond(old(calls), request)
      ensures calls == old(calls) + 1
    {
      o := respond(calls, request);
      calls := calls + 1;
    }
  }
}
