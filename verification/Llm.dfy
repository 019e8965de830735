/** Chat messages as the LLM providers see them (src/llm/provider.rs). */
module Llm {
  import opened Wrappers

  datatype Role = System | User | Assistant | Tool

  /** Arguments are a JSON value in the source; here they are opaque text. */
  datatype ToolCall = ToolCall(id: string, name: string, arguments: string)

  /** `toolCalls == []` stands for the source's `None`: its constructor stores an empty list as `None`. */
  datatype ChatMessage = ChatMessage(
    role: Role,
    content: string,
    toolCallId: Option<string>,
    name: Option<string>,
    toolCalls: seq<ToolCall>)

  function SystemMsg(content: string): ChatMessage {
    ChatMessage(System, content, None, None, [])
  }

  function UserMsg(content: string): ChatMessage {
    ChatMessage(User, content, None, None, [])
  }

  function AssistantMsg(content: string): ChatMessage {
    ChatMessage(Assistant, content, None, None, [])
  }

  function AssistantWithCalls(content: string, calls: seq<ToolCall>): ChatMessage {
    ChatMessage(Assistant, content, None, None, calls)
  }

  function ToolResultMsg(id: string, name: string, content: string): ChatMessage {
    ChatMessage(Tool, content, Some(id), Some(name), [])
  }
}
