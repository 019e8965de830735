/** The approval request that suspends a message of tool calls (src/agent/session.rs). */
module Pending {
  import opened Llm

  /** An approval request as stored on the thread; display fields are left out. */
  datatype PendingApproval = PendingApproval(
    requestId: nat,
    toolName: string,
    parameters: string,
    toolCallId: string,
    contextMessages: seq<ChatMessage>,
    deferredToolCalls: seq<ToolCall>)
}
