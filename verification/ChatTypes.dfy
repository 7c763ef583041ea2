// What goes into a chat and what comes out of it: the raw events of the Claude
// process and the events a caller sees (src/activations/claudecode/types.rs:444-700).
// Only the parts that the chat loop reads are kept.
module ChatTypes {
  import opened Prelude
  import opened Arbor
  import opened Conversation

  datatype Position = Position(tree: Id, node: Id)

  datatype RawBlock =
    | RawText(text: string)
    | RawThinking(thinking: string)
    | RawToolUse(id: string, name: string, input: JsonValue)
    | RawToolResult(toolUseId: string, output: Option<string>, isError: Option<bool>)

  /** The inner event of a stream event. */
  datatype StreamPart =
    | TextDelta(text: string)
    | InputJsonDelta(partial: string)
    | ToolUseStart(id: string, name: string)
    | BlockStop
    | OtherPart

  datatype RawEvent =
    | RawSystem(sid: Option<string>)
    | RawStream(part: StreamPart, sid: Option<string>)
    | RawAssistant(content: Option<seq<RawBlock>>)
    | RawUser
    | RawResult(sid: Option<string>, cost: Option<real>, turns: Option<int>, failed: Option<bool>,
      error: Option<string>)
    | RawUnknown(eventType: string, data: JsonValue)
    | RawLaunch(command: string)
    | RawStderr(stderr: string)

  datatype ChatEvent =
    | Start(session: int, userPosition: Position)
    | Content(text: string)
    | Thinking(thinking: string)
    | ToolUse(name: string, id: string, input: JsonValue)
    | ToolResult(toolUseId: string, output: string, isError: bool)
    | Complete(newHead: Position, claudeSessionId: string, cost: Option<real>, turns: Option<int>)
    | Passthrough(eventType: string, handle: Option<int>, data: JsonValue)
    | Failure(reason: Reason)

  /** Why a chat failed, where the source has the text of an error. */
  datatype Reason = DatabaseError | ArborRefused(error: ArborError) | ClaudeError(message: string) | NoResponse
}
