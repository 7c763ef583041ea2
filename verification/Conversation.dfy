// Events of a conversation as they are stored in tree nodes, and the messages
// they are read back into (src/activations/claudecode/types.rs).
module Conversation {
  import opened Prelude
  import opened Arbor

  datatype JsonValue =
    | JNull
    | JBool(b: bool)
    | JNumber(digits: string)
    | JString(s: string)
    | JArray(items: seq<JsonValue>)
    | JObject(members: map<string, JsonValue>)

  datatype NodeEvent =
    | UserMessage(content: string)
    | AssistantStart
    | ContentText(text: string)
    | ContentToolUse(id: string, name: string, input: JsonValue)
    | ContentThinking(thinking: string)
    | UserToolResult(toolUseId: string, output: string, isError: bool)
    | AssistantComplete
    | LaunchCommand(command: string)
    | ClaudeStderr(stderr: string)

  datatype Role = User | Assistant

  datatype Block =
    | TextBlock(text: string)
    | ToolUseBlock(id: string, name: string, input: JsonValue)
    | ToolResultBlock(toolUseId: string, output: string, isError: bool)
    | ThinkingBlock(thinking: string)

  datatype Message = Message(role: Role, content: seq<Block>)

  /** JSON encoding of events as node text, and the parser that reads it back. */
  datatype Codec = Codec(encode: NodeEvent -> string, decode: string -> Option<NodeEvent>)
  {
    /** Parsing inverts encoding, and an encoded event is never blank. */
    ghost predicate Faithful() {
      forall e :: decode(encode(e)) == Some(e) && !Blank(encode(e))
    }
  }

  predicate IsContent(e: NodeEvent) {
    e.ContentText? || e.ContentToolUse? || e.ContentThinking?
  }

  predicate IsDebug(e: NodeEvent) {
    e.LaunchCommand? || e.ClaudeStderr?
  }

  /** The block that a content event contributes. */
  function BlockOf(e: NodeEvent): Block
    requires IsContent(e)
  {
    match e
    case ContentText(t) => TextBlock(t)
    case ContentToolUse(i, n, x) => ToolUseBlock(i, n, x)
    case ContentThinking(t) => ThinkingBlock(t)
  }

  /** The block that one event records, if any. */
  function Recorded(e: NodeEvent): seq<Block> {
    match e
    case UserMessage(t) => [TextBlock(t)]
    case UserToolResult(i, o, x) => [ToolResultBlock(i, o, x)]
    case ContentText(t) => [TextBlock(t)]
    case ContentToolUse(i, n, x) => [ToolUseBlock(i, n, x)]
    case ContentThinking(t) => [ThinkingBlock(t)]
    case _ => []
  }

  /** Every block an event log records, in order. */
  function BlocksOf(log: seq<NodeEvent>): seq<Block> {
    if log == [] then [] else BlocksOf(log[..|log| - 1]) + Recorded(log[|log| - 1])
  }

  function Flatten(messages: seq<Message>): seq<Block> {
    if messages == [] then [] else messages[0].content + Flatten(messages[1..])
  }

  lemma {:induction false} FlattenAppend(a: seq<Message>, b: seq<Message>)
    ensures Flatten(a + b) == Flatten(a) + Flatten(b)
  {
    if a == [] {
      assert a + b == b;
    } else {
      assert (a + b)[1..] == a[1..] + b;
      FlattenAppend(a[1..], b);
    }
  }

  lemma {:induction false} FlattenSnoc(a: seq<Message>, m: Message)
    ensures Flatten(a + [m]) == Flatten(a) + m.content
  {
    FlattenAppend(a, [m]);
    assert [m][1..] == [];
  }
}
