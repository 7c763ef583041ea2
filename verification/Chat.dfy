// One streamed chat turn as a fold over the raw events of the Claude process
// (the loop at src/activations/claudecode/activation.rs:294-470).
module Chat {
  import opened Prelude
  import opened ChatTypes
  import opened Conversation
  import opened RenderLaws
  import opened Turns

  /** JSON text of a tool input, read back. */
  type JsonParser = string -> Option<JsonValue>

  /** The loop's variables, the nodes appended under the turn, the events shown
      to the caller and the unknown events put aside, so far. */
  datatype Relay = Relay(
    response: string, claudeId: Option<string>, cost: Option<real>, turns: Option<int>,
    toolId: Option<string>, toolName: Option<string>, toolInput: string,
    nodes: seq<NodeEvent>, events: seq<ChatEvent>, unknown: seq<(string, JsonValue)>, error: Option<string>)
  {
    /** One event: a node under the turn, and the caller's view of it. */
    function Tell(e: NodeEvent): Relay
      requires e.ContentText? || e.ContentToolUse? || e.ContentThinking? || e.UserToolResult?
    {
      this.(nodes := nodes + [e], events := events + [Shown(e)])
    }

    function Note(e: NodeEvent): Relay {
      this.(nodes := nodes + [e])
    }

    function Heard(sid: Option<string>): Relay {
      if sid.Some? then this.(claudeId := sid) else this
    }
  }

  function Shown(e: NodeEvent): ChatEvent
    requires e.ContentText? || e.ContentToolUse? || e.ContentThinking? || e.UserToolResult?
  {
    match e
    case ContentText(t) => Content(t)
    case ContentToolUse(i, n, x) => ToolUse(n, i, x)
    case ContentThinking(t) => Thinking(t)
    case UserToolResult(i, o, x) => ToolResult(i, o, x)
  }

  function Launched(claudeId: Option<string>): Relay {
    Relay("", claudeId, None, None, None, None, "", [], [], [], None)
  }

  function OnPart(parse: JsonParser, s: Relay, part: StreamPart): Relay {
    match part
    case TextDelta(t) => s.(response := s.response + t).Tell(ContentText(t))
    case InputJsonDelta(p) => s.(toolInput := s.toolInput + p)
    case ToolUseStart(i, n) => s.(toolId := Some(i), toolName := Some(n), toolInput := "")
    case BlockStop =>
      var cleared := s.(toolId := None, toolName := None);
      if s.toolId.Some? && s.toolName.Some? then
        cleared.(toolInput := "").Tell(ContentToolUse(s.toolId.value, s.toolName.value,
          ParsedInput(parse, s.toolInput)))
      else cleared
    case OtherPart => s
  }

  /** Input that does not parse counts as the empty object. */
  function ParsedInput(parse: JsonParser, text: string): JsonValue {
    match parse(text)
    case None => JObject(map[])
    case Some(v) => v
  }

  function OnBlock(s: Relay, b: RawBlock): Relay {
    match b
    case RawText(t) => if s.response == "" then s.(response := t).Tell(ContentText(t)) else s
    case RawToolUse(i, n, x) => s.Tell(ContentToolUse(i, n, x))
    case RawToolResult(i, o, x) => s.Tell(UserToolResult(i, if o.Some? then o.value else "", x.Some? && x.value))
    case RawThinking(t) => s.Tell(ContentThinking(t))
  }

  function OnBlocks(s: Relay, blocks: seq<RawBlock>): Relay {
    if blocks == [] then s else OnBlock(OnBlocks(s, blocks[..|blocks| - 1]), blocks[|blocks| - 1])
  }

  /** `first` numbers the unknown events stored for this turn. */
  function OnRaw(parse: JsonParser, first: int, s: Relay, raw: RawEvent): Relay {
    match raw
    case RawSystem(sid) => s.Heard(sid)
    case RawStream(part, sid) => OnPart(parse, s.Heard(sid), part)
    case RawAssistant(content) => if content.Some? then OnBlocks(s, content.value) else s
    case RawUser => s
    case RawResult(sid, cost, turns, failed, error) =>
      s.Heard(sid).(cost := cost, turns := turns, error := if failed == Some(true) then error else None)
    case RawUnknown(k, data) =>
      s.(events := s.events + [Passthrough(k, Some(first + |s.unknown|), data)], unknown := s.unknown + [(k, data)])
    case RawLaunch(c) => s.Note(LaunchCommand(c))
    case RawStderr(t) => s.Note(ClaudeStderr(t))
  }

  /** The whole loop: a result that reports an error ends it. */
  function OnAll(parse: JsonParser, first: int, s: Relay, raws: seq<RawEvent>): Relay {
    if raws == [] then s
    else
      var before := OnAll(parse, first, s, raws[..|raws| - 1]);
      if before.error.Some? then before else OnRaw(parse, first, before, raws[|raws| - 1])
  }

  // ------------------------------------------------- the views of a reply agree

  /** The text of content events, joined. */
  function JoinShown(events: seq<ChatEvent>): string {
    if events == [] then ""
    else JoinShown(events[..|events| - 1]) + if events[|events| - 1].Content? then events[|events| - 1].text else ""
  }

  /** The text of content nodes, joined. */
  function JoinNodes(nodes: seq<NodeEvent>): string {
    if nodes == [] then ""
    else JoinNodes(nodes[..|nodes| - 1]) + if nodes[|nodes| - 1].ContentText? then nodes[|nodes| - 1].text else ""
  }

  /** The nodes that a caller is shown: all but the debug nodes. */
  function Visible(nodes: seq<NodeEvent>): seq<ChatEvent> {
    if nodes == [] then []
    else
      var e := nodes[|nodes| - 1];
      Visible(nodes[..|nodes| - 1])
      + if e.ContentText? || e.ContentToolUse? || e.ContentThinking? || e.UserToolResult? then [Shown(e)] else []
  }

  /** What a caller is shown, without the events passed through. */
  function WithoutPassthrough(events: seq<ChatEvent>): seq<ChatEvent> {
    if events == [] then []
    else
      var e := events[|events| - 1];
      WithoutPassthrough(events[..|events| - 1]) + if e.Passthrough? then [] else [e]
  }

  /** The reply as text, as nodes and as events, in agreement. */
  ghost predicate InAgreement(s: Relay) {
    && JoinShown(s.events) == s.response && JoinNodes(s.nodes) == s.response
    && WithoutPassthrough(s.events) == Visible(s.nodes)
    && InTurnEvents(s.nodes)
  }

  lemma {:induction false} OneMoreShown(events: seq<ChatEvent>, e: ChatEvent)
    ensures JoinShown(events + [e]) == JoinShown(events) + if e.Content? then e.text else ""
    ensures WithoutPassthrough(events + [e]) == WithoutPassthrough(events) + if e.Passthrough? then [] else [e]
  {
    assert (events + [e])[..|events|] == events;
  }

  lemma {:induction false} OneMoreNode(nodes: seq<NodeEvent>, e: NodeEvent)
    requires InTurnEvents(nodes) && InTurnEvent(e)
    ensures JoinNodes(nodes + [e]) == JoinNodes(nodes) + if e.ContentText? then e.text else ""
    ensures Visible(nodes + [e]) == Visible(nodes) + if IsDebug(e) then [] else [Shown(e)]
    ensures InTurnEvents(nodes + [e])
  {
    assert (nodes + [e])[..|nodes|] == nodes;
  }

  lemma {:induction false} TellAgrees(s: Relay, e: NodeEvent, response: string)
    requires InAgreement(s)
    requires e.ContentText? || e.ContentToolUse? || e.ContentThinking? || e.UserToolResult?
    requires response == s.response + if e.ContentText? then e.text else ""
    ensures InAgreement(s.(response := response).Tell(e))
  {
    OneMoreShown(s.events, Shown(e));
    OneMoreNode(s.nodes, e);
  }

  lemma {:induction false} NoteAgrees(s: Relay, e: NodeEvent)
    requires InAgreement(s) && IsDebug(e)
    ensures InAgreement(s.Note(e))
  {
    OneMoreNode(s.nodes, e);
    assert s.response + "" == s.response && Visible(s.nodes) + [] == Visible(s.nodes);
  }

  lemma {:induction false} PassAgrees(s: Relay, e: ChatEvent, unknown: seq<(string, JsonValue)>)
    requires InAgreement(s) && e.Passthrough?
    ensures InAgreement(s.(events := s.events + [e], unknown := unknown))
  {
    OneMoreShown(s.events, e);
    assert s.response + "" == s.response && WithoutPassthrough(s.events) + [] == WithoutPassthrough(s.events);
  }

  lemma {:induction false} BlockAgrees(s: Relay, b: RawBlock)
    requires InAgreement(s)
    ensures InAgreement(OnBlock(s, b))
  {
    assert s.response + "" == s.response;
    match b
    case RawText(t) =>
      if s.response == "" {
        assert "" + t == t;
        TellAgrees(s, ContentText(t), t);
      }
    case RawToolUse(i, n, x) => TellAgrees(s, ContentToolUse(i, n, x), s.response);
    case RawToolResult(i, o, x) =>
      TellAgrees(s, UserToolResult(i, if o.Some? then o.value else "", x.Some? && x.value), s.response);
    case RawThinking(t) => TellAgrees(s, ContentThinking(t), s.response);
  }

  lemma {:induction false} BlocksAgree(s: Relay, blocks: seq<RawBlock>)
    requires InAgreement(s)
    ensures InAgreement(OnBlocks(s, blocks))
  {
    if blocks != [] {
      BlocksAgree(s, blocks[..|blocks| - 1]);
      BlockAgrees(OnBlocks(s, blocks[..|blocks| - 1]), blocks[|blocks| - 1]);
    }
  }

  lemma {:induction false} PartAgrees(parse: JsonParser, s: Relay, part: StreamPart)
    requires InAgreement(s)
    ensures InAgreement(OnPart(parse, s, part))
  {
    assert s.response + "" == s.response;
    match part
    case TextDelta(t) => TellAgrees(s, ContentText(t), s.response + t);
    case BlockStop =>
      var cleared := s.(toolId := None, toolName := None, toolInput := "");
      if s.toolId.Some? && s.toolName.Some? {
        TellAgrees(cleared, ContentToolUse(s.toolId.value, s.toolName.value, ParsedInput(parse, s.toolInput)),
          s.response);
      }
    case _ =>
  }

  lemma {:induction false} RawAgrees(parse: JsonParser, first: int, s: Relay, raw: RawEvent)
    requires InAgreement(s)
    ensures InAgreement(OnRaw(parse, first, s, raw))
  {
    match raw
    case RawStream(part, sid) => PartAgrees(parse, s.Heard(sid), part);
    case RawAssistant(content) =>
      if content.Some? {
        BlocksAgree(s, content.value);
      }
    case RawUnknown(k, data) =>
      PassAgrees(s, Passthrough(k, Some(first + |s.unknown|), data), s.unknown + [(k, data)]);
    case RawLaunch(c) => NoteAgrees(s, LaunchCommand(c));
    case RawStderr(t) => NoteAgrees(s, ClaudeStderr(t));
    case _ =>
  }

  /** For every sequence of raw events, whether it ends in a result, in an error
      or nowhere: the content shown, the content nodes and the reply text say the
      same, and the events shown are the nodes that are not debug nodes, one for
      one and in order. */
  lemma {:induction false} ViewsAgree(parse: JsonParser, first: int, claudeId: Option<string>, raws: seq<RawEvent>)
    ensures InAgreement(OnAll(parse, first, Launched(claudeId), raws))
  {
    if raws != [] {
      var front := raws[..|raws| - 1];
      ViewsAgree(parse, first, claudeId, front);
      var before := OnAll(parse, first, Launched(claudeId), front);
      if before.error.None? {
        RawAgrees(parse, first, before, raws[|raws| - 1]);
      }
    }
  }
}
