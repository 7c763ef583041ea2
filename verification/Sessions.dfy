// Session files (src/activations/claudecode/sessions.rs): the events of a
// session as an importer turns them into a log, and the grouping machine by
// which the exporter turns a log back into session events.
//
// The envelope of a session event (uuids, timestamps, directories) carries no
// conversation and is left out.
module Sessions {
  import opened Prelude
  import opened Conversation

  datatype SessionBlock =
    | SText(text: string)
    | SToolUse(id: string, name: string, input: JsonValue)
    | SToolResult(toolUseId: string, output: string, isError: Option<bool>)
    | SThinking(thinking: string, signature: Option<string>)

  datatype AssistantMessage = Full(content: seq<SessionBlock>) | Simple(text: string)

  datatype SessionEvent =
    | UserTurn(content: string)
    | AssistantTurn(message: AssistantMessage)
    | SystemEvent(notice: string)
    | FileHistorySnapshot
    | QueueOperation(operation: string)
    | UnknownEvent

  /** JSON text of the one-element list that holds a tool result. */
  type ToolJson = SessionBlock -> string

  // -------------------------------------------------------------------- import

  function ImportedBlock(b: SessionBlock): NodeEvent {
    match b
    case SText(t) => ContentText(t)
    case SToolUse(i, n, x) => ContentToolUse(i, n, x)
    case SToolResult(i, o, x) => UserToolResult(i, o, x.Some? && x.value)
    case SThinking(t, _) => ContentThinking(t)
  }

  function ImportedBlocks(blocks: seq<SessionBlock>): seq<NodeEvent> {
    if blocks == [] then []
    else ImportedBlocks(blocks[..|blocks| - 1]) + [ImportedBlock(blocks[|blocks| - 1])]
  }

  /** The nodes that import_to_arbor creates for one session event. */
  function ImportedEvent(e: SessionEvent): seq<NodeEvent> {
    match e
    case UserTurn(c) => [UserMessage(c)]
    case AssistantTurn(Full(content)) => [AssistantStart] + ImportedBlocks(content) + [AssistantComplete]
    case AssistantTurn(Simple(_)) => [AssistantStart, AssistantComplete]
    case _ => []
  }

  function LogOf(session: seq<SessionEvent>): seq<NodeEvent> {
    if session == [] then []
    else LogOf(session[..|session| - 1]) + ImportedEvent(session[|session| - 1])
  }

  // -------------------------------------------------------------------- export

  /** The variables of the grouping loop in export_from_arbor. */
  datatype Exporter = Exporter(inAssistant: bool, blocks: seq<SessionBlock>, events: seq<SessionEvent>)

  const NOTHING_YET := Exporter(false, [], [])

  /** Complete a pending assistant message. One without blocks stays pending. */
  function Complete(s: Exporter): Exporter {
    if s.inAssistant && s.blocks != [] then Exporter(false, [], s.events + [AssistantTurn(Full(s.blocks))])
    else s
  }

  function Collect(s: Exporter, b: SessionBlock): Exporter {
    if s.inAssistant then s.(blocks := s.blocks + [b]) else s
  }

  function ExportStep(json: ToolJson, s: Exporter, e: NodeEvent): Exporter {
    match e
    case UserMessage(t) => var c := Complete(s); c.(events := c.events + [UserTurn(t)])
    case AssistantStart => s.(inAssistant := true, blocks := [])
    case ContentText(t) => Collect(s, SText(t))
    case ContentToolUse(i, n, x) => Collect(s, SToolUse(i, n, x))
    case ContentThinking(t) => Collect(s, SThinking(t, None))
    case UserToolResult(i, o, x) =>
      var c := Complete(s);
      c.(events := c.events + [UserTurn(json(SToolResult(i, o, Some(x))))])
    case AssistantComplete => Complete(s)
    case LaunchCommand(_) => s
    case ClaudeStderr(_) => s
  }

  function ExportRun(json: ToolJson, s: Exporter, log: seq<NodeEvent>): Exporter {
    if log == [] then s else ExportStep(json, ExportRun(json, s, log[..|log| - 1]), log[|log| - 1])
  }

  /** What the exporter writes for a log. */
  function Exported(json: ToolJson, log: seq<NodeEvent>): seq<SessionEvent> {
    Complete(ExportRun(json, NOTHING_YET, log)).events
  }

  lemma {:induction false} ExportAppend(json: ToolJson, s: Exporter, a: seq<NodeEvent>, b: seq<NodeEvent>)
    ensures ExportRun(json, s, a + b) == ExportRun(json, ExportRun(json, s, a), b)
  {
    if b == [] {
      assert a + b == a;
    } else {
      assert (a + b)[..|a + b| - 1] == a + b[..|b| - 1];
      ExportAppend(json, s, a, b[..|b| - 1]);
    }
  }

  lemma {:induction false} ExportOne(json: ToolJson, s: Exporter, e: NodeEvent)
    ensures ExportRun(json, s, [e]) == ExportStep(json, s, e)
  {
    assert [e][..0] == [];
    assert ExportRun(json, s, []) == s;
  }

  // -------------------------------------------------------------- normal form

  /** A block without its thinking signature, its error flag filled in. */
  function Erased(b: SessionBlock): SessionBlock {
    match b
    case SThinking(t, _) => SThinking(t, None)
    case SToolResult(i, o, x) => SToolResult(i, o, Some(x.Some? && x.value))
    case _ => b
  }

  function ErasedAll(blocks: seq<SessionBlock>): seq<SessionBlock> {
    if blocks == [] then [] else ErasedAll(blocks[..|blocks| - 1]) + [Erased(blocks[|blocks| - 1])]
  }

  /** Messages only, and no assistant message without blocks. */
  function NormalEvent(e: SessionEvent): seq<SessionEvent> {
    match e
    case UserTurn(_) => [e]
    case AssistantTurn(Full(content)) => if content == [] then [] else [AssistantTurn(Full(ErasedAll(content)))]
    case _ => []
  }

  function Normal(session: seq<SessionEvent>): seq<SessionEvent> {
    if session == [] then []
    else Normal(session[..|session| - 1]) + NormalEvent(session[|session| - 1])
  }

  predicate NoToolResultIn(blocks: seq<SessionBlock>) {
    forall i :: 0 <= i < |blocks| ==> !blocks[i].SToolResult?
  }

  predicate NoToolResultInside(e: SessionEvent) {
    e.AssistantTurn? && e.message.Full? ==> NoToolResultIn(e.message.content)
  }

  predicate NoToolResults(session: seq<SessionEvent>) {
    forall i :: 0 <= i < |session| ==> NoToolResultInside(session[i])
  }

  // -------------------------------------------------------- import then export

  lemma {:induction false} CollectAll(json: ToolJson, s: Exporter, content: seq<SessionBlock>)
    requires s.inAssistant && NoToolResultIn(content)
    ensures ExportRun(json, s, ImportedBlocks(content)) == s.(blocks := s.blocks + ErasedAll(content))
  {
    if content == [] {
      assert s.blocks + [] == s.blocks;
    } else {
      var front, last := content[..|content| - 1], content[|content| - 1];
      CollectAll(json, s, front);
      var log := ImportedBlocks(content);
      assert log[..|log| - 1] == ImportedBlocks(front);
      AppendAssoc(s.blocks, ErasedAll(front), [Erased(last)]);
    }
  }

  /** One event imported and exported, between two messages. */
  lemma {:induction false} EventRoundTrip(json: ToolJson, s: Exporter, e: SessionEvent)
    requires s.blocks == [] && NoToolResultInside(e)
    ensures var s' := ExportRun(json, s, ImportedEvent(e));
            s'.blocks == [] && s'.events == s.events + NormalEvent(e)
  {
    match e
    case UserTurn(c) => ExportOne(json, s, UserMessage(c));
    case AssistantTurn(Full(content)) => AssistantRoundTrip(json, s, content);
    case AssistantTurn(Simple(_)) =>
      AssistantRoundTrip(json, s, []);
      assert [AssistantStart] + [] + [AssistantComplete] == [AssistantStart, AssistantComplete];
    case _ =>
  }

  lemma {:induction false} AssistantRoundTrip(json: ToolJson, s: Exporter, content: seq<SessionBlock>)
    requires s.blocks == [] && NoToolResultIn(content)
    ensures var s' := ExportRun(json, s, [AssistantStart] + ImportedBlocks(content) + [AssistantComplete]);
            && s'.blocks == []
            && s'.events == s.events + if content == [] then [] else [AssistantTurn(Full(ErasedAll(content)))]
  {
    var open := s.(inAssistant := true);
    ExportAppend(json, s, [AssistantStart] + ImportedBlocks(content), [AssistantComplete]);
    ExportAppend(json, s, [AssistantStart], ImportedBlocks(content));
    ExportOne(json, s, AssistantStart);
    CollectAll(json, open, content);
    assert [] + ErasedAll(content) == ErasedAll(content);
    ExportOne(json, open.(blocks := ErasedAll(content)), AssistantComplete);
  }

  lemma {:induction false} ImportExport(json: ToolJson, session: seq<SessionEvent>)
    requires NoToolResults(session)
    ensures var s := ExportRun(json, NOTHING_YET, LogOf(session));
            s.blocks == [] && s.events == Normal(session)
  {
    if session != [] {
      var front, last := session[..|session| - 1], session[|session| - 1];
      ImportExport(json, front);
      ExportAppend(json, NOTHING_YET, LogOf(front), ImportedEvent(last));
      EventRoundTrip(json, ExportRun(json, NOTHING_YET, LogOf(front)), last);
    }
  }

  /** A block as the exporter writes it. */
  predicate Plain(b: SessionBlock) {
    !b.SToolResult? && (b.SThinking? ==> b.signature.None?)
  }

  predicate AllPlain(blocks: seq<SessionBlock>) {
    forall i :: 0 <= i < |blocks| ==> Plain(blocks[i])
  }

  /** A message as the exporter writes it. */
  predicate NormalForm(e: SessionEvent) {
    e.UserTurn? || (e.AssistantTurn? && e.message.Full? && e.message.content != [] && AllPlain(e.message.content))
  }

  predicate InNormalForm(session: seq<SessionEvent>) {
    forall i :: 0 <= i < |session| ==> NormalForm(session[i])
  }

  lemma {:induction false} ExporterIsPlain(json: ToolJson, log: seq<NodeEvent>)
    ensures var s := ExportRun(json, NOTHING_YET, log); AllPlain(s.blocks) && InNormalForm(s.events)
  {
    if log != [] {
      ExporterIsPlain(json, log[..|log| - 1]);
    }
  }

  /** Whatever the log, what is exported is in normal form. */
  lemma {:induction false} ExportedIsNormal(json: ToolJson, log: seq<NodeEvent>)
    ensures InNormalForm(Exported(json, log))
  {
    ExporterIsPlain(json, log);
  }

  lemma {:induction false} PlainIsErased(blocks: seq<SessionBlock>)
    ensures AllPlain(blocks) ==> ErasedAll(blocks) == blocks
    ensures AllPlain(ErasedAll(blocks)) ==> NoToolResultIn(blocks)
    ensures |ErasedAll(blocks)| == |blocks|
  {
    if blocks != [] {
      var front, last := blocks[..|blocks| - 1], blocks[|blocks| - 1];
      PlainIsErased(front);
      var erased := ErasedAll(blocks);
      assert AllPlain(erased) ==> Plain(erased[|erased| - 1]) && AllPlain(erased[..|erased| - 1]);
      assert erased[..|erased| - 1] == ErasedAll(front);
    }
  }

  lemma {:induction false} NormalFormIsFixed(session: seq<SessionEvent>)
    requires InNormalForm(session)
    ensures Normal(session) == session && NoToolResults(session)
  {
    if session != [] {
      var front, last := session[..|session| - 1], session[|session| - 1];
      NormalFormIsFixed(front);
      assert NormalForm(last);
      if last.AssistantTurn? {
        PlainIsErased(last.message.content);
      }
      assert front + [last] == session;
    }
  }

  lemma {:induction false} NormalWithoutToolResults(session: seq<SessionEvent>)
    requires InNormalForm(Normal(session))
    ensures NoToolResults(session)
  {
    if session != [] {
      var front, last := session[..|session| - 1], session[|session| - 1];
      var all := Normal(session);
      assert forall i :: 0 <= i < |Normal(front)| ==> all[i] == Normal(front)[i];
      NormalWithoutToolResults(front);
      if last.AssistantTurn? && last.message.Full? && last.message.content != [] {
        assert all[|all| - 1] == AssistantTurn(Full(ErasedAll(last.message.content)));
        PlainIsErased(last.message.content);
      }
    }
  }

  /** Importing a session and exporting it again gives its normal form exactly
      when no assistant message holds a tool result. */
  lemma {:induction false} RoundTripExactly(json: ToolJson, session: seq<SessionEvent>)
    ensures Exported(json, LogOf(session)) == Normal(session) <==> NoToolResults(session)
  {
    if NoToolResults(session) {
      ImportExport(json, session);
    }
    if Exported(json, LogOf(session)) == Normal(session) {
      ExportedIsNormal(json, LogOf(session));
      NormalWithoutToolResults(session);
    }
  }

  /** What was exported once, from whatever log, is imported and exported again
      without any change: doing it twice equals doing it once. */
  lemma {:induction false} TwiceIsOnce(json: ToolJson, log: seq<NodeEvent>)
    ensures var written := Exported(json, log);
            Exported(json, LogOf(written)) == written
  {
    ExportedIsNormal(json, log);
    NormalFormIsFixed(Exported(json, log));
    RoundTripExactly(json, Exported(json, log));
  }
}
