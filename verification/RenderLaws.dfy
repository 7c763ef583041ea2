// When rendering keeps order, when it attributes every block to its own turn,
// and when a session renders turn by turn: each with its exact condition.
module RenderLaws {
  import opened Prelude
  import opened Conversation
  import opened Render

  // --------------------------------------------------------------------- order

  /** No tool result arrives while orphaned content is waiting. */
  predicate NothingOvertaken(log: seq<NodeEvent>) {
    log == [] ||
    var before := log[..|log| - 1];
    NothingOvertaken(before) && (log[|log| - 1].UserToolResult? ==> Orphans(before) == [])
  }

  lemma {:induction false} OrphansAreContent(log: seq<NodeEvent>)
    ensures forall b | b in Orphans(log) :: !b.ToolResultBlock?
  {
    if log != [] {
      OrphansAreContent(log[..|log| - 1]);
    }
  }

  lemma {:induction false} InOrder(log: seq<NodeEvent>)
    requires NothingOvertaken(log)
    ensures InHand(Run(IDLE, log)) == BlocksOf(log)
  {
    if log != [] {
      var e, before := log[|log| - 1], log[..|log| - 1];
      InOrder(before);
      RendererState(before);
      StepInOrder(Run(IDLE, before), e);
    }
  }

  function InHand(s: Renderer): seq<Block> {
    Flatten(s.messages) + s.content
  }

  lemma {:induction false} StepInOrder(s: Renderer, e: NodeEvent)
    requires e.UserToolResult? ==> s.role.Some? || s.content == []
    ensures InHand(Step(s, e)) == InHand(s) + Recorded(e)
  {
    FlushFlatten(s);
    if e.UserToolResult? {
      FlattenSnoc(Flush(s).messages, Message(User, Recorded(e)));
    }
  }

  lemma {:induction false} MessagesOnlyGrow(s: Renderer, e: NodeEvent)
    ensures Flatten(s.messages) <= Flatten(Step(s, e).messages)
  {
    var f := Flush(s);
    if s.role.Some? && s.content != [] {
      FlattenSnoc(s.messages, Message(s.role.value, s.content));
    }
    if e.UserToolResult? {
      FlattenSnoc(f.messages, Message(User, Recorded(e)));
    }
  }

  /** Once a tool result has overtaken waiting content, it stands for good where
      the log has content. */
  lemma {:induction false} OutOfOrder(log: seq<NodeEvent>) returns (p: nat)
    requires !NothingOvertaken(log)
    ensures p < |Flatten(Run(IDLE, log).messages)| && p < |BlocksOf(log)|
    ensures Flatten(Run(IDLE, log).messages)[p].ToolResultBlock? && !BlocksOf(log)[p].ToolResultBlock?
  {
    var e, before := log[|log| - 1], log[..|log| - 1];
    var s := Run(IDLE, before);
    MessagesOnlyGrow(s, e);
    if !NothingOvertaken(before) {
      p := OutOfOrder(before);
    } else {
      InOrder(before);
      RendererState(before);
      OrphansAreContent(before);
      p := |Flatten(s.messages)|;
      assert s.content[0] in Orphans(before);
      FlattenSnoc(s.messages, Message(User, Recorded(e)));
    }
  }

  /** The rendered blocks, followed by the orphans of the end, are the log's
      blocks in the log's order, exactly when no tool result overtakes waiting
      content. */
  lemma {:induction false} OrderKeptExactly(log: seq<NodeEvent>)
    ensures Flatten(Rendered(log)) + Orphans(log) == BlocksOf(log) <==> NothingOvertaken(log)
  {
    var s := Run(IDLE, log);
    RendererState(log);
    FlushFlatten(s);
    if NothingOvertaken(log) {
      InOrder(log);
    } else {
      var p := OutOfOrder(log);
      assert Flatten(s.messages) <= Flatten(Rendered(log)) by {
        if s.role.Some? && s.content != [] {
          FlattenSnoc(s.messages, Message(s.role.value, s.content));
        }
      }
    }
  }

  // --------------------------------------------------------------- attribution

  /** Number of leading events that belong to an assistant turn just opened. */
  function TurnLength(log: seq<NodeEvent>): (n: nat)
    ensures n <= |log|
    ensures n < |log| ==> !IsContent(log[n]) && !IsDebug(log[n])
  {
    if log == [] || !(IsContent(log[0]) || IsDebug(log[0])) then 0 else 1 + TurnLength(log[1..])
  }

  function ContentOf(log: seq<NodeEvent>): seq<Block> {
    if log == [] then []
    else (if IsContent(log[0]) then [BlockOf(log[0])] else []) + ContentOf(log[1..])
  }

  function AssistantSaid(blocks: seq<Block>): seq<Message> {
    if blocks == [] then [] else [Message(Assistant, blocks)]
  }

  /** The conversation a log describes, by its grammar: a user message or tool
      result is a message of its own, an assistant turn is what follows its start
      marker up to the next marker, and content outside a turn belongs nowhere. */
  function Transcript(log: seq<NodeEvent>): seq<Message>
    decreases |log|
  {
    if log == [] then []
    else
      match log[0]
      case UserMessage(t) => [Message(User, [TextBlock(t)])] + Transcript(log[1..])
      case UserToolResult(i, o, x) => [Message(User, [ToolResultBlock(i, o, x)])] + Transcript(log[1..])
      case AssistantStart =>
        var n := 1 + TurnLength(log[1..]);
        AssistantSaid(ContentOf(log[1..n])) + Transcript(log[n..])
      case _ => Transcript(log[1..])
  }

  /** No content under an open user message, and no opening marker while content
      recorded with no role open is still waiting. */
  predicate Clean(role: Option<Role>, waiting: bool, log: seq<NodeEvent>)
    decreases |log|
  {
    log == [] ||
    match log[0]
    case UserMessage(_) => !waiting && Clean(Some(User), false, log[1..])
    case AssistantStart => !waiting && Clean(Some(Assistant), false, log[1..])
    case UserToolResult(_, _, _) => Clean(None, waiting, log[1..])
    case AssistantComplete => Clean(None, waiting, log[1..])
    case LaunchCommand(_) => Clean(role, waiting, log[1..])
    case ClaudeStderr(_) => Clean(role, waiting, log[1..])
    case _ => role != Some(User) && Clean(role, waiting || role.None?, log[1..])
  }

  /** Messages already out do not influence what comes after them. */
  lemma {:induction false} RunFrame(m: seq<Message>, s: Renderer, log: seq<NodeEvent>)
    ensures Run(s.(messages := m + s.messages), log)
         == var s' := Run(s, log); s'.(messages := m + s'.messages)
  {
    if log != [] {
      var before, e := log[..|log| - 1], log[|log| - 1];
      RunFrame(m, s, before);
      StepFrame(m, Run(s, before), e);
    } else {
      assert Run(s.(messages := m + s.messages), log) == s.(messages := m + s.messages);
    }
  }

  lemma {:induction false} FlushFrame(m: seq<Message>, s: Renderer)
    ensures Flush(s.(messages := m + s.messages)) == var f := Flush(s); f.(messages := m + f.messages)
  {
    assert forall x: Message :: m + (s.messages + [x]) == (m + s.messages) + [x];
  }

  lemma {:induction false} StepFrame(m: seq<Message>, s: Renderer, e: NodeEvent)
    ensures Step(s.(messages := m + s.messages), e) == var s' := Step(s, e); s'.(messages := m + s'.messages)
  {
    FlushFrame(m, s);
    var f := Flush(s);
    assert forall x: Message :: m + (f.messages + [x]) == (m + f.messages) + [x];
  }

  function Finish(role: Option<Role>, content: seq<Block>, log: seq<NodeEvent>): seq<Message> {
    Flush(Run(Renderer(role, content, []), log)).messages
  }

  /** Finishing from a renderer that has messages out. */
  lemma {:induction false} FinishFrame(m: seq<Message>, role: Option<Role>, content: seq<Block>, log: seq<NodeEvent>)
    ensures Flush(Run(Renderer(role, content, m), log)).messages == m + Finish(role, content, log)
  {
    var s := Renderer(role, content, []);
    assert m + [] == m;
    assert s.(messages := m + s.messages) == Renderer(role, content, m);
    RunFrame(m, s, log);
    FlushFrame(m, Run(s, log));
  }

  lemma {:induction false} FinishCons(role: Option<Role>, content: seq<Block>, log: seq<NodeEvent>)
    requires log != []
    ensures var s := Step(Renderer(role, content, []), log[0]);
            Finish(role, content, log) == s.messages + Finish(s.role, s.content, log[1..])
  {
    var s := Step(Renderer(role, content, []), log[0]);
    assert log == [log[0]] + log[1..];
    RunCons(Renderer(role, content, []), log[0], log[1..]);
    FinishFrame(s.messages, s.role, s.content, log[1..]);
  }

  /** What remains to be said from a given point on. */
  function Remaining(role: Option<Role>, content: seq<Block>, log: seq<NodeEvent>): seq<Message> {
    match role
    case None => Transcript(log)
    case Some(User) => (if content == [] then [] else [Message(User, content)]) + Transcript(log)
    case Some(Assistant) =>
      var n := TurnLength(log);
      AssistantSaid(content + ContentOf(log[..n])) + Transcript(log[n..])
  }

  lemma {:induction false} CleanRenders(role: Option<Role>, content: seq<Block>, log: seq<NodeEvent>)
    requires Clean(role, role.None? && content != [], log)
    ensures Finish(role, content, log) == Remaining(role, content, log)
    decreases |log|
  {
    if log != [] {
      var s := Step(Renderer(role, content, []), log[0]);
      FinishCons(role, content, log);
      CleanRenders(s.role, s.content, log[1..]);
      RemainingCons(role, content, log);
    } else if role == Some(Assistant) {
      assert log[..0] == [] && content + ContentOf(log[..0]) == content;
    }
  }

  lemma {:induction false} RemainingCons(role: Option<Role>, content: seq<Block>, log: seq<NodeEvent>)
    requires log != [] && Clean(role, role.None? && content != [], log)
    ensures var s := Step(Renderer(role, content, []), log[0]);
            s.messages + Remaining(s.role, s.content, log[1..]) == Remaining(role, content, log)
  {
    if !IsContent(log[0]) && !IsDebug(log[0]) {
      AtMarker(role, content, log);
    } else if role == Some(Assistant) {
      InTurn(content, log);
    } else {
      OutOfTurn(role, content, log);
    }
  }

  lemma {:induction false} AtMarker(role: Option<Role>, content: seq<Block>, log: seq<NodeEvent>)
    requires log != [] && !IsContent(log[0]) && !IsDebug(log[0])
    requires Clean(role, role.None? && content != [], log)
    ensures var s := Step(Renderer(role, content, []), log[0]);
            s.messages + Remaining(s.role, s.content, log[1..]) == Remaining(role, content, log)
  {
    var s := Step(Renderer(role, content, []), log[0]);
    var anew := Step(IDLE, log[0]);
    var closed := Flush(Renderer(role, content, [])).messages;
    MarkerCloses(role, content, log);
    MarkerOpens(role, content, log);
    TranscriptCons(log);
    AppendAssoc(closed, anew.messages, Remaining(s.role, s.content, log[1..]));
  }

  /** Content and debug events with no assistant turn open. */
  lemma {:induction false} OutOfTurn(role: Option<Role>, content: seq<Block>, log: seq<NodeEvent>)
    requires log != [] && (IsContent(log[0]) || IsDebug(log[0])) && role != Some(Assistant)
    requires role == Some(User) ==> IsDebug(log[0])
    ensures var s := Step(Renderer(role, content, []), log[0]);
            s.messages == [] && Remaining(s.role, s.content, log[1..]) == Remaining(role, content, log)
  {
    NotInTranscript(log);
    var s := Step(Renderer(role, content, []), log[0]);
    assert s.messages == [] && s.role == role && (role == Some(User) ==> s.content == content);
  }

  lemma {:induction false} NotInTranscript(log: seq<NodeEvent>)
    requires log != [] && (IsContent(log[0]) || IsDebug(log[0]))
    ensures Transcript(log) == Transcript(log[1..])
  {
  }

  /** A marker first ends what was open. */
  lemma {:induction false} MarkerCloses(role: Option<Role>, content: seq<Block>, log: seq<NodeEvent>)
    requires log != [] && !IsContent(log[0]) && !IsDebug(log[0])
    ensures Remaining(role, content, log) == Flush(Renderer(role, content, [])).messages + Transcript(log)
  {
    if role == Some(Assistant) {
      assert TurnLength(log) == 0;
      assert content + ContentOf(log[..0]) == content;
      assert log[0..] == log;
    }
  }

  /** And then starts afresh. */
  lemma {:induction false} MarkerOpens(role: Option<Role>, content: seq<Block>, log: seq<NodeEvent>)
    requires log != [] && !IsContent(log[0]) && !IsDebug(log[0])
    requires Clean(role, role.None? && content != [], log)
    ensures var s := Step(Renderer(role, content, []), log[0]);
            var anew := Step(IDLE, log[0]);
            && s.messages == Flush(Renderer(role, content, [])).messages + anew.messages
            && Remaining(s.role, s.content, log[1..]) == Remaining(anew.role, anew.content, log[1..])
  {
  }

  /** Content and debug events inside an assistant turn. */
  lemma {:induction false} InTurn(content: seq<Block>, log: seq<NodeEvent>)
    requires log != [] && (IsContent(log[0]) || IsDebug(log[0]))
    ensures var s := Step(Renderer(Some(Assistant), content, []), log[0]);
            s.messages == [] && s.role == Some(Assistant)
            && Remaining(s.role, s.content, log[1..]) == Remaining(Some(Assistant), content, log)
  {
    var n := TurnLength(log);
    var s := Step(Renderer(Some(Assistant), content, []), log[0]);
    assert log[..n][1..] == log[1..][..n - 1];
    assert log[n..] == log[1..][n - 1..];
    assert content + ContentOf(log[..n]) == s.content + ContentOf(log[1..][..n - 1]);
  }

  lemma {:induction false} TranscriptCons(log: seq<NodeEvent>)
    requires log != [] && !(IsContent(log[0]) || IsDebug(log[0]))
    ensures var s := Step(IDLE, log[0]);
            Transcript(log) == s.messages + Remaining(s.role, s.content, log[1..])
  {
    if log[0].AssistantStart? {
      StartCons(log);
    } else {
      MessageCons(log);
    }
  }

  lemma {:induction false} MessageCons(log: seq<NodeEvent>)
    requires log != [] && !(IsContent(log[0]) || IsDebug(log[0]) || log[0].AssistantStart?)
    ensures var s := Step(IDLE, log[0]);
            Transcript(log) == s.messages + Remaining(s.role, s.content, log[1..])
  {
    match log[0]
    case UserMessage(t) => PromptCons(log, t);
    case UserToolResult(i, o, x) =>
      assert Step(IDLE, log[0]) == Renderer(None, [], [Message(User, [ToolResultBlock(i, o, x)])]);
    case AssistantComplete => CompleteCons(log);
  }

  lemma {:induction false} PromptCons(log: seq<NodeEvent>, t: string)
    requires log != [] && log[0] == UserMessage(t)
    ensures Step(IDLE, log[0]) == Renderer(Some(User), [TextBlock(t)], [])
    ensures Transcript(log) == Remaining(Some(User), [TextBlock(t)], log[1..])
  {
  }

  lemma {:induction false} CompleteCons(log: seq<NodeEvent>)
    requires log != [] && log[0].AssistantComplete?
    ensures Step(IDLE, log[0]) == IDLE && Transcript(log) == Remaining(None, [], log[1..])
  {
    assert Transcript(log) == Transcript(log[1..]);
  }

  lemma {:induction false} StartCons(log: seq<NodeEvent>)
    requires log != [] && log[0].AssistantStart?
    ensures Transcript(log) == Remaining(Some(Assistant), [], log[1..])
  {
    var rest := log[1..];
    var n := TurnLength(rest);
    assert log[1..1 + n] == rest[..n] && log[1 + n..] == rest[n..];
    assert [] + ContentOf(rest[..n]) == ContentOf(rest[..n]);
  }

  // Counting blocks: what rendering loses, and what the transcript leaves out.

  function Count(log: seq<NodeEvent>): nat {
    if log == [] then 0 else |Recorded(log[0])| + Count(log[1..])
  }

  /** How many blocks are left orphaned at the end. */
  function Lost(role: Option<Role>, waiting: nat, log: seq<NodeEvent>): nat
    decreases |log|
  {
    if log == [] then waiting
    else
      match log[0]
      case UserMessage(_) => Lost(Some(User), 0, log[1..])
      case AssistantStart => Lost(Some(Assistant), 0, log[1..])
      case UserToolResult(_, _, _) => Lost(None, waiting, log[1..])
      case AssistantComplete => Lost(None, waiting, log[1..])
      case LaunchCommand(_) => Lost(role, waiting, log[1..])
      case ClaudeStderr(_) => Lost(role, waiting, log[1..])
      case _ => Lost(role, if role.None? then waiting + 1 else waiting, log[1..])
  }

  /** How many content events stand outside an assistant turn. */
  function Strays(role: Option<Role>, log: seq<NodeEvent>): nat
    decreases |log|
  {
    if log == [] then 0
    else
      match log[0]
      case UserMessage(_) => Strays(Some(User), log[1..])
      case AssistantStart => Strays(Some(Assistant), log[1..])
      case UserToolResult(_, _, _) => Strays(None, log[1..])
      case AssistantComplete => Strays(None, log[1..])
      case LaunchCommand(_) => Strays(role, log[1..])
      case ClaudeStderr(_) => Strays(role, log[1..])
      case _ => (if role == Some(Assistant) then 0 else 1) + Strays(role, log[1..])
  }

  /** A log is clean exactly when every stray is still orphaned at the end. */
  lemma {:induction false} CleanByCount(role: Option<Role>, waiting: nat, log: seq<NodeEvent>)
    requires role.Some? ==> waiting == 0
    ensures Lost(role, waiting, log) <= waiting + Strays(role, log)
    ensures Lost(role, waiting, log) == waiting + Strays(role, log) <==> Clean(role, waiting > 0, log)
    decreases |log|
  {
    if log != [] {
      match log[0]
      case UserMessage(_) => CleanByCount(Some(User), 0, log[1..]);
      case AssistantStart => CleanByCount(Some(Assistant), 0, log[1..]);
      case UserToolResult(_, _, _) => CleanByCount(None, waiting, log[1..]);
      case AssistantComplete => CleanByCount(None, waiting, log[1..]);
      case LaunchCommand(_) => CleanByCount(role, waiting, log[1..]);
      case ClaudeStderr(_) => CleanByCount(role, waiting, log[1..]);
      case _ =>
        if role.None? {
          CleanByCount(role, waiting + 1, log[1..]);
        } else {
          CleanByCount(role, 0, log[1..]);
          UnderARole(role, log);
        }
    }
  }

  lemma {:induction false} UnderARole(role: Option<Role>, log: seq<NodeEvent>)
    requires role.Some? && log != [] && IsContent(log[0])
    ensures Lost(role, 0, log) == Lost(role, 0, log[1..])
    ensures Strays(role, log) == (if role == Some(Assistant) then 0 else 1) + Strays(role, log[1..])
    ensures Clean(role, false, log) <==> role == Some(Assistant) && Clean(role, false, log[1..])
  {
    assert role.value == User || role.value == Assistant;
  }

  /** Rendering puts out all blocks but the lost ones. */
  lemma {:induction false} FinishCount(role: Option<Role>, content: seq<Block>, log: seq<NodeEvent>)
    ensures |Flatten(Finish(role, content, log))| + Lost(role, if role.None? then |content| else 0, log)
         == |content| + Count(log)
    decreases |log|
  {
    if log == [] {
      FlushFlatten(Renderer(role, content, []));
    } else {
      var s := Step(Renderer(role, content, []), log[0]);
      FinishCons(role, content, log);
      FinishCount(s.role, s.content, log[1..]);
      FlattenAppend(s.messages, Finish(s.role, s.content, log[1..]));
      StepCount(role, content, log[0]);
      StepLost(role, content, log);
    }
  }

  lemma {:induction false} StepLost(role: Option<Role>, content: seq<Block>, log: seq<NodeEvent>)
    requires log != []
    ensures var s := Step(Renderer(role, content, []), log[0]);
            (Lost(role, if role.None? then |content| else 0, log)
             == Lost(s.role, if s.role.None? then |s.content| else 0, log[1..]))
  {
    var e := log[0];
    var s := Step(Renderer(role, content, []), e);
    var waiting, waiting' := if role.None? then |content| else 0, if s.role.None? then |s.content| else 0;
    if IsContent(e) {
      assert s.role == role && s.content == content + [BlockOf(e)];
    } else if IsDebug(e) {
      assert s.role == role && waiting' == waiting;
    } else if e.UserMessage? || e.AssistantStart? {
      assert s.role.Some? && waiting' == 0;
    } else {
      assert s.role.None? && waiting' == waiting;
    }
  }

  lemma {:induction false} StepCount(role: Option<Role>, content: seq<Block>, e: NodeEvent)
    ensures var s := Step(Renderer(role, content, []), e);
            |Flatten(s.messages)| + |s.content| == |content| + |Recorded(e)|
  {
    var s := Renderer(role, content, []);
    FlushFlatten(s);
    if e.UserToolResult? {
      FlattenSnoc(Flush(s).messages, Message(User, Recorded(e)));
    }
  }

  /** The transcript holds all blocks but the strays. */
  lemma {:induction false} TranscriptCount(log: seq<NodeEvent>)
    ensures |Flatten(Transcript(log))| + Strays(None, log) == Count(log)
    decreases |log|
  {
    if log != [] {
      match log[0]
      case UserMessage(t) =>
        TranscriptCount(log[1..]);
        FlattenAppend([Message(User, [TextBlock(t)])], Transcript(log[1..]));
        StraysAny(Some(User), log[1..]);
      case UserToolResult(i, o, x) =>
        TranscriptCount(log[1..]);
        FlattenAppend([Message(User, [ToolResultBlock(i, o, x)])], Transcript(log[1..]));
      case AssistantStart =>
        TranscriptCount(log[1..][TurnLength(log[1..])..]);
        TurnTranscriptCount(log);
      case _ =>
        TranscriptCount(log[1..]);
    }
  }

  lemma {:induction false} TurnTranscriptCount(log: seq<NodeEvent>)
    requires log != [] && log[0].AssistantStart?
    requires var after := log[1..][TurnLength(log[1..])..];
             |Flatten(Transcript(after))| + Strays(None, after) == Count(after)
    ensures |Flatten(Transcript(log))| + Strays(None, log) == Count(log)
  {
    var rest := log[1..];
    var n := TurnLength(rest);
    assert log[1..1 + n] == rest[..n] && log[1 + n..] == rest[n..];
    TurnCount(rest);
    FlattenAppend(AssistantSaid(ContentOf(rest[..n])), Transcript(rest[n..]));
  }

  /** A user message adopts strays but does not make them part of the transcript. */
  lemma {:induction false} StraysAny(role: Option<Role>, log: seq<NodeEvent>)
    requires role != Some(Assistant)
    ensures Strays(role, log) == Strays(None, log)
    decreases |log|
  {
    if log != [] && (IsContent(log[0]) || IsDebug(log[0])) {
      StraysAny(role, log[1..]);
    }
  }

  lemma {:induction false} TurnCount(log: seq<NodeEvent>)
    ensures var n := TurnLength(log);
            && Strays(Some(Assistant), log) == Strays(None, log[n..])
            && Count(log) == |ContentOf(log[..n])| + Count(log[n..])
    decreases |log|
  {
    var n := TurnLength(log);
    if n > 0 {
      TurnCount(log[1..]);
      assert log[..n][1..] == log[1..][..n - 1] && log[n..] == log[1..][n - 1..];
    } else {
      assert log[0..] == log;
    }
  }

  /** Rendering is the transcript, every block in the message of its own turn,
      exactly when the log is clean. */
  lemma {:induction false} TranscriptExactly(log: seq<NodeEvent>)
    ensures Rendered(log) == Transcript(log) <==> Clean(None, false, log)
  {
    if Clean(None, false, log) {
      CleanRenders(None, [], log);
    } else {
      CleanByCount(None, 0, log);
      FinishCount(None, [], log);
      TranscriptCount(log);
    }
  }
}
