// The renderer and the exporter are two state machines over the same log
// (src/activations/claudecode/storage.rs:926-1060 and
// src/activations/claudecode/sessions.rs:445-584): when they agree.
module TwoReaders {
  import opened Prelude
  import opened Conversation
  import opened Render
  import opened Sessions

  function ToSessionBlock(b: Block): SessionBlock {
    match b
    case TextBlock(t) => SText(t)
    case ToolUseBlock(i, n, x) => SToolUse(i, n, x)
    case ToolResultBlock(i, o, x) => SToolResult(i, o, Some(x))
    case ThinkingBlock(t) => SThinking(t, None)
  }

  function ToSessionBlocks(blocks: seq<Block>): (r: seq<SessionBlock>)
    ensures |r| == |blocks|
  {
    if blocks == [] then [] else ToSessionBlocks(blocks[..|blocks| - 1]) + [ToSessionBlock(blocks[|blocks| - 1])]
  }

  /** The session event that says what a rendered message says. A user message
      says one thing: its text, or its tool result as JSON. A user message with
      several blocks corresponds to no session event. */
  function ToSession(json: ToolJson, m: Message): Option<SessionEvent> {
    match m.role
    case Assistant => Some(AssistantTurn(Full(ToSessionBlocks(m.content))))
    case User =>
      if |m.content| != 1 then None
      else
        match m.content[0]
        case TextBlock(t) => Some(UserTurn(t))
        case ToolResultBlock(i, o, x) => Some(UserTurn(json(SToolResult(i, o, Some(x)))))
        case _ => None
  }

  /** Messages and session events correspond one to one, in order. */
  predicate SameMeaning(json: ToolJson, messages: seq<Message>, events: seq<SessionEvent>)
    decreases |messages|
  {
    |messages| == |events| &&
    (messages == [] ||
     (SameMeaning(json, messages[..|messages| - 1], events[..|events| - 1])
      && ToSession(json, messages[|messages| - 1]) == Some(events[|events| - 1])))
  }

  lemma {:induction false} SameSnoc(
      json: ToolJson, messages: seq<Message>, events: seq<SessionEvent>, m: Message, e: SessionEvent)
    requires SameMeaning(json, messages, events) && ToSession(json, m) == Some(e)
    ensures SameMeaning(json, messages + [m], events + [e])
  {
    assert (messages + [m])[..|messages|] == messages && (events + [e])[..|events|] == events;
  }

  lemma {:induction false} SameAppend(
      json: ToolJson, a: seq<Message>, b: seq<Message>, x: seq<SessionEvent>, y: seq<SessionEvent>)
    requires SameMeaning(json, a, x) && SameMeaning(json, b, y)
    ensures SameMeaning(json, a + b, x + y)
    decreases |b|
  {
    if b == [] {
      assert a + b == a && x + y == x;
    } else {
      var a', x' := a + b[..|b| - 1], x + y[..|y| - 1];
      var m, e := b[|b| - 1], y[|y| - 1];
      assert a + b == a' + [m];
      assert x + y == x' + [e];
      SameAppend(json, a, b[..|b| - 1], x, y[..|y| - 1]);
      SameSnoc(json, a', x', m, e);
    }
  }

  /** Content is recorded only while an assistant turn is open. */
  predicate ContentInTurns(log: seq<NodeEvent>) {
    log == [] ||
    var before, e := log[..|log| - 1], log[|log| - 1];
    ContentInTurns(before) && (IsContent(e) ==> OpenRole(before) == Some(Assistant))
  }

  /** Content has been recorded since the last marker. */
  predicate Pending(log: seq<NodeEvent>) {
    log != [] &&
    var before, e := log[..|log| - 1], log[|log| - 1];
    IsContent(e) || (IsDebug(e) && Pending(before))
  }

  /** No assistant turn starts while another one has content pending. */
  predicate NoRestart(log: seq<NodeEvent>) {
    log == [] ||
    var before, e := log[..|log| - 1], log[|log| - 1];
    NoRestart(before) && (e.AssistantStart? ==> !Pending(before))
  }

  /** The two machines have said the same and hold the same. */
  predicate InStep(json: ToolJson, r: Renderer, x: Exporter) {
    match r.role
    case None => r.content == [] && x.blocks == [] && SameMeaning(json, r.messages, x.events)
    case Some(User) =>
      |r.content| == 1 && x.blocks == [] && SameMeaning(json, r.messages + [Message(User, r.content)], x.events)
    case Some(Assistant) =>
      x.inAssistant && x.blocks == ToSessionBlocks(r.content) && SameMeaning(json, r.messages, x.events)
  }

  /** Closing what is open keeps the machines in step. */
  lemma {:induction false} FlushInStep(json: ToolJson, r: Renderer, x: Exporter)
    requires InStep(json, r, x)
    ensures var f, c := Flush(r), Complete(x);
            f.role.None? && f.content == [] && c.blocks == [] && SameMeaning(json, f.messages, c.events)
  {
    if r.role == Some(Assistant) && r.content != [] {
      SameSnoc(json, r.messages, x.events, Message(Assistant, r.content), AssistantTurn(Full(x.blocks)));
    } else if r.role.Some? {
      assert r.role.value == User || r.role.value == Assistant;
    }
  }

  lemma {:induction false} MarkerInStep(json: ToolJson, r: Renderer, x: Exporter, e: NodeEvent)
    requires InStep(json, r, x) && !IsContent(e) && !IsDebug(e)
    requires e.AssistantStart? ==> x.blocks == []
    ensures InStep(json, Step(r, e), ExportStep(json, x, e))
  {
    FlushInStep(json, r, x);
    if e.UserMessage? {
      PromptInStep(json, Flush(r), Complete(x), e.content);
    } else if e.UserToolResult? {
      ResultInStep(json, Flush(r), Complete(x), e);
    } else if e.AssistantStart? {
      assert Complete(x) == x;
    }
  }

  lemma {:induction false} PromptInStep(json: ToolJson, f: Renderer, c: Exporter, text: string)
    requires f.role.None? && f.content == [] && c.blocks == [] && SameMeaning(json, f.messages, c.events)
    ensures InStep(json, Renderer(Some(User), f.content + [TextBlock(text)], f.messages),
                   c.(events := c.events + [UserTurn(text)]))
  {
    assert f.content + [TextBlock(text)] == [TextBlock(text)];
    SameSnoc(json, f.messages, c.events, Message(User, [TextBlock(text)]), UserTurn(text));
  }

  lemma {:induction false} ResultInStep(json: ToolJson, f: Renderer, c: Exporter, e: NodeEvent)
    requires f.role.None? && f.content == [] && c.blocks == [] && SameMeaning(json, f.messages, c.events)
    requires e.UserToolResult?
    ensures var b := ToolResultBlock(e.toolUseId, e.output, e.isError);
            InStep(json, f.(messages := f.messages + [Message(User, [b])]),
                   c.(events := c.events + [UserTurn(json(ToSessionBlock(b)))]))
  {
    var b := ToolResultBlock(e.toolUseId, e.output, e.isError);
    SameSnoc(json, f.messages, c.events, Message(User, [b]), UserTurn(json(ToSessionBlock(b))));
  }

  lemma {:induction false} ContentInStep(json: ToolJson, r: Renderer, x: Exporter, e: NodeEvent)
    requires InStep(json, r, x) && (IsContent(e) || IsDebug(e))
    requires IsContent(e) ==> r.role == Some(Assistant)
    ensures InStep(json, Step(r, e), ExportStep(json, x, e))
  {
    if IsContent(e) {
      assert (r.content + [BlockOf(e)])[..|r.content|] == r.content;
    }
  }

  /** What is pending in the log is what the renderer gathers for the assistant. */
  lemma {:induction false} PendingIsGathered(log: seq<NodeEvent>)
    requires ContentInTurns(log)
    ensures Run(IDLE, log).role == Some(Assistant) ==> (Pending(log) <==> Run(IDLE, log).content != [])
    ensures Pending(log) ==> Run(IDLE, log).role == Some(Assistant)
    ensures Run(IDLE, log).role.None? ==> Run(IDLE, log).content == []
  {
    if log != [] {
      var before := log[..|log| - 1];
      PendingIsGathered(before);
      RendererState(before);
    }
  }

  lemma {:induction false} StayInStep(json: ToolJson, log: seq<NodeEvent>)
    requires ContentInTurns(log) && NoRestart(log)
    ensures InStep(json, Run(IDLE, log), ExportRun(json, NOTHING_YET, log))
  {
    if log != [] {
      var before, e := log[..|log| - 1], log[|log| - 1];
      var r, x := Run(IDLE, before), ExportRun(json, NOTHING_YET, before);
      StayInStep(json, before);
      RendererState(before);
      if IsContent(e) || IsDebug(e) {
        ContentInStep(json, r, x, e);
      } else {
        PendingIsGathered(before);
        MarkerInStep(json, r, x, e);
      }
    }
  }

  // ------------------------------------------------------------ counting blocks

  function ContentCount(log: seq<NodeEvent>): nat {
    if log == [] then 0
    else ContentCount(log[..|log| - 1]) + if IsContent(log[|log| - 1]) then 1 else 0
  }

  /** Number of blocks in an event's assistant message. */
  function Blocks(e: SessionEvent): nat {
    if e.AssistantTurn? && e.message.Full? then |e.message.content| else 0
  }

  function BlocksIn(events: seq<SessionEvent>): nat {
    if events == [] then 0 else BlocksIn(events[..|events| - 1]) + Blocks(events[|events| - 1])
  }

  lemma {:induction false} BlocksSnoc(events: seq<SessionEvent>, e: SessionEvent)
    ensures BlocksIn(events + [e]) == BlocksIn(events) + Blocks(e)
  {
    assert (events + [e])[..|events|] == events;
  }

  /** Number of blocks in assistant messages. */
  function AssistantBlocks(messages: seq<Message>): nat {
    if messages == [] then 0
    else
      var m := messages[|messages| - 1];
      AssistantBlocks(messages[..|messages| - 1]) + if m.role == Assistant then |m.content| else 0
  }

  lemma {:induction false} SameBlocks(json: ToolJson, messages: seq<Message>, events: seq<SessionEvent>)
    requires SameMeaning(json, messages, events)
    ensures AssistantBlocks(messages) == BlocksIn(events)
  {
    if messages != [] {
      SameBlocks(json, messages[..|messages| - 1], events[..|events| - 1]);
      var m := messages[|messages| - 1];
      assert m.role == User || m.role == Assistant;
    }
  }

  /** Blocks the renderer holds or has put into assistant messages. */
  function Kept(r: Renderer): nat {
    AssistantBlocks(r.messages) + if r.role == Some(Assistant) then |r.content| else 0
  }

  lemma {:induction false} MessageOut(messages: seq<Message>, m: Message)
    ensures AssistantBlocks(messages + [m]) == AssistantBlocks(messages) + if m.role == Assistant then |m.content|
      else 0
  {
    assert (messages + [m])[..|messages|] == messages;
  }

  lemma {:induction false} KeptOnFlush(r: Renderer)
    ensures Kept(Flush(r)) == Kept(r)
  {
    if r.role.Some? && r.content != [] {
      MessageOut(r.messages, Message(r.role.value, r.content));
      assert r.role.value == User || r.role.value == Assistant;
    }
  }

  lemma {:induction false} RendererKeepsAll(log: seq<NodeEvent>)
    requires ContentInTurns(log)
    ensures Kept(Run(IDLE, log)) == ContentCount(log)
  {
    if log != [] {
      var before, e := log[..|log| - 1], log[|log| - 1];
      RendererKeepsAll(before);
      RendererState(before);
      PendingIsGathered(before);
      KeptOnStep(Run(IDLE, before), e);
    }
  }

  lemma {:induction false} KeptOnStep(r: Renderer, e: NodeEvent)
    requires IsContent(e) ==> r.role == Some(Assistant)
    requires r.role.None? ==> r.content == []
    ensures Kept(Step(r, e)) == Kept(r) + if IsContent(e) then 1 else 0
  {
    if IsContent(e) {
      assert Step(r, e) == r.(content := r.content + [BlockOf(e)]);
    } else if !IsDebug(e) {
      KeptOnFlush(r);
      KeptOnMarker(Flush(r), e);
      assert Step(r, e) == Step(Flush(r), e);
    }
  }

  lemma {:induction false} KeptOnMarker(f: Renderer, e: NodeEvent)
    requires f.role.None? && f.content == [] && !IsContent(e) && !IsDebug(e)
    ensures Kept(Step(f, e)) == Kept(f)
  {
    if e.UserToolResult? {
      MessageOut(f.messages, Message(User, Recorded(e)));
    }
  }

  function Taken(x: Exporter): nat {
    BlocksIn(x.events) + |x.blocks|
  }

  /** The exporter never gains blocks, and loses some when a turn restarts. */
  lemma {:induction false} TakenOnStep(json: ToolJson, x: Exporter, e: NodeEvent)
    ensures Taken(ExportStep(json, x, e)) <= Taken(x) + if IsContent(e) then 1 else 0
    ensures e.AssistantStart? ==> Taken(ExportStep(json, x, e)) == Taken(x) - |x.blocks|
  {
    var c := Complete(x);
    if x.inAssistant && x.blocks != [] {
      BlocksSnoc(x.events, AssistantTurn(Full(x.blocks)));
    }
    if e.UserMessage? {
      BlocksSnoc(c.events, UserTurn(e.content));
    }
    if e.UserToolResult? {
      BlocksSnoc(c.events, UserTurn(json(SToolResult(e.toolUseId, e.output, Some(e.isError)))));
    }
  }

  lemma {:induction false} ExporterLosesOnRestart(json: ToolJson, log: seq<NodeEvent>)
    requires ContentInTurns(log)
    ensures Taken(ExportRun(json, NOTHING_YET, log)) <= ContentCount(log)
    ensures !NoRestart(log) ==> Taken(ExportRun(json, NOTHING_YET, log)) < ContentCount(log)
  {
    if log != [] {
      var before, e := log[..|log| - 1], log[|log| - 1];
      ExporterLosesOnRestart(json, before);
      TakenOnStep(json, ExportRun(json, NOTHING_YET, before), e);
      if NoRestart(before) && !NoRestart(log) {
        StayInStep(json, before);
        PendingIsGathered(before);
        assert ExportRun(json, NOTHING_YET, before).blocks != [];
      }
    }
  }

  /** Two machines, one meaning: on every log that records content inside
      assistant turns, with tool results, user messages and debug events
      anywhere, the exported events say what the rendered messages say exactly
      when no turn starts over a turn that has content. */
  lemma {:induction false} ReadersAgreeExactly(json: ToolJson, log: seq<NodeEvent>)
    requires ContentInTurns(log)
    ensures SameMeaning(json, Rendered(log), Exported(json, log)) <==> NoRestart(log)
  {
    var r, x := Run(IDLE, log), ExportRun(json, NOTHING_YET, log);
    if NoRestart(log) {
      StayInStep(json, log);
      FlushInStep(json, r, x);
    } else {
      RendererKeepsAll(log);
      KeptOnFlush(r);
      ExporterLosesOnRestart(json, log);
      TakenOnStep(json, x, AssistantComplete);
      if SameMeaning(json, Rendered(log), Exported(json, log)) {
        SameBlocks(json, Rendered(log), Exported(json, log));
      }
    }
  }

  /** A log both readers can follow, with nothing pending at its end. */
  predicate Settled(log: seq<NodeEvent>) {
    ContentInTurns(log) && NoRestart(log) && !Pending(log)
  }

  /** A log that both readers can follow into an open assistant turn. */
  predicate Speaking(log: seq<NodeEvent>) {
    ContentInTurns(log) && NoRestart(log) && OpenRole(log) == Some(Assistant)
  }

  lemma {:induction false} StartSpeaking(log: seq<NodeEvent>)
    requires Settled(log)
    ensures Speaking(log + [AssistantStart])
  {
    assert (log + [AssistantStart])[..|log|] == log;
  }

  lemma {:induction false} KeepSpeaking(log: seq<NodeEvent>, e: NodeEvent)
    requires Speaking(log) && IsContent(e)
    ensures Speaking(log + [e])
  {
    assert (log + [e])[..|log|] == log;
  }

  lemma {:induction false} BlocksInTurn(log: seq<NodeEvent>, content: seq<SessionBlock>)
    requires Settled(log) && NoToolResultIn(content)
    ensures Speaking(log + [AssistantStart] + ImportedBlocks(content))
  {
    if content == [] {
      StartSpeaking(log);
      assert log + [AssistantStart] + [] == log + [AssistantStart];
    } else {
      var front, last := content[..|content| - 1], content[|content| - 1];
      BlocksInTurn(log, front);
      KeepSpeaking(log + [AssistantStart] + ImportedBlocks(front), ImportedBlock(last));
      AppendAssoc(log + [AssistantStart], ImportedBlocks(front), [ImportedBlock(last)]);
    }
  }

  lemma {:induction false} ImportedLogSettled(session: seq<SessionEvent>)
    requires NoToolResults(session)
    ensures Settled(LogOf(session))
  {
    if session != [] {
      var front, last := session[..|session| - 1], session[|session| - 1];
      ImportedLogSettled(front);
      assert NoToolResultInside(last);
      EventSettled(LogOf(front), last);
    }
  }

  lemma {:induction false} EventSettled(log: seq<NodeEvent>, e: SessionEvent)
    requires Settled(log) && NoToolResultInside(e)
    ensures Settled(log + ImportedEvent(e))
  {
    match e
    case UserTurn(c) => ClosingSettled(log, UserMessage(c));
    case AssistantTurn(message) =>
      var content := if message.Full? then message.content else [];
      BlocksInTurn(log, content);
      ClosingSettled(log + [AssistantStart] + ImportedBlocks(content), AssistantComplete);
      assert log + ImportedEvent(e) == log + [AssistantStart] + ImportedBlocks(content) + [AssistantComplete];
    case _ =>
      assert log + ImportedEvent(e) == log;
  }

  lemma {:induction false} ClosingSettled(log: seq<NodeEvent>, e: NodeEvent)
    requires ContentInTurns(log) && NoRestart(log) && (e.UserMessage? || e.AssistantComplete?)
    ensures Settled(log + [e])
  {
    assert (log + [e])[..|log|] == log;
  }

  /** So an imported session renders to the messages of its normal form. */
  lemma {:induction false} ImportedSessionRenders(json: ToolJson, session: seq<SessionEvent>)
    requires NoToolResults(session)
    ensures SameMeaning(json, Rendered(LogOf(session)), Normal(session))
  {
    ImportedLogSettled(session);
    ReadersAgreeExactly(json, LogOf(session));
    RoundTripExactly(json, session);
  }

  // ---------------------------------------------------- content that is adopted

  /** A user message of several blocks is out, or will be. */
  ghost predicate Mixed(s: Renderer) {
    HasMixed(s.messages) || (s.role == Some(User) && |s.content| > 1)
  }

  ghost predicate HasMixed(messages: seq<Message>) {
    exists k :: 0 <= k < |messages| && messages[k].role == User && |messages[k].content| > 1
  }

  lemma {:induction false} MixedSnoc(messages: seq<Message>, m: Message)
    requires HasMixed(messages) || (m.role == User && |m.content| > 1)
    ensures HasMixed(messages + [m])
  {
    var all := messages + [m];
    if HasMixed(messages) {
      var k :| 0 <= k < |messages| && messages[k].role == User && |messages[k].content| > 1;
      assert all[k] == messages[k];
    } else {
      assert all[|messages|] == m;
    }
  }

  lemma {:induction false} FlushMixed(s: Renderer)
    requires Mixed(s)
    ensures HasMixed(Flush(s).messages)
  {
    if s.role.Some? && s.content != [] {
      MixedSnoc(s.messages, Message(s.role.value, s.content));
    }
  }

  lemma {:induction false} MixedStays(s: Renderer, log: seq<NodeEvent>)
    requires Mixed(s)
    ensures Mixed(Run(s, log))
  {
    if log != [] {
      var before, e := Run(s, log[..|log| - 1]), log[|log| - 1];
      MixedStays(s, log[..|log| - 1]);
      if !IsContent(e) && !IsDebug(e) {
        FlushMixed(before);
        if e.UserToolResult? {
          MixedSnoc(Flush(before).messages, Message(User, Recorded(e)));
        }
      }
    }
  }

  lemma {:induction false} MixedHasNoMeaning(json: ToolJson, messages: seq<Message>, events: seq<SessionEvent>)
    requires HasMixed(messages)
    ensures !SameMeaning(json, messages, events)
  {
    if |messages| == |events| {
      var n := |messages| - 1;
      var k :| 0 <= k <= n && messages[k].role == User && |messages[k].content| > 1;
      if k < n {
        assert messages[..n][k] == messages[k];
        MixedHasNoMeaning(json, messages[..n], events[..n]);
      }
    }
  }

  /** Whatever is orphaned when the user speaks next is adopted by the user's
      message, which then corresponds to nothing a session can hold: no export
      agrees with the rendering. */
  lemma {:induction false} AdoptionSplitsReaders(
      json: ToolJson, before: seq<NodeEvent>, prompt: string, rest: seq<NodeEvent>, events: seq<SessionEvent>)
    requires Orphans(before) != []
    ensures !SameMeaning(json, Rendered(before + [UserMessage(prompt)] + rest), events)
  {
    var s := Run(IDLE, before);
    RendererState(before);
    RunAppend(IDLE, before + [UserMessage(prompt)], rest);
    RunAppend(IDLE, before, [UserMessage(prompt)]);
    assert [UserMessage(prompt)][..0] == [] && Run(s, []) == s;
    var begun := Step(s, UserMessage(prompt));
    assert begun.role == Some(User) && |begun.content| == |Orphans(before)| + 1;
    MixedStays(begun, rest);
    FlushMixed(Run(begun, rest));
    MixedHasNoMeaning(json, Rendered(before + [UserMessage(prompt)] + rest), events);
  }
}
