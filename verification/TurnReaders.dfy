// The renderer and the exporter over the logs that chats write: completed turns
// one after the other (src/activations/claudecode/activation.rs:243-523), read by
// src/activations/claudecode/storage.rs:926-1060 and
// src/activations/claudecode/sessions.rs:445-584.
module TurnReaders {
  import opened Prelude
  import opened Chat
  import opened ChatRuns
  import opened ChatStore
  import opened Conversation
  import opened Render
  import opened RenderLaws
  import opened Sessions
  import opened Turns
  import opened TwoReaders

  // ------------------------------------------------------- one turn, exported

  function ResultTurn(json: ToolJson, e: NodeEvent): SessionEvent
    requires e.UserToolResult?
  {
    UserTurn(json(SToolResult(e.toolUseId, e.output, Some(e.isError))))
  }

  function ResultTurns(json: ToolJson, events: seq<NodeEvent>): seq<SessionEvent> {
    if events == [] then []
    else (if events[0].UserToolResult? then [ResultTurn(json, events[0])] else []) + ResultTurns(json, events[1..])
  }

  function SaidTurn(blocks: seq<Block>): seq<SessionEvent> {
    if blocks == [] then [] else [AssistantTurn(Full(ToSessionBlocks(blocks)))]
  }

  lemma {:induction false} ExportCons(json: ToolJson, x: Exporter, e: NodeEvent, rest: seq<NodeEvent>)
    ensures ExportRun(json, x, [e] + rest) == ExportRun(json, ExportStep(json, x, e), rest)
  {
    ExportAppend(json, x, [e], rest);
    ExportOne(json, x, e);
  }

  lemma {:induction false} ToSessionBlocksAppend(a: seq<Block>, b: seq<Block>)
    ensures ToSessionBlocks(a + b) == ToSessionBlocks(a) + ToSessionBlocks(b)
  {
    if b == [] {
      assert a + b == a;
    } else {
      assert (a + b)[..|a + b| - 1] == a + b[..|b| - 1];
      ToSessionBlocksAppend(a, b[..|b| - 1]);
    }
  }

  /** Inside a turn, up to the first tool result, content is gathered. */
  lemma {:induction false} GatherContent(json: ToolJson, x: Exporter, events: seq<NodeEvent>)
    requires x.inAssistant && forall i :: 0 <= i < |events| ==> IsContent(events[i]) || IsDebug(events[i])
    ensures ExportRun(json, x, events) == x.(blocks := x.blocks + ToSessionBlocks(ContentOf(events)))
    decreases |events|
  {
    if events == [] {
      assert x.blocks + [] == x.blocks;
    } else {
      var e, rest := events[0], events[1..];
      assert events == [e] + rest;
      ExportCons(json, x, e, rest);
      var y := ExportStep(json, x, e);
      GatherContent(json, y, rest);
      if IsContent(e) {
        assert y.blocks == x.blocks + [ToSessionBlock(BlockOf(e))];
        assert [BlockOf(e)][..0] == [];
        assert ToSessionBlocks([BlockOf(e)]) == [ToSessionBlock(BlockOf(e))];
        ToSessionBlocksAppend([BlockOf(e)], ContentOf(rest));
        AppendAssoc(x.blocks, [ToSessionBlock(BlockOf(e))], ToSessionBlocks(ContentOf(rest)));
      } else {
        assert [] + ContentOf(rest) == ContentOf(rest);
      }
    }
  }

  /** With nothing gathered, and no content to come or nowhere to put it, only the
      tool results are written. */
  lemma {:induction false} ResultsOnly(json: ToolJson, x: Exporter, events: seq<NodeEvent>)
    requires InTurnEvents(events) && x.blocks == [] && (!x.inAssistant || ContentOf(events) == [])
    ensures ExportRun(json, x, events) == x.(events := x.events + ResultTurns(json, events))
    decreases |events|
  {
    if events == [] {
      assert x.events + [] == x.events;
    } else {
      var e, rest := events[0], events[1..];
      assert events == [e] + rest && InTurnEvent(e);
      ExportCons(json, x, e, rest);
      var y := ExportStep(json, x, e);
      assert ContentOf(events) == [] ==> !IsContent(e) && ContentOf(rest) == [];
      ResultsOnly(json, y, rest);
      if e.UserToolResult? {
        AppendAssoc(x.events, [ResultTurn(json, e)], ResultTurns(json, rest));
      } else {
        assert [] + ResultTurns(json, rest) == ResultTurns(json, rest);
      }
    }
  }

  /** The turn says something before its first tool result, or nothing after it. */
  predicate SpeaksFirst(turn: Turn) {
    Unclaimed(turn) == [] || ContentOf(turn.events[..TurnLength(turn.events)]) != []
  }

  lemma {:induction false} LeadIsContent(events: seq<NodeEvent>, k: nat)
    requires k < TurnLength(events)
    ensures IsContent(events[k]) || IsDebug(events[k])
  {
    if k > 0 {
      LeadIsContent(events[1..], k - 1);
    }
  }

  /** What the exporter writes for such a turn after its two opening events. */
  lemma {:induction false} SpokenTurn(json: ToolJson, x: Exporter, turn: Turn)
    requires InTurnEvents(turn.events) && SpeaksFirst(turn) && x.inAssistant && x.blocks == []
    ensures var n := TurnLength(turn.events);
            var y := Complete(ExportRun(json, x, turn.events));
            && y.blocks == []
            && y.events == x.events + (SaidTurn(ContentOf(turn.events[..n])) + ResultTurns(json, turn.events[n..]))
  {
    var n := TurnLength(turn.events);
    var lead, rest := turn.events[..n], turn.events[n..];
    var said := ToSessionBlocks(ContentOf(lead));
    forall i | 0 <= i < |lead| ensures IsContent(lead[i]) || IsDebug(lead[i]) { LeadIsContent(turn.events, i); }
    assert turn.events == lead + rest;
    ExportAppend(json, x, lead, rest);
    GatherContent(json, x, lead);
    assert [] + said == said;
    AfterLead(json, x.(blocks := said), rest, ContentOf(lead));
  }

  /** The rest of a turn, from its first tool result on. */
  lemma {:induction false} AfterLead(json: ToolJson, x: Exporter, rest: seq<NodeEvent>, lead: seq<Block>)
    requires InTurnEvents(rest) && x.inAssistant && x.blocks == ToSessionBlocks(lead)
    requires rest != [] ==> rest[0].UserToolResult?
    requires lead == [] ==> ContentOf(rest) == []
    ensures var y := Complete(ExportRun(json, x, rest));
            y.blocks == [] && y.events == x.events + (SaidTurn(lead) + ResultTurns(json, rest))
  {
    if lead == [] {
      ResultsOnly(json, x, rest);
      assert [] + ResultTurns(json, rest) == ResultTurns(json, rest);
    } else if rest == [] {
      assert SaidTurn(lead) + [] == SaidTurn(lead);
    } else {
      var y := Complete(x);
      assert rest == [rest[0]] + rest[1..];
      ExportCons(json, x, rest[0], rest[1..]);
      ExportCons(json, y, rest[0], rest[1..]);
      assert ExportStep(json, x, rest[0]) == ExportStep(json, y, rest[0]);
      ResultsOnly(json, y, rest);
      AppendAssoc(x.events, SaidTurn(lead), ResultTurns(json, rest));
    }
  }

  lemma {:induction false} ResultsMean(json: ToolJson, events: seq<NodeEvent>)
    ensures SameMeaning(json, ToolResults(events), ResultTurns(json, events))
  {
    if events != [] {
      ResultsMean(json, events[1..]);
      if events[0].UserToolResult? {
        OneMeans(json, Message(User, Recorded(events[0])), ResultTurn(json, events[0]));
        SameAppend(json, [Message(User, Recorded(events[0]))], ToolResults(events[1..]),
                   [ResultTurn(json, events[0])], ResultTurns(json, events[1..]));
      } else {
        assert [] + ToolResults(events[1..]) == ToolResults(events[1..]);
        assert [] + ResultTurns(json, events[1..]) == ResultTurns(json, events[1..]);
      }
    }
  }

  lemma {:induction false} OneMeans(json: ToolJson, m: Message, e: SessionEvent)
    requires ToSession(json, m) == Some(e)
    ensures SameMeaning(json, [m], [e])
  {
    SameSnoc(json, [], [], m, e);
    assert [] + [m] == [m] && [] + [e] == [e];
  }

  /** From between two turns, the log of one turn. */
  lemma {:induction false} TurnBegins(json: ToolJson, x: Exporter, turn: Turn)
    requires x.blocks == []
    ensures ExportRun(json, x, TurnLog(turn.prompt, turn.events))
         == Complete(ExportRun(json, Exporter(true, [], x.events + [UserTurn(turn.prompt)]), turn.events))
  {
    var opening, y := [UserMessage(turn.prompt), AssistantStart],
      Exporter(true, [], x.events + [UserTurn(turn.prompt)]);
    assert opening == [UserMessage(turn.prompt)] + [AssistantStart];
    ExportCons(json, x, UserMessage(turn.prompt), [AssistantStart]);
    ExportOne(json, ExportStep(json, x, UserMessage(turn.prompt)), AssistantStart);
    ExportAppend(json, x, opening + turn.events, [AssistantComplete]);
    ExportAppend(json, x, opening, turn.events);
    ExportOne(json, ExportRun(json, y, turn.events), AssistantComplete);
  }

  /** A turn that speaks first is exported as what it renders to. */
  lemma {:induction false} SpokenTurnMeans(json: ToolJson, x: Exporter, messages: seq<Message>, turn: Turn)
    requires InTurnEvents(turn.events) && SpeaksFirst(turn)
    requires x.blocks == [] && SameMeaning(json, messages, x.events)
    ensures var y := ExportRun(json, x, TurnLog(turn.prompt, turn.events));
            y.blocks == [] && SameMeaning(json, messages + TurnMessages(turn.prompt, turn.events), y.events)
  {
    var n := TurnLength(turn.events);
    var lead, rest := ContentOf(turn.events[..n]), turn.events[n..];
    var prompt := [Message(User, [TextBlock(turn.prompt)])];
    TurnBegins(json, x, turn);
    SpokenTurn(json, Exporter(true, [], x.events + [UserTurn(turn.prompt)]), turn);
    OneMeans(json, prompt[0], UserTurn(turn.prompt));
    ResultsMean(json, rest);
    if lead != [] {
      OneMeans(json, Message(Assistant, lead), SaidTurn(lead)[0]);
    }
    SameAppend(json, AssistantSaid(lead), ToolResults(rest), SaidTurn(lead), ResultTurns(json, rest));
    SameAppend(json, messages, prompt, x.events, [UserTurn(turn.prompt)]);
    SameAppend(json, messages + prompt, AssistantSaid(lead) + ToolResults(rest),
               x.events + [UserTurn(turn.prompt)], SaidTurn(lead) + ResultTurns(json, rest));
    AppendAssoc(messages, prompt, AssistantSaid(lead) + ToolResults(rest));
    AppendAssoc(prompt, AssistantSaid(lead), ToolResults(rest));
  }

  // ------------------------------------------ a turn that speaks only afterwards

  /** How many events the exporter has written for a turn: its tool results, and
      one assistant message as soon as a block has been gathered and closed. */
  predicate Written(x: Exporter, start: nat, events: seq<NodeEvent>) {
    && (x.inAssistant ==> |x.events| == start + |ToolResults(events)| && |x.blocks| == |ContentOf(events)|)
    && (!x.inAssistant ==> |x.events| == start + |ToolResults(events)| + 1 && x.blocks == [] && ContentOf(events) != [])
  }

  lemma {:induction false} ResultsAppend(a: seq<NodeEvent>, b: seq<NodeEvent>)
    ensures ToolResults(a + b) == ToolResults(a) + ToolResults(b)
  {
    if a == [] {
      assert a + b == b;
    } else {
      var first := if a[0].UserToolResult? then [Message(User, Recorded(a[0]))] else [];
      assert (a + b)[1..] == a[1..] + b;
      ResultsAppend(a[1..], b);
      AppendAssoc(first, ToolResults(a[1..]), ToolResults(b));
    }
  }

  lemma {:induction false} CountWritten(json: ToolJson, x: Exporter, events: seq<NodeEvent>)
    requires InTurnEvents(events) && x.inAssistant && x.blocks == []
    ensures Written(ExportRun(json, x, events), |x.events|, events)
  {
    if events != [] {
      var front, e := events[..|events| - 1], events[|events| - 1];
      CountWritten(json, x, front);
      assert events == front + [e] && InTurnEvent(e);
      OneMoreCounted(front, e);
      WrittenStep(json, ExportRun(json, x, front), |x.events|, front, e);
    }
  }

  lemma {:induction false} OneMoreCounted(front: seq<NodeEvent>, e: NodeEvent)
    ensures |ToolResults(front + [e])| == |ToolResults(front)| + if e.UserToolResult? then 1 else 0
    ensures |ContentOf(front + [e])| == |ContentOf(front)| + if IsContent(e) then 1 else 0
  {
    ContentAppend(front, [e]);
    ResultsAppend(front, [e]);
    assert [e][1..] == [];
  }

  lemma {:induction false} WrittenStep(json: ToolJson, y: Exporter, start: nat, front: seq<NodeEvent>, e: NodeEvent)
    requires Written(y, start, front) && InTurnEvent(e)
    requires |ToolResults(front + [e])| == |ToolResults(front)| + if e.UserToolResult? then 1 else 0
    requires |ContentOf(front + [e])| == |ContentOf(front)| + if IsContent(e) then 1 else 0
    ensures Written(ExportStep(json, y, e), start, front + [e])
  {
  }

  /** A turn with content after its first tool result and none before it is
      exported with one event more than it has messages. */
  lemma {:induction false} LateTurnIsLonger(json: ToolJson, x: Exporter, turn: Turn)
    requires InTurnEvents(turn.events) && !SpeaksFirst(turn) && x.blocks == []
    ensures |ExportRun(json, x, TurnLog(turn.prompt, turn.events)).events|
         == |x.events| + |TurnMessages(turn.prompt, turn.events)| + 1
  {
    var n := TurnLength(turn.events);
    var lead, rest := turn.events[..n], turn.events[n..];
    var y := Exporter(true, [], x.events + [UserTurn(turn.prompt)]);
    TurnBegins(json, x, turn);
    CountWritten(json, y, turn.events);
    assert turn.events == lead + rest;
    ContentAppend(lead, rest);
    ResultsAppend(lead, rest);
    NoResultInLead(turn.events);
  }

  lemma {:induction false} NoResultInLead(events: seq<NodeEvent>)
    ensures ToolResults(events[..TurnLength(events)]) == []
  {
    if TurnLength(events) > 0 {
      NoResultInLead(events[1..]);
      assert events[..TurnLength(events)][1..] == events[1..][..TurnLength(events[1..])];
    }
  }

  // ------------------------------------------------------------- whole sessions

  lemma {:induction false} SpokenTurnsMean(json: ToolJson, turns: seq<Turn>)
    requires WellFormed(turns) && forall i :: 0 <= i < |turns| ==> SpeaksFirst(turns[i])
    ensures var x := ExportRun(json, NOTHING_YET, Concat(LogsOf(turns)));
            x.blocks == [] && SameMeaning(json, MessagesOf(turns), x.events)
  {
    if turns != [] {
      var front, last := turns[..|turns| - 1], turns[|turns| - 1];
      SpokenTurnsMean(json, front);
      LastLog(turns);
      ExportAppend(json, NOTHING_YET, Concat(LogsOf(front)), TurnLog(last.prompt, last.events));
      SpokenTurnMeans(json, ExportRun(json, NOTHING_YET, Concat(LogsOf(front))), MessagesOf(front), last);
    }
  }

  lemma {:induction false} LastLog(turns: seq<Turn>)
    requires turns != []
    ensures var front, last := turns[..|turns| - 1], turns[|turns| - 1];
            Concat(LogsOf(turns)) == Concat(LogsOf(front)) + TurnLog(last.prompt, last.events)
  {
    var front, last := turns[..|turns| - 1], turns[|turns| - 1];
    ConcatSnoc(LogsOf(front), TurnLog(last.prompt, last.events));
  }

  /** Unclaimed content of a turn that is not the last goes to the next prompt. */
  lemma {:induction false} AdoptedTurnsDiffer(json: ToolJson, turns: seq<Turn>, events: seq<SessionEvent>)
    requires WellFormed(turns) && !NothingAdopted(turns)
    ensures !SameMeaning(json, Rendered(Concat(LogsOf(turns))), events)
  {
    var i :| 0 <= i < |turns| - 1 && Unclaimed(turns[i]) != [];
    var before, next := turns[..i + 1], turns[i + 1];
    LogsOpen(before);
    SessionOrphans(LogsOf(before));
    assert before[|before| - 1] == turns[i];
    TurnOrphans(turns[i].prompt, turns[i].events);
    var rest := FollowingLog(turns, i + 1);
    AdoptionSplitsReaders(json, Concat(LogsOf(before)), next.prompt, rest, events);
  }

  /** After the first `i` turns the log goes on with the prompt of the next one. */
  lemma {:induction false} FollowingLog(turns: seq<Turn>, i: nat) returns (rest: seq<NodeEvent>)
    requires i < |turns|
    ensures Concat(LogsOf(turns)) == Concat(LogsOf(turns[..i])) + [UserMessage(turns[i].prompt)] + rest
  {
    var n := |turns| - 1;
    var front, last := turns[..n], turns[n];
    LastLog(turns);
    if i == n {
      rest := [AssistantStart] + last.events + [AssistantComplete];
      assert TurnLog(last.prompt, last.events) == [UserMessage(last.prompt)] + rest;
      AppendAssoc(Concat(LogsOf(front)), [UserMessage(last.prompt)], rest);
    } else {
      var more := FollowingLog(front, i);
      assert front[..i] == turns[..i];
      rest := more + TurnLog(last.prompt, last.events);
      AppendAssoc(Concat(LogsOf(turns[..i])) + [UserMessage(turns[i].prompt)], more, TurnLog(last.prompt, last.events));
    }
  }

  /** The two readers agree on the log of some completed turns exactly when no turn
      but the last received content after a tool result, and the last one did not
      either or had said something before its first. */
  lemma {:induction false} ReadersAgreeOnTurns(json: ToolJson, turns: seq<Turn>)
    requires WellFormed(turns)
    ensures var log := Concat(LogsOf(turns));
            SameMeaning(json, Rendered(log), Exported(json, log))
            <==> NothingAdopted(turns) && (turns == [] || SpeaksFirst(turns[|turns| - 1]))
  {
    var log := Concat(LogsOf(turns));
    if !NothingAdopted(turns) {
      AdoptedTurnsDiffer(json, turns, Exported(json, log));
    } else {
      TurnsRender(turns);
      if turns == [] || SpeaksFirst(turns[|turns| - 1]) {
        SpokenTurnsMean(json, turns);
      } else {
        var front, last := turns[..|turns| - 1], turns[|turns| - 1];
        SpokenTurnsMean(json, front);
        LastLog(turns);
        var x := ExportRun(json, NOTHING_YET, Concat(LogsOf(front)));
        ExportAppend(json, NOTHING_YET, Concat(LogsOf(front)), TurnLog(last.prompt, last.events));
        LateTurnIsLonger(json, x, last);
        assert |Exported(json, log)| >= |ExportRun(json, NOTHING_YET, log).events|;
      }
    }
  }

  /** So for any sequence of chats on one session, what is rendered from the
      history on the path to the head says what would be exported from it under
      that condition and no other. */
  lemma {:induction false} ChatsReadAlike(
      codec: Codec, parse: JsonParser, json: ToolJson, db: ChatDb, id: int, requests: seq<Request>)
    ensures var turns := CompletedTurns(codec, parse, db, id, requests);
            var log := Concat(LogsOf(turns));
            SameMeaning(json, Rendered(log), Exported(json, log))
            <==> NothingAdopted(turns) && (turns == [] || SpeaksFirst(turns[|turns| - 1]))
  {
    TurnsWellFormed(codec, parse, db, id, requests);
    ReadersAgreeOnTurns(json, CompletedTurns(codec, parse, db, id, requests));
  }
}
