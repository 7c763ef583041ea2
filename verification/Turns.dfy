// When a session renders turn by turn, and what one chat turn renders to
// (src/activations/claudecode/storage.rs:926-1060 over the logs that
// src/activations/claudecode/activation.rs:243-523 writes).
module Turns {
  import opened Prelude
  import opened Conversation
  import opened Render
  import opened RenderLaws

  function Concat<T>(parts: seq<seq<T>>): seq<T> {
    if parts == [] then [] else Concat(parts[..|parts| - 1]) + parts[|parts| - 1]
  }

  lemma {:induction false} ConcatSnoc<T>(parts: seq<seq<T>>, last: seq<T>)
    ensures Concat(parts + [last]) == Concat(parts) + last
  {
    assert (parts + [last])[..|parts|] == parts;
  }

  /** The log begins with a marker that opens a message. */
  predicate Opens(log: seq<NodeEvent>) {
    log != [] && (log[0].UserMessage? || log[0].AssistantStart?)
  }

  lemma {:induction false} BlocksAppend(a: seq<NodeEvent>, b: seq<NodeEvent>)
    ensures BlocksOf(a + b) == BlocksOf(a) + BlocksOf(b)
  {
    if b == [] {
      assert a + b == a;
    } else {
      var front, e := b[..|b| - 1], b[|b| - 1];
      assert (a + b)[..|a + b| - 1] == a + front;
      BlocksAppend(a, front);
      AppendAssoc(BlocksOf(a), BlocksOf(front), Recorded(e));
    }
  }

  /** An opening marker clears the slate: what is orphaned after it does not
      depend on what came before it. */
  lemma {:induction false} OrphansAppend(a: seq<NodeEvent>, b: seq<NodeEvent>)
    requires Opens(b)
    ensures Orphans(a + b) == Orphans(b) && OpenRole(a + b) == OpenRole(b)
  {
    var front := b[..|b| - 1];
    assert (a + b)[..|a + b| - 1] == a + front;
    if front != [] {
      OrphansAppend(a, front);
    }
  }

  lemma {:induction false} RenderedCount(log: seq<NodeEvent>)
    ensures |Flatten(Rendered(log))| + |Orphans(log)| == |BlocksOf(log)|
  {
    RenderConserves(log);
    assert |multiset(Flatten(Rendered(log)))| + |multiset(Orphans(log))| == |multiset(BlocksOf(log))|;
  }

  /** A log that starts with an opening marker renders on its own, whatever was
      logged before it, exactly when nothing before it is orphaned. */
  lemma {:induction false} RenderSplits(a: seq<NodeEvent>, b: seq<NodeEvent>)
    requires Opens(b)
    ensures Rendered(a + b) == Rendered(a) + Rendered(b) <==> Orphans(a) == []
  {
    if Orphans(a) == [] {
      NothingLeftOver(a, b);
    } else {
      OrphansAppend(a, b);
      BlocksAppend(a, b);
      RenderedCount(a);
      RenderedCount(b);
      RenderedCount(a + b);
      FlattenAppend(Rendered(a), Rendered(b));
    }
  }

  lemma {:induction false} NothingLeftOver(a: seq<NodeEvent>, b: seq<NodeEvent>)
    requires Opens(b) && Orphans(a) == []
    ensures Rendered(a + b) == Rendered(a) + Rendered(b)
  {
    var s := Run(IDLE, a);
    var f, anew := Flush(s), Step(IDLE, b[0]);
    RendererState(a);
    assert f.content == [];
    assert b == [b[0]] + b[1..];
    RunAppend(IDLE, a, b);
    RunCons(s, b[0], b[1..]);
    RunCons(IDLE, b[0], b[1..]);
    assert Step(s, b[0]) == Renderer(anew.role, anew.content, f.messages);
    assert anew == Renderer(anew.role, anew.content, []);
    FinishFrame(f.messages, anew.role, anew.content, b[1..]);
  }

  /** The messages of each turn rendered by itself. */
  function RenderedEach(turns: seq<seq<NodeEvent>>): seq<Message> {
    if turns == [] then [] else RenderedEach(turns[..|turns| - 1]) + Rendered(turns[|turns| - 1])
  }

  /** How many blocks the turns before the last one leave orphaned. */
  function LeftBehind(turns: seq<seq<NodeEvent>>): nat {
    if |turns| <= 1 then 0
    else LeftBehind(turns[..|turns| - 1]) + |Orphans(turns[|turns| - 2])|
  }

  predicate AllOpen(turns: seq<seq<NodeEvent>>) {
    forall i :: 0 <= i < |turns| ==> Opens(turns[i])
  }

  lemma {:induction false} SessionOrphans(turns: seq<seq<NodeEvent>>)
    requires AllOpen(turns)
    ensures Orphans(Concat(turns)) == if turns == [] then [] else Orphans(turns[|turns| - 1])
  {
    if turns != [] {
      OrphansAppend(Concat(turns[..|turns| - 1]), turns[|turns| - 1]);
    }
  }

  /** Rendering the whole session, or turn by turn, differs by the blocks that
      later turns adopt. */
  lemma {:induction false} SessionCount(turns: seq<seq<NodeEvent>>)
    requires AllOpen(turns)
    ensures |Flatten(Rendered(Concat(turns)))| == |Flatten(RenderedEach(turns))| + LeftBehind(turns)
  {
    if turns == [] {
      RenderedCount([]);
    } else {
      var front, last := turns[..|turns| - 1], turns[|turns| - 1];
      SessionCount(front);
      SessionOrphans(front);
      OrphansAppend(Concat(front), last);
      BlocksAppend(Concat(front), last);
      RenderedCount(Concat(front));
      RenderedCount(last);
      RenderedCount(Concat(turns));
      FlattenAppend(RenderedEach(front), Rendered(last));
    }
  }

  /** A session renders to the messages of its turns, one turn after the other,
      exactly when no turn but the last leaves content orphaned. */
  lemma {:induction false} SessionRendersTurnByTurn(turns: seq<seq<NodeEvent>>)
    requires AllOpen(turns)
    ensures Rendered(Concat(turns)) == RenderedEach(turns) <==> LeftBehind(turns) == 0
  {
    SessionCount(turns);
    if LeftBehind(turns) == 0 && turns != [] {
      var front, last := turns[..|turns| - 1], turns[|turns| - 1];
      SessionRendersTurnByTurn(front);
      SessionOrphans(front);
      RenderSplits(Concat(front), last);
    }
  }

  // ------------------------------------------------------------- one chat turn

  /** Events that arrive between a turn's start and completion markers. */
  predicate InTurnEvent(e: NodeEvent) {
    IsContent(e) || IsDebug(e) || e.UserToolResult?
  }

  predicate InTurnEvents(events: seq<NodeEvent>) {
    forall i :: 0 <= i < |events| ==> InTurnEvent(events[i])
  }

  /** The log a completed turn leaves behind. */
  function TurnLog(prompt: string, events: seq<NodeEvent>): seq<NodeEvent> {
    [UserMessage(prompt), AssistantStart] + events + [AssistantComplete]
  }

  function ToolResults(events: seq<NodeEvent>): seq<Message> {
    if events == [] then []
    else (if events[0].UserToolResult? then [Message(User, Recorded(events[0]))] else []) + ToolResults(events[1..])
  }

  /** What a completed turn reads as: the prompt, then what the assistant said
      before its first tool result, then the tool results. */
  function TurnMessages(prompt: string, events: seq<NodeEvent>): seq<Message> {
    var n := TurnLength(events);
    [Message(User, [TextBlock(prompt)])] + AssistantSaid(ContentOf(events[..n])) + ToolResults(events[n..])
  }

  lemma {:induction false} TailClean(role: Option<Role>, waiting: bool, events: seq<NodeEvent>)
    requires InTurnEvents(events) && role != Some(User)
    ensures Clean(role, waiting, events + [AssistantComplete])
    decreases |events|
  {
    var log := events + [AssistantComplete];
    if events == [] {
      assert log[1..] == [];
    } else {
      assert log[1..] == events[1..] + [AssistantComplete];
      assert InTurnEvent(events[0]);
      var e := log[0];
      TailClean(if e.UserToolResult? then None else role, if IsContent(e) then waiting || role.None? else waiting,
        events[1..]);
    }
  }

  lemma {:induction false} TailTranscript(events: seq<NodeEvent>)
    requires InTurnEvents(events)
    ensures Transcript(events + [AssistantComplete]) == ToolResults(events)
  {
    var log := events + [AssistantComplete];
    if events == [] {
      assert log[1..] == [];
    } else {
      assert log[1..] == events[1..] + [AssistantComplete];
      assert InTurnEvent(events[0]);
      TailTranscript(events[1..]);
    }
  }

  lemma {:induction false} TailLength(events: seq<NodeEvent>)
    ensures TurnLength(events + [AssistantComplete]) == TurnLength(events)
  {
    var log := events + [AssistantComplete];
    if events != [] {
      assert log[1..] == events[1..] + [AssistantComplete];
      TailLength(events[1..]);
    }
  }

  lemma {:induction false} TurnClean(prompt: string, events: seq<NodeEvent>)
    requires InTurnEvents(events)
    ensures Clean(None, false, TurnLog(prompt, events))
  {
    var log := TurnLog(prompt, events);
    var started, tail := log[1..], events + [AssistantComplete];
    assert started == [AssistantStart] + tail && started[1..] == tail;
    TailClean(Some(Assistant), false, events);
    assert Clean(Some(User), false, started);
  }

  lemma {:induction false} TurnTranscript(prompt: string, events: seq<NodeEvent>)
    requires InTurnEvents(events)
    ensures Transcript(TurnLog(prompt, events)) == TurnMessages(prompt, events)
  {
    var log := TurnLog(prompt, events);
    var opening := [Message(User, [TextBlock(prompt)])];
    var started := log[1..];
    assert Transcript(log) == opening + Transcript(started);
    StartedTranscript(events);
    assert started == [AssistantStart] + events + [AssistantComplete];
    var n := TurnLength(events);
    AppendAssoc(opening, AssistantSaid(ContentOf(events[..n])), ToolResults(events[n..]));
  }

  lemma {:induction false} StartedTranscript(events: seq<NodeEvent>)
    requires InTurnEvents(events)
    ensures var n := TurnLength(events);
            (Transcript([AssistantStart] + events + [AssistantComplete])
             == AssistantSaid(ContentOf(events[..n])) + ToolResults(events[n..]))
  {
    var started, tail := [AssistantStart] + events + [AssistantComplete], events + [AssistantComplete];
    var n := TurnLength(events);
    assert started[1..] == tail;
    TailLength(events);
    StartCons(started);
    assert tail[..n] == events[..n] && tail[n..] == events[n..] + [AssistantComplete];
    TailTranscript(events[n..]);
    assert [] + ContentOf(events[..n]) == ContentOf(events[..n]);
  }

  /** Every completed turn renders to its prompt, its non-empty block list and its
      tool results; only content after a tool result is missing. */
  lemma {:induction false} TurnRenders(prompt: string, events: seq<NodeEvent>)
    requires InTurnEvents(events)
    ensures Rendered(TurnLog(prompt, events)) == TurnMessages(prompt, events)
  {
    TurnClean(prompt, events);
    CleanRenders(None, [], TurnLog(prompt, events));
    TurnTranscript(prompt, events);
  }

  lemma {:induction false} ContentAppend(a: seq<NodeEvent>, b: seq<NodeEvent>)
    ensures ContentOf(a + b) == ContentOf(a) + ContentOf(b)
  {
    if a == [] {
      assert a + b == b;
    } else {
      assert (a + b)[1..] == a[1..] + b && (a + b)[0] == a[0];
      ContentAppend(a[1..], b);
      AppendAssoc(if IsContent(a[0]) then [BlockOf(a[0])] else [], ContentOf(a[1..]), ContentOf(b));
    }
  }

  lemma {:induction false} OrphansAfterStart(prompt: string, events: seq<NodeEvent>)
    requires InTurnEvents(events)
    ensures var n := TurnLength(events);
            var log := [UserMessage(prompt), AssistantStart] + events;
            && Orphans(log) == ContentOf(events[n..])
            && OpenRole(log) == if n < |events| then None else Some(Assistant)
  {
    var log := [UserMessage(prompt), AssistantStart] + events;
    if events == [] {
      assert log == [UserMessage(prompt), AssistantStart];
    } else {
      var front, e := events[..|events| - 1], events[|events| - 1];
      var before := [UserMessage(prompt), AssistantStart] + front;
      assert log == before + [e] && events == front + [e];
      OrphansAfterStart(prompt, front);
      OrphansSnoc(before, e);
      ContentAfterSnoc(front, e);
    }
  }

  lemma {:induction false} OrphansSnoc(before: seq<NodeEvent>, e: NodeEvent)
    requires InTurnEvent(e)
    ensures Orphans(before + [e]) == Orphans(before) + if IsContent(e) && OpenRole(before).None? then [BlockOf(e)]
      else []
    ensures OpenRole(before + [e]) == if e.UserToolResult? then None else OpenRole(before)
  {
    assert (before + [e])[..|before|] == before;
  }

  lemma {:induction false} ContentAfterSnoc(front: seq<NodeEvent>, e: NodeEvent)
    requires InTurnEvent(e)
    ensures var events := front + [e];
            var n, n' := TurnLength(front), TurnLength(events);
            && n' == (if n < |front| || e.UserToolResult? then n else |events|)
            && ContentOf(events[n'..]) == ContentOf(front[n..]) + if n < |front| && IsContent(e) then [BlockOf(e)]
              else []
  {
    var events := front + [e];
    var n := TurnLength(front);
    LengthSnoc(front, e);
    assert ContentOf([e]) == if IsContent(e) then [BlockOf(e)] else [] by {
      assert [e][1..] == [];
    }
    if n < |front| {
      assert events[n..] == front[n..] + [e];
      ContentAppend(front[n..], [e]);
    } else if e.UserToolResult? {
      assert events[n..] == [e];
    }
  }

  lemma {:induction false} LengthSnoc(front: seq<NodeEvent>, e: NodeEvent)
    ensures TurnLength(front + [e]) ==
      if TurnLength(front) < |front| || !(IsContent(e) || IsDebug(e)) then TurnLength(front) else |front| + 1
  {
    var log := front + [e];
    if front == [] {
      assert log[1..] == [];
    } else {
      assert log[1..] == front[1..] + [e];
      LengthSnoc(front[1..], e);
    }
  }

  /** The blocks a completed turn leaves to be adopted by the next one are the
      content it received after its first tool result. */
  lemma {:induction false} TurnOrphans(prompt: string, events: seq<NodeEvent>)
    requires InTurnEvents(events)
    ensures Orphans(TurnLog(prompt, events)) == ContentOf(events[TurnLength(events)..])
  {
    var log := TurnLog(prompt, events);
    assert log[..|log| - 1] == [UserMessage(prompt), AssistantStart] + events;
    OrphansAfterStart(prompt, events);
  }
}
