// render_messages (src/activations/claudecode/storage.rs:905-1061): reading a
// path of event nodes back into the messages of the conversation.
module Render {
  import opened Prelude
  import opened Arbor
  import opened ArborPaths
  import opened Conversation

  datatype RenderError = PathNotFound | StartNotOnPath(start: Id) | NotAnEvent(content: string)

  /** The loop's variables: the open role, the blocks gathered, the messages out. */
  datatype Renderer = Renderer(role: Option<Role>, content: seq<Block>, messages: seq<Message>)

  const IDLE := Renderer(None, [], [])

  /** Close the open role, if any; blocks gathered with no role open stay. */
  function Flush(s: Renderer): Renderer {
    if s.role.None? then s
    else if s.content == [] then s.(role := None)
    else Renderer(None, [], s.messages + [Message(s.role.value, s.content)])
  }

  function Step(s: Renderer, e: NodeEvent): Renderer {
    match e
    case UserMessage(t) => var f := Flush(s); f.(role := Some(User), content := f.content + [TextBlock(t)])
    case AssistantStart => Flush(s).(role := Some(Assistant))
    case ContentText(t) => s.(content := s.content + [TextBlock(t)])
    case ContentToolUse(i, n, x) => s.(content := s.content + [ToolUseBlock(i, n, x)])
    case ContentThinking(t) => s.(content := s.content + [ThinkingBlock(t)])
    case UserToolResult(i, o, x) =>
      var f := Flush(s);
      f.(messages := f.messages + [Message(User, [ToolResultBlock(i, o, x)])])
    case AssistantComplete => Flush(s)
    case LaunchCommand(_) => s
    case ClaudeStderr(_) => s
  }

  function Run(s: Renderer, log: seq<NodeEvent>): Renderer {
    if log == [] then s else Step(Run(s, log[..|log| - 1]), log[|log| - 1])
  }

  function Rendered(log: seq<NodeEvent>): seq<Message> {
    Flush(Run(IDLE, log)).messages
  }

  lemma {:induction false} RunAppend(s: Renderer, a: seq<NodeEvent>, b: seq<NodeEvent>)
    ensures Run(s, a + b) == Run(Run(s, a), b)
  {
    if b == [] {
      assert a + b == a;
    } else {
      assert (a + b)[..|a + b| - 1] == a + b[..|b| - 1];
      RunAppend(s, a, b[..|b| - 1]);
    }
  }

  lemma {:induction false} RunCons(s: Renderer, e: NodeEvent, rest: seq<NodeEvent>)
    ensures Run(s, [e] + rest) == Run(Step(s, e), rest)
  {
    RunAppend(s, [e], rest);
    assert [e][..0] == [];
    assert Run(s, [e]) == Step(Run(s, []), e);
  }

  // ---------------------------------------------------------------- the reader

  /** The events on a path: external and blank nodes are skipped, any other text
      must parse. */
  function EventsOn(codec: Codec, path: seq<NodeType>): Result<seq<NodeEvent>, RenderError> {
    if path == [] then Ok([])
    else
      match EventsOn(codec, path[..|path| - 1])
      case Err(e) => Err(e)
      case Ok(before) =>
        match path[|path| - 1]
        case ExternalNode(_) => Ok(before)
        case TextNode(content) =>
          if Blank(content) then Ok(before)
          else
            match codec.decode(content)
            case None => Err(NotAnEvent(content))
            case Some(e) => Ok(before + [e])
  }

  lemma {:induction false} EventsOnAppend(codec: Codec, a: seq<NodeType>, b: seq<NodeType>)
    ensures EventsOn(codec, a + b) ==
      match EventsOn(codec, a)
      case Err(e) => Err(e)
      case Ok(before) =>
        match EventsOn(codec, b)
        case Err(e) => Err(e)
        case Ok(after) => Ok(before + after)
  {
    if b == [] {
      assert a + b == a;
      assert forall x: seq<NodeEvent> :: x + [] == x;
    } else {
      assert (a + b)[..|a + b| - 1] == a + b[..|b| - 1];
      EventsOnAppend(codec, a, b[..|b| - 1]);
      assert forall x: seq<NodeEvent>, y: seq<NodeEvent>, e: NodeEvent :: x + (y + [e]) == (x + y) + [e];
    }
  }

  function IndexOf(ids: seq<Id>, id: Id): (i: Option<nat>)
    ensures i.Some? ==> i.value < |ids| && ids[i.value] == id && id !in ids[..i.value]
    ensures i.None? ==> id !in ids
  {
    if ids == [] then None
    else if ids[0] == id then Some(0)
    else
      match IndexOf(ids[1..], id)
      case None => None
      case Some(i) => Some(i + 1)
  }

  /** What render_messages answers for a store with these nodes. */
  function RenderSpec(
      nodes: map<Id, NodeRow>, codec: Codec, t: Id, start: Id, end: Id): Result<seq<Message>, RenderError>
    requires Ordered(nodes)
  {
    match PathUp(nodes, t, end)
    case None => Err(PathNotFound)
    case Some(path) =>
      match IndexOf(path, start)
      case None => Err(StartNotOnPath(start))
      case Some(i) =>
        PathInNodes(nodes, t, end);
        match EventsOn(codec, DataOf(nodes, path[i..]))
        case Err(e) => Err(e)
        case Ok(log) => Ok(Rendered(log))
  }

  lemma {:induction false} PathInNodes(nodes: map<Id, NodeRow>, t: Id, id: Id)
    requires Ordered(nodes) && PathUp(nodes, t, id).Some?
    ensures var path := PathUp(nodes, t, id).value;
            forall k :: 0 <= k < |path| ==> path[k] in nodes && nodes[path[k]].tree == t
  {
    PathUpSound(nodes, t, id);
  }

  method RenderMessages(arbor: ArborStorage, codec: Codec, t: Id, start: Id, end: Id)
    returns (r: Result<seq<Message>, RenderError>)
    requires arbor.State().Valid()
    ensures r == RenderSpec(arbor.nodes, codec, t, start, end)
  {
    var found := arbor.NodeGetPath(t, end);
    if found.Err? {
      return Err(PathNotFound);
    }
    PathInNodes(arbor.nodes, t, end);
    var from := IndexOf(found.value, start);
    if from.None? {
      return Err(StartNotOnPath(start));
    }
    r := RenderNodes(arbor, codec, t, found.value[from.value..]);
  }

  /** The loop over the nodes of the path. */
  method RenderNodes(arbor: ArborStorage, codec: Codec, t: Id, ids: seq<Id>)
    returns (r: Result<seq<Message>, RenderError>)
    requires forall k :: 0 <= k < |ids| ==> ids[k] in arbor.nodes && arbor.nodes[ids[k]].tree == t
    ensures r == match EventsOn(codec, DataOf(arbor.nodes, ids))
                 case Err(e) => Err(e)
                 case Ok(log) => Ok(Rendered(log))
  {
    ghost var data := DataOf(arbor.nodes, ids);
    ghost var log: seq<NodeEvent> := [];
    var messages: seq<Message> := [];
    var role: Option<Role> := None;
    var content: seq<Block> := [];
    for k := 0 to |ids|
      invariant EventsOn(codec, data[..k]) == Ok(log)
      invariant Run(IDLE, log) == Renderer(role, content, messages)
    {
      assert data[..k + 1][..k] == data[..k];
      var node := arbor.NodeGet(t, ids[k]);
      match node {
        case Err(_) => return Err(PathNotFound);
        case Ok(row) =>
          if row.data.ExternalNode? || Blank(row.data.content) {
            continue;
          }
          var event := codec.decode(row.data.content);
          if event.None? {
            EventsOnStops(codec, data, k + 1);
            return Err(NotAnEvent(row.data.content));
          }
          assert (log + [event.value])[..|log|] == log;
          log := log + [event.value];
          role, content, messages := TakeEvent(role, content, messages, event.value);
      }
    }
    assert data[..|ids|] == data;
    if role.Some? && content != [] {
      messages := messages + [Message(role.value, content)];
    }
    r := Ok(messages);
  }

  method TakeEvent(role: Option<Role>, content: seq<Block>, messages: seq<Message>, event: NodeEvent)
    returns (role': Option<Role>, content': seq<Block>, messages': seq<Message>)
    ensures Renderer(role', content', messages') == Step(Renderer(role, content, messages), event)
  {
    role', content', messages' := role, content, messages;
    match event
    case UserMessage(text) =>
      role', content', messages' := FlushNow(role', content', messages');
      role' := Some(User);
      content' := content' + [TextBlock(text)];
    case AssistantStart =>
      role', content', messages' := FlushNow(role', content', messages');
      role' := Some(Assistant);
    case ContentText(text) =>
      content' := content' + [TextBlock(text)];
    case ContentToolUse(id, name, input) =>
      content' := content' + [ToolUseBlock(id, name, input)];
    case ContentThinking(thinking) =>
      content' := content' + [ThinkingBlock(thinking)];
    case UserToolResult(id, output, isError) =>
      role', content', messages' := FlushNow(role', content', messages');
      messages' := messages' + [Message(User, [ToolResultBlock(id, output, isError)])];
    case AssistantComplete =>
      role', content', messages' := FlushNow(role', content', messages');
    case LaunchCommand(_) =>
    case ClaudeStderr(_) =>
  }

  method FlushNow(role: Option<Role>, content: seq<Block>, messages: seq<Message>)
    returns (role': Option<Role>, content': seq<Block>, messages': seq<Message>)
    ensures Renderer(role', content', messages') == Flush(Renderer(role, content, messages))
  {
    role', content', messages' := role, content, messages;
    if role.Some? {
      if content != [] {
        messages' := messages + [Message(role.value, content)];
        content' := [];
      }
      role' := None;
    }
  }

  lemma {:induction false} EventsOnStops(codec: Codec, path: seq<NodeType>, k: nat)
    requires k <= |path| && EventsOn(codec, path[..k]).Err?
    ensures EventsOn(codec, path) == EventsOn(codec, path[..k])
  {
    assert path == path[..k] + path[k..];
    EventsOnAppend(codec, path[..k], path[k..]);
  }

  // ------------------------------------------------- conservation of content

  /** The role that is open after a log, and the content events since it closed
      that nobody has taken up: read off the log, not off the renderer. */
  function OpenRole(log: seq<NodeEvent>): Option<Role> {
    if log == [] then None
    else
      match log[|log| - 1]
      case UserMessage(_) => Some(User)
      case AssistantStart => Some(Assistant)
      case UserToolResult(_, _, _) => None
      case AssistantComplete => None
      case _ => OpenRole(log[..|log| - 1])
  }

  function Orphans(log: seq<NodeEvent>): seq<Block> {
    if log == [] then []
    else
      var e, before := log[|log| - 1], log[..|log| - 1];
      if e.UserMessage? || e.AssistantStart? then []
      else if IsContent(e) && OpenRole(before).None? then Orphans(before) + [BlockOf(e)]
      else Orphans(before)
  }

  lemma {:induction false} RendererState(log: seq<NodeEvent>)
    ensures Run(IDLE, log).role == OpenRole(log)
    ensures OpenRole(log).None? ==> Run(IDLE, log).content == Orphans(log)
    ensures OpenRole(log).Some? ==> Orphans(log) == []
  {
    if log != [] {
      RendererState(log[..|log| - 1]);
    }
  }

  lemma {:induction false} FlushFlatten(s: Renderer)
    ensures Flatten(Flush(s).messages) + Flush(s).content == Flatten(s.messages) + s.content
  {
    if s.role.Some? && s.content != [] {
      FlattenSnoc(s.messages, Message(s.role.value, s.content));
    }
  }

  /** At every moment the blocks already sent out and the blocks still gathered
      are, counted with multiplicity, the blocks the log has recorded. */
  lemma {:induction false} RunConserves(log: seq<NodeEvent>)
    ensures Holdings(Run(IDLE, log)) == multiset(BlocksOf(log))
  {
    if log != [] {
      var e, before := log[|log| - 1], log[..|log| - 1];
      RunConserves(before);
      StepConserves(Run(IDLE, before), e);
    }
  }

  /** All blocks in a renderer's hands: sent out or still gathered. */
  function Holdings(s: Renderer): multiset<Block> {
    multiset(Flatten(s.messages) + s.content)
  }

  lemma {:induction false} StepConserves(s: Renderer, e: NodeEvent)
    ensures Holdings(Step(s, e)) == Holdings(s) + multiset(Recorded(e))
  {
    FlushFlatten(s);
    var f := Flush(s);
    if e.UserToolResult? {
      FlattenSnoc(f.messages, Message(User, Recorded(e)));
    }
    assert Flatten(Step(s, e).messages) + Step(s, e).content == Flatten(f.messages) + f.content + Recorded(e)
        || e.UserToolResult?;
  }

  /** On every log, no block is invented or duplicated; what the messages lack is
      exactly the orphaned content at the end of the log. */
  lemma {:induction false} RenderConserves(log: seq<NodeEvent>)
    ensures multiset(Flatten(Rendered(log))) + multiset(Orphans(log)) == multiset(BlocksOf(log))
  {
    var s := Run(IDLE, log);
    RunConserves(log);
    RendererState(log);
    FlushFlatten(s);
    assert Flush(s).content == Orphans(log);
    assert Holdings(Flush(s)) == Holdings(s);
  }

  lemma {:induction false} NoEmptyMessage(log: seq<NodeEvent>)
    ensures forall m | m in Run(IDLE, log).messages :: m.content != []
  {
    if log != [] {
      NoEmptyMessage(log[..|log| - 1]);
    }
  }

  /** No emitted message is empty. */
  lemma {:induction false} RenderedNonEmpty(log: seq<NodeEvent>)
    ensures forall m | m in Rendered(log) :: m.content != []
  {
    NoEmptyMessage(log);
  }
}
