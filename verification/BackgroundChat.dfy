// run_chat_background (src/activations/claudecode/activation.rs:1202-1698): the
// task that relays a chat into a stream buffer, operation by operation.
module BackgroundChat {
  import opened Prelude
  import opened Arbor
  import opened BackgroundTurn
  import opened Chain
  import opened Chat
  import opened ChatLoop
  import opened ChatStore
  import opened ChatTypes
  import opened Conversation
  import opened EventLog
  import opened Streams

  /** The task's stream, if nobody has removed it, has been through these operations;
      the others are untouched. */
  ghost predicate Fed(streams: map<int, Buffer>, before: map<int, Buffer>, id: int, ops: seq<StreamOp>) {
    streams == if id in before then before[id := Streams.Run(before[id], ops)] else before
  }

  lemma {:induction false} RunSnoc(b: Buffer, ops: seq<StreamOp>, op: StreamOp)
    ensures Streams.Run(b, ops + [op]) == Apply(Streams.Run(b, ops), op)
  {
    assert (ops + [op])[..|ops|] == ops;
  }

  lemma {:induction false} RunAppend(b: Buffer, ops: seq<StreamOp>, more: seq<StreamOp>)
    ensures Streams.Run(b, ops + more) == Streams.Run(Streams.Run(b, ops), more)
  {
    if more == [] {
      assert ops + more == ops;
    } else {
      var front, op := more[..|more| - 1], more[|more| - 1];
      assert ops + more == ops + front + [op];
      RunSnoc(b, ops + front, op);
      RunAppend(b, ops, front);
    }
  }

  lemma {:induction false} FedOnce(
      streams: map<int, Buffer>, before: map<int, Buffer>, id: int, ops: seq<StreamOp>, op: StreamOp)
    requires Fed(streams, before, id, ops)
    ensures Fed(if id in streams then streams[id := Apply(streams[id], op)] else streams, before, id, ops + [op])
  {
    if id in before {
      RunSnoc(before[id], ops, op);
    }
  }

  lemma {:induction false} FedNothing(before: map<int, Buffer>, id: int)
    ensures Fed(before, before, id, [])
  {
  }

  lemma {:induction false} FedAppend(
      streams: map<int, Buffer>, mid: map<int, Buffer>, before: map<int, Buffer>, id: int, ops: seq<StreamOp>,
      more: seq<StreamOp>)
    requires Fed(mid, before, id, ops) && Fed(streams, mid, id, more)
    ensures Fed(streams, before, id, ops + more)
  {
    if id in before {
      RunAppend(before[id], ops, more);
    }
  }

  method Push(streams: ActiveStreams, id: int, e: ChatEvent, ghost before: map<int, Buffer>, ghost ops: seq<StreamOp>)
    requires streams.Valid() && Fed(streams.streams, before, id, ops)
    modifies streams`streams
    ensures streams.Valid() && Fed(streams.streams, before, id, ops + [Pushes(e)])
  {
    FedOnce(streams.streams, before, id, ops, Pushes(e));
    var pushed := streams.StreamPushEvent(id, e);
  }

  method Place(
      streams: ActiveStreams, id: int, position: Position, ghost before: map<int, Buffer>,
      ghost ops: seq<StreamOp>)
    requires streams.Valid() && Fed(streams.streams, before, id, ops)
    modifies streams`streams
    ensures streams.Valid() && Fed(streams.streams, before, id, ops + [Places(position)])
  {
    FedOnce(streams.streams, before, id, ops, Places(position));
    var ok := streams.StreamSetUserPosition(id, position);
  }

  method SetStatus(
      streams: ActiveStreams, id: int, status: StreamStatus, error: Option<Reason>, ghost before: map<int, Buffer>,
      ghost ops: seq<StreamOp>)
    requires streams.Valid() && Fed(streams.streams, before, id, ops)
    modifies streams`streams
    ensures streams.Valid() && Fed(streams.streams, before, id, ops + [Sets(status, error)])
  {
    FedOnce(streams.streams, before, id, ops, Sets(status, error));
    var ok := streams.StreamSetStatus(id, status, error);
  }

  method Fail(streams: ActiveStreams, id: int, reason: Reason, ghost before: map<int, Buffer>, ghost ops: seq<StreamOp>)
    requires streams.Valid() && Fed(streams.streams, before, id, ops)
    modifies streams`streams
    ensures streams.Valid() && Fed(streams.streams, before, id, ops + Fails(reason))
  {
    Push(streams, id, Failure(reason), before, ops);
    SetStatus(streams, id, Failed, Some(reason), before, ops + [Pushes(Failure(reason))]);
    assert ops + [Pushes(Failure(reason))] + [Sets(Failed, Some(reason))] == ops + Fails(reason);
  }

  /** create_event_node, then stream_push_event. */
  method NodeAndPush(
      storage: ClaudeCodeStorage, streams: ActiveStreams, id: int, codec: Codec, ghost branch: Branch, tree: Id,
      parent: Id, t: Task, e: NodeEvent, shown: ChatEvent, ghost before: map<int, Buffer>)
    returns (parent': Id, t': Task)
    requires streams.Valid() && Fed(streams.streams, before, id, t.ops)
    requires branch.tree == tree && branch.Holds(codec, storage.arbor.State(), t.nodes, parent)
    modifies storage.arbor, streams`streams
    ensures t' == t.Node(e).Did(Pushes(shown)) && branch.Holds(codec, storage.arbor.State(), t'.nodes, parent')
    ensures streams.Valid() && Fed(streams.streams, before, id, t'.ops)
  {
    parent' := AddNode(storage, codec, branch, tree, parent, t.nodes, e);
    Push(streams, id, shown, before, t.ops);
    t' := t.(nodes := t.nodes + [e], ops := t.ops + [Pushes(shown)]);
  }

  method RelayPartToStream(
      storage: ClaudeCodeStorage, streams: ActiveStreams, id: int, codec: Codec, parse: JsonParser,
      ghost branch: Branch,
      tree: Id, parent: Id, t: Task, part: StreamPart, ghost before: map<int, Buffer>)
    returns (parent': Id, t': Task)
    requires streams.Valid() && Fed(streams.streams, before, id, t.ops)
    requires branch.tree == tree && branch.Holds(codec, storage.arbor.State(), t.nodes, parent)
    modifies storage.arbor, streams`streams
    ensures t' == TaskPart(parse, t, part) && branch.Holds(codec, storage.arbor.State(), t'.nodes, parent')
    ensures t'.unknown == t.unknown
    ensures streams.Valid() && Fed(streams.streams, before, id, t'.ops)
  {
    parent', t' := parent, t;
    match part
    case TextDelta(text) =>
      t' := t'.(response := t'.response + text);
      parent', t' := NodeAndPush(storage, streams, id, codec, branch, tree, parent', t', ContentText(text),
        Content(text), before);
    case InputJsonDelta(partial) =>
      t' := t'.(toolInput := t'.toolInput + partial);
    case ToolUseStart(i, name) =>
      t' := t'.(toolId := Some(i), toolName := Some(name), toolInput := "");
    case BlockStop =>
      var i, name := t'.toolId, t'.toolName;
      t' := t'.(toolId := None, toolName := None);
      if i.Some? && name.Some? {
        parent', t' := ToolUseToStream(storage, streams, id, codec, branch, tree, parent', t', i.value, name.value,
                                       ParsedInput(parse, t'.toolInput), before);
        t' := t'.(toolInput := "");
      }
    case OtherPart =>
  }

  /** A tool use that the stream announced: a permission request waits. */
  method ToolUseToStream(
      storage: ClaudeCodeStorage, streams: ActiveStreams, id: int, codec: Codec, ghost branch: Branch, tree: Id,
      parent: Id, t: Task, i: string, name: string, input: JsonValue, ghost before: map<int, Buffer>)
    returns (parent': Id, t': Task)
    requires streams.Valid() && Fed(streams.streams, before, id, t.ops)
    requires branch.tree == tree && branch.Holds(codec, storage.arbor.State(), t.nodes, parent)
    modifies storage.arbor, streams`streams
    ensures t' == (if name == PERMIT then t.Did(Sets(AwaitingPermission, None)) else t)
                  .Node(ContentToolUse(i, name, input)).Did(Pushes(ToolUse(name, i, input)))
    ensures branch.Holds(codec, storage.arbor.State(), t'.nodes, parent')
    ensures streams.Valid() && Fed(streams.streams, before, id, t'.ops)
  {
    t' := t;
    if name == PERMIT {
      SetStatus(streams, id, AwaitingPermission, None, before, t'.ops);
      t' := t'.(ops := t'.ops + [Sets(AwaitingPermission, None)]);
    }
    parent', t' := NodeAndPush(storage, streams, id, codec, branch, tree, parent, t',
                               ContentToolUse(i, name, input), ToolUse(name, i, input), before);
  }

  method RelayBlockToStream(
      storage: ClaudeCodeStorage, streams: ActiveStreams, id: int, codec: Codec, ghost branch: Branch, tree: Id,
      parent: Id, t: Task, block: RawBlock, ghost before: map<int, Buffer>)
    returns (parent': Id, t': Task)
    requires streams.Valid() && Fed(streams.streams, before, id, t.ops)
    requires branch.tree == tree && branch.Holds(codec, storage.arbor.State(), t.nodes, parent)
    modifies storage.arbor, streams`streams
    ensures t' == TaskBlock(t, block) && branch.Holds(codec, storage.arbor.State(), t'.nodes, parent')
    ensures t'.unknown == t.unknown
    ensures streams.Valid() && Fed(streams.streams, before, id, t'.ops)
  {
    parent', t' := parent, t;
    match block
    case RawText(text) =>
      if t'.response == "" {
        t' := t'.(response := text);
        parent', t' := NodeAndPush(storage, streams, id, codec, branch, tree, parent', t', ContentText(text),
          Content(text), before);
      }
    case RawToolUse(i, n, input) =>
      parent', t' := NodeAndPush(storage, streams, id, codec, branch, tree, parent', t',
                                 ContentToolUse(i, n, input), ToolUse(n, i, input), before);
    case RawToolResult(i, output, isError) =>
      SetStatus(streams, id, Running, None, before, t'.ops);
      t' := t'.(ops := t'.ops + [Sets(Running, None)]);
      var text, bad := if output.Some? then output.value else "", isError.Some? && isError.value;
      parent', t' := NodeAndPush(storage, streams, id, codec, branch, tree, parent', t',
                                 UserToolResult(i, text, bad), ToolResult(i, text, bad), before);
    case RawThinking(text) =>
      parent', t' := NodeAndPush(storage, streams, id, codec, branch, tree, parent', t', ContentThinking(text),
        Thinking(text), before);
  }

  method RelayBlocksToStream(
      storage: ClaudeCodeStorage, streams: ActiveStreams, id: int, codec: Codec, ghost branch: Branch, tree: Id,
      parent: Id, t: Task, blocks: seq<RawBlock>, ghost before: map<int, Buffer>)
    returns (parent': Id, t': Task)
    requires streams.Valid() && Fed(streams.streams, before, id, t.ops)
    requires branch.tree == tree && branch.Holds(codec, storage.arbor.State(), t.nodes, parent)
    modifies storage.arbor, streams`streams
    ensures t' == TaskBlocks(t, blocks) && branch.Holds(codec, storage.arbor.State(), t'.nodes, parent')
    ensures t'.unknown == t.unknown
    ensures streams.Valid() && Fed(streams.streams, before, id, t'.ops)
  {
    parent', t' := parent, t;
    for k := 0 to |blocks|
      invariant t' == TaskBlocks(t, blocks[..k]) && t'.unknown == t.unknown
      invariant branch.Holds(codec, storage.arbor.State(), t'.nodes, parent')
      invariant streams.Valid() && Fed(streams.streams, before, id, t'.ops)
    {
      assert blocks[..k + 1][..k] == blocks[..k];
      parent', t' := RelayBlockToStream(storage, streams, id, codec, branch, tree, parent', t', blocks[k], before);
    }
    assert blocks[..|blocks|] == blocks;
  }

  /** A node that is not pushed. */
  method NodeOnly(
      storage: ClaudeCodeStorage, codec: Codec, ghost branch: Branch, tree: Id, parent: Id, t: Task, e: NodeEvent)
    returns (parent': Id, t': Task)
    requires branch.tree == tree && branch.Holds(codec, storage.arbor.State(), t.nodes, parent)
    modifies storage.arbor
    ensures t' == t.Node(e) && branch.Holds(codec, storage.arbor.State(), t'.nodes, parent')
  {
    parent' := AddNode(storage, codec, branch, tree, parent, t.nodes, e);
    t' := t.(nodes := t.nodes + [e]);
  }

  method UnknownToStream(
      storage: ClaudeCodeStorage, streams: ActiveStreams, id: int, parse: JsonParser, session: int,
      ghost first: seq<(int, string, JsonValue)>, t: Task, raw: RawEvent, ghost before: map<int, Buffer>)
    returns (t': Task)
    requires raw.RawUnknown?
    requires streams.Valid() && Fed(streams.streams, before, id, t.ops)
    requires session in storage.sessions && storage.unknown == first + Filed(session, t.unknown)
    modifies storage`unknown, streams`streams
    ensures t' == TaskRaw(parse, |first|, t, raw) && t'.nodes == t.nodes
    ensures storage.unknown == first + Filed(session, t'.unknown)
    ensures streams.Valid() && Fed(streams.streams, before, id, t'.ops)
  {
    var handle := FileUnknown(storage, session, first, t.unknown, raw.eventType, raw.data);
    var shown := Passthrough(raw.eventType, handle, raw.data);
    Push(streams, id, shown, before, t.ops);
    t' := t.(unknown := t.unknown + [(raw.eventType, raw.data)], ops := t.ops + [Pushes(shown)]);
  }

  method ResultToStream(
      streams: ActiveStreams, id: int, parse: JsonParser, ghost first: int, t: Task, raw: RawEvent,
      ghost before: map<int, Buffer>)
    returns (t': Task)
    requires raw.RawResult?
    requires streams.Valid() && Fed(streams.streams, before, id, t.ops)
    modifies streams`streams
    ensures t' == TaskRaw(parse, first, t, raw) && t'.nodes == t.nodes && t'.unknown == t.unknown
    ensures streams.Valid() && Fed(streams.streams, before, id, t'.ops)
  {
    t' := t.Told(raw.sid);
    t' := t'.(cost := raw.cost, turns := raw.turns);
    if raw.failed == Some(true) && raw.error.Some? {
      Fail(streams, id, ClaudeError(raw.error.value), before, t'.ops);
      t' := t'.(ops := t'.ops + Fails(ClaudeError(raw.error.value)), failed := raw.error);
    }
  }

  /** A raw event that may add a node but shows nothing. */
  method QuietRaw(
      storage: ClaudeCodeStorage, codec: Codec, parse: JsonParser, ghost first: int, ghost branch: Branch, tree: Id,
      parent: Id, t: Task, raw: RawEvent)
    returns (parent': Id, t': Task)
    requires raw.RawSystem? || raw.RawUser? || raw.RawLaunch? || raw.RawStderr?
    requires branch.tree == tree && branch.Holds(codec, storage.arbor.State(), t.nodes, parent)
    modifies storage.arbor
    ensures t' == TaskRaw(parse, first, t, raw) && t'.ops == t.ops && t'.unknown == t.unknown
    ensures branch.Holds(codec, storage.arbor.State(), t'.nodes, parent')
  {
    parent', t' := parent, t;
    match raw
    case RawSystem(sid) =>
      t' := t'.Told(sid);
    case RawLaunch(command) =>
      parent', t' := NodeOnly(storage, codec, branch, tree, parent', t', LaunchCommand(command));
    case RawStderr(text) =>
      parent', t' := NodeOnly(storage, codec, branch, tree, parent', t', ClaudeStderr(text));
    case RawUser =>
  }

  /** What the assistant says, as it is streamed or as a whole message, and how it ends. */
  method SpokenRaw(
      storage: ClaudeCodeStorage, streams: ActiveStreams, id: int, codec: Codec, parse: JsonParser, ghost first: int,
      ghost branch: Branch, tree: Id, parent: Id, t: Task, raw: RawEvent, ghost before: map<int, Buffer>)
    returns (parent': Id, t': Task)
    requires raw.RawStream? || raw.RawAssistant? || raw.RawResult?
    requires streams.Valid() && Fed(streams.streams, before, id, t.ops)
    requires branch.tree == tree && branch.Holds(codec, storage.arbor.State(), t.nodes, parent)
    modifies storage.arbor, streams`streams
    ensures t' == TaskRaw(parse, first, t, raw) && t'.unknown == t.unknown
    ensures branch.Holds(codec, storage.arbor.State(), t'.nodes, parent')
    ensures streams.Valid() && Fed(streams.streams, before, id, t'.ops)
  {
    parent', t' := parent, t;
    match raw
    case RawStream(part, sid) =>
      t' := t'.Told(sid);
      parent', t' := RelayPartToStream(storage, streams, id, codec, parse, branch, tree, parent', t', part, before);
    case RawAssistant(content) =>
      if content.Some? {
        parent', t' := RelayBlocksToStream(storage, streams, id, codec, branch, tree, parent', t', content.value,
          before);
      }
    case RawResult(_, _, _, _, _) =>
      t' := ResultToStream(streams, id, parse, first, t', raw, before);
  }

  /** One raw event of the background loop. */
  method RelayRawToStream(
      storage: ClaudeCodeStorage, streams: ActiveStreams, id: int, codec: Codec, parse: JsonParser, session: int,
      ghost first: seq<(int, string, JsonValue)>, ghost branch: Branch, tree: Id, parent: Id, t: Task, raw: RawEvent,
      ghost before: map<int, Buffer>)
    returns (parent': Id, t': Task)
    requires streams.Valid() && Fed(streams.streams, before, id, t.ops)
    requires branch.tree == tree && branch.Holds(codec, storage.arbor.State(), t.nodes, parent)
    requires session in storage.sessions && storage.unknown == first + Filed(session, t.unknown)
    modifies storage.arbor, storage`unknown, streams`streams
    ensures t' == TaskRaw(parse, |first|, t, raw)
    ensures branch.Holds(codec, storage.arbor.State(), t'.nodes, parent')
    ensures storage.unknown == first + Filed(session, t'.unknown)
    ensures streams.Valid() && Fed(streams.streams, before, id, t'.ops)
  {
    parent', t' := parent, t;
    match raw
    case RawUnknown(_, _) =>
      t' := UnknownToStream(storage, streams, id, parse, session, first, t', raw, before);
    case RawStream(_, _) =>
      parent', t' := SpokenRaw(storage, streams, id, codec, parse, |first|, branch, tree, parent', t', raw, before);
    case RawAssistant(_) =>
      parent', t' := SpokenRaw(storage, streams, id, codec, parse, |first|, branch, tree, parent', t', raw, before);
    case RawResult(_, _, _, _, _) =>
      parent', t' := SpokenRaw(storage, streams, id, codec, parse, |first|, branch, tree, parent', t', raw, before);
    case _ =>
      parent', t' := QuietRaw(storage, codec, parse, |first|, branch, tree, parent', t', raw);
  }

  /** Step 5: the raw events, until the last one or the first reported error. */
  method RelayToStream(
      storage: ClaudeCodeStorage, streams: ActiveStreams, id: int, codec: Codec, parse: JsonParser, config: Config,
      ghost branch: Branch, start: Id, raws: seq<RawEvent>)
    returns (parent: Id, t: Task)
    requires streams.Valid() && config.id in storage.sessions
    requires branch.tree == config.session.tree && branch.Holds(codec, storage.arbor.State(), [], start)
    modifies storage.arbor, storage`unknown, streams`streams
    ensures t == TaskAll(parse, |old(storage.unknown)|, NewTask(config.session.claudeId), raws)
    ensures branch.Holds(codec, storage.arbor.State(), t.nodes, parent)
    ensures storage.unknown == old(storage.unknown) + Filed(config.id, t.unknown)
    ensures streams.Valid() && Fed(streams.streams, old(streams.streams), id, t.ops)
  {
    parent, t := start, NewTask(config.session.claudeId);
    ghost var first, before := storage.unknown, streams.streams;
    for k := 0 to |raws|
      invariant t == TaskAll(parse, |first|, NewTask(config.session.claudeId), raws[..k]) && t.failed.None?
      invariant branch.Holds(codec, storage.arbor.State(), t.nodes, parent)
      invariant storage.unknown == first + Filed(config.id, t.unknown)
      invariant streams.Valid() && Fed(streams.streams, before, id, t.ops)
    {
      assert raws[..k + 1][..k] == raws[..k];
      parent, t := RelayRawToStream(
        storage, streams, id, codec, parse, config.id, first, branch, config.session.tree, parent, t, raws[k], before);
      if t.failed.Some? {
        TaskStops(parse, |first|, NewTask(config.session.claudeId), raws, k + 1);
        return;
      }
    }
    assert raws[..|raws|] == raws;
  }

  lemma {:induction false} TaskStops(parse: JsonParser, first: int, t: Task, raws: seq<RawEvent>, k: nat)
    requires k <= |raws| && TaskAll(parse, first, t, raws[..k]).failed.Some?
    ensures TaskAll(parse, first, t, raws) == TaskAll(parse, first, t, raws[..k])
    decreases |raws| - k
  {
    if k == |raws| {
      assert raws[..k] == raws;
    } else {
      assert raws[..k + 1][..k] == raws[..k];
      TaskStops(parse, first, t, raws, k + 1);
    }
  }

  /** Where the user's node is, and the first push. */
  method StartStream(streams: ActiveStreams, id: int, config: Config, user: Id)
    requires streams.Valid()
    modifies streams`streams
    ensures streams.Valid() && Fed(streams.streams, old(streams.streams), id, Opens(config, user))
  {
    ghost var before := streams.streams;
    var position := Position(config.session.tree, user);
    FedNothing(before, id);
    Place(streams, id, position, before, []);
    Push(streams, id, Start(config.id, position), before, [] + [Places(position)]);
    assert [] + [Places(position)] + [Pushes(Start(config.id, position))] == Opens(config, user);
  }

  /** Steps 6 to 9, unless the loop ended in an error. */
  method EndBackground(
      storage: ClaudeCodeStorage, streams: ActiveStreams, id: int, codec: Codec, config: Config, ephemeral: bool,
      ghost branch: Branch, ghost prompt: string, parent: Id, t: Task)
    requires streams.Valid() && config.id in storage.sessions
    requires branch.tree == config.session.tree && branch.opening == Opening(prompt)
    requires branch.Holds(codec, storage.arbor.State(), t.nodes, parent)
    modifies storage`messages, storage`sessions, storage.arbor, streams`streams
    ensures var b := Ending(codec, branch.base, old(storage.State()), config, prompt, ephemeral, branch.top, t);
            storage.State() == b.db && Fed(streams.streams, old(streams.streams), id, b.ops)
    ensures streams.Valid()
  {
    ghost var before := streams.streams;
    if t.failed.Some? {
      return;
    }
    var head := StoreReply(storage, codec, config, ephemeral, branch, prompt, parent, t.response, t.cost, t.nodes);
    if !ephemeral {
      var updated := storage.SessionUpdateHead(config.id, head, t.claudeId);
    }
    var at := if ephemeral then config.session.head else head;
    var last := Complete(Position(config.session.tree, at), if t.claudeId.Some? then t.claudeId.value else "", t.cost,
      t.turns);
    FedNothing(before, id);
    Push(streams, id, last, before, []);
    SetStatus(streams, id, Completed, None, before, [] + [Pushes(last)]);
    assert [] + [Pushes(last)] + [Sets(Completed, None)] == [Pushes(last), Sets(Completed, None)];
  }

  /** run_chat_background. */
  method RunChatBackground(
      storage: ClaudeCodeStorage, streams: ActiveStreams, id: int, codec: Codec, parse: JsonParser,
      config: Config, prompt: string, ephemeral: bool, raws: seq<RawEvent>)
    requires storage.arbor.State().Valid() && config.session.head < storage.arbor.next && streams.Valid()
    modifies storage, storage.arbor, streams`streams
    ensures var b := RunInBackground(codec, parse, old(storage.State()), config, prompt, ephemeral, raws);
            storage.State() == b.db && Fed(streams.streams, old(streams.streams), id, b.ops)
    ensures streams.Valid()
  {
    ghost var before := streams.streams;
    var begun := OpenTurn(storage, codec, config, prompt, ephemeral);
    match begun {
      case Err(e) =>
        FedNothing(before, id);
        Fail(streams, id, e, before, []);
        assert [] + Fails(e) == Fails(e);
      case Ok((user, start)) =>
        ghost var at := Opened(old(storage.State()), config, prompt, ephemeral).0;
        RunOpened(storage, streams, id, codec, parse, config, prompt, ephemeral, raws, at, user, start);
    }
  }

  method RunOpened(
      storage: ClaudeCodeStorage, streams: ActiveStreams, id: int, codec: Codec, parse: JsonParser, config: Config,
      ghost prompt: string, ephemeral: bool, raws: seq<RawEvent>, ghost at: ChatDb, user: Id, start: Id)
    requires streams.Valid() && config.id in storage.sessions && at.arbor.Valid()
    requires Branch(at.arbor, config.session.tree, user, Opening(prompt)).Holds(codec, storage.arbor.State(), [], start)
    requires at == storage.State().(arbor := at.arbor)
    modifies storage, storage.arbor, streams`streams
    ensures var t := TaskAll(parse, |at.unknown|, NewTask(config.session.claudeId), raws);
            var ended := Ending(codec, at.arbor, Kept(codec, at, config, prompt, user, t), config, prompt, ephemeral,
              user, t);
            && storage.State() == ended.db
            && Fed(streams.streams, old(streams.streams), id, Opens(config, user) + t.ops + ended.ops)
    ensures streams.Valid()
  {
    ghost var before := streams.streams;
    ghost var branch := Branch(at.arbor, config.session.tree, user, Opening(prompt));
    StartStream(streams, id, config, user);
    ghost var started := streams.streams;
    var parent, t := RelayToStream(storage, streams, id, codec, parse, config, branch, start, raws);
    FedAppend(streams.streams, started, before, id, Opens(config, user), t.ops);
    ghost var relayed := streams.streams;
    assert storage.State() == Kept(codec, at, config, prompt, user, t);
    ghost var ended := Ending(codec, at.arbor, storage.State(), config, prompt, ephemeral, user, t);
    EndBackground(storage, streams, id, codec, config, ephemeral, branch, prompt, parent, t);
    FedAppend(streams.streams, relayed, before, id, Opens(config, user) + t.ops, ended.ops);
  }
}
