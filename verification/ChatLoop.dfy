// The streamed chat itself: chat_stream_for_config
// (src/activations/claudecode/activation.rs:170-581), and the steps before and
// after the loop that run_chat_background (1202-1698) takes in the same way.
module ChatLoop {
  import opened Prelude
  import opened Arbor
  import opened Chain
  import opened Chat
  import opened ChatStore
  import opened ChatTypes
  import opened Conversation
  import opened EventLog
  import opened Streams

  /** Where a turn's nodes go: below `top`, which hangs from the old head. */
  datatype Branch = Branch(base: ValidDb, tree: Id, top: Id, opening: seq<NodeEvent>)
  {
    /** The store is the base with the opening and these nodes chained below `top`. */
    ghost predicate Holds(codec: Codec, db: Db, nodes: seq<NodeEvent>, parent: Id) {
      && tree in base.trees && top in base.nodes
      && Written(db, codec, base, tree, top, opening + nodes, parent)
    }
  }

  method AddNode(
      storage: ClaudeCodeStorage, codec: Codec, ghost branch: Branch, tree: Id, parent: Id,
      ghost nodes: seq<NodeEvent>, e: NodeEvent)
    returns (parent': Id)
    requires branch.tree == tree && branch.Holds(codec, storage.arbor.State(), nodes, parent)
    modifies storage.arbor
    ensures branch.Holds(codec, storage.arbor.State(), nodes + [e], parent')
  {
    AppendAssoc(branch.opening, nodes, [e]);
    var made := AppendEvent(storage.arbor, codec, branch.base, tree, branch.top, branch.opening + nodes, parent, e);
    parent' := match made case Ok(id) => id case Err(_) => parent;
  }

  method RelayPart(
      storage: ClaudeCodeStorage, codec: Codec, parse: JsonParser, ghost branch: Branch, tree: Id,
      parent: Id, turn: Relay, part: StreamPart)
    returns (parent': Id, turn': Relay)
    requires branch.tree == tree && branch.Holds(codec, storage.arbor.State(), turn.nodes, parent)
    modifies storage.arbor
    ensures turn' == OnPart(parse, turn, part) && branch.Holds(codec, storage.arbor.State(), turn'.nodes, parent')
    ensures turn'.unknown == turn.unknown
  {
    parent', turn' := parent, turn;
    match part
    case TextDelta(text) =>
      turn' := turn'.(response := turn'.response + text);
      parent', turn' := Show(storage, codec, branch, tree, parent', turn', ContentText(text));
    case InputJsonDelta(partial) =>
      turn' := turn'.(toolInput := turn'.toolInput + partial);
    case ToolUseStart(id, name) =>
      turn' := turn'.(toolId := Some(id), toolName := Some(name), toolInput := "");
    case BlockStop =>
      var id, name := turn'.toolId, turn'.toolName;
      turn' := turn'.(toolId := None, toolName := None);
      if id.Some? && name.Some? {
        var input := ParsedInput(parse, turn'.toolInput);
        turn' := turn'.(toolInput := "");
        parent', turn' := Show(storage, codec, branch, tree, parent', turn',
          ContentToolUse(id.value, name.value, input));
      }
    case OtherPart =>
  }

  /** A node under the turn, and the same event for the caller. */
  method Show(
      storage: ClaudeCodeStorage, codec: Codec, ghost branch: Branch, tree: Id, parent: Id, turn: Relay,
      e: NodeEvent)
    returns (parent': Id, turn': Relay)
    requires e.ContentText? || e.ContentToolUse? || e.ContentThinking? || e.UserToolResult?
    requires branch.tree == tree && branch.Holds(codec, storage.arbor.State(), turn.nodes, parent)
    modifies storage.arbor
    ensures turn' == turn.Tell(e) && branch.Holds(codec, storage.arbor.State(), turn'.nodes, parent')
  {
    parent' := AddNode(storage, codec, branch, tree, parent, turn.nodes, e);
    turn' := turn.(nodes := turn.nodes + [e], events := turn.events + [Shown(e)]);
  }

  method RelayBlock(
      storage: ClaudeCodeStorage, codec: Codec, ghost branch: Branch, tree: Id, parent: Id, turn: Relay,
      block: RawBlock)
    returns (parent': Id, turn': Relay)
    requires branch.tree == tree && branch.Holds(codec, storage.arbor.State(), turn.nodes, parent)
    modifies storage.arbor
    ensures turn' == OnBlock(turn, block) && branch.Holds(codec, storage.arbor.State(), turn'.nodes, parent')
  {
    parent', turn' := parent, turn;
    match block
    case RawText(text) =>
      if turn'.response == "" {
        turn' := turn'.(response := text);
        parent', turn' := Show(storage, codec, branch, tree, parent', turn', ContentText(text));
      }
    case RawToolUse(id, name, input) =>
      parent', turn' := Show(storage, codec, branch, tree, parent', turn', ContentToolUse(id, name, input));
    case RawToolResult(id, output, isError) =>
      var text, bad := if output.Some? then output.value else "", isError.Some? && isError.value;
      parent', turn' := Show(storage, codec, branch, tree, parent', turn', UserToolResult(id, text, bad));
    case RawThinking(thinking) =>
      parent', turn' := Show(storage, codec, branch, tree, parent', turn', ContentThinking(thinking));
  }

  method RelayBlocks(
      storage: ClaudeCodeStorage, codec: Codec, ghost branch: Branch, tree: Id, parent: Id, turn: Relay,
      blocks: seq<RawBlock>)
    returns (parent': Id, turn': Relay)
    requires branch.tree == tree && branch.Holds(codec, storage.arbor.State(), turn.nodes, parent)
    modifies storage.arbor
    ensures turn' == OnBlocks(turn, blocks) && branch.Holds(codec, storage.arbor.State(), turn'.nodes, parent')
    ensures turn'.unknown == turn.unknown
  {
    BlocksKeepUnknown(turn, blocks);
    parent', turn' := parent, turn;
    for k := 0 to |blocks|
      invariant turn' == OnBlocks(turn, blocks[..k]) && branch.Holds(codec, storage.arbor.State(), turn'.nodes, parent')
    {
      assert blocks[..k + 1][..k] == blocks[..k];
      parent', turn' := RelayBlock(storage, codec, branch, tree, parent', turn', blocks[k]);
    }
    assert blocks[..|blocks|] == blocks;
  }

  /** What the assistant says, as it is streamed or as a whole message. */
  method RelaySpoken(
      storage: ClaudeCodeStorage, codec: Codec, parse: JsonParser, ghost first: int, ghost branch: Branch, tree: Id,
      parent: Id, turn: Relay, raw: RawEvent)
    returns (parent': Id, turn': Relay)
    requires raw.RawStream? || raw.RawAssistant?
    requires branch.tree == tree && branch.Holds(codec, storage.arbor.State(), turn.nodes, parent)
    modifies storage.arbor
    ensures turn' == OnRaw(parse, first, turn, raw) && turn'.unknown == turn.unknown
    ensures branch.Holds(codec, storage.arbor.State(), turn'.nodes, parent')
  {
    parent', turn' := parent, turn;
    match raw
    case RawStream(part, sid) =>
      turn' := turn'.Heard(sid);
      parent', turn' := RelayPart(storage, codec, parse, branch, tree, parent', turn', part);
    case RawAssistant(content) =>
      if content.Some? {
        parent', turn' := RelayBlocks(storage, codec, branch, tree, parent', turn', content.value);
      }
  }

  /** A raw event that shows nothing. */
  method RelayQuiet(
      storage: ClaudeCodeStorage, codec: Codec, parse: JsonParser, ghost first: int, ghost branch: Branch, tree: Id,
      parent: Id, turn: Relay, raw: RawEvent)
    returns (parent': Id, turn': Relay)
    requires raw.RawSystem? || raw.RawUser? || raw.RawResult? || raw.RawLaunch? || raw.RawStderr?
    requires branch.tree == tree && branch.Holds(codec, storage.arbor.State(), turn.nodes, parent)
    modifies storage.arbor
    ensures turn' == OnRaw(parse, first, turn, raw) && turn'.unknown == turn.unknown
    ensures branch.Holds(codec, storage.arbor.State(), turn'.nodes, parent')
  {
    parent', turn' := parent, turn;
    match raw
    case RawSystem(sid) =>
      turn' := turn'.Heard(sid);
    case RawResult(sid, cost, turns, failed, error) =>
      turn' := turn'.Heard(sid).(cost := cost, turns := turns);
      turn' := turn'.(error := if failed == Some(true) then error else None);
    case RawLaunch(command) =>
      parent', turn' := Keep(storage, codec, branch, tree, parent', turn', LaunchCommand(command));
    case RawStderr(text) =>
      parent', turn' := Keep(storage, codec, branch, tree, parent', turn', ClaudeStderr(text));
    case RawUser =>
  }

  /** One raw event. */
  method RelayRaw(
      storage: ClaudeCodeStorage, codec: Codec, parse: JsonParser, session: int,
      ghost first: seq<(int, string, JsonValue)>,
      ghost branch: Branch, tree: Id, parent: Id, turn: Relay, raw: RawEvent)
    returns (parent': Id, turn': Relay)
    requires branch.tree == tree && branch.Holds(codec, storage.arbor.State(), turn.nodes, parent)
    requires session in storage.sessions && storage.unknown == first + Filed(session, turn.unknown)
    modifies storage.arbor, storage`unknown
    ensures turn' == OnRaw(parse, |first|, turn, raw)
    ensures branch.Holds(codec, storage.arbor.State(), turn'.nodes, parent')
    ensures storage.unknown == first + Filed(session, turn'.unknown)
  {
    parent', turn' := parent, turn;
    match raw
    case RawUnknown(eventType, data) =>
      turn' := PassThrough(storage, session, first, turn', eventType, data);
    case RawStream(_, _) =>
      parent', turn' := RelaySpoken(storage, codec, parse, |first|, branch, tree, parent', turn', raw);
    case RawAssistant(_) =>
      parent', turn' := RelaySpoken(storage, codec, parse, |first|, branch, tree, parent', turn', raw);
    case _ =>
      parent', turn' := RelayQuiet(storage, codec, parse, |first|, branch, tree, parent', turn', raw);
  }

  /** A node under the turn that the caller is not shown. */
  method Keep(
      storage: ClaudeCodeStorage, codec: Codec, ghost branch: Branch, tree: Id, parent: Id, turn: Relay,
      e: NodeEvent)
    returns (parent': Id, turn': Relay)
    requires branch.tree == tree && branch.Holds(codec, storage.arbor.State(), turn.nodes, parent)
    modifies storage.arbor
    ensures turn' == turn.Note(e) && branch.Holds(codec, storage.arbor.State(), turn'.nodes, parent')
  {
    parent' := AddNode(storage, codec, branch, tree, parent, turn.nodes, e);
    turn' := turn.(nodes := turn.nodes + [e]);
  }

  /** Put an unknown event aside; its handle is its number. */
  method FileUnknown(
      storage: ClaudeCodeStorage, session: int, ghost first: seq<(int, string, JsonValue)>,
      ghost unknown: seq<(string, JsonValue)>, eventType: string, data: JsonValue)
    returns (handle: Option<int>)
    requires session in storage.sessions && storage.unknown == first + Filed(session, unknown)
    modifies storage`unknown
    ensures handle == Some(|first| + |unknown|)
    ensures storage.unknown == first + Filed(session, unknown + [(eventType, data)])
  {
    FiledSnoc(session, first, unknown, (eventType, data));
    handle := storage.UnknownEventStore(session, eventType, data);
  }

  method PassThrough(
      storage: ClaudeCodeStorage, session: int, ghost first: seq<(int, string, JsonValue)>, turn: Relay,
      eventType: string, data: JsonValue)
    returns (turn': Relay)
    requires session in storage.sessions && storage.unknown == first + Filed(session, turn.unknown)
    modifies storage`unknown
    ensures turn' == turn.(events := turn.events + [Passthrough(eventType, Some(|first| + |turn.unknown|), data)],
                           unknown := turn.unknown + [(eventType, data)])
    ensures storage.unknown == first + Filed(session, turn'.unknown)
  {
    var handle := FileUnknown(storage, session, first, turn.unknown, eventType, data);
    turn' := turn.(events := turn.events + [Passthrough(eventType, handle, data)],
      unknown := turn.unknown + [(eventType, data)]);
  }

  lemma {:induction false} BlocksKeepUnknown(turn: Relay, blocks: seq<RawBlock>)
    ensures OnBlocks(turn, blocks).unknown == turn.unknown
  {
    if blocks != [] {
      BlocksKeepUnknown(turn, blocks[..|blocks| - 1]);
    }
  }

  lemma {:induction false} FiledSnoc(
      session: int, first: seq<(int, string, JsonValue)>, unknown: seq<(string, JsonValue)>,
      e: (string, JsonValue))
    ensures first + Filed(session, unknown + [e]) == (first + Filed(session, unknown)) + [(session, e.0, e.1)]
  {
    assert (unknown + [e])[..|unknown|] == unknown;
  }

  // ----------------------------------------------------------- the whole chat

  /** Steps 2 and 3: the user's message, its node, and the two opening events. */
  method OpenTurn(storage: ClaudeCodeStorage, codec: Codec, config: Config, prompt: string, ephemeral: bool)
    returns (r: Result<(Id, Id), Reason>)
    requires storage.arbor.State().Valid() && config.session.head < storage.arbor.next
    modifies storage`messages, storage.arbor
    ensures config.id !in storage.sessions ==> r == Err(DatabaseError) && storage.State() == old(storage.State())
    ensures config.id in storage.sessions ==>
      var (begun, made) := Opened(old(storage.State()), config, prompt, ephemeral);
      match made
      case Err(e) => r == Err(ArborRefused(e)) && storage.State() == begun
      case Ok(user) =>
        && r.Ok? && r.value.0 == user && storage.messages == begun.messages && begun.arbor.Valid()
        && Branch(begun.arbor, config.session.tree, user, Opening(prompt)).Holds(codec, storage.arbor.State(), [],
          r.value.1)
  {
    var stored := storage.MessageCreate(config.id, User, prompt, None, ephemeral);
    if stored.None? {
      return Err(DatabaseError);
    }
    var entry := MessageEntry(stored.value, "user", ephemeral);
    var tree := config.session.tree;
    var made := storage.arbor.NodeCreate(tree, Some(config.session.head), entry.data, entry.state);
    match made {
      case Err(e) => return Err(ArborRefused(e));
      case Ok(user) =>
        ghost var base: ValidDb := storage.arbor.State();
        var parent := StartLog(storage, codec, base, tree, user, prompt);
        r := Ok((user, parent));
    }
  }

  method StartLog(storage: ClaudeCodeStorage, codec: Codec, ghost base: ValidDb, tree: Id, user: Id, prompt: string)
    returns (parent: Id)
    requires storage.arbor.State() == base && tree in base.trees && user in base.nodes
    modifies storage.arbor
    ensures Branch(base, tree, user, Opening(prompt)).Holds(codec, storage.arbor.State(), [], parent)
  {
    ghost var branch := Branch(base, tree, user, []);
    parent := AddNode(storage, codec, branch, tree, user, [], UserMessage(prompt));
    parent := AddNode(storage, codec, branch, tree, parent, [UserMessage(prompt)], AssistantStart);
    assert [] + ([UserMessage(prompt)] + [AssistantStart]) == Opening(prompt) + [];
  }

  /** Step 6: the raw events, until the last one or the first reported error. */
  method RelayAll(
      storage: ClaudeCodeStorage, codec: Codec, parse: JsonParser, config: Config, ghost branch: Branch,
      start: Id, raws: seq<RawEvent>)
    returns (parent: Id, turn: Relay)
    requires branch.tree == config.session.tree && branch.Holds(codec, storage.arbor.State(), [], start)
    requires config.id in storage.sessions
    modifies storage.arbor, storage`unknown
    ensures turn == OnAll(parse, |old(storage.unknown)|, Launched(config.session.claudeId), raws)
    ensures branch.Holds(codec, storage.arbor.State(), turn.nodes, parent)
    ensures storage.unknown == old(storage.unknown) + Filed(config.id, turn.unknown)
  {
    parent, turn := start, Launched(config.session.claudeId);
    ghost var first := storage.unknown;
    for k := 0 to |raws|
      invariant turn == OnAll(parse, |first|, Launched(config.session.claudeId), raws[..k]) && turn.error.None?
      invariant branch.Holds(codec, storage.arbor.State(), turn.nodes, parent)
      invariant storage.unknown == first + Filed(config.id, turn.unknown)
    {
      assert raws[..k + 1][..k] == raws[..k];
      parent, turn := RelayRaw(storage, codec, parse, config.id, first, branch, config.session.tree, parent, turn,
        raws[k]);
      if turn.error.Some? {
        RelayStops(parse, |first|, Launched(config.session.claudeId), raws, k + 1);
        return;
      }
    }
    assert raws[..|raws|] == raws;
  }

  lemma {:induction false} RelayStops(parse: JsonParser, first: int, s: Relay, raws: seq<RawEvent>, k: nat)
    requires k <= |raws| && OnAll(parse, first, s, raws[..k]).error.Some?
    ensures OnAll(parse, first, s, raws) == OnAll(parse, first, s, raws[..k])
    decreases |raws| - k
  {
    if k == |raws| {
      assert raws[..k] == raws;
    } else {
      assert raws[..k + 1][..k] == raws[..k];
      RelayStops(parse, first, s, raws, k + 1);
    }
  }

  /** Steps 7 and 8: the reply, its completion event and its node. */
  method StoreReply(
      storage: ClaudeCodeStorage, codec: Codec, config: Config, ephemeral: bool, ghost branch: Branch,
      ghost prompt: string, parent: Id, response: string, cost: Option<real>, ghost nodes: seq<NodeEvent>)
    returns (head: Id)
    requires branch.tree == config.session.tree && branch.opening == Opening(prompt)
    requires branch.Holds(codec, storage.arbor.State(), nodes, parent)
    requires config.id in storage.sessions
    modifies storage`messages, storage.arbor
    ensures storage.messages == old(storage.messages) + [StoredMessage(config.id, Assistant, response, cost, ephemeral)]
    ensures var entries := EntriesOf(codec, Opening(prompt) + nodes + [AssistantComplete])
                           + [MessageEntry(|old(storage.messages)|, "assistant", ephemeral)];
            && storage.arbor.State() == AppendChain(branch.base, branch.tree, branch.top, entries)
            && head == ChainEnd(branch.base.next, branch.top, |entries|)
  {
    var stored := storage.MessageCreate(config.id, Assistant, response, cost, ephemeral);
    var end := AddNode(storage, codec, branch, config.session.tree, parent, nodes, AssistantComplete);
    ghost var log := Opening(prompt) + nodes + [AssistantComplete];
    AppendAssoc(Opening(prompt), nodes, [AssistantComplete]);
    var entry := MessageEntry(stored.value, "assistant", ephemeral);
    var made := AppendEntry(storage.arbor, branch.base, config.session.tree, branch.top, EntriesOf(codec, log), end,
      entry);
    head := made.value;
  }

  /** Steps 7 to 9, with the new head. */
  method CloseTurn(
      storage: ClaudeCodeStorage, codec: Codec, config: Config, ephemeral: bool, ghost branch: Branch,
      ghost prompt: string, parent: Id, turn: Relay)
    returns (shown: seq<ChatEvent>)
    requires branch.tree == config.session.tree && branch.opening == Opening(prompt)
    requires branch.Holds(codec, storage.arbor.State(), turn.nodes, parent)
    requires config.id in storage.sessions
    modifies storage`messages, storage`sessions, storage.arbor
    ensures var r := Closed(codec, branch.base, old(storage.State()), config, prompt, ephemeral, branch.top, turn);
            storage.State() == r.db && shown == r.events
  {
    var head := StoreReply(
      storage, codec, config, ephemeral, branch, prompt, parent, turn.response, turn.cost, turn.nodes);
    if !ephemeral {
      var updated := storage.SessionUpdateHead(config.id, head, turn.claudeId);
    }
    shown := [Complete(Position(config.session.tree, if ephemeral then config.session.head else head),
                       if turn.claudeId.Some? then turn.claudeId.value else "", turn.cost, turn.turns)];
  }

  /** chat_stream_for_config. */
  method ChatStream(
      storage: ClaudeCodeStorage, codec: Codec, parse: JsonParser, config: Config, prompt: string,
      ephemeral: bool, raws: seq<RawEvent>)
    returns (yielded: seq<ChatEvent>)
    requires storage.arbor.State().Valid() && config.session.head < storage.arbor.next
    modifies storage, storage.arbor
    ensures var r := Chatted(codec, parse, old(storage.State()), config, prompt, ephemeral, raws, false);
            storage.State() == r.db && yielded == r.events
  {
    var begun := OpenTurn(storage, codec, config, prompt, ephemeral);
    match begun {
      case Err(e) => return [Failure(e)];
      case Ok((user, start)) =>
        ghost var at := Opened(old(storage.State()), config, prompt, ephemeral).0;
        yielded := StreamOpened(storage, codec, parse, config, prompt, ephemeral, raws, at, user, start);
    }
  }

  /** Steps 4 to 10: the user's node and the two opening events are there. */
  method StreamOpened(
      storage: ClaudeCodeStorage, codec: Codec, parse: JsonParser, config: Config, ghost prompt: string,
      ephemeral: bool, raws: seq<RawEvent>, ghost at: ChatDb, user: Id, start: Id)
    returns (yielded: seq<ChatEvent>)
    requires config.id in storage.sessions && at.arbor.Valid()
    requires Branch(at.arbor, config.session.tree, user, Opening(prompt)).Holds(codec, storage.arbor.State(), [], start)
    requires at == storage.State().(arbor := at.arbor)
    modifies storage, storage.arbor
    ensures var turn := OnAll(parse, |at.unknown|, Launched(config.session.claudeId), raws);
            var relayed := Relayed(codec, at, config, prompt, user, turn);
            var r := Finished(codec, at.arbor, relayed, config, prompt, ephemeral, user, turn, false);
            && storage.State() == r.db
            && yielded == [Start(config.id, Position(config.session.tree, user))] + turn.events + r.events
  {
    ghost var branch := Branch(at.arbor, config.session.tree, user, Opening(prompt));
    yielded := [Start(config.id, Position(config.session.tree, user))];
    var parent, turn := RelayAll(storage, codec, parse, config, branch, start, raws);
    yielded := yielded + turn.events;
    assert storage.State() == Relayed(codec, at, config, prompt, user, turn);
    var last := FinishStream(storage, codec, config, ephemeral, branch, prompt, parent, turn);
    yielded := yielded + last;
  }

  /** The streamed chat after the last raw event. */
  method FinishStream(
      storage: ClaudeCodeStorage, codec: Codec, config: Config, ephemeral: bool, ghost branch: Branch,
      ghost prompt: string, parent: Id, turn: Relay)
    returns (shown: seq<ChatEvent>)
    requires branch.tree == config.session.tree && branch.opening == Opening(prompt)
    requires branch.Holds(codec, storage.arbor.State(), turn.nodes, parent)
    requires config.id in storage.sessions
    modifies storage`messages, storage`sessions, storage.arbor
    ensures var r := Finished(codec, branch.base, old(storage.State()), config, prompt, ephemeral, branch.top, turn,
      false);
            storage.State() == r.db && shown == r.events
  {
    if turn.error.Some? {
      return [Failure(ClaudeError(turn.error.value))];
    }
    if turn.claudeId.Some? && config.session.claudeId != turn.claudeId {
      storage.SessionUpdateClaudeId(config.id, turn.claudeId.value);
    }
    if turn.response == "" && turn.claudeId.None? {
      return [Failure(NoResponse)];
    }
    shown := CloseTurn(storage, codec, config, ephemeral, branch, prompt, parent, turn);
  }
}
