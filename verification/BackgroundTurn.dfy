// The background task's own loop (src/activations/claudecode/activation.rs:1353-1572)
// and its endings, written out node by node, status by status and push by push; and
// the proof that it does what the streamed chat does.
module BackgroundTurn {
  import opened Prelude
  import opened Arbor
  import opened Chain
  import opened Chat
  import opened ChatStore
  import opened ChatTypes
  import opened Conversation
  import opened EventLog
  import opened Streams

  const PERMIT := "mcp__plexus__loopback_permit"

  /** The task's variables, the nodes it appended, the unknown events it put aside,
      what it did to its stream, in order, and the error that stopped it. */
  datatype Task = Task(
    response: string, claudeId: Option<string>, cost: Option<real>, turns: Option<int>,
    toolId: Option<string>, toolName: Option<string>, toolInput: string,
    nodes: seq<NodeEvent>, unknown: seq<(string, JsonValue)>, ops: seq<StreamOp>, failed: Option<string>)
  {
    function Node(e: NodeEvent): Task {
      this.(nodes := nodes + [e])
    }

    function Did(op: StreamOp): Task {
      this.(ops := ops + [op])
    }

    function Told(sid: Option<string>): Task {
      if sid.Some? then this.(claudeId := sid) else this
    }
  }

  function NewTask(claudeId: Option<string>): Task {
    Task("", claudeId, None, None, None, None, "", [], [], [], None)
  }

  /** A permission request makes the stream wait before its node is there. */
  function TaskPart(parse: JsonParser, t: Task, part: StreamPart): Task {
    match part
    case TextDelta(text) => t.(response := t.response + text).Node(ContentText(text)).Did(Pushes(Content(text)))
    case InputJsonDelta(partial) => t.(toolInput := t.toolInput + partial)
    case ToolUseStart(i, n) => t.(toolId := Some(i), toolName := Some(n), toolInput := "")
    case BlockStop =>
      var taken := t.(toolId := None, toolName := None);
      if t.toolId.Some? && t.toolName.Some? then
        var i, n, input := t.toolId.value, t.toolName.value, ParsedInput(parse, t.toolInput);
        var waiting := if n == PERMIT then taken.Did(Sets(AwaitingPermission, None)) else taken;
        waiting.Node(ContentToolUse(i, n, input)).Did(Pushes(ToolUse(n, i, input))).(toolInput := "")
      else taken
    case OtherPart => t
  }

  /** A tool result makes the stream run again before its node is there. */
  function TaskBlock(t: Task, b: RawBlock): Task {
    match b
    case RawText(text) =>
      if t.response == "" then t.(response := text).Node(ContentText(text)).Did(Pushes(Content(text))) else t
    case RawToolUse(i, n, input) => t.Node(ContentToolUse(i, n, input)).Did(Pushes(ToolUse(n, i, input)))
    case RawToolResult(i, output, isError) =>
      var text, bad := if output.Some? then output.value else "", isError.Some? && isError.value;
      t.Did(Sets(Running, None)).Node(UserToolResult(i, text, bad)).Did(Pushes(ToolResult(i, text, bad)))
    case RawThinking(text) => t.Node(ContentThinking(text)).Did(Pushes(Thinking(text)))
  }

  function TaskBlocks(t: Task, blocks: seq<RawBlock>): Task {
    if blocks == [] then t else TaskBlock(TaskBlocks(t, blocks[..|blocks| - 1]), blocks[|blocks| - 1])
  }

  /** The chat fails: the error is pushed, then recorded. */
  function Fails(reason: Reason): seq<StreamOp> {
    [Pushes(Failure(reason)), Sets(Failed, Some(reason))]
  }

  function TaskRaw(parse: JsonParser, first: int, t: Task, raw: RawEvent): Task {
    match raw
    case RawSystem(sid) => t.Told(sid)
    case RawStream(part, sid) => TaskPart(parse, t.Told(sid), part)
    case RawAssistant(content) => if content.Some? then TaskBlocks(t, content.value) else t
    case RawUser => t
    case RawResult(sid, cost, turns, failed, error) =>
      var told := t.Told(sid).(cost := cost, turns := turns);
      if failed == Some(true) && error.Some? then
        told.(ops := told.ops + Fails(ClaudeError(error.value)), failed := error)
      else told
    case RawUnknown(k, data) =>
      t.(unknown := t.unknown + [(k, data)]).Did(Pushes(Passthrough(k, Some(first + |t.unknown|), data)))
    case RawLaunch(c) => t.Node(LaunchCommand(c))
    case RawStderr(text) => t.Node(ClaudeStderr(text))
  }

  /** The loop returns at the first reported error. */
  function TaskAll(parse: JsonParser, first: int, t: Task, raws: seq<RawEvent>): Task {
    if raws == [] then t
    else
      var before := TaskAll(parse, first, t, raws[..|raws| - 1]);
      if before.failed.Some? then before else TaskRaw(parse, first, before, raws[|raws| - 1])
  }

  // --------------------------------------------------------- the whole background chat

  /** The store it leaves and what it did to its stream. */
  datatype Background = Background(db: ChatDb, ops: seq<StreamOp>)

  function Kept(codec: Codec, db: ChatDb, config: Config, prompt: string, user: Id, t: Task): ChatDb {
    db.(arbor := AppendChain(db.arbor, config.session.tree, user, EntriesOf(codec, Opening(prompt) + t.nodes)),
        unknown := db.unknown + Filed(config.id, t.unknown))
  }

  /** Steps 6 to 9: the reply's message, its completion node and its node, then the
      head unless the chat is ephemeral, then the last push and the status. */
  function Replied(
      codec: Codec, base: Db, db: ChatDb, config: Config, prompt: string, ephemeral: bool, user: Id,
      t: Task): Background
    requires config.id in db.sessions
  {
    var entries := EntriesOf(codec, Opening(prompt) + t.nodes + [AssistantComplete])
                   + [MessageEntry(|db.messages|, "assistant", ephemeral)];
    var head := ChainEnd(base.next, user, |entries|);
    var row := db.sessions[config.id];
    var id := if t.claudeId.Some? then t.claudeId else row.claudeId;
    var at := if ephemeral then config.session.head else head;
    Background(
      db.(arbor := AppendChain(base, config.session.tree, user, entries),
          messages := db.messages + [StoredMessage(config.id, Assistant, t.response, t.cost, ephemeral)],
          sessions := if ephemeral then db.sessions else db.sessions[config.id := row.(head := head, claudeId := id)]),
      [Pushes(Complete(Position(config.session.tree, at), if t.claudeId.Some? then t.claudeId.value else "", t.cost,
        t.turns)),
       Sets(Completed, None)])
  }

  function Opens(config: Config, user: Id): seq<StreamOp> {
    var position := Position(config.session.tree, user);
    [Places(position), Pushes(Start(config.id, position))]
  }

  function RunInBackground(
      codec: Codec, parse: JsonParser, db: ChatDb, config: Config, prompt: string, ephemeral: bool,
      raws: seq<RawEvent>): Background {
    if config.id !in db.sessions then Background(db, Fails(DatabaseError))
    else
      var (begun, made) := Opened(db, config, prompt, ephemeral);
      match made
      case Err(e) => Background(begun, Fails(ArborRefused(e)))
      case Ok(user) =>
        var t := TaskAll(parse, |db.unknown|, NewTask(config.session.claudeId), raws);
        var ended := Ending(codec, begun.arbor, Kept(codec, begun, config, prompt, user, t), config, prompt,
          ephemeral, user, t);
        ended.(ops := Opens(config, user) + t.ops + ended.ops)
  }

  /** A failed task has already told its stream. */
  function Ending(
      codec: Codec, base: Db, kept: ChatDb, config: Config, prompt: string, ephemeral: bool, user: Id,
      t: Task): Background
    requires config.id in kept.sessions
  {
    if t.failed.Some? then Background(kept, []) else Replied(codec, base, kept, config, prompt, ephemeral, user, t)
  }

  // ----------------------------------------------------- it is the streamed chat's loop

  /** What the streamed loop ends with when it stops at an error. */
  function Stopped(error: Option<string>): seq<ChatEvent> {
    if error.Some? then [Failure(ClaudeError(error.value))] else []
  }

  /** The two loops have the same variables and nodes, and the one has pushed what
      the other has yielded. */
  ghost predicate Mirrors(t: Task, s: Relay) {
    && t.response == s.response && t.claudeId == s.claudeId && t.cost == s.cost && t.turns == s.turns
    && t.toolId == s.toolId && t.toolName == s.toolName && t.toolInput == s.toolInput
    && t.nodes == s.nodes && t.unknown == s.unknown && t.failed == s.error
    && PushedBy(t.ops) == s.events + Stopped(s.error)
    && (s.error.Some? ==> t.ops != [] && t.ops[|t.ops| - 1] == Sets(Failed, Some(ClaudeError(s.error.value))))
  }

  lemma {:induction false} OneMoreOp(ops: seq<StreamOp>, op: StreamOp)
    ensures PushedBy(ops + [op]) == PushedBy(ops) + (match op case Pushes(e) => [e] case _ => [])
  {
    assert (ops + [op])[..|ops|] == ops;
  }

  lemma {:induction false} PushedAppend(ops: seq<StreamOp>, more: seq<StreamOp>)
    ensures PushedBy(ops + more) == PushedBy(ops) + PushedBy(more)
  {
    if more == [] {
      assert ops + more == ops;
    } else {
      var front, op := more[..|more| - 1], more[|more| - 1];
      assert ops + more == ops + front + [op];
      OneMoreOp(ops + front, op);
      PushedAppend(ops, front);
    }
  }

  /** A node and a push in the one, a node and a yield in the other. */
  lemma {:induction false} BothTell(t: Task, s: Relay, e: NodeEvent)
    requires Mirrors(t, s) && s.error.None?
    requires e.ContentText? || e.ContentToolUse? || e.ContentThinking? || e.UserToolResult?
    ensures Mirrors(t.Node(e).Did(Pushes(Shown(e))), s.Tell(e))
  {
    OneMoreOp(t.ops, Pushes(Shown(e)));
    assert s.events + [] == s.events;
  }

  lemma {:induction false} StatusUnseen(t: Task, s: Relay, status: StreamStatus)
    requires Mirrors(t, s) && s.error.None?
    ensures Mirrors(t.Did(Sets(status, None)), s)
  {
    OneMoreOp(t.ops, Sets(status, None));
  }

  lemma {:induction false} PartMirrored(parse: JsonParser, t: Task, s: Relay, part: StreamPart)
    requires Mirrors(t, s) && s.error.None?
    ensures Mirrors(TaskPart(parse, t, part), OnPart(parse, s, part))
  {
    match part
    case TextDelta(text) => BothTell(t.(response := t.response + text), s.(response := s.response + text),
      ContentText(text));
    case BlockStop =>
      if t.toolId.Some? && t.toolName.Some? {
        StopMirrored(parse, t, s);
      }
    case _ =>
  }

  lemma {:induction false} StopMirrored(parse: JsonParser, t: Task, s: Relay)
    requires Mirrors(t, s) && s.error.None? && t.toolId.Some? && t.toolName.Some?
    ensures Mirrors(TaskPart(parse, t, BlockStop), OnPart(parse, s, BlockStop))
  {
    var taken := t.(toolId := None, toolName := None, toolInput := "");
    var cleared := s.(toolId := None, toolName := None, toolInput := "");
    var e := ContentToolUse(t.toolId.value, t.toolName.value, ParsedInput(parse, t.toolInput));
    if t.toolName.value == PERMIT {
      StatusUnseen(taken, cleared, AwaitingPermission);
      BothTell(taken.Did(Sets(AwaitingPermission, None)), cleared, e);
    } else {
      BothTell(taken, cleared, e);
    }
  }

  lemma {:induction false} BlockMirrored(t: Task, s: Relay, b: RawBlock)
    requires Mirrors(t, s) && s.error.None?
    ensures Mirrors(TaskBlock(t, b), OnBlock(s, b)) && OnBlock(s, b).error.None?
  {
    match b
    case RawText(text) =>
      if t.response == "" {
        BothTell(t.(response := text), s.(response := text), ContentText(text));
      }
    case RawToolUse(i, n, input) => BothTell(t, s, ContentToolUse(i, n, input));
    case RawToolResult(i, o, x) =>
      StatusUnseen(t, s, Running);
      BothTell(t.Did(Sets(Running, None)), s, UserToolResult(i, if o.Some? then o.value else "", x.Some? && x.value));
    case RawThinking(text) => BothTell(t, s, ContentThinking(text));
  }

  lemma {:induction false} BlocksMirrored(t: Task, s: Relay, blocks: seq<RawBlock>)
    requires Mirrors(t, s) && s.error.None?
    ensures Mirrors(TaskBlocks(t, blocks), OnBlocks(s, blocks)) && OnBlocks(s, blocks).error.None?
  {
    if blocks != [] {
      var front := blocks[..|blocks| - 1];
      BlocksMirrored(t, s, front);
      BlockMirrored(TaskBlocks(t, front), OnBlocks(s, front), blocks[|blocks| - 1]);
    }
  }

  lemma {:induction false} RawMirrored(parse: JsonParser, first: int, t: Task, s: Relay, raw: RawEvent)
    requires Mirrors(t, s) && s.error.None?
    ensures Mirrors(TaskRaw(parse, first, t, raw), OnRaw(parse, first, s, raw))
  {
    assert s.events + [] == s.events;
    match raw
    case RawStream(part, sid) => PartMirrored(parse, t.Told(sid), s.Heard(sid), part);
    case RawAssistant(content) =>
      if content.Some? {
        BlocksMirrored(t, s, content.value);
      }
    case RawResult(_, _, _, failed, error) =>
      if failed == Some(true) && error.Some? {
        FailsPushed(t.ops, ClaudeError(error.value));
      }
    case RawUnknown(k, data) => OneMoreOp(t.ops, Pushes(Passthrough(k, Some(first + |t.unknown|), data)));
    case _ =>
  }

  lemma {:induction false} FailsPushed(ops: seq<StreamOp>, reason: Reason)
    ensures PushedBy(ops + Fails(reason)) == PushedBy(ops) + [Failure(reason)]
  {
    OneMoreOp(ops, Pushes(Failure(reason)));
    OneMoreOp(ops + [Pushes(Failure(reason))], Sets(Failed, Some(reason)));
    assert ops + Fails(reason) == ops + [Pushes(Failure(reason))] + [Sets(Failed, Some(reason))];
  }

  /** For every sequence of raw events the two loops keep step: the same nodes, the
      same reply, the same events put aside; what the one has pushed is what the
      other has yielded, and the same error stops both. */
  lemma {:induction false} LoopsKeepStep(parse: JsonParser, first: int, claudeId: Option<string>, raws: seq<RawEvent>)
    ensures Mirrors(TaskAll(parse, first, NewTask(claudeId), raws), OnAll(parse, first, Launched(claudeId), raws))
  {
    if raws != [] {
      var front := raws[..|raws| - 1];
      LoopsKeepStep(parse, first, claudeId, front);
      var s := OnAll(parse, first, Launched(claudeId), front);
      if s.error.None? {
        RawMirrored(parse, first, TaskAll(parse, first, NewTask(claudeId), front), s, raws[|raws| - 1]);
      }
    }
  }

  // -------------------------------------------------------------- and the whole chat

  /** The last thing done to the stream tells how the chat ended: completed, or
      failed for the reason that the last event gives. */
  ghost predicate EndsAs(ops: seq<StreamOp>, r: ChatResult) {
    && ops != [] && r.events != []
    && var last := r.events[|r.events| - 1];
       if r.completed then last.Complete? && ops[|ops| - 1] == Sets(Completed, None)
       else last.Failure? && ops[|ops| - 1] == Sets(Failed, Some(last.reason))
  }

  lemma {:induction false} EndingAlike(
      codec: Codec, base: Db, kept: ChatDb, config: Config, prompt: string, ephemeral: bool, user: Id, t: Task,
      s: Relay)
    requires config.id in kept.sessions && Mirrors(t, s)
    ensures var b := Ending(codec, base, kept, config, prompt, ephemeral, user, t);
            var r := Finished(codec, base, kept, config, prompt, ephemeral, user, s, true);
            && b.db == r.db && PushedBy(t.ops + b.ops) == s.events + r.events
            && EndsAs(t.ops + b.ops, r)
  {
    if t.failed.None? {
      var b := Replied(codec, base, kept, config, prompt, ephemeral, user, t);
      CompletePushed(t.ops, b.ops[0].event);
      assert s.events + [] == s.events;
    } else {
      assert t.ops + [] == t.ops;
    }
  }

  lemma {:induction false} CompletePushed(ops: seq<StreamOp>, last: ChatEvent)
    ensures PushedBy(ops + [Pushes(last), Sets(Completed, None)]) == PushedBy(ops) + [last]
    ensures var all := ops + [Pushes(last), Sets(Completed, None)]; all[|all| - 1] == Sets(Completed, None)
  {
    OneMoreOp(ops, Pushes(last));
    OneMoreOp(ops + [Pushes(last)], Sets(Completed, None));
    assert ops + [Pushes(last), Sets(Completed, None)] == ops + [Pushes(last)] + [Sets(Completed, None)];
  }

  lemma {:induction false} OpensPushed(config: Config, user: Id, ops: seq<StreamOp>)
    ensures PushedBy(Opens(config, user) + ops) == [Start(config.id, Position(config.session.tree, user))]
      + PushedBy(ops)
  {
    var opens := Opens(config, user);
    PushedAppend(opens, ops);
    OneMoreOp([], opens[0]);
    OneMoreOp([opens[0]], opens[1]);
    assert [] + [opens[0]] == [opens[0]] && [opens[0]] + [opens[1]] == opens;
  }

  /** The whole background chat, event by event, leaves the store, pushes the
      events and ends the stream as its summary says. */
  lemma {:induction false} BackgroundSummary(
      codec: Codec, parse: JsonParser, db: ChatDb, config: Config, prompt: string, ephemeral: bool,
      raws: seq<RawEvent>)
    ensures var b := RunInBackground(codec, parse, db, config, prompt, ephemeral, raws);
            var r := Chatted(codec, parse, db, config, prompt, ephemeral, raws, true);
            b.db == r.db && PushedBy(b.ops) == r.events && EndsAs(b.ops, r)
  {
    FailsPushed([], DatabaseError);
    assert [] + Fails(DatabaseError) == Fails(DatabaseError);
    if config.id in db.sessions {
      var (begun, made) := Opened(db, config, prompt, ephemeral);
      match made {
        case Err(e) =>
          FailsPushed([], ArborRefused(e));
          assert [] + Fails(ArborRefused(e)) == Fails(ArborRefused(e));
        case Ok(user) =>
          OpenedSummary(codec, parse, db, config, prompt, ephemeral, raws, begun, user);
      }
    }
  }

  lemma {:induction false} OpenedSummary(
      codec: Codec, parse: JsonParser, db: ChatDb, config: Config, prompt: string, ephemeral: bool,
      raws: seq<RawEvent>, begun: ChatDb, user: Id)
    requires config.id in db.sessions && Opened(db, config, prompt, ephemeral) == (begun, Ok(user))
    ensures var b := RunInBackground(codec, parse, db, config, prompt, ephemeral, raws);
            var r := Chatted(codec, parse, db, config, prompt, ephemeral, raws, true);
            b.db == r.db && PushedBy(b.ops) == r.events && EndsAs(b.ops, r)
  {
    var t := TaskAll(parse, |db.unknown|, NewTask(config.session.claudeId), raws);
    var s := OnAll(parse, |db.unknown|, Launched(config.session.claudeId), raws);
    LoopsKeepStep(parse, |db.unknown|, config.session.claudeId, raws);
    var kept := Kept(codec, begun, config, prompt, user, t);
    EndingAlike(codec, begun.arbor, kept, config, prompt, ephemeral, user, t, s);
    var ended := Ending(codec, begun.arbor, kept, config, prompt, ephemeral, user, t);
    var finished := Finished(codec, begun.arbor, kept, config, prompt, ephemeral, user, s, true);
    OpensPushed(config, user, t.ops + ended.ops);
    AppendAssoc(Opens(config, user), t.ops, ended.ops);
    AppendAssoc([Start(config.id, Position(config.session.tree, user))], s.events, finished.events);
  }

  // ------------------------------------------------------ the final status comes last

  predicate Final(status: StreamStatus) {
    status == Completed || status == Failed
  }

  /** No final status among these operations. */
  predicate Unended(ops: seq<StreamOp>) {
    forall op | op in ops :: op.Sets? ==> !Final(op.status)
  }

  /** None, but as the last operation of a task that failed. */
  ghost predicate EndsLast(t: Task) {
    if t.failed.None? then Unended(t.ops) else t.ops != [] && Unended(t.ops[..|t.ops| - 1])
  }

  lemma {:induction false} BlocksUnended(t: Task, blocks: seq<RawBlock>)
    requires Unended(t.ops)
    ensures Unended(TaskBlocks(t, blocks).ops) && TaskBlocks(t, blocks).failed == t.failed
  {
    if blocks != [] {
      BlocksUnended(t, blocks[..|blocks| - 1]);
    }
  }

  lemma {:induction false} PartUnended(parse: JsonParser, t: Task, part: StreamPart)
    requires Unended(t.ops)
    ensures Unended(TaskPart(parse, t, part).ops) && TaskPart(parse, t, part).failed == t.failed
  {
  }

  lemma {:induction false} RawEndsLast(parse: JsonParser, first: int, t: Task, raw: RawEvent)
    requires t.failed.None? && Unended(t.ops)
    ensures EndsLast(TaskRaw(parse, first, t, raw))
  {
    match raw
    case RawStream(part, sid) => PartUnended(parse, t.Told(sid), part);
    case RawAssistant(content) =>
      if content.Some? {
        BlocksUnended(t, content.value);
      }
    case RawResult(_, _, _, failed, error) =>
      if failed == Some(true) && error.Some? {
        var all := t.ops + Fails(ClaudeError(error.value));
        assert all[..|all| - 1] == t.ops + [Pushes(Failure(ClaudeError(error.value)))];
      }
    case _ =>
  }

  lemma {:induction false} TaskEndsLast(parse: JsonParser, first: int, claudeId: Option<string>, raws: seq<RawEvent>)
    ensures EndsLast(TaskAll(parse, first, NewTask(claudeId), raws))
  {
    if raws != [] {
      var front := raws[..|raws| - 1];
      TaskEndsLast(parse, first, claudeId, front);
      var before := TaskAll(parse, first, NewTask(claudeId), front);
      if before.failed.None? {
        RawEndsLast(parse, first, before, raws[|raws| - 1]);
      }
    }
  }

  /** Whatever happens, the one final status is the last thing the stream is told. */
  lemma {:induction false} FinalStatusLast(
      codec: Codec, parse: JsonParser, db: ChatDb, config: Config, prompt: string, ephemeral: bool,
      raws: seq<RawEvent>)
    ensures var ops := RunInBackground(codec, parse, db, config, prompt, ephemeral, raws).ops;
            ops != [] && ops[|ops| - 1].Sets? && Final(ops[|ops| - 1].status) && Unended(ops[..|ops| - 1])
  {
    if config.id in db.sessions && Opened(db, config, prompt, ephemeral).1.Ok? {
      var (begun, made) := Opened(db, config, prompt, ephemeral);
      var t := TaskAll(parse, |db.unknown|, NewTask(config.session.claudeId), raws);
      var s := OnAll(parse, |db.unknown|, Launched(config.session.claudeId), raws);
      TaskEndsLast(parse, |db.unknown|, config.session.claudeId, raws);
      LoopsKeepStep(parse, |db.unknown|, config.session.claudeId, raws);
      var ended := Ending(codec, begun.arbor, Kept(codec, begun, config, prompt, made.value, t), config, prompt,
        ephemeral, made.value, t);
      LastOfThree(Opens(config, made.value), t.ops, ended.ops);
    }
  }

  lemma {:induction false} LastOfThree(opens: seq<StreamOp>, ops: seq<StreamOp>, ended: seq<StreamOp>)
    requires Unended(opens)
    requires if ended == [] then ops != [] && Unended(ops[..|ops| - 1])
             else Unended(ops) && Unended(ended[..|ended| - 1])
    ensures var all := opens + ops + ended;
            && Unended(all[..|all| - 1])
            && all[|all| - 1] == if ended == [] then ops[|ops| - 1] else ended[|ended| - 1]
  {
    var all := opens + ops + ended;
    if ended == [] {
      assert all[..|all| - 1] == opens + ops[..|ops| - 1];
    } else {
      assert all[..|all| - 1] == opens + ops + ended[..|ended| - 1];
    }
  }
}
