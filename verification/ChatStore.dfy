// A chat against the store: chat_stream_for_config
// (src/activations/claudecode/activation.rs:170-581). `ChatDb` is the content of
// the session tables and of the Arbor store; `Chatted` says what one chat does to it.
module ChatStore {
  import opened Prelude
  import opened Arbor
  import opened Chain
  import opened Chat
  import opened ChatTypes
  import opened Conversation
  import opened EventLog

  datatype Session = Session(name: string, tree: Id, head: Id, claudeId: Option<string>)

  datatype StoredMessage = StoredMessage(session: int, role: Role, content: string, cost: Option<real>, ephemeral: bool)

  /** The session row as the caller resolved it before the chat. */
  datatype Config = Config(id: int, session: Session)

  datatype ChatDb = ChatDb(
    arbor: Db, sessions: map<int, Session>, messages: seq<StoredMessage>, unknown: seq<(int, string, JsonValue)>,
    nextSession: int)

  predicate NameTaken(sessions: map<int, Session>, name: string) {
    exists id | id in sessions :: sessions[id].name == name
  }

  /** Names are unique among sessions, and ids are below the next one. */
  ghost predicate SessionsValid(db: ChatDb) {
    && (forall id | id in db.sessions :: id < db.nextSession)
    && forall a, b | a in db.sessions && b in db.sessions && db.sessions[a].name == db.sessions[b].name :: a == b
  }

  /** session_create: a tree of its own, the root as head, and the given name or,
      if that is taken, the name with the session's id attached. When that is taken
      too the call fails, and its tree stays behind. */
  function SessionCreated(
      db: ChatDb, idText: int -> string, name: string, claudeId: Option<string>): (ChatDb, Result<int, Reason>) {
    var id, tree := db.nextSession, db.arbor.next;
    var made := db.(arbor := db.arbor.TreeCreate(None, idText(id)).0, nextSession := id + 1);
    var unique := if NameTaken(db.sessions, name) then name + "#" + idText(id) else name;
    if NameTaken(db.sessions, unique) then (made, Err(DatabaseError))
    else (made.(sessions := db.sessions[id := Session(unique, tree, tree + 1, claudeId)]), Ok(id))
  }

  lemma {:induction false} CreatedSessionsValid(
      db: ChatDb, idText: int -> string, name: string, claudeId: Option<string>)
    requires SessionsValid(db)
    ensures SessionsValid(SessionCreated(db, idText, name, claudeId).0)
  {
  }

  /** External nodes of an ephemeral chat are born scheduled for deletion. */
  function MessageEntry(message: int, role: string, ephemeral: bool): Entry {
    Entry(ExternalNode(Handle(message, role)), if ephemeral then ScheduledDelete else Active)
  }

  function Opening(prompt: string): seq<NodeEvent> {
    [UserMessage(prompt), AssistantStart]
  }

  function Filed(session: int, unknown: seq<(string, JsonValue)>): (r: seq<(int, string, JsonValue)>)
    ensures |r| == |unknown|
  {
    if unknown == [] then []
    else Filed(session, unknown[..|unknown| - 1]) + [(session, unknown[|unknown| - 1].0, unknown[|unknown| - 1].1)]
  }

  /** What one chat did: the store after it, the events shown, and whether it
      completed. */
  datatype ChatResult = ChatResult(db: ChatDb, events: seq<ChatEvent>, completed: bool)

  /** Is the reply empty from a process that never said who it is? */
  predicate Silent(turn: Relay) {
    turn.response == "" && turn.claudeId.None?
  }

  function NewSessionId(db: ChatDb, config: Config, turn: Relay): ChatDb {
    if turn.claudeId.Some? && config.session.claudeId != turn.claudeId && config.id in db.sessions then
      db.(sessions := db.sessions[config.id := db.sessions[config.id].(claudeId := turn.claudeId)])
    else db
  }

  /** The user's message and node are in place: what the process says is relayed. */
  function Relayed(codec: Codec, db: ChatDb, config: Config, prompt: string, user: Id, turn: Relay): ChatDb {
    db.(arbor := AppendChain(db.arbor, config.session.tree, user, EntriesOf(codec, Opening(prompt) + turn.nodes)),
        unknown := db.unknown + Filed(config.id, turn.unknown))
  }

  /** The assistant's message, its node and, unless ephemeral, the new head. */
  function Closed(
      codec: Codec, base: Db, db: ChatDb, config: Config, prompt: string, ephemeral: bool, user: Id,
      turn: Relay): ChatResult
    requires config.id in db.sessions
  {
    var said := StoredMessage(config.id, Assistant, turn.response, turn.cost, ephemeral);
    var log := Opening(prompt) + turn.nodes + [AssistantComplete];
    var entries := EntriesOf(codec, log) + [MessageEntry(|db.messages|, "assistant", ephemeral)];
    var head := ChainEnd(base.next, user, |entries|);
    var row := db.sessions[config.id];
    var moved := row.(head := head, claudeId := if turn.claudeId.Some? then turn.claudeId else row.claudeId);
    ChatResult(
      db.(arbor := AppendChain(base, config.session.tree, user, entries),
          messages := db.messages + [said],
          sessions := if ephemeral then db.sessions else db.sessions[config.id := moved]),
      [Complete(Position(config.session.tree, if ephemeral then config.session.head else head),
                if turn.claudeId.Some? then turn.claudeId.value else "", turn.cost, turn.turns)],
      true)
  }

  /** The user's message is stored and its node hangs from the head. */
  function Opened(db: ChatDb, config: Config, prompt: string, ephemeral: bool): (ChatDb, Result<Id, ArborError>) {
    var entry := MessageEntry(|db.messages|, "user", ephemeral);
    var made := db.arbor.NodeCreate(config.session.tree, Some(config.session.head), entry.data, entry.state);
    (db.(arbor := made.0, messages := db.messages + [StoredMessage(config.id, User, prompt, None, ephemeral)]), made.1)
  }

  /** What happens once the process has said everything. The streamed chat and
      the one in the background differ in two places: only the streamed chat
      records a new Claude session id before it stores the reply, and only it
      refuses a silent reply. */
  function Finished(
      codec: Codec, base: Db, relayed: ChatDb, config: Config, prompt: string, ephemeral: bool, user: Id,
      turn: Relay, background: bool): ChatResult
    requires config.id in relayed.sessions
  {
    if turn.error.Some? then ChatResult(relayed, [Failure(ClaudeError(turn.error.value))], false)
    else if background then Closed(codec, base, relayed, config, prompt, ephemeral, user, turn)
    else if Silent(turn) then ChatResult(relayed, [Failure(NoResponse)], false)
    else Closed(codec, base, NewSessionId(relayed, config, turn), config, prompt, ephemeral, user, turn)
  }

  /** One whole chat: streamed to the caller, or what the background task's own run
      is proved to come to. */
  function Chatted(
      codec: Codec, parse: JsonParser, db: ChatDb, config: Config, prompt: string, ephemeral: bool,
      raws: seq<RawEvent>, background: bool): ChatResult {
    if config.id !in db.sessions then ChatResult(db, [Failure(DatabaseError)], false)
    else
      var (begun, made) := Opened(db, config, prompt, ephemeral);
      match made
      case Err(e) => ChatResult(begun, [Failure(ArborRefused(e))], false)
      case Ok(user) =>
        var turn := OnAll(parse, |db.unknown|, Launched(config.session.claudeId), raws);
        var relayed := Relayed(codec, begun, config, prompt, user, turn);
        var finished := Finished(codec, begun.arbor, relayed, config, prompt, ephemeral, user, turn, background);
        finished.(events := [Start(config.id, Position(config.session.tree, user))] + turn.events + finished.events)
  }

  class ClaudeCodeStorage {
    const arbor: ArborStorage
    var sessions: map<int, Session>
    var messages: seq<StoredMessage>
    var unknown: seq<(int, string, JsonValue)>
    var nextSession: int

    ghost function State(): ChatDb
      reads this, arbor
    {
      ChatDb(arbor.State(), sessions, messages, unknown, nextSession)
    }

    constructor (arbor: ArborStorage)
      requires arbor.State().Valid()
      ensures this.arbor == arbor && State() == ChatDb(arbor.State(), map[], [], [], 0)
    {
      this.arbor := arbor;
      sessions, messages, unknown, nextSession := map[], [], [], 0;
    }

    method SessionCreate(idText: int -> string, name: string, claudeId: Option<string>) returns (r: Result<int, Reason>)
      requires arbor.State().Valid()
      modifies this`sessions, this`nextSession, arbor
      ensures (State(), r) == SessionCreated(old(State()), idText, name, claudeId)
      ensures arbor.State().Valid()
    {
      var id := nextSession;
      nextSession := nextSession + 1;
      var tree, root := NewSessionTree(idText(id));
      var unique := name;
      if NameTaken(sessions, name) {
        unique := name + "#" + idText(id);
      }
      if NameTaken(sessions, unique) {
        return Err(DatabaseError);
      }
      sessions := sessions[id := Session(unique, tree, root, claudeId)];
      r := Ok(id);
    }

    /** tree_create, then tree_get for the root. */
    method NewSessionTree(owner: string) returns (tree: Id, root: Id)
      requires arbor.State().Valid()
      modifies arbor
      ensures arbor.State() == old(arbor.State()).TreeCreate(None, owner).0 && arbor.State().Valid()
      ensures tree == old(arbor.next) && root == tree + 1
    {
      NewTree(arbor.State(), owner);
      var made := arbor.TreeCreateWithId(None, owner);
      tree := made.value;
      var read := arbor.TreeGet(tree, [arbor.next - 1]);
      root := read.value.root;
    }

    /** message_create and message_create_ephemeral: a foreign key names the session. */
    method MessageCreate(session: int, role: Role, content: string, cost: Option<real>, ephemeral: bool)
      returns (r: Option<int>)
      modifies this`messages
      ensures r == if session in sessions then Some(|old(messages)|) else None
      ensures messages == if r.Some? then old(messages) + [StoredMessage(session, role, content, cost, ephemeral)]
        else old(messages)
    {
      if session !in sessions {
        return None;
      }
      r := Some(|messages|);
      messages := messages + [StoredMessage(session, role, content, cost, ephemeral)];
    }

    method UnknownEventStore(session: int, eventType: string, data: JsonValue) returns (handle: Option<int>)
      modifies this`unknown
      ensures handle == if session in sessions then Some(|old(unknown)|) else None
      ensures unknown == if handle.Some? then old(unknown) + [(session, eventType, data)] else old(unknown)
    {
      if session !in sessions {
        return None;
      }
      handle := Some(|unknown|);
      unknown := unknown + [(session, eventType, data)];
    }

    method SessionUpdateClaudeId(session: int, claudeId: string)
      modifies this`sessions
      ensures sessions == if session in old(sessions)
                          then old(sessions)[session := old(sessions)[session].(claudeId := Some(claudeId))]
                            else old(sessions)
    {
      if session in sessions {
        sessions := sessions[session := sessions[session].(claudeId := Some(claudeId))];
      }
    }

    /** session_update_head: the tree of a session never changes. */
    method SessionUpdateHead(session: int, head: Id, claudeId: Option<string>) returns (ok: bool)
      modifies this`sessions
      ensures ok == (session in old(sessions))
      ensures sessions == if ok
                          then old(sessions)[session := old(sessions)[session].(head := head,
                                 claudeId := if claudeId.Some? then claudeId else old(sessions)[session].claudeId)]
                          else old(sessions)
    {
      ok := session in sessions;
      if ok {
        var row := sessions[session].(head := head);
        if claudeId.Some? {
          row := row.(claudeId := claudeId);
        }
        sessions := sessions[session := row];
      }
    }
  }
}
