// Any sequence of chats on one session (src/activations/claudecode/activation.rs:170-581,
// 1202-1698), and what render_messages then reads from the root to the head.
module ChatRuns {
  import opened Prelude
  import opened Arbor
  import opened ArborPaths
  import opened BackgroundTurn
  import opened Chain
  import opened Chat
  import opened ChatStore
  import opened ChatTypes
  import opened Conversation
  import opened EventLog
  import opened Render
  import opened RenderLaws
  import opened Streams
  import opened Turns

  // ------------------------------------------------------- turns and messages

  /** A completed turn: what the user asked and what its log recorded. */
  datatype Turn = Turn(prompt: string, events: seq<NodeEvent>)

  function LogsOf(turns: seq<Turn>): (logs: seq<seq<NodeEvent>>)
    ensures |logs| == |turns|
  {
    if turns == [] then []
    else LogsOf(turns[..|turns| - 1]) + [TurnLog(turns[|turns| - 1].prompt, turns[|turns| - 1].events)]
  }

  /** Each turn as its prompt, the assistant's blocks if any, and the tool results. */
  function MessagesOf(turns: seq<Turn>): seq<Message> {
    if turns == [] then []
    else MessagesOf(turns[..|turns| - 1]) + TurnMessages(turns[|turns| - 1].prompt, turns[|turns| - 1].events)
  }

  /** No content arrived after a tool result of the same turn, in any turn but the last. */
  predicate NothingAdopted(turns: seq<Turn>) {
    forall i :: 0 <= i < |turns| - 1 ==> Unclaimed(turns[i]) == []
  }

  /** The content a turn received after its first tool result. */
  function Unclaimed(turn: Turn): seq<Block> {
    ContentOf(turn.events[TurnLength(turn.events)..])
  }

  ghost predicate WellFormed(turns: seq<Turn>) {
    forall i :: 0 <= i < |turns| ==> InTurnEvents(turns[i].events)
  }

  lemma {:induction false} LogsOpen(turns: seq<Turn>)
    ensures AllOpen(LogsOf(turns))
    ensures forall i :: 0 <= i < |turns| ==> LogsOf(turns)[i] == TurnLog(turns[i].prompt, turns[i].events)
  {
    if turns != [] {
      LogsOpen(turns[..|turns| - 1]);
    }
  }

  lemma {:induction false} EachTurnRenders(turns: seq<Turn>)
    requires WellFormed(turns)
    ensures RenderedEach(LogsOf(turns)) == MessagesOf(turns)
  {
    if turns != [] {
      var front, last := turns[..|turns| - 1], turns[|turns| - 1];
      EachTurnRenders(front);
      TurnRenders(last.prompt, last.events);
      assert LogsOf(turns)[..|turns| - 1] == LogsOf(front);
    }
  }

  lemma {:induction false} LeftBehindUnclaimed(turns: seq<Turn>)
    requires WellFormed(turns)
    ensures LeftBehind(LogsOf(turns)) == 0 <==> NothingAdopted(turns)
  {
    if |turns| > 1 {
      LeftBehindUnclaimed(turns[..|turns| - 1]);
      LastButOne(turns);
      AdoptedNext(turns);
    }
  }

  lemma {:induction false} AdoptedNext(turns: seq<Turn>)
    requires |turns| > 1
    ensures NothingAdopted(turns) <==> NothingAdopted(turns[..|turns| - 1]) && Unclaimed(turns[|turns| - 2]) == []
  {
    var front, n := turns[..|turns| - 1], |turns|;
    if NothingAdopted(front) && Unclaimed(turns[n - 2]) == [] {
      forall i | 0 <= i < n - 1
        ensures Unclaimed(turns[i]) == []
      {
        assert i < n - 2 ==> front[i] == turns[i];
      }
    }
  }

  lemma {:induction false} LastButOne(turns: seq<Turn>)
    requires WellFormed(turns) && |turns| > 1
    ensures LeftBehind(LogsOf(turns)) == LeftBehind(LogsOf(turns[..|turns| - 1])) + |Unclaimed(turns[|turns| - 2])|
  {
    var n := |turns|;
    LogsOpen(turns);
    assert LogsOf(turns)[..n - 1] == LogsOf(turns[..n - 1]);
    TurnOrphans(turns[n - 2].prompt, turns[n - 2].events);
  }

  /** The log of some turns renders to their messages, turn after turn, exactly
      when nothing is left for a later turn to adopt. */
  lemma {:induction false} TurnsRender(turns: seq<Turn>)
    requires WellFormed(turns)
    ensures Rendered(Concat(LogsOf(turns))) == MessagesOf(turns) <==> NothingAdopted(turns)
  {
    LogsOpen(turns);
    EachTurnRenders(turns);
    LeftBehindUnclaimed(turns);
    SessionRendersTurnByTurn(LogsOf(turns));
  }

  // ---------------------------------------------------------------- the store

  /** The events recorded on the path from a parentless node down to `id`, that
      path starting at `root`. */
  ghost predicate Records(nodes: map<Id, NodeRow>, codec: Codec, t: Id, root: Id, id: Id, log: seq<NodeEvent>)
    requires Ordered(nodes)
  {
    PathUp(nodes, t, id).Some? &&
    var path := PathUp(nodes, t, id).value;
    PathInNodes(nodes, t, id);
    path != [] && path[0] == root && EventsOn(codec, DataOf(nodes, path)) == Ok(log)
  }

  /** A path that records a log renders to the messages of that log. */
  lemma {:induction false} RecordsRender(
      nodes: map<Id, NodeRow>, codec: Codec, t: Id, root: Id, id: Id, log: seq<NodeEvent>)
    requires Ordered(nodes) && Records(nodes, codec, t, root, id, log)
    ensures RenderSpec(nodes, codec, t, root, id) == Ok(Rendered(log))
  {
    var path := PathUp(nodes, t, id).value;
    assert path[0..] == path;
  }

  /** Growth of the store changes nothing on an old path. */
  lemma {:induction false} RecordsStable(
      nodes: map<Id, NodeRow>, nodes': map<Id, NodeRow>, codec: Codec, t: Id, root: Id, id: Id,
      log: seq<NodeEvent>)
    requires Ordered(nodes) && Ordered(nodes') && Extends(nodes, nodes')
    requires Records(nodes, codec, t, root, id, log)
    ensures Records(nodes', codec, t, root, id, log)
  {
    PathStable(nodes, nodes', t, id);
    PathInNodes(nodes, t, id);
    PathInNodes(nodes', t, id);
    SameData(nodes, nodes', PathUp(nodes, t, id).value);
  }

  lemma {:induction false} SameData(nodes: map<Id, NodeRow>, nodes': map<Id, NodeRow>, path: seq<Id>)
    requires Extends(nodes, nodes') && forall k :: 0 <= k < |path| ==> path[k] in nodes
    ensures (forall k :: 0 <= k < |path| ==> path[k] in nodes') && DataOf(nodes', path) == DataOf(nodes, path)
  {
    forall k | 0 <= k < |path|
      ensures path[k] in nodes' && nodes'[path[k]] == nodes[path[k]]
    {
      var id := path[k];
      assert id in nodes;
    }
  }

  /** A chain below a recording path adds the events of the chain. */
  lemma {:induction false} RecordsChain(
      nodes: map<Id, NodeRow>, nodes': map<Id, NodeRow>, codec: Codec, next: nat, t: Id, root: Id,
      parent: Id, entries: seq<Entry>, log: seq<NodeEvent>, more: seq<NodeEvent>)
    requires Ordered(nodes) && Ordered(nodes') && Chained(nodes, nodes', next, t, parent, entries)
    requires Records(nodes, codec, t, root, parent, log)
    requires EventsOn(codec, DataIn(entries)) == Ok(more)
    ensures Records(nodes', codec, t, root, ChainEnd(next, parent, |entries|), log + more)
  {
    var path := PathUp(nodes, t, parent).value;
    PathInNodes(nodes, t, parent);
    ChainPath(nodes, nodes', next, t, parent, entries, |entries|);
    ChainData(nodes, nodes', next, t, parent, entries, path);
    EventsOnAppend(codec, DataOf(nodes, path), DataIn(entries));
  }

  // ------------------------------------------------------------- the invariant

  /** The session's path from the root to its head records exactly these turns. */
  ghost predicate Tells(db: ChatDb, codec: Codec, id: int, root: Id, turns: seq<Turn>) {
    && db.arbor.Valid() && id in db.sessions && db.sessions[id].tree in db.arbor.trees
    && Records(db.arbor.nodes, codec, db.sessions[id].tree, root, db.sessions[id].head, Concat(LogsOf(turns)))
  }

  datatype Request = Request(prompt: string, ephemeral: bool, raws: seq<RawEvent>, background: bool)

  function Answered(codec: Codec, parse: JsonParser, db: ChatDb, id: int, q: Request): ChatResult
    requires id in db.sessions
  {
    var config := Config(id, db.sessions[id]);
    if q.background then
      var b := RunInBackground(codec, parse, db, config, q.prompt, q.ephemeral, q.raws);
      ChatResult(b.db, PushedBy(b.ops), b.ops != [] && b.ops[|b.ops| - 1] == Sets(StreamStatus.Completed, None))
    else Chatted(codec, parse, db, config, q.prompt, q.ephemeral, q.raws, false)
  }

  /** Either kind of chat, in one form. */
  lemma {:induction false} AnsweredSummary(codec: Codec, parse: JsonParser, db: ChatDb, id: int, q: Request)
    requires id in db.sessions
    ensures Answered(codec, parse, db, id, q)
         == Chatted(codec, parse, db, Config(id, db.sessions[id]), q.prompt, q.ephemeral, q.raws, q.background)
  {
    BackgroundSummary(codec, parse, db, Config(id, db.sessions[id]), q.prompt, q.ephemeral, q.raws);
  }

  /** The turn a chat adds to the history: none if it failed or was ephemeral. */
  function NewTurns(codec: Codec, parse: JsonParser, db: ChatDb, id: int, q: Request): seq<Turn>
    requires id in db.sessions
  {
    if Answered(codec, parse, db, id, q).completed && !q.ephemeral then
      [Turn(q.prompt, OnAll(parse, |db.unknown|, Launched(db.sessions[id].claudeId), q.raws).nodes)]
    else []
  }

  // ------------------------------------------------------------ one chat's step

  /** The user's node below the head, and a chain of entries below that node. */
  lemma {:induction false} GrowsBelow(arbor: Db, t: Id, head: Id, entry: Entry, entries: seq<Entry>)
    requires arbor.Valid() && t in arbor.trees && head in arbor.nodes
    ensures var made := arbor.NodeCreate(t, Some(head), entry.data, entry.state);
            var after := AppendChain(made.0, t, arbor.next, entries);
            && made.1 == Ok(arbor.next) && made.0.Valid() && after.Valid() && after.trees == arbor.trees
            && Chained(arbor.nodes, made.0.nodes, arbor.next, t, head, [entry])
            && Chained(made.0.nodes, after.nodes, made.0.next, t, arbor.next, entries)
  {
    var base := AppendChain(arbor, t, head, [entry]);
    assert [entry][..0] == [] && AppendChain(arbor, t, head, []) == arbor;
    ChainAppended(arbor, t, head, [entry]);
    CreateSucceeds(arbor, t, head, entry);
    ChainAppended(base, t, arbor.next, entries);
  }

  lemma {:induction false} SilentEntry(codec: Codec, entry: Entry)
    requires entry.data.ExternalNode?
    ensures EventsOn(codec, DataIn([entry])) == Ok([])
  {
    assert DataIn([entry])[..0] == [];
    assert EventsOn(codec, []) == Ok([]);
  }

  lemma {:induction false} ClosedLog(codec: Codec, log: seq<NodeEvent>, entry: Entry)
    requires codec.Faithful() && entry.data.ExternalNode?
    ensures EventsOn(codec, DataIn(EntriesOf(codec, log) + [entry])) == Ok(log)
  {
    LogReadBack(codec, log);
    SilentEntry(codec, entry);
    EventsOnAppend(codec, DataIn(EntriesOf(codec, log)), DataIn([entry]));
    assert DataIn(EntriesOf(codec, log) + [entry]) == DataIn(EntriesOf(codec, log)) + DataIn([entry]);
    assert log + [] == log;
  }

  lemma {:induction false} KeptTwice(
      nodes: map<Id, NodeRow>, mid: map<Id, NodeRow>, nodes': map<Id, NodeRow>, codec: Codec, t: Id,
      root: Id, head: Id, log: seq<NodeEvent>)
    requires Ordered(nodes) && Ordered(mid) && Ordered(nodes') && Extends(nodes, mid) && Extends(mid, nodes')
    requires Records(nodes, codec, t, root, head, log)
    ensures Records(nodes', codec, t, root, head, log)
  {
    RecordsStable(nodes, mid, codec, t, root, head, log);
    RecordsStable(mid, nodes', codec, t, root, head, log);
  }

  lemma {:induction false} ExtendedTwice(
      nodes: map<Id, NodeRow>, mid: map<Id, NodeRow>, nodes': map<Id, NodeRow>, codec: Codec, next: nat,
      next': nat, t: Id, root: Id, head: Id,
      entry: Entry, entries: seq<Entry>, log: seq<NodeEvent>, more: seq<NodeEvent>)
    requires Ordered(nodes) && Ordered(mid) && Ordered(nodes')
    requires Chained(nodes, mid, next, t, head, [entry]) && Chained(mid, nodes', next', t, next, entries)
    requires Records(nodes, codec, t, root, head, log)
    requires entry.data.ExternalNode? && EventsOn(codec, DataIn(entries)) == Ok(more)
    ensures Records(nodes', codec, t, root, ChainEnd(next', next, |entries|), log + more)
  {
    SilentEntry(codec, entry);
    RecordsChain(nodes, mid, codec, next, t, root, head, [entry], log, []);
    assert log + [] == log;
    RecordsChain(mid, nodes', codec, next', t, root, next, entries, log, more);
  }

  /** A chat that leaves the head where it was leaves the history as it was. */
  lemma {:induction false} HistoryKept(
      arbor: Db, codec: Codec, t: Id, root: Id, head: Id, entry: Entry, entries: seq<Entry>,
      log: seq<NodeEvent>)
    requires arbor.Valid() && t in arbor.trees && Records(arbor.nodes, codec, t, root, head, log)
    ensures var after := AppendChain(arbor.NodeCreate(t, Some(head), entry.data, entry.state).0, t, arbor.next,
      entries);
            after.Valid() && after.trees == arbor.trees && Records(after.nodes, codec, t, root, head, log)
  {
    GrowsBelow(arbor, t, head, entry, entries);
    var base := arbor.NodeCreate(t, Some(head), entry.data, entry.state).0;
    KeptTwice(arbor.nodes, base.nodes, AppendChain(base, t, arbor.next, entries).nodes, codec, t, root, head, log);
  }

  /** A chat that moves the head to its last node adds its log to the history. */
  lemma {:induction false} HistoryExtended(
      arbor: Db, codec: Codec, t: Id, root: Id, head: Id, entry: Entry, more: seq<NodeEvent>, last: Entry,
      log: seq<NodeEvent>)
    requires codec.Faithful() && entry.data.ExternalNode? && last.data.ExternalNode?
    requires arbor.Valid() && t in arbor.trees && Records(arbor.nodes, codec, t, root, head, log)
    ensures var base := arbor.NodeCreate(t, Some(head), entry.data, entry.state).0;
            var entries := EntriesOf(codec, more) + [last];
            var after := AppendChain(base, t, arbor.next, entries);
            && after.Valid() && after.trees == arbor.trees
            && Records(after.nodes, codec, t, root, ChainEnd(base.next, arbor.next, |entries|), log + more)
  {
    var base := arbor.NodeCreate(t, Some(head), entry.data, entry.state).0;
    var entries := EntriesOf(codec, more) + [last];
    GrowsBelow(arbor, t, head, entry, entries);
    ClosedLog(codec, more, last);
    ExtendedTwice(arbor.nodes, base.nodes, AppendChain(base, t, arbor.next, entries).nodes, codec, arbor.next,
      base.next, t, root, head,
                  entry, entries, log, more);
  }

  /** How a chat ends, told of the tree and of the session's row. */
  lemma {:induction false} FinishedShape(
      codec: Codec, base: Db, relayed: ChatDb, config: Config, prompt: string, ephemeral: bool, user: Id,
      turn: Relay, background: bool)
    requires config.id in relayed.sessions
    ensures var r := Finished(codec, base, relayed, config, prompt, ephemeral, user, turn, background);
            var said := Opening(prompt) + turn.nodes + [AssistantComplete];
            var row := relayed.sessions[config.id];
            && (!r.completed ==> r.db.arbor == relayed.arbor)
            && (r.completed ==> r.db.arbor == AppendChain(base, config.session.tree, user,
                                  EntriesOf(codec, said) + [MessageEntry(|relayed.messages|, "assistant", ephemeral)]))
            && config.id in r.db.sessions && r.db.sessions[config.id].tree == row.tree
            && r.db.sessions[config.id].head == if r.completed && !ephemeral
              then ChainEnd(base.next, user, |said| + 1) else row.head
  {
  }

  /** The parts of a chat that finds its tree and its head. */
  lemma {:induction false} ChatParts(codec: Codec, parse: JsonParser, db: ChatDb, id: int, q: Request)
    requires id in db.sessions && db.sessions[id].tree in db.arbor.trees && db.sessions[id].head in db.arbor.nodes
    ensures var config := Config(id, db.sessions[id]);
            var begun := Opened(db, config, q.prompt, q.ephemeral).0;
            var turn := OnAll(parse, |db.unknown|, Launched(config.session.claudeId), q.raws);
            var relayed := Relayed(codec, begun, config, q.prompt, db.arbor.next, turn);
            var r := Finished(codec, begun.arbor, relayed, config, q.prompt, q.ephemeral, db.arbor.next, turn,
              q.background);
            Answered(codec, parse, db, id, q).db == r.db && Answered(codec, parse, db, id, q).completed == r.completed
  {
    var config := Config(id, db.sessions[id]);
    AnsweredSummary(codec, parse, db, id, q);
    CreateSucceeds(db.arbor, config.session.tree, config.session.head,
      MessageEntry(|db.messages|, "user", q.ephemeral));
    assert Opened(db, config, q.prompt, q.ephemeral).1 == Ok(db.arbor.next);
  }

  /** A store whose session has this head and whose tree is this one. */
  lemma {:induction false} TellsOf(
      db: ChatDb, codec: Codec, id: int, root: Id, turns: seq<Turn>, after: Db, t: Id, head: Id)
    requires db.arbor == after && id in db.sessions && db.sessions[id].tree == t && db.sessions[id].head == head
    requires after.Valid() && t in after.trees && Records(after.nodes, codec, t, root, head, Concat(LogsOf(turns)))
    ensures Tells(db, codec, id, root, turns)
  {
  }

  /** After a chat the history is what it was, with the new turn if the chat
      completed and was not ephemeral. */
  lemma {:induction false} ChatTells(
      codec: Codec, parse: JsonParser, db: ChatDb, id: int, root: Id, turns: seq<Turn>, q: Request)
    requires codec.Faithful() && Tells(db, codec, id, root, turns)
    ensures Tells(Answered(codec, parse, db, id, q).db, codec, id, root, turns + NewTurns(codec, parse, db, id, q))
  {
    var config := Config(id, db.sessions[id]);
    var begun := Opened(db, config, q.prompt, q.ephemeral).0;
    var turn := OnAll(parse, |db.unknown|, Launched(config.session.claudeId), q.raws);
    ChatParts(codec, parse, db, id, q);
    EndTells(codec, db, id, root, turns, q, begun, turn);
    assert turns + [] == turns;
  }

  /** The same of the chat's last part. */
  lemma {:induction false} EndTells(
      codec: Codec, db: ChatDb, id: int, root: Id, turns: seq<Turn>, q: Request, begun: ChatDb, turn: Relay)
    requires codec.Faithful() && Tells(db, codec, id, root, turns)
    requires begun == Opened(db, Config(id, db.sessions[id]), q.prompt, q.ephemeral).0
    ensures var config := Config(id, db.sessions[id]);
            var relayed := Relayed(codec, begun, config, q.prompt, db.arbor.next, turn);
            var r := Finished(codec, begun.arbor, relayed, config, q.prompt, q.ephemeral, db.arbor.next, turn,
              q.background);
            Tells(r.db, codec, id, root, if r.completed && !q.ephemeral then turns + [Turn(q.prompt, turn.nodes)]
              else turns)
  {
    var config := Config(id, db.sessions[id]);
    var t, head, user, log := config.session.tree, config.session.head, db.arbor.next, Concat(LogsOf(turns));
    var relayed := Relayed(codec, begun, config, q.prompt, user, turn);
    var r := Finished(codec, begun.arbor, relayed, config, q.prompt, q.ephemeral, user, turn, q.background);
    var said := Opening(q.prompt) + turn.nodes;
    var entry := MessageEntry(|db.messages|, "user", q.ephemeral);
    var last := MessageEntry(|relayed.messages|, "assistant", q.ephemeral);
    FinishedShape(codec, begun.arbor, relayed, config, q.prompt, q.ephemeral, user, turn, q.background);
    if !r.completed {
      HistoryKept(db.arbor, codec, t, root, head, entry, EntriesOf(codec, said), log);
      TellsOf(r.db, codec, id, root, turns, AppendChain(begun.arbor, t, user, EntriesOf(codec, said)), t, head);
    } else {
      var entries := EntriesOf(codec, said + [AssistantComplete]) + [last];
      var after := AppendChain(begun.arbor, t, user, entries);
      if q.ephemeral {
        HistoryKept(db.arbor, codec, t, root, head, entry, entries, log);
        TellsOf(r.db, codec, id, root, turns, after, t, head);
      } else {
        HistoryExtended(db.arbor, codec, t, root, head, entry, said + [AssistantComplete], last, log);
        TurnAdded(turns, q.prompt, turn.nodes);
        TellsOf(r.db, codec, id, root, turns + [Turn(q.prompt, turn.nodes)], after, t,
          ChainEnd(begun.arbor.next, user, |entries|));
      }
    }
  }

  lemma {:induction false} TurnAdded(turns: seq<Turn>, prompt: string, events: seq<NodeEvent>)
    ensures Concat(LogsOf(turns + [Turn(prompt, events)]))
         == Concat(LogsOf(turns)) + (Opening(prompt) + events + [AssistantComplete])
  {
    var all := turns + [Turn(prompt, events)];
    assert all[..|turns|] == turns;
    ConcatSnoc(LogsOf(turns), TurnLog(prompt, events));
  }

  // ------------------------------------------------------ one turn in the tree

  /** The nodes a completed chat adds, from the user's to the assistant's. */
  function TurnEntries(codec: Codec, q: Request, message: int, nodes: seq<NodeEvent>): seq<Entry> {
    [MessageEntry(message, "user", q.ephemeral)]
    + (EntriesOf(codec, Opening(q.prompt) + nodes + [AssistantComplete])
      + [MessageEntry(message + 1, "assistant", q.ephemeral)])
  }

  lemma {:induction false} TwoChains(
      nodes: map<Id, NodeRow>, mid: map<Id, NodeRow>, nodes': map<Id, NodeRow>, next: nat, next': nat, t: Id,
      head: Id,
      first: Entry, rest: seq<Entry>)
    requires Chained(nodes, mid, next, t, head, [first]) && Chained(mid, nodes', next', t, next, rest)
      && next' == next + 1
    ensures Chained(nodes, nodes', next, t, head, [first] + rest)
  {
    var entries := [first] + rest;
    forall i | next <= i < next + |entries|
      ensures i in nodes' && nodes'[i] == ChainRow(next, t, head, entries, i)
    {
      if i == next {
        assert i in mid && mid[i] == ChainRow(next, t, head, [first], i);
      } else {
        assert nodes'[i] == ChainRow(next', t, next, rest, i);
      }
    }
  }

  lemma {:induction false} NextAfterOne(arbor: Db, t: Id, head: Id, first: Entry)
    ensures arbor.NodeCreate(t, Some(head), first.data, first.state).0.next == arbor.next + 1
  {
  }

  lemma {:induction false} ChainBelow(arbor: Db, t: Id, head: Id, first: Entry, rest: seq<Entry>, base: Db, after: Db)
    requires arbor.Valid() && t in arbor.trees && head in arbor.nodes
    requires base == arbor.NodeCreate(t, Some(head), first.data, first.state).0
    requires after == AppendChain(base, t, arbor.next, rest)
    ensures after.Valid() && base.next == arbor.next + 1
    ensures Chained(arbor.nodes, after.nodes, arbor.next, t, head, [first] + rest)
  {
    GrowsBelow(arbor, t, head, first, rest);
    NextAfterOne(arbor, t, head, first);
    TwoChains(arbor.nodes, base.nodes, after.nodes, arbor.next, base.next, t, head, first, rest);
  }

  /** Where a completed chat ends, as it announces it. */
  lemma {:induction false} AnnouncedHead(codec: Codec, parse: JsonParser, db: ChatDb, id: int, q: Request)
    requires id in db.sessions && Answered(codec, parse, db, id, q).completed
    ensures var r := Answered(codec, parse, db, id, q);
            && id in r.db.sessions && r.events != []
            && var last := r.events[|r.events| - 1];
               last.Complete? && last.newHead == Position(db.sessions[id].tree, r.db.sessions[id].head)
  {
    AnsweredSummary(codec, parse, db, id, q);
  }

  /** What a completed chat did to the tree. */
  lemma {:induction false} CompletedTree(codec: Codec, parse: JsonParser, db: ChatDb, id: int, q: Request)
    requires id in db.sessions && db.sessions[id].tree in db.arbor.trees && db.sessions[id].head in db.arbor.nodes
    requires Answered(codec, parse, db, id, q).completed
    ensures var session, r := db.sessions[id], Answered(codec, parse, db, id, q);
            var turn := OnAll(parse, |db.unknown|, Launched(session.claudeId), q.raws);
            var first := MessageEntry(|db.messages|, "user", q.ephemeral);
            var rest := EntriesOf(codec, Opening(q.prompt) + turn.nodes + [AssistantComplete])
                        + [MessageEntry(|db.messages| + 1, "assistant", q.ephemeral)];
            var base := db.arbor.NodeCreate(session.tree, Some(session.head), first.data, first.state).0;
            && r.db.arbor == AppendChain(base, session.tree, db.arbor.next, rest)
            && id in r.db.sessions
            && r.db.sessions[id].head == if q.ephemeral then session.head
              else ChainEnd(base.next, db.arbor.next, |rest|)
  {
    var session := db.sessions[id];
    var turn := OnAll(parse, |db.unknown|, Launched(session.claudeId), q.raws);
    var begun := Opened(db, Config(id, session), q.prompt, q.ephemeral).0;
    ChatParts(codec, parse, db, id, q);
    FinishedShape(codec, begun.arbor, Relayed(codec, begun, Config(id, session), q.prompt, db.arbor.next, turn),
                  Config(id, session), q.prompt, q.ephemeral, db.arbor.next, turn, q.background);
  }

  /** A completed chat adds one parent chain below the old head: the user's node,
      the turn's events in order, the assistant's node. It announces the end of
      that chain, which is the new head; an ephemeral chat announces, and keeps,
      the old one. */
  lemma {:induction false} TurnIsOneChain(codec: Codec, parse: JsonParser, db: ChatDb, id: int, q: Request)
    requires db.arbor.Valid() && id in db.sessions
    requires db.sessions[id].tree in db.arbor.trees && db.sessions[id].head in db.arbor.nodes
    requires Answered(codec, parse, db, id, q).completed
    ensures var session, r := db.sessions[id], Answered(codec, parse, db, id, q);
            var entries := TurnEntries(codec, q, |db.messages|,
              OnAll(parse, |db.unknown|, Launched(session.claudeId), q.raws).nodes);
            var end := db.arbor.next + |entries| - 1;
            && r.db.arbor.Valid()
            && Chained(db.arbor.nodes, r.db.arbor.nodes, db.arbor.next, session.tree, session.head, entries)
            && id in r.db.sessions && r.db.sessions[id].head == if q.ephemeral then session.head else end
  {
    var session := db.sessions[id];
    var turn := OnAll(parse, |db.unknown|, Launched(session.claudeId), q.raws);
    var rest := EntriesOf(codec, Opening(q.prompt) + turn.nodes + [AssistantComplete])
                + [MessageEntry(|db.messages| + 1, "assistant", q.ephemeral)];
    var first := MessageEntry(|db.messages|, "user", q.ephemeral);
    CompletedTree(codec, parse, db, id, q);
    ChainBelow(db.arbor, session.tree, session.head, first, rest,
               db.arbor.NodeCreate(session.tree, Some(session.head), first.data, first.state).0,
               Answered(codec, parse, db, id, q).db.arbor);
    assert |rest| == |turn.nodes| + 4;
  }

  // ----------------------------------------------------------------- every run

  /** The store after some chats on one session, each resolving the session anew. */
  function AfterChats(codec: Codec, parse: JsonParser, db: ChatDb, id: int, requests: seq<Request>): ChatDb {
    if requests == [] then db
    else
      var before := AfterChats(codec, parse, db, id, requests[..|requests| - 1]);
      if id !in before.sessions then before
      else Answered(codec, parse, before, id, requests[|requests| - 1]).db
  }

  /** The turns of the chats that completed and were not ephemeral, in order. */
  function CompletedTurns(codec: Codec, parse: JsonParser, db: ChatDb, id: int, requests: seq<Request>): seq<Turn> {
    if requests == [] then []
    else
      var front := requests[..|requests| - 1];
      var before := AfterChats(codec, parse, db, id, front);
      CompletedTurns(codec, parse, db, id, front)
      + if id !in before.sessions then [] else NewTurns(codec, parse, before, id, requests[|requests| - 1])
  }

  lemma {:induction false} ChatsTell(
      codec: Codec, parse: JsonParser, db: ChatDb, id: int, root: Id, requests: seq<Request>)
    requires codec.Faithful() && Tells(db, codec, id, root, [])
    ensures Tells(AfterChats(codec, parse, db, id, requests), codec, id, root,
      CompletedTurns(codec, parse, db, id, requests))
  {
    if requests != [] {
      var front := requests[..|requests| - 1];
      ChatsTell(codec, parse, db, id, root, front);
      ChatTells(codec, parse, AfterChats(codec, parse, db, id, front), id, root,
        CompletedTurns(codec, parse, db, id, front),
                requests[|requests| - 1]);
    }
  }

  lemma {:induction false} TurnsWellFormed(codec: Codec, parse: JsonParser, db: ChatDb, id: int, requests: seq<Request>)
    ensures WellFormed(CompletedTurns(codec, parse, db, id, requests))
  {
    if requests != [] {
      var front := requests[..|requests| - 1];
      var before := AfterChats(codec, parse, db, id, front);
      TurnsWellFormed(codec, parse, db, id, front);
      if id in before.sessions {
        ViewsAgree(parse, |before.unknown|, before.sessions[id].claudeId, requests[|requests| - 1].raws);
      }
    }
  }

  lemma {:induction false} NewSessionTells(
      codec: Codec, db: ChatDb, idText: int -> string, name: string, claudeId: Option<string>)
    requires db.arbor.Valid() && SessionCreated(db, idText, name, claudeId).1.Ok?
    ensures Tells(SessionCreated(db, idText, name, claudeId).0, codec, db.nextSession, db.arbor.next + 1, [])
  {
    var owner := idText(db.nextSession);
    DbTreeCreateValid(db.arbor, None, owner);
    NewTree(db.arbor, owner);
    RootRecordsNothing(codec, db.arbor.TreeCreate(None, owner).0.nodes, db.arbor.next, db.arbor.next + 1);
    assert Concat(LogsOf([])) == [];
  }

  lemma {:induction false} RootRecordsNothing(codec: Codec, nodes: map<Id, NodeRow>, t: Id, root: Id)
    requires Ordered(nodes) && root in nodes && nodes[root] == NodeRow(t, None, TextNode(""), Active)
    ensures Records(nodes, codec, t, root, root, [])
  {
    assert PathUp(nodes, t, root) == Some([root]);
    assert DataOf(nodes, [root]) == [TextNode("")] && [TextNode("")][..0] == [];
    assert EventsOn(codec, []) == Ok([]);
  }

  /** Over every sequence of chats on a new session, completed, failed and
      ephemeral, streamed and in the background, rendering from the root to the
      head succeeds; and it gives the completed non-ephemeral turns in order, each
      as its prompt, its non-empty block list and its tool results, exactly when
      no turn but the last received content after a tool result. */
  lemma {:induction false} EveryRunRenders(
      codec: Codec, parse: JsonParser, db0: ChatDb, idText: int -> string, name: string,
      claudeId: Option<string>, requests: seq<Request>)
    requires codec.Faithful() && db0.arbor.Valid() && SessionCreated(db0, idText, name, claudeId).1.Ok?
    ensures var (start, created) := SessionCreated(db0, idText, name, claudeId);
            var id, root := created.value, db0.arbor.next + 1;
            var db := AfterChats(codec, parse, start, id, requests);
            var turns := CompletedTurns(codec, parse, start, id, requests);
            && db.arbor.Valid() && id in db.sessions
            && var rendered := RenderSpec(db.arbor.nodes, codec, db.sessions[id].tree, root, db.sessions[id].head);
               rendered == Ok(Rendered(Concat(LogsOf(turns))))
               && (rendered == Ok(MessagesOf(turns)) <==> NothingAdopted(turns))
  {
    var (start, created) := SessionCreated(db0, idText, name, claudeId);
    var id, root := created.value, db0.arbor.next + 1;
    NewSessionTells(codec, db0, idText, name, claudeId);
    ChatsTell(codec, parse, start, id, root, requests);
    TurnsWellFormed(codec, parse, start, id, requests);
    var turns := CompletedTurns(codec, parse, start, id, requests);
    var db := AfterChats(codec, parse, start, id, requests);
    RecordsRender(db.arbor.nodes, codec, db.sessions[id].tree, root, db.sessions[id].head, Concat(LogsOf(turns)));
    TurnsRender(turns);
  }
}
