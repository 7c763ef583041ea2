// import_to_arbor and export_from_arbor (src/activations/claudecode/sessions.rs:289-592)
// against the store. A session file is the sequence of its events; the exporter
// appends to it.
module SessionFiles {
  import opened Prelude
  import opened Arbor
  import opened ArborPaths
  import opened Chain
  import opened Conversation
  import opened EventLog
  import opened Sessions
  import opened Traversal

  // -------------------------------------------------------------------- import

  function Imported(codec: Codec, db: Db, session: seq<SessionEvent>, owner: string): Db {
    AppendChain(db.TreeCreate(None, owner).0, db.next, db.next + 1, EntriesOf(codec, LogOf(session)))
  }

  method ImportToArbor(arbor: ArborStorage, codec: Codec, session: seq<SessionEvent>, owner: string)
    returns (r: Result<Id, ArborError>)
    requires arbor.State().Valid()
    modifies arbor
    ensures r == Ok(old(arbor.next)) && arbor.State() == Imported(codec, old(arbor.State()), session, owner)
    ensures arbor.State().Valid()
  {
    ghost var before := arbor.State();
    var created := arbor.TreeCreateWithId(None, owner);
    ghost var base: ValidDb := arbor.State();
    NewTree(before, owner);
    match created {
      case Err(e) => return Err(e);
      case Ok(t) =>
        var read := arbor.TreeGet(t, [arbor.next - 1]);
        match read {
          case Err(e) => return Err(e);
          case Ok(tree) =>
            var done := ImportEvents(arbor, codec, base, t, tree.root, session);
            match done {
              case Err(e) => return Err(e);
              case Ok(_) =>
                ChainValid(base, t, tree.root, EntriesOf(codec, LogOf(session)));
                r := Ok(t);
            }
        }
    }
  }

  /** The events of the file, one after the other, below the root. */
  method ImportEvents(
      arbor: ArborStorage, codec: Codec, ghost base: ValidDb, t: Id, root: Id, session: seq<SessionEvent>)
    returns (r: Result<Id, ArborError>)
    requires t in base.trees && root in base.nodes && arbor.State() == base
    modifies arbor
    ensures r.Ok? && Written(arbor.State(), codec, base, t, root, LogOf(session), r.value)
  {
    var parent := root;
    for k := 0 to |session|
      invariant Written(arbor.State(), codec, base, t, root, LogOf(session[..k]), parent)
    {
      assert session[..k + 1][..k] == session[..k];
      var added := ImportEvent(arbor, codec, base, t, root, LogOf(session[..k]), parent, session[k]);
      match added {
        case Err(e) => return Err(e);
        case Ok(last) => parent := last;
      }
    }
    assert session[..|session|] == session;
    r := Ok(parent);
  }

  method ImportEvent(
      arbor: ArborStorage, codec: Codec, ghost base: ValidDb, t: Id, ghost root: Id,
      ghost log: seq<NodeEvent>, parent: Id, event: SessionEvent)
    returns (r: Result<Id, ArborError>)
    requires t in base.trees && root in base.nodes
    requires Written(arbor.State(), codec, base, t, root, log, parent)
    modifies arbor
    ensures r.Ok? && Written(arbor.State(), codec, base, t, root, log + ImportedEvent(event), r.value)
  {
    match event
    case UserTurn(content) =>
      r := AppendEvent(arbor, codec, base, t, root, log, parent, UserMessage(content));
    case AssistantTurn(message) =>
      r := ImportAssistant(arbor, codec, base, t, root, log, parent, message);
    case _ =>
      assert log + [] == log;
      r := Ok(parent);
  }

  method ImportAssistant(
      arbor: ArborStorage, codec: Codec, ghost base: ValidDb, t: Id, ghost root: Id,
      ghost log: seq<NodeEvent>, parent: Id, message: AssistantMessage)
    returns (r: Result<Id, ArborError>)
    requires t in base.trees && root in base.nodes
    requires Written(arbor.State(), codec, base, t, root, log, parent)
    modifies arbor
    ensures r.Ok? && Written(arbor.State(), codec, base, t, root, log + ImportedEvent(AssistantTurn(message)), r.value)
  {
    var content := if message.Full? then message.content else [];
    ghost var started := log + [AssistantStart];
    ghost var said := started + ImportedBlocks(content);
    r := AppendEvent(arbor, codec, base, t, root, log, parent, AssistantStart);
    r := ImportBlocks(arbor, codec, base, t, root, started, r.value, content);
    r := AppendEvent(arbor, codec, base, t, root, said, r.value, AssistantComplete);
    AssistantLog(log, message);
  }

  lemma {:induction false} AssistantLog(log: seq<NodeEvent>, message: AssistantMessage)
    ensures var content := if message.Full? then message.content else [];
            log + ImportedEvent(AssistantTurn(message)) == log + [AssistantStart] + ImportedBlocks(content)
              + [AssistantComplete]
  {
  }

  method ImportBlocks(
      arbor: ArborStorage, codec: Codec, ghost base: ValidDb, t: Id, ghost root: Id,
      ghost log: seq<NodeEvent>, parent: Id, content: seq<SessionBlock>)
    returns (r: Result<Id, ArborError>)
    requires t in base.trees && root in base.nodes
    requires Written(arbor.State(), codec, base, t, root, log, parent)
    modifies arbor
    ensures r.Ok? && Written(arbor.State(), codec, base, t, root, log + ImportedBlocks(content), r.value)
  {
    var current := parent;
    assert log + [] == log;
    for k := 0 to |content|
      invariant Written(arbor.State(), codec, base, t, root, log + ImportedBlocks(content[..k]), current)
    {
      assert content[..k + 1][..k] == content[..k];
      var added := AppendEvent(arbor, codec, base, t, root, log + ImportedBlocks(content[..k]), current,
        ImportedBlock(content[k]));
      AppendAssoc(log, ImportedBlocks(content[..k]), [ImportedBlock(content[k])]);
      match added {
        case Err(e) => return Err(e);
        case Ok(last) => current := last;
      }
    }
    assert content[..|content|] == content;
    r := Ok(current);
  }

  // -------------------------------------------------------------------- export

  /** The events among some nodes: empty text, external nodes and text that does
      not parse are passed over. */
  function EventsIn(codec: Codec, data: seq<NodeType>): seq<NodeEvent> {
    if data == [] then []
    else
      EventsIn(codec, data[..|data| - 1]) +
      match data[|data| - 1]
      case ExternalNode(_) => []
      case TextNode(text) =>
        if text == "" then []
        else
          match codec.decode(text)
          case None => []
          case Some(e) => [e]
  }

  ghost predicate InTree(tree: Tree, ids: seq<Id>) {
    forall k :: 0 <= k < |ids| ==> ids[k] in tree.nodes
  }

  lemma {:induction false} PreorderInTree(tree: Tree, id: Id, k: nat)
    requires Ordered(tree.nodes) && id in tree.nodes && k < |Preorder(tree, id)|
    ensures Preorder(tree, id)[k] in tree.nodes
  {
    if k > 0 {
      var j := ParentIsEarlier(tree, id, k);
    } else {
      PreorderUnfold(tree, id);
    }
  }

  /** What is written for a tree that has been read from the store. */
  ghost function ExportedTree(codec: Codec, json: ToolJson, tree: Tree): seq<SessionEvent>
    requires Ordered(tree.nodes) && tree.root in tree.nodes
  {
    var ids := Preorder(tree, tree.root);
    assert InTree(tree, ids) by {
      forall k | 0 <= k < |ids| ensures ids[k] in tree.nodes { PreorderInTree(tree, tree.root, k); }
    }
    Exported(json, EventsIn(codec, DataOf(tree.nodes, ids)))
  }

  method ExportFromArbor(
      arbor: ArborStorage, codec: Codec, json: ToolJson, t: Id, order: seq<Id>, file: seq<SessionEvent>)
    returns (r: Result<seq<SessionEvent>, ArborError>)
    requires arbor.State().Valid() && IterationOrder(order, arbor.State().NodesOf(t))
    ensures match arbor.State().TreeGet(t, order)
            case Err(e) => r == Err(e)
            case Ok(tree) =>
              Readable(tree) && tree.root in tree.nodes && r == Ok(file + ExportedTree(codec, json, tree))
  {
    var read := arbor.TreeGet(t, order);
    match read {
      case Err(e) => return Err(e);
      case Ok(tree) =>
        assert Readable(tree) && tree.root in tree.nodes;
        var ids := TraverseWithStack(tree);
        forall k | 0 <= k < |ids| ensures ids[k] in tree.nodes { PreorderInTree(tree, tree.root, k); }
        var events := ExportNodes(codec, json, tree, ids);
        r := Ok(AppendToSession(file, events));
    }
  }

  /** append_to_session, once per event. */
  function AppendToSession(file: seq<SessionEvent>, events: seq<SessionEvent>): seq<SessionEvent> {
    file + events
  }

  /** The grouping loop. */
  method ExportNodes(codec: Codec, json: ToolJson, tree: Tree, ids: seq<Id>) returns (events: seq<SessionEvent>)
    requires InTree(tree, ids)
    ensures events == Exported(json, EventsIn(codec, DataOf(tree.nodes, ids)))
  {
    ghost var data := DataOf(tree.nodes, ids);
    events := [];
    var blocks: seq<SessionBlock> := [];
    var inAssistant := false;
    for k := 0 to |ids|
      invariant Exporter(inAssistant, blocks, events) == ExportRun(json, NOTHING_YET, EventsIn(codec, data[..k]))
    {
      assert data[..k + 1][..k] == data[..k];
      match tree.nodes[ids[k]].data {
        case ExternalNode(_) =>
          assert EventsIn(codec, data[..k + 1]) == EventsIn(codec, data[..k]) + [] == EventsIn(codec, data[..k]);
        case TextNode(text) =>
          var event := if text == "" then None else codec.decode(text);
          if event.Some? {
            assert EventsIn(codec, data[..k + 1]) == EventsIn(codec, data[..k]) + [event.value];
            assert (EventsIn(codec, data[..k]) + [event.value])[..|EventsIn(codec, data[..k])|]
              == EventsIn(codec, data[..k]);
            inAssistant, blocks, events := ExportEvent(json, inAssistant, blocks, events, event.value);
          } else {
            assert EventsIn(codec, data[..k + 1]) == EventsIn(codec, data[..k]) + [] == EventsIn(codec, data[..k]);
          }
      }
    }
    assert data[..|ids|] == data;
    if inAssistant && blocks != [] {
      events := events + [AssistantTurn(Full(blocks))];
    }
  }

  method ExportEvent(
      json: ToolJson, inAssistant: bool, blocks: seq<SessionBlock>, events: seq<SessionEvent>,
      event: NodeEvent)
    returns (inAssistant': bool, blocks': seq<SessionBlock>, events': seq<SessionEvent>)
    ensures Exporter(inAssistant', blocks', events') == ExportStep(json, Exporter(inAssistant, blocks, events), event)
  {
    inAssistant', blocks', events' := inAssistant, blocks, events;
    match event
    case UserMessage(content) =>
      inAssistant', blocks', events' := CompleteNow(inAssistant', blocks', events');
      events' := events' + [UserTurn(content)];
    case AssistantStart =>
      inAssistant' := true;
      blocks' := [];
    case ContentText(text) =>
      if inAssistant' {
        blocks' := blocks' + [SText(text)];
      }
    case ContentToolUse(id, name, input) =>
      if inAssistant' {
        blocks' := blocks' + [SToolUse(id, name, input)];
      }
    case ContentThinking(thinking) =>
      if inAssistant' {
        blocks' := blocks' + [SThinking(thinking, None)];
      }
    case UserToolResult(id, output, isError) =>
      inAssistant', blocks', events' := CompleteNow(inAssistant', blocks', events');
      events' := events' + [UserTurn(json(SToolResult(id, output, Some(isError))))];
    case AssistantComplete =>
      inAssistant', blocks', events' := CompleteNow(inAssistant', blocks', events');
    case LaunchCommand(_) =>
    case ClaudeStderr(_) =>
  }

  method CompleteNow(inAssistant: bool, blocks: seq<SessionBlock>, events: seq<SessionEvent>)
    returns (inAssistant': bool, blocks': seq<SessionBlock>, events': seq<SessionEvent>)
    ensures Exporter(inAssistant', blocks', events') == Complete(Exporter(inAssistant, blocks, events))
  {
    inAssistant', blocks', events' := inAssistant, blocks, events;
    if inAssistant && blocks != [] {
      events' := events + [AssistantTurn(Full(blocks))];
      blocks' := [];
      inAssistant' := false;
    }
  }

  // ---------------------------------------------------------------- end to end

  lemma {:induction false} LogPassesThrough(codec: Codec, log: seq<NodeEvent>)
    requires codec.Faithful()
    ensures EventsIn(codec, [TextNode("")] + DataIn(EntriesOf(codec, log))) == log
  {
    var data := [TextNode("")] + DataIn(EntriesOf(codec, log));
    if log == [] {
      assert data == [TextNode("")] && data[..0] == [];
    } else {
      var before, e := log[..|log| - 1], log[|log| - 1];
      LogPassesThrough(codec, before);
      assert data[..|data| - 1] == [TextNode("")] + DataIn(EntriesOf(codec, before));
      assert codec.decode(codec.encode(e)) == Some(e) && !Blank(codec.encode(e));
      assert before + [e] == log;
    }
  }

  ghost predicate DataAlong(codec: Codec, tree: Tree, log: seq<NodeEvent>) {
    && tree.root in tree.nodes && tree.nodes[tree.root].data == TextNode("")
    && forall i :: tree.root < i <= tree.root + |log| ==>
         i in tree.nodes && tree.nodes[i].data == EntriesOf(codec, log)[i - tree.root - 1].data
  }

  lemma {:induction false} ChainIsLinear(
      codec: Codec, nodes: map<Id, NodeRow>, made: Db, t: Id, root: nat, log: seq<NodeEvent>, tree: Tree)
    requires Chained(nodes, made.nodes, root + 1, t, root, EntriesOf(codec, log))
    requires forall i | i in nodes :: nodes[i].tree == t ==> i == root
    requires root in nodes && nodes[root] == NodeRow(t, None, TextNode(""), Active)
    requires tree.root == root && tree.nodes == made.NodesOf(t)
    ensures Linear(tree, root + 1, |log|) && DataAlong(codec, tree, log)
  {
  }

  /** An imported session is a linear tree: its root and one node per event. */
  lemma {:induction false} ImportedIsLinear(
      codec: Codec, db: Db, session: seq<SessionEvent>, owner: string, order: seq<Id>)
    requires db.Valid()
    requires IterationOrder(order, Imported(codec, db, session, owner).NodesOf(db.next))
    ensures var read := Imported(codec, db, session, owner).TreeGet(db.next, order);
            && read.Ok? && Readable(read.value) && read.value.root == db.next + 1
            && Linear(read.value, db.next + 2, |LogOf(session)|) && DataAlong(codec, read.value, LogOf(session))
  {
    var base, t, root := db.TreeCreate(None, owner).0, db.next, db.next + 1;
    var made := Imported(codec, db, session, owner);
    ImportedRead(codec, db, session, owner, order);
    OnlyRoot(db, owner);
    ChainIsLinear(codec, base.nodes, made, t, root, LogOf(session), made.TreeGet(t, order).value);
  }

  lemma {:induction false} ImportedRead(codec: Codec, db: Db, session: seq<SessionEvent>, owner: string, order: seq<Id>)
    requires db.Valid()
    requires IterationOrder(order, Imported(codec, db, session, owner).NodesOf(db.next))
    ensures var made := Imported(codec, db, session, owner);
            var read := made.TreeGet(db.next, order);
            && read.Ok? && Readable(read.value) && read.value.root == db.next + 1
            && read.value.nodes == made.NodesOf(db.next)
    ensures Chained(db.TreeCreate(None, owner).0.nodes, Imported(codec, db, session, owner).nodes, db.next + 2, db.next,
                    db.next + 1, EntriesOf(codec, LogOf(session)))
  {
    NewTree(db, owner);
    BaseFacts(db, owner);
    ChainGrows(db.TreeCreate(None, owner).0, db.next, db.next + 1, EntriesOf(codec, LogOf(session)));
    ImportedOrdered(codec, db, session, owner);
  }

  /** The new tree has its root and nothing else. */
  lemma {:induction false} OnlyRoot(db: Db, owner: string)
    requires db.Valid()
    ensures var nodes := db.TreeCreate(None, owner).0.nodes;
            && (forall i | i in nodes :: nodes[i].tree == db.next ==> i == db.next + 1)
            && db.next + 1 in nodes && nodes[db.next + 1] == NodeRow(db.next, None, TextNode(""), Active)
  {
    BaseFacts(db, owner);
  }

  lemma {:induction false} BaseFacts(db: Db, owner: string)
    requires db.Valid()
    ensures var base := db.TreeCreate(None, owner).0;
            && base.nodes[db.next + 1] == NodeRow(db.next, None, TextNode(""), Active)
            && (forall i | i in base.nodes :: i < base.next && (base.nodes[i].tree == db.next ==> i == db.next + 1))
  {
    NewTree(db, owner);
    var base := db.TreeCreate(None, owner).0;
    assert forall i | i in base.nodes && base.nodes[i].tree == db.next :: i in base.NodesOf(db.next);
  }

  lemma {:induction false} ImportedOrdered(codec: Codec, db: Db, session: seq<SessionEvent>, owner: string)
    requires db.Valid()
    ensures Ordered(Imported(codec, db, session, owner).NodesOf(db.next))
  {
    DbTreeCreateValid(db, None, owner);
    NewTree(db, owner);
    ChainValid(db.TreeCreate(None, owner).0, db.next, db.next + 1, EntriesOf(codec, LogOf(session)));
  }

  lemma {:induction false} ReadsAlong(codec: Codec, tree: Tree, log: seq<NodeEvent>)
    requires Readable(tree) && tree.root >= 0 && Linear(tree, tree.root + 1, |log|) && DataAlong(codec, tree, log)
    ensures var ids := Preorder(tree, tree.root);
            InTree(tree, ids) && DataOf(tree.nodes, ids) == [TextNode("")] + DataIn(EntriesOf(codec, log))
  {
    var ids := Preorder(tree, tree.root);
    LinearPreorder(tree, tree.root + 1, |log|, 0);
    IdsFromLength(tree.root + 1, |log|);
    forall k | 0 <= k < |ids|
      ensures ids[k] in tree.nodes && tree.nodes[ids[k]].data == ([TextNode("")] + DataIn(EntriesOf(codec, log)))[k]
    {
      if k > 0 {
        IdsFromAt(tree.root + 1, |log|, k - 1);
        assert ids[k] == tree.root + k;
      }
    }
  }

  /** Importing a session into any store and exporting the tree, whatever the hash
      map order, writes the session's normal form; and that exactly when no
      assistant message holds a tool result. */
  lemma {:induction false} ImportThenExport(
      codec: Codec, json: ToolJson, db: Db, session: seq<SessionEvent>, owner: string, order: seq<Id>)
    requires codec.Faithful() && db.Valid()
    requires IterationOrder(order, Imported(codec, db, session, owner).NodesOf(db.next))
    ensures var read := Imported(codec, db, session, owner).TreeGet(db.next, order);
            && read.Ok? && Ordered(read.value.nodes) && read.value.root in read.value.nodes
            && ExportedTree(codec, json, read.value) == Exported(json, LogOf(session))
            && (ExportedTree(codec, json, read.value) == Normal(session) <==> NoToolResults(session))
  {
    ImportedIsLinear(codec, db, session, owner, order);
    var tree := Imported(codec, db, session, owner).TreeGet(db.next, order).value;
    ReadsAlong(codec, tree, LogOf(session));
    LogPassesThrough(codec, LogOf(session));
    RoundTripExactly(json, session);
  }
}
