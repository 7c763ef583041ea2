// Events written to a tree as a chain of text nodes, and read back from it.
module EventLog {
  import opened Prelude
  import opened Arbor
  import opened ArborPaths
  import opened Chain
  import opened Conversation
  import opened Render

  function EntryOf(codec: Codec, e: NodeEvent): Entry {
    Entry(TextNode(codec.encode(e)), Active)
  }

  function EntriesOf(codec: Codec, log: seq<NodeEvent>): (entries: seq<Entry>)
    ensures |entries| == |log|
  {
    if log == [] then [] else EntriesOf(codec, log[..|log| - 1]) + [EntryOf(codec, log[|log| - 1])]
  }

  lemma {:induction false} EntriesSnoc(codec: Codec, log: seq<NodeEvent>, e: NodeEvent)
    ensures EntriesOf(codec, log + [e]) == EntriesOf(codec, log) + [EntryOf(codec, e)]
  {
    assert (log + [e])[..|log|] == log;
  }

  /** A store in a valid state. */
  type ValidDb = db: Db | db.Valid() witness Db(map[], map[], map[], [], 0)

  /** Create the next node of a chain and move to it. */
  method AppendEntry(
      arbor: ArborStorage, ghost base: ValidDb, t: Id, ghost top: Id, ghost entries: seq<Entry>, parent: Id,
      entry: Entry)
    returns (r: Result<Id, ArborError>)
    requires t in base.trees && top in base.nodes
    requires arbor.State() == AppendChain(base, t, top, entries) && parent == ChainEnd(base.next, top, |entries|)
    modifies arbor
    ensures r == Ok(ChainEnd(base.next, top, |entries| + 1))
    ensures arbor.State() == AppendChain(base, t, top, entries + [entry])
  {
    ChainValid(base, t, top, entries);
    ChainSnoc(base, t, top, entries, entry);
    NextId(base, t, top, entries, entry);
    r := arbor.NodeCreate(t, Some(parent), entry.data, entry.state);
  }

  lemma {:induction false} NextId(base: Db, t: Id, top: Id, entries: seq<Entry>, entry: Entry)
    requires t in base.trees && top in base.nodes && forall i | i in base.nodes :: i < base.next
    ensures var db, parent := AppendChain(base, t, top, entries), ChainEnd(base.next, top, |entries|);
            && parent < db.next
            && db.NodeCreate(t, Some(parent), entry.data, entry.state).1 == Ok(ChainEnd(base.next, top, |entries| + 1))
  {
    ChainCounts(base, t, top, entries);
    CreateSucceeds(AppendChain(base, t, top, entries), t, ChainEnd(base.next, top, |entries|), entry);
  }

  lemma {:induction false} ChainCounts(base: Db, t: Id, top: Id, entries: seq<Entry>)
    requires t in base.trees && top in base.nodes && forall i | i in base.nodes :: i < base.next
    ensures var db := AppendChain(base, t, top, entries);
            && db.next == base.next + |entries| && t in db.trees
            && ChainEnd(base.next, top, |entries|) in db.nodes && ChainEnd(base.next, top, |entries|) < db.next
  {
    ChainGrows(base, t, top, entries);
  }

  lemma {:induction false} CreateSucceeds(db: Db, t: Id, parent: Id, entry: Entry)
    requires t in db.trees && parent in db.nodes
    ensures db.NodeCreate(t, Some(parent), entry.data, entry.state).1 == Ok(db.next)
  {
  }

  /** create_event_node: the next event of a log written under `top`. */
  method AppendEvent(
      arbor: ArborStorage, codec: Codec, ghost base: ValidDb, t: Id, ghost top: Id,
      ghost log: seq<NodeEvent>, parent: Id, e: NodeEvent)
    returns (r: Result<Id, ArborError>)
    requires t in base.trees && top in base.nodes
    requires Written(arbor.State(), codec, base, t, top, log, parent)
    modifies arbor
    ensures r.Ok? && Written(arbor.State(), codec, base, t, top, log + [e], r.value)
  {
    EntriesSnoc(codec, log, e);
    r := AppendEntry(arbor, base, t, top, EntriesOf(codec, log), parent, EntryOf(codec, e));
  }

  /** The store `db` is `base` with the log written under `top`, ending at `end`. */
  ghost predicate Written(db: Db, codec: Codec, base: Db, t: Id, top: Id, log: seq<NodeEvent>, end: Id) {
    db == AppendChain(base, t, top, EntriesOf(codec, log)) && end == ChainEnd(base.next, top, |log|)
  }

  /** A log written as a chain is read back unchanged. */
  lemma {:induction false} LogReadBack(codec: Codec, log: seq<NodeEvent>)
    requires codec.Faithful()
    ensures EventsOn(codec, DataIn(EntriesOf(codec, log))) == Ok(log)
  {
    var data := DataIn(EntriesOf(codec, log));
    if log != [] {
      var before, e := log[..|log| - 1], log[|log| - 1];
      LogReadBack(codec, before);
      assert data[..|data| - 1] == DataIn(EntriesOf(codec, before));
      assert codec.decode(codec.encode(e)) == Some(e) && !Blank(codec.encode(e));
      assert before + [e] == log;
    }
  }
}
