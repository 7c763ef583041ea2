// view_collapse_text_runs (src/activations/arbor/views.rs:361-475): the view tree
// it builds in the store, row by row. The source tree is read twice, once to find
// the runs and once to walk it, and each read has its own hash map order.
module Collapse {
  import opened Prelude
  import opened Arbor
  import opened Traversal
  import opened Views

  // ------------------------------------------------------- runs as lists of nodes

  /** Nodes that are each the child of the one before. */
  ghost predicate IsRun(nodes: map<Id, NodeRow>, path: seq<Id>) {
    && path != []
    && forall k :: 0 <= k < |path| ==> path[k] in nodes && (k > 0 ==> nodes[path[k]].parent == Some(path[k - 1]))
  }

  ghost predicate Disjoint(a: seq<Id>, b: seq<Id>) {
    forall x | x in a :: x !in b
  }

  /** The run that starts at `x`. */
  function RunFrom(paths: seq<seq<Id>>, x: Id): (run: Option<seq<Id>>)
    ensures run.Some? ==> run.value in paths && run.value != [] && run.value[0] == x
  {
    if paths == [] then None
    else
      var last := paths[|paths| - 1];
      if last != [] && last[0] == x then Some(last) else RunFrom(paths[..|paths| - 1], x)
  }

  /** The nodes met from `x` by following first children, up to `end` or a leaf. */
  ghost function Walked(tree: Tree, x: Id, end: Id): set<Id>
    requires Ordered(tree.nodes)
    decreases Later(tree, x)
  {
    var cs := Children(tree, x);
    if x == end || cs == [] then {x}
    else
      ChildIsLater(tree, x, cs[0]);
      {x} + Walked(tree, cs[0], end)
  }

  ghost function Collapsed(tree: Tree, paths: seq<seq<Id>>): set<Id>
    requires Ordered(tree.nodes)
  {
    if paths == [] then {}
    else
      var last := paths[|paths| - 1];
      Collapsed(tree, paths[..|paths| - 1]) + if last == [] then {} else Walked(tree, last[0], last[|last| - 1])
  }

  /** What a collapse works on: the source tree as it was read the second time, and
      the runs found in the first reading. */
  datatype Job = Job(tree: Tree, view: string -> Shape, encode: string -> string, paths: seq<seq<Id>>)
  {
    ghost predicate Valid() {
      && Readable(tree) && (forall m :: 0 <= m < |paths| ==> IsRun(tree.nodes, paths[m]))
      && forall m, n :: 0 <= m < n < |paths| ==> Disjoint(paths[m], paths[n])
    }

    function Run(x: Id): Option<seq<Id>> {
      RunFrom(paths, x)
    }

    /** A node gets a view node unless it was met in a run without starting one. */
    ghost predicate Kept(x: Id)
      requires Ordered(tree.nodes)
    {
      Run(x).Some? || x !in Collapsed(tree, paths)
    }

    /** The source nodes that the view node of `x` stands for. */
    function StandsFor(x: Id): seq<Id> {
      if Run(x).Some? then Run(x).value else [x]
    }

    function Data(x: Id): NodeType
      requires x in tree.nodes
    {
      if Run(x).Some? then TextNode(encode(MergedText(tree, view, Run(x).value))) else tree.nodes[x].data
    }
  }

  ghost function KeptOf(job: Job, ids: seq<Id>): (kept: seq<Id>)
    requires Ordered(job.tree.nodes)
    ensures forall x :: x in kept <==> x in ids && job.Kept(x)
  {
    if ids == [] then []
    else KeptOf(job, ids[..|ids| - 1]) + if job.Kept(ids[|ids| - 1]) then [ids[|ids| - 1]] else []
  }

  /** Where node `q` is among the nodes handled so far. */
  function Place(done: seq<Id>, q: Id): (k: Option<nat>)
    ensures k.Some? <==> q in done
    ensures k.Some? ==> k.value < |done| && done[k.value] == q
  {
    if done == [] then None
    else if done[|done| - 1] == q then Some(|done| - 1)
    else Place(done[..|done| - 1], q)
  }

  ghost predicate AllIn(nodes: map<Id, NodeRow>, ids: seq<Id>) {
    forall x | x in ids :: x in nodes
  }

  /** The row made for `x` when the nodes `done` have been handled: it hangs below
      the image of the source parent, if that has one. */
  function ViewRow(job: Job, viewId: Id, done: seq<Id>, x: Id): NodeRow
    requires x in job.tree.nodes
  {
    var parent := job.tree.nodes[x].parent;
    var image := if parent.Some? then Place(done, parent.value) else None;
    var below := if image.Some? then Some(viewId + 2 + image.value)
                 else if job.Run(x).Some? then Some(viewId + 1) else None;
    NodeRow(viewId, below, job.Data(x), Active)
  }

  function ViewRows(job: Job, viewId: Id, ids: seq<Id>): (rows: seq<NodeRow>)
    requires AllIn(job.tree.nodes, ids)
    ensures |rows| == |ids|
    ensures forall m :: 0 <= m < |rows| ==> rows[m].tree == viewId
  {
    if ids == [] then []
    else
      var done, x := ids[..|ids| - 1], ids[|ids| - 1];
      ViewRows(job, viewId, done) + [ViewRow(job, viewId, done, x)]
  }

  // ------------------------------------------------------------ gathering the runs

  /** `starts` holds the first m runs by their first node. */
  ghost predicate Keyed(paths: seq<seq<Id>>, starts: map<Id, TextRun>) {
    forall x ::
      match RunFrom(paths, x)
      case None => x !in starts
      case Some(path) => x in starts && starts[x].start == path[0] && starts[x].end == path[|path| - 1]
  }

  ghost predicate RunsAre(paths: seq<seq<Id>>, runs: seq<TextRun>) {
    && |runs| == |paths|
    && forall m :: 0 <= m < |paths| ==>
         paths[m] != [] && runs[m].start == paths[m][0] && runs[m].end == paths[m][|paths[m]| - 1]
  }

  lemma {:induction false} KeyedNext(paths: seq<seq<Id>>, starts: map<Id, TextRun>, path: seq<Id>, run: TextRun)
    requires Keyed(paths, starts) && path != [] && run.start == path[0] && run.end == path[|path| - 1]
    ensures Keyed(paths + [path], starts[run.start := run])
  {
    var starts' := starts[run.start := run];
    assert (paths + [path])[..|paths|] == paths;
    forall x
      ensures match RunFrom(paths + [path], x)
              case None => x !in starts'
              case Some(p) => x in starts' && starts'[x].start == p[0] && starts'[x].end == p[|p| - 1]
    {
      assert RunFrom(paths, x).None? ==> x !in starts;
    }
  }

  lemma {:induction false} CollapsedNext(tree: Tree, paths: seq<seq<Id>>, path: seq<Id>)
    requires Ordered(tree.nodes) && path != []
    ensures Collapsed(tree, paths + [path]) == Collapsed(tree, paths) + Walked(tree, path[0], path[|path| - 1])
  {
    assert (paths + [path])[..|paths|] == paths;
  }

  /** The nodes met by following first children from each run's start to its end,
      and the runs keyed by their first node. */
  method CollapsedNodes(ghost tree: Tree, children: map<Id, seq<Id>>, runs: seq<TextRun>, ghost paths: seq<seq<Id>>)
    returns (collapsed: set<Id>, starts: map<Id, TextRun>)
    requires Ordered(tree.nodes) && IsChildMap(tree, children) && RunsAre(paths, runs)
    ensures collapsed == Collapsed(tree, paths) && Keyed(paths, starts)
  {
    collapsed, starts := {}, map[];
    for m := 0 to |runs|
      invariant collapsed == Collapsed(tree, paths[..m]) && Keyed(paths[..m], starts)
    {
      assert paths[..m + 1] == paths[..m] + [paths[m]];
      KeyedNext(paths[..m], starts, paths[m], runs[m]);
      CollapsedNext(tree, paths[..m], paths[m]);
      starts := starts[runs[m].start := runs[m]];
      var walked := WalkRun(tree, children, runs[m].start, runs[m].end);
      collapsed := collapsed + walked;
    }
    assert paths[..|runs|] == paths;
  }

  /** Follow first children through one run. */
  method WalkRun(ghost tree: Tree, children: map<Id, seq<Id>>, start: Id, end: Id) returns (walked: set<Id>)
    requires Ordered(tree.nodes) && IsChildMap(tree, children)
    ensures walked == Walked(tree, start, end)
  {
    var current := start;
    walked := {current};
    while current != end
      invariant current in walked && walked + Walked(tree, current, end) == Walked(tree, start, end)
      decreases Later(tree, current)
    {
      var cs := Lookup(children, current);
      assert cs == Children(tree, current);
      if cs == [] {
        break;
      }
      ChildIsLater(tree, current, cs[0]);
      current := cs[0];
      walked := walked + {current};
    }
  }

  // ------------------------------------------------------------- the view tree

  /** The node table after `rows` were inserted under the ids base, base+1, ... */
  function AddRows(nodes: map<Id, NodeRow>, base: Id, rows: seq<NodeRow>): map<Id, NodeRow> {
    if rows == [] then nodes
    else AddRows(nodes, base, rows[..|rows| - 1])[base + |rows| - 1 := rows[|rows| - 1]]
  }

  lemma {:induction false} AddRowsOld(nodes: map<Id, NodeRow>, base: Id, rows: seq<NodeRow>, i: Id)
    requires i < base || i >= base + |rows|
    ensures i in AddRows(nodes, base, rows) <==> i in nodes
    ensures i in nodes ==> AddRows(nodes, base, rows)[i] == nodes[i]
  {
    if rows != [] {
      AddRowsOld(nodes, base, rows[..|rows| - 1], i);
    }
  }

  lemma {:induction false} AddRowsNew(nodes: map<Id, NodeRow>, base: Id, rows: seq<NodeRow>, m: nat)
    requires m < |rows|
    ensures base + m in AddRows(nodes, base, rows) && AddRows(nodes, base, rows)[base + m] == rows[m]
  {
    if m < |rows| - 1 {
      AddRowsNew(nodes, base, rows[..|rows| - 1], m);
    }
  }

  /** What `db0` has become after the rows `rows` were added to a tree. */
  ghost predicate Grown(db0: Db, db: Db, rows: seq<NodeRow>) {
    && db.trees == db0.trees && db.refs == db0.refs
    && db.next == db0.next + |rows|
    && db.nodes == AddRows(db0.nodes, db0.next, rows)
  }

  lemma {:induction false} GrowOne(db0: Db, db: Db, t: Id, rows: seq<NodeRow>, row: NodeRow)
    requires Grown(db0, db, rows) && t in db.trees && row.tree == t && row.state == Active
    requires row.parent.Some? ==> row.parent.value in db.nodes
    ensures var r := db.NodeCreate(t, row.parent, row.data, Active);
            r.1 == Ok(db.next) && Grown(db0, r.0, rows + [row])
  {
    assert (rows + [row])[..|rows|] == rows;
  }

  /** A new tree is about to be filled: its row, and its root. */
  ghost predicate Fresh(db0: Db) {
    && db0.next >= 2 && db0.next - 2 in db0.trees && db0.trees[db0.next - 2].root == db0.next - 1
    && db0.next - 1 in db0.nodes && db0.nodes[db0.next - 1].tree == db0.next - 2
  }

  /** A row's parent is a node of the view tree. */
  lemma {:induction false} ViewParentKnown(job: Job, db0: Db, db: Db, done: seq<Id>, x: Id)
    requires AllIn(job.tree.nodes, done) && x in job.tree.nodes && Fresh(db0)
    requires Grown(db0, db, ViewRows(job, db0.next - 2, done))
    ensures var row := ViewRow(job, db0.next - 2, done, x);
            row.parent.Some? ==>
              && row.parent.value in db.nodes && row.parent.value < db.next
              && db.nodes[row.parent.value].tree == db0.next - 2
  {
    var rows := ViewRows(job, db0.next - 2, done);
    AddRowsOld(db0.nodes, db0.next, rows, db0.next - 1);
    var parent := job.tree.nodes[x].parent;
    if parent.Some? && parent.value in done {
      AddRowsNew(db0.nodes, db0.next, rows, Place(done, parent.value).value);
    }
  }

  /** Reading a tree depends on its own rows only. */
  lemma {:induction false} ReadsTheSame(db: Db, db': Db, source: Id, order: seq<Id>)
    requires source in db.trees ==> source in db'.trees && db'.trees[source] == db.trees[source]
    requires source in db'.trees ==> source in db.trees
    requires forall i | i in db'.nodes && db'.nodes[i].tree == source :: i in db.nodes
    requires forall i | i in db.nodes :: i in db'.nodes && db'.nodes[i] == db.nodes[i]
    requires forall i | i in db.nodes && db.nodes[i].tree == source ::
      IndexedChildren(db'.children, i) == IndexedChildren(db.children, i)
    ensures db'.NodesOf(source) == db.NodesOf(source)
    ensures db'.TreeGet(source, order) == db.TreeGet(source, order)
  {
    assert forall i :: i in db'.NodesOf(source) <==> i in db.NodesOf(source);
    assert forall i :: i in db'.ChildLists(source) <==> i in db.ChildLists(source);
    assert db'.NodesOf(source) == db.NodesOf(source);
    assert db'.ChildLists(source) == db.ChildLists(source);
  }

  /** A row added to one tree does not change what is read of another. */
  lemma {:induction false} CreateElsewhere(
      db: Db, db': Db, t: Id, parent: Option<Id>, data: NodeType, source: Id, order: seq<Id>)
    requires db' == db.NodeCreate(t, parent, data, Active).0 && t != source && t in db.trees && db.next !in db.nodes
    requires parent.Some? ==> parent.value in db.nodes && db.nodes[parent.value].tree == t
    ensures db'.TreeGet(source, order) == db.TreeGet(source, order)
  {
    forall i | i in db.nodes && db.nodes[i].tree == source
      ensures IndexedChildren(db'.children, i) == IndexedChildren(db.children, i)
    {
      if parent.Some? {
        RowAdded(db.children, ChildRow(parent.value, db.next, MaxPosition(db.children, parent.value) + 1), i);
      }
    }
    ReadsTheSame(db, db', source, order);
  }

  lemma {:induction false} NewTreeElsewhere(db: Db, owner: string, source: Id, order: seq<Id>)
    requires db.Valid() && source in db.trees
    ensures db.TreeCreate(None, owner).0.TreeGet(source, order) == db.TreeGet(source, order)
    ensures db.TreeCreate(None, owner).0.NodesOf(source) == db.NodesOf(source)
    ensures Fresh(db.TreeCreate(None, owner).0) && db.next != source
  {
    assert db.next !in db.trees && db.next + 1 !in db.nodes;
    ReadsTheSame(db, db.TreeCreate(None, owner).0, source, order);
  }

  /** The map from source nodes to view nodes once the nodes `done` are handled; the
      source root is mapped to the view root until it has a node of its own. */
  ghost predicate Maps(job: Job, viewId: Id, done: seq<Id>, mapping: map<Id, Id>) {
    && (forall q | q in done :: q in mapping && mapping[q] == viewId + 2 + Place(done, q).value)
    && forall q | q in mapping :: q in done || (done == [] && q in job.tree.nodes && job.tree.nodes[q].parent.None?)
  }

  lemma {:induction false} MapsNext(job: Job, viewId: Id, done: seq<Id>, mapping: map<Id, Id>, x: Id)
    requires Maps(job, viewId, done, mapping)
    requires done == [] ==> forall q | q in mapping :: q == x
    ensures Maps(job, viewId, done + [x], mapping[x := viewId + 2 + |done|])
  {
    assert (done + [x])[..|done|] == done;
  }

  /** view_add_range with CollapseType::TextMerge. */
  method ViewAddRange(
      store: ArborStorage, source: Id, order: seq<Id>, view: string -> Shape, encode: string -> string,
      viewId: Id, parent: Id, run: TextRun)
    returns (r: Result<Id, ArborError>)
    requires store.State().Valid() && IterationOrder(order, store.State().NodesOf(source)) && parent < store.next
    modifies store`nodes, store`children, store`next
    ensures store.State().Valid()
    ensures var read := old(store.State()).TreeGet(source, order); read.Ok? ==> Ordered(read.value.nodes)
    ensures match RangeIn(old(store.State()).TreeGet(source, order), view, run.start, run.end)
            case Err(e) => r == Err(e) && store.State() == old(store.State())
            case Ok(range) =>
              (store.State(), r)
              == old(store.State()).NodeCreate(viewId, Some(parent), TextNode(encode(range.content)), Active)
  {
    var range := RangeGet(store, source, order, view, run.start, run.end);
    if range.Err? {
      return Err(range.error);
    }
    r := store.NodeCreate(viewId, Some(parent), TextNode(encode(range.value.content)), Active);
  }

  /** What the loop has done when it has handled the nodes `done`. */
  ghost predicate Progress(
      job: Job, source: Id, order: seq<Id>, db0: Db, db: Db, done: seq<Id>, mapping: map<Id, Id>) {
    && Fresh(db0) && source != db0.next - 2
    && db.TreeGet(source, order) == Ok(job.tree)
    && AllIn(job.tree.nodes, done) && Maps(job, db0.next - 2, done, mapping)
    && Grown(db0, db, ViewRows(job, db0.next - 2, done))
  }

  lemma {:induction false} RowCreated(job: Job, db0: Db, db: Db, done: seq<Id>, x: Id, row: NodeRow)
    requires AllIn(job.tree.nodes, done) && x in job.tree.nodes && Fresh(db0)
    requires Grown(db0, db, ViewRows(job, db0.next - 2, done)) && row == ViewRow(job, db0.next - 2, done, x)
    ensures AllIn(job.tree.nodes, done + [x])
    ensures row.parent.Some? ==>
      row.parent.value in db.nodes && row.parent.value < db.next && db.nodes[row.parent.value].tree == db0.next - 2
    ensures var r := db.NodeCreate(db0.next - 2, row.parent, row.data, Active);
            r.1 == Ok(db.next) && Grown(db0, r.0, ViewRows(job, db0.next - 2, done + [x]))
  {
    ViewParentKnown(job, db0, db, done, x);
    RowsNext(job, db0.next - 2, done, x);
    GrowOne(db0, db, db0.next - 2, ViewRows(job, db0.next - 2, done), row);
  }

  /** The row for the next node is added and its image recorded. */
  lemma {:induction false} ProgressAdds(
      job: Job, source: Id, order: seq<Id>, db0: Db, db: Db, done: seq<Id>, mapping: map<Id, Id>, x: Id, row: NodeRow,
      db': Db)
    requires Progress(job, source, order, db0, db, done, mapping) && x in job.tree.nodes && db.next !in db.nodes
    requires done == [] ==> forall q | q in mapping :: q == x
    requires row == ViewRow(job, db0.next - 2, done, x)
    requires db' == db.NodeCreate(db0.next - 2, row.parent, row.data, Active).0
    ensures db.NodeCreate(db0.next - 2, row.parent, row.data, Active).1 == Ok(db.next)
    ensures row.parent.Some? ==> row.parent.value < db.next
    ensures Progress(job, source, order, db0, db', done + [x], mapping[x := db.next])
  {
    RowElsewhere(job, source, order, db0, db, done, x, row, db');
    MapsNext(job, db0.next - 2, done, mapping, x);
    ProgressOf(job, source, order, db0, db', done + [x], mapping[x := db.next]);
  }

  lemma {:induction false} RowElsewhere(
      job: Job, source: Id, order: seq<Id>, db0: Db, db: Db, done: seq<Id>, x: Id, row: NodeRow, db': Db)
    requires AllIn(job.tree.nodes, done) && x in job.tree.nodes && Fresh(db0) && source != db0.next - 2
    requires Grown(db0, db, ViewRows(job, db0.next - 2, done)) && row == ViewRow(job, db0.next - 2, done, x)
    requires db' == db.NodeCreate(db0.next - 2, row.parent, row.data, Active).0 && db.next !in db.nodes
    ensures AllIn(job.tree.nodes, done + [x]) && db.next == db0.next - 2 + 2 + |done|
    ensures row.parent.Some? ==> row.parent.value < db.next
    ensures db.NodeCreate(db0.next - 2, row.parent, row.data, Active).1 == Ok(db.next)
    ensures Grown(db0, db', ViewRows(job, db0.next - 2, done + [x]))
    ensures db'.TreeGet(source, order) == db.TreeGet(source, order)
  {
    RowCreated(job, db0, db, done, x, row);
    CreateElsewhere(db, db', db0.next - 2, row.parent, row.data, source, order);
  }

  lemma {:induction false} ProgressOf(
      job: Job, source: Id, order: seq<Id>, db0: Db, db: Db, done: seq<Id>, mapping: map<Id, Id>)
    requires Fresh(db0) && source != db0.next - 2 && db.TreeGet(source, order) == Ok(job.tree)
    requires AllIn(job.tree.nodes, done) && Maps(job, db0.next - 2, done, mapping)
    requires Grown(db0, db, ViewRows(job, db0.next - 2, done))
    ensures Progress(job, source, order, db0, db, done, mapping)
  {
  }

  lemma {:induction false} ProgressStarts(job: Job, source: Id, order: seq<Id>, db0: Db, mapping: map<Id, Id>)
    requires Fresh(db0) && source != db0.next - 2 && db0.TreeGet(source, order) == Ok(job.tree)
    requires forall q | q in mapping :: q in job.tree.nodes && job.tree.nodes[q].parent.None?
    ensures Progress(job, source, order, db0, db0, [], mapping)
  {
  }

  lemma {:induction false} RowsNext(job: Job, viewId: Id, done: seq<Id>, x: Id)
    requires AllIn(job.tree.nodes, done) && x in job.tree.nodes
    ensures AllIn(job.tree.nodes, done + [x])
    ensures ViewRows(job, viewId, done + [x]) == ViewRows(job, viewId, done) + [ViewRow(job, viewId, done, x)]
  {
    assert (done + [x])[..|done|] == done;
  }

  /** The image of the source parent is exactly what the mapping holds. */
  lemma {:induction false} ImageInMapping(job: Job, viewId: Id, done: seq<Id>, mapping: map<Id, Id>, x: Id)
    requires Maps(job, viewId, done, mapping) && x in job.tree.nodes
    requires done == [] ==> forall q | q in mapping :: q == x
    ensures var parent := job.tree.nodes[x].parent;
            parent.Some? ==>
              if parent.value in mapping
              then parent.value in done && mapping[parent.value] == viewId + 2 + Place(done, parent.value).value
              else parent.value !in done
  {
    var up := job.tree.nodes[x].parent;
    if up.Some? {
      var q: Id := up.value;
      assert q in mapping ==> q in done;
    }
  }

  /** The range of a run can be read, and holds the data of the node made for it. */
  lemma {:induction false} RunReads(job: Job, x: Id)
    requires job.Valid() && job.Run(x).Some?
    ensures x in job.tree.nodes
    ensures var path := job.Run(x).value;
            var r := ReadRange(job.tree, job.view, path[0], path[|path| - 1]);
            path[0] == x && r.Ok? && r.value.ids == path && job.Data(x) == TextNode(job.encode(r.value.content))
  {
    var path := job.Run(x).value;
    PathReads(job.tree, path, |path|);
    assert path[..|path|] == path;
  }

  lemma {:induction false} PathReads(tree: Tree, path: seq<Id>, n: nat)
    requires Ordered(tree.nodes) && IsRun(tree.nodes, path) && 0 < n <= |path|
    ensures RangePath(tree, path[0], path[n - 1]) == Ok(path[..n])
  {
    if n > 1 {
      PathReads(tree, path, n - 1);
      PathAscends(tree, path, 0, n - 1);
      assert path[..n] == path[..n - 1] + [path[n - 1]];
    } else {
      assert path[..1] == [path[0]];
    }
  }

  lemma {:induction false} PathAscends(tree: Tree, path: seq<Id>, i: nat, j: nat)
    requires Ordered(tree.nodes) && IsRun(tree.nodes, path) && i < j < |path|
    ensures path[i] < path[j]
  {
    if i < j - 1 {
      PathAscends(tree, path, i, j - 1);
    }
  }

  /** Where the view node of `x` goes. */
  method ViewParent(ghost job: Job, ghost viewId: Id, ghost done: seq<Id>, tree: Tree, x: Id, mapping: map<Id, Id>)
    returns (below: Option<Id>)
    requires job.tree == tree && x in tree.nodes && Maps(job, viewId, done, mapping)
    requires done == [] ==> forall q | q in mapping :: q == x
    ensures var row := ViewRow(job, viewId, done, x);
            row.parent == if below.None? && job.Run(x).Some? then Some(viewId + 1) else below
  {
    ImageInMapping(job, viewId, done, mapping, x);
    var parent := tree.nodes[x].parent;
    below := if parent.Some? && parent.value in mapping then Some(mapping[parent.value]) else None;
  }

  /** Makes the view node for `x`; the body of the loop for a node that is not
      skipped. */
  method MakeNode(
      store: ArborStorage, ghost job: Job, source: Id, tree: Tree, view: string -> Shape, encode: string -> string,
      viewId: Id, viewRoot: Id, x: Id, starts: map<Id, TextRun>, below: Option<Id>, ghost row: NodeRow)
    returns (created: Result<Id, ArborError>)
    requires job.Valid() && job.tree == tree && job.view == view && job.encode == encode && Keyed(job.paths, starts)
    requires store.State().Valid() && store.State().TreeGet(source, tree.order) == Ok(tree) && x in tree.nodes
    requires row == NodeRow(viewId, if below.None? && job.Run(x).Some? then Some(viewRoot) else below, job.Data(x),
      Active)
    requires row.parent.Some? ==> row.parent.value < store.next
    modifies store`nodes, store`children, store`next
    ensures store.State().Valid()
    ensures (store.State(), created) == old(store.State()).NodeCreate(viewId, row.parent, row.data, Active)
  {
    StartsAre(job, starts, x);
    if x in starts {
      RunReads(job, x);
      OrderOfRead(store.State(), source, tree);
      var parent := if below.Some? then below.value else viewRoot;
      created := ViewAddRange(store, source, tree.order, view, encode, viewId, parent, starts[x]);
    } else {
      created := store.NodeCreate(viewId, below, tree.nodes[x].data, Active);
    }
  }

  lemma {:induction false} StartsAre(job: Job, starts: map<Id, TextRun>, x: Id)
    requires Keyed(job.paths, starts)
    ensures x in starts <==> job.Run(x).Some?
    ensures x in starts ==>
      var path := job.Run(x).value;
      starts[x].start == path[0] && starts[x].end == path[|path| - 1]
  {
    assert RunFrom(job.paths, x).None? ==> x !in starts;
  }

  lemma {:induction false} OrderOfRead(db: Db, source: Id, tree: Tree)
    requires db.TreeGet(source, tree.order) == Ok(tree) && IterationOrder(tree.order, tree.nodes)
    ensures IterationOrder(tree.order, db.NodesOf(source))
  {
  }

  method CopyOne(
      store: ArborStorage, ghost job: Job, ghost db0: Db, ghost done: seq<Id>, source: Id, tree: Tree,
      view: string -> Shape, encode: string -> string, viewId: Id, viewRoot: Id, x: Id, starts: map<Id, TextRun>,
      mapping: map<Id, Id>)
    returns (mapping': map<Id, Id>)
    requires job.Valid() && job.tree == tree && job.view == view && job.encode == encode && store.State().Valid()
    requires Progress(job, source, tree.order, db0, store.State(), done, mapping) && x in tree.nodes
    requires done == [] ==> forall q | q in mapping :: q == x
    requires viewId == db0.next - 2 && viewRoot == db0.next - 1 && Keyed(job.paths, starts)
    modifies store`nodes, store`children, store`next
    ensures store.State().Valid()
    ensures Progress(job, source, tree.order, db0, store.State(), done + [x], mapping')
  {
    ghost var row := ViewRow(job, viewId, done, x);
    assert store.next !in store.nodes;
    ghost var after := store.State().NodeCreate(viewId, row.parent, row.data, Active).0;
    ProgressAdds(job, source, tree.order, db0, store.State(), done, mapping, x, row, after);
    var below := ViewParent(job, viewId, done, tree, x, mapping);
    var created := MakeNode(store, job, source, tree, view, encode, viewId, viewRoot, x, starts, below, row);
    mapping' := mapping;
    if created.Ok? {
      mapping' := mapping[x := created.value];
    }
  }

  lemma {:induction false} SourceReadable(db: Db, source: Id, order: seq<Id>)
    requires db.Valid() && IterationOrder(order, db.NodesOf(source)) && db.TreeGet(source, order).Ok?
    ensures var tree := db.TreeGet(source, order).value;
            Readable(tree) && tree.order == order && tree.nodes == db.NodesOf(source) && source in db.trees
  {
  }

  // ------------------------------------------------ the runs of the first reading

  /** The runs as the lists of their nodes. */
  ghost function PathsOf(tree: Tree, view: string -> Shape, min: nat): seq<seq<Id>>
    requires Ordered(tree.nodes)
  {
    var ids := Visit(tree);
    var spans := Spans(tree, view, ids, min, 0);
    seq(|spans|, m requires 0 <= m < |spans| => SpanNodes(ids, spans, m))
  }

  function SpanNodes(ids: seq<Id>, spans: seq<(nat, nat)>, m: nat): seq<Id>
    requires m < |spans|
  {
    if spans[m].0 <= spans[m].1 <= |ids| then ids[spans[m].0..spans[m].1] else []
  }

  lemma {:induction false} VisitDistinct(tree: Tree)
    requires Readable(tree)
    ensures Distinct(Visit(tree)) && AllIn(tree.nodes, Visit(tree))
  {
    var root := FirstRoot(tree, tree.order);
    if root.Some? {
      PreorderDistinct(tree, root.value);
      forall x | x in Visit(tree)
        ensures x in tree.nodes
      {
        PreorderMember(tree, root.value, x);
      }
    }
  }

  lemma {:induction false} OpenIsRun(tree: Tree, view: string -> Shape, ids: seq<Id>, i: nat, j: nat)
    requires Open(tree, view, ids, i, j)
    ensures IsRun(tree.nodes, ids[i..j])
  {
    var path := ids[i..j];
    forall k | 0 <= k < |path|
      ensures path[k] in tree.nodes && (k > 0 ==> tree.nodes[path[k]].parent == Some(path[k - 1]))
    {
      assert k > 0 ==> Linked(tree, view, ids, i + k);
      assert path[k] == ids[i + k] && (k > 0 ==> path[k - 1] == ids[i + k - 1]);
    }
  }

  lemma {:induction false} SpanIsRun(tree: Tree, view: string -> Shape, min: nat, m: nat)
    requires Readable(tree) && m < |Spans(tree, view, Visit(tree), min, 0)|
    ensures var ids, spans := Visit(tree), Spans(tree, view, Visit(tree), min, 0);
            var path, run := SpanNodes(ids, spans, m), ToRun(tree, view, ids, spans[m]);
            IsRun(tree.nodes, path) && run.start == path[0] && run.end == path[|path| - 1]
  {
    var ids := Visit(tree);
    var s := Spans(tree, view, ids, min, 0)[m];
    assert s in Spans(tree, view, ids, min, 0);
    SpansAreMaximalRuns(tree, view, ids, min, 0, s);
    OpenIsRun(tree, view, ids, s.0, s.1);
  }

  lemma {:induction false} SpansDisjoint(tree: Tree, view: string -> Shape, min: nat, m: nat, n: nat)
    requires Readable(tree) && m < n < |Spans(tree, view, Visit(tree), min, 0)|
    ensures var ids, spans := Visit(tree), Spans(tree, view, Visit(tree), min, 0);
            Disjoint(SpanNodes(ids, spans, m), SpanNodes(ids, spans, n))
  {
    var ids, spans := Visit(tree), Spans(tree, view, Visit(tree), min, 0);
    VisitDistinct(tree);
    SpansApart(tree, view, ids, min, 0, m, n);
    assert spans[m] in spans && spans[n] in spans;
    var a, b := SpanNodes(ids, spans, m), SpanNodes(ids, spans, n);
    forall i, j | 0 <= i < |a| && 0 <= j < |b|
      ensures a[i] != b[j]
    {
      assert a[i] == ids[spans[m].0 + i] && b[j] == ids[spans[n].0 + j];
    }
  }

  /** The first reading's runs make a valid job for the second reading. */
  lemma {:induction false} JobValid(first: Tree, tree: Tree, view: string -> Shape, encode: string -> string, min: nat)
    requires Readable(first) && Readable(tree) && tree.nodes == first.nodes
    ensures Job(tree, view, encode, PathsOf(first, view, min)).Valid()
    ensures var ids := Visit(first);
            RunsAre(PathsOf(first, view, min), ToRuns(first, view, ids, Spans(first, view, ids, min, 0)))
  {
    var ids, paths := Visit(first), PathsOf(first, view, min);
    var runs := ToRuns(first, view, ids, Spans(first, view, ids, min, 0));
    forall m | 0 <= m < |paths|
      ensures IsRun(tree.nodes, paths[m]) && runs[m].start == paths[m][0] && runs[m].end == paths[m][|paths[m]| - 1]
    {
      SpanIsRun(first, view, min, m);
    }
    forall m, n | 0 <= m < n < |paths|
      ensures Disjoint(paths[m], paths[n])
    {
      SpansDisjoint(first, view, min, m, n);
    }
  }

  // ---------------------------------------------------------- the whole collapse

  /** view_collapse_text_runs. The view tree gets, under consecutive ids, one row per
      kept node, in the order of the second reading. */
  method ViewCollapseTextRuns(
      store: ArborStorage, source: Id, order1: seq<Id>, order2: seq<Id>, view: string -> Shape,
      encode: string -> string, min: nat, owner: string)
    returns (r: Result<(Id, seq<TextRun>), ArborError>)
    requires store.State().Valid()
    requires IterationOrder(order1, store.State().NodesOf(source))
      && IterationOrder(order2, store.State().NodesOf(source))
    modifies store
    ensures store.State().Valid()
    ensures var db, viewId := old(store.State()), old(store.next);
            match db.TreeGet(source, order1)
            case Err(e) => r == Err(e) && store.State() == db
            case Ok(first) =>
              && Readable(first) && Readable(first.(order := order2))
              && var tree := first.(order := order2);
                 var job := Job(tree, view, encode, PathsOf(first, view, min));
                 && r == Ok((viewId, ToRuns(first, view, Visit(first), Spans(first, view, Visit(first), min, 0))))
                 && job.Valid() && Filled(job, viewId, db.TreeCreate(None, owner).0, store.State())
  {
    var detected := ViewDetectTextRuns(store, source, order1, view, min);
    if detected.Err? {
      return Err(detected.error);
    }
    ghost var first := store.State().TreeGet(source, order1).value;
    SourceReadable(store.State(), source, order1);
    NewTreeElsewhere(store.State(), owner, source, order2);
    var viewTree := store.TreeCreateWithId(None, owner);
    var viewId := viewTree.value;
    var read := store.TreeGet(source, order2);
    var tree := read.value;
    SourceReadable(store.State(), source, order2);
    assert tree == first.(order := order2);
    VisitDistinct(tree);
    JobValid(first, tree, view, encode, min);
    ghost var job := Job(tree, view, encode, PathsOf(first, view, min));
    FillView(store, job, source, tree, view, encode, viewId, detected.value);
    r := Ok((viewId, detected.value));
  }

  /** The view tree has one row per kept node, in the order of the second reading. */
  ghost predicate Filled(job: Job, viewId: Id, db0: Db, db: Db) {
    && Ordered(job.tree.nodes) && AllIn(job.tree.nodes, KeptOf(job, Visit(job.tree)))
    && Grown(db0, db, ViewRows(job, viewId, KeptOf(job, Visit(job.tree))))
  }

  /** Walk the source tree and fill the view tree. */
  method FillView(
      store: ArborStorage, ghost job: Job, source: Id, tree: Tree, view: string -> Shape, encode: string -> string,
      viewId: Id, runs: seq<TextRun>)
    requires job.Valid() && job.tree == tree && job.view == view && job.encode == encode && RunsAre(job.paths, runs)
    requires store.State().Valid() && Fresh(store.State()) && viewId == store.next - 2 && source != viewId
    requires store.State().TreeGet(source, tree.order) == Ok(tree) && AllIn(tree.nodes, Visit(tree))
    modifies store`nodes, store`children, store`next
    ensures store.State().Valid()
    ensures Filled(job, viewId, old(store.State()), store.State())
  {
    var viewRoot := store.trees[viewId].root;
    var children := BuildChildMap(tree);
    var collapsed, starts := CollapsedNodes(tree, children, runs, job.paths);
    var mapping := RootImage(tree, viewRoot);
    ProgressStarts(job, source, tree.order, store.State(), mapping);
    WalkSource(store, job, source, tree, view, encode, viewId, viewRoot, collapsed, starts, mapping);
  }

  /** The source root, if there is one, stands for the view root at first. */
  method RootImage(tree: Tree, viewRoot: Id) returns (mapping: map<Id, Id>)
    requires Ordered(tree.nodes)
    ensures AtRoot(mapping, Visit(tree))
    ensures forall q | q in mapping :: q in tree.nodes && tree.nodes[q].parent.None?
  {
    mapping := map[];
    var sourceRoot := FirstRoot(tree, tree.order);
    RootFirst(tree);
    if sourceRoot.Some? {
      mapping := mapping[sourceRoot.value := viewRoot];
    }
  }

  method WalkSource(
      store: ArborStorage, ghost job: Job, source: Id, tree: Tree, view: string -> Shape, encode: string -> string,
      viewId: Id, viewRoot: Id, collapsed: set<Id>, starts: map<Id, TextRun>, before: map<Id, Id>)
    requires job.Valid() && job.tree == tree && job.view == view && job.encode == encode
    requires store.State().Valid() && Progress(job, source, tree.order, store.State(), store.State(), [], before)
    requires AllIn(tree.nodes, Visit(tree)) && AtRoot(before, Visit(tree))
    requires viewId == store.next - 2 && viewRoot == store.next - 1
    requires collapsed == Collapsed(tree, job.paths) && Keyed(job.paths, starts)
    modifies store`nodes, store`children, store`next
    ensures store.State().Valid()
    ensures Filled(job, viewId, old(store.State()), store.State())
  {
    ghost var db0 := store.State();
    var order := TraverseTreeDfs(tree);
    var mapping := before;
    ghost var done: seq<Id> := [];
    WorkStarts(job, source, db0, order, mapping);
    for k := 0 to |order|
      invariant Working(job, source, db0, store.State(), order, k, done, mapping)
    {
      mapping, done := HandleNode(
        store, job, db0, done, source, tree, view, encode, viewId, viewRoot, order, k, collapsed, starts, mapping);
    }
    WorkEnds(job, source, db0, store.State(), order, done, mapping, viewId);
  }

  /** The loop stands before position k. */
  ghost predicate Working(
      job: Job, source: Id, db0: Db, db: Db, order: seq<Id>, k: nat, done: seq<Id>, mapping: map<Id, Id>) {
    && db.Valid() && job.Valid() && order == Visit(job.tree) && AllIn(job.tree.nodes, order) && k <= |order|
    && done == KeptOf(job, order[..k]) && (done == [] ==> k == 0 && AtRoot(mapping, order))
    && Progress(job, source, job.tree.order, db0, db, done, mapping)
  }

  lemma {:induction false} WorkStarts(job: Job, source: Id, db0: Db, order: seq<Id>, mapping: map<Id, Id>)
    requires db0.Valid() && job.Valid() && order == Visit(job.tree) && AllIn(job.tree.nodes, order)
    requires AtRoot(mapping, order) && Progress(job, source, job.tree.order, db0, db0, [], mapping)
    ensures Working(job, source, db0, db0, order, 0, [], mapping)
  {
    assert order[..0] == [];
  }

  lemma {:induction false} WorkEnds(
      job: Job, source: Id, db0: Db, db: Db, order: seq<Id>, done: seq<Id>, mapping: map<Id, Id>, viewId: Id)
    requires Working(job, source, db0, db, order, |order|, done, mapping) && viewId == db0.next - 2
    ensures db.Valid() && Filled(job, viewId, db0, db)
  {
    assert order[..|order|] == order;
    ProgressEnds(job, source, job.tree.order, db0, db, done, mapping, viewId, order);
  }

  lemma {:induction false} ProgressEnds(
      job: Job, source: Id, order: seq<Id>, db0: Db, db: Db, done: seq<Id>, mapping: map<Id, Id>, viewId: Id,
      ids: seq<Id>)
    requires Ordered(job.tree.nodes) && Progress(job, source, order, db0, db, done, mapping)
    requires viewId == db0.next - 2 && ids == Visit(job.tree) && done == KeptOf(job, ids)
    ensures Filled(job, viewId, db0, db)
  {
    FilledBy(job, viewId, db0, db, done);
  }

  lemma {:induction false} FilledBy(job: Job, viewId: Id, db0: Db, db: Db, done: seq<Id>)
    requires Ordered(job.tree.nodes) && AllIn(job.tree.nodes, done) && done == KeptOf(job, Visit(job.tree))
    requires Grown(db0, db, ViewRows(job, viewId, done))
    ensures Filled(job, viewId, db0, db)
  {
  }

  ghost predicate AtRoot(mapping: map<Id, Id>, order: seq<Id>) {
    forall q | q in mapping :: order != [] && q == order[0]
  }

  lemma {:induction false} KeptNext(job: Job, ids: seq<Id>, k: nat)
    requires Ordered(job.tree.nodes) && k < |ids|
    ensures KeptOf(job, ids[..k + 1]) == KeptOf(job, ids[..k]) + if job.Kept(ids[k]) then [ids[k]] else []
  {
    assert ids[..k + 1][..k] == ids[..k];
  }

  /** A node is skipped when it was met in a run but does not start one. */
  lemma {:induction false} SkipTest(job: Job, collapsed: set<Id>, starts: map<Id, TextRun>, x: Id)
    requires Ordered(job.tree.nodes) && collapsed == Collapsed(job.tree, job.paths) && Keyed(job.paths, starts)
    ensures x in collapsed && x !in starts <==> !job.Kept(x)
  {
    StartsAre(job, starts, x);
  }

  /** One turn of the loop: a node is skipped, or gets a view node. */
  method HandleNode(
      store: ArborStorage, ghost job: Job, ghost db0: Db, ghost done: seq<Id>, source: Id, tree: Tree,
      view: string -> Shape, encode: string -> string, viewId: Id, viewRoot: Id, order: seq<Id>, k: nat,
      collapsed: set<Id>, starts: map<Id, TextRun>, mapping: map<Id, Id>)
    returns (mapping': map<Id, Id>, ghost done': seq<Id>)
    requires job.tree == tree && job.view == view && job.encode == encode && k < |order|
    requires Working(job, source, db0, store.State(), order, k, done, mapping)
    requires viewId == db0.next - 2 && viewRoot == db0.next - 1
    requires collapsed == Collapsed(tree, job.paths) && Keyed(job.paths, starts)
    modifies store`nodes, store`children, store`next
    ensures Working(job, source, db0, store.State(), order, k + 1, done', mapping')
  {
    var x := order[k];
    mapping', done' := mapping, done;
    KeptNext(job, order, k);
    SkipTest(job, collapsed, starts, x);
    RootKept(job, k);
    if x in collapsed && x !in starts {
      return;
    }
    mapping' := CopyOne(store, job, db0, done, source, tree, view, encode, viewId, viewRoot, x, starts, mapping);
    done' := done + [x];
  }

  lemma {:induction false} RootFirst(tree: Tree)
    requires Ordered(tree.nodes)
    ensures var root := FirstRoot(tree, tree.order);
            if root.Some? then Visit(tree) != [] && Visit(tree)[0] == root.value else Visit(tree) == []
  {
  }

  /** The first node of the traversal is the root that was found, and it is kept. */
  lemma {:induction false} RootKept(job: Job, k: nat)
    requires job.Valid() && k < |Visit(job.tree)|
    ensures k == 0 ==> FirstRoot(job.tree, job.tree.order) == Some(Visit(job.tree)[0]) && job.Kept(Visit(job.tree)[0])
  {
    var root := Visit(job.tree)[0];
    if root in Collapsed(job.tree, job.paths) && job.Run(root).None? {
      var path := MetInRun(job.tree, job.paths, root);
      RunFound(job, path);
      WalkEnters(job.tree, path[0], path[|path| - 1], root);
    }
  }

  /** A node in the collapsed set was met in some run. */
  lemma {:induction false} MetInRun(tree: Tree, paths: seq<seq<Id>>, x: Id) returns (path: seq<Id>)
    requires Ordered(tree.nodes) && x in Collapsed(tree, paths)
    ensures path in paths && path != [] && x in Walked(tree, path[0], path[|path| - 1])
  {
    var last := paths[|paths| - 1];
    if last != [] && x in Walked(tree, last[0], last[|last| - 1]) {
      path := last;
    } else {
      path := MetInRun(tree, paths[..|paths| - 1], x);
    }
  }

  /** A node met in a walk is the walk's start or the first child of its parent. */
  lemma {:induction false} WalkEnters(tree: Tree, s: Id, end: Id, x: Id)
    requires Ordered(tree.nodes) && x in Walked(tree, s, end)
    ensures x == s || IsFirstChild(tree, x)
    decreases Later(tree, s)
  {
    if x != s {
      var c := Children(tree, s)[0];
      ChildIsLater(tree, s, c);
      WalkEnters(tree, c, end, x);
    }
  }

  ghost predicate IsFirstChild(tree: Tree, x: Id) {
    && x in tree.nodes && tree.nodes[x].parent.Some?
    && var cs := Children(tree, tree.nodes[x].parent.value);
       cs != [] && cs[0] == x
  }

  /** Every run is found again from its first node. */
  lemma {:induction false} RunFound(job: Job, path: seq<Id>)
    requires job.Valid() && path in job.paths
    ensures path != [] && job.Run(path[0]) == Some(path)
  {
    var m :| 0 <= m < |job.paths| && job.paths[m] == path;
    assert IsRun(job.tree.nodes, job.paths[m]);
    RunFoundAmong(job.paths, m);
  }

  lemma {:induction false} RunFoundAmong(paths: seq<seq<Id>>, m: nat)
    requires m < |paths| && paths[m] != []
    requires forall i, j :: 0 <= i < j < |paths| ==> Disjoint(paths[i], paths[j])
    ensures RunFrom(paths, paths[m][0]) == Some(paths[m])
  {
    var n := |paths| - 1;
    if m < n {
      assert Disjoint(paths[m], paths[n]) && paths[m][0] in paths[m];
      RunFoundAmong(paths[..n], m);
    }
  }
}
