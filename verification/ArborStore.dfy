// The Arbor tree store (src/activations/arbor/storage.rs).
//
// `Db` is the content of the SQL tables as a value, with one function per
// storage operation; `ArborStorage` is the storage object, whose methods
// update the tables in place and are proved equal to those functions.
//
// Ids come from one counter, so an id is smaller than every id minted after
// it; ids a caller invents are negative. That is how the model says that a
// fresh UUID was never named by anyone before it was generated.
module Arbor {
  import opened Prelude

  type Id = int

  datatype ResourceState = Active | ScheduledDelete | Archived

  /** Reference to data owned by another activation, here a stored message. */
  datatype Handle = Handle(message: int, role: string)

  datatype NodeType = TextNode(content: string) | ExternalNode(handle: Handle)

  datatype NodeRow = NodeRow(tree: Id, parent: Option<Id>, data: NodeType, state: ResourceState)

  datatype TreeRow = TreeRow(
    root: Id, refCount: int, state: ResourceState, scheduledAt: Option<int>, archivedAt: Option<int>)

  datatype ChildRow = ChildRow(parent: Id, child: Id, position: int)

  datatype ArborError =
    | TreeNotFound(tree: Id)
    | NodeNotFound(node: Id, tree: Id)
    | InvalidState(tree: Id)
    | NoReference(owner: string)
    | TooManyReleased(count: int, held: int)
    | ConstraintFailed

  /** Seven days, in seconds. */
  const GRACE: int := 604800

  /** A tree as read back by `tree_get`: its rows, the order in which the hash map
      that holds them happens to be iterated, and the child list of each node. */
  datatype Tree = Tree(id: Id, root: Id, nodes: map<Id, NodeRow>, order: seq<Id>, children: map<Id, seq<Id>>)

  /** `order` lists every key of the hash map once; nothing else is known of it. */
  ghost predicate IterationOrder(order: seq<Id>, nodes: map<Id, NodeRow>) {
    Distinct(order) && forall i :: i in order <==> i in nodes
  }

  /** Parents are older than their children. */
  ghost predicate Ordered(nodes: map<Id, NodeRow>) {
    forall i | i in nodes :: 0 <= i && (nodes[i].parent.Some? ==> nodes[i].parent.value < i)
  }

  /** The ids below `n` that name `p` as their parent, oldest first. */
  function NamedChildren(nodes: map<Id, NodeRow>, p: Id, n: nat): seq<Id> {
    if n == 0 then []
    else NamedChildren(nodes, p, n - 1)
         + if n - 1 in nodes && nodes[n - 1].parent == Some(p) then [n - 1] else []
  }

  /** SELECT child_id FROM node_children WHERE parent_id = p, in insertion order. */
  function IndexedChildren(rows: seq<ChildRow>, p: Id): seq<Id> {
    if rows == [] then []
    else IndexedChildren(rows[..|rows| - 1], p)
         + if rows[|rows| - 1].parent == p then [rows[|rows| - 1].child] else []
  }

  /** The index rows of `p` carry the positions 0, 1, 2, ... in insertion order. */
  ghost predicate Numbered(rows: seq<ChildRow>, p: Id) {
    rows == [] ||
    var rest, last := rows[..|rows| - 1], rows[|rows| - 1];
    Numbered(rest, p) && (last.parent == p ==> last.position == |IndexedChildren(rest, p)|)
  }

  /** SELECT COALESCE(MAX(position), -1) FROM node_children WHERE parent_id = p. */
  function MaxPosition(rows: seq<ChildRow>, p: Id): int {
    if rows == [] then -1
    else
      var rest := MaxPosition(rows[..|rows| - 1], p);
      var last := rows[|rows| - 1];
      if last.parent == p && last.position > rest then last.position else rest
  }

  /** The child index agrees with the parent pointers. */
  ghost predicate Indexed(nodes: map<Id, NodeRow>, rows: seq<ChildRow>, next: nat) {
    && (forall row | row in rows :: row.parent in nodes)
    && forall p | p in nodes :: IndexedAt(nodes, rows, next, p)
  }

  /** The index rows of one parent list exactly the nodes that name it, oldest
      first, at positions 0, 1, 2, ... */
  ghost predicate IndexedAt(nodes: map<Id, NodeRow>, rows: seq<ChildRow>, next: nat, p: Id) {
    IndexedChildren(rows, p) == NamedChildren(nodes, p, next) && Numbered(rows, p)
  }

  datatype Db = Db(
    trees: map<Id, TreeRow>,
    refs: map<Id, map<string, int>>,
    nodes: map<Id, NodeRow>,
    children: seq<ChildRow>,
    next: nat)
  {
    ghost predicate Valid() {
      && refs.Keys == trees.Keys
      && (forall t | t in trees :: t < next)
      && (forall i | i in nodes :: i < next && nodes[i].tree in trees)
      && (forall t | t in trees :: trees[t].root in nodes && nodes[trees[t].root].tree == t)
      && Ordered(nodes)
      && Indexed(nodes, children, next)
    }

    /** tree_create_with_id. A duplicate id violates the primary key and rolls back. */
    function TreeCreate(treeId: Option<Id>, owner: string): (Db, Result<Id, ArborError>) {
      var t := if treeId.Some? then treeId.value else next;
      var root := next + 1;
      if t in trees then (this.(next := next + 2), Err(ConstraintFailed))
      else
        (this.(trees := trees[t := TreeRow(root, 1, Active, None, None)],
               refs := refs[t := map[owner := 1]],
               nodes := nodes[root := NodeRow(t, None, TextNode(""), Active)],
               next := next + 2),
         Ok(t))
    }

    /** tree_claim: an archived tree cannot be claimed, a scheduled one is revived. */
    function TreeClaim(t: Id, owner: string, count: int): (Db, Result<int, ArborError>)
      requires refs.Keys == trees.Keys
    {
      if t !in trees then (this, Err(TreeNotFound(t)))
      else if trees[t].state == Archived then (this, Err(InvalidState(t)))
      else
        var revived := if trees[t].state == ScheduledDelete
                       then trees[t].(state := Active, scheduledAt := None) else trees[t];
        var held := if owner in refs[t] then refs[t][owner] else 0;
        (this.(trees := trees[t := revived.(refCount := revived.refCount + count)],
               refs := refs[t := refs[t][owner := held + count]]),
         Ok(revived.refCount + count))
    }

    /** tree_release: dropping the last reference schedules the tree for deletion. */
    function TreeRelease(t: Id, owner: string, count: int, now: int): (Db, Result<int, ArborError>)
      requires refs.Keys == trees.Keys
    {
      if t !in refs || owner !in refs[t] then (this, Err(NoReference(owner)))
      else if refs[t][owner] < count then (this, Err(TooManyReleased(count, refs[t][owner])))
      else
        var left := refs[t][owner] - count;
        var total := trees[t].refCount - count;
        var row := trees[t].(refCount := total);
        (this.(trees := trees[t := if total == 0
                                   then row.(state := ScheduledDelete, scheduledAt := Some(now)) else row],
               refs := refs[t := if left == 0 then refs[t] - {owner} else refs[t][owner := left]]),
         Ok(total))
    }

    /** Does the sweep at `now` archive this row? */
    static predicate Expired(row: TreeRow, now: int) {
      row.state == ScheduledDelete && row.scheduledAt.Some? && row.scheduledAt.value < now - GRACE
    }

    /** cleanup_scheduled_trees: one UPDATE over every expired row. */
    function Cleanup(now: int): Db {
      this.(trees := map t | t in trees ::
              if Expired(trees[t], now) then trees[t].(state := Archived, archivedAt := Some(now))
              else trees[t])
    }

    /** node_create_text / node_create_external / node_create_external_ephemeral.
        The node row and its index row are two statements: an unknown parent
        fails the second one and leaves the first in place. */
    function NodeCreate(t: Id, parent: Option<Id>, data: NodeType, state: ResourceState): (Db, Result<Id, ArborError>) {
      if t !in trees then (this.(next := next + 1), Err(ConstraintFailed))
      else
        var db := this.(nodes := nodes[next := NodeRow(t, parent, data, state)], next := next + 1);
        if parent.None? then (db, Ok(next))
        else if parent.value !in db.nodes then (db, Err(ConstraintFailed))
        else (db.(children := children + [ChildRow(parent.value, next, MaxPosition(children, parent.value) + 1)]),
              Ok(next))
    }

    /** tree_get: every tree but an archived one can be read. */
    function TreeGet(t: Id, order: seq<Id>): Result<Tree, ArborError> {
      if t !in trees then Err(TreeNotFound(t))
      else if trees[t].state == Archived then Err(InvalidState(t))
      else Ok(Tree(t, trees[t].root, NodesOf(t), order, ChildLists(t)))
    }

    /** The tree's node rows. */
    function NodesOf(t: Id): map<Id, NodeRow> {
      map i | i in nodes && nodes[i].tree == t :: nodes[i]
    }

    /** The child list of each of them, from the index. */
    function ChildLists(t: Id): map<Id, seq<Id>> {
      map i | i in nodes && nodes[i].tree == t :: IndexedChildren(children, i)
    }
  }

  /** The ids from the topmost ancestor down to `id`, all of them in tree `t`;
      None when some ancestor is missing or belongs to another tree. */
  function PathUp(nodes: map<Id, NodeRow>, t: Id, id: Id): Option<seq<Id>>
    requires Ordered(nodes)
    decreases if id < 0 then 0 else id + 1
  {
    if id !in nodes || nodes[id].tree != t then None
    else
      match nodes[id].parent
      case None => Some([id])
      case Some(p) =>
        match PathUp(nodes, t, p)
        case None => None
        case Some(up) => Some(up + [id])
  }

  class ArborStorage {
    var trees: map<Id, TreeRow>
    var refs: map<Id, map<string, int>>
    var nodes: map<Id, NodeRow>
    var children: seq<ChildRow>
    var next: nat

    ghost function State(): Db
      reads this
    {
      Db(trees, refs, nodes, children, next)
    }

    constructor ()
      ensures State() == Db(map[], map[], map[], [], 0) && State().Valid()
    {
      trees, refs, nodes, children, next := map[], map[], map[], [], 0;
    }

    method TreeCreateWithId(treeId: Option<Id>, owner: string) returns (r: Result<Id, ArborError>)
      requires State().Valid() && (treeId.Some? ==> treeId.value < next)
      modifies this
      ensures (State(), r) == old(State()).TreeCreate(treeId, owner) && State().Valid()
    {
      DbTreeCreateValid(State(), treeId, owner);
      var t := if treeId.Some? then treeId.value else next;
      var root := next + 1;
      next := next + 2;
      if t in trees {
        return Err(ConstraintFailed);
      }
      trees := trees[t := TreeRow(root, 1, Active, None, None)];
      refs := refs[t := map[owner := 1]];
      nodes := nodes[root := NodeRow(t, None, TextNode(""), Active)];
      r := Ok(t);
    }

    method TreeClaim(t: Id, owner: string, count: int) returns (r: Result<int, ArborError>)
      requires State().Valid()
      modifies this`trees, this`refs
      ensures (State(), r) == old(State()).TreeClaim(t, owner, count) && State().Valid()
    {
      LifecycleChangeValid(State(), State().TreeClaim(t, owner, count).0);
      if t !in trees {
        return Err(TreeNotFound(t));
      }
      var state := trees[t].state;
      if state == Archived {
        return Err(InvalidState(t));
      }
      if state == ScheduledDelete {
        trees := trees[t := trees[t].(state := Active, scheduledAt := None)];
      }
      var held := if owner in refs[t] then refs[t][owner] else 0;
      refs := refs[t := refs[t][owner := held + count]];
      trees := trees[t := trees[t].(refCount := trees[t].refCount + count)];
      r := Ok(trees[t].refCount);
      assert trees == old(State()).TreeClaim(t, owner, count).0.trees;
    }

    method TreeRelease(t: Id, owner: string, count: int, now: int) returns (r: Result<int, ArborError>)
      requires State().Valid()
      modifies this`trees, this`refs
      ensures (State(), r) == old(State()).TreeRelease(t, owner, count, now) && State().Valid()
    {
      LifecycleChangeValid(State(), State().TreeRelease(t, owner, count, now).0);
      if t !in refs || owner !in refs[t] {
        return Err(NoReference(owner));
      }
      var current := refs[t][owner];
      if current < count {
        return Err(TooManyReleased(count, current));
      }
      var left := current - count;
      if left == 0 {
        refs := refs[t := refs[t] - {owner}];
      } else {
        refs := refs[t := refs[t][owner := left]];
      }
      trees := trees[t := trees[t].(refCount := trees[t].refCount - count)];
      var total := trees[t].refCount;
      if total == 0 {
        trees := trees[t := trees[t].(state := ScheduledDelete, scheduledAt := Some(now))];
      }
      r := Ok(total);
      assert trees == old(State()).TreeRelease(t, owner, count, now).0.trees;
    }

    method CleanupScheduledTrees(now: int) returns (archived: nat)
      requires State().Valid()
      modifies this`trees
      ensures State() == old(State()).Cleanup(now) && State().Valid()
      ensures archived == |set t | t in old(trees) && Db.Expired(old(trees)[t], now)|
    {
      LifecycleChangeValid(State(), State().Cleanup(now));
      var expired := set t | t in trees && Db.Expired(trees[t], now);
      archived := |expired|;
      trees := map t | t in trees ::
        if Db.Expired(trees[t], now) then trees[t].(state := Archived, archivedAt := Some(now)) else trees[t];
    }

    /** node_create_text, node_create_external, node_create_external_ephemeral. */
    method NodeCreate(t: Id, parent: Option<Id>, data: NodeType, state: ResourceState)
      returns (r: Result<Id, ArborError>)
      requires State().Valid() && (parent.Some? ==> parent.value < next)
      modifies this`nodes, this`children, this`next
      ensures (State(), r) == old(State()).NodeCreate(t, parent, data, state) && State().Valid()
    {
      DbNodeCreateValid(State(), t, parent, data, state);
      r := InsertNode(t, parent, data, state);
    }

    /** The two-statement insert that the node_create methods share. */
    method InsertNode(
        t: Id, parent: Option<Id>, data: NodeType, state: ResourceState) returns (r: Result<Id, ArborError>)
      modifies this`nodes, this`children, this`next
      ensures (State(), r) == old(State()).NodeCreate(t, parent, data, state)
    {
      var id := next;
      next := next + 1;
      if t !in trees {
        return Err(ConstraintFailed);
      }
      nodes := nodes[id := NodeRow(t, parent, data, state)];
      r := Ok(id);
      if parent.Some? {
        var added := AddChildToParent(parent.value, id);
        if !added {
          r := Err(ConstraintFailed);
        }
      }
    }

    method AddChildToParent(parent: Id, child: Id) returns (ok: bool)
      modifies this`children
      ensures ok == (parent in nodes)
      ensures children == if ok then old(children) + [ChildRow(parent, child, MaxPosition(old(children), parent) + 1)]
                          else old(children)
    {
      var highest := -1;
      for i := 0 to |children|
        invariant highest == MaxPosition(children[..i], parent)
      {
        assert children[..i + 1][..i] == children[..i];
        if children[i].parent == parent && children[i].position > highest {
          highest := children[i].position;
        }
      }
      assert children[..|children|] == children;
      ok := parent in nodes;
      if ok {
        children := children + [ChildRow(parent, child, highest + 1)];
      }
    }

    /** get_node_children_internal: the index rows of a node, ordered by position. */
    method NodeChildren(id: Id) returns (ids: seq<Id>)
      requires State().Valid()
      ensures ids == if id in nodes then NamedChildren(nodes, id, next) else []
    {
      ids := SelectChildren(id);
      ChildrenOfAny(State(), id);
    }

    method SelectChildren(id: Id) returns (ids: seq<Id>)
      ensures ids == IndexedChildren(children, id)
    {
      ids := [];
      for i := 0 to |children|
        invariant ids == IndexedChildren(children[..i], id)
      {
        assert children[..i + 1][..i] == children[..i];
        if children[i].parent == id {
          ids := ids + [children[i].child];
        }
      }
      assert children[..|children|] == children;
    }

    method NodeGetParent(t: Id, id: Id) returns (r: Result<Option<Id>, ArborError>)
      ensures r == if id in nodes && nodes[id].tree == t then Ok(nodes[id].parent) else Err(NodeNotFound(id, t))
    {
      if id in nodes && nodes[id].tree == t {
        r := Ok(nodes[id].parent);
      } else {
        r := Err(NodeNotFound(id, t));
      }
    }

    method NodeGetPath(t: Id, id: Id) returns (r: Result<seq<Id>, ArborError>)
      requires State().Valid()
      ensures PathUp(nodes, t, id) == if r.Ok? then Some(r.value) else None
      ensures r.Err? ==> r.error.NodeNotFound?
    {
      var path: seq<Id> := [];
      var current := Some(id);
      assert forall up: seq<Id> :: up + Reverse(path) == up;
      while current.Some?
        invariant current.None? ==> PathUp(nodes, t, id) == Some(Reverse(path))
        invariant current.Some? ==>
          PathUp(nodes, t, id) == match PathUp(nodes, t, current.value)
                                  case None => None
                                  case Some(up) => Some(up + Reverse(path))
        decreases if current.None? || current.value < 0 then 0 else current.value + 1, current.Some?
      {
        ReverseSnoc(path, current.value);
        path := path + [current.value];
        var p := NodeGetParent(t, current.value);
        if p.Err? {
          return Err(p.error);
        }
        current := p.value;
        assert forall up: seq<Id>, x: Id, rest: seq<Id> :: up + ([x] + rest) == (up + [x]) + rest;
      }
      r := Ok(Reverse(path));
    }

    method NodeGet(t: Id, id: Id) returns (r: Result<NodeRow, ArborError>)
      ensures r == if id in nodes && nodes[id].tree == t then Ok(nodes[id]) else Err(NodeNotFound(id, t))
    {
      if id in nodes && nodes[id].tree == t {
        r := Ok(nodes[id]);
      } else {
        r := Err(NodeNotFound(id, t));
      }
    }

    /** tree_get: reads the rows of one tree; archived trees are refused. */
    method TreeGet(t: Id, order: seq<Id>) returns (r: Result<Tree, ArborError>)
      requires IterationOrder(order, State().NodesOf(t))
      ensures r == State().TreeGet(t, order)
    {
      if t !in trees {
        return Err(TreeNotFound(t));
      }
      if trees[t].state == Archived {
        return Err(InvalidState(t));
      }
      r := Ok(Tree(t, trees[t].root, map i | i in nodes && nodes[i].tree == t :: nodes[i], order,
                   map i | i in nodes && nodes[i].tree == t :: IndexedChildren(children, i)));
    }
  }

  // ----------------------------------------------------------------- validity

  lemma {:induction false} RowAdded(rows: seq<ChildRow>, row: ChildRow, p: Id)
    ensures IndexedChildren(rows + [row], p) == IndexedChildren(rows, p) + if row.parent == p then [row.child] else []
    ensures Numbered(rows + [row], p)
       <==> Numbered(rows, p) && (row.parent == p ==> row.position == |IndexedChildren(rows, p)|)
  {
    assert (rows + [row])[..|rows|] == rows;
  }

  lemma {:induction false} NamedChildrenFrame(nodes: map<Id, NodeRow>, nodes': map<Id, NodeRow>, p: Id, n: nat)
    requires forall i :: 0 <= i < n ==>
      (i in nodes <==> i in nodes') && (i in nodes ==> nodes[i].parent == nodes'[i].parent)
    ensures NamedChildren(nodes, p, n) == NamedChildren(nodes', p, n)
  {
    if n > 0 {
      NamedChildrenFrame(nodes, nodes', p, n - 1);
    }
  }

  lemma {:induction false} NamedChildrenNone(nodes: map<Id, NodeRow>, p: Id, n: nat)
    requires forall i | i in nodes :: i < n ==> nodes[i].parent != Some(p)
    ensures NamedChildren(nodes, p, n) == []
  {
    if n > 0 {
      NamedChildrenNone(nodes, p, n - 1);
    }
  }

  /** With positions 0..k-1 in place, the next position is k. */
  lemma {:induction false} MaxPositionIsLast(rows: seq<ChildRow>, p: Id)
    requires Numbered(rows, p)
    ensures MaxPosition(rows, p) == |IndexedChildren(rows, p)| - 1
  {
    if rows != [] {
      MaxPositionIsLast(rows[..|rows| - 1], p);
    }
  }

  /** Rows of one parent inserted later sit at later positions, so that ORDER BY
      position is insertion order. */
  lemma {:induction false} PositionsAscend(rows: seq<ChildRow>, p: Id, i: nat, j: nat)
    requires Numbered(rows, p) && i < j < |rows| && rows[i].parent == p && rows[j].parent == p
    ensures rows[i].position < rows[j].position
    decreases |rows|
  {
    var rest := rows[..|rows| - 1];
    if j < |rows| - 1 {
      PositionsAscend(rest, p, i, j);
    } else {
      PositionBounded(rest, p, i);
    }
  }

  lemma {:induction false} PositionBounded(rows: seq<ChildRow>, p: Id, i: nat)
    requires Numbered(rows, p) && i < |rows| && rows[i].parent == p
    ensures 0 <= rows[i].position < |IndexedChildren(rows, p)|
    decreases |rows|
  {
    if i < |rows| - 1 {
      PositionBounded(rows[..|rows| - 1], p, i);
    }
  }

  lemma {:induction false} NoRows(rows: seq<ChildRow>, p: Id)
    requires forall row | row in rows :: row.parent != p
    ensures IndexedChildren(rows, p) == [] && Numbered(rows, p)
  {
    if rows != [] {
      NoRows(rows[..|rows| - 1], p);
      assert rows[|rows| - 1] in rows;
    }
  }

  /** A new node that got no index row (it has no parent, or an unknown one)
      leaves every child list as it was. */
  lemma {:induction false} IndexNewLoose(nodes: map<Id, NodeRow>, rows: seq<ChildRow>, n: nat, row: NodeRow, p: Id)
    requires Ordered(nodes) && Indexed(nodes, rows, n) && (forall i | i in nodes :: i < n)
    requires row.parent.Some? ==> row.parent.value !in nodes && row.parent.value < n
    requires p in nodes || p == n
    ensures IndexedAt(nodes[n := row], rows, n + 1, p)
  {
    var nodes' := nodes[n := row];
    NamedChildrenFrame(nodes, nodes', p, n);
    assert NamedChildren(nodes', p, n + 1) == NamedChildren(nodes', p, n);
    if p in nodes {
      assert IndexedAt(nodes, rows, n, p);
    } else {
      NamedChildrenNone(nodes, p, n);
      NoRows(rows, p);
    }
  }

  /** A new node with a known parent is appended to that parent's list only. */
  lemma {:induction false} IndexNewChild(nodes: map<Id, NodeRow>, rows: seq<ChildRow>, n: nat, row: NodeRow, p: Id)
    requires Ordered(nodes) && Indexed(nodes, rows, n) && (forall i | i in nodes :: i < n)
    requires row.parent.Some? && row.parent.value in nodes
    requires p in nodes || p == n
    ensures var at := MaxPosition(rows, row.parent.value) + 1;
            IndexedAt(nodes[n := row], rows + [ChildRow(row.parent.value, n, at)], n + 1, p)
  {
    var q := row.parent.value;
    var at := MaxPosition(rows, q) + 1;
    NamedChildrenFrame(nodes, nodes[n := row], p, n);
    RowAdded(rows, ChildRow(q, n, at), p);
    if p in nodes {
      assert IndexedAt(nodes, rows, n, p);
      MaxPositionIsLast(rows, p);
    } else {
      NamedChildrenNone(nodes, p, n);
      NoRows(rows, p);
    }
  }

  lemma {:induction false} IndexLater(nodes: map<Id, NodeRow>, rows: seq<ChildRow>, n: nat, n': nat)
    requires Indexed(nodes, rows, n) && (forall i | i in nodes :: i < n) && n <= n'
    ensures Indexed(nodes, rows, n')
    decreases n' - n
  {
    if n < n' {
      forall p | p in nodes
        ensures IndexedAt(nodes, rows, n + 1, p)
      {
        assert IndexedAt(nodes, rows, n, p);
      }
      IndexLater(nodes, rows, n + 1, n');
    }
  }

  lemma {:induction false} IndexedNewLoose(
      nodes: map<Id, NodeRow>, rows: seq<ChildRow>, n: nat, row: NodeRow, nodes': map<Id, NodeRow>, n': nat)
    requires Ordered(nodes) && Indexed(nodes, rows, n) && (forall i | i in nodes :: i < n)
    requires row.parent.Some? ==> row.parent.value !in nodes && row.parent.value < n
    requires nodes' == nodes[n := row] && n' == n + 1
    ensures Indexed(nodes', rows, n')
  {
    forall p | p in nodes'
      ensures IndexedAt(nodes', rows, n', p)
    {
      IndexNewLoose(nodes, rows, n, row, p);
    }
  }

  lemma {:induction false} IndexedNewChild(
      nodes: map<Id, NodeRow>, rows: seq<ChildRow>, n: nat, row: NodeRow, nodes': map<Id, NodeRow>,
      rows': seq<ChildRow>, n': nat)
    requires Ordered(nodes) && Indexed(nodes, rows, n) && (forall i | i in nodes :: i < n)
    requires row.parent.Some? && row.parent.value in nodes
    requires nodes' == nodes[n := row] && n' == n + 1
    requires rows' == rows + [ChildRow(row.parent.value, n, MaxPosition(rows, row.parent.value) + 1)]
    ensures Indexed(nodes', rows', n')
  {
    forall p | p in nodes'
      ensures IndexedAt(nodes', rows', n', p)
    {
      IndexNewChild(nodes, rows, n, row, p);
    }
  }

  lemma {:induction false} DbTreeCreateValid(db: Db, treeId: Option<Id>, owner: string)
    requires db.Valid() && (treeId.Some? ==> treeId.value < db.next)
    ensures db.TreeCreate(treeId, owner).0.Valid()
  {
    var t := if treeId.Some? then treeId.value else db.next;
    if t in db.trees {
      LaterValid(db, db.next + 2);
    } else {
      RootAddedValid(db, t, owner, db.TreeCreate(treeId, owner).0);
    }
  }

  lemma {:induction false} RootAddedValid(db: Db, t: Id, owner: string, db': Db)
    requires db.Valid() && t !in db.trees && t <= db.next
    requires db'.trees == db.trees[t := TreeRow(db.next + 1, 1, Active, None, None)]
    requires db'.refs == db.refs[t := map[owner := 1]]
    requires db'.nodes == db.nodes[db.next + 1 := NodeRow(t, None, TextNode(""), Active)]
    requires db'.children == db.children && db'.next == db.next + 2
    ensures db'.Valid()
  {
    IndexLater(db.nodes, db.children, db.next, db.next + 1);
    IndexedNewLoose(db.nodes, db.children, db.next + 1, NodeRow(t, None, TextNode(""), Active), db'.nodes, db'.next);
    NodeAddedValid(db, db', db.next + 1);
  }

  /** A new tree is there to be read, and holds its root only. */
  lemma {:induction false} NewTree(db: Db, owner: string)
    requires db.Valid()
    ensures var db' := db.TreeCreate(None, owner).0;
            && db.TreeCreate(None, owner).1 == Ok(db.next)
            && db.next in db'.trees && db'.trees[db.next].root == db.next + 1 && db'.trees[db.next].state == Active
            && db'.next == db.next + 2
            && db'.NodesOf(db.next) == map[db.next + 1 := NodeRow(db.next, None, TextNode(""), Active)]
            && db.next + 1 in db'.nodes
  {
    assert forall i | i in db.nodes :: db.nodes[i].tree in db.trees;
    assert forall t | t in db.trees :: t < db.next;
    var db' := db.TreeCreate(None, owner).0;
    assert forall i | i in db'.nodes :: db'.nodes[i].tree == db.next <==> i == db.next + 1;
  }

  lemma {:induction false} LaterValid(db: Db, n: nat)
    requires db.Valid() && db.next <= n
    ensures db.(next := n).Valid()
  {
    IndexLater(db.nodes, db.children, db.next, n);
  }

  lemma {:induction false} NodeAddedValid(db: Db, db': Db, id: nat)
    requires db.Valid() && db.next <= id < db'.next
    requires id in db'.nodes && db'.nodes == db.nodes[id := db'.nodes[id]]
    requires db'.nodes[id].parent.Some? ==> db'.nodes[id].parent.value < id
    requires db.trees.Keys <= db'.trees.Keys && db'.nodes[id].tree in db'.trees
    requires db'.refs.Keys == db'.trees.Keys
    requires forall t | t in db'.trees :: t < db'.next
    requires forall t | t in db'.trees ::
      (t in db.trees && db'.trees[t].root == db.trees[t].root) || (db'.trees[t].root == id && db'.nodes[id].tree == t)
    requires Indexed(db'.nodes, db'.children, db'.next)
    ensures db'.Valid()
  {
  }

  lemma {:induction false} DbNodeCreateValid(db: Db, t: Id, parent: Option<Id>, data: NodeType, state: ResourceState)
    requires db.Valid() && (parent.Some? ==> parent.value < db.next)
    ensures db.NodeCreate(t, parent, data, state).0.Valid()
  {
    var db' := db.NodeCreate(t, parent, data, state).0;
    if t !in db.trees {
      LaterValid(db, db.next + 1);
    } else if parent.Some? && parent.value in db.nodes {
      ChildCreatedValid(db, t, parent.value, data, state);
    } else {
      LooseCreatedValid(db, t, parent, data, state);
    }
  }

  lemma {:induction false} ChildCreatedValid(db: Db, t: Id, parent: Id, data: NodeType, state: ResourceState)
    requires db.Valid() && t in db.trees && parent in db.nodes
    ensures db.NodeCreate(t, Some(parent), data, state).0.Valid()
  {
    ChildAddedValid(db, NodeRow(t, Some(parent), data, state), db.NodeCreate(t, Some(parent), data, state).0);
  }

  lemma {:induction false} LooseCreatedValid(db: Db, t: Id, parent: Option<Id>, data: NodeType, state: ResourceState)
    requires db.Valid() && t in db.trees && (parent.Some? ==> parent.value !in db.nodes && parent.value < db.next)
    ensures db.NodeCreate(t, parent, data, state).0.Valid()
  {
    LooseAddedValid(db, NodeRow(t, parent, data, state), db.NodeCreate(t, parent, data, state).0);
  }

  /** A node_create that fails leaves the node rows alone exactly when the tree is
      unknown. Otherwise it leaves an orphan: a row of the tree that no node lists
      as its child and that node_get_path refuses. */
  lemma {:induction false} FailedCreateOrphans(db: Db, t: Id, parent: Option<Id>, data: NodeType, state: ResourceState)
    requires db.Valid() && (parent.Some? ==> parent.value < db.next)
    requires db.NodeCreate(t, parent, data, state).1.Err?
    ensures var db' := db.NodeCreate(t, parent, data, state).0;
            && (db'.nodes == db.nodes <==> t !in db.trees)
            && (t in db.trees ==>
                  && db.next in db'.NodesOf(t)
                  && (forall p | p in db'.nodes :: db.next !in IndexedChildren(db'.children, p))
                  && Ordered(db'.nodes) && PathUp(db'.nodes, t, db.next) == None)
  {
    if t in db.trees {
      DbNodeCreateValid(db, t, parent, data, state);
      assert db.next !in db.nodes;
      LooseNotListed(db.NodeCreate(t, parent, data, state).0, db.next);
    }
  }

  /** A row whose parent is missing is in no child list and has no path. */
  lemma {:induction false} LooseNotListed(db: Db, id: Id)
    requires db.Valid() && id in db.nodes && db.nodes[id].parent.Some? && db.nodes[id].parent.value !in db.nodes
    ensures forall p | p in db.nodes :: id !in IndexedChildren(db.children, p)
    ensures PathUp(db.nodes, db.nodes[id].tree, id) == None
  {
    var missing := db.nodes[id].parent.value;
    assert PathUp(db.nodes, db.nodes[id].tree, missing) == None;
    forall p | p in db.nodes
      ensures id !in IndexedChildren(db.children, p)
    {
      assert IndexedAt(db.nodes, db.children, db.next, p);
      NamedNames(db.nodes, p, db.next);
    }
  }

  lemma {:induction false} NamedNames(nodes: map<Id, NodeRow>, p: Id, n: nat)
    ensures forall i | i in NamedChildren(nodes, p, n) :: i in nodes && nodes[i].parent == Some(p)
  {
    if n > 0 {
      NamedNames(nodes, p, n - 1);
    }
  }

  /** The index lists the children of a node, and nothing for an id without a row. */
  lemma {:induction false} ChildrenOfAny(db: Db, id: Id)
    requires db.Valid()
    ensures IndexedChildren(db.children, id) == if id in db.nodes then NamedChildren(db.nodes, id, db.next) else []
  {
    if id in db.nodes {
      assert IndexedAt(db.nodes, db.children, db.next, id);
    } else {
      NoRows(db.children, id);
    }
  }

  /** A node created in a new tree under an id that was never minted. */
  lemma {:induction false} OrphanInput()
    ensures var db := Db(map[], map[], map[], [], 0).TreeCreate(None, "owner").0;
            var (db', r) := db.NodeCreate(0, Some(-1), TextNode("lost"), Active);
            db.Valid() && r.Err? && db'.nodes.Keys == {1, 2} && db.nodes.Keys == {1}
  {
    DbTreeCreateValid(Db(map[], map[], map[], [], 0), None, "owner");
  }

  lemma {:induction false} ChildAddedValid(db: Db, row: NodeRow, db': Db)
    requires db.Valid() && row.tree in db.trees && row.parent.Some? && row.parent.value in db.nodes
    requires db'.nodes == db.nodes[db.next := row] && db'.next == db.next + 1
    requires db'.children == db.children + [ChildRow(row.parent.value, db.next,
      MaxPosition(db.children, row.parent.value) + 1)]
    requires db'.trees == db.trees && db'.refs == db.refs
    ensures db'.Valid()
  {
    IndexedNewChild(db.nodes, db.children, db.next, row, db'.nodes, db'.children, db'.next);
    NodeAddedValid(db, db', db.next);
  }

  lemma {:induction false} LooseAddedValid(db: Db, row: NodeRow, db': Db)
    requires db.Valid() && row.tree in db.trees
    requires row.parent.Some? ==> row.parent.value !in db.nodes && row.parent.value < db.next
    requires db'.nodes == db.nodes[db.next := row] && db'.next == db.next + 1
    requires db'.children == db.children && db'.trees == db.trees && db'.refs == db.refs
    ensures db'.Valid()
  {
    IndexedNewLoose(db.nodes, db.children, db.next, row, db'.nodes, db'.next);
    NodeAddedValid(db, db', db.next);
  }

  /** Changing only lifecycle columns and reference rows keeps the store valid. */
  lemma {:induction false} LifecycleChangeValid(db: Db, db': Db)
    requires db.Valid()
    requires db'.nodes == db.nodes && db'.children == db.children && db'.next == db.next
    requires db'.trees.Keys == db.trees.Keys && db'.refs.Keys == db'.trees.Keys
    requires forall t | t in db.trees :: db'.trees[t].root == db.trees[t].root
    ensures db'.Valid()
  {
  }
}
