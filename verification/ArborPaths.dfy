// What `node_get_path` means: the one chain of parent pointers that leads from
// a parentless node down to the node asked for.
module ArborPaths {
  import opened Prelude
  import opened Arbor

  /** `path` runs from a parentless node to `id`, one parent pointer at a time, inside tree `t`. */
  ghost predicate IsPath(nodes: map<Id, NodeRow>, t: Id, path: seq<Id>, id: Id) {
    && path != [] && path[|path| - 1] == id
    && (forall k :: 0 <= k < |path| ==> path[k] in nodes && nodes[path[k]].tree == t)
    && nodes[path[0]].parent == None
    && (forall k :: 0 < k < |path| ==> nodes[path[k]].parent == Some(path[k - 1]))
  }

  lemma {:induction false} PathUpSound(nodes: map<Id, NodeRow>, t: Id, id: Id)
    requires Ordered(nodes) && PathUp(nodes, t, id).Some?
    ensures IsPath(nodes, t, PathUp(nodes, t, id).value, id)
    decreases if id < 0 then 0 else id + 1
  {
    if nodes[id].parent.Some? {
      var p := nodes[id].parent.value;
      PathUpSound(nodes, t, p);
      var up := PathUp(nodes, t, p).value;
      assert up[|up| - 1] == p;
    }
  }

  lemma {:induction false} PathUpComplete(nodes: map<Id, NodeRow>, t: Id, path: seq<Id>, id: Id)
    requires Ordered(nodes) && IsPath(nodes, t, path, id)
    ensures PathUp(nodes, t, id) == Some(path)
    decreases |path|
  {
    var n := |path| - 1;
    assert path[n] == id;
    if n > 0 {
      assert nodes[id].parent == Some(path[n - 1]);
      PathUpComplete(nodes, t, path[..n], path[n - 1]);
      assert path == path[..n] + [id];
    } else {
      assert path == [id];
    }
  }

  /** node_get_path answers with `path` exactly when `path` is such a chain; so
      there is at most one, and an error means there is none. */
  lemma {:induction false} PathCharacterized(nodes: map<Id, NodeRow>, t: Id, path: seq<Id>, id: Id)
    requires Ordered(nodes)
    ensures PathUp(nodes, t, id) == Some(path) <==> IsPath(nodes, t, path, id)
  {
    if PathUp(nodes, t, id) == Some(path) {
      PathUpSound(nodes, t, id);
    }
    if IsPath(nodes, t, path, id) {
      PathUpComplete(nodes, t, path, id);
    }
  }

  /** No node is visited twice. */
  lemma {:induction false} PathIncreases(nodes: map<Id, NodeRow>, t: Id, path: seq<Id>, id: Id, i: nat, j: nat)
    requires Ordered(nodes) && IsPath(nodes, t, path, id) && i < j < |path|
    ensures path[i] < path[j]
    decreases j
  {
    assert nodes[path[j]].parent == Some(path[j - 1]);
    if i < j - 1 {
      PathIncreases(nodes, t, path, id, i, j - 1);
    }
  }

  /** Every parent pointer stays inside the tree. */
  ghost predicate WithinTree(nodes: map<Id, NodeRow>, t: Id) {
    forall i | i in nodes && nodes[i].tree == t && nodes[i].parent.Some? ::
      nodes[i].parent.value in nodes && nodes[nodes[i].parent.value].tree == t
  }

  /** In such a tree every node has its path. */
  lemma {:induction false} PathExists(nodes: map<Id, NodeRow>, t: Id, id: Id)
    requires Ordered(nodes) && WithinTree(nodes, t) && id in nodes && nodes[id].tree == t
    ensures PathUp(nodes, t, id).Some?
    decreases if id < 0 then 0 else id + 1
  {
    if nodes[id].parent.Some? {
      PathExists(nodes, t, nodes[id].parent.value);
    }
  }

  /** One call of the store, as far as nodes and the child index are concerned. */
  datatype StoreOp =
    | MakeTree(treeId: Option<Id>, owner: string)
    | MakeNode(tree: Id, parent: Option<Id>, data: NodeType, state: ResourceState)

  /** The caller names only ids that exist already (or never will). */
  predicate Askable(db: Db, op: StoreOp) {
    match op
    case MakeTree(t, _) => t.Some? ==> t.value < db.next
    case MakeNode(_, p, _, _) => p.Some? ==> p.value < db.next
  }

  function Apply(db: Db, op: StoreOp): Db {
    match op
    case MakeTree(t, owner) => db.TreeCreate(t, owner).0
    case MakeNode(t, p, data, state) => db.NodeCreate(t, p, data, state).0
  }

  ghost predicate Run(dbs: seq<Db>, ops: seq<StoreOp>) {
    && |dbs| == |ops| + 1 && dbs[0] == Db(map[], map[], map[], [], 0)
    && forall k :: 0 <= k < |ops| ==> Askable(dbs[k], ops[k]) && dbs[k + 1] == Apply(dbs[k], ops[k])
  }

  /** In every reachable state, failed creations included, the children list of
      each node is the nodes that name it as parent, oldest first, at positions
      0, 1, 2, ... */
  lemma {:induction false} IndexAgreesOnEveryRun(dbs: seq<Db>, ops: seq<StoreOp>, k: nat, p: Id)
    requires Run(dbs, ops) && k < |dbs| && p in dbs[k].nodes
    ensures IndexedAt(dbs[k].nodes, dbs[k].children, dbs[k].next, p)
  {
    RunValid(dbs, ops, k);
  }

  lemma {:induction false} RunValid(dbs: seq<Db>, ops: seq<StoreOp>, k: nat)
    requires Run(dbs, ops) && k < |dbs|
    ensures dbs[k].Valid()
  {
    if k > 0 {
      RunValid(dbs, ops, k - 1);
      match ops[k - 1]
      case MakeTree(t, owner) => DbTreeCreateValid(dbs[k - 1], t, owner);
      case MakeNode(t, p, data, state) => DbNodeCreateValid(dbs[k - 1], t, p, data, state);
    }
  }

  /** A creation asked for inside its parent's tree. */
  predicate AsksWithinTree(db: Db, op: StoreOp) {
    op.MakeNode? && op.parent.Some? ==> op.parent.value in db.nodes && db.nodes[op.parent.value].tree == op.tree
  }

  /** When every creation names a parent of its own tree, node_get_path finds
      the path of every node of every tree, in every reachable state. */
  lemma {:induction false} PathsOnEveryRun(dbs: seq<Db>, ops: seq<StoreOp>, k: nat, id: Id)
    requires Run(dbs, ops) && k < |dbs|
    requires forall j :: 0 <= j < |ops| ==> AsksWithinTree(dbs[j], ops[j])
    requires id in dbs[k].nodes
    ensures dbs[k].Valid() && PathUp(dbs[k].nodes, dbs[k].nodes[id].tree, id).Some?
  {
    RunValid(dbs, ops, k);
    RunWithinTree(dbs, ops, k, dbs[k].nodes[id].tree);
    PathExists(dbs[k].nodes, dbs[k].nodes[id].tree, id);
  }

  lemma {:induction false} RunWithinTree(dbs: seq<Db>, ops: seq<StoreOp>, k: nat, t: Id)
    requires Run(dbs, ops) && k < |dbs|
    requires forall j :: 0 <= j < |ops| ==> AsksWithinTree(dbs[j], ops[j])
    ensures WithinTree(dbs[k].nodes, t)
  {
    if k > 0 {
      RunWithinTree(dbs, ops, k - 1, t);
      RunValid(dbs, ops, k - 1);
      assert AsksWithinTree(dbs[k - 1], ops[k - 1]);
      StepWithinTree(dbs[k - 1], ops[k - 1], t);
    }
  }

  lemma {:induction false} StepWithinTree(db: Db, op: StoreOp, t: Id)
    requires db.Valid() && Askable(db, op) && AsksWithinTree(db, op) && WithinTree(db.nodes, t)
    ensures WithinTree(Apply(db, op).nodes, t)
  {
  }

  // ------------------------------------------------------- growth of the store

  /** Rows already present are never changed by a creation. */
  ghost predicate Extends(nodes: map<Id, NodeRow>, nodes': map<Id, NodeRow>) {
    forall i | i in nodes :: i in nodes' && nodes'[i] == nodes[i]
  }

  lemma {:induction false} PathStable(nodes: map<Id, NodeRow>, nodes': map<Id, NodeRow>, t: Id, id: Id)
    requires Ordered(nodes) && Ordered(nodes') && Extends(nodes, nodes') && PathUp(nodes, t, id).Some?
    ensures PathUp(nodes', t, id) == PathUp(nodes, t, id)
    decreases if id < 0 then 0 else id + 1
  {
    if nodes[id].parent.Some? {
      PathStable(nodes, nodes', t, nodes[id].parent.value);
    }
  }

  /** The data on a path, root first. */
  function DataOf(nodes: map<Id, NodeRow>, path: seq<Id>): (d: seq<NodeType>)
    requires forall k :: 0 <= k < |path| ==> path[k] in nodes
  {
    seq(|path|, k requires 0 <= k < |path| => nodes[path[k]].data)
  }
}
