// A chain of nodes, each the child of the one before: what importing a session
// and running a chat append to a tree.
module Chain {
  import opened Prelude
  import opened Arbor
  import opened ArborPaths
  import opened Traversal

  datatype Entry = Entry(data: NodeType, state: ResourceState)

  /** The store after creating one node per entry, each under the one before. */
  function AppendChain(db: Db, t: Id, parent: Id, entries: seq<Entry>): Db {
    if entries == [] then db
    else
      var front, last := entries[..|entries| - 1], entries[|entries| - 1];
      AppendChain(db, t, parent, front)
      .NodeCreate(t, Some(ChainEnd(db.next, parent, |front|)), last.data, last.state).0
  }

  /** The last of `n` chained nodes, or the parent they hang from. */
  function ChainEnd(next: nat, parent: Id, n: nat): Id {
    if n == 0 then parent else next + n - 1
  }

  /** `n` consecutive ids. */
  function IdsFrom(next: nat, n: nat): seq<Id> {
    if n == 0 then [] else IdsFrom(next, n - 1) + [next + n - 1]
  }

  /** The row of the chained node `i`. */
  function ChainRow(next: nat, t: Id, parent: Id, entries: seq<Entry>, i: Id): NodeRow
    requires next <= i < next + |entries|
  {
    NodeRow(t, Some(ChainEnd(next, parent, i - next)), entries[i - next].data, entries[i - next].state)
  }

  /** `nodes'` is `nodes` and one new row per entry, linked in a chain. */
  ghost predicate Chained(
      nodes: map<Id, NodeRow>, nodes': map<Id, NodeRow>, next: nat, t: Id, parent: Id, entries: seq<Entry>) {
    && Extends(nodes, nodes')
    && (forall i | i in nodes' :: i in nodes || next <= i < next + |entries|)
    && forall i :: next <= i < next + |entries| ==> i in nodes' && nodes'[i] == ChainRow(next, t, parent, entries, i)
  }

  /** Appending succeeds whenever the tree and the parent exist, and adds exactly
      the chain. */
  lemma {:induction false} ChainAppended(db: Db, t: Id, parent: Id, entries: seq<Entry>)
    requires db.Valid() && t in db.trees && parent in db.nodes
    ensures var db' := AppendChain(db, t, parent, entries);
            && db'.Valid() && db'.trees == db.trees && db'.refs == db.refs
            && db'.next == db.next + |entries|
            && Chained(db.nodes, db'.nodes, db.next, t, parent, entries)
            && ChainEnd(db.next, parent, |entries|) in db'.nodes
  {
    ChainGrows(db, t, parent, entries);
    ChainValid(db, t, parent, entries);
  }

  lemma {:induction false} ChainGrows(db: Db, t: Id, parent: Id, entries: seq<Entry>)
    requires t in db.trees && parent in db.nodes && forall i | i in db.nodes :: i < db.next
    ensures var db' := AppendChain(db, t, parent, entries);
            && db'.trees == db.trees && db'.refs == db.refs
            && db'.next == db.next + |entries|
            && Chained(db.nodes, db'.nodes, db.next, t, parent, entries)
            && ChainEnd(db.next, parent, |entries|) in db'.nodes
  {
    if entries != [] {
      var front, last := entries[..|entries| - 1], entries[|entries| - 1];
      ChainGrows(db, t, parent, front);
      assert entries == front + [last];
      OneMore(db, AppendChain(db, t, parent, front), t, parent, front, last);
    }
  }

  lemma {:induction false} ChainValid(db: Db, t: Id, parent: Id, entries: seq<Entry>)
    requires db.Valid() && t in db.trees && parent in db.nodes
    ensures AppendChain(db, t, parent, entries).Valid()
  {
    if entries != [] {
      var front, last := entries[..|entries| - 1], entries[|entries| - 1];
      ChainValid(db, t, parent, front);
      ChainGrows(db, t, parent, front);
      DbNodeCreateValid(AppendChain(db, t, parent, front), t, Some(ChainEnd(db.next, parent, |front|)), last.data,
        last.state);
    }
  }

  lemma {:induction false} OneMore(db: Db, mid: Db, t: Id, parent: Id, front: seq<Entry>, last: Entry)
    requires t in mid.trees && mid.next == db.next + |front| && forall i | i in db.nodes :: i < db.next
    requires Chained(db.nodes, mid.nodes, db.next, t, parent, front)
    requires ChainEnd(db.next, parent, |front|) in mid.nodes
    ensures var db' := mid.NodeCreate(t, Some(ChainEnd(db.next, parent, |front|)), last.data, last.state).0;
            && db'.trees == mid.trees && db'.refs == mid.refs && db'.next == mid.next + 1
            && Chained(db.nodes, db'.nodes, db.next, t, parent, front + [last])
            && ChainEnd(db.next, parent, |front| + 1) in db'.nodes
  {
    var end := ChainEnd(db.next, parent, |front|);
    var db' := mid.NodeCreate(t, Some(end), last.data, last.state).0;
    OneMoreRow(db.nodes, mid.nodes, db.next, t, parent, front, last, db'.nodes);
  }

  lemma {:induction false} OneMoreRow(
      nodes: map<Id, NodeRow>, mid: map<Id, NodeRow>, next: nat, t: Id, parent: Id, front: seq<Entry>,
      last: Entry, nodes': map<Id, NodeRow>)
    requires Chained(nodes, mid, next, t, parent, front) && next + |front| !in mid
    requires nodes' == mid[next + |front| := NodeRow(t, Some(ChainEnd(next, parent, |front|)), last.data, last.state)]
    ensures Chained(nodes, nodes', next, t, parent, front + [last])
  {
  }

  lemma {:induction false} ChainSnoc(db: Db, t: Id, parent: Id, entries: seq<Entry>, last: Entry)
    ensures AppendChain(db, t, parent, entries + [last])
         == AppendChain(db, t, parent, entries).NodeCreate(t, Some(ChainEnd(db.next, parent, |entries|)), last.data,
           last.state).0
  {
    assert (entries + [last])[..|entries|] == entries;
  }

  /** The path to the end of the chain is the path to its parent and the chain. */
  lemma {:induction false} ChainPath(
      nodes: map<Id, NodeRow>, nodes': map<Id, NodeRow>, next: nat, t: Id, parent: Id, entries: seq<Entry>,
      n: nat)
    requires Ordered(nodes) && Ordered(nodes') && Chained(nodes, nodes', next, t, parent, entries)
    requires n <= |entries| && PathUp(nodes, t, parent).Some?
    ensures PathUp(nodes', t, ChainEnd(next, parent, n)) == Some(PathUp(nodes, t, parent).value + IdsFrom(next, n))
  {
    if n == 0 {
      PathStable(nodes, nodes', t, parent);
      assert PathUp(nodes, t, parent).value + [] == PathUp(nodes, t, parent).value;
    } else {
      ChainPath(nodes, nodes', next, t, parent, entries, n - 1);
      AppendAssoc(PathUp(nodes, t, parent).value, IdsFrom(next, n - 1), [next + n - 1]);
    }
  }

  lemma {:induction false} IdsFromAt(next: nat, n: nat, k: nat)
    requires k < n
    ensures |IdsFrom(next, n)| == n && IdsFrom(next, n)[k] == next + k
  {
    if n > 1 {
      IdsFromAt(next, n - 1, if k < n - 1 then k else 0);
    }
  }

  lemma {:induction false} IdsFromLength(next: nat, n: nat)
    ensures |IdsFrom(next, n)| == n
  {
    if n > 0 {
      IdsFromAt(next, n, 0);
    }
  }

  lemma {:induction false} IdsFromCons(next: nat, n: nat)
    requires n > 0
    ensures IdsFrom(next, n) == [next] + IdsFrom(next + 1, n - 1)
  {
    if n > 1 {
      IdsFromCons(next, n - 1);
      AppendAssoc([next], IdsFrom(next + 1, n - 2), [next + n - 1]);
    }
  }

  function DataIn(entries: seq<Entry>): seq<NodeType> {
    seq(|entries|, k requires 0 <= k < |entries| => entries[k].data)
  }

  /** The data read along an old path followed by the chain. */
  lemma {:induction false} ChainData(
      nodes: map<Id, NodeRow>, nodes': map<Id, NodeRow>, next: nat, t: Id, parent: Id, entries: seq<Entry>,
      path: seq<Id>)
    requires Chained(nodes, nodes', next, t, parent, entries)
    requires forall k :: 0 <= k < |path| ==> path[k] in nodes
    ensures var ids := path + IdsFrom(next, |entries|);
            && (forall k :: 0 <= k < |ids| ==> ids[k] in nodes')
            && DataOf(nodes', ids) == DataOf(nodes, path) + DataIn(entries)
  {
    var ids := path + IdsFrom(next, |entries|);
    IdsFromLength(next, |entries|);
    forall k | 0 <= k < |ids|
      ensures ids[k] in nodes'
      ensures nodes'[ids[k]].data == if k < |path| then nodes[path[k]].data else entries[k - |path|].data
    {
      if k >= |path| {
        IdsFromAt(next, |entries|, k - |path|);
        assert ids[k] == next + (k - |path|);
      } else {
        assert ids[k] == path[k];
      }
    }
  }

  // ------------------------------------------------- traversing a linear tree

  /** Only `c` names `p` as its parent. */
  lemma {:induction false} OnlyChild(tree: Tree, p: Id, c: Id)
    requires Readable(tree) && c in tree.nodes && tree.nodes[c].parent == Some(p)
    requires forall i | i in tree.nodes && tree.nodes[i].parent == Some(p) :: i == c
    ensures Children(tree, p) == [c]
  {
    var cs := Children(tree, p);
    ChildrenAmongMember(tree.nodes, tree.order, p, c);
    ChildrenAmongDistinct(tree.nodes, tree.order, p);
    OnlyMember(cs, c);
  }

  lemma {:induction false} OnlyMember(cs: seq<Id>, c: Id)
    requires Distinct(cs) && c in cs && forall x | x in cs :: x == c
    ensures cs == [c]
  {
    if |cs| > 1 {
      var other := Another(cs, c);
    }
  }

  lemma {:induction false} Another(cs: seq<Id>, c: Id) returns (other: Id)
    requires Distinct(cs) && |cs| > 1
    ensures other in cs && other != c
  {
    other := if cs[0] == c then cs[1] else cs[0];
  }

  lemma {:induction false} Childless(tree: Tree, p: Id)
    requires Readable(tree) && forall i | i in tree.nodes :: tree.nodes[i].parent != Some(p)
    ensures Children(tree, p) == []
  {
    var cs := Children(tree, p);
    if cs != [] {
      ChildrenAmongMember(tree.nodes, tree.order, p, cs[0]);
    }
  }

  /** A tree that consists of a root and one chain below it. */
  ghost predicate Linear(tree: Tree, next: nat, n: nat) {
    && tree.root in tree.nodes && tree.root < next
    && tree.nodes[tree.root].parent.None?
    && (forall i | i in tree.nodes :: i == tree.root || next <= i < next + n)
    && forall i :: next <= i < next + n ==>
         i in tree.nodes && tree.nodes[i].parent == Some(ChainEnd(next, tree.root, i - next))
  }

  lemma {:induction false} LinearChildren(tree: Tree, next: nat, n: nat, k: nat)
    requires Readable(tree) && Linear(tree, next, n) && k <= n
    ensures Children(tree, ChainEnd(next, tree.root, k)) == if k == n then [] else [next + k]
  {
    var p := ChainEnd(next, tree.root, k);
    forall i | i in tree.nodes && tree.nodes[i].parent == Some(p)
      ensures i == next + k
    {
    }
    if k == n {
      Childless(tree, p);
    } else {
      OnlyChild(tree, p, next + k);
    }
  }

  /** Depth-first traversal of a linear tree reads the chain from top to bottom. */
  lemma {:induction false} LinearPreorder(tree: Tree, next: nat, n: nat, k: nat)
    requires Readable(tree) && Linear(tree, next, n) && k <= n
    ensures Preorder(tree, ChainEnd(next, tree.root, k)) == [ChainEnd(next, tree.root, k)] + IdsFrom(next + k, n - k)
    decreases n - k
  {
    var p := ChainEnd(next, tree.root, k);
    LinearChildren(tree, next, n, k);
    if k < n {
      OnlyBelow(tree, p, next + k);
      assert ChainEnd(next, tree.root, k + 1) == next + k;
      LinearPreorder(tree, next, n, k + 1);
      IdsFromCons(next + k, n - k);
    } else {
      PreorderUnfold(tree, p);
    }
  }

  lemma {:induction false} OnlyBelow(tree: Tree, p: Id, c: Id)
    requires Ordered(tree.nodes) && Children(tree, p) == [c]
    ensures Preorder(tree, p) == [p] + Preorder(tree, c)
  {
    PreorderUnfold(tree, p);
    ForestSingle(tree, c);
  }
}
