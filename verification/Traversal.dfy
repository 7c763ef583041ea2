// Depth-first traversal of a tree read back from the store: the recursive form
// used by the views and the explicit-stack form used by the session export.
module Traversal {
  import opened Prelude
  import opened Arbor

  /** What `tree_get` delivers: parents older than children, and a hash map
      iteration order about which nothing else is known. */
  ghost predicate Readable(tree: Tree) {
    Ordered(tree.nodes) && IterationOrder(tree.order, tree.nodes)
  }

  /** The members of `ids` that name `p` as parent, in the given order. */
  function ChildrenAmong(nodes: map<Id, NodeRow>, ids: seq<Id>, p: Id): (cs: seq<Id>)
    ensures forall c | c in cs :: c in nodes && nodes[c].parent == Some(p)
  {
    if ids == [] then []
    else
      var c := ids[|ids| - 1];
      ChildrenAmong(nodes, ids[..|ids| - 1], p)
      + if c in nodes && nodes[c].parent == Some(p) then [c] else []
  }

  function Children(tree: Tree, p: Id): (cs: seq<Id>)
    ensures forall c | c in cs :: c in tree.nodes && tree.nodes[c].parent == Some(p)
  {
    ChildrenAmong(tree.nodes, tree.order, p)
  }

  ghost function Later(tree: Tree, id: Id): set<Id> {
    set i | i in tree.nodes && id < i
  }

  lemma {:induction false} ChildIsLater(tree: Tree, id: Id, c: Id)
    requires Ordered(tree.nodes) && c in tree.nodes && tree.nodes[c].parent == Some(id)
    ensures id < c && Later(tree, c) < Later(tree, id)
  {
    assert c in Later(tree, id) && c !in Later(tree, c);
  }

  /** A node, then the subtrees of its children from left to right. */
  ghost function Preorder(tree: Tree, id: Id): seq<Id>
    requires Ordered(tree.nodes)
    decreases Later(tree, id), 1, 0
  {
    [id] + Subtrees(tree, id, Children(tree, id))
  }

  ghost function Subtrees(tree: Tree, parent: Id, cs: seq<Id>): seq<Id>
    requires Ordered(tree.nodes)
    requires forall c | c in cs :: c in tree.nodes && tree.nodes[c].parent == Some(parent)
    decreases Later(tree, parent), 0, |cs|
  {
    if cs == [] then []
    else
      ChildIsLater(tree, parent, cs[0]);
      Preorder(tree, cs[0]) + Subtrees(tree, parent, cs[1..])
  }

  /** The subtrees of any list of nodes, in order. */
  ghost function Forest(tree: Tree, ids: seq<Id>): seq<Id>
    requires Ordered(tree.nodes)
  {
    if ids == [] then [] else Preorder(tree, ids[0]) + Forest(tree, ids[1..])
  }

  lemma {:induction false} PreorderUnfold(tree: Tree, id: Id)
    requires Ordered(tree.nodes)
    ensures Preorder(tree, id) == [id] + Forest(tree, Children(tree, id))
  {
    SubtreesAreForest(tree, id, Children(tree, id));
  }

  lemma {:induction false} SubtreesAreForest(tree: Tree, parent: Id, cs: seq<Id>)
    requires Ordered(tree.nodes)
    requires forall c | c in cs :: c in tree.nodes && tree.nodes[c].parent == Some(parent)
    ensures Subtrees(tree, parent, cs) == Forest(tree, cs)
  {
    if cs != [] {
      SubtreesAreForest(tree, parent, cs[1..]);
    }
  }

  lemma {:induction false} ForestAppend(tree: Tree, a: seq<Id>, b: seq<Id>)
    requires Ordered(tree.nodes)
    ensures Forest(tree, a + b) == Forest(tree, a) + Forest(tree, b)
  {
    if a == [] {
      assert a + b == b;
    } else {
      assert (a + b)[1..] == a[1..] + b;
      ForestAppend(tree, a[1..], b);
    }
  }

  // ------------------------------------------------------------ the two readers

  /** `children.get(p)`, with no entry meaning no children. */
  function Lookup(children: map<Id, seq<Id>>, p: Id): seq<Id> {
    if p in children then children[p] else []
  }

  ghost predicate IsChildMap(tree: Tree, children: map<Id, seq<Id>>) {
    forall p :: Lookup(children, p) == Children(tree, p)
  }

  /** build_child_map: parent id to child ids, in iteration order. */
  method BuildChildMap(tree: Tree) returns (children: map<Id, seq<Id>>)
    requires forall i | i in tree.order :: i in tree.nodes
    ensures IsChildMap(tree, children)
  {
    children := map[];
    for k := 0 to |tree.order|
      invariant forall p :: Lookup(children, p) == ChildrenAmong(tree.nodes, tree.order[..k], p)
    {
      var id := tree.order[k];
      assert tree.order[..k + 1][..k] == tree.order[..k];
      if tree.nodes[id].parent.Some? {
        var p := tree.nodes[id].parent.value;
        children := children[p := Lookup(children, p) + [id]];
      }
    }
    assert tree.order[..|tree.order|] == tree.order;
  }

  /** traverse_dfs_from. */
  method TraverseDfsFrom(ghost tree: Tree, id: Id, children: map<Id, seq<Id>>, visited: seq<Id>)
    returns (visited': seq<Id>)
    requires Ordered(tree.nodes) && IsChildMap(tree, children)
    ensures visited' == visited + Preorder(tree, id)
    decreases Later(tree, id)
  {
    visited' := visited + [id];
    ghost var start := visited';
    var cs := Lookup(children, id);
    assert cs == Children(tree, id);
    for i := 0 to |cs|
      invariant visited' == start + Forest(tree, cs[..i])
    {
      ChildIsLater(tree, id, cs[i]);
      visited' := TraverseDfsFrom(tree, cs[i], children, visited');
      AppendAssoc(start, Forest(tree, cs[..i]), Preorder(tree, cs[i]));
      ForestSnoc(tree, cs, i);
    }
    assert cs[..|cs|] == cs;
    AppendAssoc(visited, [id], Forest(tree, cs));
    PreorderUnfold(tree, id);
  }

  lemma {:induction false} ForestSnoc(tree: Tree, cs: seq<Id>, i: nat)
    requires Ordered(tree.nodes) && i < |cs|
    ensures Forest(tree, cs[..i + 1]) == Forest(tree, cs[..i]) + Preorder(tree, cs[i])
  {
    assert cs[..i + 1] == cs[..i] + [cs[i]];
    ForestAppend(tree, cs[..i], [cs[i]]);
    ForestSingle(tree, cs[i]);
  }

  lemma {:induction false} ForestSingle(tree: Tree, id: Id)
    requires Ordered(tree.nodes)
    ensures Forest(tree, [id]) == Preorder(tree, id)
  {
    assert [id][1..] == [];
  }

  /** The first parentless node in iteration order. */
  function FirstRoot(tree: Tree, order: seq<Id>): (r: Option<Id>)
    ensures r.Some? ==> r.value in tree.nodes && tree.nodes[r.value].parent.None?
  {
    if order == [] then None
    else if order[0] in tree.nodes && tree.nodes[order[0]].parent.None? then Some(order[0])
    else FirstRoot(tree, order[1..])
  }

  /** What traverse_tree_dfs visits. */
  ghost function Visit(tree: Tree): seq<Id>
    requires Ordered(tree.nodes)
  {
    match FirstRoot(tree, tree.order)
    case None => []
    case Some(r) => Preorder(tree, r)
  }

  method TraverseTreeDfs(tree: Tree) returns (visited: seq<Id>)
    requires Readable(tree)
    ensures visited == Visit(tree)
  {
    var root := FirstRoot(tree, tree.order);
    if root.None? {
      return [];
    }
    var children := BuildChildMap(tree);
    visited := TraverseDfsFrom(tree, root.value, children, []);
  }

  /** The traversal inside export_from_arbor: an explicit stack whose top is the
      last element, children pushed in reverse. */
  method TraverseWithStack(tree: Tree) returns (visited: seq<Id>)
    requires Readable(tree)
    ensures visited == Preorder(tree, tree.root)
  {
    var children := BuildChildMap(tree);
    visited := [];
    var stack := [tree.root];
    assert Reverse(stack) == [tree.root];
    ForestSingle(tree, tree.root);
    while stack != []
      invariant visited + Forest(tree, Reverse(stack)) == Preorder(tree, tree.root)
      decreases |Forest(tree, Reverse(stack))|
    {
      var current, rest := VisitTop(tree, children, stack);
      AppendAssoc(visited, [current], Forest(tree, Reverse(rest)));
      visited := visited + [current];
      stack := rest;
    }
    assert Forest(tree, Reverse(stack)) == [];
  }

  /** One turn of the loop: pop a node, push its children in reverse. */
  method VisitTop(ghost tree: Tree, children: map<Id, seq<Id>>, stack: seq<Id>)
    returns (current: Id, stack': seq<Id>)
    requires Ordered(tree.nodes) && IsChildMap(tree, children) && stack != []
    ensures Forest(tree, Reverse(stack)) == [current] + Forest(tree, Reverse(stack'))
  {
    current := stack[|stack| - 1];
    var rest := stack[..|stack| - 1];
    ReverseSnoc(rest, current);
    assert stack == rest + [current];
    PopStep(tree, current, Reverse(rest));
    stack' := PushReversed(rest, Lookup(children, current));
  }

  /** Replacing the top of the stack by its children leaves the same nodes to visit. */
  lemma {:induction false} PopStep(tree: Tree, current: Id, below: seq<Id>)
    requires Ordered(tree.nodes)
    ensures Forest(tree, [current] + below) == [current] + Forest(tree, Children(tree, current) + below)
  {
    assert ([current] + below)[1..] == below;
    PreorderUnfold(tree, current);
    ForestAppend(tree, Children(tree, current), below);
  }

  method PushReversed(stack: seq<Id>, cs: seq<Id>) returns (stack': seq<Id>)
    ensures Reverse(stack') == cs + Reverse(stack)
  {
    stack' := stack;
    var i := |cs|;
    while i > 0
      invariant 0 <= i <= |cs|
      invariant Reverse(stack') == cs[i..] + Reverse(stack)
    {
      i := i - 1;
      ReverseSnoc(stack', cs[i]);
      stack' := stack' + [cs[i]];
    }
  }

  // ---------------------------------------------------- what preorder visits

  /** `x` lies in the subtree of `a`: going up from `x` meets `a`. */
  ghost predicate Under(nodes: map<Id, NodeRow>, a: Id, x: Id)
    requires Ordered(nodes)
    decreases if x < 0 then 0 else x + 1
  {
    x == a || (x in nodes && nodes[x].parent.Some? && Under(nodes, a, nodes[x].parent.value))
  }

  lemma {:induction false} UnderIsLater(nodes: map<Id, NodeRow>, a: Id, x: Id)
    requires Ordered(nodes) && Under(nodes, a, x)
    ensures a <= x
    decreases if x < 0 then 0 else x + 1
  {
    if x != a {
      UnderIsLater(nodes, a, nodes[x].parent.value);
    }
  }

  lemma {:induction false} UnderTransitive(nodes: map<Id, NodeRow>, a: Id, b: Id, x: Id)
    requires Ordered(nodes) && Under(nodes, a, b) && Under(nodes, b, x)
    ensures Under(nodes, a, x)
    decreases if x < 0 then 0 else x + 1
  {
    if x != b {
      UnderTransitive(nodes, a, b, nodes[x].parent.value);
    }
  }

  /** Two ancestors of one node are themselves related. */
  lemma {:induction false} AncestorsRelated(nodes: map<Id, NodeRow>, a: Id, b: Id, x: Id)
    requires Ordered(nodes) && Under(nodes, a, x) && Under(nodes, b, x)
    ensures Under(nodes, a, b) || Under(nodes, b, a)
    decreases if x < 0 then 0 else x + 1
  {
    if x != a && x != b {
      AncestorsRelated(nodes, a, b, nodes[x].parent.value);
    }
  }

  lemma {:induction false} ChildrenAmongMember(nodes: map<Id, NodeRow>, ids: seq<Id>, p: Id, c: Id)
    ensures c in ChildrenAmong(nodes, ids, p) <==> c in ids && c in nodes && nodes[c].parent == Some(p)
  {
    if ids != [] {
      ChildrenAmongMember(nodes, ids[..|ids| - 1], p, c);
      assert ids == ids[..|ids| - 1] + [ids[|ids| - 1]];
    }
  }

  lemma {:induction false} ChildrenAmongDistinct(nodes: map<Id, NodeRow>, ids: seq<Id>, p: Id)
    requires Distinct(ids)
    ensures Distinct(ChildrenAmong(nodes, ids, p))
  {
    if ids != [] {
      var c := ids[|ids| - 1];
      ChildrenAmongDistinct(nodes, ids[..|ids| - 1], p);
      ChildrenAmongMember(nodes, ids[..|ids| - 1], p, c);
    }
  }

  lemma {:induction false} ForestMember(tree: Tree, ids: seq<Id>, x: Id)
    requires Ordered(tree.nodes)
    ensures x in Forest(tree, ids) <==> exists i :: 0 <= i < |ids| && x in Preorder(tree, ids[i])
  {
    if ids != [] {
      ForestMember(tree, ids[1..], x);
      assert forall i :: 0 <= i < |ids[1..]| ==> ids[1..][i] == ids[i + 1];
      if x in Forest(tree, ids[1..]) {
        var i :| 0 <= i < |ids[1..]| && x in Preorder(tree, ids[1..][i]);
        assert x in Preorder(tree, ids[i + 1]);
      }
      if exists i :: 0 <= i < |ids| && x in Preorder(tree, ids[i]) {
        var i :| 0 <= i < |ids| && x in Preorder(tree, ids[i]);
        if i > 0 {
          assert x in Preorder(tree, ids[1..][i - 1]);
        }
      }
    }
  }

  /** The traversal meets exactly the nodes of the subtree. */
  lemma {:induction false} PreorderMember(tree: Tree, a: Id, x: Id)
    requires Readable(tree)
    ensures x in Preorder(tree, a) <==> Under(tree.nodes, a, x)
    decreases Later(tree, a)
  {
    var cs := Children(tree, a);
    PreorderUnfold(tree, a);
    ForestMember(tree, cs, x);
    forall i | 0 <= i < |cs|
      ensures x in Preorder(tree, cs[i]) <==> Under(tree.nodes, cs[i], x)
      ensures Under(tree.nodes, cs[i], x) ==> Under(tree.nodes, a, x)
    {
      ChildIsLater(tree, a, cs[i]);
      PreorderMember(tree, cs[i], x);
      if Under(tree.nodes, cs[i], x) {
        assert Under(tree.nodes, a, a);
        assert Under(tree.nodes, a, cs[i]);
        UnderTransitive(tree.nodes, a, cs[i], x);
      }
    }
    if x != a && Under(tree.nodes, a, x) {
      var c := Branch(tree.nodes, a, x);
      ChildrenAmongMember(tree.nodes, tree.order, a, c);
      assert exists i :: 0 <= i < |cs| && cs[i] == c;
    }
  }

  /** The child of `a` through which a proper descendant hangs. */
  lemma {:induction false} Branch(nodes: map<Id, NodeRow>, a: Id, x: Id) returns (c: Id)
    requires Ordered(nodes) && Under(nodes, a, x) && x != a
    ensures c in nodes && nodes[c].parent == Some(a) && Under(nodes, c, x)
    decreases if x < 0 then 0 else x + 1
  {
    var p := nodes[x].parent.value;
    if p == a {
      c := x;
    } else {
      c := Branch(nodes, a, p);
    }
  }

  lemma {:induction false} SiblingsDisjoint(tree: Tree, a: Id, b: Id, c: Id, x: Id)
    requires Readable(tree)
    requires b in tree.nodes && tree.nodes[b].parent == Some(a)
    requires c in tree.nodes && tree.nodes[c].parent == Some(a) && b != c
    ensures !(x in Preorder(tree, b) && x in Preorder(tree, c))
  {
    PreorderMember(tree, b, x);
    PreorderMember(tree, c, x);
    if Under(tree.nodes, b, x) && Under(tree.nodes, c, x) {
      AncestorsRelated(tree.nodes, b, c, x);
      NotUnderSibling(tree.nodes, a, b, c);
      NotUnderSibling(tree.nodes, a, c, b);
    }
  }

  lemma {:induction false} NotUnderSibling(nodes: map<Id, NodeRow>, a: Id, b: Id, c: Id)
    requires Ordered(nodes) && b in nodes && nodes[b].parent == Some(a)
    requires c in nodes && nodes[c].parent == Some(a) && b != c
    ensures !Under(nodes, b, c)
  {
    if Under(nodes, b, c) {
      UnderIsLater(nodes, b, a);
    }
  }

  /** No node is met twice. */
  lemma {:induction false} PreorderDistinct(tree: Tree, a: Id)
    requires Readable(tree)
    ensures Distinct(Preorder(tree, a))
    decreases Later(tree, a), 1, 0
  {
    var cs := Children(tree, a);
    ChildrenAmongDistinct(tree.nodes, tree.order, a);
    ForestDistinct(tree, a, cs);
    PreorderUnfold(tree, a);
    ForestMember(tree, cs, a);
    forall i | 0 <= i < |cs|
      ensures a !in Preorder(tree, cs[i])
    {
      ChildIsLater(tree, a, cs[i]);
      PreorderMember(tree, cs[i], a);
      if Under(tree.nodes, cs[i], a) {
        UnderIsLater(tree.nodes, cs[i], a);
      }
    }
  }

  lemma {:induction false} ForestDistinct(tree: Tree, a: Id, cs: seq<Id>)
    requires Readable(tree) && Distinct(cs)
    requires forall c | c in cs :: c in tree.nodes && tree.nodes[c].parent == Some(a)
    ensures Distinct(Forest(tree, cs))
    decreases Later(tree, a), 0, |cs|
  {
    if cs != [] {
      ChildIsLater(tree, a, cs[0]);
      PreorderDistinct(tree, cs[0]);
      ForestDistinct(tree, a, cs[1..]);
      var left, right := Preorder(tree, cs[0]), Forest(tree, cs[1..]);
      forall x | x in left
        ensures x !in right
      {
        ForestMember(tree, cs[1..], x);
        forall i | 0 <= i < |cs[1..]|
          ensures x !in Preorder(tree, cs[1..][i])
        {
          SiblingsDisjoint(tree, a, cs[0], cs[1..][i], x);
        }
      }
      DistinctAppend(left, right);
    }
  }

  lemma {:induction false} DistinctAppend(left: seq<Id>, right: seq<Id>)
    requires Distinct(left) && Distinct(right) && forall x | x in left :: x !in right
    ensures Distinct(left + right)
  {
    var both := left + right;
    forall i, j | 0 <= i < j < |both|
      ensures both[i] != both[j]
    {
      assert i < |left| ==> both[i] in left;
      assert j >= |left| ==> both[j] == right[j - |left|];
    }
  }

  /** A node that follows its own parent in the traversal is that parent's first child. */
  lemma {:induction false} NextIsFirstChild(tree: Tree, a: Id, k: nat)
    requires Readable(tree) && k + 1 < |Preorder(tree, a)|
    requires var x := Preorder(tree, a)[k + 1]; x in tree.nodes && tree.nodes[x].parent == Some(Preorder(tree, a)[k])
    ensures var cs := Children(tree, Preorder(tree, a)[k]); cs != [] && cs[0] == Preorder(tree, a)[k + 1]
    decreases Later(tree, a), 1, 0
  {
    PreorderUnfold(tree, a);
    var cs := Children(tree, a);
    if k == 0 {
      PreorderUnfold(tree, cs[0]);
    } else {
      NextInForest(tree, a, cs, k - 1);
    }
  }

  lemma {:induction false} NextInForest(tree: Tree, a: Id, cs: seq<Id>, k: nat)
    requires Readable(tree) && k + 1 < |Forest(tree, cs)|
    requires forall c | c in cs :: c in tree.nodes && tree.nodes[c].parent == Some(a)
    requires var x := Forest(tree, cs)[k + 1]; x in tree.nodes && tree.nodes[x].parent == Some(Forest(tree, cs)[k])
    ensures var ds := Children(tree, Forest(tree, cs)[k]); ds != [] && ds[0] == Forest(tree, cs)[k + 1]
    decreases Later(tree, a), 0, |cs|
  {
    var left := Preorder(tree, cs[0]);
    if k + 1 < |left| {
      ChildIsLater(tree, a, cs[0]);
      NextIsFirstChild(tree, cs[0], k);
    } else if k + 1 > |left| {
      NextInForest(tree, a, cs[1..], k - |left|);
    } else {
      PreorderUnfold(tree, cs[1]);
      assert Forest(tree, cs)[k + 1] == cs[1];
      ChildIsLater(tree, a, cs[0]);
      assert left[k] in left;
      PreorderMember(tree, cs[0], a);
      UnderIsLater(tree.nodes, cs[0], a);
    }
  }

  /** After a node that has children comes the first of them. */
  lemma {:induction false} FirstChildIsNext(tree: Tree, a: Id, k: nat)
    requires Ordered(tree.nodes) && k < |Preorder(tree, a)| && Children(tree, Preorder(tree, a)[k]) != []
    ensures k + 1 < |Preorder(tree, a)| && Preorder(tree, a)[k + 1] == Children(tree, Preorder(tree, a)[k])[0]
    decreases Later(tree, a), 1, 0
  {
    PreorderUnfold(tree, a);
    var cs := Children(tree, a);
    if k == 0 {
      PreorderUnfold(tree, cs[0]);
    } else {
      FirstChildInForest(tree, a, cs, k - 1);
    }
  }

  lemma {:induction false} FirstChildInForest(tree: Tree, a: Id, cs: seq<Id>, k: nat)
    requires Ordered(tree.nodes) && k < |Forest(tree, cs)| && Children(tree, Forest(tree, cs)[k]) != []
    requires forall c | c in cs :: c in tree.nodes && tree.nodes[c].parent == Some(a)
    ensures k + 1 < |Forest(tree, cs)| && Forest(tree, cs)[k + 1] == Children(tree, Forest(tree, cs)[k])[0]
    decreases Later(tree, a), 0, |cs|
  {
    var left := Preorder(tree, cs[0]);
    if k < |left| {
      ChildIsLater(tree, a, cs[0]);
      FirstChildIsNext(tree, cs[0], k);
    } else {
      FirstChildInForest(tree, a, cs[1..], k - |left|);
    }
  }

  /** Every visited node but the first comes after its parent. */
  lemma {:induction false} ParentIsEarlier(tree: Tree, a: Id, k: nat) returns (j: nat)
    requires Ordered(tree.nodes) && 0 < k < |Preorder(tree, a)|
    ensures j < k && Preorder(tree, a)[k] in tree.nodes
    ensures tree.nodes[Preorder(tree, a)[k]].parent == Some(Preorder(tree, a)[j])
    decreases Later(tree, a), 1, 0
  {
    PreorderUnfold(tree, a);
    var i, top := ParentInForest(tree, a, Children(tree, a), k - 1);
    j := if top then 0 else i + 1;
  }

  lemma {:induction false} ParentInForest(tree: Tree, a: Id, cs: seq<Id>, k: nat) returns (j: nat, top: bool)
    requires Ordered(tree.nodes) && k < |Forest(tree, cs)|
    requires forall c | c in cs :: c in tree.nodes && tree.nodes[c].parent == Some(a)
    ensures Forest(tree, cs)[k] in tree.nodes
    ensures top ==> tree.nodes[Forest(tree, cs)[k]].parent == Some(a)
    ensures !top ==> j < k && tree.nodes[Forest(tree, cs)[k]].parent == Some(Forest(tree, cs)[j])
    decreases Later(tree, a), 0, |cs|
  {
    var left := Preorder(tree, cs[0]);
    ChildIsLater(tree, a, cs[0]);
    if k == 0 {
      j, top := 0, true;
      PreorderUnfold(tree, cs[0]);
    } else if k < |left| {
      j := ParentIsEarlier(tree, cs[0], k);
      top := false;
    } else {
      j, top := ParentInForest(tree, a, cs[1..], k - |left|);
      j := j + |left|;
    }
  }
}
