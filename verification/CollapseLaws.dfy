// What a collapsed view holds (src/activations/arbor/views.rs:361-475): which
// source nodes its nodes stand for, when that is every node exactly once, and how
// they hang together.
module CollapseLaws {
  import opened Prelude
  import opened Arbor
  import opened Collapse
  import opened Traversal
  import opened Views

  /** The source nodes that the view's nodes stand for, in the order of the view. */
  ghost function Shown(job: Job, ids: seq<Id>): seq<Id>
    requires Ordered(job.tree.nodes)
  {
    if ids == [] then []
    else
      var x := ids[|ids| - 1];
      Shown(job, ids[..|ids| - 1]) + if job.Kept(x) then job.StandsFor(x) else []
  }

  /** Each node of a run but the first is the first child of the one before it, as
      the second reading lists children. */
  ghost predicate FitsPath(tree: Tree, path: seq<Id>) {
    forall k :: 0 < k < |path| ==> IsFirstChild(tree, path[k])
  }

  /** Every run that the second reading comes upon. */
  ghost predicate Fits(job: Job)
    requires Ordered(job.tree.nodes)
  {
    forall path | path in job.paths :: path != [] && path[0] in Visit(job.tree) ==> FitsPath(job.tree, path)
  }

  /** A node of some run behind the run's first node. */
  ghost predicate Inner(job: Job, x: Id) {
    exists path | path in job.paths :: InTail(path, x)
  }

  predicate InTail(path: seq<Id>, x: Id) {
    path != [] && x in path[1..]
  }

  // ---------------------------------------------------------- runs and the traversal

  lemma {:induction false} PathOf(job: Job, path: seq<Id>)
    requires job.Valid() && path in job.paths
    ensures IsRun(job.tree.nodes, path)
  {
    var m :| 0 <= m < |job.paths| && job.paths[m] == path;
  }

  /** A node is in at most one run, at one place. */
  lemma {:induction false} OnePlace(job: Job, a: seq<Id>, i: nat, b: seq<Id>, j: nat)
    requires job.Valid() && a in job.paths && b in job.paths && i < |a| && j < |b| && a[i] == b[j]
    ensures a == b && i == j
  {
    var m :| 0 <= m < |job.paths| && job.paths[m] == a;
    var n :| 0 <= n < |job.paths| && job.paths[n] == b;
    assert m < n ==> Disjoint(job.paths[m], job.paths[n]);
    assert n < m ==> Disjoint(job.paths[n], job.paths[m]);
    assert a[i] in job.paths[m] && b[j] in job.paths[n];
    PathOf(job, a);
    if i < j {
      PathAscends(job.tree, a, i, j);
    } else if j < i {
      PathAscends(job.tree, a, j, i);
    }
  }

  lemma {:induction false} TailPlace(path: seq<Id>, x: Id) returns (k: nat)
    requires InTail(path, x)
    ensures 0 < k < |path| && path[k] == x
  {
    var i :| 0 <= i < |path[1..]| && path[1..][i] == x;
    k := i + 1;
  }

  lemma {:induction false} PathUnder(nodes: map<Id, NodeRow>, path: seq<Id>, k: nat)
    requires Ordered(nodes) && IsRun(nodes, path) && k < |path|
    ensures Under(nodes, path[0], path[k])
  {
    if k > 0 {
      PathUnder(nodes, path, k - 1);
    }
  }

  lemma {:induction false} WalkedUnder(tree: Tree, s: Id, end: Id, x: Id)
    requires Ordered(tree.nodes) && x in Walked(tree, s, end)
    ensures Under(tree.nodes, s, x)
    decreases Later(tree, s)
  {
    if x != s {
      var c := Children(tree, s)[0];
      ChildIsLater(tree, s, c);
      WalkedUnder(tree, c, end, x);
      assert Under(tree.nodes, s, s) && Under(tree.nodes, s, c);
      UnderTransitive(tree.nodes, s, c, x);
    }
  }

  /** The traversal visits all that lies under what it visits, and all that lies
      above. */
  lemma {:induction false} VisitCloses(tree: Tree, a: Id, x: Id)
    requires Readable(tree) && Under(tree.nodes, a, x) && a in tree.nodes
    ensures a in Visit(tree) <==> x in Visit(tree)
  {
    var root := FirstRoot(tree, tree.order);
    if root.Some? {
      var r: Id := root.value;
      PreorderMember(tree, r, a);
      PreorderMember(tree, r, x);
      if Under(tree.nodes, r, a) {
        UnderTransitive(tree.nodes, r, a, x);
      } else if Under(tree.nodes, r, x) {
        AncestorsRelated(tree.nodes, r, a, x);
      }
    }
  }

  lemma {:induction false} PathVisited(job: Job, path: seq<Id>, k: nat)
    requires job.Valid() && path in job.paths && k < |path|
    ensures path[0] in Visit(job.tree) <==> path[k] in Visit(job.tree)
  {
    PathOf(job, path);
    PathUnder(job.tree.nodes, path, k);
    VisitCloses(job.tree, path[0], path[k]);
  }

  /** After a node with children comes the first of them. */
  lemma {:induction false} VisitNext(tree: Tree, x: Id, i: nat)
    requires Readable(tree) && i < |Visit(tree)| && IsFirstChild(tree, x)
      && tree.nodes[x].parent == Some(Visit(tree)[i])
    ensures i + 1 < |Visit(tree)| && Visit(tree)[i + 1] == x
  {
    FirstChildIsNext(tree, FirstRoot(tree, tree.order).value, i);
  }

  // ------------------------------------------------------------- when runs fit

  lemma {:induction false} WalkStep(tree: Tree, x: Id, end: Id, c: Id)
    requires Ordered(tree.nodes) && x != end && IsFirstChild(tree, c) && tree.nodes[c].parent == Some(x)
    ensures Walked(tree, x, end) == {x} + Walked(tree, c, end)
  {
  }

  lemma {:induction false} WalkFits(tree: Tree, path: seq<Id>, k: nat)
    requires Ordered(tree.nodes) && IsRun(tree.nodes, path) && FitsPath(tree, path) && k < |path|
    ensures Walked(tree, path[k], path[|path| - 1]) == set x | x in path[k..]
    decreases |path| - k
  {
    if k < |path| - 1 {
      PathAscends(tree, path, k, |path| - 1);
      WalkFits(tree, path, k + 1);
      WalkStep(tree, path[k], path[|path| - 1], path[k + 1]);
      assert path[k..] == [path[k]] + path[k + 1..];
    } else {
      assert path[k..] == [path[k]];
    }
  }

  lemma {:induction false} InnerNotKept(job: Job, x: Id)
    requires job.Valid() && Fits(job) && x in Visit(job.tree) && Inner(job, x)
    ensures !job.Kept(x)
  {
    var path :| path in job.paths && InTail(path, x);
    var k := TailPlace(path, x);
    PathOf(job, path);
    PathVisited(job, path, k);
    WalkFits(job.tree, path, 0);
    assert path[0..] == path;
    WalkCollapsed(job.tree, job.paths, path, x);
    if job.Run(x).Some? {
      OnePlace(job, path, k, job.Run(x).value, 0);
    }
  }

  lemma {:induction false} WalkCollapsed(tree: Tree, paths: seq<seq<Id>>, path: seq<Id>, x: Id)
    requires Ordered(tree.nodes) && path in paths && path != [] && x in Walked(tree, path[0], path[|path| - 1])
    ensures x in Collapsed(tree, paths)
  {
    if paths[|paths| - 1] != path {
      assert path in paths[..|paths| - 1];
      WalkCollapsed(tree, paths[..|paths| - 1], path, x);
    }
  }

  lemma {:induction false} OthersKept(job: Job, x: Id)
    requires job.Valid() && Fits(job) && x in Visit(job.tree) && !Inner(job, x)
    ensures job.Kept(x)
    ensures job.Run(x).None? ==> forall path | path in job.paths :: x !in path
  {
    forall path | path in job.paths && x in path
      ensures path != [] && path[0] == x && job.Run(x).Some?
    {
      PathOf(job, path);
      assert !InTail(path, x);
      assert path == [path[0]] + path[1..];
      RunFound(job, path);
    }
    if x in Collapsed(job.tree, job.paths) {
      var path := CollapsedInRun(job, x);
    }
  }

  lemma {:induction false} CollapsedInRun(job: Job, x: Id) returns (path: seq<Id>)
    requires job.Valid() && Fits(job) && x in Visit(job.tree) && x in Collapsed(job.tree, job.paths)
    ensures path in job.paths && x in path
  {
    path := MetInRun(job.tree, job.paths, x);
    PathOf(job, path);
    WalkedUnder(job.tree, path[0], path[|path| - 1], x);
    VisitCloses(job.tree, path[0], x);
    WalkFits(job.tree, path, 0);
    assert path[0..] == path;
  }

  /** The second reading shows a node right after the one before it in its run. */
  lemma {:induction false} InnerPrev(job: Job, i: nat) returns (path: seq<Id>, k: nat)
    requires job.Valid() && Fits(job) && i < |Visit(job.tree)| && Inner(job, Visit(job.tree)[i])
    ensures path in job.paths && 0 < k < |path| && path[k] == Visit(job.tree)[i]
    ensures i > 0 && Visit(job.tree)[i - 1] == path[k - 1]
  {
    var ids := Visit(job.tree);
    path :| path in job.paths && InTail(path, ids[i]);
    k := TailPlace(path, ids[i]);
    PathOf(job, path);
    PathVisited(job, path, k);
    PathVisited(job, path, k - 1);
    var j :| 0 <= j < |ids| && ids[j] == path[k - 1];
    assert IsFirstChild(job.tree, path[k]);
    VisitNext(job.tree, path[k], j);
    VisitDistinct(job.tree);
    assert j + 1 == i;
  }

  lemma {:induction false} RunConsecutive(job: Job, path: seq<Id>, i: nat, k: nat)
    requires job.Valid() && Fits(job) && path in job.paths && k < |path|
    requires i < |Visit(job.tree)| && Visit(job.tree)[i] == path[0]
    ensures i + k < |Visit(job.tree)| && Visit(job.tree)[i + k] == path[k]
  {
    PathOf(job, path);
    if k > 0 {
      RunConsecutive(job, path, i, k - 1);
      assert IsFirstChild(job.tree, path[k]);
      VisitNext(job.tree, path[k], i + k - 1);
    }
  }

  /** The first position from i on that is not behind the start of a run. */
  ghost function Reach(job: Job, ids: seq<Id>, i: nat): (j: nat)
    requires i <= |ids|
    ensures i <= j <= |ids|
    decreases |ids| - i
  {
    if i < |ids| && Inner(job, ids[i]) then Reach(job, ids, i + 1) else i
  }

  lemma {:induction false} ReachEnd(job: Job, ids: seq<Id>, i: nat, j: nat)
    requires i <= j <= |ids| && forall k :: i <= k < j ==> Inner(job, ids[k])
    requires j < |ids| ==> !Inner(job, ids[j])
    ensures Reach(job, ids, i) == j
    decreases j - i
  {
    if i < j {
      ReachEnd(job, ids, i + 1, j);
    }
  }

  /** A run that starts at position i takes the traversal to its end. */
  lemma {:induction false} ReachRun(job: Job, path: seq<Id>, i: nat)
    requires job.Valid() && Fits(job) && path in job.paths && path != []
    requires i < |Visit(job.tree)| && Visit(job.tree)[i] == path[0]
    ensures i + |path| <= |Visit(job.tree)| && Visit(job.tree)[i..i + |path|] == path
    ensures Reach(job, Visit(job.tree), i + 1) == i + |path|
  {
    var ids, j := Visit(job.tree), i + |path|;
    RunSlice(job, path, i);
    NotInnerAfter(job, path, j);
    ReachEnd(job, ids, i + 1, j);
  }

  lemma {:induction false} RunSlice(job: Job, path: seq<Id>, i: nat)
    requires job.Valid() && Fits(job) && path in job.paths && path != []
    requires i < |Visit(job.tree)| && Visit(job.tree)[i] == path[0]
    ensures i + |path| <= |Visit(job.tree)| && Visit(job.tree)[i..i + |path|] == path
    ensures forall m :: i + 1 <= m < i + |path| ==> Inner(job, Visit(job.tree)[m])
  {
    var ids := Visit(job.tree);
    RunConsecutive(job, path, i, |path| - 1);
    forall k | 0 <= k < |path|
      ensures ids[i..i + |path|][k] == path[k]
    {
      RunConsecutive(job, path, i, k);
    }
    forall m | i + 1 <= m < i + |path|
      ensures Inner(job, ids[m])
    {
      assert ids[i..i + |path|][m - i] == path[1..][m - i - 1];
      assert InTail(path, ids[m]);
    }
  }

  /** What follows the last node of a run in the traversal starts afresh. */
  lemma {:induction false} NotInnerAfter(job: Job, path: seq<Id>, j: nat)
    requires job.Valid() && Fits(job) && path in job.paths && path != [] && 0 < j <= |Visit(job.tree)|
    requires Visit(job.tree)[j - 1] == path[|path| - 1]
    ensures j < |Visit(job.tree)| ==> !Inner(job, Visit(job.tree)[j])
  {
    if j < |Visit(job.tree)| && Inner(job, Visit(job.tree)[j]) {
      var other, k := InnerPrev(job, j);
      OnePlace(job, path, |path| - 1, other, k - 1);
    }
  }

  lemma {:induction false} ShownNext(job: Job, ids: seq<Id>, i: nat)
    requires Ordered(job.tree.nodes) && i < |ids|
    ensures Shown(job, ids[..i + 1])
         == Shown(job, ids[..i]) + if job.Kept(ids[i]) then job.StandsFor(ids[i]) else []
  {
    assert ids[..i + 1][..i] == ids[..i];
  }

  /** What the first i nodes of the traversal give rise to. */
  lemma {:induction false} ShownUpTo(job: Job, i: nat)
    requires job.Valid() && Fits(job) && i <= |Visit(job.tree)|
    ensures var ids := Visit(job.tree); Shown(job, ids[..i]) == ids[..Reach(job, ids, i)]
  {
    var ids := Visit(job.tree);
    if i == 0 {
      NoInnerFirst(job);
    } else {
      ShownUpTo(job, i - 1);
      ShownNext(job, ids, i - 1);
      ShownStep(job, i - 1);
    }
  }

  lemma {:induction false} NoInnerFirst(job: Job)
    requires job.Valid() && Fits(job)
    ensures Reach(job, Visit(job.tree), 0) == 0
  {
    if Visit(job.tree) != [] && Inner(job, Visit(job.tree)[0]) {
      var path, k := InnerPrev(job, 0);
    }
  }

  lemma {:induction false} ShownStep(job: Job, i: nat)
    requires job.Valid() && Fits(job) && i < |Visit(job.tree)|
    ensures var ids := Visit(job.tree);
            ids[..Reach(job, ids, i)] + (if job.Kept(ids[i]) then job.StandsFor(ids[i]) else [])
            == ids[..Reach(job, ids, i + 1)]
  {
    var ids := Visit(job.tree);
    var x := ids[i];
    if Inner(job, x) {
      InnerNotKept(job, x);
    } else {
      OthersKept(job, x);
      if job.Run(x).Some? {
        RunShown(job, job.Run(x).value, i);
      } else {
        NotInnerNext(job, i);
        assert ids[..i + 1] == ids[..i] + [x];
      }
    }
  }

  lemma {:induction false} RunShown(job: Job, path: seq<Id>, i: nat)
    requires job.Valid() && Fits(job) && path in job.paths && path != []
    requires i < |Visit(job.tree)| && Visit(job.tree)[i] == path[0]
    ensures var ids := Visit(job.tree); ids[..i] + path == ids[..Reach(job, ids, i + 1)]
  {
    var ids := Visit(job.tree);
    ReachRun(job, path, i);
    assert ids[..i + |path|] == ids[..i] + ids[i..i + |path|];
  }

  /** After a node outside the runs comes none behind the start of a run. */
  lemma {:induction false} NotInnerNext(job: Job, i: nat)
    requires job.Valid() && Fits(job) && i < |Visit(job.tree)|
    requires forall path | path in job.paths :: Visit(job.tree)[i] !in path
    ensures i + 1 < |Visit(job.tree)| ==> !Inner(job, Visit(job.tree)[i + 1])
  {
    if i + 1 < |Visit(job.tree)| && Inner(job, Visit(job.tree)[i + 1]) {
      var path, k := InnerPrev(job, i + 1);
    }
  }

  // --------------------------------------------------------- and when they do not

  lemma {:induction false} ShownOnce(job: Job, ids: seq<Id>, x: Id, b: Id)
    requires Ordered(job.tree.nodes) && x in ids && job.Kept(x) && b in job.StandsFor(x)
    ensures multiset(Shown(job, ids))[b] >= 1
  {
    var last := ids[|ids| - 1];
    if x != last {
      ShownOnce(job, ids[..|ids| - 1], x, b);
    }
  }

  lemma {:induction false} ShownTwice(job: Job, ids: seq<Id>, x: Id, y: Id, b: Id)
    requires Ordered(job.tree.nodes) && x in ids && y in ids && x != y && job.Kept(x) && job.Kept(y)
    requires b in job.StandsFor(x) && b in job.StandsFor(y)
    ensures multiset(Shown(job, ids))[b] >= 2
  {
    var front, last := ids[..|ids| - 1], ids[|ids| - 1];
    assert ids == front + [last];
    if x == last {
      ShownOnce(job, front, y, b);
      assert multiset(job.StandsFor(x))[b] >= 1;
    } else if y == last {
      ShownOnce(job, front, x, b);
      assert multiset(job.StandsFor(y))[b] >= 1;
    } else {
      ShownTwice(job, front, x, y, b);
    }
  }

  /** Where the second reading lists another child first, the run's next node is
      merged and copied as well. */
  lemma {:induction false} MisfitTwice(job: Job, path: seq<Id>, k: nat)
    requires job.Valid() && path in job.paths && 0 < k < |path| && path[0] in Visit(job.tree)
    requires !IsFirstChild(job.tree, path[k])
    ensures multiset(Shown(job, Visit(job.tree)))[path[k]] >= 2
  {
    var b := path[k];
    RunFound(job, path);
    PathVisited(job, path, k);
    if job.Run(b).Some? {
      OnePlace(job, path, k, job.Run(b).value, 0);
    }
    if b in Collapsed(job.tree, job.paths) {
      var other := MetInRun(job.tree, job.paths, b);
      WalkEnters(job.tree, other[0], other[|other| - 1], b);
      OnePlace(job, path, k, other, 0);
    }
    PathOf(job, path);
    PathAscends(job.tree, path, 0, k);
    ShownTwice(job, Visit(job.tree), path[0], b, b);
  }

  /** Every node of the traversal is represented in the view exactly once if and only
      if, in every run that the traversal comes upon, each node but the last has the
      next one as its first child in the second reading; and then the view has them
      in the order of the traversal. */
  lemma {:induction false} OnceEachExactly(job: Job)
    requires job.Valid()
    ensures var ids := Visit(job.tree);
            && Distinct(ids)
            && (multiset(Shown(job, ids)) == multiset(ids) <==> Fits(job))
            && (Shown(job, ids) == ids <==> Fits(job))
  {
    var ids := Visit(job.tree);
    VisitDistinct(job.tree);
    if Fits(job) {
      ShownUpTo(job, |ids|);
      assert ids[..|ids|] == ids;
    } else {
      var path :| path in job.paths && path != [] && path[0] in ids && !FitsPath(job.tree, path);
      var k :| 0 < k < |path| && !IsFirstChild(job.tree, path[k]);
      MisfitTwice(job, path, k);
      DistinctCounts(ids, path[k]);
    }
  }

  lemma {:induction false} DistinctCounts(ids: seq<Id>, x: Id)
    requires Distinct(ids)
    ensures multiset(ids)[x] <= 1
  {
    if ids != [] {
      var front, last := ids[..|ids| - 1], ids[|ids| - 1];
      DistinctCounts(front, x);
      assert ids == front + [last];
      assert last !in front;
    }
  }

  // ------------------------------------------------------- where runs always fit

  /** One order for both readings. */
  lemma {:induction false} SameOrderFits(tree: Tree, view: string -> Shape, encode: string -> string, min: nat)
    requires Readable(tree)
    ensures Job(tree, view, encode, PathsOf(tree, view, min)).Valid()
    ensures Fits(Job(tree, view, encode, PathsOf(tree, view, min)))
  {
    JobValid(tree, tree, view, encode, min);
    var ids, spans := Visit(tree), Spans(tree, view, Visit(tree), min, 0);
    forall path | path in PathsOf(tree, view, min)
      ensures FitsPath(tree, path)
    {
      var m :| 0 <= m < |spans| && path == SpanNodes(ids, spans, m);
      SpanFits(tree, view, min, m);
    }
  }

  lemma {:induction false} SpanFits(tree: Tree, view: string -> Shape, min: nat, m: nat)
    requires Readable(tree) && m < |Spans(tree, view, Visit(tree), min, 0)|
    ensures FitsPath(tree, SpanNodes(Visit(tree), Spans(tree, view, Visit(tree), min, 0), m))
  {
    var ids, spans := Visit(tree), Spans(tree, view, Visit(tree), min, 0);
    var s := spans[m];
    assert s in spans;
    SpansAreMaximalRuns(tree, view, ids, min, 0, s);
    forall k | 0 < k < s.1 - s.0
      ensures IsFirstChild(tree, ids[s.0..s.1][k])
    {
      assert Linked(tree, view, ids, s.0 + k);
      NextIsFirstChild(tree, FirstRoot(tree, tree.order).value, s.0 + k - 1);
    }
  }

  /** Trees in which no node has two children, whatever the orders. */
  lemma {:induction false} OnlyChildrenFit(job: Job)
    requires job.Valid() && forall p :: |Children(job.tree, p)| <= 1
    ensures Fits(job)
  {
    forall path, k | path in job.paths && 0 < k < |path|
      ensures IsFirstChild(job.tree, path[k])
    {
      PathOf(job, path);
      ChildrenAmongMember(job.tree.nodes, job.tree.order, path[k - 1], path[k]);
      assert path[k] in Children(job.tree, path[k - 1]);
    }
  }

  // --------------------------------------------------------------- what is lost

  /** A root, a text below it, and two texts below that. */
  ghost predicate IsFork(nodes: map<Id, NodeRow>) {
    && (forall i :: i in nodes <==> 0 <= i < 4)
    && (forall i :: 0 <= i < 4 ==> nodes[i].data.TextNode? && (nodes[i].data.content == "" <==> i == 0))
    && nodes[0].parent == None && nodes[1].parent == Some(0)
    && nodes[2].parent == Some(1) && nodes[3].parent == Some(1)
  }

  ghost predicate ForkOrder(order: seq<Id>, x: Id, y: Id) {
    && |order| == 4 && order[0] == 0 && order[1] == 1 && order[2] == x && order[3] == y
    && ((x == 2 && y == 3) || (x == 3 && y == 2))
  }

  function NoJson(content: string): Shape {
    NotJson
  }

  lemma {:induction false} ForkReadable(t: Tree, x: Id, y: Id)
    requires IsFork(t.nodes) && ForkOrder(t.order, x, y)
    ensures Readable(t)
  {
    forall i
      ensures i in t.order <==> i in t.nodes
    {
      assert i in t.nodes ==> i == t.order[0] || i == t.order[1] || i == t.order[2] || i == t.order[3];
    }
  }

  function ChildIf(nodes: map<Id, NodeRow>, c: Id, p: Id): seq<Id> {
    if c in nodes && nodes[c].parent == Some(p) then [c] else []
  }

  lemma {:induction false} AmongFour(nodes: map<Id, NodeRow>, ids: seq<Id>, p: Id)
    requires |ids| == 4
    ensures ChildrenAmong(nodes, ids, p)
         == ChildIf(nodes, ids[0], p) + ChildIf(nodes, ids[1], p) + ChildIf(nodes, ids[2], p)
           + ChildIf(nodes, ids[3], p)
  {
    var three := ids[..3];
    assert three[..2][..1][..0] == [];
    assert ChildrenAmong(nodes, three[..2][..1], p) == ChildIf(nodes, ids[0], p);
    assert ChildrenAmong(nodes, three[..2], p) == ChildIf(nodes, ids[0], p) + ChildIf(nodes, ids[1], p);
  }

  lemma {:induction false} ForkChildren(t: Tree, x: Id, y: Id, p: Id)
    requires IsFork(t.nodes) && ForkOrder(t.order, x, y)
    ensures Children(t, p) == if p == 0 then [1] else if p == 1 then [x, y] else []
  {
    AmongFour(t.nodes, t.order, p);
    assert ChildIf(t.nodes, 0, p) == [];
    assert ChildIf(t.nodes, 1, p) == if p == 0 then [1] else [];
    assert ChildIf(t.nodes, x, p) == if p == 1 then [x] else [];
    assert ChildIf(t.nodes, y, p) == if p == 1 then [y] else [];
  }

  lemma {:induction false} ForkVisit(t: Tree, x: Id, y: Id)
    requires IsFork(t.nodes) && ForkOrder(t.order, x, y)
    ensures Ordered(t.nodes) && Visit(t) == t.order
  {
    ForkReadable(t, x, y);
    ForkBelow(t, x, y);
    ForkChildren(t, x, y, 0);
    PreorderUnfold(t, 0);
    ForestSingle(t, 1);
    assert FirstRoot(t, t.order) == Some(0);
    assert t.order == [0] + [1, x, y];
  }

  lemma {:induction false} ForkBelow(t: Tree, x: Id, y: Id)
    requires IsFork(t.nodes) && ForkOrder(t.order, x, y) && Ordered(t.nodes)
    ensures Preorder(t, 1) == [1, x, y]
  {
    ForkLeaf(t, x, y, x);
    ForkLeaf(t, x, y, y);
    ForkChildren(t, x, y, 1);
    PreorderUnfold(t, 1);
    ForestTwo(t, x, y);
  }

  lemma {:induction false} ForkLeaf(t: Tree, x: Id, y: Id, leaf: Id)
    requires IsFork(t.nodes) && ForkOrder(t.order, x, y) && Ordered(t.nodes) && leaf > 1
    ensures Preorder(t, leaf) == [leaf]
  {
    ForkChildren(t, x, y, leaf);
    PreorderUnfold(t, leaf);
  }

  lemma {:induction false} ForestTwo(t: Tree, x: Id, y: Id)
    requires Ordered(t.nodes)
    ensures Forest(t, [x, y]) == Preorder(t, x) + Preorder(t, y)
  {
    assert [x, y][1..] == [y];
    ForestSingle(t, y);
  }

  /** The first reading finds one run, the text and the first of the two below it. */
  lemma {:induction false} ForkSpans(t: Tree, ids: seq<Id>)
    requires IsFork(t.nodes) && ForkOrder(ids, 2, 3)
    ensures Spans(t, NoJson, ids, 2, 0) == [(1, 3)]
  {
    assert Spans(t, NoJson, ids, 2, 4) == [];
    assert RunEnd(t, NoJson, ids, 4) == 4;
    assert !Linked(t, NoJson, ids, 3) && Linked(t, NoJson, ids, 2);
    assert Spans(t, NoJson, ids, 2, 3) == [];
    assert RunEnd(t, NoJson, ids, 3) == 3;
    assert RunEnd(t, NoJson, ids, 2) == 3;
    assert Spans(t, NoJson, ids, 2, 1) == [(1, 3)];
  }

  lemma {:induction false} ForkPaths(t: Tree)
    requires IsFork(t.nodes) && ForkOrder(t.order, 2, 3)
    ensures Ordered(t.nodes) && PathsOf(t, NoJson, 2) == [[1, 2]]
  {
    ForkVisit(t, 2, 3);
    ForkSpans(t, t.order);
    assert t.order[1..3] == [1, 2];
  }

  lemma {:induction false} ForkKept(job: Job)
    requires IsFork(job.tree.nodes) && ForkOrder(job.tree.order, 3, 2) && Ordered(job.tree.nodes)
      && job.paths == [[1, 2]]
    ensures job.Run(1) == Some([1, 2]) && forall x :: x != 1 ==> job.Run(x).None?
    ensures job.Kept(0) && job.Kept(1) && job.Kept(2) && !job.Kept(3)
  {
    var t := job.tree;
    assert job.paths[..0] == [];
    forall x | x != 1
      ensures job.Run(x).None?
    {
      assert RunFrom([], x).None?;
    }
    ForkChildren(t, 3, 2, 1);
    ForkChildren(t, 3, 2, 3);
    assert Walked(t, 3, 2) == {3};
    assert Walked(t, 1, 2) == {1, 3};
    assert Collapsed(t, []) == {};
    assert Collapsed(t, job.paths) == {1, 3};
  }

  /** If the second reading lists the other one of the two first, that one is lost,
      and the merged one is there a second time. */
  lemma {:induction false} SecondReadingLoses(first: Tree, order: seq<Id>, encode: string -> string)
    requires IsFork(first.nodes) && ForkOrder(first.order, 2, 3) && ForkOrder(order, 3, 2)
    ensures Ordered(first.nodes)
    ensures var job := Job(first.(order := order), NoJson, encode, PathsOf(first, NoJson, 2));
            job.Valid() && Visit(job.tree) == [0, 1, 3, 2] && Shown(job, Visit(job.tree)) == [0, 1, 2, 2]
  {
    ForkReadable(first, 2, 3);
    ForkReadable(first.(order := order), 3, 2);
    ForkVisit(first.(order := order), 3, 2);
    ForkPaths(first);
    JobValid(first, first.(order := order), NoJson, encode, 2);
    ForkShown(Job(first.(order := order), NoJson, encode, PathsOf(first, NoJson, 2)), order);
  }

  lemma {:induction false} ForkShown(job: Job, order: seq<Id>)
    requires IsFork(job.tree.nodes) && ForkOrder(job.tree.order, 3, 2) && Ordered(job.tree.nodes)
      && job.paths == [[1, 2]]
    requires order == job.tree.order
    ensures order == [0, 1, 3, 2] && Shown(job, order) == [0, 1, 2, 2]
  {
    ForkKept(job);
    ShownNext(job, order, 0);
    ShownNext(job, order, 1);
    ShownNext(job, order, 2);
    ShownNext(job, order, 3);
    assert order[..0] == [] && order[..4] == order;
  }

  /** There is such a tree. */
  lemma {:induction false} ForkExists()
    ensures IsFork(map[0 := NodeRow(9, None, TextNode(""), Active), 1 := NodeRow(9, Some(0), TextNode("a"), Active),
                       2 := NodeRow(9, Some(1), TextNode("b"), Active),
                       3 := NodeRow(9, Some(1), TextNode("c"), Active)])
  {
  }

  // --------------------------------------------------------------- what is kept

  function RowData(rows: seq<NodeRow>): seq<NodeType> {
    if rows == [] then [] else RowData(rows[..|rows| - 1]) + [rows[|rows| - 1].data]
  }

  lemma {:induction false} DataText(job: Job, x: Id)
    requires x in job.tree.nodes && Wraps(job.view, job.encode)
    ensures TextOf(job.view, job.Data(x)) == MergedText(job.tree, job.view, job.StandsFor(x))
  {
    MergedOne(job.tree, job.view, x);
  }

  lemma {:induction false} JoinNext(view: string -> Shape, rows: seq<NodeRow>, row: NodeRow)
    ensures JoinText(view, RowData(rows + [row])) == JoinText(view, RowData(rows)) + TextOf(view, row.data)
  {
    assert (rows + [row])[..|rows|] == rows;
    var data := RowData(rows);
    assert (data + [row.data])[..|data|] == data;
  }

  /** The texts of the view's nodes, joined in the order of their creation, are the
      texts of the source nodes that they stand for. */
  lemma {:induction false} CollapseKeepsText(job: Job, viewId: Id, ids: seq<Id>)
    requires Ordered(job.tree.nodes) && AllIn(job.tree.nodes, ids) && Wraps(job.view, job.encode)
    ensures AllIn(job.tree.nodes, KeptOf(job, ids))
    ensures JoinText(job.view, RowData(ViewRows(job, viewId, KeptOf(job, ids))))
         == MergedText(job.tree, job.view, Shown(job, ids))
  {
    if ids != [] {
      var front, x := ids[..|ids| - 1], ids[|ids| - 1];
      CollapseKeepsText(job, viewId, front);
      if job.Kept(x) {
        var done := KeptOf(job, front);
        RowsNext(job, viewId, done, x);
        JoinNext(job.view, ViewRows(job, viewId, done), ViewRow(job, viewId, done, x));
        DataText(job, x);
        MergedAppend(job.tree, job.view, Shown(job, front), job.StandsFor(x));
      } else {
        assert KeptOf(job, ids) == KeptOf(job, front) && Shown(job, ids) == Shown(job, front);
      }
    }
  }

  /** How many nodes the runs that start among these merge away. */
  function MergedAway(job: Job, ids: seq<Id>): nat {
    if ids == [] then 0
    else
      var run := job.Run(ids[|ids| - 1]);
      MergedAway(job, ids[..|ids| - 1]) + if run.Some? then |run.value| - 1 else 0
  }

  /** One view node per run and one per other node that is shown. */
  lemma {:induction false} CollapseCount(job: Job, ids: seq<Id>)
    requires Ordered(job.tree.nodes)
    ensures |KeptOf(job, ids)| + MergedAway(job, ids) == |Shown(job, ids)|
  {
    if ids != [] {
      CollapseCount(job, ids[..|ids| - 1]);
    }
  }

  /** When the runs fit the second reading, the view holds the whole document, text
      by text in order, with one node per run and one per node outside the runs. */
  lemma {:induction false} ViewHoldsDocument(job: Job, viewId: Id)
    requires job.Valid() && Fits(job) && Wraps(job.view, job.encode)
    ensures AllIn(job.tree.nodes, KeptOf(job, Visit(job.tree)))
    ensures var ids := Visit(job.tree);
            var rows := ViewRows(job, viewId, KeptOf(job, ids));
            && JoinText(job.view, RowData(rows)) == MergedText(job.tree, job.view, ids)
            && |rows| == |ids| - MergedAway(job, ids)
            && forall x | x in ids :: x in KeptOf(job, ids) <==> !Inner(job, x)
  {
    var ids := Visit(job.tree);
    VisitDistinct(job.tree);
    OnceEachExactly(job);
    CollapseKeepsText(job, viewId, ids);
    CollapseCount(job, ids);
    forall x | x in ids
      ensures job.Kept(x) <==> !Inner(job, x)
    {
      if Inner(job, x) {
        InnerNotKept(job, x);
      } else {
        OthersKept(job, x);
      }
    }
  }

  // ------------------------------------------------------------------- its shape

  lemma {:induction false} RowAt(job: Job, viewId: Id, ids: seq<Id>, m: nat)
    requires AllIn(job.tree.nodes, ids) && m < |ids|
    ensures ViewRows(job, viewId, ids)[m] == ViewRow(job, viewId, ids[..m], ids[m])
  {
    var n := |ids| - 1;
    if m < n {
      RowAt(job, viewId, ids[..n], m);
      assert ids[..n][..m] == ids[..m];
    }
  }

  /** Where a kept node stands in the traversal. */
  lemma {:induction false} KeptFrom(job: Job, ids: seq<Id>, m: nat) returns (p: nat)
    requires Ordered(job.tree.nodes) && m < |KeptOf(job, ids)|
    ensures p < |ids| && ids[p] == KeptOf(job, ids)[m] && KeptOf(job, ids[..p]) == KeptOf(job, ids)[..m]
  {
    var n := |ids| - 1;
    var front := ids[..n];
    if m < |KeptOf(job, front)| {
      p := KeptFrom(job, front, m);
      assert front[..p] == ids[..p];
    } else {
      p := n;
    }
  }

  /** A kept node's parent, if it is kept too, comes before it in the view. */
  lemma {:induction false} ParentBefore(job: Job, m: nat)
    requires job.Valid() && m < |KeptOf(job, Visit(job.tree))|
    ensures var kept := KeptOf(job, Visit(job.tree));
            && kept[m] in job.tree.nodes
            && var up := job.tree.nodes[kept[m]].parent;
               up.Some? ==> (job.Kept(up.value) <==> up.value in kept[..m])
  {
    var ids := Visit(job.tree);
    VisitDistinct(job.tree);
    var p := KeptFrom(job, ids, m);
    if p > 0 {
      var j := ParentHandledBefore(job, p);
      assert ids[..p][j] == ids[j];
      assert ids[j] in ids[..p];
    } else {
      RootFirst(job.tree);
    }
  }

  /** A view node hangs below the image of its source parent exactly when that parent
      was kept. Otherwise a copied node is left without a parent and a merged run is
      put below the view root, as is the root's own. */
  lemma {:induction false} ShapeKept(job: Job, viewId: Id, m: nat)
    requires job.Valid() && m < |KeptOf(job, Visit(job.tree))|
    ensures AllIn(job.tree.nodes, KeptOf(job, Visit(job.tree)))
    ensures var kept := KeptOf(job, Visit(job.tree));
            var row := ViewRows(job, viewId, kept)[m];
            && kept[m] in job.tree.nodes
            && var up := job.tree.nodes[kept[m]].parent;
               if up.Some? && job.Kept(up.value)
               then exists i :: 0 <= i < m && kept[i] == up.value && row.parent == Some(viewId + 2 + i)
               else row.parent == if job.Run(kept[m]).Some? then Some(viewId + 1) else None
  {
    var kept := KeptOf(job, Visit(job.tree));
    VisitDistinct(job.tree);
    ParentBefore(job, m);
    RowAt(job, viewId, kept, m);
    var parent := job.tree.nodes[kept[m]].parent;
    if parent.Some? {
      var place := Place(kept[..m], parent.value);
      assert place.Some? ==> kept[place.value] == kept[..m][place.value];
    }
  }

  /** Every node but the first comes after its parent. */
  lemma {:induction false} ParentHandledBefore(job: Job, p: nat) returns (j: nat)
    requires job.Valid() && 0 < p < |Visit(job.tree)|
    ensures j < p && Visit(job.tree)[p] in job.tree.nodes
    ensures job.tree.nodes[Visit(job.tree)[p]].parent == Some(Visit(job.tree)[j])
  {
    j := ParentIsEarlier(job.tree, FirstRoot(job.tree, job.tree.order).value, p);
  }
}
