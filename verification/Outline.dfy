// The outline of a tree (src/activations/arbor/types.rs:245-249, 326-361): one
// line per node, indented by four-character cells, children in index order.
module Outline {
  import opened Prelude
  import opened Arbor
  import opened Traversal

  /** The label of a node, as one line of the outline shows it. */
  type Labels = Id -> string

  // ----------------------------------------------------------------- text labels

  /** The characters that make up the first `n` bytes, if a character ends there. */
  function CutAt(s: string, n: nat): Option<string> {
    if n == 0 then Some("")
    else if s == "" || Utf8Width(s[0]) > n then None
    else match CutAt(s[1..], n - Utf8Width(s[0]))
         case None => None
         case Some(rest) => Some([s[0]] + rest)
  }

  function OneLine(s: string): (r: string)
    ensures |r| == |s| && '\n' !in r
  {
    if s == "" then "" else [if s[0] == '\n' then '↵' else s[0]] + OneLine(s[1..])
  }

  /** Text of more than 60 bytes is cut after 57; None where the cut would split a
      character, which makes the program panic. */
  function TextLabel(content: string): Option<string> {
    if ByteLen(content) <= 60 then Some(OneLine(content))
    else match CutAt(content, 57)
         case None => None
         case Some(front) => Some(OneLine(front + "..."))
  }

  lemma {:induction false} CutExactly(s: string, n: nat)
    ensures CutAt(s, n).Some? <==> exists k :: 0 <= k <= |s| && ByteLen(s[..k]) == n
    ensures CutAt(s, n).Some? ==> CutAt(s, n).value <= s && ByteLen(CutAt(s, n).value) == n
  {
    if n == 0 {
      assert s[..0] == "" && ByteLen("") == 0;
    } else if s == "" {
      assert forall k :: 0 <= k <= |s| ==> s[..k] == "";
    } else {
      forall k | 0 < k <= |s|
        ensures ByteLen(s[..k]) == Utf8Width(s[0]) + ByteLen(s[1..][..k - 1])
      {
        OneMoreByte(s, k);
      }
      assert s[..0] == "";
      if Utf8Width(s[0]) <= n {
        var m := n - Utf8Width(s[0]);
        CutExactly(s[1..], m);
        if k :| 0 <= k <= |s[1..]| && ByteLen(s[1..][..k]) == m {
          assert ByteLen(s[..k + 1]) == n;
          assert CutAt(s, n).value[1..] == CutAt(s[1..], m).value;
        }
      }
    }
  }

  lemma {:induction false} OneMoreByte(s: string, k: nat)
    requires 0 < k <= |s|
    ensures ByteLen(s[..k]) == Utf8Width(s[0]) + ByteLen(s[1..][..k - 1])
  {
    assert s[..k][1..] == s[1..][..k - 1];
  }

  /** A text node has a label exactly when its text is short or a character ends
      after 57 bytes; the label is one line of at most 60 bytes' worth of the text. */
  lemma {:induction false} TextLabelExactly(content: string)
    ensures TextLabel(content).Some?
      <==> ByteLen(content) <= 60 || exists k :: 0 <= k <= |content| && ByteLen(content[..k]) == 57
    ensures TextLabel(content).Some? ==> NewlineFree(TextLabel(content).value)
  {
    CutExactly(content, 57);
  }

  /** Fifty-six one-byte characters and then two-byte ones. */
  lemma {:induction false} CutSplitsCharacter()
    ensures TextLabel(seq(56, _ => 'a') + "ééé") == None
  {
    var s := seq(56, _ => 'a') + "ééé";
    AsciiBytes(56);
    ByteLenAppend(seq(56, _ => 'a'), "ééé");
    assert ByteLen("ééé") == 6;
    CutExactly(s, 57);
    forall k | 0 <= k <= |s|
      ensures ByteLen(s[..k]) != 57
    {
      if k <= 56 {
        assert s[..k] == seq(k, _ => 'a');
        AsciiBytes(k);
      } else {
        assert s[..k] == seq(56, _ => 'a') + "ééé"[..k - 56];
        ByteLenAppend(seq(56, _ => 'a'), "ééé"[..k - 56]);
        assert k - 56 == 1 || k - 56 == 2 || k - 56 == 3;
        assert ByteLen("é") == 2 && ByteLen("éé") == 4;
        assert "ééé"[..1] == "é" && "ééé"[..2] == "éé" && "ééé"[..3] == "ééé";
      }
    }
  }

  lemma {:induction false} AsciiBytes(n: nat)
    ensures ByteLen(seq(n, _ => 'a')) == n
  {
    if n > 0 {
      assert seq(n, _ => 'a')[1..] == seq(n - 1, _ => 'a');
      AsciiBytes(n - 1);
    }
  }

  // -------------------------------------------------------------- what is drawn

  /** A labelled ordered tree. */
  datatype Rose = Rose(text: string, kids: seq<Rose>)

  /** One as it is drawn: a node may not count as the last of its siblings although
      it is, because a child in another tree follows it in the index. */
  datatype Sketch = Sketch(text: string, last: bool, kids: seq<Sketch>)

  function Plain(sketch: Sketch): Rose {
    Rose(sketch.text, PlainAll(sketch.kids))
  }

  function PlainAll(sketches: seq<Sketch>): (roses: seq<Rose>)
    ensures |roses| == |sketches|
  {
    if sketches == [] then [] else [Plain(sketches[0])] + PlainAll(sketches[1..])
  }

  /** Every node has a child list, which agrees with the parent pointers. */
  ghost predicate Linked(tree: Tree) {
    && Ordered(tree.nodes)
    && forall p | p in tree.nodes :: p in tree.children && ChildrenOf(tree, p, tree.children[p])
  }

  ghost predicate ChildrenOf(tree: Tree, p: Id, cs: seq<Id>) {
    forall c | c in cs :: c in tree.nodes ==> tree.nodes[c].parent == Some(p)
  }

  ghost function SketchOf(tree: Tree, labels: Labels, id: Id, last: bool): Sketch
    requires Linked(tree) && id in tree.nodes
    decreases Later(tree, id), 1, 0
  {
    Sketch(labels(id), last, SketchesOf(tree, labels, id, tree.children[id]))
  }

  /** Children that are not in the tree are passed over; the last of the list is last. */
  ghost function SketchesOf(tree: Tree, labels: Labels, parent: Id, cs: seq<Id>): seq<Sketch>
    requires Linked(tree) && ChildrenOf(tree, parent, cs)
    decreases Later(tree, parent), 0, |cs|
  {
    if cs == [] then []
    else if cs[0] !in tree.nodes then SketchesOf(tree, labels, parent, cs[1..])
    else
      ChildIsLater(tree, parent, cs[0]);
      [SketchOf(tree, labels, cs[0], |cs| == 1)] + SketchesOf(tree, labels, parent, cs[1..])
  }

  // -------------------------------------------------------------------- drawing

  function Cell(last: bool): string {
    if last then "    " else "│   "
  }

  function Connector(last: bool): string {
    if last then "└── " else "├── "
  }

  function Drawn(sketch: Sketch, prefix: string): string {
    prefix + Connector(sketch.last) + sketch.text + "\n" + DrawnAll(sketch.kids, prefix + Cell(sketch.last))
  }

  function DrawnAll(sketches: seq<Sketch>, prefix: string): string {
    if sketches == [] then "" else Drawn(sketches[0], prefix) + DrawnAll(sketches[1..], prefix)
  }

  ghost function Outlined(tree: Tree, labels: Labels): string
    requires Linked(tree)
  {
    if tree.root in tree.nodes then Drawn(SketchOf(tree, labels, tree.root, true), "") else ""
  }

  ghost function Rank(tree: Tree, id: Id): set<Id> {
    if id in tree.nodes then Later(tree, id) + {id} else {}
  }

  lemma {:induction false} RankFalls(tree: Tree, id: Id, c: Id)
    requires Linked(tree) && id in tree.nodes && c in tree.children[id]
    ensures Rank(tree, c) < Rank(tree, id)
  {
    assert ChildrenOf(tree, id, tree.children[id]);
    assert id in Rank(tree, id);
    if c in tree.nodes {
      ChildIsLater(tree, id, c);
    }
  }

  /** The next child of a list is drawn, or passed over. */
  lemma {:induction false} NextDrawn(
      tree: Tree, labels: Labels, parent: Id, cs: seq<Id>, prefix: string, before: string)
    requires Linked(tree) && ChildrenOf(tree, parent, cs) && cs != []
    ensures var first := if cs[0] in tree.nodes then Drawn(SketchOf(tree, labels, cs[0], |cs| == 1), prefix) else "";
            (before + first + DrawnAll(SketchesOf(tree, labels, parent, cs[1..]), prefix)
             == before + DrawnAll(SketchesOf(tree, labels, parent, cs), prefix))
  {
    var rest := SketchesOf(tree, labels, parent, cs[1..]);
    if cs[0] in tree.nodes {
      var sketch := SketchOf(tree, labels, cs[0], |cs| == 1);
      assert ([sketch] + rest)[1..] == rest;
      AppendAssoc(before, Drawn(sketch, prefix), DrawnAll(rest, prefix));
    } else {
      assert before + "" == before;
    }
  }

  /** render: the outline of the whole tree, nothing if the root is missing. */
  method Render(tree: Tree, labels: Labels) returns (output: string)
    requires Linked(tree)
    ensures output == Outlined(tree, labels)
  {
    output := RenderNode(tree, labels, tree.root, "", "", true);
    NothingBefore(Outlined(tree, labels));
  }

  lemma {:induction false} NothingBefore(s: string)
    ensures "" + s == s
  {
  }

  method RenderNode(tree: Tree, labels: Labels, id: Id, output: string, prefix: string, last: bool)
    returns (output': string)
    requires Linked(tree)
    ensures output' == output + if id in tree.nodes then Drawn(SketchOf(tree, labels, id, last), prefix) else ""
    decreases Rank(tree, id)
  {
    output' := output;
    if id !in tree.nodes {
      return;
    }
    var line := prefix + Connector(last) + labels(id) + "\n";
    output' := output' + line;
    ghost var start := output';
    var below := prefix + Cell(last);
    var cs := tree.children[id];
    for i := 0 to |cs|
      invariant output' + DrawnAll(SketchesOf(tree, labels, id, cs[i..]), below)
             == start + DrawnAll(SketchesOf(tree, labels, id, cs), below)
    {
      assert cs[i..][0] == cs[i] && cs[i..][1..] == cs[i + 1..];
      var before := output';
      RankFalls(tree, id, cs[i]);
      output' := RenderNode(tree, labels, cs[i], before, below, i == |cs| - 1);
      NextDrawn(tree, labels, id, cs[i..], below, before);
    }
    AppendAssoc(output, line, DrawnAll(SketchesOf(tree, labels, id, cs), below));
  }

  // ------------------------------------------------------------------- decoding

  /** The lines of a text, each ended by a newline. */
  function Lines(s: string, line: string): seq<string> {
    if s == "" then if line == "" then [] else [line]
    else if s[0] == '\n' then [line] + Lines(s[1..], "")
    else Lines(s[1..], line + [s[0]])
  }

  /** Depth and label: cells are counted up to the first connector. */
  function ParseLine(line: string): Option<(nat, string)> {
    if |line| < 4 then None
    else if line[..4] == Connector(true) || line[..4] == Connector(false) then Some((0, line[4..]))
    else if line[..4] == Cell(true) || line[..4] == Cell(false) then
      match ParseLine(line[4..])
      case None => None
      case Some((depth, text)) => Some((depth + 1, text))
    else None
  }

  function ParseLines(lines: seq<string>): Option<seq<(nat, string)>> {
    if lines == [] then Some([])
    else
      match ParseLine(lines[0])
      case None => None
      case Some(first) =>
        match ParseLines(lines[1..])
        case None => None
        case Some(rest) => Some([first] + rest)
  }

  function Decoded(outline: string): Option<seq<(nat, string)>> {
    ParseLines(Lines(outline, ""))
  }

  /** Preorder, with depths. */
  function Listed(rose: Rose, depth: nat): seq<(nat, string)> {
    [(depth, rose.text)] + ListedAll(rose.kids, depth + 1)
  }

  function ListedAll(roses: seq<Rose>, depth: nat): seq<(nat, string)> {
    if roses == [] then [] else Listed(roses[0], depth) + ListedAll(roses[1..], depth)
  }

  predicate NewlineFree(s: string) {
    '\n' !in s
  }

  ghost predicate CleanLabels(sketch: Sketch) {
    NewlineFree(sketch.text) && AllClean(sketch.kids)
  }

  ghost predicate AllClean(sketches: seq<Sketch>) {
    sketches == [] || (CleanLabels(sketches[0]) && AllClean(sketches[1..]))
  }

  /** A prefix of this many cells. */
  predicate Cells(prefix: string, depth: nat) {
    if depth == 0 then prefix == ""
    else |prefix| >= 4 && (prefix[..4] == Cell(true) || prefix[..4] == Cell(false)) && Cells(prefix[4..], depth - 1)
  }

  lemma {:induction false} CellsSnoc(prefix: string, depth: nat, last: bool)
    requires Cells(prefix, depth)
    ensures Cells(prefix + Cell(last), depth + 1)
  {
    var longer := prefix + Cell(last);
    if depth == 0 {
      assert longer == Cell(last) && longer[4..] == "";
    } else {
      assert longer[..4] == prefix[..4] && longer[4..] == prefix[4..] + Cell(last);
      CellsSnoc(prefix[4..], depth - 1, last);
    }
  }

  lemma {:induction false} LineParses(prefix: string, depth: nat, last: bool, text: string)
    requires Cells(prefix, depth)
    ensures ParseLine(prefix + Connector(last) + text) == Some((depth, text))
  {
    var line := prefix + Connector(last) + text;
    if depth == 0 {
      assert line == Connector(last) + text;
      assert line[..4] == Connector(last) && line[4..] == text;
    } else {
      assert line[..4] == prefix[..4] && line[4..] == prefix[4..] + Connector(last) + text;
      assert line[0] == prefix[0];
      LineParses(prefix[4..], depth - 1, last, text);
    }
  }

  lemma {:induction false} CellsNewlineFree(prefix: string, depth: nat)
    requires Cells(prefix, depth)
    ensures NewlineFree(prefix)
  {
    if depth > 0 {
      CellsNewlineFree(prefix[4..], depth - 1);
      assert prefix == prefix[..4] + prefix[4..];
    }
  }

  lemma {:induction false} LineEnds(s: string, rest: string, line: string)
    requires NewlineFree(s)
    ensures Lines(s + "\n" + rest, line) == [line + s] + Lines(rest, "")
  {
    var all := s + "\n" + rest;
    if s == "" {
      assert all == "\n" + rest && all[1..] == rest && line + s == line;
    } else {
      assert s[0] in s && s == [s[0]] + s[1..];
      assert all[1..] == s[1..] + "\n" + rest;
      assert line + [s[0]] + s[1..] == line + s;
      LineEnds(s[1..], rest, line + [s[0]]);
    }
  }

  /** One line in front of any text. */
  lemma {:induction false} LineDecodes(
      prefix: string, depth: nat, last: bool, text: string, rest: string, tail: seq<(nat, string)>)
    requires Cells(prefix, depth) && NewlineFree(text) && Decoded(rest) == Some(tail)
    ensures Decoded(prefix + Connector(last) + text + "\n" + rest) == Some([(depth, text)] + tail)
  {
    var line := prefix + Connector(last) + text;
    CellsNewlineFree(prefix, depth);
    LineEnds(line, rest, "");
    assert "" + line == line;
    LineParses(prefix, depth, last, text);
    var lines := [line] + Lines(rest, "");
    assert lines[1..] == Lines(rest, "");
  }

  /** An outline in front of any text decodes to its list in front of the text's. */
  lemma {:induction false} DrawnDecodes(
      sketch: Sketch, prefix: string, depth: nat, rest: string, tail: seq<(nat, string)>)
    requires Cells(prefix, depth) && CleanLabels(sketch) && Decoded(rest) == Some(tail)
    ensures Decoded(Drawn(sketch, prefix) + rest) == Some(Listed(Plain(sketch), depth) + tail)
    decreases sketch, 0
  {
    var last, below := sketch.last, DrawnAll(sketch.kids, prefix + Cell(sketch.last));
    var kids := ListedAll(PlainAll(sketch.kids), depth + 1);
    CellsSnoc(prefix, depth, last);
    DrawnAllDecodes(sketch.kids, prefix + Cell(last), depth + 1, rest, tail);
    LineDecodes(prefix, depth, last, sketch.text, below + rest, kids + tail);
    AppendAssoc(prefix + Connector(last) + sketch.text + "\n", below, rest);
    AppendAssoc([(depth, sketch.text)], kids, tail);
  }

  lemma {:induction false} DrawnAllDecodes(
      sketches: seq<Sketch>, prefix: string, depth: nat, rest: string, tail: seq<(nat, string)>)
    requires Cells(prefix, depth) && AllClean(sketches) && Decoded(rest) == Some(tail)
    ensures Decoded(DrawnAll(sketches, prefix) + rest) == Some(ListedAll(PlainAll(sketches), depth) + tail)
    decreases sketches, 1
  {
    if sketches == [] {
      assert "" + rest == rest && [] + tail == tail;
    } else {
      var others := DrawnAll(sketches[1..], prefix);
      var more := ListedAll(PlainAll(sketches[1..]), depth);
      DrawnAllDecodes(sketches[1..], prefix, depth, rest, tail);
      DrawnDecodes(sketches[0], prefix, depth, others + rest, more + tail);
      AppendAssoc(Drawn(sketches[0], prefix), others, rest);
      AppendAssoc(Listed(Plain(sketches[0]), depth), more, tail);
      assert PlainAll(sketches)[1..] == PlainAll(sketches[1..]);
    }
  }

  // ----------------------------------------------------------------- rebuilding

  /** The trees at this depth at the head of a list, and what follows them. */
  function Rebuilt(list: seq<(nat, string)>, depth: nat): (r: (seq<Rose>, seq<(nat, string)>))
    ensures |r.1| <= |list|
    decreases |list|
  {
    if list == [] || list[0].0 != depth then ([], list)
    else
      var (kids, after) := Rebuilt(list[1..], depth + 1);
      var (others, rest) := Rebuilt(after, depth);
      ([Rose(list[0].1, kids)] + others, rest)
  }

  /** The list does not go on at this depth or deeper. */
  predicate EndsAbove(list: seq<(nat, string)>, depth: nat) {
    list == [] || list[0].0 < depth
  }

  lemma {:induction false} ListRebuilds(roses: seq<Rose>, depth: nat, rest: seq<(nat, string)>)
    requires EndsAbove(rest, depth)
    ensures Rebuilt(ListedAll(roses, depth) + rest, depth) == (roses, rest)
    decreases roses
  {
    if roses == [] {
      assert [] + rest == rest;
    } else {
      var first, others := roses[0], ListedAll(roses[1..], depth) + rest;
      ListedHead(roses, depth, rest);
      StartsAt(roses[1..], depth, rest);
      ListRebuilds(first.kids, depth + 1, others);
      ListRebuilds(roses[1..], depth, rest);
      RebuildFirst(first.text, depth, ListedAll(first.kids, depth + 1) + others);
      assert [Rose(first.text, first.kids)] + roses[1..] == roses;
    }
  }

  lemma {:induction false} ListedHead(roses: seq<Rose>, depth: nat, rest: seq<(nat, string)>)
    requires roses != []
    ensures ListedAll(roses, depth) + rest
         == [(depth, roses[0].text)] + (ListedAll(roses[0].kids, depth + 1) + (ListedAll(roses[1..], depth) + rest))
  {
    AppendAssoc(Listed(roses[0], depth), ListedAll(roses[1..], depth), rest);
    AppendAssoc([(depth, roses[0].text)], ListedAll(roses[0].kids, depth + 1), ListedAll(roses[1..], depth) + rest);
  }

  lemma {:induction false} RebuildFirst(text: string, depth: nat, more: seq<(nat, string)>)
    ensures var (kids, after) := Rebuilt(more, depth + 1);
            var (others, rest) := Rebuilt(after, depth);
            Rebuilt([(depth, text)] + more, depth) == ([Rose(text, kids)] + others, rest)
  {
    assert ([(depth, text)] + more)[1..] == more;
  }

  lemma {:induction false} StartsAt(roses: seq<Rose>, depth: nat, rest: seq<(nat, string)>)
    requires EndsAbove(rest, depth)
    ensures EndsAbove(ListedAll(roses, depth) + rest, depth + 1)
  {
    if roses != [] {
      assert ListedAll(roses, depth)[0] == (depth, roses[0].text);
    }
  }

  /** The outline of a tree with newline-free labels decodes to its preorder with
      depths, and from that the tree itself is rebuilt: no two trees share one. */
  lemma {:induction false} OutlineUnambiguous(sketch: Sketch)
    requires CleanLabels(sketch)
    ensures Decoded(Drawn(sketch, "")) == Some(Listed(Plain(sketch), 0))
    ensures Rebuilt(Listed(Plain(sketch), 0), 0) == ([Plain(sketch)], [])
  {
    var outline, rose := Drawn(sketch, ""), Plain(sketch);
    DrawnDecodes(sketch, "", 0, "", []);
    assert outline + "" == outline && Listed(rose, 0) + [] == Listed(rose, 0);
    ListRebuilds([rose], 0, []);
    assert [rose][1..] == [] && ListedAll([rose], 0) == Listed(rose, 0) + [];
    assert ListedAll([rose], 0) + [] == Listed(rose, 0);
  }

  // ------------------------------------------------- the trees that the store reads

  /** How many steps up from `x` to its ancestor `a`. */
  ghost function Height(nodes: map<Id, NodeRow>, a: Id, x: Id): nat
    requires Ordered(nodes)
    decreases if x < 0 then 0 else x + 1
  {
    if x == a || x !in nodes || nodes[x].parent.None? then 0 else 1 + Height(nodes, a, nodes[x].parent.value)
  }

  /** The ids of a tree in the order in which they were minted. */
  function IdsBelow(nodes: map<Id, NodeRow>, n: nat): seq<Id> {
    if n == 0 then [] else IdsBelow(nodes, n - 1) + if n - 1 in nodes then [n - 1] else []
  }

  /** The tree with its nodes taken in that order. */
  function Chronological(tree: Tree, n: nat): Tree {
    tree.(order := IdsBelow(tree.nodes, n))
  }

  lemma {:induction false} ChronologicalReadable(tree: Tree, n: nat)
    requires Ordered(tree.nodes) && forall i | i in tree.nodes :: i < n
    ensures Readable(Chronological(tree, n))
  {
    IdsBelowAre(tree.nodes, n);
  }

  lemma {:induction false} IdsBelowAre(nodes: map<Id, NodeRow>, n: nat)
    ensures Distinct(IdsBelow(nodes, n)) && forall i :: i in IdsBelow(nodes, n) <==> i in nodes && 0 <= i < n
  {
    if n > 0 {
      IdsBelowAre(nodes, n - 1);
    }
  }

  lemma {:induction false} ChildrenInOrder(nodes: map<Id, NodeRow>, p: Id, n: nat)
    ensures ChildrenAmong(nodes, IdsBelow(nodes, n), p) == NamedChildren(nodes, p, n)
  {
    if n > 0 {
      ChildrenInOrder(nodes, p, n - 1);
      var ids := IdsBelow(nodes, n - 1);
      assert n - 1 in nodes ==> (ids + [n - 1])[..|ids|] == ids;
      assert ids + [] == ids;
    }
  }

  /** The members of a child list that are in the tree. */
  function Present(nodes: map<Id, NodeRow>, cs: seq<Id>): seq<Id> {
    if cs == [] then [] else (if cs[0] in nodes then [cs[0]] else []) + Present(nodes, cs[1..])
  }

  /** The child lists hold the children in the order in which they were minted. */
  ghost predicate InOrder(tree: Tree, n: nat) {
    forall p | p in tree.nodes ::
      p in tree.children && Present(tree.nodes, tree.children[p]) == NamedChildren(tree.nodes, p, n)
  }

  lemma {:induction false} PresentAppend(nodes: map<Id, NodeRow>, a: seq<Id>, b: seq<Id>)
    ensures Present(nodes, a + b) == Present(nodes, a) + Present(nodes, b)
  {
    if a == [] {
      assert a + b == b;
    } else {
      assert (a + b)[1..] == a[1..] + b;
      PresentAppend(nodes, a[1..], b);
    }
  }

  /** Among a tree's own rows, the children are those of all rows that are in the tree. */
  lemma {:induction false} NamedPresent(all: map<Id, NodeRow>, own: map<Id, NodeRow>, p: Id, n: nat)
    requires forall i | i in own :: i in all && all[i] == own[i]
    ensures Present(own, NamedChildren(all, p, n)) == NamedChildren(own, p, n)
  {
    if n > 0 {
      NamedPresent(all, own, p, n - 1);
      if n - 1 in all && all[n - 1].parent == Some(p) {
        PresentAppend(own, NamedChildren(all, p, n - 1), [n - 1]);
        PresentOne(own, n - 1);
      } else {
        assert NamedChildren(all, p, n) == NamedChildren(all, p, n - 1);
      }
    }
  }

  lemma {:induction false} PresentOne(nodes: map<Id, NodeRow>, c: Id)
    ensures Present(nodes, [c]) == if c in nodes then [c] else []
  {
    assert [c][1..] == [] && Present(nodes, []) == [];
  }

  /** tree_get delivers child lists that can be rendered, in insertion order. */
  lemma {:induction false} ReadInOrder(db: Db, t: Id, order: seq<Id>)
    requires db.Valid() && db.TreeGet(t, order).Ok?
    ensures var tree := db.TreeGet(t, order).value; Linked(tree) && InOrder(tree, db.next) && tree.root in tree.nodes
  {
    var tree := db.TreeGet(t, order).value;
    forall p | p in tree.nodes
      ensures p in tree.children && ChildrenOf(tree, p, tree.children[p])
      ensures Present(tree.nodes, tree.children[p]) == NamedChildren(tree.nodes, p, db.next)
    {
      assert IndexedAt(db.nodes, db.children, db.next, p);
      NamedNames(db.nodes, p, db.next);
      NamedPresent(db.nodes, tree.nodes, p, db.next);
    }
  }

  // ------------------------------------------------------- what the outline says

  /** The list gives these nodes in this order, each with its label and its depth. */
  ghost predicate Lists(
      list: seq<(nat, string)>, ids: seq<Id>, nodes: map<Id, NodeRow>, labels: Labels, top: Id, depth: nat)
    requires Ordered(nodes)
  {
    && |list| == |ids|
    && forall k :: 0 <= k < |ids| ==> list[k] == (depth + Height(nodes, top, ids[k]), labels(ids[k]))
  }

  lemma {:induction false} HeightStep(nodes: map<Id, NodeRow>, p: Id, c: Id, x: Id)
    requires Ordered(nodes) && c in nodes && nodes[c].parent == Some(p) && Under(nodes, c, x)
    ensures Height(nodes, p, x) == Height(nodes, c, x) + 1
    decreases if x < 0 then 0 else x + 1
  {
    UnderIsLater(nodes, c, x);
    if x != c {
      HeightStep(nodes, p, c, nodes[x].parent.value);
    }
  }

  /** A child's list, seen from the parent. */
  lemma {:induction false} ListedFromParent(
      list: seq<(nat, string)>, tree: Tree, labels: Labels, p: Id, c: Id, depth: nat)
    requires Readable(tree) && c in tree.nodes && tree.nodes[c].parent == Some(p)
    requires Lists(list, Preorder(tree, c), tree.nodes, labels, c, depth + 1)
    ensures Lists(list, Preorder(tree, c), tree.nodes, labels, p, depth)
  {
    var ids := Preorder(tree, c);
    forall k | 0 <= k < |ids|
      ensures list[k] == (depth + Height(tree.nodes, p, ids[k]), labels(ids[k]))
    {
      PreorderMember(tree, c, ids[k]);
      HeightStep(tree.nodes, p, c, ids[k]);
    }
  }

  lemma {:induction false} SketchLists(tree: Tree, labels: Labels, id: Id, last: bool, n: nat, depth: nat)
    requires Linked(tree) && InOrder(tree, n) && id in tree.nodes && Readable(Chronological(tree, n))
    ensures Lists(Listed(Plain(SketchOf(tree, labels, id, last)), depth), Preorder(Chronological(tree, n), id),
                  tree.nodes, labels, id, depth)
    decreases Later(tree, id), 1, 0
  {
    var forest := Forest(Chronological(tree, n), Present(tree.nodes, tree.children[id]));
    var kids := SketchesOf(tree, labels, id, tree.children[id]);
    UnfoldInOrder(tree, id, n);
    SketchesList(tree, labels, id, tree.children[id], n, depth);
    ListsCons(ListedAll(PlainAll(kids), depth + 1), forest, tree.nodes, labels, id, depth);
    assert Plain(SketchOf(tree, labels, id, last)) == Rose(labels(id), PlainAll(kids));
  }

  lemma {:induction false} UnfoldInOrder(tree: Tree, id: Id, n: nat)
    requires Linked(tree) && InOrder(tree, n) && id in tree.nodes
    ensures Preorder(Chronological(tree, n), id)
         == [id] + Forest(Chronological(tree, n), Present(tree.nodes, tree.children[id]))
  {
    ChildrenInOrder(tree.nodes, id, n);
    PreorderUnfold(Chronological(tree, n), id);
  }

  lemma {:induction false} ListsCons(
      list: seq<(nat, string)>, ids: seq<Id>, nodes: map<Id, NodeRow>, labels: Labels, top: Id, depth: nat)
    requires Ordered(nodes) && Lists(list, ids, nodes, labels, top, depth)
    ensures Lists([(depth, labels(top))] + list, [top] + ids, nodes, labels, top, depth)
  {
    assert Height(nodes, top, top) == 0;
  }

  lemma {:induction false} ListsAppend(
      list: seq<(nat, string)>, ids: seq<Id>, list': seq<(nat, string)>, ids': seq<Id>, nodes: map<Id, NodeRow>,
      labels: Labels, top: Id, depth: nat)
    requires Ordered(nodes) && Lists(list, ids, nodes, labels, top, depth)
      && Lists(list', ids', nodes, labels, top, depth)
    ensures Lists(list + list', ids + ids', nodes, labels, top, depth)
  {
  }

  lemma {:induction false} SketchesList(tree: Tree, labels: Labels, parent: Id, cs: seq<Id>, n: nat, depth: nat)
    requires Linked(tree) && InOrder(tree, n) && Readable(Chronological(tree, n)) && ChildrenOf(tree, parent, cs)
    ensures Lists(ListedAll(PlainAll(SketchesOf(tree, labels, parent, cs)), depth + 1),
                  Forest(Chronological(tree, n), Present(tree.nodes, cs)), tree.nodes, labels, parent, depth)
    decreases Later(tree, parent), 0, |cs|
  {
    if cs != [] {
      var rest := SketchesOf(tree, labels, parent, cs[1..]);
      SketchesList(tree, labels, parent, cs[1..], n, depth);
      if cs[0] in tree.nodes {
        ChildIsLater(tree, parent, cs[0]);
        SketchLists(tree, labels, cs[0], |cs| == 1, n, depth + 1);
        var first := SketchOf(tree, labels, cs[0], |cs| == 1);
        ListedFromParent(Listed(Plain(first), depth + 1), Chronological(tree, n), labels, parent, cs[0], depth);
        HeadOfForest(tree, n, first, rest, cs, depth);
        ListsAppend(Listed(Plain(first), depth + 1), Preorder(Chronological(tree, n), cs[0]),
                    ListedAll(PlainAll(rest), depth + 1), Forest(Chronological(tree, n), Present(tree.nodes, cs[1..])),
                    tree.nodes, labels, parent, depth);
      } else {
        assert Present(tree.nodes, cs) == Present(tree.nodes, cs[1..]);
      }
    }
  }

  lemma {:induction false} HeadOfForest(tree: Tree, n: nat, first: Sketch, rest: seq<Sketch>, cs: seq<Id>, depth: nat)
    requires Ordered(tree.nodes) && cs != [] && cs[0] in tree.nodes
    ensures ListedAll(PlainAll([first] + rest), depth + 1)
         == Listed(Plain(first), depth + 1) + ListedAll(PlainAll(rest), depth + 1)
    ensures Forest(Chronological(tree, n), Present(tree.nodes, cs))
         == Preorder(Chronological(tree, n), cs[0]) + Forest(Chronological(tree, n), Present(tree.nodes, cs[1..]))
  {
    assert ([first] + rest)[1..] == rest && PlainAll([first] + rest)[1..] == PlainAll(rest);
    assert ([cs[0]] + Present(tree.nodes, cs[1..]))[1..] == Present(tree.nodes, cs[1..]);
  }

  lemma {:induction false} SketchClean(tree: Tree, labels: Labels, id: Id, last: bool)
    requires Linked(tree) && id in tree.nodes && forall i | i in tree.nodes :: NewlineFree(labels(i))
    ensures CleanLabels(SketchOf(tree, labels, id, last))
    decreases Later(tree, id), 1, 0
  {
    SketchesClean(tree, labels, id, tree.children[id]);
  }

  lemma {:induction false} SketchesClean(tree: Tree, labels: Labels, parent: Id, cs: seq<Id>)
    requires Linked(tree) && ChildrenOf(tree, parent, cs) && forall i | i in tree.nodes :: NewlineFree(labels(i))
    ensures AllClean(SketchesOf(tree, labels, parent, cs))
    decreases Later(tree, parent), 0, |cs|
  {
    if cs != [] {
      SketchesClean(tree, labels, parent, cs[1..]);
      if cs[0] in tree.nodes {
        ChildIsLater(tree, parent, cs[0]);
        SketchClean(tree, labels, cs[0], |cs| == 1);
        var rest := SketchesOf(tree, labels, parent, cs[1..]);
        assert ([SketchOf(tree, labels, cs[0], |cs| == 1)] + rest)[1..] == rest;
      }
    }
  }

  /** A text node's label is cut and made one line; a handle is shown in brackets and
      has to be one line by itself. */
  predicate Labelled(data: NodeType, line: string) {
    match data
    case TextNode(content) => TextLabel(content) == Some(line)
    case ExternalNode(_) => NewlineFree(line)
  }

  lemma {:induction false} LabelIsOneLine(data: NodeType, line: string)
    requires Labelled(data, line)
    ensures NewlineFree(line)
  {
    if data.TextNode? {
      TextLabelExactly(data.content);
    }
  }

  /** For every tree that the store reads, the text that render returns decodes to
      the nodes below the root, each once, parents before children and siblings in
      the order in which they were added, each with its label and with the number
      of its ancestors. */
  lemma {:induction false} OutlineTellsTree(db: Db, t: Id, order: seq<Id>, labels: Labels)
    requires db.Valid() && db.TreeGet(t, order).Ok?
    requires forall i | i in db.NodesOf(t) :: Labelled(db.nodes[i].data, labels(i))
    ensures var tree := db.TreeGet(t, order).value;
            var ids := Preorder(Chronological(tree, db.next), tree.root);
            && Linked(tree)
            && var decoded := Decoded(Outlined(tree, labels));
               && decoded.Some? && Lists(decoded.value, ids, tree.nodes, labels, tree.root, 0)
               && Distinct(ids) && forall x :: x in ids <==> Under(tree.nodes, tree.root, x)
  {
    var tree := db.TreeGet(t, order).value;
    ReadInOrder(db, t, order);
    ChronologicalReadable(tree, db.next);
    forall i | i in tree.nodes
      ensures NewlineFree(labels(i))
    {
      LabelIsOneLine(db.nodes[i].data, labels(i));
    }
    SketchClean(tree, labels, tree.root, true);
    OutlineUnambiguous(SketchOf(tree, labels, tree.root, true));
    SketchLists(tree, labels, tree.root, true, db.next, 0);
    PreorderDistinct(Chronological(tree, db.next), tree.root);
    forall x
      ensures x in Preorder(Chronological(tree, db.next), tree.root) <==> Under(tree.nodes, tree.root, x)
    {
      PreorderMember(Chronological(tree, db.next), tree.root, x);
    }
  }
}
