// Collapsing views (src/activations/arbor/views.rs): detection of text runs,
// merging of a range, and the collapse that rewrites a tree run by run.
//
// JSON is seen through one function, `view`, which says how `serde_json` reads
// a node's text: not JSON at all, or a JSON value with optional string members
// "type" and "text".
module Views {
  import opened Prelude
  import opened Arbor
  import opened Traversal

  datatype Shape = NotJson | Json(kind: Option<string>, text: Option<string>)

  const CONTENT_TEXT: string := "content_text"

  datatype TextRun = TextRun(start: Id, end: Id, length: nat, charCount: nat)

  datatype RangeText = RangeText(content: string, nodeCount: nat, ids: seq<Id>)

  /** `is_text_node`: the byte length of a text node's text, None for a node that
      ends a run. JSON without a string "type" is not text; a JSON value of
      another type counts whole, as plain text. */
  function TextSize(view: string -> Shape, data: NodeType): Option<nat> {
    match data
    case ExternalNode(_) => None
    case TextNode(content) =>
      match view(content)
      case Json(None, _) => None
      case Json(Some(kind), text) =>
        if kind == CONTENT_TEXT then (if text.Some? then Some(ByteLen(text.value)) else None)
        else PlainSize(content)
      case NotJson => PlainSize(content)
  }

  function PlainSize(content: string): Option<nat> {
    if content == "" then None else Some(ByteLen(content))
  }

  /** What a node contributes to a merged range. */
  function TextOf(view: string -> Shape, data: NodeType): string {
    match data
    case ExternalNode(_) => ""
    case TextNode(content) =>
      match view(content)
      case Json(Some(kind), text) =>
        if kind == CONTENT_TEXT then (if text.Some? then text.value else "") else content
      case _ => content
  }

  lemma {:induction false} SizeIsMergedLength(view: string -> Shape, data: NodeType)
    requires TextSize(view, data).Some?
    ensures ByteLen(TextOf(view, data)) == TextSize(view, data).value
  {
  }

  // ------------------------------------------------------------- text runs

  predicate IsText(tree: Tree, view: string -> Shape, id: Id) {
    id in tree.nodes && TextSize(view, tree.nodes[id].data).Some?
  }

  function Size(tree: Tree, view: string -> Shape, id: Id): nat {
    if IsText(tree, view, id) then TextSize(view, tree.nodes[id].data).value else 0
  }

  function SizeSum(tree: Tree, view: string -> Shape, ids: seq<Id>): nat {
    if ids == [] then 0
    else SizeSum(tree, view, ids[..|ids| - 1]) + Size(tree, view, ids[|ids| - 1])
  }

  /** Position k continues the run that position k-1 belongs to. */
  predicate Linked(tree: Tree, view: string -> Shape, ids: seq<Id>, k: nat)
    requires k < |ids|
  {
    && k > 0 && IsText(tree, view, ids[k - 1]) && IsText(tree, view, ids[k])
    && tree.nodes[ids[k]].parent == Some(ids[k - 1])
  }

  /** The positions i..j of the traversal form one maximal run of text nodes,
      each the child of the one before. */
  ghost predicate MaximalRun(tree: Tree, view: string -> Shape, ids: seq<Id>, i: int, j: int) {
    && 0 <= i < j <= |ids|
    && IsText(tree, view, ids[i]) && !Linked(tree, view, ids, i)
    && (forall k :: i < k < j ==> Linked(tree, view, ids, k))
    && (j < |ids| ==> !Linked(tree, view, ids, j))
  }

  function RunEnd(tree: Tree, view: string -> Shape, ids: seq<Id>, k: nat): (j: nat)
    requires k <= |ids|
    ensures k <= j <= |ids|
    decreases |ids| - k
  {
    if k < |ids| && Linked(tree, view, ids, k) then RunEnd(tree, view, ids, k + 1) else k
  }

  /** The spans of the runs of at least `min` nodes that start at or after `i`. */
  function Spans(tree: Tree, view: string -> Shape, ids: seq<Id>, min: nat, i: nat): (spans: seq<(nat, nat)>)
    requires i <= |ids|
    ensures forall s | s in spans :: i <= s.0 < s.1 <= |ids|
    decreases |ids| - i
  {
    if i == |ids| then []
    else if !IsText(tree, view, ids[i]) then Spans(tree, view, ids, min, i + 1)
    else
      var j := RunEnd(tree, view, ids, i + 1);
      (if j - i >= min then [(i, j)] else []) + Spans(tree, view, ids, min, j)
  }

  function ToRun(tree: Tree, view: string -> Shape, ids: seq<Id>, span: (nat, nat)): TextRun
    requires span.0 < span.1 <= |ids|
  {
    TextRun(ids[span.0], ids[span.1 - 1], span.1 - span.0, SizeSum(tree, view, ids[span.0..span.1]))
  }

  function ToRuns(tree: Tree, view: string -> Shape, ids: seq<Id>, spans: seq<(nat, nat)>): (runs: seq<TextRun>)
    requires forall s | s in spans :: s.0 < s.1 <= |ids|
    ensures |runs| == |spans|
    ensures forall k :: 0 <= k < |spans| ==> runs[k] == ToRun(tree, view, ids, spans[k])
  {
    seq(|spans|, k requires 0 <= k < |spans| => ToRun(tree, view, ids, spans[k]))
  }

  /** The runs of a tree that was read, or the refusal. */
  ghost function DetectedIn(
    read: Result<Tree, ArborError>, view: string -> Shape, min: nat): Result<seq<TextRun>, ArborError>
    requires read.Ok? ==> Ordered(read.value.nodes)
  {
    match read
    case Err(e) => Err(e)
    case Ok(tree) => Ok(ToRuns(tree, view, Visit(tree), Spans(tree, view, Visit(tree), min, 0)))
  }

  /** view_detect_text_runs: refused like any other read of the tree. */
  method ViewDetectTextRuns(store: ArborStorage, t: Id, order: seq<Id>, view: string -> Shape, min: nat)
    returns (r: Result<seq<TextRun>, ArborError>)
    requires store.State().Valid() && IterationOrder(order, store.State().NodesOf(t))
    ensures store.State().TreeGet(t, order).Ok? ==> Ordered(store.State().TreeGet(t, order).value.nodes)
    ensures r == DetectedIn(store.State().TreeGet(t, order), view, min)
  {
    var read := store.TreeGet(t, order);
    match read {
      case Err(e) => r := Err(e);
      case Ok(tree) =>
        var runs, spans := DetectTextRuns(tree, view, min);
        r := Ok(runs);
    }
  }

  method DetectTextRuns(tree: Tree, view: string -> Shape, min: nat)
    returns (runs: seq<TextRun>, ghost spans: seq<(nat, nat)>)
    requires Readable(tree)
    ensures spans == Spans(tree, view, Visit(tree), min, 0)
    ensures runs == ToRuns(tree, view, Visit(tree), spans)
  {
    var ids := TraverseTreeDfs(tree);
    runs, spans := [], [];
    var current: Option<TextRun> := None;
    ghost var b: nat := 0; // where the current run, if any, started
    for k := 0 to |ids|
      invariant current.None? ==> b == k && (k > 0 ==> !IsText(tree, view, ids[k - 1]))
      invariant current.Some? ==> Open(tree, view, ids, b, k) && current.value == ToRun(tree, view, ids, (b, k))
      invariant Found(tree, view, ids, min, runs, spans, b)
    {
      var id := ids[k];
      var size := if id in tree.nodes then TextSize(view, tree.nodes[id].data) else None;
      if size.Some? {
        runs, spans, b, current := TakeText(tree, view, ids, min, runs, spans, b, k, current, size.value);
      } else {
        if current.Some? {
          runs, spans := CloseRun(tree, view, ids, min, runs, spans, b, k, current.value);
          current := None;
        }
        b := k + 1;
      }
    }
    if current.Some? {
      runs, spans := CloseRun(tree, view, ids, min, runs, spans, b, |ids|, current.value);
    }
  }

  /** A text node extends the current run if it is the child of its last node,
      and otherwise starts a run of its own. */
  method TakeText(
    tree: Tree, ghost view: string -> Shape, ids: seq<Id>, min: nat,
    runs: seq<TextRun>, ghost spans: seq<(nat, nat)>, ghost b: nat, k: nat, current: Option<TextRun>, size: nat)
    returns (runs': seq<TextRun>, ghost spans': seq<(nat, nat)>, ghost b': nat, current': Option<TextRun>)
    requires k < |ids| && IsText(tree, view, ids[k]) && size == Size(tree, view, ids[k])
    requires current.None? ==> b == k && (k > 0 ==> !IsText(tree, view, ids[k - 1]))
    requires current.Some? ==> Open(tree, view, ids, b, k) && current.value == ToRun(tree, view, ids, (b, k))
    requires Found(tree, view, ids, min, runs, spans, b)
    ensures current'.Some? && Open(tree, view, ids, b', k + 1) && current'.value == ToRun(tree, view, ids, (b', k + 1))
    ensures Found(tree, view, ids, min, runs', spans', b')
  {
    var id := ids[k];
    runs', spans', b' := runs, spans, b;
    if current.Some? && tree.nodes[id].parent == Some(current.value.end) {
      ExtendRun(tree, view, ids, b, k);
      current' := Some(current.value.(end := id, length := current.value.length + 1,
                                      charCount := current.value.charCount + size));
    } else {
      if current.Some? {
        runs', spans' := CloseRun(tree, view, ids, min, runs, spans, b, k, current.value);
        b' := k;
      }
      NewRun(tree, view, ids, k);
      current' := Some(TextRun(id, id, 1, size));
    }
  }

  /** A run that ends is reported if it is long enough. */
  method CloseRun(
    ghost tree: Tree, ghost view: string -> Shape, ghost ids: seq<Id>, min: nat,
    runs: seq<TextRun>, ghost spans: seq<(nat, nat)>, ghost b: nat, ghost k: nat, current: TextRun)
    returns (runs': seq<TextRun>, ghost spans': seq<(nat, nat)>)
    requires Found(tree, view, ids, min, runs, spans, b)
    requires Open(tree, view, ids, b, k) && (k < |ids| ==> !Linked(tree, view, ids, k))
    requires current == ToRun(tree, view, ids, (b, k))
    ensures Found(tree, view, ids, min, runs', spans', k)
  {
    FoundClose(tree, view, ids, min, runs, spans, b, k);
    runs', spans' := runs, spans;
    if current.length >= min {
      runs', spans' := runs + [current], spans + [(b, k)];
    }
  }

  /** `runs` are the runs that start before position i. */
  ghost predicate Found(
    tree: Tree, view: string -> Shape, ids: seq<Id>, min: nat, runs: seq<TextRun>, spans: seq<(nat, nat)>, i: nat)
  {
    && i <= |ids|
    && (forall s | s in spans :: s.0 < s.1 <= |ids|)
    && runs == ToRuns(tree, view, ids, spans)
    && Spans(tree, view, ids, min, 0) == spans + Spans(tree, view, ids, min, i)
  }

  lemma {:induction false} FoundClose(
    tree: Tree, view: string -> Shape, ids: seq<Id>, min: nat, runs: seq<TextRun>, spans: seq<(nat, nat)>, b: nat,
    k: nat)
    requires Found(tree, view, ids, min, runs, spans, b)
    requires Open(tree, view, ids, b, k) && (k < |ids| ==> !Linked(tree, view, ids, k))
    ensures if k - b >= min
            then Found(tree, view, ids, min, runs + [ToRun(tree, view, ids, (b, k))], spans + [(b, k)], k)
            else Found(tree, view, ids, min, runs, spans, k)
  {
    SpanEnds(tree, view, ids, min, b, k);
    assert Spans(tree, view, ids, min, 0)
        == spans + (if k - b >= min then [(b, k)] else []) + Spans(tree, view, ids, min, k);
  }

  /** The positions b..k are linked and nothing is known yet about k. */
  ghost predicate Open(tree: Tree, view: string -> Shape, ids: seq<Id>, b: nat, k: nat) {
    && b < k <= |ids|
    && IsText(tree, view, ids[b])
    && forall m :: b < m < k ==> Linked(tree, view, ids, m)
  }

  lemma {:induction false} OpenRunEnd(tree: Tree, view: string -> Shape, ids: seq<Id>, b: nat, m: nat, k: nat)
    requires b < m <= k <= |ids| && (forall i :: b < i < k ==> Linked(tree, view, ids, i))
    requires k < |ids| ==> !Linked(tree, view, ids, k)
    ensures RunEnd(tree, view, ids, m) == k
    decreases k - m
  {
    if m < k {
      OpenRunEnd(tree, view, ids, b, m + 1, k);
    }
  }

  lemma {:induction false} SpanEnds(tree: Tree, view: string -> Shape, ids: seq<Id>, min: nat, b: nat, k: nat)
    requires Open(tree, view, ids, b, k) && (k < |ids| ==> !Linked(tree, view, ids, k))
    ensures Spans(tree, view, ids, min, b)
         == (if k - b >= min then [(b, k)] else []) + Spans(tree, view, ids, min, k)
  {
    OpenRunEnd(tree, view, ids, b, b + 1, k);
  }

  lemma {:induction false} NewRun(tree: Tree, view: string -> Shape, ids: seq<Id>, k: nat)
    requires k < |ids| && IsText(tree, view, ids[k])
    ensures ToRun(tree, view, ids, (k, k + 1)) == TextRun(ids[k], ids[k], 1, Size(tree, view, ids[k]))
  {
    assert ids[k..k + 1] == [ids[k]];
    assert [ids[k]][..0] == [];
    assert SizeSum(tree, view, [ids[k]]) == SizeSum(tree, view, []) + Size(tree, view, ids[k]);
  }

  lemma {:induction false} ExtendRun(tree: Tree, view: string -> Shape, ids: seq<Id>, b: nat, k: nat)
    requires Open(tree, view, ids, b, k) && k < |ids| && IsText(tree, view, ids[k])
    requires tree.nodes[ids[k]].parent == Some(ids[k - 1])
    ensures Open(tree, view, ids, b, k + 1)
    ensures SizeSum(tree, view, ids[b..k + 1]) == SizeSum(tree, view, ids[b..k]) + Size(tree, view, ids[k])
  {
    assert k - 1 > b ==> Linked(tree, view, ids, k - 1);
    assert Linked(tree, view, ids, k);
    assert ids[b..k + 1][..k - b] == ids[b..k];
  }

  // ------------------------------------------ what the detected runs are

  /** The spans are exactly the maximal runs of at least `min` nodes. */
  lemma {:induction false} SpansAreMaximalRuns(
    tree: Tree, view: string -> Shape, ids: seq<Id>, min: nat, i: nat, s: (nat, nat))
    requires i <= |ids| && (i < |ids| ==> !Linked(tree, view, ids, i))
    ensures s in Spans(tree, view, ids, min, i)
       <==> i <= s.0 && s.1 - s.0 >= min && MaximalRun(tree, view, ids, s.0, s.1)
    decreases |ids| - i
  {
    if i < |ids| {
      if !IsText(tree, view, ids[i]) {
        SpansAreMaximalRuns(tree, view, ids, min, i + 1, s);
      } else {
        var j := RunEnd(tree, view, ids, i + 1);
        RunEndStops(tree, view, ids, i + 1);
        SpansAreMaximalRuns(tree, view, ids, min, j, s);
        if MaximalRun(tree, view, ids, s.0, s.1) && s.0 == i {
          OpenRunEnd(tree, view, ids, i, i + 1, s.1);
        }
        assert s.0 > i && s.0 < j ==> Linked(tree, view, ids, s.0);
      }
    }
  }

  lemma {:induction false} RunEndStops(tree: Tree, view: string -> Shape, ids: seq<Id>, k: nat)
    requires k <= |ids|
    ensures var j := RunEnd(tree, view, ids, k);
            (forall m :: k <= m < j ==> Linked(tree, view, ids, m)) && (j < |ids| ==> !Linked(tree, view, ids, j))
    decreases |ids| - k
  {
    if k < |ids| && Linked(tree, view, ids, k) {
      RunEndStops(tree, view, ids, k + 1);
    }
  }

  /** Every text node lies in a maximal run; with a threshold of at most one all
      of them are reported, and each text node is in exactly one. */
  lemma {:induction false} EveryTextNodeInOneRun(
      tree: Tree, view: string -> Shape, ids: seq<Id>, k: nat) returns (s: (nat, nat))
    requires k < |ids| && IsText(tree, view, ids[k])
    ensures s.0 <= k < s.1 && MaximalRun(tree, view, ids, s.0, s.1)
    ensures forall min: nat | min <= 1 :: s in Spans(tree, view, ids, min, 0)
    ensures forall r: (nat, nat) | r.0 <= k < r.1 && MaximalRun(tree, view, ids, r.0, r.1) :: r == s
  {
    var i: nat := k;
    while Linked(tree, view, ids, i)
      invariant i <= k && IsText(tree, view, ids[i])
      invariant forall m :: i < m <= k ==> Linked(tree, view, ids, m)
      decreases i
    {
      i := i - 1;
    }
    var j := RunEnd(tree, view, ids, k + 1);
    RunEndStops(tree, view, ids, k + 1);
    s := (i, j);
    forall min: nat | min <= 1
      ensures s in Spans(tree, view, ids, min, 0)
    {
      SpansAreMaximalRuns(tree, view, ids, min, 0, s);
    }
  }

  // -------------------------------------------------------- reading a range

  /** The chain of parents from `start` down to `end`; the two ways it can fail. */
  function RangePath(tree: Tree, start: Id, end: Id): Result<seq<Id>, ArborError>
    requires Ordered(tree.nodes)
    decreases if end < 0 then 0 else end + 1
  {
    if end == start then Ok([start])
    else if end !in tree.nodes then Err(NodeNotFound(end, tree.id))
    else if tree.nodes[end].parent.None? then Err(InvalidState(tree.id))
    else
      match RangePath(tree, start, tree.nodes[end].parent.value)
      case Ok(up) => Ok(up + [end])
      case Err(e) => Err(e)
  }

  function MergedText(tree: Tree, view: string -> Shape, ids: seq<Id>): string {
    if ids == [] then ""
    else
      MergedText(tree, view, ids[..|ids| - 1])
      + if ids[|ids| - 1] in tree.nodes then TextOf(view, tree.nodes[ids[|ids| - 1]].data) else ""
  }

  function ReadRange(tree: Tree, view: string -> Shape, start: Id, end: Id): Result<RangeText, ArborError>
    requires Ordered(tree.nodes)
  {
    match RangePath(tree, start, end)
    case Ok(ids) => Ok(RangeText(MergedText(tree, view, ids), |ids|, ids))
    case Err(e) => Err(e)
  }

  /** The range of a tree that was read, or the refusal. */
  function RangeIn(
    read: Result<Tree, ArborError>, view: string -> Shape, start: Id, end: Id): Result<RangeText, ArborError>
    requires read.Ok? ==> Ordered(read.value.nodes)
  {
    match read
    case Err(e) => Err(e)
    case Ok(tree) => ReadRange(tree, view, start, end)
  }

  /** range_get with CollapseType::TextMerge. The order of the map plays no part. */
  method RangeGet(store: ArborStorage, t: Id, order: seq<Id>, view: string -> Shape, start: Id, end: Id)
    returns (r: Result<RangeText, ArborError>)
    requires store.State().Valid() && IterationOrder(order, store.State().NodesOf(t))
    ensures store.State().TreeGet(t, order).Ok? ==> Ordered(store.State().TreeGet(t, order).value.nodes)
    ensures r == RangeIn(store.State().TreeGet(t, order), view, start, end)
  {
    var read := store.TreeGet(t, order);
    match read {
      case Err(e) => r := Err(e);
      case Ok(tree) => r := MergeRange(tree, view, start, end);
    }
  }

  method MergeRange(tree: Tree, view: string -> Shape, start: Id, end: Id) returns (r: Result<RangeText, ArborError>)
    requires Ordered(tree.nodes)
    ensures r == ReadRange(tree, view, start, end)
  {
    var path: seq<Id> := [];
    var current := end;
    assert forall up: seq<Id> :: up + Reverse(path) == up;
    while current != start
      invariant RangePath(tree, start, end) ==
        match RangePath(tree, start, current)
        case Ok(up) => Ok(up + Reverse(path))
        case Err(e) => Err(e)
      decreases if current < 0 then 0 else current + 1
    {
      ReverseSnoc(path, current);
      path := path + [current];
      if current !in tree.nodes {
        return Err(NodeNotFound(current, tree.id));
      }
      if tree.nodes[current].parent.None? {
        return Err(InvalidState(tree.id));
      }
      assert forall up: seq<Id>, rest: seq<Id> :: up + ([current] + rest) == (up + [current]) + rest;
      current := tree.nodes[current].parent.value;
    }
    ReverseSnoc(path, start);
    path := Reverse(path + [start]);
    var merged := "";
    for k := 0 to |path|
      invariant merged == MergedText(tree, view, path[..k])
    {
      assert path[..k + 1][..k] == path[..k];
      if path[k] in tree.nodes {
        match tree.nodes[path[k]].data
        case ExternalNode(_) =>
        case TextNode(content) =>
          match view(content) {
            case Json(Some(kind), text) =>
              if kind == CONTENT_TEXT {
                if text.Some? {
                  merged := merged + text.value;
                }
              } else if content != "" {
                merged := merged + content;
              }
            case _ =>
              if content != "" {
                merged := merged + content;
              }
          }
      }
    }
    assert path[..|path|] == path;
    r := Ok(RangeText(merged, |path|, path));
  }

  /** The reader succeeds exactly when `start` is `end` itself or one of its
      ancestors, the last being looked up by pointer only. */
  lemma {:induction false} RangeReadable(tree: Tree, start: Id, end: Id)
    requires Ordered(tree.nodes)
    ensures RangePath(tree, start, end).Ok? <==> Under(tree.nodes, start, end)
    decreases if end < 0 then 0 else end + 1
  {
    if end != start && end in tree.nodes && tree.nodes[end].parent.Some? {
      RangeReadable(tree, start, tree.nodes[end].parent.value);
    }
  }

  lemma {:induction false} RunPath(tree: Tree, view: string -> Shape, ids: seq<Id>, i: nat, j: nat)
    requires Ordered(tree.nodes) && Open(tree, view, ids, i, j)
    ensures RangePath(tree, ids[i], ids[j - 1]) == Ok(ids[i..j])
    decreases j
  {
    if j - 1 > i {
      assert Linked(tree, view, ids, j - 1);
      RunPath(tree, view, ids, i, j - 1);
      LinkedIncreases(tree, view, ids, i, j - 1);
      assert ids[i..j] == ids[i..j - 1] + [ids[j - 1]];
    } else {
      assert ids[i..j] == [ids[i]];
    }
  }

  lemma {:induction false} LinkedIncreases(tree: Tree, view: string -> Shape, ids: seq<Id>, i: nat, j: nat)
    requires Ordered(tree.nodes) && i < j < |ids| && forall k :: i < k <= j ==> Linked(tree, view, ids, k)
    ensures ids[i] < ids[j]
    decreases j
  {
    assert Linked(tree, view, ids, j);
    if i < j - 1 {
      LinkedIncreases(tree, view, ids, i, j - 1);
    }
  }

  lemma {:induction false} MergedLength(tree: Tree, view: string -> Shape, ids: seq<Id>)
    requires forall k :: 0 <= k < |ids| ==> IsText(tree, view, ids[k])
    ensures ByteLen(MergedText(tree, view, ids)) == SizeSum(tree, view, ids)
  {
    if ids != [] {
      var last := ids[|ids| - 1];
      MergedLength(tree, view, ids[..|ids| - 1]);
      ByteLenAppend(MergedText(tree, view, ids[..|ids| - 1]), TextOf(view, tree.nodes[last].data));
      SizeIsMergedLength(view, tree.nodes[last].data);
    }
  }

  /** The range reader agrees with every detected run: it succeeds, it walks the
      run's own nodes, and the text it merges has the run's byte count. */
  lemma {:induction false} RunAgreesWithReader(tree: Tree, view: string -> Shape, min: nat, s: (nat, nat))
    requires Readable(tree) && s in Spans(tree, view, Visit(tree), min, 0)
    ensures var ids := Visit(tree);
            var run := ToRun(tree, view, ids, s);
            var r := ReadRange(tree, view, run.start, run.end);
            r.Ok? && r.value.ids == ids[s.0..s.1] && r.value.nodeCount == run.length
            && ByteLen(r.value.content) == run.charCount
  {
    SpansAreMaximalRuns(tree, view, Visit(tree), min, 0, s);
    OpenReads(tree, view, Visit(tree), s);
  }

  /** Reading from the first to the last node of a linked stretch. */
  lemma {:induction false} OpenReads(tree: Tree, view: string -> Shape, ids: seq<Id>, s: (nat, nat))
    requires Ordered(tree.nodes) && Open(tree, view, ids, s.0, s.1)
    ensures var run := ToRun(tree, view, ids, s);
            var r := ReadRange(tree, view, run.start, run.end);
            r.Ok? && r.value.ids == ids[s.0..s.1] && r.value.nodeCount == run.length
            && ByteLen(r.value.content) == run.charCount
  {
    RunPath(tree, view, ids, s.0, s.1);
    StretchIsText(tree, view, ids, s.0, s.1);
    MergedLength(tree, view, ids[s.0..s.1]);
  }

  lemma {:induction false} StretchIsText(tree: Tree, view: string -> Shape, ids: seq<Id>, i: nat, j: nat)
    requires Open(tree, view, ids, i, j)
    ensures forall k :: 0 <= k < |ids[i..j]| ==> IsText(tree, view, ids[i..j][k])
  {
    forall k | 0 <= k < |ids[i..j]|
      ensures IsText(tree, view, ids[i..j][k])
    {
      assert k > 0 ==> Linked(tree, view, ids, i + k);
    }
  }

  // ------------------------------------------------------------- joined text

  function JoinText(view: string -> Shape, data: seq<NodeType>): string {
    if data == [] then "" else JoinText(view, data[..|data| - 1]) + TextOf(view, data[|data| - 1])
  }

  /** The text wrapped by `encode` (a content_text event) is read back by `view`. */
  ghost predicate Wraps(view: string -> Shape, encode: string -> string) {
    forall text :: view(encode(text)) == Json(Some(CONTENT_TEXT), Some(text))
  }

  lemma {:induction false} MergedAppend(tree: Tree, view: string -> Shape, a: seq<Id>, b: seq<Id>)
    ensures MergedText(tree, view, a + b) == MergedText(tree, view, a) + MergedText(tree, view, b)
  {
    if b == [] {
      assert a + b == a;
    } else {
      assert (a + b)[..|a + b| - 1] == a + b[..|b| - 1];
      MergedAppend(tree, view, a, b[..|b| - 1]);
    }
  }

  lemma {:induction false} MergedOne(tree: Tree, view: string -> Shape, x: Id)
    requires x in tree.nodes
    ensures MergedText(tree, view, [x]) == TextOf(view, tree.nodes[x].data)
  {
    assert [x][..0] == [] && MergedText(tree, view, []) == "";
    assert "" + TextOf(view, tree.nodes[x].data) == TextOf(view, tree.nodes[x].data);
  }

  // ---------------------------------------------------------- runs lie apart

  /** Spans come in ascending order and do not overlap. */
  lemma {:induction false} SpansApart(
    tree: Tree, view: string -> Shape, ids: seq<Id>, min: nat, i: nat, m: nat, n: nat)
    requires i <= |ids| && m < n < |Spans(tree, view, ids, min, i)|
    ensures Spans(tree, view, ids, min, i)[m].1 <= Spans(tree, view, ids, min, i)[n].0
    decreases |ids| - i
  {
    if !IsText(tree, view, ids[i]) {
      SpansApart(tree, view, ids, min, i + 1, m, n);
    } else {
      var j := RunEnd(tree, view, ids, i + 1);
      var rest := Spans(tree, view, ids, min, j);
      if j - i < min {
        SpansApart(tree, view, ids, min, j, m, n);
      } else if m == 0 {
        assert rest[n - 1] in rest;
      } else {
        SpansApart(tree, view, ids, min, j, m - 1, n - 1);
      }
    }
  }
}
