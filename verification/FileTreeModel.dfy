/**
 The file tree (cc-widgets/src/file_tree.rs): a recursive tree, and the flat list of its visible rows.
 Module FileTree is the object that keeps both.
 */
module FileTreeModel {
  import opened Wrappers
  import opened StableSort

  datatype FileNode = FileNode(name: string, isDir: bool, children: seq<FileNode>, expanded: bool, loaded: bool,
                               path: Option<string>)
  {
    predicate IsOpen() { isDir && expanded }
  }

  type TreePath = seq<nat>

  datatype FlatNode = FlatNode(name: string, depth: int, isDir: bool, expanded: bool, loaded: bool,
                               path: Option<string>, treePath: TreePath)

  function Row(n: FileNode, p: TreePath): FlatNode {
    FlatNode(n.name, |p| - 1, n.isDir, n.expanded, n.loaded, n.path, p)
  }

  /** The visible rows of the node `n` at `p`, in preorder. */
  function Flatten(n: FileNode, p: TreePath): (r: seq<FlatNode>)
    ensures |r| > 0 && r[0] == Row(n, p)
    decreases n, 0
  {
    [Row(n, p)] + if n.IsOpen() then FlattenFrom(n.children, 0, p) else []
  }

  /** The visible rows of the siblings `nodes[i..]`, which are children of the node at `p`. */
  function FlattenFrom(nodes: seq<FileNode>, i: nat, p: TreePath): seq<FlatNode>
    requires i <= |nodes|
    decreases nodes, |nodes| - i
  {
    if i == |nodes| then [] else Flatten(nodes[i], p + [i]) + FlattenFrom(nodes, i + 1, p)
  }

  function Rows(root: seq<FileNode>): seq<FlatNode> { FlattenFrom(root, 0, []) }

  function NodeByPath(nodes: seq<FileNode>, q: TreePath): Option<FileNode> {
    if q == [] || q[0] >= |nodes| then None
    else if |q| == 1 then Some(nodes[q[0]])
    else NodeByPath(nodes[q[0]].children, q[1..])
  }

  /** The tree with the node at `q` replaced. */
  function Replace(nodes: seq<FileNode>, q: TreePath, n: FileNode): (r: seq<FileNode>)
    ensures |r| == |nodes|
  {
    if q == [] || q[0] >= |nodes| then nodes
    else if |q| == 1 then nodes[q[0] := n]
    else nodes[q[0] := nodes[q[0]].(children := Replace(nodes[q[0]].children, q[1..], n))]
  }

  /** The node at `q` exists and every node above it is an expanded directory. */
  predicate Visible(nodes: seq<FileNode>, q: TreePath) {
    q != [] && q[0] < |nodes| &&
    (|q| == 1 || (nodes[q[0]].IsOpen() && Visible(nodes[q[0]].children, q[1..])))
  }

  predicate LexLess(a: TreePath, b: TreePath) {
    b != [] && (a == [] || a[0] < b[0] || (a[0] == b[0] && LexLess(a[1..], b[1..])))
  }

  // ---- the flat list is the list of the visible nodes in lexicographic order of their paths ----

  /** Every row of the list is a visible node with the row's fields. */
  lemma {:induction false} RowResolves(nodes: seq<FileNode>, i: nat, p: TreePath, k: nat)
    requires i <= |nodes| && k < |FlattenFrom(nodes, i, p)|
    ensures var r := FlattenFrom(nodes, i, p)[k];
            && |r.treePath| > |p| && r.treePath[..|p|] == p && r.treePath[|p|] >= i
            && Visible(nodes, r.treePath[|p|..])
            && NodeByPath(nodes, r.treePath[|p|..]).Some?
            && r == Row(NodeByPath(nodes, r.treePath[|p|..]).value, r.treePath)
    decreases nodes, |nodes| - i
  {
    var head := Flatten(nodes[i], p + [i]);
    if k >= |head| {
      RowResolves(nodes, i + 1, p, k - |head|);
    } else if k > 0 {
      RowResolves(nodes[i].children, 0, p + [i], k - 1);
      var t := head[k].treePath;
      assert t[|p|] == t[..|p| + 1][|p|] == i;
      assert t[..|p|] == t[..|p| + 1][..|p|] == p;
      assert t[|p|..][1..] == t[|p| + 1..];
    }
  }

  lemma ChildRow(n: FileNode, p: TreePath, k: nat)
    requires n.IsOpen() && k < |FlattenFrom(n.children, 0, p)|
    ensures k + 1 < |Flatten(n, p)| && Flatten(n, p)[k + 1] == FlattenFrom(n.children, 0, p)[k]
  {
    hide FlattenFrom;
  }

  /** Every visible node has a row. */
  lemma {:induction false} VisibleHasRow(nodes: seq<FileNode>, i: nat, p: TreePath, q: TreePath) returns (k: nat)
    requires i <= |nodes| && Visible(nodes, q) && i <= q[0]
    ensures k < |FlattenFrom(nodes, i, p)| && FlattenFrom(nodes, i, p)[k].treePath == p + q
    decreases nodes, |nodes| - i
  {
    var head := Flatten(nodes[i], p + [i]);
    assert FlattenFrom(nodes, i, p) == head + FlattenFrom(nodes, i + 1, p);
    hide FlattenFrom, Flatten;
    if i < q[0] {
      k := VisibleHasRow(nodes, i + 1, p, q);
      k := |head| + k;
    } else if |q| == 1 {
      k := 0;
      assert q == [i];
    } else {
      k := VisibleHasRow(nodes[i].children, 0, p + [i], q[1..]);
      assert q == [i] + q[1..];
      Regroup(p, [i], q[1..]);
      ChildRow(nodes[i], p + [i], k);
      k := k + 1;
    }
  }

  /** Behind their common beginning `p` the paths increase. */
  predicate Increases(a: TreePath, b: TreePath, p: TreePath) {
    |p| < |a| && |p| < |b| && LexLess(a[|p|..], b[|p|..])
  }

  /** The paths of the rows increase. */
  lemma {:induction false} RowsIncrease(nodes: seq<FileNode>, i: nat, p: TreePath, j: nat, k: nat)
    requires i <= |nodes| && j < k < |FlattenFrom(nodes, i, p)|
    ensures Increases(FlattenFrom(nodes, i, p)[j].treePath, FlattenFrom(nodes, i, p)[k].treePath, p)
    decreases nodes, |nodes| - i
  {
    var head, rest := Flatten(nodes[i], p + [i]), FlattenFrom(nodes, i + 1, p);
    assert FlattenFrom(nodes, i, p) == head + rest;
    hide Increases, FlattenFrom, Flatten;
    if j >= |head| {
      RowsIncrease(nodes, i + 1, p, j - |head|, k - |head|);
    } else if k >= |head| {
      HeadBeforeRest(nodes, i, p, j, k - |head|);
    } else {
      HeadRow(nodes[i], i, p, j);
      HeadRow(nodes[i], i, p, k);
      if j > 0 { RowsIncrease(nodes[i].children, 0, p + [i], j - 1, k - 1); }
      IncreasesBehind(head[j].treePath, head[k].treePath, p, i);
    }
  }

  lemma HeadBeforeRest(nodes: seq<FileNode>, i: nat, p: TreePath, j: nat, k: nat)
    requires i < |nodes| && j < |Flatten(nodes[i], p + [i])| && k < |FlattenFrom(nodes, i + 1, p)|
    ensures Increases(Flatten(nodes[i], p + [i])[j].treePath, FlattenFrom(nodes, i + 1, p)[k].treePath, p)
  {
    hide FlattenFrom, Flatten, Visible, NodeByPath;
    HeadRow(nodes[i], i, p, j);
    RowResolves(nodes, i + 1, p, k);
  }

  lemma IncreasesBehind(a: TreePath, b: TreePath, p: TreePath, i: nat)
    requires |p| < |a| && |p| < |b| && a[|p|] == b[|p|] && |p| + 1 < |b|
    requires |a| == |p| + 1 || Increases(a, b, p + [i])
    ensures Increases(a, b, p)
  {
    var n := |p|;
    assert a[n..][1..] == a[n + 1..] && b[n..][1..] == b[n + 1..];
  }

  /** The rows of a node: its own, and then those of its children, whose paths go on behind its own. */
  lemma HeadRow(n: FileNode, i: nat, p: TreePath, k: nat)
    requires k < |Flatten(n, p + [i])|
    ensures var t := Flatten(n, p + [i])[k].treePath;
            && |t| > |p| && t[|p|] == i
            && (k == 0 ==> |t| == |p| + 1)
            && (k > 0 ==> n.IsOpen() && k - 1 < |FlattenFrom(n.children, 0, p + [i])|
                          && |t| > |p| + 1 && t == FlattenFrom(n.children, 0, p + [i])[k - 1].treePath)
  {
    if k > 0 {
      RowResolves(n.children, 0, p + [i], k - 1);
      var t := Flatten(n, p + [i])[k].treePath;
      assert t[|p|] == t[..|p| + 1][|p|];
    }
  }

  lemma {:induction false} LexLessIrreflexive(a: TreePath)
    ensures !LexLess(a, a)
  {
    if a != [] { LexLessIrreflexive(a[1..]); }
  }

  /**
   The rows are exactly the visible nodes, each with its own fields, in increasing and hence pairwise distinct order
   of their paths.
   */
  lemma RowsAreVisibleNodes(root: seq<FileNode>)
    ensures forall k :: 0 <= k < |Rows(root)| ==>
              var r := Rows(root)[k];
              Visible(root, r.treePath) && NodeByPath(root, r.treePath).Some?
              && r == Row(NodeByPath(root, r.treePath).value, r.treePath)
    ensures forall q :: Visible(root, q) ==> exists k :: 0 <= k < |Rows(root)| && Rows(root)[k].treePath == q
    ensures forall j, k :: 0 <= j < k < |Rows(root)| ==>
              LexLess(Rows(root)[j].treePath, Rows(root)[k].treePath)
              && Rows(root)[j].treePath != Rows(root)[k].treePath
  {
    forall k | 0 <= k < |Rows(root)|
      ensures var r := Rows(root)[k];
              Visible(root, r.treePath) && NodeByPath(root, r.treePath).Some?
              && r == Row(NodeByPath(root, r.treePath).value, r.treePath)
    {
      RowResolves(root, 0, [], k);
      assert Rows(root)[k].treePath[0..] == Rows(root)[k].treePath;
    }
    forall q | Visible(root, q) ensures exists k :: 0 <= k < |Rows(root)| && Rows(root)[k].treePath == q {
      var k := VisibleHasRow(root, 0, [], q);
      assert Rows(root)[k].treePath == [] + q == q;
    }
    forall j, k | 0 <= j < k < |Rows(root)|
      ensures LexLess(Rows(root)[j].treePath, Rows(root)[k].treePath)
      ensures Rows(root)[j].treePath != Rows(root)[k].treePath
    {
      RowsIncrease(root, 0, [], j, k);
      var a, b := Rows(root)[j].treePath, Rows(root)[k].treePath;
      assert a[0..] == a && b[0..] == b;
      LexLessIrreflexive(a);
    }
  }

  // ---- replacing a node replaces its block of rows ----

  /** How many rows come before the row of the visible node at `q`. */
  function RowsBefore(nodes: seq<FileNode>, i: nat, q: TreePath): nat
    requires i <= |nodes| && Visible(nodes, q) && i <= q[0]
    decreases nodes, |nodes| - i
  {
    if i < q[0] then |Flatten(nodes[i], [i])| + RowsBefore(nodes, i + 1, q)
    else if |q| == 1 then 0
    else 1 + RowsBefore(nodes[i].children, 0, q[1..])
  }

  lemma {:induction false} FlattenLength(n: FileNode, p: TreePath, p': TreePath)
    ensures |Flatten(n, p)| == |Flatten(n, p')|
    decreases n, 0
  {
    if n.IsOpen() { FlattenFromLength(n.children, 0, p, p'); }
  }

  lemma {:induction false} FlattenFromLength(nodes: seq<FileNode>, i: nat, p: TreePath, p': TreePath)
    requires i <= |nodes|
    ensures |FlattenFrom(nodes, i, p)| == |FlattenFrom(nodes, i, p')|
    decreases nodes, |nodes| - i
  {
    if i < |nodes| {
      FlattenLength(nodes[i], p + [i], p' + [i]);
      FlattenFromLength(nodes, i + 1, p, p');
    }
  }

  /** Rows after the last changed sibling do not change. */
  lemma {:induction false} SameSuffix(nodes: seq<FileNode>, nodes': seq<FileNode>, i: nat, p: TreePath)
    requires i <= |nodes| == |nodes'| && nodes[i..] == nodes'[i..]
    ensures FlattenFrom(nodes, i, p) == FlattenFrom(nodes', i, p)
    decreases |nodes| - i
  {
    if i < |nodes| {
      assert nodes[i] == nodes[i..][0] == nodes'[i];
      assert nodes[i + 1..] == nodes[i..][1..] == nodes'[i + 1..];
      SameSuffix(nodes, nodes', i + 1, p);
    }
  }

  /** `rows'` is `rows` with the block `was` at position `k` replaced by `now`. */
  ghost predicate Spliced(rows: seq<FlatNode>, rows': seq<FlatNode>, k: nat, was: seq<FlatNode>, now: seq<FlatNode>) {
    && k + |was| <= |rows| && rows[k..k + |was|] == was
    && rows' == rows[..k] + now + rows[k + |was|..]
  }

  lemma SplicedAfter(head: seq<FlatNode>, rows: seq<FlatNode>, rows': seq<FlatNode>, k: nat,
                     was: seq<FlatNode>, now: seq<FlatNode>)
    requires Spliced(rows, rows', k, was, now)
    ensures Spliced(head + rows, head + rows', |head| + k, was, now)
  {
  }

  lemma SplicedBefore(rows: seq<FlatNode>, rows': seq<FlatNode>, k: nat, was: seq<FlatNode>, now: seq<FlatNode>,
                      tail: seq<FlatNode>)
    requires Spliced(rows, rows', k, was, now)
    ensures Spliced(rows + tail, rows' + tail, k, was, now)
  {
  }

  lemma OpenRows(d: FileNode, p: TreePath)
    requires d.IsOpen()
    ensures Flatten(d, p) == [Row(d, p)] + FlattenFrom(d.children, 0, p)
  {
    hide FlattenFrom;
  }

  /** Replacing a node below the expanded directory `d`. */
  lemma {:induction false} ReplaceBelow(d: FileNode, p: TreePath, q: TreePath, n': FileNode)
    requires d.IsOpen() && Visible(d.children, q) && NodeByPath(d.children, q).Some?
    ensures Spliced(Flatten(d, p), Flatten(d.(children := Replace(d.children, q, n')), p),
                    1 + RowsBefore(d.children, 0, q),
                    Flatten(NodeByPath(d.children, q).value, p + q), Flatten(n', p + q))
    decreases d
  {
    hide Spliced, NodeByPath, RowsBefore, Flatten, FlattenFrom, Replace;
    ReplaceSplices(d.children, 0, p, q, n');
    hide Visible;
    OpenRows(d, p);
    OpenRows(d.(children := Replace(d.children, q, n')), p);
    SplicedAfter([Row(d, p)], FlattenFrom(d.children, 0, p), FlattenFrom(Replace(d.children, q, n'), 0, p),
                 RowsBefore(d.children, 0, q), Flatten(NodeByPath(d.children, q).value, p + q), Flatten(n', p + q));
  }

  lemma {:induction false} ReplaceHead(nodes: seq<FileNode>, p: TreePath, q: TreePath, n': FileNode)
    requires Visible(nodes, q) && NodeByPath(nodes, q).Some?
    ensures Spliced(Flatten(nodes[q[0]], p + [q[0]]), Flatten(Replace(nodes, q, n')[q[0]], p + [q[0]]),
                    RowsBefore(nodes, q[0], q), Flatten(NodeByPath(nodes, q).value, p + q), Flatten(n', p + q))
    decreases nodes, 0, 0
  {
    var i := q[0];
    if |q| == 1 {
      assert p + q == p + [i];
      WholeSpliced(Flatten(nodes[i], p + q), Flatten(n', p + q));
    } else {
      assert p + [i] + q[1..] == p + q;
      ReplaceBelow(nodes[i], p + [i], q[1..], n');
    }
  }

  lemma SplicedHead(nodes: seq<FileNode>, nodes': seq<FileNode>, i: nat, p: TreePath, k: nat,
                    was: seq<FlatNode>, now: seq<FlatNode>)
    requires i < |nodes| == |nodes'| && nodes'[i + 1..] == nodes[i + 1..]
    requires Spliced(Flatten(nodes[i], p + [i]), Flatten(nodes'[i], p + [i]), k, was, now)
    ensures Spliced(FlattenFrom(nodes, i, p), FlattenFrom(nodes', i, p), k, was, now)
  {
    hide Spliced, Flatten;
    SameSuffix(nodes, nodes', i + 1, p);
    SplicedBefore(Flatten(nodes[i], p + [i]), Flatten(nodes'[i], p + [i]), k, was, now, FlattenFrom(nodes, i + 1, p));
  }

  lemma SplicedTail(nodes: seq<FileNode>, nodes': seq<FileNode>, i: nat, p: TreePath, k: nat,
                    was: seq<FlatNode>, now: seq<FlatNode>)
    requires i < |nodes| == |nodes'| && nodes'[i] == nodes[i]
    requires Spliced(FlattenFrom(nodes, i + 1, p), FlattenFrom(nodes', i + 1, p), k, was, now)
    ensures Spliced(FlattenFrom(nodes, i, p), FlattenFrom(nodes', i, p), |Flatten(nodes[i], p + [i])| + k, was, now)
  {
    hide Spliced, Flatten;
    SplicedAfter(Flatten(nodes[i], p + [i]), FlattenFrom(nodes, i + 1, p), FlattenFrom(nodes', i + 1, p), k, was, now);
  }

  /** The rows of the visible node at `q` are one block, and replacing the node replaces that block only. */
  lemma {:induction false} ReplaceSplices(nodes: seq<FileNode>, i: nat, p: TreePath, q: TreePath, n': FileNode)
    requires i <= |nodes| && Visible(nodes, q) && i <= q[0] && NodeByPath(nodes, q).Some?
    ensures Spliced(FlattenFrom(nodes, i, p), FlattenFrom(Replace(nodes, q, n'), i, p), RowsBefore(nodes, i, q),
                    Flatten(NodeByPath(nodes, q).value, p + q), Flatten(n', p + q))
    decreases nodes, 1, |nodes| - i
  {
    hide Spliced, Flatten, FlattenFrom;
    var nodes' := Replace(nodes, q, n');
    var was, now := Flatten(NodeByPath(nodes, q).value, p + q), Flatten(n', p + q);
    if i < q[0] {
      ReplaceSplices(nodes, i + 1, p, q, n');
      FlattenLength(nodes[i], p + [i], [i]);
      SplicedTail(nodes, nodes', i, p, RowsBefore(nodes, i + 1, q), was, now);
    } else {
      assert nodes'[i + 1..] == nodes[i + 1..];
      ReplaceHead(nodes, p, q, n');
      SplicedHead(nodes, nodes', i, p, RowsBefore(nodes, i, q), was, now);
    }
  }

  lemma WholeSpliced(was: seq<FlatNode>, now: seq<FlatNode>)
    ensures Spliced(was, now, 0, was, now)
  {
  }

  /** The row of the visible node at `q` stands at `RowsBefore`. */
  lemma RowOf(root: seq<FileNode>, k: nat)
    requires k < |Rows(root)|
    ensures var q := Rows(root)[k].treePath;
            Visible(root, q) && NodeByPath(root, q).Some? && RowsBefore(root, 0, q) == k
            && Rows(root)[k] == Row(NodeByPath(root, q).value, q)
  {
    RowsAreVisibleNodes(root);
    var q := Rows(root)[k].treePath;
    ReplaceSplices(root, 0, [], q, NodeByPath(root, q).value);
    var j := RowsBefore(root, 0, q);
    assert [] + q == q;
    var block := Flatten(NodeByPath(root, q).value, q);
    assert Rows(root)[j] == Rows(root)[j..j + |block|][0] == block[0];
  }

  lemma {:induction false} ReplaceFound(nodes: seq<FileNode>, q: TreePath, n': FileNode)
    requires NodeByPath(nodes, q).Some?
    ensures NodeByPath(Replace(nodes, q, n'), q) == Some(n')
    ensures Replace(Replace(nodes, q, n'), q, NodeByPath(nodes, q).value) == nodes
    ensures Visible(nodes, q) ==> Visible(Replace(nodes, q, n'), q)
  {
    if |q| > 1 { ReplaceFound(nodes[q[0]].children, q[1..], n'); }
  }

  // ---- toggle ----

  datatype ToggleResult = ToggleResult(needsLoad: bool, path: string, isDir: bool, expanded: bool)

  datatype State = State(root: seq<FileNode>, flat: seq<FlatNode>, cursor: nat)

  ghost predicate Valid(s: State) {
    s.flat == Rows(s.root) && (if s.flat == [] then s.cursor == 0 else s.cursor < |s.flat|)
  }

  function Clamp(cursor: nat, flat: seq<FlatNode>): nat {
    if flat == [] then 0 else if cursor < |flat| then cursor else |flat| - 1
  }

  function WithRoot(s: State, root: seq<FileNode>): State {
    State(root, Rows(root), Clamp(s.cursor, Rows(root)))
  }

  /** What `toggle` does and what it returns. */
  function Toggle(s: State, k: nat): (State, Option<ToggleResult>) {
    if k >= |s.flat| || !s.flat[k].isDir then (s, None)
    else if !s.flat[k].loaded then
      (s, if s.flat[k].path.Some? then Some(ToggleResult(true, s.flat[k].path.value, true, false)) else None)
    else
      var q := s.flat[k].treePath;
      match NodeByPath(s.root, q)
      case None => (s, None)
      case Some(n) =>
        if n.children == [] || n.path.None? then (s, None) else
        (WithRoot(s, Replace(s.root, q, n.(expanded := !n.expanded))),
         Some(ToggleResult(false, n.path.value, true, !n.expanded)))
  }

  predicate Toggles(s: State, k: nat) {
    var r := Toggle(s, k).1;
    r.Some? && !r.value.needsLoad
  }

  /** The rows that the directory of row `k` has below it when it is expanded. */
  function DescendantRows(s: State, k: nat): seq<FlatNode>
    requires k < |s.flat|
  {
    match NodeByPath(s.root, s.flat[k].treePath)
    case Some(n) => FlattenFrom(n.children, 0, s.flat[k].treePath)
    case None => []
  }

  /**
   A toggle changes the list at one place: the row itself, and the rows of its visible descendants after it, which
   appear when it expands and go away when it collapses.
   */
  lemma ToggleSplices(s: State, k: nat)
    requires Valid(s) && Toggles(s, k)
    ensures k < |s.flat| && NodeByPath(s.root, s.flat[k].treePath).Some?
    ensures var row, block := s.flat[k], DescendantRows(s, k);
            && block != []
            && Spliced(s.flat, Toggle(s, k).0.flat, k, [row] + (if row.expanded then block else []),
                       [row.(expanded := !row.expanded)] + (if row.expanded then [] else block))
  {
    var q := s.flat[k].treePath;
    RowOf(s.root, k);
    var n := NodeByPath(s.root, q).value;
    ReplaceSplices(s.root, 0, [], q, n.(expanded := !n.expanded));
    assert [] + q == q;
    assert FlattenFrom(n.children, 0, q)[0] == Flatten(n.children[0], q + [0])[0];
  }

  /**
   Toggling the same row again restores the tree and the list. It restores the cursor, too, exactly if the rows that a
   collapse takes away leave room for it.
   */
  lemma ToggleTwice(s: State, k: nat)
    requires Valid(s) && Toggles(s, k)
    ensures var s' := Toggle(s, k).0;
            Valid(s') && Toggles(s', k) && Toggle(s', k).0.root == s.root && Toggle(s', k).0.flat == s.flat
    ensures k < |s.flat|
    ensures Toggle(Toggle(s, k).0, k).0 == s <==>
              (s.flat[k].expanded ==> s.cursor + |DescendantRows(s, k)| < |s.flat|)
  {
    var s', q := Toggle(s, k).0, s.flat[k].treePath;
    RowOf(s.root, k);
    var n := NodeByPath(s.root, q).value;
    ToggleSplices(s, k);
    ReplaceFound(s.root, q, n.(expanded := !n.expanded));
    assert s'.flat[k].treePath == q;
    assert n.(expanded := !n.expanded).(expanded := n.expanded) == n;
    assert |s'.flat| == |s.flat| + (if s.flat[k].expanded then -|DescendantRows(s, k)| else |DescendantRows(s, k)|);
  }

  /** A directory with one file, and the cursor on the file: collapsing and expanding moves it to the directory. */
  lemma CursorNotRestored()
    ensures var file := FileNode("f", false, [], false, false, Some("d/f"));
            var root := [FileNode("d", true, [file], true, true, Some("d"))];
            var s := State(root, Rows(root), 1);
            Valid(s) && Toggles(s, 0) && Toggle(Toggle(s, 0).0, 0).0.cursor == 0
  {
    var file := FileNode("f", false, [], false, false, Some("d/f"));
    var d := FileNode("d", true, [file], true, true, Some("d"));
    var s := State([d], Rows([d]), 1);
    OnlyChild(file, [0]);
    OnlyChild(d, []);
    assert [0] + [0] == [0, 0] && [] + [0] == [0];
    assert Rows([d]) == [Row(d, [0]), Row(file, [0, 0])];
    assert NodeByPath([d], [0]) == Some(d);
    var d' := d.(expanded := false);
    OnlyChild(d', []);
    assert Replace([d], [0], d') == [d'];
    ToggleTwice(s, 0);
  }

  lemma OnlyChild(n: FileNode, p: TreePath)
    ensures FlattenFrom([n], 0, p) == Flatten(n, p + [0])
  {
    assert FlattenFrom([n], 1, p) == [];
  }

  // ---- lazily loaded children ----

  /** The depth-first search for a node with a given file path, through collapsed directories as well. */
  function Find(nodes: seq<FileNode>, i: nat, target: string): Option<TreePath>
    requires i <= |nodes|
    decreases nodes, |nodes| - i
  {
    if i == |nodes| then None
    else if nodes[i].path == Some(target) then Some([i])
    else match Find(nodes[i].children, 0, target)
         case Some(q) => Some([i] + q)
         case None => Find(nodes, i + 1, target)
  }

  predicate Named(nodes: seq<FileNode>, q: TreePath, target: string) {
    NodeByPath(nodes, q).Some? && NodeByPath(nodes, q).value.path == Some(target)
  }

  lemma {:induction false} FindNamed(nodes: seq<FileNode>, i: nat, target: string)
    requires i <= |nodes| && Find(nodes, i, target).Some?
    ensures var q := Find(nodes, i, target).value; q != [] && q[0] >= i && Named(nodes, q, target)
    decreases nodes, |nodes| - i
  {
    if nodes[i].path != Some(target) {
      if Find(nodes[i].children, 0, target).Some? {
        FindNamed(nodes[i].children, 0, target);
        var q := Find(nodes[i].children, 0, target).value;
        assert ([i] + q)[1..] == q;
      } else {
        FindNamed(nodes, i + 1, target);
      }
    }
  }

  /** No node of that name comes before the one found. */
  lemma {:induction false} FindFirst(nodes: seq<FileNode>, i: nat, target: string, q: TreePath)
    requires i <= |nodes| && Named(nodes, q, target) && q[0] >= i
    ensures Find(nodes, i, target).Some?
    ensures Find(nodes, i, target).value == q || LexLess(Find(nodes, i, target).value, q)
    decreases nodes, |nodes| - i
  {
    if q[0] == i {
      if |q| == 1 {
        assert q == [i];
      } else if nodes[i].path == Some(target) {
        assert [i][1..] == [];
      } else {
        FindFirst(nodes[i].children, 0, target, q[1..]);
        var r := Find(nodes[i].children, 0, target).value;
        assert ([i] + r)[1..] == r && q == [i] + q[1..];
      }
    } else {
      if Find(nodes[i].children, 0, target).None? && nodes[i].path != Some(target) {
        FindFirst(nodes, i + 1, target, q);
      }
    }
  }

  /** The search finds the first node of that name in preorder, and fails only if there is none. */
  lemma FindIsFirst(root: seq<FileNode>, target: string)
    ensures var f := Find(root, 0, target);
            && (f.Some? ==> Named(root, f.value, target))
            && (forall q :: Named(root, q, target) ==> f.Some? && (f.value == q || LexLess(f.value, q)))
  {
    if Find(root, 0, target).Some? { FindNamed(root, 0, target); }
    forall q | Named(root, q, target)
      ensures Find(root, 0, target).Some?
      ensures Find(root, 0, target).value == q || LexLess(Find(root, 0, target).value, q)
    {
      FindFirst(root, 0, target, q);
    }
  }

  function SetChildren(s: State, dirPath: string, children: seq<FileNode>): State {
    match Find(s.root, 0, dirPath)
    case None => s
    case Some(q) =>
      match NodeByPath(s.root, q)
      case None => s
      case Some(n) => WithRoot(s, Replace(s.root, q, n.(children := children, loaded := true)))
  }

  /** Replacing a node that is not visible changes no row. */
  lemma {:induction false} ReplaceHidden(nodes: seq<FileNode>, i: nat, p: TreePath, q: TreePath, n': FileNode)
    requires i <= |nodes| && NodeByPath(nodes, q).Some? && !Visible(nodes, q)
    ensures FlattenFrom(Replace(nodes, q, n'), i, p) == FlattenFrom(nodes, i, p)
    decreases nodes, |nodes| - i
  {
    if i < |nodes| {
      ReplaceHidden(nodes, i + 1, p, q, n');
      if i == q[0] && nodes[i].IsOpen() {
        ReplaceHidden(nodes[i].children, 0, p + [i], q[1..], n');
      }
    }
  }

  /** Loading children changes the rows of that directory only, and none if it is not visible. */
  lemma SetChildrenSplices(s: State, dirPath: string, children: seq<FileNode>)
    requires Valid(s)
    ensures Valid(SetChildren(s, dirPath, children))
    ensures var s' := SetChildren(s, dirPath, children);
            match Find(s.root, 0, dirPath)
            case None => s' == s
            case Some(q) =>
              && NodeByPath(s.root, q).Some?
              && var n := NodeByPath(s.root, q).value;
                 var n' := n.(children := children, loaded := true);
                 && NodeByPath(s'.root, q) == Some(n')
                 && if Visible(s.root, q)
                    then Spliced(s.flat, s'.flat, RowsBefore(s.root, 0, q), Flatten(n, q), Flatten(n', q))
                    else s'.flat == s.flat
  {
    if Find(s.root, 0, dirPath).Some? {
      FindNamed(s.root, 0, dirPath);
      var q := Find(s.root, 0, dirPath).value;
      var n' := NodeByPath(s.root, q).value.(children := children, loaded := true);
      ReplaceFound(s.root, q, n');
      assert [] + q == q;
      if Visible(s.root, q) {
        ReplaceSplices(s.root, 0, [], q, n');
      } else {
        ReplaceHidden(s.root, 0, [], q, n');
      }
    }
  }

  // ---- sorting ----

  predicate StringLess(a: string, b: string) {
    b != "" && (a == "" || a[0] < b[0] || (a[0] == b[0] && StringLess(a[1..], b[1..])))
  }

  /** Directories come first, then the names in alphabetical order. */
  predicate Before(a: FileNode, b: FileNode) {
    if a.isDir != b.isDir then a.isDir else StringLess(a.name, b.name)
  }

  lemma {:induction false} StringLessOrder(a: string, b: string, c: string)
    ensures !StringLess(a, a) && (StringLess(a, b) ==> !StringLess(b, a))
    ensures StringLess(a, b) && StringLess(b, c) ==> StringLess(a, c)
    ensures !StringLess(a, b) && !StringLess(b, c) ==> !StringLess(a, c)
  {
    if a != "" || b != "" || c != "" {
      StringLessOrder(if a == "" then "" else a[1..], if b == "" then "" else b[1..], if c == "" then "" else c[1..]);
    }
  }

  lemma BeforeOrder()
    ensures StrictWeak(Before)
  {
    forall a, b, c: FileNode
      ensures !Before(a, a) && (Before(a, b) ==> !Before(b, a)) && (!Before(a, b) && !Before(b, c) ==> !Before(a, c))
    {
      StringLessOrder(a.name, b.name, c.name);
    }
  }

  function SortSiblings(nodes: seq<FileNode>): seq<FileNode> { StableSort.Sort(nodes, Before) }

  lemma InSorted(nodes: seq<FileNode>, i: nat)
    requires i < |SortSiblings(nodes)|
    ensures SortSiblings(nodes)[i] in nodes
  {
    InSort(nodes, Before, SortSiblings(nodes)[i]);
  }

  /** Sorts the siblings, then the children of every directory among them. */
  function SortNodes(nodes: seq<FileNode>): (r: seq<FileNode>)
    ensures |r| == |nodes|
    decreases nodes
  {
    var s := SortSiblings(nodes);
    seq(|s|, i requires 0 <= i < |s| =>
      InSorted(nodes, i);
      if s[i].isDir then s[i].(children := SortNodes(s[i].children)) else s[i])
  }

  function Sort(s: State): State { State(SortNodes(s.root), Rows(SortNodes(s.root)), s.cursor) }

  // ---- sorting keeps the visible rows, up to their order ----

  function Unplaced(r: FlatNode): FlatNode { r.(treePath := []) }

  function UnplacedRows(rows: seq<FlatNode>): multiset<FlatNode> {
    if rows == [] then multiset{} else multiset{Unplaced(rows[0])} + UnplacedRows(rows[1..])
  }

  /** The visible rows of a node at a depth, without their places. */
  function Shown(n: FileNode, depth: int): multiset<FlatNode>
    decreases n, 0
  {
    multiset{Unplaced(Row(n, [])).(depth := depth)} + if n.IsOpen() then ShownAll(n.children, depth + 1) else multiset{}
  }

  function ShownAll(nodes: seq<FileNode>, depth: int): multiset<FlatNode>
    decreases nodes
  {
    if nodes == [] then multiset{} else Shown(nodes[0], depth) + ShownAll(nodes[1..], depth)
  }

  lemma {:induction false} UnplacedConcat(a: seq<FlatNode>, b: seq<FlatNode>)
    ensures UnplacedRows(a + b) == UnplacedRows(a) + UnplacedRows(b)
  {
    if a == [] {
      assert a + b == b;
    } else {
      assert (a + b)[1..] == a[1..] + b;
      UnplacedConcat(a[1..], b);
    }
  }

  lemma {:induction false} UnplacedSize(rows: seq<FlatNode>)
    ensures |UnplacedRows(rows)| == |rows|
  {
    if rows != [] { UnplacedSize(rows[1..]); }
  }

  lemma {:induction false} FlattenShows(n: FileNode, p: TreePath)
    ensures UnplacedRows(Flatten(n, p)) == Shown(n, |p| - 1)
    decreases n, 0
  {
    OneRow(n, p);
    hide UnplacedRows;
    if n.IsOpen() {
      FlattenFromShows(n.children, 0, p);
      UnplacedConcat([Row(n, p)], FlattenFrom(n.children, 0, p));
      assert n.children[0..] == n.children;
    } else {
      assert Flatten(n, p) == [Row(n, p)];
    }
  }

  lemma OneRow(n: FileNode, p: TreePath)
    ensures UnplacedRows([Row(n, p)]) == multiset{Unplaced(Row(n, [])).(depth := |p| - 1)}
  {
    assert [Row(n, p)][1..] == [];
  }

  lemma {:induction false} FlattenFromShows(nodes: seq<FileNode>, i: nat, p: TreePath)
    requires i <= |nodes|
    ensures UnplacedRows(FlattenFrom(nodes, i, p)) == ShownAll(nodes[i..], |p|)
    decreases nodes, |nodes| - i
  {
    if i < |nodes| {
      FlattenShows(nodes[i], p + [i]);
      FlattenFromShows(nodes, i + 1, p);
      UnplacedConcat(Flatten(nodes[i], p + [i]), FlattenFrom(nodes, i + 1, p));
      assert nodes[i..][0] == nodes[i] && nodes[i..][1..] == nodes[i + 1..];
    }
  }

  lemma {:induction false} InsertShows(n: FileNode, nodes: seq<FileNode>, depth: int)
    ensures ShownAll(Insert(n, nodes, Before), depth) == Shown(n, depth) + ShownAll(nodes, depth)
  {
    var r := Insert(n, nodes, Before);
    if nodes != [] && Before(nodes[0], n) {
      InsertShows(n, nodes[1..], depth);
      assert r[1..] == Insert(n, nodes[1..], Before);
    } else {
      assert r[1..] == nodes;
    }
  }

  lemma {:induction false} SortSiblingsShows(nodes: seq<FileNode>, depth: int)
    ensures ShownAll(SortSiblings(nodes), depth) == ShownAll(nodes, depth)
  {
    if nodes != [] {
      SortSiblingsShows(nodes[1..], depth);
      InsertShows(nodes[0], SortSiblings(nodes[1..]), depth);
    }
  }

  /** Two lists that show the same node by node show the same. */
  lemma {:induction false} PointwiseShows(a: seq<FileNode>, b: seq<FileNode>, depth: int)
    requires |a| == |b| && forall i :: 0 <= i < |a| ==> Shown(a[i], depth) == Shown(b[i], depth)
    ensures ShownAll(a, depth) == ShownAll(b, depth)
    decreases |a|
  {
    if a != [] { PointwiseShows(a[1..], b[1..], depth); }
  }

  lemma {:induction false} SortNodesShows(nodes: seq<FileNode>, depth: int)
    ensures ShownAll(SortNodes(nodes), depth) == ShownAll(nodes, depth)
    decreases nodes
  {
    var s, r := SortSiblings(nodes), SortNodes(nodes);
    forall i | 0 <= i < |s| ensures Shown(r[i], depth) == Shown(s[i], depth) {
      InSorted(nodes, i);
      if s[i].isDir { SortNodesShows(s[i].children, depth + 1); }
    }
    PointwiseShows(r, s, depth);
    SortSiblingsShows(nodes, depth);
  }

  /** Sorting shows the same rows at the same depths, so as many as before, and the cursor needs no clamping. */
  lemma SortKeepsRows(s: State)
    requires Valid(s)
    ensures UnplacedRows(Sort(s).flat) == UnplacedRows(s.flat) && |Sort(s).flat| == |s.flat|
    ensures Valid(Sort(s))
  {
    SortNodesShows(s.root, 0);
    FlattenFromShows(s.root, 0, []);
    FlattenFromShows(SortNodes(s.root), 0, []);
    assert s.root[0..] == s.root && SortNodes(s.root)[0..] == SortNodes(s.root);
    UnplacedSize(s.flat);
    UnplacedSize(Sort(s).flat);
  }

  /** Every level that can be shown is sorted. */
  predicate SortedDeep(nodes: seq<FileNode>)
    decreases nodes
  {
    Sorted(nodes, Before) && forall i :: 0 <= i < |nodes| && nodes[i].isDir ==> SortedDeep(nodes[i].children)
  }

  lemma {:induction false} SortNodesSorts(nodes: seq<FileNode>)
    ensures SortedDeep(SortNodes(nodes))
    decreases nodes
  {
    var s, r := SortSiblings(nodes), SortNodes(nodes);
    BeforeOrder();
    SortSorts(nodes, Before);
    forall i, j | 0 <= i < j < |r| ensures !Before(r[j], r[i]) {
      assert Before(r[j], r[i]) == Before(s[j], s[i]);
    }
    forall i | 0 <= i < |r| && r[i].isDir ensures SortedDeep(r[i].children) {
      InSorted(nodes, i);
      SortNodesSorts(s[i].children);
    }
  }

  /** Sorting a sorted tree changes nothing; with `SortNodesSorts`, sorting twice is sorting once. */
  lemma {:induction false} SortSortedTree(nodes: seq<FileNode>)
    requires SortedDeep(nodes)
    ensures SortNodes(nodes) == nodes
    decreases nodes
  {
    SortSorted(nodes, Before);
    forall i | 0 <= i < |nodes| ensures SortNodes(nodes)[i] == nodes[i] {
      if nodes[i].isDir { SortSortedTree(nodes[i].children); }
    }
  }
}
