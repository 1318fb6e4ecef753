/** The file tree seen by its user: what rows show, what a toggle answers, how loading goes on, what sorting does. */
module FileTreeLaws {
  import opened Wrappers
  import opened StableSort
  import opened FileTreeModel

  // ---- rows ----

  /** Every row shows the fields of its node, one level deeper than the row of the directory it is in. */
  lemma RowShowsItsNode(root: seq<FileNode>, k: nat)
    requires k < |Rows(root)|
    ensures var r := Rows(root)[k];
            && NodeByPath(root, r.treePath).Some?
            && var n := NodeByPath(root, r.treePath).value;
               && r.name == n.name && r.isDir == n.isDir && r.expanded == n.expanded && r.loaded == n.loaded
               && r.path == n.path && r.depth == |r.treePath| - 1
  {
    RowOf(root, k);
  }

  /** A cursor that is out of range moves to the last row, and any other stays. */
  lemma ClampNearest(cursor: nat, flat: seq<FlatNode>)
    ensures flat == [] ==> Clamp(cursor, flat) == 0
    ensures flat != [] ==> Clamp(cursor, flat) < |flat|
    ensures flat != [] ==> Clamp(cursor, flat) == cursor || (Clamp(cursor, flat) == |flat| - 1 < cursor)
  {
  }

  // ---- toggle ----

  /** A directory with a path that is not loaded, or has something in it. */
  predicate Answerable(s: State, k: nat) {
    && k < |s.flat| && s.flat[k].isDir && s.flat[k].path.Some?
    && (s.flat[k].loaded ==>
          NodeByPath(s.root, s.flat[k].treePath).Some? && NodeByPath(s.root, s.flat[k].treePath).value.children != [])
  }

  /**
   A toggle answers exactly if the row is a directory with a path that is not loaded yet or has something in it. It asks
   for the children exactly if they are not loaded, and then changes nothing; otherwise it says what the row shows now.
   */
  lemma ToggleAnswers(s: State, k: nat)
    requires Valid(s)
    ensures var s', r := Toggle(s, k).0, Toggle(s, k).1;
            && (r.Some? <==> Answerable(s, k))
            && (r.None? ==> s' == s)
            && (r.Some? ==>
                  && r.value.path == s.flat[k].path.value && r.value.isDir
                  && (r.value.needsLoad <==> !s.flat[k].loaded)
                  && if r.value.needsLoad then s' == s && !r.value.expanded
                     else k < |s'.flat| && s'.flat[k] == s.flat[k].(expanded := r.value.expanded)
                          && r.value.expanded != s.flat[k].expanded)
  {
    if k < |s.flat| {
      RowOf(s.root, k);
      if Toggles(s, k) { ToggleSplices(s, k); }
    }
  }

  /** Loading the children of the directory in row `k` keeps its row where it is. */
  lemma LoadedRow(s: State, k: nat, q: TreePath, n': FileNode)
    requires Valid(s) && k < |s.flat| && q == s.flat[k].treePath
    ensures var rows := Rows(Replace(s.root, q, n'));
            k < |rows| && rows[k] == Row(n', q) && NodeByPath(Replace(s.root, q, n'), q) == Some(n')
  {
    RowOf(s.root, k);
    var n := NodeByPath(s.root, q).value;
    ReplaceSplices(s.root, 0, [], q, n');
    ReplaceFound(s.root, q, n');
    assert [] + q == q;
    hide Replace, Visible, NodeByPath, FlattenFrom, Flatten;
    SplicedRow(s.flat, Rows(Replace(s.root, q, n')), k, Flatten(n, q), Flatten(n', q));
  }

  lemma SplicedRow(rows: seq<FlatNode>, rows': seq<FlatNode>, k: nat, was: seq<FlatNode>, now: seq<FlatNode>)
    requires Spliced(rows, rows', k, was, now) && now != []
    ensures k < |rows'| && rows'[k] == now[0]
  {
  }

  /**
   The lazy load: toggling a directory that is not loaded asks for its path; once its children have been set, the same
   row is a loaded one, and toggling it shows them, or hides them if the row was expanded already.
   */
  lemma LazyLoad(s: State, k: nat, children: seq<FileNode>)
    requires Valid(s) && k < |s.flat| && s.flat[k].isDir && !s.flat[k].loaded && s.flat[k].path.Some?
    requires Find(s.root, 0, s.flat[k].path.value) == Some(s.flat[k].treePath) && children != []
    ensures var row, s1 := s.flat[k], SetChildren(s, s.flat[k].path.value, children);
            && Toggle(s, k) == (s, Some(ToggleResult(true, row.path.value, true, false)))
            && Valid(s1) && k < |s1.flat| && s1.flat[k] == row.(loaded := true)
            && DescendantRows(s1, k) == FlattenFrom(children, 0, row.treePath)
            && Toggle(s1, k).1 == Some(ToggleResult(false, row.path.value, true, !row.expanded))
            && Spliced(s1.flat, Toggle(s1, k).0.flat, k,
                       [s1.flat[k]] + (if row.expanded then DescendantRows(s1, k) else []),
                       [s1.flat[k].(expanded := !row.expanded)]
                       + (if row.expanded then [] else DescendantRows(s1, k)))
  {
    var row, q := s.flat[k], s.flat[k].treePath;
    RowOf(s.root, k);
    var n := NodeByPath(s.root, q).value;
    var n' := n.(children := children, loaded := true);
    LoadedRow(s, k, q, n');
    var s1 := SetChildren(s, row.path.value, children);
    assert s1 == WithRoot(s, Replace(s.root, q, n'));
    hide FlattenFrom, Flatten, Replace, Visible, NodeByPath, Find, Spliced;
    LoadedToggles(s1, k, n');
    ToggleSplices(s1, k);
    ToggleAnswers(s1, k);
  }

  lemma LoadedToggles(s: State, k: nat, n: FileNode)
    requires Valid(s) && k < |s.flat| && NodeByPath(s.root, s.flat[k].treePath) == Some(n)
    requires s.flat[k].isDir && s.flat[k].loaded && n.children != [] && n.path.Some?
    ensures Toggles(s, k)
  {
  }

  // ---- sorting ----

  /** No file stands before a directory beside it, and names ascend among directories and among files. */
  predicate Arranged(nodes: seq<FileNode>) {
    && (forall i, j :: 0 <= i < j < |nodes| && nodes[j].isDir ==> nodes[i].isDir)
    && (forall i, j :: 0 <= i < j < |nodes| && nodes[i].isDir == nodes[j].isDir ==>
          !StringLess(nodes[j].name, nodes[i].name))
  }

  predicate ArrangedDeep(nodes: seq<FileNode>)
    decreases nodes
  {
    Arranged(nodes) && forall i :: 0 <= i < |nodes| && nodes[i].isDir ==> ArrangedDeep(nodes[i].children)
  }

  lemma {:induction false} SortedIsArranged(nodes: seq<FileNode>)
    requires SortedDeep(nodes)
    ensures ArrangedDeep(nodes)
    decreases nodes
  {
    hide StringLess;
    forall i, j | 0 <= i < j < |nodes|
      ensures nodes[j].isDir ==> nodes[i].isDir
      ensures nodes[i].isDir == nodes[j].isDir ==> !StringLess(nodes[j].name, nodes[i].name)
    {
      assert !Before(nodes[j], nodes[i]);
    }
    forall i | 0 <= i < |nodes| && nodes[i].isDir ensures ArrangedDeep(nodes[i].children) {
      SortedIsArranged(nodes[i].children);
    }
  }

  /** The comparison of names is that of their characters, from the left. */
  lemma {:induction false} StringLessIff(a: string, b: string)
    ensures StringLess(a, b) <==>
              exists n: nat :: n <= |a| && n < |b| && a[..n] == b[..n] && (n == |a| || a[n] < b[n])
  {
    if StringLess(a, b) {
      var n := FirstDifference(a, b);
      assert a[..n] == b[..n];
    }
    if n: nat :| n <= |a| && n < |b| && a[..n] == b[..n] && (n == |a| || a[n] < b[n]) {
      LessAt(a, b, n);
    }
  }

  lemma {:induction false} FirstDifference(a: string, b: string) returns (n: nat)
    requires StringLess(a, b)
    ensures n <= |a| && n < |b| && a[..n] == b[..n] && (n == |a| || a[n] < b[n])
  {
    if a == "" || a[0] < b[0] {
      n := 0;
    } else {
      n := FirstDifference(a[1..], b[1..]);
      assert a[..n + 1] == [a[0]] + a[1..][..n] && b[..n + 1] == [b[0]] + b[1..][..n];
      n := n + 1;
    }
  }

  lemma {:induction false} LessAt(a: string, b: string, n: nat)
    requires n <= |a| && n < |b| && a[..n] == b[..n] && (n == |a| || a[n] < b[n])
    ensures StringLess(a, b)
  {
    if n > 0 {
      assert a[0] == a[..n][0] == b[..n][0] == b[0];
      assert a[1..][..n - 1] == a[..n][1..] == b[..n][1..] == b[1..][..n - 1];
      LessAt(a[1..], b[1..], n - 1);
    }
  }

  /** A node without its children. */
  function Label(n: FileNode): FileNode { n.(children := []) }

  /** Every node at and below `n`, whether it is visible or not, with the directories it is in. */
  function Census(n: FileNode, above: seq<FileNode>): multiset<seq<FileNode>>
    decreases n, 0
  {
    multiset{above + [Label(n)]} + CensusAll(n.children, above + [Label(n)])
  }

  function CensusAll(nodes: seq<FileNode>, above: seq<FileNode>): multiset<seq<FileNode>>
    decreases nodes
  {
    if nodes == [] then multiset{} else Census(nodes[0], above) + CensusAll(nodes[1..], above)
  }

  lemma {:induction false} InsertCounts(n: FileNode, nodes: seq<FileNode>, above: seq<FileNode>)
    ensures CensusAll(Insert(n, nodes, Before), above) == Census(n, above) + CensusAll(nodes, above)
  {
    hide Census, Before;
    var r := Insert(n, nodes, Before);
    if nodes != [] && Before(nodes[0], n) {
      InsertCounts(n, nodes[1..], above);
      assert r[1..] == Insert(n, nodes[1..], Before);
    } else {
      assert r[1..] == nodes;
    }
  }

  lemma {:induction false} SiblingsCount(nodes: seq<FileNode>, above: seq<FileNode>)
    ensures CensusAll(SortSiblings(nodes), above) == CensusAll(nodes, above)
  {
    hide Census;
    if nodes != [] {
      SiblingsCount(nodes[1..], above);
      InsertCounts(nodes[0], SortSiblings(nodes[1..]), above);
    }
  }

  lemma {:induction false} PointwiseCounts(a: seq<FileNode>, b: seq<FileNode>, above: seq<FileNode>)
    requires |a| == |b| && forall i :: 0 <= i < |a| ==> Census(a[i], above) == Census(b[i], above)
    ensures CensusAll(a, above) == CensusAll(b, above)
    decreases |a|
  {
    hide Census;
    if a != [] { PointwiseCounts(a[1..], b[1..], above); }
  }

  /** Sorting keeps every node, visible or not, under the same directories. */
  lemma {:induction false} SortCounts(nodes: seq<FileNode>, above: seq<FileNode>)
    ensures CensusAll(SortNodes(nodes), above) == CensusAll(nodes, above)
    decreases nodes
  {
    hide CensusAll;
    var s, r := SortSiblings(nodes), SortNodes(nodes);
    forall i | 0 <= i < |s| ensures Census(r[i], above) == Census(s[i], above) {
      InSorted(nodes, i);
      if s[i].isDir {
        assert Label(r[i]) == Label(s[i]);
        SortCounts(s[i].children, above + [Label(s[i])]);
      }
    }
    PointwiseCounts(r, s, above);
    SiblingsCount(nodes, above);
  }

  /** Sorting arranges every level below directories, and moves no node out of its directory. */
  lemma SortArranges(nodes: seq<FileNode>)
    ensures ArrangedDeep(SortNodes(nodes))
    ensures CensusAll(SortNodes(nodes), []) == CensusAll(nodes, [])
  {
    SortNodesSorts(nodes);
    SortedIsArranged(SortNodes(nodes));
    SortCounts(nodes, []);
  }

  /** Nodes that sort together keep their order among the siblings. */
  lemma SiblingsAreStable(nodes: seq<FileNode>, x: FileNode)
    ensures Equals(SortSiblings(nodes), x, Before) == Equals(nodes, x, Before)
  {
    BeforeOrder();
    SortIsStable(nodes, x, Before);
  }
}
