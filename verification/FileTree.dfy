/** The file tree object of cc-widgets/src/file_tree.rs. */
module FileTree {
  import opened Wrappers
  import opened FileTreeModel
  import opened MachineInts
  import M = FileTreeModel

  /** Two's complement in 32 bits. */
  function ToI32(x: int): int { (x + TWO_31) % TWO_32 - TWO_31 }

  class FileTreeState {
    var root: seq<FileNode>
    var flat: seq<FlatNode>
    var cursor: nat
    var offset: nat

    ghost function Abs(): State
      reads this
    {
      State(root, flat, cursor)
    }

    ghost predicate Valid()
      reads this
    {
      M.Valid(Abs())
    }

    constructor ()
      ensures Valid() && Abs() == State([], [], 0) && offset == 0
    {
      root, flat, cursor, offset := [], [], 0, 0;
    }

    static lemma FlattenEnd(nodes: seq<FileNode>, p: TreePath)
      ensures FlattenFrom(nodes, |nodes|, p) == []
    {
    }

    static lemma FlattenNext(rows: seq<FlatNode>, nodes: seq<FileNode>, i: nat, p: TreePath)
      requires i < |nodes|
      ensures rows + FlattenFrom(nodes, i, p) == rows + Flatten(nodes[i], p + [i]) + FlattenFrom(nodes, i + 1, p)
    {
    }

    /** Appends the rows of `node` to `rows`. */
    method FlattenNodeInto(rows: seq<FlatNode>, node: FileNode, depth: nat, treePath: TreePath)
      returns (out: seq<FlatNode>)
      requires depth == |treePath| - 1
      ensures out == rows + Flatten(node, treePath)
      decreases node
    {
      hide FlattenFrom;
      out := rows + [FlatNode(node.name, depth, node.isDir, node.expanded, node.loaded, node.path, treePath)];
      FlattenEnd(node.children, treePath);
      if node.isDir && node.expanded {
        var idx := |out| - 1;
        var i := 0;
        while i < |node.children|
          invariant 0 <= i <= |node.children|
          invariant idx < |out| && out[idx].treePath == treePath
          invariant out + FlattenFrom(node.children, i, treePath) == rows + Flatten(node, treePath)
        {
          var childPath := out[idx].treePath + [i];
          FlattenNext(out, node.children, i, treePath);
          out := FlattenNodeInto(out, node.children[i], depth + 1, childPath);
          i := i + 1;
        }
      }
    }

    method RebuildFlat()
      modifies `flat
      ensures flat == Rows(root)
    {
      var rows := [];
      var i := 0;
      while i < |root|
        invariant 0 <= i <= |root|
        invariant rows + FlattenFrom(root, i, []) == Rows(root)
      {
        FlattenNext(rows, root, i, []);
        assert [] + [i] == [i];
        rows := FlattenNodeInto(rows, root[i], 0, [i]);
        i := i + 1;
      }
      flat := rows;
    }

    method ClampCursor()
      modifies `cursor
      ensures cursor == Clamp(old(cursor), flat)
    {
      if |flat| == 0 {
        cursor := 0;
      } else if cursor > |flat| - 1 {
        cursor := |flat| - 1;
      }
    }

    method SetRoot(nodes: seq<FileNode>)
      modifies this
      ensures Valid() && Abs() == WithRoot(old(Abs()), nodes) && offset == old(offset)
    {
      root := nodes;
      RebuildFlat();
      ClampCursor();
    }

    method Selected() returns (r: Option<FlatNode>)
      requires Valid()
      ensures r == if flat == [] then None else Some(flat[cursor])
    {
      r := if cursor < |flat| then Some(flat[cursor]) else None;
    }

    method Toggle(k: nat) returns (r: Option<ToggleResult>)
      requires Valid()
      modifies this
      ensures Valid() && (Abs(), r) == M.Toggle(old(Abs()), k) && offset == old(offset)
    {
      if k >= |flat| || !flat[k].isDir {
        return None;
      }
      if !flat[k].loaded {
        return if flat[k].path.Some? then Some(ToggleResult(true, flat[k].path.value, true, false)) else None;
      }
      var treePath := flat[k].treePath;
      var node := NodeByPath(root, treePath);
      if node.None? || node.value.children == [] || node.value.path.None? {
        return None;
      }
      var expanded := !node.value.expanded;
      root := Replace(root, treePath, node.value.(expanded := expanded));
      RebuildFlat();
      ClampCursor();
      r := Some(ToggleResult(false, node.value.path.value, true, expanded));
    }

    method SetChildren(dirPath: string, children: seq<FileNode>)
      requires Valid()
      modifies this
      ensures Valid() && Abs() == M.SetChildren(old(Abs()), dirPath, children) && offset == old(offset)
    {
      var found := Find(root, 0, dirPath);
      if found.Some? {
        FindNamed(root, 0, dirPath);
        var node := NodeByPath(root, found.value).value;
        root := Replace(root, found.value, node.(children := children, loaded := true));
        RebuildFlat();
        ClampCursor();
      }
    }

    method Sort()
      requires Valid()
      modifies this
      ensures Valid() && Abs() == M.Sort(old(Abs())) && offset == old(offset)
    {
      SortKeepsRows(Abs());
      root := SortNodes(root);
      RebuildFlat();
    }

    /** The sum is taken in 32 bits; a list that fits in 31 bits keeps the cursor in range all the same. */
    method MoveCursor(delta: int)
      requires Valid() && |flat| <= TWO_31 && -TWO_31 <= delta < TWO_31
      modifies `cursor
      ensures Valid()
      ensures flat != [] && 0 <= old(cursor) + delta < TWO_31 ==>
                cursor == if old(cursor) + delta < |flat| then old(cursor) + delta else |flat| - 1
      ensures flat != [] && -TWO_31 <= old(cursor) + delta < 0 ==> cursor == 0
      ensures flat != [] && old(cursor) + delta >= TWO_31 ==> cursor == 0
    {
      if |flat| == 0 {
        return;
      }
      var max := |flat| - 1;
      var moved := ToI32(cursor + delta);
      cursor := if moved < 0 then 0 else if moved > max then max else moved;
    }

    method Click(row: nat) returns (r: Option<nat>)
      requires Valid()
      modifies `cursor
      ensures Valid()
      ensures if row + offset < |flat| then r == Some(cursor) && cursor == row + offset
              else r == None && cursor == old(cursor)
    {
      var idx := row + offset;
      if idx < |flat| {
        cursor := idx;
        r := Some(idx);
      } else {
        r := None;
      }
    }
  }
}
