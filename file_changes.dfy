/** A change of one file as the file-change lists show it, the list store
    that holds such rows (standing for a GTK list store with a status and a
    path column), and the rewrites of a status name when a change moves
    between the work tree and the index. */
module FileChanges {
  import opened Text

  /** One row: the git status name (such as "WT_NEW") and the file path. */
  datatype FileChange = FileChange(status: string, path: string)

  /** Some row of `rows` has the path `path`. */
  predicate HasPath(rows: seq<FileChange>, path: string)
  {
    exists i :: 0 <= i < |rows| && rows[i].path == path
  }

  /** The paths of `rows` are pairwise distinct. */
  predicate DistinctPaths(rows: seq<FileChange>)
  {
    forall i, j :: 0 <= i < j < |rows| ==> rows[i].path != rows[j].path
  }

  /** Appending a row whose path is new keeps the paths distinct. */
  lemma AppendNewPath(rows: seq<FileChange>, change: FileChange)
    requires DistinctPaths(rows) && !HasPath(rows, change.path)
    ensures DistinctPaths(rows + [change])
  {
    var r := rows + [change];
    forall i, j | 0 <= i < j < |r|
      ensures r[i].path != r[j].path
    {
      if j == |rows| {
        assert rows[i].path != change.path;
      }
    }
  }

  /** `rows` without its row number `i`. */
  function RemoveAt(rows: seq<FileChange>, i: nat): seq<FileChange>
    requires i < |rows|
  {
    rows[..i] + rows[i + 1..]
  }

  /** Removing a row keeps the others in their order. */
  lemma RemoveAtKeepsOrder(rows: seq<FileChange>, i: nat)
    requires i < |rows|
    ensures |RemoveAt(rows, i)| == |rows| - 1
    ensures forall j :: 0 <= j < i ==> RemoveAt(rows, i)[j] == rows[j]
    ensures forall j :: i <= j < |rows| - 1 ==> RemoveAt(rows, i)[j] == rows[j + 1]
  {
  }

  /** The status of a change once it is staged: every "WT" becomes "INDEX". */
  function ToStaged(status: string): string
  {
    Replace(status, "WT", "INDEX")
  }

  /** The status of a change once it is unstaged: every "INDEX" becomes "WT". */
  function ToUnstaged(status: string): string
  {
    Replace(status, "INDEX", "WT")
  }

  /** A staged status names no work-tree state. */
  lemma StagedHasNoWorkTree(status: string)
    ensures !Contains(ToStaged(status), "WT")
  {
    ReplaceRemovesAll(status, "WT", "INDEX");
  }

  /** An unstaged status names no index state. */
  lemma UnstagedHasNoIndex(status: string)
    ensures !Contains(ToUnstaged(status), "INDEX")
  {
    ReplaceRemovesAll(status, "INDEX", "WT");
  }

  /** Staging and then unstaging a work-tree status gives it back. */
  lemma StageThenUnstage(status: string)
    requires !Contains(status, "INDEX")
    ensures ToUnstaged(ToStaged(status)) == status
  {
    ReplaceRoundTrip(status, "WT", "INDEX");
  }

  /** Unstaging and then staging an index status gives it back. */
  lemma UnstageThenStage(status: string)
    requires !Contains(status, "WT")
    ensures ToStaged(ToUnstaged(status)) == status
  {
    ReplaceRoundTrip(status, "INDEX", "WT");
  }

  /** A list of rows of status and path, changed in place. */
  class ListStore {
    var rows: seq<FileChange>

    constructor ()
      ensures rows == []
    {
      rows := [];
    }

    function RowCount(): nat
      reads this
    {
      |rows|
    }

    /** The store has a first row. */
    predicate IsFilled()
      reads this
    {
      rows != []
    }

    method Append(change: FileChange)
      modifies this
      ensures rows == old(rows) + [change]
    {
      rows := rows + [change];
    }

    /** Removes the row the iterator points at. */
    method Remove(row: nat)
      requires row < |rows|
      modifies this
      ensures rows == RemoveAt(old(rows), row)
    {
      rows := RemoveAt(rows, row);
    }

    method Clear()
      modifies this
      ensures rows == []
    {
      rows := [];
    }

    /** Appends one row per change, in order. */
    method Fill(changes: seq<FileChange>)
      modifies this
      ensures rows == old(rows) + changes
    {
      var i := 0;
      while i < |changes|
        invariant 0 <= i <= |changes|
        invariant rows == old(rows) + changes[..i]
      {
        Append(changes[i]);
        assert changes[..i + 1] == changes[..i] + [changes[i]];
        i := i + 1;
      }
      assert changes[..i] == changes;
    }

    /** Walks the rows until one has the path, with a found flag. */
    method ContainsFilePath(filePath: string) returns (filePathFound: bool)
      ensures filePathFound <==> HasPath(rows, filePath)
    {
      filePathFound := false;
      var i := 0;
      while i < |rows| && !filePathFound
        invariant 0 <= i <= |rows|
        invariant filePathFound ==> HasPath(rows, filePath)
        invariant !filePathFound ==> forall j :: 0 <= j < i ==> rows[j].path != filePath
      {
        if rows[i].path == filePath {
          filePathFound := true;
        }
        i := i + 1;
      }
    }
  }
}
