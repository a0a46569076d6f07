/** The store behind the unstaged-changes view (`unstaged_changes_store.rs`):
    it takes changes the repository unstages. */
module UnstagedChangesStore {
  import opened FileChanges

  /** Walks the rows of `model` until one has the path (a module-level
      helper of the store). */
  method ContainsFilePath(model: ListStore, filePath: string) returns (filePathFound: bool)
    ensures filePathFound <==> HasPath(model.rows, filePath)
  {
    filePathFound := model.ContainsFilePath(filePath);
  }

  class UnstagedFileChangesStore {
    const store: ListStore

    /** Fills the store with the unstaged changes, in their order. */
    constructor (changes: seq<FileChange>)
      ensures fresh(store) && store.rows == changes
    {
      var s := new ListStore();
      s.Fill(changes);
      store := s;
    }

    /** Removes exactly the given row. */
    method Remove(row: nat)
      requires row < |store.rows|
      modifies store
      ensures store.rows == RemoveAt(old(store.rows), row)
    {
      store.Remove(row);
    }

    /** A change the repository unstaged: ignored when its path is listed
        already, otherwise appended with its status rewritten to the
        work-tree form. */
    method OnUnstaged(fileChange: FileChange)
      modifies store
      ensures HasPath(old(store.rows), fileChange.path) ==> store.rows == old(store.rows)
      ensures !HasPath(old(store.rows), fileChange.path) ==>
                store.rows == old(store.rows) + [FileChange(ToUnstaged(fileChange.status), fileChange.path)]
      ensures DistinctPaths(old(store.rows)) ==> DistinctPaths(store.rows)
    {
      var found := ContainsFilePath(store, fileChange.path);
      if found {
        return;
      }
      var newStatus := ToUnstaged(fileChange.status);
      if DistinctPaths(store.rows) {
        AppendNewPath(store.rows, FileChange(newStatus, fileChange.path));
      }
      store.Append(FileChange(newStatus, fileChange.path));
    }
  }
}
