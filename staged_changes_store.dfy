/** The store behind the staged-changes view (`staged_changes_store.rs`): it
    takes changes the repository stages, empties on a commit, and tells its
    observers when it becomes filled or empty. */
module StagedChangesStore {
  import opened FileChanges

  /** A call of the filled or the emptied observers. */
  datatype Notification = Filled | Emptied

  /** Walks the rows of `model` until one has the path (a module-level
      helper of the store). */
  method ContainsFilePath(model: ListStore, filePath: string) returns (filePathFound: bool)
    ensures filePathFound <==> HasPath(model.rows, filePath)
  {
    filePathFound := model.ContainsFilePath(filePath);
  }

  class StagedFileChangesStore {
    const store: ListStore
    /** The observer calls made so far, oldest first. */
    var notifications: seq<Notification>

    /** Fills the store with the staged changes, in their order. */
    constructor (changes: seq<FileChange>)
      ensures fresh(store) && store.rows == changes && notifications == []
    {
      var s := new ListStore();
      s.Fill(changes);
      store := s;
      notifications := [];
    }

    predicate IsFilled()
      reads store
    {
      store.rows != []
    }

    predicate IsEmpty()
      reads store
    {
      store.rows == []
    }

    /** Removes one row; the emptied observers hear of it only when that was
        the last row. */
    method Remove(row: nat)
      requires row < |store.rows|
      modifies this, store
      ensures store.rows == RemoveAt(old(store.rows), row)
      ensures notifications == old(notifications) + (if |old(store.rows)| == 1 then [Emptied] else [])
    {
      store.Remove(row);
      if store.rows == [] {
        notifications := notifications + [Emptied];
      }
    }

    /** A change the repository staged: ignored when its path is listed
        already, otherwise appended with its status rewritten to the index
        form; the filled observers hear of it when it is the only row. */
    method OnStaged(fileChange: FileChange)
      modifies this, store
      ensures HasPath(old(store.rows), fileChange.path) ==>
                store.rows == old(store.rows) && notifications == old(notifications)
      ensures !HasPath(old(store.rows), fileChange.path) ==>
                store.rows == old(store.rows) + [FileChange(ToStaged(fileChange.status), fileChange.path)]
                && notifications == old(notifications) + (if old(store.rows) == [] then [Filled] else [])
      ensures DistinctPaths(old(store.rows)) ==> DistinctPaths(store.rows)
    {
      var found := ContainsFilePath(store, fileChange.path);
      if found {
        return;
      }
      var newStatus := ToStaged(fileChange.status);
      if DistinctPaths(store.rows) {
        AppendNewPath(store.rows, FileChange(newStatus, fileChange.path));
      }
      store.Append(FileChange(newStatus, fileChange.path));
      if store.RowCount() == 1 {
        notifications := notifications + [Filled];
      }
    }

    /** After a commit nothing is staged: the store is cleared and the
        emptied observers always hear of it. */
    method OnCommitted()
      modifies this, store
      ensures store.rows == [] && IsEmpty()
      ensures notifications == old(notifications) + [Emptied]
    {
      store.Clear();
      notifications := notifications + [Emptied];
    }
  }
}
