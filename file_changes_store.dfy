/** A list store of file changes with the queries the file-change views ask
    of it (`file_changes_store.rs`). */
module FileChangesStore {
  import opened FileChanges

  class FileChangesStore {
    const store: ListStore

    /** Takes the named store of the window and fills it with `changes`. */
    constructor (changes: seq<FileChange>)
      ensures fresh(store) && store.rows == changes
    {
      var s := new ListStore();
      s.Fill(changes);
      store := s;
    }

    /** The store has a first row. */
    predicate IsFilled()
      reads store
    {
      store.IsFilled()
    }

    predicate IsEmpty()
      reads store
    {
      !IsFilled()
    }

    function RowCount(): nat
      reads store
    {
      store.RowCount()
    }

    method ContainsFilePath(filePath: string) returns (found: bool)
      ensures found <==> HasPath(store.rows, filePath)
    {
      found := store.ContainsFilePath(filePath);
    }

    method Append(fileChange: FileChange)
      modifies store
      ensures store.rows == old(store.rows) + [fileChange]
    {
      store.Append(fileChange);
    }

    method Remove(row: nat)
      requires row < |store.rows|
      modifies store
      ensures store.rows == RemoveAt(old(store.rows), row)
      ensures RowCount() == old(RowCount()) - 1
    {
      store.Remove(row);
    }

    method Clear()
      modifies store
      ensures store.rows == [] && RowCount() == 0
    {
      store.Clear();
    }
  }

  /** Filled, empty and the row count agree. */
  lemma FilledMeansRows(s: FileChangesStore)
    ensures s.IsEmpty() == !s.IsFilled()
    ensures s.IsFilled() <==> s.RowCount() > 0
  {
  }
}
