/** The diff view (`diff_view.rs`): shows the diff of the change selected in
    the unstaged or the staged view, remembers which of the two it shows, and
    follows unselections and refreshes of that view only. Making a diff with
    git and printing it as text are a `render` function; computing the
    line differences between an old and a new diff is a `changeset`
    function. */
module DiffView {
  import W = Wrappers
  import opened DiffColorizer

  /** A file change as the change views report it. */
  datatype FileChange = FileChange(status: string, path: string, oldPath: W.Option<string>)

  /** Which view's change is shown. */
  datatype DisplayedFileChange = None | Unstaged | Staged

  /** The git diff a change is shown with: index against work tree, tree
      against index, or index against work tree across a rename. */
  datatype DiffSource =
    | IndexToWorkdir(path: string)
    | TreeToIndex(path: string)
    | IndexToWorkdirForRenamedFile(oldPath: string, path: string)

  const WT_RENAMED: string := "WT_RENAMED"

  /** A renamed unstaged change needs its old path for its diff; the diff
      maker unwraps it and panics without one. */
  predicate CanMakeDiff(side: DisplayedFileChange, change: FileChange)
  {
    side == Unstaged && change.status == WT_RENAMED ==> change.oldPath.Some?
  }

  /** The diff maker chosen for a change of the given side. */
  function DiffFor(side: DisplayedFileChange, change: FileChange): (d: DiffSource)
    requires side != None && CanMakeDiff(side, change)
    ensures d.path == change.path
    ensures d.TreeToIndex? <==> side == Staged
    ensures d.IndexToWorkdirForRenamedFile? <==> side == Unstaged && change.status == WT_RENAMED
    ensures d.IndexToWorkdirForRenamedFile? ==> W.Some(d.oldPath) == change.oldPath
  {
    if side == Staged then TreeToIndex(change.path)
    else if change.status == WT_RENAMED then IndexToWorkdirForRenamedFile(change.oldPath.value, change.path)
    else IndexToWorkdir(change.path)
  }

  /** The line differences contain an insertion or a deletion. */
  predicate AnyChange(differences: seq<LineDiff>)
  {
    exists i :: 0 <= i < |differences| && IsChange(differences[i])
  }

  /** The view's `text`, `tags` and `edits` after a refresh by `differences`
      from `text0`, `tags0` and `edits0`: unchanged unless the differences
      insert or delete lines; otherwise their edits are made with the
      buffer's primitive `edit`, and the edited text is coloured afresh. */
  predicate Refreshed(differences: seq<LineDiff>, edit: (string, Edit) -> string,
                      text0: string, tags0: seq<TagApplication>, edits0: seq<Edit>,
                      text: string, tags: seq<TagApplication>, edits: seq<Edit>)
  {
    if AnyChange(differences) then
      && edits == edits0 + EditsFor(differences, 0)
      && text == Patched(edit, text0, EditsFor(differences, 0))
      && tags == TagsFor(text)
    else
      text == text0 && tags == tags0 && edits == edits0
  }

  class DiffView {
    const widget: TextView
    const diffColorizer: DiffColorizer
    var displayState: DisplayedFileChange

    /** Starts empty, showing nothing. */
    constructor ()
      ensures displayState == None && widget.text == "" && fresh(widget) && fresh(diffColorizer)
    {
      widget := new TextView();
      diffColorizer := new DiffColorizer();
      displayState := None;
    }

    function GetText(): string
      reads this, widget
    {
      widget.text
    }

    predicate IsEmpty()
      reads this, widget
    {
      widget.text == ""
    }

    method OnUnstagedChangeSelected(fileChange: FileChange, render: DiffSource -> string)
      requires CanMakeDiff(Unstaged, fileChange)
      modifies this, widget, diffColorizer
      ensures displayState == Unstaged
      ensures widget.text == render(DiffFor(Unstaged, fileChange)) && widget.tags == TagsFor(widget.text)
      ensures widget.edits == old(widget.edits)
    {
      OnFileChangeSelected(fileChange, render, Unstaged);
    }

    method OnStagedChangeSelected(fileChange: FileChange, render: DiffSource -> string)
      modifies this, widget, diffColorizer
      ensures displayState == Staged
      ensures widget.text == render(TreeToIndex(fileChange.path)) && widget.tags == TagsFor(widget.text)
      ensures widget.edits == old(widget.edits)
    {
      OnFileChangeSelected(fileChange, render, Staged);
    }

    /** Colours the new diff in the view and records its side. */
    method OnFileChangeSelected(fileChange: FileChange, render: DiffSource -> string, newDisplayState: DisplayedFileChange)
      requires newDisplayState != None && CanMakeDiff(newDisplayState, fileChange)
      modifies this, widget, diffColorizer
      ensures displayState == newDisplayState
      ensures widget.text == render(DiffFor(newDisplayState, fileChange)) && widget.tags == TagsFor(widget.text)
      ensures widget.edits == old(widget.edits)
    {
      var diff := render(DiffFor(newDisplayState, fileChange));
      diffColorizer.Colorize(widget, diff);
      displayState := newDisplayState;
    }

    /** Patches the view from the old diff to the new one and records its
        side; a changeset without insertions or deletions leaves the view.
        `edit` is the buffer's primitive that inserts or removes lines. */
    method OnFileChangeRefreshed(fileChange: FileChange, render: DiffSource -> string,
                                 changeset: (string, string) -> seq<LineDiff>, edit: (string, Edit) -> string,
                                 newDisplayState: DisplayedFileChange)
      requires newDisplayState != None && CanMakeDiff(newDisplayState, fileChange)
      modifies this, widget, diffColorizer
      ensures displayState == newDisplayState
      ensures var ds := changeset(old(widget.text), render(DiffFor(newDisplayState, fileChange)));
        Refreshed(ds, edit, old(widget.text), old(widget.tags), old(widget.edits), widget.text, widget.tags, widget.edits)
    {
      var oldDiff := widget.text;
      var newDiff := render(DiffFor(newDisplayState, fileChange));
      diffColorizer.Update(widget, changeset(oldDiff, newDiff), edit);
      displayState := newDisplayState;
    }

    /** The unstaged view lost its selection: cleared only if its change is
        the one shown. */
    method OnUnstagedChangeUnselected()
      modifies this, widget
      ensures old(displayState) == Unstaged ==>
                displayState == None && widget.text == "" && widget.tags == [] && widget.edits == old(widget.edits)
      ensures old(displayState) != Unstaged ==>
                displayState == old(displayState) && widget.text == old(widget.text)
                && widget.tags == old(widget.tags) && widget.edits == old(widget.edits)
    {
      if displayState == Unstaged {
        Clear();
      }
    }

    method OnStagedChangeUnselected()
      modifies this, widget
      ensures old(displayState) == Staged ==>
                displayState == None && widget.text == "" && widget.tags == [] && widget.edits == old(widget.edits)
      ensures old(displayState) != Staged ==>
                displayState == old(displayState) && widget.text == old(widget.text)
                && widget.tags == old(widget.tags) && widget.edits == old(widget.edits)
    {
      if displayState == Staged {
        Clear();
      }
    }

    /** The unstaged view refreshed its selection: ignored unless its change
        is shown; no selection left clears the view, otherwise the diff is
        refreshed. */
    method OnUnstagedOptionalChangeRefreshed(fileChangeOpt: W.Option<FileChange>, render: DiffSource -> string,
                                             changeset: (string, string) -> seq<LineDiff>, edit: (string, Edit) -> string)
      requires displayState == Unstaged && fileChangeOpt.Some? ==> CanMakeDiff(Unstaged, fileChangeOpt.value)
      modifies this, widget, diffColorizer
      ensures old(displayState) != Unstaged ==>
                displayState == old(displayState) && widget.text == old(widget.text)
                && widget.tags == old(widget.tags) && widget.edits == old(widget.edits)
      ensures old(displayState) == Unstaged && fileChangeOpt.None? ==>
                displayState == None && widget.text == "" && widget.tags == [] && widget.edits == old(widget.edits)
      ensures old(displayState) == Unstaged && fileChangeOpt.Some? ==>
                displayState == Unstaged
                && var ds := changeset(old(widget.text), render(DiffFor(Unstaged, fileChangeOpt.value)));
                   Refreshed(ds, edit, old(widget.text), old(widget.tags), old(widget.edits), widget.text, widget.tags, widget.edits)
    {
      if displayState != Unstaged {
        return;
      }
      match fileChangeOpt {
        case Some(fileChange) => OnFileChangeRefreshed(fileChange, render, changeset, edit, Unstaged);
        case None => Clear();
      }
    }

    method OnStagedOptionalChangeRefreshed(fileChangeOpt: W.Option<FileChange>, render: DiffSource -> string,
                                           changeset: (string, string) -> seq<LineDiff>, edit: (string, Edit) -> string)
      modifies this, widget, diffColorizer
      ensures old(displayState) != Staged ==>
                displayState == old(displayState) && widget.text == old(widget.text)
                && widget.tags == old(widget.tags) && widget.edits == old(widget.edits)
      ensures old(displayState) == Staged && fileChangeOpt.None? ==>
                displayState == None && widget.text == "" && widget.tags == [] && widget.edits == old(widget.edits)
      ensures old(displayState) == Staged && fileChangeOpt.Some? ==>
                displayState == Staged
                && var ds := changeset(old(widget.text), render(TreeToIndex(fileChangeOpt.value.path)));
                   Refreshed(ds, edit, old(widget.text), old(widget.tags), old(widget.edits), widget.text, widget.tags, widget.edits)
    {
      if displayState != Staged {
        return;
      }
      match fileChangeOpt {
        case Some(fileChange) => OnFileChangeRefreshed(fileChange, render, changeset, edit, Staged);
        case None => Clear();
      }
    }

    /** Empties the view, which then shows nothing. */
    method Clear()
      modifies this, widget
      ensures displayState == None && widget.text == "" && widget.tags == [] && widget.edits == old(widget.edits)
    {
      widget.text := "";
      widget.tags := [];
      displayState := None;
    }
  }
}
