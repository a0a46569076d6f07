/** The actions behind the file-change views and the commit button of the
    first window (`gui_actions.rs`): showing the diff of the selected change,
    moving a change between the unstaged and the staged list, and
    committing. */
module GuiActions {
  import opened Wrappers
  import opened FileChanges

  datatype ErrorKind =
    | ClearDiffView
    | CommitStagedChanges
    | CommitMessageViewBuffer
    | DisplayDiff
    | HandleChangedFileViewSelection
    | TooLargeFileViewSelection(count: nat)

  /** An error and its causes, outermost first. */
  type Error = seq<ErrorKind>

  /** The text of a text view's buffer. */
  class TextView {
    var text: string

    constructor ()
      ensures text == ""
    {
      text := "";
    }
  }

  /** The rows selected in a file-change view. */
  class TreeSelection {
    var rows: seq<nat>

    constructor (rows: seq<nat>)
      ensures this.rows == rows
    {
      this.rows := rows;
    }
  }

  /** What a selection asks of the diff view: clearing it (`None`), showing
      the change in one row (`Some(row)`), or an error when more than one
      row is selected. */
  function SelectionAction(selected: seq<nat>): (r: Result<Option<nat>, Error>)
    ensures selected == [] <==> r == Ok(None)
    ensures |selected| == 1 <==> r.Ok? && r.value.Some?
    ensures |selected| == 1 ==> r.value.value == selected[0]
    ensures |selected| > 1 <==> r == Err([HandleChangedFileViewSelection, TooLargeFileViewSelection(|selected|)])
  {
    if selected == [] then Ok(None)
    else if |selected| > 1 then Err([HandleChangedFileViewSelection, TooLargeFileViewSelection(|selected|)])
    else Ok(Some(selected[0]))
  }

  /** Shows the diff of the one selected change and unselects the other
      view; an empty selection clears the diff view, and a larger one is an
      error that changes nothing. `makeDiff` stands for printing the diff of
      a path into the cleared view. A selected row outside the model makes
      the program exit, which the precondition rules out; the selection and the
      view to unselect belong to different views. */
  method HandleSelection(selection: TreeSelection, model: ListStore, diffView: TextView,
                         makeDiff: string -> string, fileViewToUnselect: TreeSelection)
    returns (r: Result<(), Error>)
    requires selection != fileViewToUnselect
    requires |selection.rows| == 1 ==> selection.rows[0] < |model.rows|
    modifies diffView, fileViewToUnselect
    ensures selection.rows == [] ==> r.Ok? && diffView.text == "" && fileViewToUnselect.rows == old(fileViewToUnselect.rows)
    ensures |selection.rows| > 1 ==> r == Err([HandleChangedFileViewSelection, TooLargeFileViewSelection(|selection.rows|)])
                                     && diffView.text == old(diffView.text)
                                     && fileViewToUnselect.rows == old(fileViewToUnselect.rows)
    ensures |selection.rows| == 1 ==> r.Ok? && fileViewToUnselect.rows == []
                                      && diffView.text == makeDiff(model.rows[selection.rows[0]].path)
  {
    var action := SelectionAction(selection.rows);
    match action {
      case Err(e) =>
        r := Err(e);
      case Ok(None) =>
        diffView.text := "";
        r := Ok(());
      case Ok(Some(row)) =>
        fileViewToUnselect.rows := [];
        diffView.text := makeDiff(model.rows[row].path);
        r := Ok(());
    }
  }

  /** Moves the change in `row` from `source` to the end of `target`, with its
      status converted, after telling the repository to switch the staging
      of its path; the path told is returned. */
  method ChangeStagingState(source: ListStore, target: ListStore, row: nat, convert: string -> string)
    returns (switchedPath: string)
    requires row < |source.rows|
    modifies source, target
    ensures switchedPath == old(source.rows[row].path)
    ensures source != target ==>
              source.rows == RemoveAt(old(source.rows), row)
              && target.rows == old(target.rows) + [FileChange(convert(old(source.rows[row].status)), switchedPath)]
    ensures source == target ==>
              source.rows == RemoveAt(old(source.rows), row) + [FileChange(convert(old(source.rows[row].status)), switchedPath)]
  {
    var filePath := source.rows[row].path;
    var fileStatus := source.rows[row].status;
    switchedPath := filePath;
    var newStatus := convert(fileStatus);
    source.Remove(row);
    target.Append(FileChange(newStatus, filePath));
  }

  /** Staging a change by activating its row: the row leaves the unstaged
      list and its staged form joins the staged list. */
  method StageRow(unstaged: ListStore, staged: ListStore, row: nat) returns (switchedPath: string)
    requires row < |unstaged.rows| && unstaged != staged
    modifies unstaged, staged
    ensures switchedPath == old(unstaged.rows[row].path)
    ensures unstaged.rows == RemoveAt(old(unstaged.rows), row)
    ensures staged.rows == old(staged.rows) + [FileChange(ToStaged(old(unstaged.rows[row].status)), switchedPath)]
    ensures !Text.Contains(staged.rows[|staged.rows| - 1].status, "WT")
  {
    switchedPath := ChangeStagingState(unstaged, staged, row, ToStaged);
    StagedHasNoWorkTree(old(unstaged.rows[row].status));
  }

  /** Commits with the text of the message view as the message, then empties
      the staged list and the message view; the message committed is
      returned. */
  method CommitStagedChanges(commitMessageView: TextView, stagedFilesModel: ListStore)
    returns (message: string)
    modifies commitMessageView, stagedFilesModel
    ensures message == old(commitMessageView.text)
    ensures stagedFilesModel.rows == [] && commitMessageView.text == ""
  {
    message := commitMessageView.text;
    stagedFilesModel.Clear();
    commitMessageView.text := "";
  }
}
