/** The commit button (`commit_button.rs`): three flags kept up to date by the
    repository, the message view and the amend checkbox decide whether the
    button can be pressed and what its tooltip says; pressing it commits or
    amends. The widget becomes its sensitivity and its tooltip. */
module CommitButton {
  import opened Wrappers

  const NO_CHANGES_STAGED_TOOLTIP: string := "No changes are staged for commit."
  const EMPTY_MESSAGE_TOOLTIP: string := "The commit message is empty."
  const DISABLED_CLICK_ERROR: string := "Cannot click, commit button is disabled"

  /** What the button asks of the repository. */
  datatype RepositoryRequest = Commit(message: string) | AmendCommit(message: string)

  /** Sensitivity and tooltip of the button for the three flags. */
  datatype Look = Look(sensitive: bool, tooltip: Option<string>)

  /** The rule `update` applies, as a value: the button can be pressed
      exactly when there is something to commit (staged changes, or the last
      commit to amend) and a message; the tooltip is cleared exactly then,
      and otherwise explains why, the missing changes taking priority over
      the missing message. */
  function LookFor(staged: bool, written: bool, amend: bool): (look: Look)
    ensures look.sensitive <==> (staged || amend) && written
    ensures look.tooltip.None? <==> look.sensitive
    ensures !staged && !amend ==> look.tooltip == Some(NO_CHANGES_STAGED_TOOLTIP)
    ensures (staged || amend) && !written ==> look.tooltip == Some(EMPTY_MESSAGE_TOOLTIP)
  {
    if !staged && !amend then Look(false, Some(NO_CHANGES_STAGED_TOOLTIP))
    else if !written then Look(false, Some(EMPTY_MESSAGE_TOOLTIP))
    else Look(true, None)
  }

  class CommitButton {
    var areChangesStaged: bool
    var isCommitMessageWritten: bool
    var isCommitAmendEnabled: bool
    var sensitive: bool
    var tooltip: Option<string>
    /** The commits and amends asked of the repository, oldest first. */
    var requests: seq<RepositoryRequest>

    /** The widget shows what the flags call for. */
    predicate Valid()
      reads this
    {
      Look(sensitive, tooltip) == LookFor(areChangesStaged, isCommitMessageWritten, isCommitAmendEnabled)
    }

    /** Takes the message view's and the repository's state; amend starts
        disabled. */
    constructor (commitMessageHasText: bool, repositoryHasStagedChanges: bool)
      ensures Valid()
      ensures isCommitMessageWritten == commitMessageHasText
      ensures areChangesStaged == repositoryHasStagedChanges
      ensures !isCommitAmendEnabled && requests == []
    {
      isCommitMessageWritten := commitMessageHasText;
      areChangesStaged := repositoryHasStagedChanges;
      isCommitAmendEnabled := false;
      requests := [];
      new;
      Update();
    }

    predicate IsEnabled()
      reads this
    {
      sensitive
    }

    predicate IsDisabled()
      reads this
    {
      !IsEnabled()
    }

    /** The tooltip, or "" when there is none. */
    function GetTooltip(): string
      reads this
    {
      match tooltip
      case Some(text) => text
      case None => ""
    }

    /** Sets sensitivity and tooltip from the flags. */
    method Update()
      modifies this
      ensures Valid()
      ensures areChangesStaged == old(areChangesStaged) && isCommitMessageWritten == old(isCommitMessageWritten)
      ensures isCommitAmendEnabled == old(isCommitAmendEnabled) && requests == old(requests)
    {
      if !areChangesStaged && !isCommitAmendEnabled {
        sensitive := false;
        tooltip := Some(NO_CHANGES_STAGED_TOOLTIP);
        return;
      }
      if !isCommitMessageWritten {
        sensitive := false;
        tooltip := Some(EMPTY_MESSAGE_TOOLTIP);
        return;
      }
      sensitive := true;
      tooltip := None;
    }

    /** A change was staged; nothing to do when changes were staged already. */
    method OnAddedToStaged()
      requires Valid()
      modifies this
      ensures Valid() && areChangesStaged
      ensures old(areChangesStaged) ==> sensitive == old(sensitive) && tooltip == old(tooltip)
      ensures isCommitMessageWritten == old(isCommitMessageWritten) && isCommitAmendEnabled == old(isCommitAmendEnabled)
      ensures requests == old(requests)
    {
      if areChangesStaged {
        return;
      }
      areChangesStaged := true;
      Update();
    }

    /** A change was unstaged; the flag drops only when the repository has
        no staged change left. */
    method OnRemovedFromStaged(repositoryHasStagedChanges: bool)
      requires Valid()
      modifies this
      ensures Valid()
      ensures repositoryHasStagedChanges ==>
                areChangesStaged == old(areChangesStaged) && sensitive == old(sensitive) && tooltip == old(tooltip)
      ensures !repositoryHasStagedChanges ==> !areChangesStaged
      ensures isCommitMessageWritten == old(isCommitMessageWritten) && isCommitAmendEnabled == old(isCommitAmendEnabled)
      ensures requests == old(requests)
    {
      if repositoryHasStagedChanges {
        return;
      }
      areChangesStaged := false;
      Update();
    }

    method OnCommitMessageFilled()
      modifies this
      ensures Valid() && isCommitMessageWritten
      ensures areChangesStaged == old(areChangesStaged) && isCommitAmendEnabled == old(isCommitAmendEnabled)
      ensures requests == old(requests)
    {
      isCommitMessageWritten := true;
      Update();
    }

    method OnCommitMessageEmptied()
      modifies this
      ensures Valid() && !isCommitMessageWritten && IsDisabled()
      ensures areChangesStaged == old(areChangesStaged) && isCommitAmendEnabled == old(isCommitAmendEnabled)
      ensures requests == old(requests)
    {
      isCommitMessageWritten := false;
      Update();
    }

    method OnCommitAmendEnabled()
      modifies this
      ensures Valid() && isCommitAmendEnabled
      ensures areChangesStaged == old(areChangesStaged) && isCommitMessageWritten == old(isCommitMessageWritten)
      ensures requests == old(requests)
    {
      isCommitAmendEnabled := true;
      Update();
    }

    method OnCommitAmendDisabled()
      modifies this
      ensures Valid() && !isCommitAmendEnabled
      ensures areChangesStaged == old(areChangesStaged) && isCommitMessageWritten == old(isCommitMessageWritten)
      ensures requests == old(requests)
    {
      isCommitAmendEnabled := false;
      Update();
    }

    /** Amends the last commit when amend is enabled, otherwise commits, with
        the message view's text; afterwards nothing counts as staged. */
    method Commit(message: string)
      modifies this
      ensures Valid() && !areChangesStaged
      ensures requests == old(requests) + [if old(isCommitAmendEnabled) then AmendCommit(message) else RepositoryRequest.Commit(message)]
      ensures isCommitMessageWritten == old(isCommitMessageWritten) && isCommitAmendEnabled == old(isCommitAmendEnabled)
    {
      if isCommitAmendEnabled {
        requests := requests + [AmendCommit(message)];
      } else {
        requests := requests + [RepositoryRequest.Commit(message)];
      }
      areChangesStaged := false;
      Update();
    }

    /** Presses the button: refused with an error and no effect when it is
        disabled, otherwise the press commits with `message`. */
    method Click(message: string) returns (r: Result<(), string>)
      requires Valid()
      modifies this
      ensures Valid()
      ensures isCommitMessageWritten == old(isCommitMessageWritten) && isCommitAmendEnabled == old(isCommitAmendEnabled)
      ensures old(IsDisabled()) ==>
                r == Err(DISABLED_CLICK_ERROR) && requests == old(requests) && areChangesStaged == old(areChangesStaged)
                && sensitive == old(sensitive) && tooltip == old(tooltip)
      ensures old(IsEnabled()) ==>
                && r == Ok(())
                && requests == old(requests) + [if old(isCommitAmendEnabled) then AmendCommit(message) else RepositoryRequest.Commit(message)]
                && !areChangesStaged
    {
      if IsDisabled() {
        return Err(DISABLED_CLICK_ERROR);
      }
      Commit(message);
      r := Ok(());
    }
  }
}
