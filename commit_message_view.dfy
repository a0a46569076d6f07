/** The commit message view (`commit_message_view.rs`): its text, and the
    message stashed away while amend mode shows the last commit's message. */
module CommitMessageView {
  import opened Wrappers

  class CommitMessageView {
    /** The text of the view's buffer. */
    var text: string
    /** The message typed before amend mode was switched on. */
    var stashedMessage: string

    /** Starts empty, with nothing stashed. */
    constructor ()
      ensures text == "" && stashedMessage == ""
      ensures IsEmpty()
    {
      text := "";
      stashedMessage := "";
    }

    predicate HasText()
      reads this
    {
      text != ""
    }

    predicate IsEmpty()
      reads this
    {
      !HasText()
    }

    function GetText(): string
      reads this
    {
      text
    }

    method SetText(newText: string)
      modifies this
      ensures text == newText && stashedMessage == old(stashedMessage)
    {
      text := newText;
    }

    /** A commit was made: the view is emptied. */
    method OnCommitted()
      modifies this
      ensures text == "" && IsEmpty() && stashedMessage == old(stashedMessage)
    {
      text := "";
    }

    /** Amend mode was switched on: the typed message is stashed and the
        last commit's message shown instead. Reading that message unwraps
        both the repository's result and the message itself, so a missing
        message panics, which the precondition rules out. */
    method OnCommitAmendEnabled(lastCommitMessage: Option<string>)
      requires lastCommitMessage.Some?
      modifies this
      ensures stashedMessage == old(text) && text == lastCommitMessage.value
    {
      stashedMessage := GetText();
      SetText(lastCommitMessage.value);
    }

    /** Amend mode was switched off: the stashed message comes back; with
        nothing stashed yet that empties the view. */
    method OnCommitAmendDisabled()
      modifies this
      ensures text == old(stashedMessage) && stashedMessage == old(stashedMessage)
      ensures old(stashedMessage) == "" ==> IsEmpty()
    {
      SetText(stashedMessage);
    }
  }
}
