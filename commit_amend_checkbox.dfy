/** The amend checkbox (`commit_amend_checkbox.rs`): sensitive only when
    there is a commit to amend, and announcing each toggle as amend mode
    switched on or off. The widget becomes its sensitivity, its active flag
    and its tooltip; the `toggled` signal GTK emits when the active flag
    changes becomes a `Toggled` message. */
module CommitAmendCheckbox {
  import opened Wrappers
  import E = Events

  const NO_COMMIT_TOOLTIP: string := "No commit found to amend."

  class CommitAmendCheckbox {
    var sensitive: bool
    var active: bool
    var tooltip: Option<string>
    /** The messages sent, oldest first. */
    var sent: seq<E.Message>

    /** An empty repository has nothing to amend: the box is insensitive and
        says why; otherwise it is sensitive. It starts unselected. */
    constructor (repositoryIsEmpty: bool)
      ensures repositoryIsEmpty ==> IsDisabled() && tooltip == Some(NO_COMMIT_TOOLTIP)
      ensures !repositoryIsEmpty ==> IsEnabled() && tooltip == None
      ensures IsUnselected() && sent == []
    {
      active := false;
      sent := [];
      if repositoryIsEmpty {
        sensitive := false;
        tooltip := Some(NO_COMMIT_TOOLTIP);
      } else {
        sensitive := true;
        tooltip := None;
      }
    }

    predicate IsEnabled()
      reads this
    {
      sensitive
    }

    predicate IsDisabled()
      reads this
    {
      !IsEnabled()
    }

    predicate IsSelected()
      reads this
    {
      active
    }

    predicate IsUnselected()
      reads this
    {
      !IsSelected()
    }

    /** The tooltip, or "" when there is none. */
    function GetTooltip(): string
      reads this
    {
      match tooltip
      case Some(text) => text
      case None => ""
    }

    method Select()
      modifies this
      ensures IsSelected()
      ensures sent == old(sent) + (if old(active) then [] else [(E.Source.CommitAmendCheckbox, E.Event.Toggled(true))])
      ensures sensitive == old(sensitive) && tooltip == old(tooltip)
    {
      SetActive(true);
    }

    method Unselect()
      modifies this
      ensures IsUnselected()
      ensures sent == old(sent) + (if old(active) then [(E.Source.CommitAmendCheckbox, E.Event.Toggled(false))] else [])
      ensures sensitive == old(sensitive) && tooltip == old(tooltip)
    {
      SetActive(false);
    }

    /** Sets the active flag; a change of it emits `toggled`. */
    method SetActive(value: bool)
      modifies this
      ensures active == value
      ensures sent == old(sent) + (if old(active) == value then [] else [(E.Source.CommitAmendCheckbox, E.Event.Toggled(value))])
      ensures sensitive == old(sensitive) && tooltip == old(tooltip)
    {
      if active != value {
        active := value;
        sent := sent + [(E.Source.CommitAmendCheckbox, E.Event.Toggled(value))];
      }
    }

    /** The checkbox answers its own toggles and amended commits; any other
        message makes the program panic. */
    method Handle(source: E.Source, event: E.Event)
      requires event.AmendedCommit? || event.Toggled?
      modifies this
      ensures event.AmendedCommit? ==>
                IsUnselected() && sent == old(sent) + (if old(active) then [(E.Source.CommitAmendCheckbox, E.Event.Toggled(false))] else [])
      ensures event.Toggled? ==>
                active == old(active) && sent == old(sent) + [(E.Source.CommitAmendCheckbox,
                                         if old(active) then E.Event.CommitAmendEnabled else E.Event.CommitAmendDisabled)]
      ensures sensitive == old(sensitive) && tooltip == old(tooltip)
    {
      match event {
        case AmendedCommit => OnAmendedCommit();
        case Toggled(_) => OnToggled();
      }
    }

    /** Amend mode is switched on exactly when the box is now selected. */
    method OnToggled()
      modifies this
      ensures active == old(active) && sensitive == old(sensitive) && tooltip == old(tooltip)
      ensures sent == old(sent) + [(E.Source.CommitAmendCheckbox,
                                    if active then E.Event.CommitAmendEnabled else E.Event.CommitAmendDisabled)]
    {
      if IsSelected() {
        sent := sent + [(E.Source.CommitAmendCheckbox, E.Event.CommitAmendEnabled)];
      } else {
        sent := sent + [(E.Source.CommitAmendCheckbox, E.Event.CommitAmendDisabled)];
      }
    }

    /** After an amend the box is unselected. */
    method OnAmendedCommit()
      modifies this
      ensures IsUnselected()
      ensures sent == old(sent) + (if old(active) then [(E.Source.CommitAmendCheckbox, E.Event.Toggled(false))] else [])
      ensures sensitive == old(sensitive) && tooltip == old(tooltip)
    {
      Unselect();
    }
  }
}
