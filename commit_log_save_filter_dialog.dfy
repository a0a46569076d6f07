/** The dialog that saves the current commit-log filter under a name
    (`commit_log_save_filter_dialog.rs`). While open it holds its widgets:
    the name entry's text and whether the Save button can be pressed. */
module CommitLogSaveFilterDialog {
  import opened Wrappers
  import Config
  import E = Events

  /** The open dialog's widgets: the name typed so far and the Save
      button's sensitivity. */
  datatype Widgets = Widgets(filterName: string, saveEnabled: bool)

  /** A name can be saved when it is not empty and is not the name of the
      built-in empty filter. */
  predicate CanSave(name: string)
  {
    name != "" && name != Config.NO_FILTER_NAME
  }

  lemma CanSaveRule(name: string)
    ensures CanSave(name) ==> |name| > 0
    ensures !CanSave(name) <==> name == "" || name == Config.NO_FILTER_NAME
    ensures !CanSave(Config.DefaultCommitLogFilters().filters[0].name)
  {
  }

  /** The messages the dialog answers; any other makes the program panic. */
  predicate Handles(event: E.Event)
  {
    event.DialogResponded? || event.OpenDialogRequested? || event.TextEntered?
  }

  class CommitLogSaveFilterDialog {
    /** `None` while the dialog is closed. */
    var widgets: Option<Widgets>
    /** The messages sent, oldest first. */
    var sent: seq<E.Message>

    /** A new dialog is closed. */
    constructor ()
      ensures widgets == None && sent == []
    {
      widgets := None;
      sent := [];
    }

    predicate IsOpen()
      reads this
    {
      widgets.Some?
    }

    method Handle(source: E.Source, event: E.Event)
      requires Handles(event)
      modifies this
      ensures event.OpenDialogRequested? ==> widgets == Some(Widgets("", false)) && sent == old(sent)
      ensures event.TextEntered? ==>
                sent == old(sent)
                && (old(widgets).None? ==> widgets == None)
                && (old(widgets).Some? ==> widgets == Some(old(widgets).value.(saveEnabled := CanSave(event.text))))
      ensures event.DialogResponded? ==>
                widgets == None
                && sent == old(sent) + (if event.response.Apply? && old(widgets).Some?
                                        then [(E.Source.CommitLogSaveFilterDialog, E.Event.FilterNameChosen(old(widgets).value.filterName))]
                                        else [])
    {
      match event {
        case DialogResponded(response) => OnDialogResponded(response);
        case OpenDialogRequested => OnOpenDialogRequested();
        case TextEntered(text) => OnTextEntered(text);
      }
    }

    /** Opens the dialog with an empty name and Save disabled. */
    method OnOpenDialogRequested()
      modifies this
      ensures widgets == Some(Widgets("", false)) && sent == old(sent)
    {
      widgets := Some(Widgets("", false));
    }

    /** The user types into the name entry, whose change signal reports the
        entry's text. Nothing happens while the dialog is closed. */
    method TypeFilterName(text: string)
      modifies this
      ensures old(widgets).None? ==> widgets == None && sent == old(sent)
      ensures old(widgets).Some? ==>
                widgets == Some(old(widgets).value.(filterName := text))
                && sent == old(sent) + [(E.Source.CommitLogSaveFilterDialogWidget, E.Event.TextEntered(text))]
    {
      if widgets.Some? {
        widgets := Some(widgets.value.(filterName := text));
        sent := sent + [(E.Source.CommitLogSaveFilterDialogWidget, E.Event.TextEntered(text))];
      }
    }

    method OnDialogResponded(response: E.ResponseType)
      modifies this
      ensures widgets == None
      ensures sent == old(sent) + (if response.Apply? && old(widgets).Some?
                                   then [(E.Source.CommitLogSaveFilterDialog, E.Event.FilterNameChosen(old(widgets).value.filterName))]
                                   else [])
    {
      match response {
        case Apply => OnSaveDialog();
        case Cancel => OnCancelDialog();
        case DeleteEvent => OnDialogDeleted();
        case OtherResponse(_) => OnUnknownDialogResponse(response);
      }
    }

    /** Save can be pressed exactly when the entered name can be saved;
        while closed nothing changes. */
    method OnTextEntered(text: string)
      modifies this
      ensures old(widgets).None? ==> widgets == None
      ensures old(widgets).Some? ==> widgets == Some(old(widgets).value.(saveEnabled := CanSave(text)))
      ensures sent == old(sent)
    {
      match widgets {
        case Some(w) => widgets := Some(w.(saveEnabled := !(text == "") && text != Config.NO_FILTER_NAME));
        case None => return;
      }
    }

    /** Sends the entered name as the name chosen, then closes; while
        closed nothing happens. */
    method OnSaveDialog()
      modifies this
      ensures widgets == None
      ensures old(widgets).Some? ==>
                sent == old(sent) + [(E.Source.CommitLogSaveFilterDialog, E.Event.FilterNameChosen(old(widgets).value.filterName))]
      ensures old(widgets).None? ==> sent == old(sent)
    {
      match widgets {
        case Some(w) =>
          var filterName := w.filterName;
          sent := sent + [(E.Source.CommitLogSaveFilterDialog, E.Event.FilterNameChosen(filterName))];
          Close();
        case None => return;
      }
    }

    method OnCancelDialog()
      modifies this
      ensures widgets == None && sent == old(sent)
    {
      Close();
    }

    method OnDialogDeleted()
      modifies this
      ensures widgets == None && sent == old(sent)
    {
      widgets := None;
    }

    /** The response is logged and the dialog closed. */
    method OnUnknownDialogResponse(response: E.ResponseType)
      modifies this
      ensures widgets == None && sent == old(sent)
    {
      Close();
    }

    method Close()
      modifies this
      ensures widgets == None && sent == old(sent)
    {
      if widgets.Some? {
        widgets := None;
      }
    }
  }
}
