/** The messages the widgets and models send each other through the main
    loop's channel (`event.rs`). A send is modelled as appending a
    `(Source, Event)` pair to the sender's log. */
module Events {
  import Config

  datatype Source =
    | ApplicationWindow
    | CommitAmendCheckbox
    | CommitButton
    | CommitDiffViewWidget
    | CommitLogAuthorFilterEntry
    | CommitLogAuthorFilterCaseButton
    | CommitLogAuthorFilterRegexButton
    | CommitLogFilters
    | CommitLogFiltersComboBox
    | CommitLogModelFilter
    | CommitLogSaveFilterButton
    | CommitLogSaveFilterDialog
    | CommitLogSaveFilterDialogWidget
    | CommitLogShowFilterButton
    | CommitLogSummaryFilterCaseButton
    | CommitLogSummaryFilterEntry
    | CommitLogSummaryFilterRegexButton
    | CommitLogView
    | CommitLogViewWidget
    | CommitMessageView
    | DiffAndCommitPane
    | DiffView
    | FileChangesPane
    | MainPane
    | MainStack
    | RefreshButton
    | Repository
    | StagedChangesStore
    | StagedChangesView
    | UnstagedChangesStore
    | UnstagedChangesView

  /** The answer a dialog gives when it is closed. */
  datatype ResponseType = Apply | Cancel | DeleteEvent | OtherResponse(code: int)

  /** The events the modelled handlers receive or send. */
  datatype Event =
    | MaximizationChanged(isMaximized: bool)
    | QuitRequested
    | AmendedCommit
    | Committed
    | Clicked
    | Toggled(isEnabled: bool)
    | CommitAmendEnabled
    | CommitAmendDisabled
    | RefilterRequested
    | RefilterEnded
    | PositionChanged(position: Config.PanePosition)
    | ActivePageChanged(name: string)
    | TextEntered(text: string)
    | ActiveFilterChosen(index: nat)
    | ActiveFilterDataSwitched(authorFilter: Config.AuthorFilter)
    | ActiveFilterSwitched(switchedTo: nat)
    | FilterNameChosen(filterName: string)
    | FilterAdded(addedName: string)
    | FiltersUpdated(filters: Config.CommitLogFilters)
    | OpenDialogRequested
    | DialogResponded(response: ResponseType)

  type Message = (Source, Event)
}
