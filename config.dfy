/** The persisted settings of the application (`config.rs`): the record types
    and the values a missing setting takes. */
module Config {

  /** A signed 32-bit pane position. */
  type PanePosition = x: int | -0x8000_0000 <= x < 0x8000_0000

  /** An unsigned 32-bit count. */
  type U32 = x: int | 0 <= x < 0x1_0000_0000

  datatype ApplicationWindow = ApplicationWindow(isMaximized: bool)

  datatype RepositorySettings = RepositorySettings(diffContextSize: U32)

  datatype MainStack = MainStack(activePage: string)

  datatype MainPane = MainPane(position: PanePosition)

  datatype FileChangesPane = FileChangesPane(position: PanePosition)

  datatype DiffAndCommitPane = DiffAndCommitPane(position: PanePosition)

  /** The settings of one text filter; the summary and the author filters
      share this shape. */
  datatype TextFilter = TextFilter(pattern: string, caseSensitive: bool, usesRegex: bool)

  type SummaryFilter = TextFilter

  type AuthorFilter = TextFilter

  datatype CommitLogFilter = CommitLogFilter(name: string, summaryFilter: SummaryFilter, authorFilter: AuthorFilter)

  /** The saved commit-log filters and the index of the one in use. */
  datatype CommitLogFilters = CommitLogFilters(active: nat, filters: seq<CommitLogFilter>)

  datatype Config = Config(
    applicationWindow: ApplicationWindow,
    repository: RepositorySettings,
    mainStack: MainStack,
    mainPane: MainPane,
    fileChangesPane: FileChangesPane,
    diffAndCommitPane: DiffAndCommitPane,
    commitLogFilters: CommitLogFilters)

  /** The active index names one of the filters. */
  predicate ActiveInRange(f: CommitLogFilters)
  {
    f.active < |f.filters|
  }

  /** The name under which the built-in filter is stored; the save dialog
      refuses it. */
  const NO_FILTER_NAME: string := "No filter"

  function DefaultApplicationWindow(): ApplicationWindow
  {
    ApplicationWindow(true)
  }

  function DefaultRepositorySettings(): RepositorySettings
  {
    RepositorySettings(3)
  }

  function DefaultMainStack(): MainStack
  {
    MainStack("Current changes")
  }

  function DefaultMainPane(): MainPane
  {
    MainPane(200)
  }

  function DefaultFileChangesPane(): FileChangesPane
  {
    FileChangesPane(200)
  }

  function DefaultDiffAndCommitPane(): DiffAndCommitPane
  {
    DiffAndCommitPane(450)
  }

  /** `TextFilter::default()`: no pattern, case-insensitive, plain text. */
  function DefaultTextFilter(): TextFilter
  {
    TextFilter("", false, false)
  }

  /** One filter, "No filter", which is active. */
  function DefaultCommitLogFilters(): (f: CommitLogFilters)
    ensures ActiveInRange(f)
    ensures |f.filters| == 1 && f.filters[f.active].name == NO_FILTER_NAME
    ensures f.filters[f.active].authorFilter == f.filters[f.active].summaryFilter == DefaultTextFilter()
  {
    CommitLogFilters(0, [CommitLogFilter(NO_FILTER_NAME, DefaultTextFilter(), DefaultTextFilter())])
  }

  /** The configuration used when the settings file has no entry for a
      section: every section takes its default. */
  function DefaultConfig(): (c: Config)
    ensures ActiveInRange(c.commitLogFilters)
  {
    Config(DefaultApplicationWindow(), DefaultRepositorySettings(), DefaultMainStack(), DefaultMainPane(),
           DefaultFileChangesPane(), DefaultDiffAndCommitPane(), DefaultCommitLogFilters())
  }

  /** The default values, section by section. */
  lemma DefaultValues()
    ensures DefaultConfig().applicationWindow.isMaximized
    ensures DefaultConfig().repository.diffContextSize == 3
    ensures DefaultConfig().mainStack.activePage == "Current changes"
    ensures DefaultConfig().mainPane.position == 200
    ensures DefaultConfig().fileChangesPane.position == 200
    ensures DefaultConfig().diffAndCommitPane.position == 450
    ensures var t := DefaultTextFilter(); t.pattern == "" && !t.caseSensitive && !t.usesRegex
  {
  }
}
