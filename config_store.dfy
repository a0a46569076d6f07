/** The configuration store (`config_store.rs`): keeps the configuration
    up to date with pane positions, window maximization, the active page and
    the commit-log filters as their messages arrive, and writes it out when
    the application quits. Reading and writing the settings file are left
    out; a write is recorded as the configuration written. */
module ConfigStore {
  import opened Config
  import E = Events

  /** The messages the store answers; any other makes the program panic.
      Pane positions are taken only from the three panes. */
  predicate Handles(source: E.Source, event: E.Event)
  {
    match event
    case PositionChanged(_) =>
      source == E.Source.DiffAndCommitPane || source == E.Source.FileChangesPane || source == E.Source.MainPane
    case ActivePageChanged(_) => true
    case FiltersUpdated(_) => true
    case MaximizationChanged(_) => true
    case QuitRequested => true
    case _ => false
  }

  /** The configuration after one message: a position goes to the pane that
      sent it, the filters are replaced wholesale, maximization and the
      active page are set, and quitting changes nothing. */
  function Updated(config: Config, source: E.Source, event: E.Event): (r: Config)
    requires Handles(source, event)
    ensures event.PositionChanged? && source == E.Source.DiffAndCommitPane ==>
              r == config.(diffAndCommitPane := DiffAndCommitPane(event.position))
    ensures event.PositionChanged? && source == E.Source.FileChangesPane ==>
              r == config.(fileChangesPane := FileChangesPane(event.position))
    ensures event.PositionChanged? && source == E.Source.MainPane ==>
              r == config.(mainPane := MainPane(event.position))
    ensures event.ActivePageChanged? ==> r == config.(mainStack := MainStack(event.name))
    ensures event.FiltersUpdated? ==> r == config.(commitLogFilters := event.filters)
    ensures event.MaximizationChanged? ==> r == config.(applicationWindow := ApplicationWindow(event.isMaximized))
    ensures event.QuitRequested? ==> r == config
    ensures r.repository == config.repository
  {
    match event
    case PositionChanged(position) =>
      if source == E.Source.DiffAndCommitPane then config.(diffAndCommitPane := DiffAndCommitPane(position))
      else if source == E.Source.FileChangesPane then config.(fileChangesPane := FileChangesPane(position))
      else config.(mainPane := MainPane(position))
    case ActivePageChanged(name) => config.(mainStack := MainStack(name))
    case FiltersUpdated(filters) => config.(commitLogFilters := filters)
    case MaximizationChanged(isMaximized) => config.(applicationWindow := ApplicationWindow(isMaximized))
    case QuitRequested => config
  }

  /** Handling the same message twice leaves the configuration as handling
      it once. */
  lemma UpdateIsIdempotent(config: Config, source: E.Source, event: E.Event)
    requires Handles(source, event)
    ensures Updated(Updated(config, source, event), source, event) == Updated(config, source, event)
  {
  }

  /** A filter list whose active index is in range keeps the stored one
      in range. */
  lemma UpdateKeepsActiveInRange(config: Config, source: E.Source, event: E.Event)
    requires Handles(source, event) && ActiveInRange(config.commitLogFilters)
    requires event.FiltersUpdated? ==> ActiveInRange(event.filters)
    ensures ActiveInRange(Updated(config, source, event).commitLogFilters)
  {
  }

  class ConfigStore {
    var config: Config
    /** The configurations written to the settings file, oldest first. */
    var written: seq<Config>

    /** Starts from the configuration read from the settings file. */
    constructor (config: Config)
      ensures this.config == config && written == []
    {
      this.config := config;
      written := [];
    }

    function GetConfig(): Config
      reads this
    {
      config
    }

    method Handle(source: E.Source, event: E.Event)
      requires Handles(source, event)
      modifies this
      ensures config == Updated(old(config), source, event)
      ensures written == old(written) + (if event.QuitRequested? then [config] else [])
    {
      match event {
        case PositionChanged(position) =>
          if source == E.Source.DiffAndCommitPane {
            OnDiffAndCommitPanePositionChanged(position);
          } else if source == E.Source.FileChangesPane {
            OnFileChangesPanePositionChanged(position);
          } else {
            OnMainPanePositionChanged(position);
          }
        case ActivePageChanged(name) => OnMainStackActivePageChanged(name);
        case FiltersUpdated(filters) => OnFiltersUpdated(filters);
        case MaximizationChanged(isMaximized) => OnMaximizationChanged(isMaximized);
        case QuitRequested => OnQuitRequested();
      }
    }

    method OnDiffAndCommitPanePositionChanged(position: PanePosition)
      modifies this
      ensures config == old(config).(diffAndCommitPane := DiffAndCommitPane(position)) && written == old(written)
    {
      if config.diffAndCommitPane.position == position {
        return;
      }
      config := config.(diffAndCommitPane := config.diffAndCommitPane.(position := position));
    }

    method OnFileChangesPanePositionChanged(position: PanePosition)
      modifies this
      ensures config == old(config).(fileChangesPane := FileChangesPane(position)) && written == old(written)
    {
      if config.fileChangesPane.position == position {
        return;
      }
      config := config.(fileChangesPane := config.fileChangesPane.(position := position));
    }

    method OnMainPanePositionChanged(position: PanePosition)
      modifies this
      ensures config == old(config).(mainPane := MainPane(position)) && written == old(written)
    {
      if config.mainPane.position == position {
        return;
      }
      config := config.(mainPane := config.mainPane.(position := position));
    }

    method OnFiltersUpdated(filters: CommitLogFilters)
      modifies this
      ensures config == old(config).(commitLogFilters := filters) && written == old(written)
    {
      config := config.(commitLogFilters := filters);
    }

    method OnMaximizationChanged(isMaximized: bool)
      modifies this
      ensures config == old(config).(applicationWindow := ApplicationWindow(isMaximized)) && written == old(written)
    {
      if config.applicationWindow.isMaximized == isMaximized {
        return;
      }
      config := config.(applicationWindow := config.applicationWindow.(isMaximized := isMaximized));
    }

    /** Quitting writes the configuration out. */
    method OnQuitRequested()
      modifies this
      ensures config == old(config) && written == old(written) + [config]
    {
      written := written + [config];
    }

    method OnMainStackActivePageChanged(name: string)
      modifies this
      ensures config == old(config).(mainStack := MainStack(name)) && written == old(written)
    {
      config := config.(mainStack := config.mainStack.(activePage := name));
    }
  }
}
