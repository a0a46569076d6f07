/** The saved commit-log filters and the edits pending on the active one
    (`commit_log_filters.rs`). Every edit of a filter widget is kept as an
    override of one field of the active filter; saving under a name either
    overwrites the filter of that name or adds a new one, with the overrides
    merged in. What the filters send is appended to a log. */
module CommitLogFilters {
  import opened Wrappers
  import Config
  import E = Events

  /** The pending overrides of one text filter, one per field. */
  datatype TextFilterChanges = TextFilterChanges(pattern: Option<string>, caseSensitive: Option<bool>, usesRegex: Option<bool>)

  const NO_CHANGES: TextFilterChanges := TextFilterChanges(None, None, None)

  /** The index of the active filter and the overrides pending on it. */
  datatype CurrentFilter = CurrentFilter(index: nat, summaryFilterChanges: TextFilterChanges, authorFilterChanges: TextFilterChanges)

  /** The active filter at `index`, with no override pending. */
  function NewCurrentFilter(index: nat): CurrentFilter
  {
    CurrentFilter(index, NO_CHANGES, NO_CHANGES)
  }

  /** The override an entered value makes of a stored one: none when they
      agree. */
  function Override<T(==)>(stored: T, entered: T): (r: Option<T>)
    ensures r.None? <==> entered == stored
    ensures r.Some? ==> r.value == entered
  {
    if stored == entered then None else Some(entered)
  }

  function UnwrapOr<T>(o: Option<T>, default: T): T
  {
    match o
    case Some(v) => v
    case None => default
  }

  /** The stored filter with the overrides applied: each field comes from its
      override when there is one, else from the stored filter. */
  function Merge(base: Config.TextFilter, changes: TextFilterChanges): (m: Config.TextFilter)
    ensures changes.pattern.Some? ==> m.pattern == changes.pattern.value
    ensures changes.pattern.None? ==> m.pattern == base.pattern
    ensures changes.caseSensitive.Some? ==> m.caseSensitive == changes.caseSensitive.value
    ensures changes.caseSensitive.None? ==> m.caseSensitive == base.caseSensitive
    ensures changes.usesRegex.Some? ==> m.usesRegex == changes.usesRegex.value
    ensures changes.usesRegex.None? ==> m.usesRegex == base.usesRegex
  {
    Config.TextFilter(UnwrapOr(changes.pattern, base.pattern),
                      UnwrapOr(changes.caseSensitive, base.caseSensitive),
                      UnwrapOr(changes.usesRegex, base.usesRegex))
  }

  /** Merging after entering values gives the values entered, whether or not
      an override had to be kept for them. */
  lemma MergeGivesEntered(base: Config.TextFilter, pattern: string, caseSensitive: bool, usesRegex: bool)
    ensures var changes := TextFilterChanges(Override(base.pattern, pattern),
                                             Override(base.caseSensitive, caseSensitive),
                                             Override(base.usesRegex, usesRegex));
            Merge(base, changes) == Config.TextFilter(pattern, caseSensitive, usesRegex)
  {
  }

  /** The position of the first filter named `name`, if any. */
  function FindByName(filters: seq<Config.CommitLogFilter>, name: string): (r: Option<nat>)
    ensures r.None? <==> forall i :: 0 <= i < |filters| ==> filters[i].name != name
    ensures r.Some? ==> r.value < |filters| && filters[r.value].name == name
                        && forall i :: 0 <= i < r.value ==> filters[i].name != name
  {
    if filters == [] then None
    else if filters[0].name == name then Some(0)
    else match FindByName(filters[1..], name)
      case None => None
      case Some(i) => Some(i + 1)
  }

  /** The (source, event) pairs the filters handle; any other panics. */
  predicate Handles(source: E.Source, event: E.Event)
  {
    match event
    case Toggled(_) => source in {E.CommitLogAuthorFilterCaseButton, E.CommitLogAuthorFilterRegexButton,
                                  E.CommitLogSummaryFilterCaseButton, E.CommitLogSummaryFilterRegexButton}
    case TextEntered(_) => source in {E.CommitLogAuthorFilterEntry, E.CommitLogSummaryFilterEntry}
    case ActiveFilterChosen(_) => true
    case FilterNameChosen(_) => true
    case _ => false
  }

  class CommitLogFilters {
    var currentFilter: CurrentFilter
    var filters: seq<Config.CommitLogFilter>
    /** The messages sent, oldest first. */
    var sent: seq<E.Message>

    /** The active index names a filter. */
    predicate Valid()
      reads this
    {
      currentFilter.index < |filters|
    }

    function Active(): Config.CommitLogFilter
      requires Valid()
      reads this
    {
      filters[currentFilter.index]
    }

    /** The filters as saved in the settings, with the active one current
        and no override; the author filter of the active one is announced.
        An active index outside the list panics, which the precondition rules
        out. */
    constructor (config: Config.CommitLogFilters)
      requires Config.ActiveInRange(config)
      ensures Valid()
      ensures currentFilter == NewCurrentFilter(config.active) && filters == config.filters
      ensures sent == [(E.Source.CommitLogFilters, E.ActiveFilterDataSwitched(filters[config.active].authorFilter))]
    {
      currentFilter := NewCurrentFilter(config.active);
      filters := config.filters;
      sent := [];
      new;
      NotifyActiveFilterDataSwitched();
    }

    function MergedSummaryFilter(): Config.TextFilter
      requires Valid()
      reads this
    {
      Merge(Active().summaryFilter, currentFilter.summaryFilterChanges)
    }

    function MergedAuthorFilter(): Config.TextFilter
      requires Valid()
      reads this
    {
      Merge(Active().authorFilter, currentFilter.authorFilterChanges)
    }

    /** The value the `FiltersUpdated` event carries. */
    function Snapshot(): Config.CommitLogFilters
      reads this
    {
      Config.CommitLogFilters(currentFilter.index, filters)
    }

    method NotifyActiveFilterDataSwitched()
      requires Valid()
      modifies this
      ensures currentFilter == old(currentFilter) && filters == old(filters) && Valid()
      ensures sent == old(sent) + [(E.Source.CommitLogFilters, E.ActiveFilterDataSwitched(Active().authorFilter))]
    {
      sent := sent + [(E.Source.CommitLogFilters, E.ActiveFilterDataSwitched(Active().authorFilter))];
    }

    method NotifyFiltersUpdated()
      modifies this
      ensures sent == old(sent) + [(E.Source.CommitLogFilters, E.FiltersUpdated(Snapshot()))]
      ensures currentFilter == old(currentFilter) && filters == old(filters)
    {
      sent := sent + [(E.Source.CommitLogFilters, E.FiltersUpdated(Snapshot()))];
    }

    /** Another filter was chosen in the combo box: it becomes active with no
        override, and its author filter and the filters are announced;
        choosing the active one does nothing. A new index outside the list
        panics, which the precondition rules out. */
    method OnActiveFilterChosen(index: nat)
      requires Valid()
      requires index != currentFilter.index ==> index < |filters|
      modifies this
      ensures Valid() && filters == old(filters)
      ensures index == old(currentFilter.index) ==> currentFilter == old(currentFilter) && sent == old(sent)
      ensures index != old(currentFilter.index) ==>
                currentFilter == NewCurrentFilter(index)
                && sent == old(sent) + [(E.Source.CommitLogFilters, E.ActiveFilterDataSwitched(filters[index].authorFilter)),
                                        (E.Source.CommitLogFilters, E.FiltersUpdated(Config.CommitLogFilters(index, filters)))]
    {
      if currentFilter.index == index {
        return;
      }
      currentFilter := NewCurrentFilter(index);
      NotifyActiveFilterDataSwitched();
      NotifyFiltersUpdated();
    }

    method OnAuthorCaseButtonToggled(isEnabled: bool)
      requires Valid()
      modifies this
      ensures Valid() && filters == old(filters) && sent == old(sent)
      ensures currentFilter == old(currentFilter).(authorFilterChanges := old(currentFilter.authorFilterChanges).(
                                 caseSensitive := Override(old(Active().authorFilter.caseSensitive), isEnabled)))
    {
      var changes := currentFilter.authorFilterChanges;
      if Active().authorFilter.caseSensitive == isEnabled {
        currentFilter := currentFilter.(authorFilterChanges := changes.(caseSensitive := None));
      } else {
        currentFilter := currentFilter.(authorFilterChanges := changes.(caseSensitive := Some(isEnabled)));
      }
    }

    method OnAuthorRegexButtonToggled(isEnabled: bool)
      requires Valid()
      modifies this
      ensures Valid() && filters == old(filters) && sent == old(sent)
      ensures currentFilter == old(currentFilter).(authorFilterChanges := old(currentFilter.authorFilterChanges).(
                                 usesRegex := Override(old(Active().authorFilter.usesRegex), isEnabled)))
    {
      var changes := currentFilter.authorFilterChanges;
      if Active().authorFilter.usesRegex == isEnabled {
        currentFilter := currentFilter.(authorFilterChanges := changes.(usesRegex := None));
      } else {
        currentFilter := currentFilter.(authorFilterChanges := changes.(usesRegex := Some(isEnabled)));
      }
    }

    method OnAuthorTextEntered(text: string)
      requires Valid()
      modifies this
      ensures Valid() && filters == old(filters) && sent == old(sent)
      ensures currentFilter == old(currentFilter).(authorFilterChanges := old(currentFilter.authorFilterChanges).(
                                 pattern := Override(old(Active().authorFilter.pattern), text)))
    {
      var changes := currentFilter.authorFilterChanges;
      if Active().authorFilter.pattern == text {
        currentFilter := currentFilter.(authorFilterChanges := changes.(pattern := None));
      } else {
        currentFilter := currentFilter.(authorFilterChanges := changes.(pattern := Some(text)));
      }
    }

    method OnSummaryCaseButtonToggled(isEnabled: bool)
      requires Valid()
      modifies this
      ensures Valid() && filters == old(filters) && sent == old(sent)
      ensures currentFilter == old(currentFilter).(summaryFilterChanges := old(currentFilter.summaryFilterChanges).(
                                 caseSensitive := Override(old(Active().summaryFilter.caseSensitive), isEnabled)))
    {
      var changes := currentFilter.summaryFilterChanges;
      if Active().summaryFilter.caseSensitive == isEnabled {
        currentFilter := currentFilter.(summaryFilterChanges := changes.(caseSensitive := None));
      } else {
        currentFilter := currentFilter.(summaryFilterChanges := changes.(caseSensitive := Some(isEnabled)));
      }
    }

    method OnSummaryRegexButtonToggled(isEnabled: bool)
      requires Valid()
      modifies this
      ensures Valid() && filters == old(filters) && sent == old(sent)
      ensures currentFilter == old(currentFilter).(summaryFilterChanges := old(currentFilter.summaryFilterChanges).(
                                 usesRegex := Override(old(Active().summaryFilter.usesRegex), isEnabled)))
    {
      var changes := currentFilter.summaryFilterChanges;
      if Active().summaryFilter.usesRegex == isEnabled {
        currentFilter := currentFilter.(summaryFilterChanges := changes.(usesRegex := None));
      } else {
        currentFilter := currentFilter.(summaryFilterChanges := changes.(usesRegex := Some(isEnabled)));
      }
    }

    method OnSummaryTextEntered(text: string)
      requires Valid()
      modifies this
      ensures Valid() && filters == old(filters) && sent == old(sent)
      ensures currentFilter == old(currentFilter).(summaryFilterChanges := old(currentFilter.summaryFilterChanges).(
                                 pattern := Override(old(Active().summaryFilter.pattern), text)))
    {
      var changes := currentFilter.summaryFilterChanges;
      if Active().summaryFilter.pattern == text {
        currentFilter := currentFilter.(summaryFilterChanges := changes.(pattern := None));
      } else {
        currentFilter := currentFilter.(summaryFilterChanges := changes.(pattern := Some(text)));
      }
    }

    /** Appends a filter named `name` holding the merged active filter and
        makes it active with no override. */
    method AddFilter(name: string)
      requires Valid()
      modifies this
      ensures Valid() && sent == old(sent)
      ensures filters == old(filters) + [Config.CommitLogFilter(name, old(MergedSummaryFilter()), old(MergedAuthorFilter()))]
      ensures currentFilter == NewCurrentFilter(|old(filters)|)
    {
      var newFilter := Config.CommitLogFilter(name, MergedSummaryFilter(), MergedAuthorFilter());
      filters := filters + [newFilter];
      currentFilter := NewCurrentFilter(|filters| - 1);
    }

    /** Overwrites the summary and author filters of the filter at `index`
        with the merged active filter, keeps its name, and makes it active
        with no override. */
    method UpdateFilter(index: nat)
      requires Valid() && index < |filters|
      modifies this
      ensures Valid() && sent == old(sent)
      ensures filters == old(filters)[index := Config.CommitLogFilter(old(filters[index].name),
                                                                      old(MergedSummaryFilter()), old(MergedAuthorFilter()))]
      ensures currentFilter == NewCurrentFilter(index)
    {
      var summary := MergedSummaryFilter();
      filters := filters[index := filters[index].(summaryFilter := summary)];
      var author := MergedAuthorFilter();
      filters := filters[index := filters[index].(authorFilter := author)];
      currentFilter := NewCurrentFilter(index);
    }

    /** Saves the merged active filter under `name`: over the first filter of
        that name, announcing a switch when that is not the active one, or as
        a new filter, announcing it; either way the filters are announced. */
    method OnFilterNameChosen(name: string)
      requires Valid()
      modifies this
      ensures Valid() && |filters| >= |old(filters)|
      ensures match FindByName(old(filters), name)
        case Some(index) =>
          && filters == old(filters)[index := Config.CommitLogFilter(name, old(MergedSummaryFilter()), old(MergedAuthorFilter()))]
          && currentFilter == NewCurrentFilter(index)
          && sent == old(sent)
                     + (if index != old(currentFilter.index)
                        then [(E.Source.CommitLogFilters, E.ActiveFilterSwitched(index))] else [])
                     + [(E.Source.CommitLogFilters, E.FiltersUpdated(Config.CommitLogFilters(index, filters)))]
        case None =>
          && filters == old(filters) + [Config.CommitLogFilter(name, old(MergedSummaryFilter()), old(MergedAuthorFilter()))]
          && currentFilter == NewCurrentFilter(|old(filters)|)
          && sent == old(sent) + [(E.Source.CommitLogFilters, E.FilterAdded(name)),
                                  (E.Source.CommitLogFilters, E.FiltersUpdated(Config.CommitLogFilters(|old(filters)|, filters)))]
    {
      match FindByName(filters, name) {
        case Some(index) =>
          var isFilterSwitchNeeded := currentFilter.index != index;
          UpdateFilter(index);
          if isFilterSwitchNeeded {
            sent := sent + [(E.Source.CommitLogFilters, E.ActiveFilterSwitched(index))];
          }
          NotifyFiltersUpdated();
        case None =>
          AddFilter(name);
          sent := sent + [(E.Source.CommitLogFilters, E.FilterAdded(name))];
          NotifyFiltersUpdated();
      }
    }

    /** Dispatches the (source, event) pairs of `Handles`: each leaves the
        filters, the current filter and the log as its handler does. */
    method Handle(source: E.Source, event: E.Event)
      requires Valid() && Handles(source, event)
      requires event.ActiveFilterChosen? && event.index != currentFilter.index ==> event.index < |filters|
      modifies this
      ensures Valid() && |filters| >= |old(filters)|
      ensures event.Toggled? || event.TextEntered? ==> filters == old(filters) && sent == old(sent)
      ensures event.Toggled? && source == E.CommitLogAuthorFilterCaseButton ==>
                currentFilter == old(currentFilter).(authorFilterChanges := old(currentFilter.authorFilterChanges).(
                                   caseSensitive := Override(old(Active().authorFilter.caseSensitive), event.isEnabled)))
      ensures event.Toggled? && source == E.CommitLogAuthorFilterRegexButton ==>
                currentFilter == old(currentFilter).(authorFilterChanges := old(currentFilter.authorFilterChanges).(
                                   usesRegex := Override(old(Active().authorFilter.usesRegex), event.isEnabled)))
      ensures event.Toggled? && source == E.CommitLogSummaryFilterCaseButton ==>
                currentFilter == old(currentFilter).(summaryFilterChanges := old(currentFilter.summaryFilterChanges).(
                                   caseSensitive := Override(old(Active().summaryFilter.caseSensitive), event.isEnabled)))
      ensures event.Toggled? && source == E.CommitLogSummaryFilterRegexButton ==>
                currentFilter == old(currentFilter).(summaryFilterChanges := old(currentFilter.summaryFilterChanges).(
                                   usesRegex := Override(old(Active().summaryFilter.usesRegex), event.isEnabled)))
      ensures event.TextEntered? && source == E.CommitLogAuthorFilterEntry ==>
                currentFilter == old(currentFilter).(authorFilterChanges := old(currentFilter.authorFilterChanges).(
                                   pattern := Override(old(Active().authorFilter.pattern), event.text)))
      ensures event.TextEntered? && source == E.CommitLogSummaryFilterEntry ==>
                currentFilter == old(currentFilter).(summaryFilterChanges := old(currentFilter.summaryFilterChanges).(
                                   pattern := Override(old(Active().summaryFilter.pattern), event.text)))
      ensures event.ActiveFilterChosen? ==> filters == old(filters)
      ensures event.ActiveFilterChosen? && event.index == old(currentFilter.index) ==>
                currentFilter == old(currentFilter) && sent == old(sent)
      ensures event.ActiveFilterChosen? && event.index != old(currentFilter.index) ==>
                currentFilter == NewCurrentFilter(event.index)
                && sent == old(sent) + [(E.Source.CommitLogFilters, E.ActiveFilterDataSwitched(filters[event.index].authorFilter)),
                                        (E.Source.CommitLogFilters, E.FiltersUpdated(Config.CommitLogFilters(event.index, filters)))]
      ensures event.FilterNameChosen? ==>
        match FindByName(old(filters), event.filterName)
        case Some(index) =>
          && filters == old(filters)[index := Config.CommitLogFilter(event.filterName, old(MergedSummaryFilter()), old(MergedAuthorFilter()))]
          && currentFilter == NewCurrentFilter(index)
          && sent == old(sent)
                     + (if index != old(currentFilter.index)
                        then [(E.Source.CommitLogFilters, E.ActiveFilterSwitched(index))] else [])
                     + [(E.Source.CommitLogFilters, E.FiltersUpdated(Config.CommitLogFilters(index, filters)))]
        case None =>
          && filters == old(filters) + [Config.CommitLogFilter(event.filterName, old(MergedSummaryFilter()), old(MergedAuthorFilter()))]
          && currentFilter == NewCurrentFilter(|old(filters)|)
          && sent == old(sent) + [(E.Source.CommitLogFilters, E.FilterAdded(event.filterName)),
                                  (E.Source.CommitLogFilters, E.FiltersUpdated(Config.CommitLogFilters(|old(filters)|, filters)))]
    {
      match event {
        case Toggled(isEnabled) =>
          if source == E.CommitLogAuthorFilterCaseButton {
            OnAuthorCaseButtonToggled(isEnabled);
          } else if source == E.CommitLogAuthorFilterRegexButton {
            OnAuthorRegexButtonToggled(isEnabled);
          } else if source == E.CommitLogSummaryFilterCaseButton {
            OnSummaryCaseButtonToggled(isEnabled);
          } else {
            OnSummaryRegexButtonToggled(isEnabled);
          }
        case TextEntered(text) =>
          if source == E.CommitLogAuthorFilterEntry {
            OnAuthorTextEntered(text);
          } else {
            OnSummaryTextEntered(text);
          }
        case ActiveFilterChosen(index) =>
          OnActiveFilterChosen(index);
        case FilterNameChosen(name) =>
          OnFilterNameChosen(name);
      }
    }
  }

  /** With no override pending the merge is the stored filter. */
  lemma MergeWithoutChanges(base: Config.TextFilter)
    ensures Merge(base, NO_CHANGES) == base
  {
  }
}
