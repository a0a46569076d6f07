# rusty-git-gui core, modelled in Dafny

rusty-git-gui is a small GTK front end for git. It lists the changed files of a
repository in an unstaged and a staged view. Activating a row moves that change to
the other view. The diff of the selected change appears, coloured, in a diff view.
A commit is made from a message view, and an amend checkbox turns the commit into
an amend of the last one. A second page shows the commit log. Its author and
summary filters can be saved in the settings under a name. The settings file holds
pane positions, the maximised state, the active page and the saved filters. A
helper script, `sum_cargo_tests.py`, adds running totals to the output of
`cargo test`.

The model has one Dafny module per core source file, named after that file, plus
a few shared modules:

- `Wrappers`: `Option` and `Result`.
- `Text`: the string functions of Rust's standard library that the core uses (`lines`, `split`, `replace`, `trim`, `to_lowercase`, `starts_with`, `contains`), written out over `seq<char>`.
- `Events`: the part of `event.rs` the modelled handlers send and receive.
- `FileChanges`: a file change row and the list store of rows that the file-change views show.
- `Regex`: a regex engine, passed in as a parameter.

Objects whose fields the source updates in place are classes:

- the commit button and the amend checkbox;
- the commit message view and the diff view with its colorizer;
- the change stores;
- the text filter;
- the commit-log filters, the model filter and the save dialog;
- the config store;
- the diff formatter;
- the commit log and its selections comparer.

Loops stay `while` loops with invariants. Each one is proved against a function
that specifies it, and the promised properties are proved about that function.
A message one component sends another through the GTK main loop's channel is
appended to a `sent` log field.

In `SumCargoTests`, the output lemmas (`Transcript`, echoes, summaries) take the
line matcher `m` as a parameter. They hold for any matcher, and the script's loop
uses them with `Match`, the model of its regular expression.

## Model

| member | source | states |
|---|---|---|
| SumCargoTests.LeadingDigits | sum_cargo_tests.py:19 | `\d+` reads the maximal run of ASCII digits: all digits, followed by a non-digit or the end |
| SumCargoTests.Fields | sum_cargo_tests.py:19 | a successful parse of the `; `-separated counts yields one number per label |
| SumCargoTests.DotStarLimitIsLast | sum_cargo_tests.py:19 | `.*` after `test result: ` can end exactly at the positions up to the first line break |
| SumCargoTests.SearchDownFinds | sum_cargo_tests.py:18-20 | backtracking finds a match iff some end position of `.*` lets the rest of the pattern match, and it returns that match's groups |
| SumCargoTests.MatchIsGreedy | sum_cargo_tests.py:18-20 | `re.match` succeeds iff the line starts with the marker and the rest matches at some reachable position; the groups come from the last such position (greedy `.*`) |
| SumCargoTests.SumCargoTests | sum_cargo_tests.py:16-30 | the loop writes exactly the rendered transcript: every line echoed, each matching line followed by the running sums |
| SumCargoTests.Step | sum_cargo_tests.py:16-30 | reading line `i` adds its counts to the sums when it matches and extends the output by the echo and, on a match, one summary |
| SumCargoTests.StepTotals | sum_cargo_tests.py:24-29 | a non-matching line leaves the five sums unchanged; a matching line adds its five groups |
| SumCargoTests.StepOutput | sum_cargo_tests.py:17-30 | one more input line appends its echo, and the summary line exactly when it matches |
| SumCargoTests.LineWritesContents | sum_cargo_tests.py:17-30 | one input line yields exactly one echo of itself, and one summary exactly when it matched |
| SumCargoTests.EchoesAreInput | sum_cargo_tests.py:16-17 | the echoed lines are the input lines, all of them, in order |
| SumCargoTests.SummariesArePrefixSums | sum_cargo_tests.py:24-30 | the printed summaries are the prefix sums of the counts of the matching lines |
| SumCargoTests.KthSummary | sum_cargo_tests.py:30 | the k-th summary reports the sums over the first k+1 matching lines |
| SumCargoTests.TranscriptLength | sum_cargo_tests.py:16-30 | the output has one line per input line plus one per matching line |
| SumCargoTests.NoMatchNoSummary | sum_cargo_tests.py:21-22 | without a matching line the output is the input unchanged |
| SumCargoTests.TotalsNeverDecrease | sum_cargo_tests.py:25-29 | reading more lines never lowers any of the five sums |
| SumCargoTests.SummaryIsNotMatched | sum_cargo_tests.py:30 | a printed summary line never matches the pattern itself |
| Config.DefaultCommitLogFilters | src/config.rs:116-129 | the default holds a single filter named "No filter", which is active and has default author and summary filters |
| Config.DefaultConfig | src/config.rs:6-23 | the default configuration's active filter index is in range |
| Config.DefaultValues | src/config.rs:31-149 | the defaults: maximised, diff context 3, page "Current changes", panes at 200, 200 and 450, an empty case-insensitive plain-text filter |
| FileChanges.RemoveAtKeepsOrder | src/file_changes_store.rs:64-67 | removing a row shortens the list by one and keeps the other rows in their order |
| FileChanges.StagedHasNoWorkTree | src/staged_changes_store.rs:151-154 | a converted staged status contains no "WT" |
| FileChanges.UnstagedHasNoIndex | src/unstaged_changes_store.rs:89-92 | a converted unstaged status contains no "INDEX" |
| FileChanges.StageThenUnstage | src/gui_actions.rs:121-129 | unstaging a staged work-tree status gives the original status back |
| FileChanges.UnstageThenStage | src/gui_actions.rs:121-129 | staging an unstaged index status gives the original status back |
| FileChanges.ListStore.Append | src/file_changes_store.rs:56-62 | the row is added at the end |
| FileChanges.ListStore.Remove | src/file_changes_store.rs:64-67 | exactly the given row is removed |
| FileChanges.ListStore.Clear | src/file_changes_store.rs:69-72 | no rows remain |
| FileChanges.ListStore.Fill | src/file_changes_store.rs:77-86 | the changes are appended, one row each, in order |
| FileChanges.ListStore.ContainsFilePath | src/file_changes_store.rs:43-54 | the walk over the rows finds the path iff some row has it |
| FileChangesStore.FileChangesStore.constructor | src/file_changes_store.rs:21-26 | the store holds exactly the given changes |
| FileChangesStore.FileChangesStore.ContainsFilePath | src/file_changes_store.rs:43-54 | found iff some row has the path |
| FileChangesStore.FileChangesStore.Append | src/file_changes_store.rs:56-62 | the change becomes the last row |
| FileChangesStore.FileChangesStore.Remove | src/file_changes_store.rs:64-67 | that row is removed and the row count drops by one |
| FileChangesStore.FileChangesStore.Clear | src/file_changes_store.rs:69-72 | the store is empty and its row count is 0 |
| FileChangesStore.FilledMeansRows | src/file_changes_store.rs:28-41 | empty is not-filled, and filled iff the row count is positive |
| StagedChangesStore.ContainsFilePath | src/staged_changes_store.rs:138-149 | found iff some row has the path |
| StagedChangesStore.StagedFileChangesStore.constructor | src/staged_changes_store.rs:29-39 | the store holds exactly the staged changes and no observer has been called |
| StagedChangesStore.StagedFileChangesStore.Remove | src/staged_changes_store.rs:41-47 | the row is removed; the emptied observers are called exactly when it was the last row |
| StagedChangesStore.StagedFileChangesStore.OnStaged | src/staged_changes_store.rs:116-129 | an already listed path changes nothing; a new one is appended with its staged status and a first row calls the filled observers; paths stay distinct |
| StagedChangesStore.StagedFileChangesStore.OnCommitted | src/staged_changes_store.rs:131-135 | the store is cleared and the emptied observers are called |
| UnstagedChangesStore.ContainsFilePath | src/unstaged_changes_store.rs:76-87 | found iff some row has the path |
| UnstagedChangesStore.UnstagedFileChangesStore.constructor | src/unstaged_changes_store.rs:22-32 | the store holds exactly the unstaged changes |
| UnstagedChangesStore.UnstagedFileChangesStore.Remove | src/unstaged_changes_store.rs:34-40 | exactly that row is removed |
| UnstagedChangesStore.UnstagedFileChangesStore.OnUnstaged | src/unstaged_changes_store.rs:63-74 | an already listed path changes nothing; a new one is appended with its unstaged status; paths stay distinct |
| Repository.FirstMatchingIsFirst | src/repository.rs:257-270 | the status chosen is set in the entry, and no status earlier in the preference order is; none is chosen iff no listed status is set |
| Repository.MaybeAddToFileChanges | src/repository.rs:257-270 | reports whether some listed status is set, and appends the change for the first one, if any |
| Repository.ClassifyAppend | src/repository.rs:53-69 | classifying two runs of entries one after the other gives the two results concatenated, in entry order |
| Repository.AtMostOnePerEntry | src/repository.rs:247-270 | an entry gives at most one unstaged and one staged change, and one exactly when one of the statuses is set |
| Repository.StagedFlagNames | src/repository.rs:13-24 | the k-th work-tree status, once staged, is named as the k-th index status |
| Repository.Repository.constructor | src/repository.rs:40-51 | the lists are the classified current entries |
| Repository.Repository.CollectCurrentFileChanges | src/repository.rs:53-69 | both lists are replaced by the unstaged and the staged classification of every entry |
| Repository.Repository.HasStagedChanges | src/repository.rs:76-79 | true iff the staged list is non-empty |
| Repository.FindHeadCommit | src/repository.rs:169-180 | no HEAD exactly in an empty repository, otherwise the head |
| Repository.FindParentCommits | src/repository.rs:182-188 | no parent in an empty repository, otherwise the head alone |
| GuiActions.SelectionAction | src/gui_actions.rs:46-66 | an empty selection clears, one row shows that row, more than one row is the too-large-selection error |
| GuiActions.HandleSelection | src/gui_actions.rs:46-66 | the diff view is cleared, or shows the diff of the selected row's path while the other view is unselected, or nothing changes and the error is returned |
| GuiActions.ChangeStagingState | src/gui_actions.rs:98-119 | the row leaves the source list and reappears at the end of the target with its converted status; its path is the one switched |
| GuiActions.StageRow | src/gui_actions.rs:98-124 | staging moves the row to the staged list, and its new status names no work-tree state |
| GuiActions.CommitStagedChanges | src/gui_actions.rs:131-147 | commits the message view's text, then empties the staged list and the message view |
| CommitButton.LookFor | src/commit_button.rs:226-242 | enabled iff (staged or amend) and a message; tooltip cleared iff enabled; the missing changes outrank the missing message |
| CommitButton.CommitButton.constructor | src/commit_button.rs:25-48 | takes the message and staging flags, amend off, and shows the matching look |
| CommitButton.CommitButton.Update | src/commit_button.rs:226-242 | the widget shows the look the flags call for; the flags are unchanged |
| CommitButton.CommitButton.OnAddedToStaged | src/commit_button.rs:184-191 | changes count as staged; nothing is redone when they already did |
| CommitButton.CommitButton.OnRemovedFromStaged | src/commit_button.rs:193-200 | the flag drops only when the repository has nothing staged left |
| CommitButton.CommitButton.OnCommitMessageFilled | src/commit_button.rs:202-206 | the message counts as written and the look follows |
| CommitButton.CommitButton.OnCommitMessageEmptied | src/commit_button.rs:208-212 | the message counts as empty and the button is disabled |
| CommitButton.CommitButton.OnCommitAmendEnabled | src/commit_button.rs:214-218 | amend is on and the look follows |
| CommitButton.CommitButton.OnCommitAmendDisabled | src/commit_button.rs:220-224 | amend is off and the look follows |
| CommitButton.CommitButton.Commit | src/commit_button.rs:284-292 | asks for an amend when amend is on, else a commit, with the message; nothing is staged afterwards |
| CommitButton.CommitButton.Click | src/commit_button.rs:68-75 | a disabled button returns the error and changes nothing; an enabled one sends exactly one request, an amend with the message when amend is on and a commit with it otherwise, and then counts nothing as staged; both keep the message and amend flags and the button's look in line with them |
| CommitLogFilters.Override | src/commit_log_filters.rs:57-109 | an entered value overrides the stored one exactly when it differs |
| CommitLogFilters.Merge | src/commit_log_filters.rs:141-161 | each field of the merged filter is the pending override, or the stored value when none is pending |
| CommitLogFilters.MergeGivesEntered | src/commit_log_filters.rs:141-161 | merging after entering values gives exactly the values entered |
| CommitLogFilters.MergeWithoutChanges | src/commit_log_filters.rs:141-161 | with no override pending, the merge is the stored filter |
| CommitLogFilters.FindByName | src/commit_log_filters.rs:111-129 | none iff no filter has the name; otherwise the index of a filter with that name |
| CommitLogFilters.CommitLogFilters.constructor | src/commit_log_filters.rs:36-45 | the saved filters with the configured one active and nothing pending; its author filter is announced |
| CommitLogFilters.CommitLogFilters.NotifyActiveFilterDataSwitched | src/commit_log_filters.rs:189-196 | sends the active filter's author filter and changes nothing else |
| CommitLogFilters.CommitLogFilters.NotifyFiltersUpdated | src/commit_log_filters.rs:180-187 | sends the filters with the active index |
| CommitLogFilters.CommitLogFilters.OnActiveFilterChosen | src/commit_log_filters.rs:47-55 | choosing the active filter again does nothing; another one becomes active with nothing pending and is announced |
| CommitLogFilters.CommitLogFilters.OnAuthorCaseButtonToggled | src/commit_log_filters.rs:57-64 | records the author case-sensitivity override, and nothing else |
| CommitLogFilters.CommitLogFilters.OnAuthorRegexButtonToggled | src/commit_log_filters.rs:66-73 | records the author regex override, and nothing else |
| CommitLogFilters.CommitLogFilters.OnAuthorTextEntered | src/commit_log_filters.rs:75-82 | records the author pattern override, and nothing else |
| CommitLogFilters.CommitLogFilters.OnSummaryCaseButtonToggled | src/commit_log_filters.rs:84-91 | records the summary case-sensitivity override, and nothing else |
| CommitLogFilters.CommitLogFilters.OnSummaryRegexButtonToggled | src/commit_log_filters.rs:93-100 | records the summary regex override, and nothing else |
| CommitLogFilters.CommitLogFilters.OnSummaryTextEntered | src/commit_log_filters.rs:102-109 | records the summary pattern override, and nothing else |
| CommitLogFilters.CommitLogFilters.AddFilter | src/commit_log_filters.rs:131-139 | appends the merged active filter under the name and makes it active with nothing pending |
| CommitLogFilters.CommitLogFilters.UpdateFilter | src/commit_log_filters.rs:163-168 | overwrites that filter's author and summary filters with the merged ones, keeping its name, and makes it active |
| CommitLogFilters.CommitLogFilters.OnFilterNameChosen | src/commit_log_filters.rs:111-129 | saves over the first filter of that name, else appends a new one; the update and the switch are announced; no filter is lost |
| CommitLogFilters.CommitLogFilters.Handle | src/commit_log_filters.rs:16-32 | each handled (source, event) pair leaves the filters, the current filter and the sent log exactly as its handler does: a toggle or entered text overrides its one field, a chosen filter switches the active one, a chosen name saves over or adds a filter |
| DiffColorizer.ScanLinesKeeps | src/diff_colorizer.rs:68-81 | the line scan keeps its tags ordered and non-empty and the open run inside the scanned lines |
| DiffColorizer.RunsArePainted | src/diff_colorizer.rs:60-154 | in the colouring of a text, a non-empty line is painted with the added tag iff it starts with `+`, with the removed tag iff it starts with `-`, and gets the hunk-header tag up to ` @@` iff it starts with `@`; so every run is painted from its first line up to the line that ends it |
| DiffColorizer.ScanLinesColours | src/diff_colorizer.rs:68-81 | after any number of lines the machine, counting its open run, paints exactly the lines seen of its kind, nothing further down, and tags exactly the hunk headers seen |
| DiffColorizer.StepKeepsPaint | src/diff_colorizer.rs:83-145 | handling a line never changes how the lines above it are painted: closing a run paints exactly the lines it had opened |
| DiffColorizer.StepPaintsLine | src/diff_colorizer.rs:83-145 | handling a line paints it with the added or removed tag exactly when it is an added or removed line |
| DiffColorizer.TagsAreOrdered | src/diff_colorizer.rs:68-81 | the tags applied to a diff have non-empty ranges that follow one another down the text |
| DiffColorizer.SwitchClosesRun | src/diff_colorizer.rs:99-113 | a removed line right after added lines closes the added run at that line and opens a removed run |
| DiffColorizer.EmptyLineIgnored | src/diff_colorizer.rs:68-81 | an empty last line adds no tag and changes no state |
| DiffColorizer.EnsureTextEndsWithNewLine | src/diff_colorizer.rs:201-208 | the result ends with a newline, and is the text, or the text with one newline added |
| DiffColorizer.EditsGoDown | src/diff_colorizer.rs:157-175 | the edits of an update are applied at line numbers that never go back up |
| DiffColorizer.DiffRequiresUpdating | src/diff_colorizer.rs:184-199 | true iff some difference inserts or deletes |
| DiffColorizer.ApplyDifference | src/diff_colorizer.rs:157-175 | one difference adds its edit at the current line, makes it on the text with the buffer's edit primitive, and moves the line past the text it keeps or inserts |
| DiffColorizer.UpdateDiff | src/diff_colorizer.rs:157-175 | the buffer receives exactly the edits of the whole difference list, starting at line 0, and its text is the old text with those edits made in order |
| DiffColorizer.DiffColorizer.constructor | src/diff_colorizer.rs:26-38 | starts with no open run at line 0 |
| DiffColorizer.DiffColorizer.Colorize | src/diff_colorizer.rs:40-44 | the view shows the diff; setting the text drops the old tags, so the tags afterwards are exactly those for the diff's lines |
| DiffColorizer.DiffColorizer.Update | src/diff_colorizer.rs:46-58 | an update without insertions or deletions changes nothing; otherwise the buffer receives the edits of the difference list, its text is the old text with them made in order, and its tags are exactly those for that edited text |
| DiffColorizer.DiffColorizer.ApplyTags | src/diff_colorizer.rs:60-66 | the tags for the text are added and the text is untouched |
| DiffColorizer.DiffColorizer.ApplyTagsBasedOnLineTypes | src/diff_colorizer.rs:68-81 | the tags added are those of the line scan, the last run closed |
| DiffColorizer.DiffColorizer.ApplyTagToLine | src/diff_colorizer.rs:73-78 | a line is dispatched on its first character and tagged as one scan step prescribes |
| DiffColorizer.DiffColorizer.ApplyTagToAddedLine | src/diff_colorizer.rs:83-97 | an added line continues or opens the added run, closing any other run |
| DiffColorizer.DiffColorizer.ApplyTagToRemovedLine | src/diff_colorizer.rs:99-113 | a removed line continues or opens the removed run, closing any other run |
| DiffColorizer.DiffColorizer.ApplyTagToHunkHeader | src/diff_colorizer.rs:115-130 | a hunk header closes any open run and is tagged on its own |
| DiffColorizer.DiffColorizer.ApplyTagToNormalLine | src/diff_colorizer.rs:132-145 | a normal line closes any open run |
| DiffColorizer.DiffColorizer.CloseLastOpenTag | src/diff_colorizer.rs:147-154 | the run still open at the end is closed |
| LineNumber.Add | src/line_number.rs:12-20 | the sum of a line number and a count, never below the number |
| LineNumber.AddAssign | src/line_number.rs:22-28 | the number moves down by the count |
| LineNumber.ToI32 | src/line_number.rs:30-36 | the same value, within the i32 range |
| LineNumber.AddTwice | src/line_number.rs:12-28 | adding two counts one after the other adds their sum |
| Regex.Build | src/text_filter.rs:30-44 | the builder succeeds iff the engine accepts the pattern with that case setting, and fails with the pattern |
| TextFilter.AfterSetText | src/text_filter.rs:25-49 | the text becomes the new one; regex mode is kept; failure to build, which happens only in regex mode, leaves an invalid state |
| TextFilter.AfterSetCaseSensitivity | src/text_filter.rs:51-73 | the text and the regex mode are kept; in regex mode the regex is rebuilt with the new case setting, and a failure leaves it invalid |
| TextFilter.AfterSetRegexEnabled | src/text_filter.rs:75-99 | turning regex off keeps the text as plain text; turning it on builds the regex only from plain text; the text is always kept |
| TextFilter.EmptyTextMatchesAll | src/text_filter.rs:101-123 | an empty plain-text filter matches every input, and an invalid regex matches none |
| TextFilter.RegexOnOffKeepsText | src/text_filter.rs:75-99 | turning regex mode on and back off gives the plain text back |
| TextFilter.SetTextIdempotent | src/text_filter.rs:25-49 | setting the same text twice is the same as setting it once |
| TextFilter.TextFilter.constructor | src/text_filter.rs:20-23 | starts as an empty, case-insensitive, plain-text filter |
| TextFilter.TextFilter.SetText | src/text_filter.rs:25-49 | the new state and result are those of `AfterSetText` |
| TextFilter.TextFilter.SetCaseSensitivityEnabled | src/text_filter.rs:51-73 | the new state and result are those of `AfterSetCaseSensitivity`, with the case setting stored |
| TextFilter.TextFilter.SetRegexEnabled | src/text_filter.rs:75-99 | the new state and result are those of `AfterSetRegexEnabled` |
| CommitLogModelFilter.PlainIgnoresAuthorCase | src/commit_log_model_filter.rs:89 | a plain filter does not tell an author from its lower-cased form |
| CommitLogModelFilter.VisibleRules | src/commit_log_model_filter.rs:72-91 | an empty filter shows every author; a plain filter shows authors whose lower-cased name contains it; an invalid regex shows none; a valid one shows its matches |
| CommitLogModelFilter.CommitLogModelFilter.constructor | src/commit_log_model_filter.rs:35-42 | starts with an empty plain-text author filter |
| CommitLogModelFilter.CommitLogModelFilter.Handle | src/commit_log_model_filter.rs:22-30 | dispatches text entry, regex toggling and refilter requests to their handlers |
| CommitLogModelFilter.CommitLogModelFilter.OnCommitAuthorFilterChanged | src/commit_log_model_filter.rs:47-51 | stores the filter lower-cased and requests a refilter |
| CommitLogModelFilter.CommitLogModelFilter.OnRefilterRequested | src/commit_log_model_filter.rs:53-57 | refilters once and reports that it ended |
| CommitLogModelFilter.CommitLogModelFilter.OnRegexToggled | src/commit_log_model_filter.rs:59-64 | flips regex mode and requests a refilter |
| CommitLogModelFilter.CommitLogModelFilter.RequestRefilter | src/commit_log_model_filter.rs:66-69 | sends one refilter request and changes nothing else |
| DiffView.DiffFor | src/diff_view.rs:226-271 | staged changes diff tree to index; an unstaged renamed file diffs its old path to the work tree; other unstaged changes diff index to work tree |
| DiffView.DiffView.constructor | src/diff_view.rs:36-54 | the view starts empty, showing no change |
| DiffView.DiffView.OnUnstagedChangeSelected | src/diff_view.rs:149-157 | shows the unstaged diff of the change, the renamed-file form for a rename, with exactly the tags for it |
| DiffView.DiffView.OnStagedChangeSelected | src/diff_view.rs:159-162 | shows the tree-to-index diff of the change, with exactly the tags for it |
| DiffView.DiffView.OnFileChangeSelected | src/diff_view.rs:164-173 | the view shows the rendered diff with exactly the tags for it and remembers which side it came from |
| DiffView.DiffView.OnFileChangeRefreshed | src/diff_view.rs:175-186 | the side is remembered; when the changeset from the shown text to the new diff inserts or deletes, the view receives its edits, its text is the shown text with them made, and its tags are exactly those for that text; otherwise the view is unchanged |
| DiffView.DiffView.OnUnstagedChangeUnselected | src/diff_view.rs:188-193 | when the view shows an unstaged change it is emptied, untagged and shows no change; otherwise its side, text, tags and edits are all unchanged |
| DiffView.DiffView.OnStagedChangeUnselected | src/diff_view.rs:195-200 | when the view shows a staged change it is emptied, untagged and shows no change; otherwise its side, text, tags and edits are all unchanged |
| DiffView.DiffView.OnUnstagedOptionalChangeRefreshed | src/diff_view.rs:202-234 | ignored, view untouched, unless an unstaged change is shown; a vanished change clears the view and its tags, and a present one is refreshed as `OnFileChangeRefreshed` does |
| DiffView.DiffView.OnStagedOptionalChangeRefreshed | src/diff_view.rs:214-239 | ignored, view untouched, unless a staged change is shown; a vanished change clears the view and its tags, and a present one is refreshed as `OnFileChangeRefreshed` does |
| DiffView.DiffView.Clear | src/diff_view.rs:241-245 | the view is emptied, untagged and shows no change |
| CommitMessageView.CommitMessageView.constructor | src/commit_message_view.rs:19-33 | an empty view with nothing stashed |
| CommitMessageView.CommitMessageView.SetText | src/commit_message_view.rs:50-53 | the view holds the text and the stash is kept |
| CommitMessageView.CommitMessageView.OnCommitted | src/commit_message_view.rs:107-110 | the view is emptied after a commit |
| CommitMessageView.CommitMessageView.OnCommitAmendEnabled | src/commit_message_view.rs:112-116 | the typed message is stashed and the last commit's message is shown |
| CommitMessageView.CommitMessageView.OnCommitAmendDisabled | src/commit_message_view.rs:118-121 | the stashed message is shown again |
| CommitAmendCheckbox.CommitAmendCheckbox.constructor | src/commit_amend_checkbox.rs:29-42 | unselected; disabled with the no-commit tooltip exactly in an empty repository |
| CommitAmendCheckbox.CommitAmendCheckbox.Select | src/commit_amend_checkbox.rs:77-80 | selected afterwards; the toggle is reported only if it was unselected |
| CommitAmendCheckbox.CommitAmendCheckbox.Unselect | src/commit_amend_checkbox.rs:82-85 | unselected afterwards; the toggle is reported only if it was selected |
| CommitAmendCheckbox.CommitAmendCheckbox.SetActive | src/commit_amend_checkbox.rs:90-95 | the widget reports a toggle exactly when its state changes |
| CommitAmendCheckbox.CommitAmendCheckbox.Handle | src/commit_amend_checkbox.rs:16-23 | an amended commit unselects the box; a toggle is announced as amend enabled or disabled |
| CommitAmendCheckbox.CommitAmendCheckbox.OnToggled | src/commit_amend_checkbox.rs:97-104 | announces amend enabled when selected, disabled otherwise |
| CommitAmendCheckbox.CommitAmendCheckbox.OnAmendedCommit | src/commit_amend_checkbox.rs:106-109 | the box is unselected after an amend |
| CommitLogSaveFilterDialog.CanSaveRule | src/commit_log_save_filter_dialog.rs:79-89 | a name can be saved iff it is neither empty nor "No filter", so the built-in filter cannot be overwritten |
| CommitLogSaveFilterDialog.CommitLogSaveFilterDialog.constructor | src/commit_log_save_filter_dialog.rs:29-32 | no dialog is open and nothing was sent |
| CommitLogSaveFilterDialog.CommitLogSaveFilterDialog.Handle | src/commit_log_save_filter_dialog.rs:16-24 | dispatches open requests, typed text and dialog responses |
| CommitLogSaveFilterDialog.CommitLogSaveFilterDialog.OnOpenDialogRequested | src/commit_log_save_filter_dialog.rs:34-67 | opens a dialog with an empty name and the save button disabled |
| CommitLogSaveFilterDialog.CommitLogSaveFilterDialog.TypeFilterName | src/commit_log_save_filter_dialog.rs:39-40 | typing into the entry of the open dialog stores the name and sends it as entered text; a closed dialog ignores it |
| CommitLogSaveFilterDialog.CommitLogSaveFilterDialog.OnDialogResponded | src/commit_log_save_filter_dialog.rs:69-77 | every response closes the dialog; only Apply on an open dialog sends the filter name |
| CommitLogSaveFilterDialog.CommitLogSaveFilterDialog.OnTextEntered | src/commit_log_save_filter_dialog.rs:79-89 | the save button is enabled iff the name can be saved |
| CommitLogSaveFilterDialog.CommitLogSaveFilterDialog.OnSaveDialog | src/commit_log_save_filter_dialog.rs:91-104 | sends the typed name as the chosen filter name and closes the dialog |
| CommitLogSaveFilterDialog.CommitLogSaveFilterDialog.OnCancelDialog | src/commit_log_save_filter_dialog.rs:106-109 | closes the dialog and sends nothing |
| CommitLogSaveFilterDialog.CommitLogSaveFilterDialog.OnDialogDeleted | src/commit_log_save_filter_dialog.rs:111-114 | closes the dialog and sends nothing |
| CommitLogSaveFilterDialog.CommitLogSaveFilterDialog.OnUnknownDialogResponse | src/commit_log_save_filter_dialog.rs:116-120 | closes the dialog and sends nothing |
| CommitLogSaveFilterDialog.CommitLogSaveFilterDialog.Close | src/commit_log_save_filter_dialog.rs:122-128 | no dialog is open afterwards |
| ConfigStore.Updated | src/config_store.rs:18-32 | each event replaces exactly its own section; quitting changes nothing; the repository section is never touched |
| ConfigStore.UpdateIsIdempotent | src/config_store.rs:53-99 | handling the same event twice is the same as handling it once |
| ConfigStore.UpdateKeepsActiveInRange | src/config_store.rs:77-80 | the active filter index stays in range when the filters received are in range |
| ConfigStore.ConfigStore.constructor | src/config_store.rs:37-43 | holds the loaded configuration and has written nothing |
| ConfigStore.ConfigStore.Handle | src/config_store.rs:18-32 | the configuration is updated as `Updated` says; it is written out exactly on quit |
| ConfigStore.ConfigStore.OnDiffAndCommitPanePositionChanged | src/config_store.rs:53-59 | stores the diff-and-commit pane position |
| ConfigStore.ConfigStore.OnFileChangesPanePositionChanged | src/config_store.rs:61-67 | stores the file-changes pane position |
| ConfigStore.ConfigStore.OnMainPanePositionChanged | src/config_store.rs:69-75 | stores the main pane position |
| ConfigStore.ConfigStore.OnFiltersUpdated | src/config_store.rs:77-80 | stores the commit-log filters |
| ConfigStore.ConfigStore.OnMaximizationChanged | src/config_store.rs:82-89 | stores the maximised state |
| ConfigStore.ConfigStore.OnQuitRequested | src/config_store.rs:91-94 | writes the configuration out, unchanged |
| ConfigStore.ConfigStore.OnMainStackActivePageChanged | src/config_store.rs:96-99 | stores the active page |
| DiffFormatter.Formatted | src/diff_formatter.rs:17-26 | a content line keeps its origin as a prefix, a file header gives nothing, any other line gives its text |
| DiffFormatter.FormattedAllGrows | src/diff_formatter.rs:17-26 | the text of a prefix of the lines is a prefix of the text of all of them |
| DiffFormatter.FileHeadersAddNothing | src/diff_formatter.rs:17-26 | file headers alone give an empty text |
| DiffFormatter.DiffFormatter.constructor | src/diff_formatter.rs:12-15 | starts with an empty text |
| DiffFormatter.DiffFormatter.Format | src/diff_formatter.rs:17-26 | always succeeds, and appends the formatted line |
| DiffFormatter.DiffFormatter.AddContent | src/diff_formatter.rs:37-40 | appends the prefix character and the line |
| DiffFormatter.DiffFormatter.AddHunkInfo | src/diff_formatter.rs:42-45 | appends the line as it is |
| CommitDiff.TabulateCommitMessage | src/commit_diff.rs:30-37 | every line of the message indented by four spaces and ended by a newline; empty for an empty message |
| CommitDiff.TabulatedNewlines | src/commit_diff.rs:30-37 | the indented text has exactly one newline per line |
| CommitDiff.MessageNewlines | src/commit_diff.rs:30-37 | an indented message has one newline per line of the message |
| CommitDiff.MakeCommitSummary | src/commit_diff.rs:7-16 | the commit, author and date headers, a blank line, the indented message and a final newline |
| CommitDiff.MakeFormattedDiff | src/commit_diff.rs:18-23 | the formatted text of all the diff lines, in order |
| ErrorHandling.Report | src/error_handling.rs:21-32 | starts with the error; one cause is shown as "Cause", several as a numbered "Causes" list |
| ErrorHandling.NumberedPrefix | src/error_handling.rs:55-61 | numbering the first causes gives a prefix of numbering all of them |
| ErrorHandling.NumberedAppend | src/error_handling.rs:55-61 | one more cause adds one line, numbered one past the previous count |
| ErrorHandling.FormatErr | src/error_handling.rs:21-32 | the loop-built text is the report of the chain |
| ErrorHandling.FormatSingleCause | src/error_handling.rs:50-53 | appends the single cause line |
| ErrorHandling.FormatMultipleCauses | src/error_handling.rs:55-61 | appends the numbered causes, counting from 1 |
| AppSetup.GetCurrentDir | src/app_setup.rs:68-71 | the directory, or the current-directory error wrapping the I/O error |
| AppSetup.FindRepositoryDir | src/app_setup.rs:48-58 | no argument gives the current directory, one argument gives that path, more are an error listing the arguments |
| CommitLog.GetSummary | src/commit_log.rs:54-59 | a message without lines gives ""; otherwise the summary is the first line with the whitespace at both ends cut off: a slice of that line with only whitespace outside it and none at its ends; it never holds a newline |
| Text.Trim | src/commit_log.rs:58 | the result is a slice of the string with only whitespace outside it, and it neither starts nor ends with whitespace |
| Text.StripIsTrim | src/commit_log.rs:58 | any slice of a string with only whitespace outside it and none at its ends is the trimmed string, so the two properties of `Trim` define it |
| Text.TrimIdempotent | src/commit_log.rs:58 | trimming twice is trimming once |
| CommitLog.InfoOf | src/commit_log.rs:36-51 | keeps id and date, summarises the message, and replaces undecodable author fields by the invalid-UTF-8 marker |
| CommitLog.CommitLog.constructor | src/commit_log.rs:16-21 | no commits for an empty repository, otherwise the walked commits in order |
| CommitLog.CommitLog.GetCommit | src/commit_log.rs:23-26 | the commit at that row iff the row exists |
| CommitLog.CommitLog.LoadCommits | src/commit_log.rs:36-51 | an empty repository keeps the list; otherwise the list is the walked commits, summarised, in order |
| CommitLogSelectionsComparer.CommitLogSelectionsComparer.constructor | src/commit_log_selections_comparer.rs:17-20 | neither selection is known yet |
| CommitLogSelectionsComparer.CommitLogSelectionsComparer.SetFirst | src/commit_log_selections_comparer.rs:25-28 | records the first selection only |
| CommitLogSelectionsComparer.CommitLogSelectionsComparer.SetSecond | src/commit_log_selections_comparer.rs:30-33 | records the second selection only |
| CommitLogSelectionsComparer.CommitLogSelectionsComparer.AreDifferent | src/commit_log_selections_comparer.rs:35-48 | true iff the two selections differ |
| RepositoryStatusUtils.SymbolOf | tests/common/repository_status_utils.rs:78-91 | every status has a symbol that reads back as that status |
| RepositoryStatusUtils.SymbolRoundTrip | tests/common/repository_status_utils.rs:78-91 | every accepted symbol reads as a status whose symbol is the same character |
| RepositoryStatusUtils.New | tests/common/repository_status_utils.rs:36-39 | the entry holds the path and both statuses |
| RepositoryStatusUtils.NewRenamed | tests/common/repository_status_utils.rs:41-44 | the entry holds the "old -> new" paths text and both statuses |
| RepositoryStatusUtils.EntryFrom | tests/common/repository_status_utils.rs:46-57 | the index status from column 0, the work-tree status from column 1, the path from column 3 on; accepted only when the character before the path is ASCII, so that the byte slice at 3 falls on a character boundary |
| RepositoryStatusUtils.EntryRoundTrip | tests/common/repository_status_utils.rs:46-57 | reading back the printed line of an entry gives the entry |
| RepositoryStatusUtils.EntriesFrom | tests/common/repository_status_utils.rs:20-23 | one entry per line, each read from its line |
| RepositoryStatusUtils.StatusFromText | tests/common/repository_status_utils.rs:20-23 | one entry per newline-ended line; the empty text gives none |
| RepositoryStatusUtils.StatusRoundTrip | tests/common/repository_status_utils.rs:20-23 | reading back the printed status gives the same entries |

## Left out

- GTK widgets, signals and the main loop are not modelled. A widget is the field its methods change: a text buffer's text, tags and edits, a button's sensitivity and tooltip, a checkbox's state, a list store's rows. A message sent through the channel is appended to a `sent` log. There is no concurrency.
- git2 is not modelled. Status entries come in as values with a set of status flags. A diff is rendered by a function parameter. The line differences used by the colorizer come from a function parameter, because the change-set algorithm that computes them is not part of this model. Commits, the revision walk and HEAD are plain values.
- The regex crate is not modelled. Whether a pattern builds and what it finds are the two functions of an `Engine` parameter.
- `Text.ToLower` and `Text.Trim` handle ASCII only. Unicode case folding, Unicode whitespace and `String::from_utf8_lossy` are not modelled. An author field that is not valid UTF-8 arrives as `None`.
- `\d` in `sum_cargo_tests.py` is taken as the ASCII digits only, though Python also accepts other Unicode decimal digits. Reading standard input and writing standard output become a sequence of lines in and a sequence of strings out.
- The script calls `re.match`, which is anchored at the start of the line. The model follows it.
- chrono date formatting is not modelled. The commit date arrives as an already formatted string.
- Reading and writing the TOML settings file are not modelled. The store starts from a parsed `Config`, and a save appends the configuration to a `written` log.
- `exit`, `showErrorDialog`, `printErr`, the panic handler and backtraces are not modelled. Where the source exits or panics, the model has a precondition instead:
  - a selected row outside the list store;
  - a missing author in `makeCommitSummary`;
  - an unknown event reaching a `handle` method;
  - `areDifferent` before both selections are known;
  - an over-large line number;
  - a status entry with neither a work-tree nor an index flag, or with a path that is not UTF-8 (`Repository.Collectable`);
  - a renamed unstaged change without its old path (`DiffView.CanMakeDiff`);
  - enabling amend when the last commit or its message is missing (`lastCommitMessage.Some?` of `CommitMessageView.CommitMessageView.OnCommitAmendEnabled`);
  - an active filter index outside the saved filters, at start (`Config.ActiveInRange` of the `CommitLogFilters` constructor) or when chosen (`CommitLogFilters.CommitLogFilters.OnActiveFilterChosen`);
  - in the status parser of the tests, an unknown status character, a line too short to hold a path, or a path that would be cut inside a multi-byte character (`RepositoryStatusUtils.IsEntryLine`, `RepositoryStatusUtils.IsStatusSymbol`).
- Command-line argument lookup and the current directory are parameters of `AppSetup.FindRepositoryDir`.
- DiffColorizer.Update: GTK's line insertion and removal are not part of this model; the buffer's primitive that makes one edit is the parameter `edit`, so the model states which edits are made, in which order, and that the text is the result of making them, but not what one edit does to the text.
- DiffView.DiffView.OnFileChangeRefreshed: the text after the update is the shown text with the changeset's edits made by `edit`; the model does not claim it equals the new diff. Whether it does depends on the changeset and on `edit`. The same holds for the two `Optional` refresh handlers.
- LineNumber.Add: an overflowing sum panics in a debug build but wraps around in a release build. The model rules out overflow by a precondition and does not describe the wrapped result. The same holds for `LineNumber.AddAssign`.
- DiffColorizer.UpdateDiff: line numbers are `nat`. The `usize` wrap-around of `LineNumber` is modelled only in `LineNumber`, where overflow is a precondition.
- `event.rs` is modelled only for the sources and events that the modelled handlers send or receive.
- CommitAmendCheckbox.CommitAmendCheckbox.SetActive: the source sends `Toggled` with no payload. The model carries the new state in the event. This relies on GTK emitting `toggled` only when the state actually changes.
- CommitMessageView.CommitMessageView.SetText: the filled and emptied notifications of the message view's text buffer are not modelled. The commit button's handlers for them are modelled on their own.
- CommitDiff.MakeFormattedDiff: the formatter it builds on is constructed with `DiffFormatter::new`. `newForCommit`, which the caller names, is not part of this model.
- CommitDiff.MakeCommitSummary: states the exact layout, but the model proves no newline count for the whole summary, only for the indented message (`CommitDiff.MessageNewlines`).
- CommitLogModelFilter.VisibleRules: `Regex::is_match` is taken as the engine's `finds` on the lower-cased filter with case-insensitive matching, so it says nothing about what a real regex matches.
- The views that only forward events and never keep state are not modelled: the file-change views, the log view, the application window and the panes. Neither is the GTK builder glue.
