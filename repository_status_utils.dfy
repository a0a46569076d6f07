/** The test helper that reads `git status --porcelain` output
    (`tests/common/repository_status_utils.rs`), in the short format of the
    git-status manual: one line per entry, the index status character, the
    work-tree status character, a space, then the path. A status character
    the helper does not know, a line too short to hold a path, or a path
    cut inside a multi-byte character makes it panic, which the
    preconditions rule out. */
module RepositoryStatusUtils {
  import opened Text

  const POSITION_OF_INDEX_STATUS: nat := 0
  const POSITION_OF_WORK_TREE_STATUS: nat := 1
  const START_OF_FILE_PATH: nat := 3

  datatype FileChangeStatus = Untracked | Unmodified | Modified | Added | Deleted | Renamed | Copied | Unmerged

  /** The path is a plain path, or "old -> new" for a renamed file. */
  datatype RepositoryStatusEntry = RepositoryStatusEntry(path: string, workTreeStatus: FileChangeStatus,
                                                         indexStatus: FileChangeStatus)

  predicate IsStatusSymbol(symbol: char)
  {
    symbol in "? MADRCU"
  }

  function StatusFrom(symbol: char): (status: FileChangeStatus)
    requires IsStatusSymbol(symbol)
  {
    match symbol
    case '?' => Untracked
    case ' ' => Unmodified
    case 'M' => Modified
    case 'A' => Added
    case 'D' => Deleted
    case 'R' => Renamed
    case 'C' => Copied
    case 'U' => Unmerged
  }

  /** The character each status is written with. */
  function SymbolOf(status: FileChangeStatus): (symbol: char)
    ensures IsStatusSymbol(symbol)
    ensures StatusFrom(symbol) == status
  {
    match status
    case Untracked => '?'
    case Unmodified => ' '
    case Modified => 'M'
    case Added => 'A'
    case Deleted => 'D'
    case Renamed => 'R'
    case Copied => 'C'
    case Unmerged => 'U'
  }

  /** Each known character is the symbol of the status it is read as. */
  lemma SymbolRoundTrip(symbol: char)
    requires IsStatusSymbol(symbol)
    ensures SymbolOf(StatusFrom(symbol)) == symbol
  {
  }

  function New(path: string, workTreeStatus: FileChangeStatus, indexStatus: FileChangeStatus)
    : (entry: RepositoryStatusEntry)
    ensures entry.path == path && entry.workTreeStatus == workTreeStatus && entry.indexStatus == indexStatus
  {
    RepositoryStatusEntry(path, workTreeStatus, indexStatus)
  }

  /** An entry of a renamed file keeps "old -> new" verbatim. */
  function NewRenamed(paths: string, workTreeStatus: FileChangeStatus, indexStatus: FileChangeStatus)
    : (entry: RepositoryStatusEntry)
    ensures entry.path == paths && entry.workTreeStatus == workTreeStatus && entry.indexStatus == indexStatus
  {
    RepositoryStatusEntry(paths, workTreeStatus, indexStatus)
  }

  /** A line the parser accepts. The path is cut at byte 3 of the UTF-8
      text: the two status characters are one byte each, so the cut falls on
      a character boundary, as slicing demands, exactly when the character
      before the path is one byte wide too (ASCII; git writes a space). */
  predicate IsEntryLine(line: string)
  {
    |line| >= START_OF_FILE_PATH
    && IsStatusSymbol(line[POSITION_OF_WORK_TREE_STATUS]) && IsStatusSymbol(line[POSITION_OF_INDEX_STATUS])
    && IsAscii(line[START_OF_FILE_PATH - 1])
  }

  /** One byte wide in UTF-8. */
  predicate IsAscii(c: char)
  {
    c as int < 128
  }

  /** One entry line, such as "AM fileName". */
  function EntryFrom(line: string): (entry: RepositoryStatusEntry)
    requires IsEntryLine(line)
    ensures entry.path == line[START_OF_FILE_PATH..]
    ensures SymbolOf(entry.indexStatus) == line[POSITION_OF_INDEX_STATUS]
    ensures SymbolOf(entry.workTreeStatus) == line[POSITION_OF_WORK_TREE_STATUS]
  {
    RepositoryStatusEntry(line[START_OF_FILE_PATH..], StatusFrom(line[POSITION_OF_WORK_TREE_STATUS]),
                          StatusFrom(line[POSITION_OF_INDEX_STATUS]))
  }

  /** The line `git status --porcelain` writes for an entry, without its
      newline; the character after the two statuses is a space. */
  function LineOf(entry: RepositoryStatusEntry): (line: string)
    ensures IsEntryLine(line)
  {
    [SymbolOf(entry.indexStatus), SymbolOf(entry.workTreeStatus), ' '] + entry.path
  }

  lemma EntryRoundTrip(entry: RepositoryStatusEntry)
    ensures EntryFrom(LineOf(entry)) == entry
  {
    assert LineOf(entry)[START_OF_FILE_PATH..] == entry.path;
  }

  function EntriesFrom(lines: seq<string>): (entries: seq<RepositoryStatusEntry>)
    requires forall i :: 0 <= i < |lines| ==> IsEntryLine(lines[i])
    ensures |entries| == |lines|
    ensures forall i :: 0 <= i < |lines| ==> entries[i] == EntryFrom(lines[i])
  {
    if lines == [] then [] else [EntryFrom(lines[0])] + EntriesFrom(lines[1..])
  }

  /** The text is split at every newline and the piece after the last one is
      dropped, so only terminated lines count. */
  predicate IsStatusText(text: string)
  {
    var pieces := Split(text, '\n');
    forall i :: 0 <= i < |pieces| - 1 ==> IsEntryLine(pieces[i])
  }

  /** `RepositoryStatus::from`: one entry per terminated line, in order. */
  function StatusFromText(text: string): (data: seq<RepositoryStatusEntry>)
    requires IsStatusText(text)
    ensures |data| == |Split(text, '\n')| - 1
    ensures text == "" ==> data == []
  {
    var pieces := Split(text, '\n');
    EntriesFrom(pieces[..|pieces| - 1])
  }

  /** The porcelain text of a list of entries: each line with its newline. */
  function TextOf(entries: seq<RepositoryStatusEntry>): string
  {
    if entries == [] then "" else LineOf(entries[0]) + "\n" + TextOf(entries[1..])
  }

  /** Splitting at a newline that ends a piece without newlines. */
  lemma SplitFirstLine(line: string, rest: string)
    requires '\n' !in line
    ensures Split(line + "\n" + rest, '\n') == [line] + Split(rest, '\n')
  {
    var s := line + "\n" + rest;
    assert forall j :: 0 <= j < |line| ==> s[j] == line[j] && s[j] != '\n';
    assert s[|line|] == '\n';
    var k := IndexOf(s, '\n');
    assert k == |line|;
    assert s[..|line|] == line;
    assert s[|line| + 1..] == rest;
  }

  /** Split of a text of entries: their lines and a final empty piece. */
  lemma {:induction false} SplitTextOf(entries: seq<RepositoryStatusEntry>)
    requires forall i :: 0 <= i < |entries| ==> '\n' !in entries[i].path
    ensures var pieces := Split(TextOf(entries), '\n');
      |pieces| == |entries| + 1 && pieces[|entries|] == ""
      && forall i :: 0 <= i < |entries| ==> pieces[i] == LineOf(entries[i])
  {
    if entries == [] {
      assert Split("", '\n') == [""];
    } else {
      var line := LineOf(entries[0]);
      assert line == [SymbolOf(entries[0].indexStatus), SymbolOf(entries[0].workTreeStatus), ' '] + entries[0].path;
      assert '\n' !in line;
      SplitTextOf(entries[1..]);
      SplitFirstLine(line, TextOf(entries[1..]));
    }
  }

  /** Reading the porcelain text of entries whose paths hold no newline gives
      those entries back, in order. */
  lemma StatusRoundTrip(entries: seq<RepositoryStatusEntry>)
    requires forall i :: 0 <= i < |entries| ==> '\n' !in entries[i].path
    ensures IsStatusText(TextOf(entries))
    ensures StatusFromText(TextOf(entries)) == entries
  {
    SplitTextOf(entries);
    var data := StatusFromText(TextOf(entries));
    forall i | 0 <= i < |entries|
      ensures data[i] == entries[i]
    {
      EntryRoundTrip(entries[i]);
    }
  }
}
