/** The part of the repository wrapper that sorts git status entries into
    unstaged and staged file changes (`repository.rs`). The git status query
    itself is an input: a sequence of entries, each with its set of status
    flags and its path, which is absent when it is not valid UTF-8. */
module Repository {
  import opened Wrappers
  import opened Text
  import opened FileChanges

  /** The git status flags. */
  datatype StatusFlag =
    | WtNew | WtModified | WtDeleted | WtTypechange | WtRenamed
    | IndexNew | IndexModified | IndexDeleted | IndexTypechange | IndexRenamed
    | Ignored | Conflicted

  /** The name git2 prints for a flag, which becomes the status of a change. */
  function FlagName(f: StatusFlag): string
  {
    match f
    case WtNew => "WT_NEW"
    case WtModified => "WT_MODIFIED"
    case WtDeleted => "WT_DELETED"
    case WtTypechange => "WT_TYPECHANGE"
    case WtRenamed => "WT_RENAMED"
    case IndexNew => "INDEX_NEW"
    case IndexModified => "INDEX_MODIFIED"
    case IndexDeleted => "INDEX_DELETED"
    case IndexTypechange => "INDEX_TYPECHANGE"
    case IndexRenamed => "INDEX_RENAMED"
    case Ignored => "IGNORED"
    case Conflicted => "CONFLICTED"
  }

  /** The work-tree flags, in the order of preference. */
  const UNSTAGED_STATUSES: seq<StatusFlag> := [WtNew, WtModified, WtDeleted, WtTypechange, WtRenamed]

  /** The index flags, in the order of preference. */
  const STAGED_STATUSES: seq<StatusFlag> := [IndexNew, IndexModified, IndexDeleted, IndexTypechange, IndexRenamed]

  datatype StatusEntry = StatusEntry(flags: set<StatusFlag>, path: Option<string>)

  /** The first flag of `order` that is set in `flags`, if any. */
  function FirstMatching(flags: set<StatusFlag>, order: seq<StatusFlag>): Option<StatusFlag>
  {
    if order == [] then None
    else if order[0] in flags then Some(order[0])
    else FirstMatching(flags, order[1..])
  }

  /** The flag found is set, and no flag before it in the ordering is; none
      is found exactly when no flag of the ordering is set. */
  lemma {:induction false} FirstMatchingIsFirst(flags: set<StatusFlag>, order: seq<StatusFlag>)
    ensures var r := FirstMatching(flags, order);
      && (r.None? <==> forall k :: 0 <= k < |order| ==> order[k] !in flags)
      && (r.Some? ==> exists k :: 0 <= k < |order| && order[k] == r.value && r.value in flags
                                  && forall j :: 0 <= j < k ==> order[j] !in flags)
  {
    if order != [] && order[0] !in flags {
      FirstMatchingIsFirst(flags, order[1..]);
      var r := FirstMatching(flags, order[1..]);
      if r.Some? {
        var k :| 0 <= k < |order[1..]| && order[1..][k] == r.value && r.value in flags
                 && forall j :: 0 <= j < k ==> order[1..][j] !in flags;
        assert order[k + 1] == r.value;
        forall j | 0 <= j < k + 1 ensures order[j] !in flags {
          if j > 0 { assert order[j] == order[1..][j - 1]; }
        }
      } else {
        forall k | 0 <= k < |order| ensures order[k] !in flags {
          if k > 0 { assert order[k] == order[1..][k - 1]; }
        }
      }
    }
  }

  /** The change one entry gives under one ordering: none, or one change
      named after the first matching flag. */
  function ChangeOf(entry: StatusEntry, order: seq<StatusFlag>): seq<FileChange>
    requires entry.path.Some?
  {
    match FirstMatching(entry.flags, order)
    case None => []
    case Some(f) => [FileChange(FlagName(f), entry.path.value)]
  }

  /** Whether collecting can get through `entries` without exiting: every path
      is UTF-8 and every entry has a work-tree or an index flag. */
  predicate Collectable(entries: seq<StatusEntry>)
  {
    forall i :: 0 <= i < |entries| ==>
      entries[i].path.Some?
      && (FirstMatching(entries[i].flags, UNSTAGED_STATUSES).Some?
          || FirstMatching(entries[i].flags, STAGED_STATUSES).Some?)
  }

  predicate PathsPresent(entries: seq<StatusEntry>)
  {
    forall i :: 0 <= i < |entries| ==> entries[i].path.Some?
  }

  /** The changes the entries give under one ordering, in entry order. */
  function Classify(entries: seq<StatusEntry>, order: seq<StatusFlag>): seq<FileChange>
    requires PathsPresent(entries)
  {
    if entries == [] then []
    else Classify(entries[..|entries| - 1], order) + ChangeOf(entries[|entries| - 1], order)
  }

  /** Classifying a concatenation classifies the parts: the changes keep the
      order of their entries. */
  lemma {:induction false} ClassifyAppend(a: seq<StatusEntry>, b: seq<StatusEntry>, order: seq<StatusFlag>)
    requires PathsPresent(a) && PathsPresent(b)
    ensures PathsPresent(a + b)
    ensures Classify(a + b, order) == Classify(a, order) + Classify(b, order)
    decreases |b|
  {
    var ab := a + b;
    assert PathsPresent(ab) by {
      forall i | 0 <= i < |ab| ensures ab[i].path.Some? {
        if i >= |a| { assert ab[i] == b[i - |a|]; }
      }
    }
    if b == [] {
      assert ab == a;
    } else {
      var b' := b[..|b| - 1];
      assert ab[..|ab| - 1] == a + b';
      ClassifyAppend(a, b', order);
    }
  }

  /** Each entry gives at most one change per ordering, and one exactly when
      one of the ordering's flags is set. */
  lemma AtMostOnePerEntry(entry: StatusEntry, order: seq<StatusFlag>)
    requires entry.path.Some?
    ensures PathsPresent([entry])
    ensures |Classify([entry], order)| <= 1
    ensures |Classify([entry], order)| == 1 <==> exists k :: 0 <= k < |order| && order[k] in entry.flags
  {
    assert [entry][..0] == [];
    FirstMatchingIsFirst(entry.flags, order);
  }

  /** Staging a work-tree name swaps its prefix. */
  lemma StagedName(wt: string, index: string, suffix: string)
    requires forall i :: 0 <= i < |suffix| - 1 ==> suffix[i] != 'W'
    requires wt == "WT" + suffix && index == "INDEX" + suffix
    ensures ToStaged(wt) == index
  {
    ReplaceAtFirst(suffix, "WT", "INDEX");
    assert !Contains(suffix, "WT") by {
      forall i: nat | i <= |suffix| ensures !OccursAt(suffix, i, "WT") {
        if i + 2 <= |suffix| {
          assert suffix[i..i + 2][0] == suffix[i] != 'W';
        }
      }
    }
    ReplaceAbsent(suffix, "WT", "INDEX");
  }

  /** A work-tree flag staged is named as the index flag at the same place
      of the orderings. */
  lemma StagedFlagNames(k: nat)
    requires k < |UNSTAGED_STATUSES|
    ensures ToStaged(FlagName(UNSTAGED_STATUSES[k])) == FlagName(STAGED_STATUSES[k])
  {
    if k == 0 {
      StagedName(FlagName(WtNew), FlagName(IndexNew), "_NEW");
    } else if k == 1 {
      StagedName(FlagName(WtModified), FlagName(IndexModified), "_MODIFIED");
    } else if k == 2 {
      StagedName(FlagName(WtDeleted), FlagName(IndexDeleted), "_DELETED");
    } else if k == 3 {
      StagedName(FlagName(WtTypechange), FlagName(IndexTypechange), "_TYPECHANGE");
    } else {
      StagedName(FlagName(WtRenamed), FlagName(IndexRenamed), "_RENAMED");
    }
  }

  /** Looks for the first of `statusTypes` set in the entry's flags and, if
      there is one, pushes the change it names. */
  method MaybeAddToFileChanges(entry: StatusEntry, fileChanges: seq<FileChange>, statusTypes: seq<StatusFlag>)
    returns (changes: seq<FileChange>, found: bool)
    requires entry.path.Some?
    ensures found <==> FirstMatching(entry.flags, statusTypes).Some?
    ensures changes == fileChanges + ChangeOf(entry, statusTypes)
  {
    var i := 0;
    while i < |statusTypes|
      invariant 0 <= i <= |statusTypes|
      invariant FirstMatching(entry.flags, statusTypes) == FirstMatching(entry.flags, statusTypes[i..])
    {
      if statusTypes[i] in entry.flags {
        changes := fileChanges + [FileChange(FlagName(statusTypes[i]), entry.path.value)];
        found := true;
        return;
      }
      assert statusTypes[i..][1..] == statusTypes[i + 1..];
      i := i + 1;
    }
    changes, found := fileChanges, false;
  }

  /** The repository's current file changes, grouped. */
  class Repository {
    var unstaged: seq<FileChange>
    var staged: seq<FileChange>

    constructor (entries: seq<StatusEntry>)
      requires Collectable(entries)
      ensures PathsPresent(entries)
      ensures unstaged == Classify(entries, UNSTAGED_STATUSES) && staged == Classify(entries, STAGED_STATUSES)
    {
      unstaged, staged := [], [];
      new;
      CollectCurrentFileChanges(entries);
    }

    /** Runs both classifiers over every entry and replaces both lists at
        the end; an entry without a UTF-8 path, or with neither a work-tree
        nor an index flag, exits the program, which the precondition rules
        out. */
    method CollectCurrentFileChanges(entries: seq<StatusEntry>)
      requires Collectable(entries)
      modifies this
      ensures PathsPresent(entries)
      ensures unstaged == Classify(entries, UNSTAGED_STATUSES)
      ensures staged == Classify(entries, STAGED_STATUSES)
    {
      var newUnstaged: seq<FileChange> := [];
      var newStaged: seq<FileChange> := [];
      var i := 0;
      while i < |entries|
        invariant 0 <= i <= |entries|
        invariant PathsPresent(entries[..i])
        invariant newUnstaged == Classify(entries[..i], UNSTAGED_STATUSES)
        invariant newStaged == Classify(entries[..i], STAGED_STATUSES)
      {
        var entry := entries[i];
        var statusFound := false;
        var foundUnstaged, foundStaged;
        newUnstaged, foundUnstaged := MaybeAddToFileChanges(entry, newUnstaged, UNSTAGED_STATUSES);
        newStaged, foundStaged := MaybeAddToFileChanges(entry, newStaged, STAGED_STATUSES);
        statusFound := foundUnstaged || foundStaged;
        assert statusFound;
        assert entries[..i + 1][..i] == entries[..i];
        i := i + 1;
      }
      assert entries[..i] == entries;
      unstaged, staged := newUnstaged, newStaged;
    }

    /** Something is staged. */
    function HasStagedChanges(): (r: bool)
      reads this
      ensures r <==> |staged| > 0
    {
      staged != []
    }
  }

  /** The HEAD commit, which an empty repository lacks. */
  function FindHeadCommit<C>(isRepositoryEmpty: bool, head: C): (r: Option<C>)
    ensures r.None? <==> isRepositoryEmpty
    ensures r.Some? ==> r.value == head
  {
    if isRepositoryEmpty then None else Some(head)
  }

  /** The parents of a new commit: none in an empty repository, otherwise
      just HEAD. */
  function FindParentCommits<C>(isRepositoryEmpty: bool, head: C): (r: seq<C>)
    ensures isRepositoryEmpty ==> r == []
    ensures !isRepositoryEmpty ==> r == [head]
  {
    match FindHeadCommit(isRepositoryEmpty, head)
    case Some(commit) => [commit]
    case None => []
  }
}
