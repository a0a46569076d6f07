/** The commits of the commit log (`commit_log.rs`): loaded once, newest
    first as the repository's walk yields them, each reduced to the fields
    the log shows. A commit as git gives it is a `RawCommit`; the date
    conversion is left to the caller. */
module CommitLog {
  import opened Wrappers
  import opened Text

  const INVALID_UTF8: string := "<invalid UTF-8>"

  /** A commit as the repository walk yields it; the author's name or
      e-mail is missing when it is not valid UTF-8. */
  datatype RawCommit = RawCommit(id: string, message: string, date: string,
                                 authorName: Option<string>, authorEmail: Option<string>)

  datatype CommitInfo = CommitInfo(id: string, summary: string, date: string, author: string, email: string)

  /** The first line of the message, trimmed, or "" for a message without
      lines. */
  function GetSummary(message: string): (r: string)
    ensures Lines(message) == [] ==> r == ""
    ensures Lines(message) != [] ==> IsStripOf(r, Lines(message)[0])
    ensures message == "" ==> r == ""
    ensures '\n' !in r
    ensures r == [] || (!IsWhitespace(r[0]) && !IsWhitespace(r[|r| - 1]))
  {
    var lines := Lines(message);
    if lines == [] then "" else Trim(lines[0])
  }

  /** A present field, or the placeholder for one that is not. */
  function OrInvalid(field: Option<string>): (r: string)
    ensures field.Some? ==> r == field.value
    ensures field.None? ==> r == INVALID_UTF8
  {
    match field
    case Some(text) => text
    case None => INVALID_UTF8
  }

  function InfoOf(commit: RawCommit): (info: CommitInfo)
    ensures info.id == commit.id && info.date == commit.date
    ensures info.summary == GetSummary(commit.message)
    ensures info.author == OrInvalid(commit.authorName) && info.email == OrInvalid(commit.authorEmail)
  {
    CommitInfo(commit.id, GetSummary(commit.message), commit.date,
               OrInvalid(commit.authorName), OrInvalid(commit.authorEmail))
  }

  class CommitLog {
    var commits: seq<CommitInfo>

    /** Loads the commits of a repository; an empty one has none. */
    constructor (repositoryIsEmpty: bool, walk: seq<RawCommit>)
      ensures repositoryIsEmpty ==> commits == []
      ensures !repositoryIsEmpty ==>
                |commits| == |walk| && forall i :: 0 <= i < |walk| ==> commits[i] == InfoOf(walk[i])
    {
      commits := [];
      new;
      LoadCommits(repositoryIsEmpty, walk);
    }

    /** The commit in `row`, if there is one. */
    function GetCommit(row: nat): (r: Option<CommitInfo>)
      reads this
      ensures r.Some? <==> row < |commits|
      ensures r.Some? ==> r.value == commits[row]
    {
      if row < |commits| then Some(commits[row]) else None
    }

    function GetCommits(): seq<CommitInfo>
      reads this
    {
      commits
    }

    /** One entry per commit of the walk, in its order. */
    method LoadCommits(repositoryIsEmpty: bool, walk: seq<RawCommit>)
      modifies this
      ensures repositoryIsEmpty ==> commits == old(commits)
      ensures !repositoryIsEmpty ==>
                |commits| == |old(commits)| + |walk|
                && commits[..|old(commits)|] == old(commits)
                && forall i :: 0 <= i < |walk| ==> commits[|old(commits)| + i] == InfoOf(walk[i])
    {
      if repositoryIsEmpty {
        return;
      }
      var i := 0;
      while i < |walk|
        invariant 0 <= i <= |walk|
        invariant |commits| == |old(commits)| + i
        invariant commits[..|old(commits)|] == old(commits)
        invariant forall j :: 0 <= j < i ==> commits[|old(commits)| + j] == InfoOf(walk[j])
      {
        var commit := walk[i];
        var summary := GetSummary(commit.message);
        var author := OrInvalid(commit.authorName);
        var email := OrInvalid(commit.authorEmail);
        var info := CommitInfo(commit.id, summary, commit.date, author, email);
        assert info == InfoOf(walk[i]);
        commits := commits + [info];
        i := i + 1;
      }
    }
  }
}
