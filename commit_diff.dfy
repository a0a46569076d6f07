/** The summary shown above a commit's diff in the commit log
    (`commit_diff.rs`): id, author, date and the message indented by four
    spaces, and the commit's diff as formatted text. The commit's fields
    are parameters; the date arrives already in RFC 2822 form. */
module CommitDiff {
  import opened Wrappers
  import opened Text
  import opened DiffFormatter

  /** Each line indented by four spaces and ended by a newline, in order. */
  function Tabulated(lines: seq<string>): string
  {
    if lines == [] then "" else Tabulated(lines[..|lines| - 1]) + "    " + lines[|lines| - 1] + "\n"
  }

  /** The message indented line by line. */
  method TabulateCommitMessage(message: string) returns (result: string)
    ensures result == Tabulated(Lines(message))
    ensures message == "" ==> result == ""
  {
    var lines := Lines(message);
    result := "";
    var i := 0;
    while i < |lines|
      invariant 0 <= i <= |lines|
      invariant result == Tabulated(lines[..i])
    {
      assert lines[..i + 1][..i] == lines[..i];
      result := result + "    " + lines[i] + "\n";
      i := i + 1;
    }
    assert lines[..i] == lines;
  }

  /** The tabulated text has one newline per line of the message. */
  lemma {:induction false} TabulatedNewlines(lines: seq<string>)
    requires forall i :: 0 <= i < |lines| ==> '\n' !in lines[i]
    ensures CountChar(Tabulated(lines), '\n') == |lines|
  {
    if lines != [] {
      var init, last := lines[..|lines| - 1], lines[|lines| - 1];
      TabulatedNewlines(init);
      CountCharConcat(Tabulated(init), "    " + last + "\n", '\n');
      CountCharConcat("    " + last, "\n", '\n');
      CountCharConcat("    ", last, '\n');
      CountCharAbsent(last, '\n');
      assert Tabulated(lines) == Tabulated(init) + ("    " + last + "\n");
    }
  }

  /** A message has as many newlines in its tabulated form as it has lines. */
  lemma MessageNewlines(message: string)
    ensures CountChar(Tabulated(Lines(message)), '\n') == |Lines(message)|
  {
    TabulatedNewlines(Lines(message));
  }

  /** The summary of a commit. The author's name and e-mail are unwrapped,
      so a commit whose author fields are not valid UTF-8 panics, which the
      precondition rules out. */
  method MakeCommitSummary(id: string, authorName: Option<string>, authorEmail: Option<string>,
                           date: string, message: string)
    returns (summary: string)
    requires authorName.Some? && authorEmail.Some?
    ensures summary == "Commit: " + id + "\nAuthor: " + authorName.value + " <" + authorEmail.value + ">\nDate:   "
                       + date + "\n\n" + Tabulated(Lines(message)) + "\n"
    ensures StartsWith(summary, "Commit: " + id + "\n")
    ensures EndsWith(summary, Tabulated(Lines(message)) + "\n")
  {
    var tabulated := TabulateCommitMessage(message);
    summary := "Commit: " + id + "\nAuthor: " + authorName.value + " <" + authorEmail.value + ">\nDate:   "
               + date + "\n\n" + tabulated + "\n";
    var head := "Commit: " + id + "\n";
    var tail := tabulated + "\n";
    assert summary == head + summary[|head|..];
    assert summary == summary[..|summary| - |tail|] + tail;
  }

  /** The commit's patch as text: every printed line through a fresh
      formatter, in order. */
  method MakeFormattedDiff(lines: seq<DiffLine>) returns (text: string)
    ensures text == FormattedAll(lines)
  {
    var formatter := new DiffFormatter();
    var i := 0;
    while i < |lines|
      invariant 0 <= i <= |lines|
      invariant formatter.text == FormattedAll(lines[..i])
    {
      assert lines[..i + 1][..i] == lines[..i];
      var _ := formatter.Format(lines[i]);
      i := i + 1;
    }
    assert lines[..i] == lines;
    text := formatter.TakeText();
  }
}
