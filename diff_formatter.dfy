/** The diff formatter (`diff_formatter.rs`): collects the lines git prints
    for a patch into one text, each with its origin character in front
    when it is a context, added or removed line. Decoding the bytes git
    hands over is left out: a line's content arrives as text. */
module DiffFormatter {
  import opened Text

  /** One line of a printed patch: its origin character (`+`, `-`, ` `,
      `F` for the file header, others for hunk headers and the like) and its
      content. */
  datatype DiffLine = DiffLine(origin: char, content: string)

  predicate IsContentOrigin(origin: char)
  {
    origin == '+' || origin == '-' || origin == ' '
  }

  /** What one line adds to the text: content lines keep their origin as a
      prefix, the file header adds nothing, and any other line its content
      as it is. */
  function Formatted(line: DiffLine): (r: string)
    ensures IsContentOrigin(line.origin) ==> r == [line.origin] + line.content && |r| == |line.content| + 1
    ensures line.origin == 'F' ==> r == ""
    ensures !IsContentOrigin(line.origin) && line.origin != 'F' ==> r == line.content
  {
    if IsContentOrigin(line.origin) then [line.origin] + line.content
    else if line.origin == 'F' then ""
    else line.content
  }

  /** The text a formatter holds after formatting `lines` in order. */
  function FormattedAll(lines: seq<DiffLine>): string
  {
    if lines == [] then "" else FormattedAll(lines[..|lines| - 1]) + Formatted(lines[|lines| - 1])
  }

  /** Formatting more lines only appends: the text so far stays a prefix. */
  lemma {:induction false} FormattedAllGrows(lines: seq<DiffLine>, k: nat)
    requires k <= |lines|
    ensures StartsWith(FormattedAll(lines), FormattedAll(lines[..k]))
  {
    if k < |lines| {
      assert lines[..|lines| - 1][..k] == lines[..k];
      FormattedAllGrows(lines[..|lines| - 1], k);
      var shorter := FormattedAll(lines[..|lines| - 1]);
      assert FormattedAll(lines) == shorter + Formatted(lines[|lines| - 1]);
      assert FormattedAll(lines)[..|shorter|] == shorter;
    } else {
      assert lines[..k] == lines;
    }
  }

  /** File headers contribute nothing to the text. */
  lemma {:induction false} FileHeadersAddNothing(lines: seq<DiffLine>)
    requires forall i :: 0 <= i < |lines| ==> lines[i].origin == 'F'
    ensures FormattedAll(lines) == ""
  {
    if lines != [] {
      FileHeadersAddNothing(lines[..|lines| - 1]);
    }
  }

  class DiffFormatter {
    var text: string

    constructor ()
      ensures text == ""
    {
      text := "";
    }

    /** Appends the formatted line; formatting never fails. */
    method Format(line: DiffLine) returns (succeeded: bool)
      modifies this
      ensures succeeded
      ensures text == old(text) + Formatted(line)
    {
      match line.origin {
        case '+' => AddContent(line.origin, line.content);
        case '-' => AddContent(line.origin, line.content);
        case ' ' => AddContent(line.origin, line.content);
        case 'F' =>
        case _ => AddHunkInfo(line.content);
      }
      succeeded := true;
    }

    function TakeText(): string
      reads this
    {
      text
    }

    method AddContent(prefix: char, line: string)
      modifies this
      ensures text == old(text) + [prefix] + line
    {
      text := text + [prefix] + line;
    }

    method AddHunkInfo(line: string)
      modifies this
      ensures text == old(text) + line
    {
      text := text + line;
    }
  }
}
