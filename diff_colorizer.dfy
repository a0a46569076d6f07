/** The colouring of a diff shown in a text view (`diff_colorizer.rs`). One
    pass over the lines runs a three-state machine (outside a run, in a run
    of added lines, in a run of removed lines) and tags each run of added or
    removed lines as a whole, and each hunk header up to its closing ` @@`.
    The view is a text with a log of the tag applications and of the line
    edits made on it. */
module DiffColorizer {
  import opened Text

  datatype State = Normal | Added | Removed

  datatype Tag = AddedLineTag | RemovedLineTag | HunkHeaderTag

  /** One call of the view's tagging primitives. */
  datatype TagApplication =
    | Range(tag: Tag, start: nat, end: nat)                    // from line `start` up to line `end`
    | UntilMatchEnd(tag: Tag, line: nat, pattern: string)      // in line `line` up to the end of `pattern`
    | UntilEnd(tag: Tag, start: nat)                           // from line `start` to the end of the text

  /** The first and the last line an application touches (the end of the
      text counts as its start line). */
  function Lo(t: TagApplication): nat
  {
    match t
    case Range(_, start, _) => start
    case UntilMatchEnd(_, line, _) => line
    case UntilEnd(_, start) => start
  }

  function Hi(t: TagApplication): nat
  {
    match t
    case Range(_, _, end) => end
    case UntilMatchEnd(_, line, _) => line
    case UntilEnd(_, start) => start
  }

  /** Every range is non-empty. */
  predicate NonEmptyRanges(tags: seq<TagApplication>)
  {
    forall i :: 0 <= i < |tags| ==> tags[i].Range? ==> tags[i].start < tags[i].end
  }

  /** Each application ends at or before the line where the next starts. */
  predicate Ordered(tags: seq<TagApplication>)
  {
    forall i, j :: 0 <= i < j < |tags| ==> Hi(tags[i]) <= Lo(tags[j])
  }

  /** How a line drives the machine, by its first character; an empty line
      does not drive it. */
  datatype LineKind = AddedLine | RemovedLine | HunkHeader | OtherLine

  function KindOf(line: string): LineKind
    requires line != []
  {
    if line[0] == '+' then AddedLine
    else if line[0] == '-' then RemovedLine
    else if line[0] == '@' then HunkHeader
    else OtherLine
  }

  /** The tag of an open run. */
  function RunTag(state: State): Tag
    requires state != Normal
  {
    if state == Added then AddedLineTag else RemovedLineTag
  }

  /** The machine between lines: its state, the first line of the open run,
      and the tags applied so far. */
  datatype Scan = Scan(state: State, start: nat, tags: seq<TagApplication>)

  /** Closes the open run, if any, at line `n`. */
  function CloseAt(s: Scan, n: nat): seq<TagApplication>
  {
    if s.state == Normal then [] else [Range(RunTag(s.state), s.start, n)]
  }

  /** One line numbered `n` of kind `kind`. */
  function Step(s: Scan, n: nat, kind: LineKind): Scan
  {
    match kind
    case AddedLine =>
      if s.state == Added then s else Scan(Added, n, s.tags + CloseAt(s, n))
    case RemovedLine =>
      if s.state == Removed then s else Scan(Removed, n, s.tags + CloseAt(s, n))
    case HunkHeader =>
      Scan(Normal, s.start, s.tags + CloseAt(s, n) + [UntilMatchEnd(HunkHeaderTag, n, " @@")])
    case OtherLine =>
      Scan(Normal, s.start, s.tags + CloseAt(s, n))
  }

  /** The machine after the lines, started outside a run at line 0. */
  function ScanLines(lines: seq<string>): Scan
  {
    if lines == [] then Scan(Normal, 0, [])
    else
      var s := ScanLines(lines[..|lines| - 1]);
      var line := lines[|lines| - 1];
      if line == [] then s else Step(s, |lines| - 1, KindOf(line))
  }

  /** Extends a run still open after the last line to the end of the text. */
  function CloseLast(s: Scan): seq<TagApplication>
  {
    if s.state == Normal then [] else [UntilEnd(RunTag(s.state), s.start)]
  }

  /** The tag applications of one colouring pass over `text`. */
  function TagsFor(text: string): seq<TagApplication>
  {
    var s := ScanLines(Lines(text));
    s.tags + CloseLast(s)
  }

  /** What holds of the machine after `n` lines: ranges are non-empty and
      ordered and lie within the lines seen, and an open run starts at a
      seen line after every application. */
  predicate ScanInvariant(n: nat, s: Scan)
  {
    && NonEmptyRanges(s.tags)
    && Ordered(s.tags)
    && (forall i :: 0 <= i < |s.tags| ==> Hi(s.tags[i]) <= n)
    && (s.state != Normal ==> s.start < n && forall i :: 0 <= i < |s.tags| ==> Hi(s.tags[i]) <= s.start)
  }

  lemma AppendOrdered(tags: seq<TagApplication>, t: TagApplication)
    requires Ordered(tags) && NonEmptyRanges(tags)
    requires forall i :: 0 <= i < |tags| ==> Hi(tags[i]) <= Lo(t)
    requires t.Range? ==> t.start < t.end
    ensures Ordered(tags + [t]) && NonEmptyRanges(tags + [t])
  {
    var r := tags + [t];
    forall i, j | 0 <= i < j < |r| ensures Hi(r[i]) <= Lo(r[j]) {
      if j == |tags| {
        assert r[i] == tags[i];
      } else {
        assert r[i] == tags[i] && r[j] == tags[j];
      }
    }
  }

  /** Closing a run at the current line keeps the invariant. */
  lemma CloseAtKeeps(s: Scan, n: nat)
    requires ScanInvariant(n, s)
    ensures var tags := s.tags + CloseAt(s, n);
      && NonEmptyRanges(tags) && Ordered(tags)
      && (forall i :: 0 <= i < |tags| ==> Hi(tags[i]) <= n)
  {
    if s.state != Normal {
      AppendOrdered(s.tags, Range(RunTag(s.state), s.start, n));
    }
  }

  lemma StepKeeps(s: Scan, n: nat, kind: LineKind)
    requires ScanInvariant(n, s)
    ensures ScanInvariant(n + 1, Step(s, n, kind))
  {
    CloseAtKeeps(s, n);
    if kind == HunkHeader {
      AppendOrdered(s.tags + CloseAt(s, n), UntilMatchEnd(HunkHeaderTag, n, " @@"));
    }
  }

  lemma {:induction false} ScanLinesKeeps(lines: seq<string>)
    ensures ScanInvariant(|lines|, ScanLines(lines))
  {
    if lines != [] {
      var prefix := lines[..|lines| - 1];
      ScanLinesKeeps(prefix);
      if lines[|lines| - 1] != [] {
        StepKeeps(ScanLines(prefix), |lines| - 1, KindOf(lines[|lines| - 1]));
      }
    }
  }

  /** The ranges of a colouring pass are non-empty and come in line order. */
  lemma TagsAreOrdered(text: string)
    ensures NonEmptyRanges(TagsFor(text)) && Ordered(TagsFor(text))
  {
    var s := ScanLines(Lines(text));
    ScanLinesKeeps(Lines(text));
    if s.state != Normal {
      AppendOrdered(s.tags, UntilEnd(RunTag(s.state), s.start));
    }
  }

  /** Application `t` paints the whole of line `n` with `tag`. A hunk
      header's application paints only part of its line and is not counted. */
  predicate Paints(t: TagApplication, tag: Tag, n: nat)
  {
    match t
    case Range(rangeTag, start, end) => rangeTag == tag && start <= n < end
    case UntilMatchEnd(_, _, _) => false
    case UntilEnd(untilTag, start) => untilTag == tag && start <= n
  }

  /** Some application of `tags` paints line `n` with `tag`. */
  predicate Painted(tags: seq<TagApplication>, tag: Tag, n: nat)
  {
    exists i :: 0 <= i < |tags| && Paints(tags[i], tag, n)
  }

  lemma PaintedAppend(a: seq<TagApplication>, b: seq<TagApplication>, tag: Tag, n: nat)
    ensures Painted(a + b, tag, n) <==> Painted(a, tag, n) || Painted(b, tag, n)
  {
    var ab := a + b;
    if Painted(ab, tag, n) {
      var i :| 0 <= i < |ab| && Paints(ab[i], tag, n);
      if i < |a| {
        assert ab[i] == a[i];
      } else {
        assert ab[i] == b[i - |a|];
      }
    }
    if Painted(a, tag, n) {
      var i :| 0 <= i < |a| && Paints(a[i], tag, n);
      assert ab[i] == a[i];
    }
    if Painted(b, tag, n) {
      var i :| 0 <= i < |b| && Paints(b[i], tag, n);
      assert ab[|a| + i] == b[i];
    }
  }

  /** The machine paints line `n` with `tag`: an application made so far
      does, or the run still open will, from its first line on. */
  predicate ScanPaints(s: Scan, tag: Tag, n: nat)
  {
    Painted(s.tags, tag, n) || (s.state != Normal && RunTag(s.state) == tag && s.start <= n)
  }

  /** Closing the open run at line `k` paints exactly the run's lines above `k`. */
  lemma CloseAtPaints(s: Scan, k: nat, tag: Tag, n: nat)
    ensures Painted(CloseAt(s, k), tag, n) <==> s.state != Normal && RunTag(s.state) == tag && s.start <= n < k
  {
    if s.state != Normal {
      assert CloseAt(s, k)[0] == Range(RunTag(s.state), s.start, k);
    }
  }

  /** A step that does not leave the machine as it was appends the closed
      run, and a hunk header's application, and opens a run at `k` if any. */
  lemma StepShape(s: Scan, k: nat, kind: LineKind)
    ensures var s' := Step(s, k, kind);
      || s' == s
      || (&& s'.tags == s.tags + CloseAt(s, k) + (if kind == HunkHeader then [UntilMatchEnd(HunkHeaderTag, k, " @@")] else [])
          && (s'.state != Normal ==> s'.start == k))
  {
  }

  /** A step at line `k` leaves the painting of the lines above it as it was. */
  lemma StepKeepsPaint(s: Scan, k: nat, kind: LineKind, tag: Tag, n: nat)
    requires n < k
    ensures ScanPaints(Step(s, k, kind), tag, n) <==> ScanPaints(s, tag, n)
  {
    var s' := Step(s, k, kind);
    StepShape(s, k, kind);
    if s' != s {
      var hunk := if kind == HunkHeader then [UntilMatchEnd(HunkHeaderTag, k, " @@")] else [];
      CloseAtPaints(s, k, tag, n);
      PaintedAppend(s.tags + CloseAt(s, k), hunk, tag, n);
      PaintedAppend(s.tags, CloseAt(s, k), tag, n);
      assert !Painted(hunk, tag, n);
    }
  }

  /** A step at line `k` paints that line with the tag of its own kind only,
      when nothing painted it before. */
  lemma StepPaintsLine(s: Scan, k: nat, kind: LineKind, tag: Tag)
    requires !Painted(s.tags, tag, k)
    requires s.state != Normal ==> s.start < k
    ensures ScanPaints(Step(s, k, kind), tag, k) <==>
              (kind == AddedLine && tag == AddedLineTag) || (kind == RemovedLine && tag == RemovedLineTag)
  {
    var s' := Step(s, k, kind);
    StepShape(s, k, kind);
    if s' != s {
      var hunk := if kind == HunkHeader then [UntilMatchEnd(HunkHeaderTag, k, " @@")] else [];
      CloseAtPaints(s, k, tag, k);
      PaintedAppend(s.tags + CloseAt(s, k), hunk, tag, k);
      PaintedAppend(s.tags, CloseAt(s, k), tag, k);
      assert !Painted(hunk, tag, k);
    }
  }

  /** A step at line `k` paints no line below it. */
  lemma StepPaintsNothingBelow(s: Scan, k: nat, kind: LineKind, tag: Tag, n: nat)
    requires k < n && !Painted(s.tags, tag, n)
    ensures !Painted(Step(s, k, kind).tags, tag, n)
  {
    var s' := Step(s, k, kind);
    StepShape(s, k, kind);
    if s' != s {
      var hunk := if kind == HunkHeader then [UntilMatchEnd(HunkHeaderTag, k, " @@")] else [];
      CloseAtPaints(s, k, tag, n);
      PaintedAppend(s.tags + CloseAt(s, k), hunk, tag, n);
      PaintedAppend(s.tags, CloseAt(s, k), tag, n);
      assert !Painted(hunk, tag, n);
    }
  }

  /** A step at line `k` tags a hunk header, at `k`, exactly for a hunk header line. */
  lemma StepHunks(s: Scan, k: nat, kind: LineKind, n: nat)
    ensures UntilMatchEnd(HunkHeaderTag, n, " @@") in Step(s, k, kind).tags <==>
              UntilMatchEnd(HunkHeaderTag, n, " @@") in s.tags || (kind == HunkHeader && n == k)
  {
    StepShape(s, k, kind);
    assert UntilMatchEnd(HunkHeaderTag, n, " @@") !in CloseAt(s, k);
  }

  /** After `lines`, the machine paints each non-empty line with the added
      (removed) tag exactly when it starts with `+` (`-`), paints no later
      line, and has tagged a hunk header exactly at the lines starting with
      `@`. */
  ghost predicate Colours(lines: seq<string>, s: Scan)
  {
    && (s.state != Normal ==> s.start < |lines|)
    && (forall tag, n: nat :: |lines| <= n ==> !Painted(s.tags, tag, n))
    && (forall n :: 0 <= n < |lines| && lines[n] != [] ==>
          && (ScanPaints(s, AddedLineTag, n) <==> lines[n][0] == '+')
          && (ScanPaints(s, RemovedLineTag, n) <==> lines[n][0] == '-'))
    && (forall n: nat :: UntilMatchEnd(HunkHeaderTag, n, " @@") in s.tags <==>
          n < |lines| && lines[n] != [] && lines[n][0] == '@')
  }

  lemma ColoursStep(lines: seq<string>, s: Scan)
    requires lines != [] && Colours(lines[..|lines| - 1], s)
    ensures var line := lines[|lines| - 1];
      Colours(lines, if line == [] then s else Step(s, |lines| - 1, KindOf(line)))
  {
    var k := |lines| - 1;
    var prefix, line := lines[..k], lines[k];
    if line == [] {
      forall n | 0 <= n < k
        ensures lines[n] == prefix[n]
      {
      }
    } else {
      var kind := KindOf(line);
      var s' := Step(s, k, kind);
      forall n | 0 <= n < k && lines[n] != []
        ensures ScanPaints(s', AddedLineTag, n) <==> lines[n][0] == '+'
        ensures ScanPaints(s', RemovedLineTag, n) <==> lines[n][0] == '-'
      {
        assert prefix[n] == lines[n];
        StepKeepsPaint(s, k, kind, AddedLineTag, n);
        StepKeepsPaint(s, k, kind, RemovedLineTag, n);
      }
      StepPaintsLine(s, k, kind, AddedLineTag);
      StepPaintsLine(s, k, kind, RemovedLineTag);
      forall tag, n: nat | |lines| <= n
        ensures !Painted(s'.tags, tag, n)
      {
        StepPaintsNothingBelow(s, k, kind, tag, n);
      }
      forall n: nat
        ensures UntilMatchEnd(HunkHeaderTag, n, " @@") in s'.tags <==>
                  n < |lines| && lines[n] != [] && lines[n][0] == '@'
      {
        StepHunks(s, k, kind, n);
        if n < k {
          assert prefix[n] == lines[n];
        }
      }
    }
  }

  lemma {:induction false} ScanLinesColours(lines: seq<string>)
    ensures Colours(lines, ScanLines(lines))
  {
    if lines != [] {
      ScanLinesColours(lines[..|lines| - 1]);
      ColoursStep(lines, ScanLines(lines[..|lines| - 1]));
    }
  }

  /** The colouring of `text` paints a non-empty line with the added tag
      exactly when it starts with `+`, with the removed tag exactly when it
      starts with `-`, and tags it as a hunk header up to ` @@` exactly when
      it starts with `@`: each run of added or removed lines is painted from
      its first line up to the line that ends it. */
  lemma RunsArePainted(text: string, n: nat)
    requires n < |Lines(text)| && Lines(text)[n] != []
    ensures Painted(TagsFor(text), AddedLineTag, n) <==> Lines(text)[n][0] == '+'
    ensures Painted(TagsFor(text), RemovedLineTag, n) <==> Lines(text)[n][0] == '-'
    ensures UntilMatchEnd(HunkHeaderTag, n, " @@") in TagsFor(text) <==> Lines(text)[n][0] == '@'
  {
    var s := ScanLines(Lines(text));
    ScanLinesColours(Lines(text));
    PaintedAppend(s.tags, CloseLast(s), AddedLineTag, n);
    PaintedAppend(s.tags, CloseLast(s), RemovedLineTag, n);
    if s.state != Normal {
      assert CloseLast(s)[0] == UntilEnd(RunTag(s.state), s.start);
    }
  }

  /** A run of added lines switched directly to removed lines is closed at the
      switching line, where the removed run opens. */
  lemma SwitchClosesRun(s: Scan, n: nat)
    requires s.state == Added
    ensures Step(s, n, RemovedLine) == Scan(Removed, n, s.tags + [Range(AddedLineTag, s.start, n)])
  {
  }

  /** An empty line changes nothing. */
  lemma EmptyLineIgnored(lines: seq<string>)
    ensures ScanLines(lines + [""]) == ScanLines(lines)
  {
    assert (lines + [""])[..|lines|] == lines;
  }

  /** Scanning one more line of `lines` takes one step, unless the line is empty. */
  lemma ScanLinesNext(lines: seq<string>, n: nat)
    requires n < |lines|
    ensures ScanLines(lines[..n + 1]) ==
              if lines[n] == [] then ScanLines(lines[..n]) else Step(ScanLines(lines[..n]), n, KindOf(lines[n]))
  {
    assert lines[..n + 1][..n] == lines[..n];
  }

  /** A step appends to the tags it is given what it would emit from none. */
  lemma StepAppends(s: Scan, n: nat, kind: LineKind)
    ensures var e := Step(Scan(s.state, s.start, []), n, kind);
      Step(s, n, kind) == Scan(e.state, e.start, s.tags + e.tags)
  {
  }

  /** A change between an old and a new text, per run of lines. */
  datatype LineDiff = Equal(text: string) | Insert(text: string) | Delete(text: string)

  /** One call of the view's editing primitives. */
  datatype Edit = InsertTextAt(text: string, line: nat) | RemoveTextAt(line: nat, count: nat)

  function EditLine(e: Edit): nat
  {
    match e
    case InsertTextAt(_, line) => line
    case RemoveTextAt(line, _) => line
  }

  /** `text`, with a newline added unless it ends with one. */
  function EnsureTextEndsWithNewLine(text: string): (r: string)
    ensures EndsWith(r, "\n")
    ensures r == text || r == text + "\n"
    ensures EndsWith(text, "\n") ==> r == text
  {
    if EndsWith(text, "\n") then text else text + "\n"
  }

  /** The edit one difference makes at line `line`: inserted text, ending
      in a newline, is inserted there, deleted lines are removed from there,
      and equal lines are left alone. */
  function EditOf(d: LineDiff, line: nat): seq<Edit>
  {
    match d
    case Equal(_) => []
    case Insert(text) => [InsertTextAt(EnsureTextEndsWithNewLine(text), line)]
    case Delete(text) => [RemoveTextAt(line, |Lines(text)|)]
  }

  /** How far one difference moves the current line: over equal and inserted
      lines, and not at all for deleted ones. */
  function Advance(d: LineDiff): nat
  {
    match d
    case Equal(text) => |Lines(text)|
    case Insert(text) => |Lines(EnsureTextEndsWithNewLine(text))|
    case Delete(_) => 0
  }

  /** The edits of `differences` made from line `line` on. */
  function EditsFor(differences: seq<LineDiff>, line: nat): seq<Edit>
  {
    if differences == [] then []
    else EditOf(differences[0], line) + EditsFor(differences[1..], line + Advance(differences[0]))
  }

  /** No edit is above line `line`, and each is at or below the one before. */
  predicate GoesDownFrom(edits: seq<Edit>, line: nat)
  {
    && (forall i :: 0 <= i < |edits| ==> line <= EditLine(edits[i]))
    && (forall i, j :: 0 <= i < j < |edits| ==> EditLine(edits[i]) <= EditLine(edits[j]))
  }

  /** The edits one difference makes are all at the line given. */
  lemma EditOfAtLine(d: LineDiff, line: nat)
    ensures forall i :: 0 <= i < |EditOf(d, line)| ==> EditLine(EditOf(d, line)[i]) == line
  {
  }

  /** The edits go down the text from the starting line, so they can be made
      one after the other while the current line only moves down. */
  lemma {:induction false} EditsGoDown(differences: seq<LineDiff>, line: nat)
    ensures GoesDownFrom(EditsFor(differences, line), line)
  {
    if differences != [] {
      var first := EditOf(differences[0], line);
      var next := line + Advance(differences[0]);
      var rest := EditsFor(differences[1..], next);
      assert EditsFor(differences, line) == first + rest;
      EditOfAtLine(differences[0], line);
      EditsGoDown(differences[1..], next);
      GoesDownAppend(first, rest, line, next);
    }
  }

  /** Edits at one line, followed by edits going down from a line at or
      below it, go down from it. */
  lemma GoesDownAppend(first: seq<Edit>, rest: seq<Edit>, line: nat, next: nat)
    requires forall i :: 0 <= i < |first| ==> EditLine(first[i]) == line
    requires line <= next && GoesDownFrom(rest, next)
    ensures GoesDownFrom(first + rest, line)
  {
    var edits := first + rest;
    forall i | 0 <= i < |edits|
      ensures line <= EditLine(edits[i])
    {
      if i >= |first| {
        assert edits[i] == rest[i - |first|];
      }
    }
    forall i, j | 0 <= i < j < |edits|
      ensures EditLine(edits[i]) <= EditLine(edits[j])
    {
      if j >= |first| {
        assert edits[j] == rest[j - |first|];
        if i >= |first| {
          assert edits[i] == rest[i - |first|];
        }
      }
    }
  }

  /** The difference inserts or deletes lines. */
  predicate IsChange(d: LineDiff)
  {
    d.Insert? || d.Delete?
  }

  /** Making the edit of `differences[i]` after `edited` leaves the edits
      of the differences after it still to be made. */
  lemma EditsForStep(edited: seq<Edit>, differences: seq<LineDiff>, i: nat, line: nat)
    requires i < |differences|
    ensures EditsFor(differences[i..], line)
         == EditOf(differences[i], line) + EditsFor(differences[i + 1..], line + Advance(differences[i]))
    ensures edited + EditsFor(differences[i..], line)
         == (edited + EditOf(differences[i], line)) + EditsFor(differences[i + 1..], line + Advance(differences[i]))
  {
    assert differences[i..][1..] == differences[i + 1..];
    var made, rest := EditOf(differences[i], line), EditsFor(differences[i + 1..], line + Advance(differences[i]));
    assert EditsFor(differences[i..], line) == made + rest;
    ConcatAssociates(edited, made, rest);
  }

  lemma ConcatAssociates<T>(a: seq<T>, b: seq<T>, c: seq<T>)
    ensures a + (b + c) == (a + b) + c
  {
  }

  /** The text after `edits` are made on `text` one after the other, where
      `edit` is the buffer's own primitive that makes one edit. */
  function Patched(edit: (string, Edit) -> string, text: string, edits: seq<Edit>): string
    decreases |edits|
  {
    if edits == [] then text else Patched(edit, edit(text, edits[0]), edits[1..])
  }

  /** Making the edits `a` and then the edits `b` is making `a + b`. */
  lemma {:induction false} PatchedAppend(edit: (string, Edit) -> string, text: string, a: seq<Edit>, b: seq<Edit>)
    ensures Patched(edit, text, a + b) == Patched(edit, Patched(edit, text, a), b)
    decreases |a|
  {
    if a != [] {
      assert (a + b)[1..] == a[1..] + b;
      PatchedAppend(edit, edit(text, a[0]), a[1..], b);
    } else {
      assert a + b == b;
    }
  }

  /** Reports whether any difference inserts or deletes lines. */
  method DiffRequiresUpdating(differences: seq<LineDiff>) returns (r: bool)
    ensures r <==> exists i :: 0 <= i < |differences| && IsChange(differences[i])
  {
    if differences == [] {
      return false;
    }
    var i := 0;
    while i < |differences|
      invariant 0 <= i <= |differences|
      invariant forall j :: 0 <= j < i ==> !IsChange(differences[j])
    {
      match differences[i] {
        case Equal(_) =>
        case Delete(_) => return true;
        case Insert(_) => return true;
      }
      i := i + 1;
    }
    return false;
  }

  /** A text view: its text, the tags applied to it, and the edits made. */
  class TextView {
    var text: string
    var tags: seq<TagApplication>
    var edits: seq<Edit>

    constructor ()
      ensures text == "" && tags == [] && edits == []
    {
      text, tags, edits := "", [], [];
    }
  }

  /** Makes the edit of one difference at `currentLine` and returns the line
      the next difference starts at. `edit` is the buffer's primitive that
      inserts or removes lines. */
  method ApplyDifference(textView: TextView, d: LineDiff, currentLine: nat, edit: (string, Edit) -> string)
    returns (nextLine: nat)
    modifies textView
    ensures textView.edits == old(textView.edits) + EditOf(d, currentLine)
    ensures nextLine == currentLine + Advance(d)
    ensures textView.text == Patched(edit, old(textView.text), EditOf(d, currentLine))
    ensures textView.tags == old(textView.tags)
  {
    match d {
      case Equal(text) =>
        nextLine := currentLine + |Lines(text)|;
      case Insert(text) =>
        var inserted := EnsureTextEndsWithNewLine(text);
        var e := InsertTextAt(inserted, currentLine);
        textView.edits := textView.edits + [e];
        textView.text := edit(textView.text, e);
        nextLine := currentLine + |Lines(inserted)|;
      case Delete(text) =>
        var e := RemoveTextAt(currentLine, |Lines(text)|);
        textView.edits := textView.edits + [e];
        textView.text := edit(textView.text, e);
        nextLine := currentLine;
    }
  }

  /** Makes the edits of `differences` on the view, from line 0 down. */
  method UpdateDiff(textView: TextView, differences: seq<LineDiff>, edit: (string, Edit) -> string)
    modifies textView
    ensures textView.edits == old(textView.edits) + EditsFor(differences, 0)
    ensures textView.text == Patched(edit, old(textView.text), EditsFor(differences, 0))
    ensures textView.tags == old(textView.tags)
  {
    ghost var all := old(textView.edits) + EditsFor(differences, 0);
    ghost var patched := Patched(edit, old(textView.text), EditsFor(differences, 0));
    var currentLine: nat := 0;
    var i := 0;
    assert differences[i..] == differences;
    while i < |differences|
      invariant 0 <= i <= |differences|
      invariant textView.edits + EditsFor(differences[i..], currentLine) == all
      invariant Patched(edit, textView.text, EditsFor(differences[i..], currentLine)) == patched
      invariant textView.tags == old(textView.tags)
    {
      EditsForStep(textView.edits, differences, i, currentLine);
      PatchedAppend(edit, textView.text, EditOf(differences[i], currentLine),
                    EditsFor(differences[i + 1..], currentLine + Advance(differences[i])));
      currentLine := ApplyDifference(textView, differences[i], currentLine, edit);
      i := i + 1;
    }
  }

  class DiffColorizer {
    var tagStartLine: nat
    var state: State

    constructor ()
      ensures tagStartLine == 0 && state == Normal
    {
      tagStartLine := 0;
      state := Normal;
    }

    /** Shows `diff` in the view and colours it. Setting the text removes
        the tags the view had. */
    method Colorize(textView: TextView, diff: string)
      modifies this, textView
      ensures textView.text == diff && textView.tags == TagsFor(diff)
      ensures textView.edits == old(textView.edits)
    {
      textView.text := diff;
      textView.tags := [];
      ApplyTags(textView, diff);
    }

    /** Brings the view up to date with `differences` when they change
        anything: the tags are removed, the edits made with the buffer's
        primitive `edit`, and the edited text coloured afresh. */
    method Update(textView: TextView, differences: seq<LineDiff>, edit: (string, Edit) -> string)
      modifies this, textView
      ensures (forall i :: 0 <= i < |differences| ==> !IsChange(differences[i])) ==>
                textView.text == old(textView.text) && textView.tags == old(textView.tags)
                && textView.edits == old(textView.edits)
      ensures (exists i :: 0 <= i < |differences| && IsChange(differences[i])) ==>
                textView.edits == old(textView.edits) + EditsFor(differences, 0)
                && textView.text == Patched(edit, old(textView.text), EditsFor(differences, 0))
                && textView.tags == TagsFor(textView.text)
    {
      var requiresUpdating := DiffRequiresUpdating(differences);
      if !requiresUpdating {
        return;
      }
      textView.tags := [];
      UpdateDiff(textView, differences, edit);
      ApplyTags(textView, textView.text);
    }

    /** One colouring pass, from a reset machine. */
    method ApplyTags(textView: TextView, text: string)
      modifies this, textView
      ensures textView.tags == old(textView.tags) + TagsFor(text)
      ensures textView.text == old(textView.text) && textView.edits == old(textView.edits)
    {
      state := Normal;
      tagStartLine := 0;
      ApplyTagsBasedOnLineTypes(textView, text);
      CloseLastOpenTag(textView);
    }

    method ApplyTagsBasedOnLineTypes(textView: TextView, text: string)
      requires state == Normal && tagStartLine == 0
      modifies this, textView
      ensures var s := ScanLines(Lines(text));
        state == s.state && tagStartLine == s.start && textView.tags == old(textView.tags) + s.tags
      ensures textView.text == old(textView.text) && textView.edits == old(textView.edits)
    {
      var lines := Lines(text);
      var lineNumber := 0;
      while lineNumber < |lines|
        invariant 0 <= lineNumber <= |lines|
        invariant var s := ScanLines(lines[..lineNumber]);
          state == s.state && tagStartLine == s.start && textView.tags == old(textView.tags) + s.tags
        invariant textView.text == old(textView.text) && textView.edits == old(textView.edits)
      {
        var line := lines[lineNumber];
        ghost var scanned := ScanLines(lines[..lineNumber]);
        ScanLinesNext(lines, lineNumber);
        if line != [] {
          var kind := KindOf(line);
          StepAppends(scanned, lineNumber, kind);
          ApplyTagToLine(textView, lineNumber, kind);
          ConcatAssociates(old(textView.tags), scanned.tags, Step(Scan(scanned.state, scanned.start, []), lineNumber, kind).tags);
        }
        lineNumber := lineNumber + 1;
      }
      assert lines[..lineNumber] == lines;
    }

    /** Dispatches one non-empty line to the handler of its kind. */
    method ApplyTagToLine(textView: TextView, lineNumber: nat, kind: LineKind)
      modifies this, textView
      ensures var s := Step(Scan(old(state), old(tagStartLine), []), lineNumber, kind);
        state == s.state && tagStartLine == s.start && textView.tags == old(textView.tags) + s.tags
      ensures textView.text == old(textView.text) && textView.edits == old(textView.edits)
    {
      match kind {
        case AddedLine => ApplyTagToAddedLine(textView, lineNumber);
        case RemovedLine => ApplyTagToRemovedLine(textView, lineNumber);
        case HunkHeader => ApplyTagToHunkHeader(textView, lineNumber);
        case OtherLine => ApplyTagToNormalLine(textView, lineNumber);
      }
    }

    method ApplyTagToAddedLine(textView: TextView, lineNumber: nat)
      modifies this, textView
      ensures var s := Step(Scan(old(state), old(tagStartLine), []), lineNumber, AddedLine);
        state == s.state && tagStartLine == s.start && textView.tags == old(textView.tags) + s.tags
      ensures textView.text == old(textView.text) && textView.edits == old(textView.edits)
    {
      match state {
        case Normal =>
          tagStartLine := lineNumber;
          state := Added;
        case Added =>
        case Removed =>
          textView.tags := textView.tags + [Range(RemovedLineTag, tagStartLine, lineNumber)];
          tagStartLine := lineNumber;
          state := Added;
      }
    }

    method ApplyTagToRemovedLine(textView: TextView, lineNumber: nat)
      modifies this, textView
      ensures var s := Step(Scan(old(state), old(tagStartLine), []), lineNumber, RemovedLine);
        state == s.state && tagStartLine == s.start && textView.tags == old(textView.tags) + s.tags
      ensures textView.text == old(textView.text) && textView.edits == old(textView.edits)
    {
      match state {
        case Normal =>
          tagStartLine := lineNumber;
          state := Removed;
        case Added =>
          textView.tags := textView.tags + [Range(AddedLineTag, tagStartLine, lineNumber)];
          tagStartLine := lineNumber;
          state := Removed;
        case Removed =>
      }
    }

    method ApplyTagToHunkHeader(textView: TextView, lineNumber: nat)
      modifies this, textView
      ensures var s := Step(Scan(old(state), old(tagStartLine), []), lineNumber, HunkHeader);
        state == s.state && tagStartLine == s.start && textView.tags == old(textView.tags) + s.tags
      ensures textView.text == old(textView.text) && textView.edits == old(textView.edits)
    {
      match state {
        case Normal =>
        case Added =>
          textView.tags := textView.tags + [Range(AddedLineTag, tagStartLine, lineNumber)];
          state := Normal;
        case Removed =>
          textView.tags := textView.tags + [Range(RemovedLineTag, tagStartLine, lineNumber)];
          state := Normal;
      }
      textView.tags := textView.tags + [UntilMatchEnd(HunkHeaderTag, lineNumber, " @@")];
    }

    method ApplyTagToNormalLine(textView: TextView, lineNumber: nat)
      modifies this, textView
      ensures var s := Step(Scan(old(state), old(tagStartLine), []), lineNumber, OtherLine);
        state == s.state && tagStartLine == s.start && textView.tags == old(textView.tags) + s.tags
      ensures textView.text == old(textView.text) && textView.edits == old(textView.edits)
    {
      match state {
        case Normal =>
        case Added =>
          textView.tags := textView.tags + [Range(AddedLineTag, tagStartLine, lineNumber)];
          state := Normal;
        case Removed =>
          textView.tags := textView.tags + [Range(RemovedLineTag, tagStartLine, lineNumber)];
          state := Normal;
      }
    }

    method CloseLastOpenTag(textView: TextView)
      modifies textView
      ensures textView.tags == old(textView.tags) + CloseLast(Scan(state, tagStartLine, []))
      ensures textView.text == old(textView.text) && textView.edits == old(textView.edits)
    {
      match state {
        case Normal =>
        case Added => textView.tags := textView.tags + [UntilEnd(AddedLineTag, tagStartLine)];
        case Removed => textView.tags := textView.tags + [UntilEnd(RemovedLineTag, tagStartLine)];
      }
    }
  }
}
