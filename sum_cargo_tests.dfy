/** The `cargo test` summary filter: every input line is echoed, and after
    each line that starts with a test-result summary, a line with the running
    totals of the five counts is printed. Standard input is the sequence of
    lines given to `SumCargoTests`; standard output is the sequence of strings
    it returns, one per `write` or `print`. */
module SumCargoTests {
  import opened Wrappers
  import opened Text

  /** The five counts of one summary line, or their running sums. */
  datatype Totals = Totals(passed: nat, failed: nat, ignored: nat, measured: nat, filteredOut: nat)

  const ZERO := Totals(0, 0, 0, 0, 0)

  function Plus(a: Totals, b: Totals): Totals
  {
    Totals(a.passed + b.passed, a.failed + b.failed, a.ignored + b.ignored,
           a.measured + b.measured, a.filteredOut + b.filteredOut)
  }

  /** Every count of `a` is at most the same count of `b`. */
  predicate AtMost(a: Totals, b: Totals)
  {
    a.passed <= b.passed && a.failed <= b.failed && a.ignored <= b.ignored &&
    a.measured <= b.measured && a.filteredOut <= b.filteredOut
  }

  // ---------------------------------------------------------------------
  // The pattern
  //   test result: .*\. (\d+) passed; (\d+) failed; (\d+) ignored; (\d+) measured; (\d+) filtered out
  // applied with `re.match`, i.e. anchored at the first character of the line.
  // ---------------------------------------------------------------------

  const MARKER: string := "test result: "
  const LABELS: seq<string> := ["passed", "failed", "ignored", "measured", "filtered out"]

  /** Length of the run of decimal digits at the start of `s`. */
  function LeadingDigits(s: string): (n: nat)
    ensures n <= |s|
    ensures forall i :: 0 <= i < n ==> IsDigit(s[i])
    ensures n < |s| ==> !IsDigit(s[n])
  {
    if s == [] || !IsDigit(s[0]) then 0 else 1 + LeadingDigits(s[1..])
  }

  /** `(\d+) <label>` at the start of `s`: the number and the text after the
      label. A digit cannot match the space in front of the label, so the
      group takes exactly the leading digits. */
  function Field(s: string, name: string): Option<(nat, string)>
  {
    var n := LeadingDigits(s);
    if n > 0 && StartsWith(s[n..], " " + name) then Some((DigitsValue(s[..n]), s[n + 1 + |name|..]))
    else None
  }

  /** The fields for `labels`, separated by `; `, at the start of `s`;
      whatever follows the last label is not looked at. */
  function Fields(s: string, labels: seq<string>): (r: Option<seq<nat>>)
    ensures r.Some? ==> |r.value| == |labels|
    decreases |labels|
  {
    if labels == [] then Some([])
    else match Field(s, labels[0])
      case None => None
      case Some((v, rest)) =>
        if |labels| == 1 then Some([v])
        else if !StartsWith(rest, "; ") then None
        else match Fields(rest[2..], labels[1..])
          case None => None
          case Some(vs) => Some([v] + vs)
  }

  /** The rest of the pattern, `\. (\d+) passed; ...`, tried at index `k`. */
  function MatchAt(line: string, k: nat): Option<Totals>
    requires k <= |line|
  {
    if !StartsWith(line[k..], ". ") then None
    else match Fields(line[k + 2..], LABELS)
      case None => None
      case Some(vs) => Some(Totals(vs[0], vs[1], vs[2], vs[3], vs[4]))
  }

  /** `.*` after the marker can end at `k`: it does not cross a line break. */
  predicate DotStarEndsAt(line: string, k: nat)
  {
    |MARKER| <= k <= |line| && forall j :: |MARKER| <= j < k ==> line[j] != '\n'
  }

  /** The last index `.*` can reach: the first line break after the marker,
      or the end of the line. */
  function DotStarLimit(line: string): nat
    requires StartsWith(line, MARKER)
  {
    |MARKER| + IndexOf(line[|MARKER|..], '\n')
  }

  lemma DotStarLimitIsLast(line: string)
    requires StartsWith(line, MARKER)
    ensures DotStarLimit(line) <= |line|
    ensures forall k: nat :: DotStarEndsAt(line, k) <==> |MARKER| <= k <= DotStarLimit(line)
  {
    var rest := line[|MARKER|..];
    var b := DotStarLimit(line);
    assert forall j :: |MARKER| <= j < b ==> line[j] == rest[j - |MARKER|];
    assert b < |line| ==> line[b] == '\n';
  }

  /** Backtracking of the greedy `.*`: tries the end positions `at` from
      `k` down to `lo`, and returns the first match found. */
  function SearchDown(at: nat -> Option<Totals>, lo: nat, k: nat): Option<Totals>
    requires lo <= k
    decreases k
  {
    match at(k)
    case Some(t) => Some(t)
    case None => if k == lo then None else SearchDown(at, lo, k - 1)
  }

  /** The search succeeds iff some position from `lo` to `k` matches, and then
      returns the match at the last such position. */
  lemma {:induction false} SearchDownFinds(at: nat -> Option<Totals>, lo: nat, k: nat)
    requires lo <= k
    ensures SearchDown(at, lo, k).Some? <==> exists j :: lo <= j <= k && at(j).Some?
    ensures SearchDown(at, lo, k).Some? ==>
              exists j :: lo <= j <= k && at(j) == SearchDown(at, lo, k) &&
                          forall j' :: j < j' <= k ==> at(j').None?
    decreases k
  {
    if at(k).None? && k > lo {
      SearchDownFinds(at, lo, k - 1);
      assert forall j :: lo <= j <= k && at(j).Some? ==> j <= k - 1;
    }
  }

  /** The rest of the pattern tried at every end position of `.*` in `line`. */
  function MatchesAt(line: string): nat -> Option<Totals>
  {
    (k: nat) => if k <= |line| then MatchAt(line, k) else None
  }

  /** `re.match` of the pattern on `line`: the five groups of the match whose
      `.*` is longest. */
  function Match(line: string): Option<Totals>
  {
    if !StartsWith(line, MARKER) then None else SearchDown(MatchesAt(line), |MARKER|, DotStarLimit(line))
  }

  /** `Match` finds a match exactly when the pattern matches at the start of
      the line, and then reports the one whose `.*` is longest. */
  lemma MatchIsGreedy(line: string)
    ensures Match(line).Some? <==>
            StartsWith(line, MARKER) && exists k :: DotStarEndsAt(line, k) && MatchAt(line, k).Some?
    ensures Match(line).Some? ==>
            exists k :: DotStarEndsAt(line, k) && MatchAt(line, k) == Match(line) &&
                        forall k' :: k < k' && DotStarEndsAt(line, k') ==> MatchAt(line, k').None?
  {
    if StartsWith(line, MARKER) {
      DotStarLimitIsLast(line);
      var b := DotStarLimit(line);
      var at := MatchesAt(line);
      var r := SearchDown(at, |MARKER|, b);
      SearchDownFinds(at, |MARKER|, b);
      assert forall k :: |MARKER| <= k <= b ==> at(k) == MatchAt(line, k);
      if r.Some? {
        var j :| |MARKER| <= j <= b && at(j) == r &&
                 forall j' :: j < j' <= b ==> at(j').None?;
        assert DotStarEndsAt(line, j);
      }
    }
  }

  // ---------------------------------------------------------------------
  // The output
  // ---------------------------------------------------------------------

  /** One write to standard output: an echoed input line or a summary. */
  datatype Write = Echo(line: string) | Summary(totals: Totals)

  function SummaryText(t: Totals): string
  {
    "            sum: " + NatToString(t.passed) + " passed; " + NatToString(t.failed) + " failed; " +
    NatToString(t.ignored) + " ignored; " + NatToString(t.measured) + " measured; " +
    NatToString(t.filteredOut) + " filtered out"
  }

  /** The text of a write; `print` adds the line break after a summary. */
  function Render(w: Write): string
  {
    match w
    case Echo(line) => line
    case Summary(t) => SummaryText(t) + "\n"
  }

  function RenderAll(ws: seq<Write>): (r: seq<string>)
    ensures |r| == |ws|
  {
    if ws == [] then [] else RenderAll(ws[..|ws| - 1]) + [Render(ws[|ws| - 1])]
  }

  /** The counts of the matching lines, in input order. */
  function Matched(m: string -> Option<Totals>, lines: seq<string>): seq<Totals>
  {
    if lines == [] then []
    else
      var last := lines[|lines| - 1];
      Matched(m, lines[..|lines| - 1]) + (if m(last).Some? then [m(last).value] else [])
  }

  function SumAll(ts: seq<Totals>): Totals
  {
    if ts == [] then ZERO else Plus(SumAll(ts[..|ts| - 1]), ts[|ts| - 1])
  }

  /** The writes for one input line: its echo, then the totals if it
      matched. */
  function LineWrites(line: string, result: Option<Totals>, totals: Totals): seq<Write>
  {
    [Echo(line)] + (if result.Some? then [Summary(totals)] else [])
  }

  /** The writes the filter makes for `lines`: each line is echoed, and a
      matching line is followed by the totals over all matches so far. */
  function Transcript(m: string -> Option<Totals>, lines: seq<string>): seq<Write>
  {
    if lines == [] then []
    else
      var last := lines[|lines| - 1];
      Transcript(m, lines[..|lines| - 1]) + LineWrites(last, m(last), SumAll(Matched(m, lines)))
  }

  /** The loop of `main`. The five counters of the program are the five
      fields of `sums`; each is increased by the matching group. */
  method SumCargoTests(input: seq<string>) returns (output: seq<string>)
    ensures output == RenderAll(Transcript(Match, input))
  {
    var sums := ZERO;
    output := [];
    var i := 0;
    while i < |input|
      invariant 0 <= i <= |input|
      invariant sums == SumAll(Matched(Match, input[..i]))
      invariant output == RenderAll(Transcript(Match, input[..i]))
    {
      var line := input[i];
      Step(Match, input, i);
      output := output + [line];
      var result := Match(line);
      if result.Some? {
        sums := Plus(sums, result.value);
        output := output + [SummaryText(sums) + "\n"];
      }
      i := i + 1;
    }
    assert input[..|input|] == input;
  }

  // ---------------------------------------------------------------------
  // Properties
  // ---------------------------------------------------------------------

  /** What reading line `i` adds to the counters and to the output. */
  lemma Step(m: string -> Option<Totals>, input: seq<string>, i: nat)
    requires i < |input|
    ensures var before, line := SumAll(Matched(m, input[..i])), input[i];
            var after := if m(line).Some? then Plus(before, m(line).value) else before;
            SumAll(Matched(m, input[..i + 1])) == after &&
            RenderAll(Transcript(m, input[..i + 1])) ==
              RenderAll(Transcript(m, input[..i])) + [line] +
              (if m(line).Some? then [SummaryText(after) + "\n"] else [])
  {
    assert input[..i + 1] == input[..i] + [input[i]];
    StepTotals(m, input, i);
    StepOutput(m, input[..i], input[i]);
  }

  /** What reading one more line adds to the counters. */
  lemma StepTotals(m: string -> Option<Totals>, input: seq<string>, i: nat)
    requires i < |input|
    ensures m(input[i]).None? ==> SumAll(Matched(m, input[..i + 1])) == SumAll(Matched(m, input[..i]))
    ensures m(input[i]).Some? ==>
            SumAll(Matched(m, input[..i + 1])) == Plus(SumAll(Matched(m, input[..i])), m(input[i]).value)
  {
    var lines, line, all := input[..i], input[i], input[..i + 1];
    assert all[..|all| - 1] == lines;
    var ms := Matched(m, all);
    if m(line).Some? {
      assert ms == Matched(m, lines) + [m(line).value];
      assert ms[..|ms| - 1] == Matched(m, lines);
    } else {
      assert ms == Matched(m, lines);
    }
  }

  /** What reading one more line adds to the output. */
  lemma StepOutput(m: string -> Option<Totals>, lines: seq<string>, line: string)
    ensures RenderAll(Transcript(m, lines + [line])) ==
            RenderAll(Transcript(m, lines)) + [line] +
            (if m(line).Some? then [SummaryText(SumAll(Matched(m, lines + [line]))) + "\n"] else [])
  {
    var all := lines + [line];
    assert all[..|all| - 1] == lines;
    var ms := Matched(m, all);
    var tail := [Echo(line)] + (if m(line).Some? then [Summary(SumAll(ms))] else []);
    assert Transcript(m, all) == Transcript(m, lines) + tail;
    assert [Echo(line)][..0] == [];
    assert RenderAll([Echo(line)]) == [line];
    RenderAllAppend(Transcript(m, lines), tail);
    if m(line).Some? {
      RenderAllSnoc([Echo(line)], Summary(SumAll(ms)));
    }
  }

  lemma RenderAllSnoc(ws: seq<Write>, w: Write)
    ensures RenderAll(ws + [w]) == RenderAll(ws) + [Render(w)]
  {
    assert (ws + [w])[..|ws|] == ws;
  }

  lemma {:induction false} RenderAllAppend(a: seq<Write>, b: seq<Write>)
    ensures RenderAll(a + b) == RenderAll(a) + RenderAll(b)
    decreases |b|
  {
    if b == [] {
      assert a + b == a;
    } else {
      var b' := b[..|b| - 1];
      assert a + b == (a + b') + [b[|b| - 1]];
      RenderAllSnoc(a + b', b[|b| - 1]);
      RenderAllAppend(a, b');
    }
  }

  /** The input lines that `ws` echoes, in order. */
  function Echoes(ws: seq<Write>): seq<string>
  {
    if ws == [] then []
    else Echoes(ws[..|ws| - 1]) + (if ws[|ws| - 1].Echo? then [ws[|ws| - 1].line] else [])
  }

  /** The totals that `ws` prints, in order. */
  function Summaries(ws: seq<Write>): seq<Totals>
  {
    if ws == [] then []
    else Summaries(ws[..|ws| - 1]) + (if ws[|ws| - 1].Summary? then [ws[|ws| - 1].totals] else [])
  }

  lemma {:induction false} EchoesAppend(a: seq<Write>, b: seq<Write>)
    ensures Echoes(a + b) == Echoes(a) + Echoes(b)
    ensures Summaries(a + b) == Summaries(a) + Summaries(b)
    decreases |b|
  {
    if b == [] {
      assert a + b == a;
    } else {
      var b' := b[..|b| - 1];
      assert a + b == (a + b') + [b[|b| - 1]];
      assert (a + b)[..|a + b| - 1] == a + b';
      EchoesAppend(a, b');
    }
  }

  /** The running sums: entry `k` is the sum of the first `k + 1` counts. */
  function PrefixSums(ts: seq<Totals>): (r: seq<Totals>)
    ensures |r| == |ts|
  {
    if ts == [] then [] else PrefixSums(ts[..|ts| - 1]) + [SumAll(ts)]
  }

  lemma {:induction false} PrefixSumsAt(ts: seq<Totals>, k: nat)
    requires k < |ts|
    ensures PrefixSums(ts)[k] == SumAll(ts[..k + 1])
    decreases |ts|
  {
    if k < |ts| - 1 {
      var init := ts[..|ts| - 1];
      assert init[..k + 1] == ts[..k + 1];
      PrefixSumsAt(init, k);
    } else {
      assert ts[..k + 1] == ts;
    }
  }

  /** A line is echoed once, and summarised once if it matched. */
  lemma LineWritesContents(line: string, result: Option<Totals>, totals: Totals)
    ensures Echoes(LineWrites(line, result, totals)) == [line]
    ensures Summaries(LineWrites(line, result, totals)) == if result.Some? then [totals] else []
  {
    var echo := Echo(line);
    assert [echo][..0] == [];
    assert Echoes([echo]) == Echoes([]) + [line];
    assert Summaries([echo]) == Summaries([]);
    if result.Some? {
      var ws := [echo, Summary(totals)];
      assert LineWrites(line, result, totals) == ws;
      assert ws[..1] == [echo];
      assert Echoes(ws) == Echoes([echo]);
      assert Summaries(ws) == Summaries([echo]) + [totals];
    } else {
      assert LineWrites(line, result, totals) == [echo];
    }
  }

  lemma InitLast<T>(s: seq<T>)
    requires s != []
    ensures s[..|s| - 1] + [s[|s| - 1]] == s
  {
  }

  lemma EchoesSnoc(prefix: seq<Write>, tail: seq<Write>, init: seq<string>, last: string)
    requires Echoes(prefix) == init && Echoes(tail) == [last]
    ensures Echoes(prefix + tail) == init + [last]
  {
    EchoesAppend(prefix, tail);
  }

  /** Pass-through: the echoed lines are exactly the input lines, in order. */
  lemma {:induction false} EchoesAreInput(m: string -> Option<Totals>, lines: seq<string>)
    ensures Echoes(Transcript(m, lines)) == lines
    decreases |lines|
  {
    if lines != [] {
      var init, last := lines[..|lines| - 1], lines[|lines| - 1];
      var tail := LineWrites(last, m(last), SumAll(Matched(m, lines)));
      EchoesAreInput(m, init);
      LineWritesContents(last, m(last), SumAll(Matched(m, lines)));
      EchoesSnoc(Transcript(m, init), tail, init, last);
      InitLast(lines);
    }
  }

  /** Accumulation: the k-th printed summary holds the sums over the first
      k matching lines. */
  lemma {:induction false} SummariesArePrefixSums(m: string -> Option<Totals>, lines: seq<string>)
    ensures Summaries(Transcript(m, lines)) == PrefixSums(Matched(m, lines))
    decreases |lines|
  {
    if lines != [] {
      var init, last := lines[..|lines| - 1], lines[|lines| - 1];
      var tail := LineWrites(last, m(last), SumAll(Matched(m, lines)));
      LineWritesContents(last, m(last), SumAll(Matched(m, lines)));
      EchoesAppend(Transcript(m, init), tail);
      SummariesArePrefixSums(m, init);
      if m(last).Some? {
        assert Matched(m, lines) == Matched(m, init) + [m(last).value];
        assert Matched(m, lines)[..|Matched(m, lines)| - 1] == Matched(m, init);
      } else {
        assert Matched(m, lines) == Matched(m, init);
      }
    }
  }

  /** The k-th summary line, counted from 0, reports the sums over the
      first k + 1 matched lines. */
  lemma KthSummary(m: string -> Option<Totals>, lines: seq<string>, k: nat)
    requires k < |Summaries(Transcript(m, lines))|
    ensures |Matched(m, lines)| == |Summaries(Transcript(m, lines))|
    ensures Summaries(Transcript(m, lines))[k] == SumAll(Matched(m, lines)[..k + 1])
  {
    SummariesArePrefixSums(m, lines);
    PrefixSumsAt(Matched(m, lines), k);
  }

  /** One extra output line per matching line. */
  lemma {:induction false} TranscriptLength(m: string -> Option<Totals>, lines: seq<string>)
    ensures |Transcript(m, lines)| == |lines| + |Matched(m, lines)|
    decreases |lines|
  {
    if lines != [] {
      TranscriptLength(m, lines[..|lines| - 1]);
    }
  }

  /** Without a matching line the output is the input, unchanged. */
  lemma NoMatchNoSummary(m: string -> Option<Totals>, lines: seq<string>)
    requires Matched(m, lines) == []
    ensures RenderAll(Transcript(m, lines)) == lines
  {
    EchoesAreInput(m, lines);
    TranscriptLength(m, lines);
    NoSummaryRendersEchoes(Transcript(m, lines));
  }

  lemma {:induction false} NoSummaryRendersEchoes(ws: seq<Write>)
    requires |Echoes(ws)| == |ws|
    ensures RenderAll(ws) == Echoes(ws)
    decreases |ws|
  {
    if ws != [] {
      var init := ws[..|ws| - 1];
      EchoesLength(init);
      NoSummaryRendersEchoes(init);
    }
  }

  lemma {:induction false} EchoesLength(ws: seq<Write>)
    ensures |Echoes(ws)| <= |ws|
    decreases |ws|
  {
    if ws != [] {
      EchoesLength(ws[..|ws| - 1]);
    }
  }

  /** The counters never decrease as more lines are read. */
  lemma {:induction false} TotalsNeverDecrease(m: string -> Option<Totals>, a: seq<string>, b: seq<string>)
    ensures AtMost(SumAll(Matched(m, a)), SumAll(Matched(m, a + b)))
    decreases |b|
  {
    if b == [] {
      assert a + b == a;
    } else {
      var b' := b[..|b| - 1];
      assert (a + b)[..|a + b| - 1] == a + b';
      TotalsNeverDecrease(m, a, b');
      var ms := Matched(m, a + b);
      if ms != Matched(m, a + b') {
        assert ms[..|ms| - 1] == Matched(m, a + b');
      }
    }
  }

  /** A printed summary is indented, so it never counts as a match itself. */
  lemma SummaryIsNotMatched(t: Totals)
    ensures Match(SummaryText(t) + "\n").None?
  {
    var s := SummaryText(t) + "\n";
    assert s[0] == ' ' != MARKER[0];
  }
}
