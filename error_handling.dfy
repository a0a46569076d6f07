/** The text an error is reported with (`error_handling.rs`): the error's
    message, then its single cause or the numbered list of all its causes.
    An error is its chain of messages, outermost first; showing the dialog,
    printing and the backtrace are left out. */
module ErrorHandling {
  import opened Text

  /** The `n: cause` entries of `causes`, numbered from 1 in chain order. */
  function Numbered(causes: seq<string>): string
  {
    if causes == [] then ""
    else Numbered(causes[..|causes| - 1]) + "\n    " + NatToString(|causes|) + ": " + causes[|causes| - 1]
  }

  /** The report of an error whose messages, outermost first, are `chain`. */
  function Report(chain: seq<string>): (r: string)
    requires |chain| >= 1
    ensures StartsWith(r, "Error: " + chain[0])
    ensures |chain| == 1 ==> r == "Error: " + chain[0]
    ensures |chain| == 2 ==> r == "Error: " + chain[0] + "\n    Cause: " + chain[1]
    ensures |chain| > 2 ==> r == "Error: " + chain[0] + "\n    Causes:" + Numbered(chain[1..])
  {
    var head := "Error: " + chain[0];
    var r := if |chain| == 1 then head
             else if |chain| == 2 then head + "\n    Cause: " + chain[1]
             else head + "\n    Causes:" + Numbered(chain[1..]);
    assert r[..|head|] == head;
    r
  }

  /** The numbered list has one entry per cause: the first `k` causes give
      the first entries, and the `k`-th entry follows them. */
  lemma {:induction false} NumberedPrefix(causes: seq<string>, k: nat)
    requires k <= |causes|
    ensures StartsWith(Numbered(causes), Numbered(causes[..k]))
  {
    if k < |causes| {
      var init := causes[..|causes| - 1];
      assert init[..k] == causes[..k];
      NumberedPrefix(init, k);
      var shorter := Numbered(init);
      assert Numbered(causes)[..|shorter|] == shorter;
    } else {
      assert causes[..k] == causes;
    }
  }

  /** Appending a cause appends exactly its entry, numbered after the
      others. */
  lemma NumberedAppend(causes: seq<string>, cause: string)
    ensures Numbered(causes + [cause]) == Numbered(causes) + "\n    " + NatToString(|causes| + 1) + ": " + cause
  {
    assert (causes + [cause])[..|causes|] == causes;
  }

  /** `formatErr`: the message, then the causes as a single line or a
      numbered list. */
  method FormatErr(chain: seq<string>) returns (result: string)
    requires |chain| >= 1
    ensures result == Report(chain)
  {
    result := "";
    result := result + "Error: " + chain[0];
    if |chain| > 1 {
      if |chain| > 2 {
        result := FormatMultipleCauses(chain[1..], result);
      } else {
        result := FormatSingleCause(chain[1], result);
      }
    }
  }

  method FormatSingleCause(cause: string, result: string) returns (formatted: string)
    ensures formatted == result + "\n    Cause: " + cause
  {
    formatted := result + "\n    Cause: " + cause;
  }

  /** The heading, then one numbered line per cause of the chain that
      starts at `cause`. */
  method FormatMultipleCauses(causes: seq<string>, result: string) returns (formatted: string)
    ensures formatted == result + "\n    Causes:" + Numbered(causes)
  {
    formatted := result + "\n    Causes:";
    var n := 0;
    while n < |causes|
      invariant 0 <= n <= |causes|
      invariant formatted == result + "\n    Causes:" + Numbered(causes[..n])
    {
      assert causes[..n + 1][..n] == causes[..n];
      formatted := formatted + "\n    " + NatToString(n + 1) + ": " + causes[n];
      n := n + 1;
    }
    assert causes[..n] == causes;
  }
}
