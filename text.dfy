/** String operations of the Rust and Python standard libraries that the
    program relies on, written out on `seq<char>`. */
module Text {

  predicate StartsWith(s: string, prefix: string)
  {
    |prefix| <= |s| && s[..|prefix|] == prefix
  }

  predicate EndsWith(s: string, suffix: string)
  {
    |suffix| <= |s| && s[|s| - |suffix|..] == suffix
  }

  /** `p` occurs in `s` starting at index `i`. */
  predicate OccursAt(s: string, i: nat, p: string)
  {
    i + |p| <= |s| && s[i..i + |p|] == p
  }

  /** Rust `str::contains` with a string pattern. */
  predicate Contains(s: string, p: string)
  {
    exists i: nat :: i <= |s| && OccursAt(s, i, p)
  }

  lemma EmptyIsContained(s: string)
    ensures Contains(s, "")
  {
    assert OccursAt(s, 0, "");
  }

  /** Index of the first `c` in `s`, or `|s|` when there is none. */
  function IndexOf(s: string, c: char): (k: nat)
    ensures k <= |s|
    ensures k < |s| ==> s[k] == c
    ensures forall j :: 0 <= j < k ==> s[j] != c
  {
    if s == [] then 0
    else if s[0] == c then 0
    else 1 + IndexOf(s[1..], c)
  }

  function CountChar(s: string, c: char): nat
  {
    if s == [] then 0 else (if s[0] == c then 1 else 0) + CountChar(s[1..], c)
  }

  lemma {:induction false} CountCharConcat(a: string, b: string, c: char)
    ensures CountChar(a + b, c) == CountChar(a, c) + CountChar(b, c)
  {
    if a == [] {
      assert a + b == b;
    } else {
      assert (a + b)[1..] == a[1..] + b;
      CountCharConcat(a[1..], b, c);
    }
  }

  lemma {:induction false} CountCharAbsent(s: string, c: char)
    requires c !in s
    ensures CountChar(s, c) == 0
  {
    if s != [] {
      CountCharAbsent(s[1..], c);
    }
  }

  /** Drops one `\r` in front of a line terminator, as `str::lines` does. */
  function StripCr(line: string): string
  {
    if line != [] && line[|line| - 1] == '\r' then line[..|line| - 1] else line
  }

  /** Rust `str::lines`: the pieces between `\n` characters, without the
      terminators and without an empty piece after a final `\n`; a `\r`
      directly in front of a `\n` is removed with it. */
  function Lines(s: string): (r: seq<string>)
    ensures forall i :: 0 <= i < |r| ==> '\n' !in r[i]
    ensures s == [] <==> r == []
    decreases |s|
  {
    if s == [] then []
    else
      var k := IndexOf(s, '\n');
      if k == |s| then [s]
      else [StripCr(s[..k])] + Lines(s[k + 1..])
  }

  /** Rust `str::split` on one character: every piece, so never empty. */
  function Split(s: string, c: char): (r: seq<string>)
    ensures |r| >= 1
    ensures forall i :: 0 <= i < |r| ==> c !in r[i]
    decreases |s|
  {
    var k := IndexOf(s, c);
    if k == |s| then [s] else [s[..k]] + Split(s[k + 1..], c)
  }

  /** Rust `str::replace`: every non-overlapping occurrence of `from`, found
      from left to right, replaced by `to`. */
  function Replace(s: string, from: string, to: string): string
    requires from != []
    decreases |s|
  {
    if |s| < |from| then s
    else if s[..|from|] == from then to + Replace(s[|from|..], from, to)
    else [s[0]] + Replace(s[1..], from, to)
  }

  lemma {:induction false} NotContainsDrop(s: string, p: string, k: nat)
    requires !Contains(s, p) && k <= |s|
    ensures !Contains(s[k..], p)
  {
    if Contains(s[k..], p) {
      var i: nat :| i <= |s[k..]| && OccursAt(s[k..], i, p);
      assert s[k + i..k + i + |p|] == s[k..][i..i + |p|];
      assert OccursAt(s, k + i, p);
    }
  }

  /** Replacing a pattern that does not occur changes nothing. */
  lemma {:induction false} ReplaceAbsent(s: string, from: string, to: string)
    requires from != [] && !Contains(s, from)
    ensures Replace(s, from, to) == s
    decreases |s|
  {
    if |s| >= |from| {
      assert !OccursAt(s, 0, from);
      NotContainsDrop(s, from, 1);
      ReplaceAbsent(s[1..], from, to);
    }
  }

  /** A prefix of the replaced text made of characters other than the first
      one of `to` was already there before the replacement. */
  lemma {:induction false} ReplacedPrefix(u: string, from: string, to: string, p: string)
    requires from != [] && to != []
    requires forall k :: 0 <= k < |p| ==> p[k] != to[0]
    requires StartsWith(Replace(u, from, to), p)
    ensures StartsWith(u, p)
    decreases |u|
  {
    if p != [] && |u| >= |from| {
      assert Replace(u, from, to)[0] == if u[..|from|] == from then to[0] else u[0];
      if u[..|from|] != from {
        var r := Replace(u[1..], from, to);
        assert Replace(u, from, to) == [u[0]] + r;
        assert r[..|p| - 1] == ([u[0]] + r)[1..|p|];
        ReplacedPrefix(u[1..], from, to, p[1..]);
        assert u[..|p|] == [u[0]] + u[1..][..|p| - 1];
      }
    }
  }

  /** `Replace` on a text that starts with a character and does not start
      with the pattern. */
  lemma ReplaceSkipsFirst(c: char, x: string, from: string, to: string)
    requires from != [] && !StartsWith([c] + x, from)
    ensures Replace([c] + x, from, to) == [c] + Replace(x, from, to)
  {
    var t := [c] + x;
    assert t[1..] == x;
  }

  /** `Replace` on a text that starts with the pattern. */
  lemma ReplaceAtFirst(x: string, from: string, to: string)
    requires from != []
    ensures Replace(from + x, from, to) == to + Replace(x, from, to)
  {
    var t := from + x;
    assert t[..|from|] == from && t[|from|..] == x;
  }

  /** An occurrence of `p` in `c + x` is one at the front or one in `x`. */
  lemma OccurrenceInTail(c: char, x: string, p: string, i: nat)
    requires 0 < i && OccursAt([c] + x, i, p)
    ensures OccursAt(x, i - 1, p)
  {
    assert x[i - 1..i - 1 + |p|] == ([c] + x)[i..i + |p|];
  }

  /** An occurrence of `p` in `q + x` that starts inside `q` starts with a
      character of `q`. */
  lemma OccurrenceInside(q: string, x: string, p: string, i: nat)
    requires i < |q| && p != [] && OccursAt(q + x, i, p)
    ensures q[i] == p[0]
  {
    assert (q + x)[i] == (q + x)[i..i + |p|][0];
  }

  /** An occurrence of `p` in `q + x` that starts after `q` is one in `x`. */
  lemma OccurrenceAfter(q: string, x: string, p: string, i: nat)
    requires |q| <= i && OccursAt(q + x, i, p)
    ensures OccursAt(x, i - |q|, p)
  {
    assert x[i - |q|..i - |q| + |p|] == (q + x)[i..i + |p|];
  }

  /** When `to` shares no character with `from`, no occurrence of `from` is
      left after replacing. */
  lemma {:induction false} ReplaceRemovesAll(s: string, from: string, to: string)
    requires from != [] && to != []
    requires forall k, j :: 0 <= k < |to| && 0 <= j < |from| ==> to[k] != from[j]
    ensures !Contains(Replace(s, from, to), from)
    decreases |s|
  {
    var r := Replace(s, from, to);
    if |s| < |from| {
      assert forall i: nat :: i <= |r| ==> !OccursAt(r, i, from);
    } else if StartsWith(s, from) {
      var x := Replace(s[|from|..], from, to);
      assert s == from + s[|from|..];
      ReplaceAtFirst(s[|from|..], from, to);
      ReplaceRemovesAll(s[|from|..], from, to);
      forall i: nat | i <= |r| && OccursAt(r, i, from)
        ensures false
      {
        if i < |to| {
          OccurrenceInside(to, x, from, i);
        } else {
          OccurrenceAfter(to, x, from, i);
        }
      }
    } else {
      var x := Replace(s[1..], from, to);
      assert s == [s[0]] + s[1..];
      ReplaceSkipsFirst(s[0], s[1..], from, to);
      ReplaceRemovesAll(s[1..], from, to);
      forall i: nat | i <= |r| && OccursAt(r, i, from)
        ensures false
      {
        if i == 0 {
          StartsWithFirst(s[0], x, from);
          ReplacedPrefix(s[1..], from, to, from[1..]);
          StartsWithFirst(s[0], s[1..], from);
        } else {
          OccurrenceInTail(s[0], x, from, i);
        }
      }
    }
  }

  /** `c + x` starts with `p` exactly when `c` is the first character of
      `p` and `x` starts with the rest. */
  lemma StartsWithFirst(c: char, x: string, p: string)
    requires p != []
    ensures StartsWith([c] + x, p) <==> c == p[0] && StartsWith(x, p[1..])
  {
    if |p| <= |x| + 1 {
      assert ([c] + x)[..|p|] == [c] + x[..|p| - 1];
    }
  }

  /** Replacing `a` by `b` and then `b` by `a` gives the original back when
      `b` did not occur in it and cannot overlap itself through its first
      character. */
  lemma {:induction false} ReplaceRoundTrip(s: string, a: string, b: string)
    requires a != [] && b != []
    requires forall k :: 1 <= k < |b| ==> b[k] != b[0]
    requires !Contains(s, b)
    ensures Replace(Replace(s, a, b), b, a) == s
    decreases |s|
  {
    if |s| < |a| {
      ReplaceAbsent(s, b, a);
    } else if StartsWith(s, a) {
      var rest := s[|a|..];
      assert s == a + rest;
      ReplaceAtFirst(rest, a, b);
      ReplaceAtFirst(Replace(rest, a, b), b, a);
      NotContainsDrop(s, b, |a|);
      ReplaceRoundTrip(rest, a, b);
    } else {
      var rest := s[1..];
      var x := Replace(rest, a, b);
      assert s == [s[0]] + rest;
      ReplaceSkipsFirst(s[0], rest, a, b);
      NotContainsDrop(s, b, 1);
      ReplaceRoundTrip(rest, a, b);
      if StartsWith([s[0]] + x, b) {
        StartsWithFirst(s[0], x, b);
        ReplacedPrefix(rest, a, b, b[1..]);
        StartsWithFirst(s[0], rest, b);
        assert OccursAt(s, 0, b);
      }
      ReplaceSkipsFirst(s[0], x, b, a);
    }
  }

  predicate IsDigit(c: char)
  {
    '0' <= c <= '9'
  }

  function DigitValue(c: char): nat
    requires IsDigit(c)
  {
    (c as int - '0' as int) as nat
  }

  function DigitChar(d: nat): (c: char)
    requires d < 10
    ensures IsDigit(c) && DigitValue(c) == d
  {
    ('0' as int + d) as char
  }

  /** The number a string of decimal digits denotes (Python `int`). */
  function DigitsValue(s: string): nat
    requires forall i :: 0 <= i < |s| ==> IsDigit(s[i])
  {
    if s == [] then 0 else 10 * DigitsValue(s[..|s| - 1]) + DigitValue(s[|s| - 1])
  }

  /** Decimal rendering of a natural number, as `{}` formatting prints it. */
  function NatToString(n: nat): (r: string)
    ensures |r| >= 1
    ensures forall i :: 0 <= i < |r| ==> IsDigit(r[i])
  {
    if n < 10 then [DigitChar(n)] else NatToString(n / 10) + [DigitChar(n % 10)]
  }

  lemma {:induction false} NatToStringDigitsValue(n: nat)
    ensures DigitsValue(NatToString(n)) == n
  {
    if n >= 10 {
      var r := NatToString(n);
      assert r[..|r| - 1] == NatToString(n / 10);
      NatToStringDigitsValue(n / 10);
    }
  }

  /** ASCII lower-casing of one character. */
  function LowerChar(c: char): char
  {
    if 'A' <= c <= 'Z' then (c as int + 32) as char else c
  }

  /** `str::to_lowercase`, restricted to ASCII letters. */
  function ToLower(s: string): (r: string)
    ensures |r| == |s|
    ensures forall i :: 0 <= i < |s| ==> r[i] == LowerChar(s[i])
  {
    if s == [] then [] else [LowerChar(s[0])] + ToLower(s[1..])
  }

  /** ASCII whitespace as `char::is_whitespace` sees it. */
  predicate IsWhitespace(c: char)
  {
    c == ' ' || c == '\t' || c == '\n' || c == '\r' || c == '\U{000B}' || c == '\U{000C}'
  }

  /** Every character of `t` is whitespace. */
  predicate AllWhitespace(t: string)
  {
    forall k :: 0 <= k < |t| ==> IsWhitespace(t[k])
  }

  function TrimStart(s: string): (r: string)
    ensures r == [] || !IsWhitespace(r[0])
    ensures |r| <= |s| && r == s[|s| - |r|..]
    ensures AllWhitespace(s[..|s| - |r|])
  {
    if s != [] && IsWhitespace(s[0]) then
      var r := TrimStart(s[1..]);
      assert s[..|s| - |r|] == [s[0]] + s[1..][..|s| - 1 - |r|];
      r
    else s
  }

  function TrimEnd(s: string): (r: string)
    ensures r == [] || !IsWhitespace(r[|r| - 1])
    ensures |r| <= |s| && r == s[..|r|]
    ensures AllWhitespace(s[|r|..])
  {
    if s != [] && IsWhitespace(s[|s| - 1]) then
      var r := TrimEnd(s[..|s| - 1]);
      assert s[|r|..] == s[..|s| - 1][|r|..] + [s[|s| - 1]];
      r
    else s
  }

  /** `r` is the slice `s[i..j]` of `s`, and only whitespace is outside it. */
  predicate IsStripOf(r: string, s: string)
  {
    exists i, j :: 0 <= i <= j <= |s| && r == s[i..j] && AllWhitespace(s[..i]) && AllWhitespace(s[j..])
  }

  /** `str::trim`, restricted to ASCII whitespace: the slice of `s` without
      whitespace at its start and end. */
  function Trim(s: string): (r: string)
    ensures IsStripOf(r, s)
    ensures r == [] || (!IsWhitespace(r[0]) && !IsWhitespace(r[|r| - 1]))
  {
    var t := TrimStart(s);
    var u := TrimEnd(t);
    var i, j := |s| - |t|, |s| - |t| + |u|;
    SliceOfSlice(s, i, |u|);
    u
  }

  lemma SliceOfSlice<T>(s: seq<T>, i: nat, n: nat)
    requires i + n <= |s|
    ensures s[i..][..n] == s[i..i + n] && s[i..][n..] == s[i + n..]
  {
  }

  /** The strip of `s` whose ends are not whitespace is unique: it is
      `Trim(s)`. */
  lemma StripIsTrim(r: string, s: string)
    requires IsStripOf(r, s)
    requires r == [] || (!IsWhitespace(r[0]) && !IsWhitespace(r[|r| - 1]))
    ensures r == Trim(s)
  {
    var t := Trim(s);
    var i, j :| 0 <= i <= j <= |s| && r == s[i..j] && AllWhitespace(s[..i]) && AllWhitespace(s[j..]);
    var i', j' :| 0 <= i' <= j' <= |s| && t == s[i'..j'] && AllWhitespace(s[..i']) && AllWhitespace(s[j'..]);
    OutsideIsWhitespace(r, s, i, j);
    OutsideIsWhitespace(t, s, i', j');
    SameStrip(s, r, i, j, t, i', j');
  }

  /** Two slices of `s` with only whitespace outside them and none at their
      ends are the same. */
  lemma SameStrip(s: string, r: string, i: nat, j: nat, t: string, i': nat, j': nat)
    requires i <= j <= |s| && r == s[i..j] && i' <= j' <= |s| && t == s[i'..j']
    requires forall k :: 0 <= k < |s| && (k < i || j <= k) ==> IsWhitespace(s[k])
    requires forall k :: 0 <= k < |s| && (k < i' || j' <= k) ==> IsWhitespace(s[k])
    requires r == [] || (!IsWhitespace(r[0]) && !IsWhitespace(r[|r| - 1]))
    requires t == [] || (!IsWhitespace(t[0]) && !IsWhitespace(t[|t| - 1]))
    ensures r == t
  {
    if r != [] && t != [] {
      assert r[0] == s[i] && t[0] == s[i'];
      assert r[|r| - 1] == s[j - 1] && t[|t| - 1] == s[j' - 1];
      assert i == i' && j == j';
    }
  }

  /** The characters outside the slice `s[i..j]` of a strip are whitespace. */
  lemma OutsideIsWhitespace(r: string, s: string, i: nat, j: nat)
    requires i <= j <= |s| && r == s[i..j] && AllWhitespace(s[..i]) && AllWhitespace(s[j..])
    ensures forall k :: 0 <= k < |s| && (k < i || j <= k) ==> IsWhitespace(s[k])
  {
    forall k | 0 <= k < |s| && (k < i || j <= k)
      ensures IsWhitespace(s[k])
    {
      if k < i {
        assert s[..i][k] == s[k];
      } else {
        assert s[j..][k - j] == s[k];
      }
    }
  }

  /** Trimming a trimmed string changes nothing. */
  lemma TrimIdempotent(s: string)
    ensures Trim(Trim(s)) == Trim(s)
  {
    var r := Trim(s);
    assert TrimStart(r) == r;
    assert TrimEnd(r) == r;
  }
}
