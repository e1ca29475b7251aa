/**
 * The handful of Python `str` operations the analysis tools rely on:
 * `isspace`/`strip`, `splitlines`, `split(",")`, `"sep".join` and the
 * substring test `t in s`.
 */
module Strings {

  /** Python's `str.isspace` for one character (Unicode White_Space, as CPython reports it). */
  predicate IsSpace(c: char) {
    var n := c as int;
    (9 <= n <= 13) || (28 <= n <= 32) || n == 0x85 || n == 0xA0 || n == 0x1680
    || (0x2000 <= n <= 0x200A) || n == 0x2028 || n == 0x2029 || n == 0x202F
    || n == 0x205F || n == 0x3000
  }

  /** The line boundaries recognised by Python's `str.splitlines`. */
  predicate IsLineBreak(c: char) {
    var n := c as int;
    (10 <= n <= 13) || (28 <= n <= 30) || n == 0x85 || n == 0x2028 || n == 0x2029
  }

  predicate AllSpace(s: string) {
    forall i :: 0 <= i < |s| ==> IsSpace(s[i])
  }

  predicate NoLineBreak(s: string) {
    forall i :: 0 <= i < |s| ==> !IsLineBreak(s[i])
  }

  function TrimStart(s: string): string {
    if |s| > 0 && IsSpace(s[0]) then TrimStart(s[1..]) else s
  }

  function TrimEnd(s: string): string {
    if |s| > 0 && IsSpace(s[|s| - 1]) then TrimEnd(s[..|s| - 1]) else s
  }

  /** Python's `s.strip()`: drops leading and trailing whitespace. */
  function Strip(s: string): string {
    TrimEnd(TrimStart(s))
  }

  /** `TrimStart` removes a whitespace prefix and stops at the first visible character. */
  lemma {:induction false} TrimStartSpec(s: string)
    ensures var r := TrimStart(s);
      |r| <= |s| && r == s[|s| - |r|..] && AllSpace(s[..|s| - |r|]) && (r == [] || !IsSpace(r[0]))
  {
    if |s| > 0 && IsSpace(s[0]) {
      TrimStartSpec(s[1..]);
      var r := TrimStart(s);
      assert s[..|s| - |r|] == [s[0]] + s[1..][..|s| - 1 - |r|];
    }
  }

  /** `TrimEnd` removes a whitespace suffix and stops at the last visible character. */
  lemma {:induction false} TrimEndSpec(s: string)
    ensures var r := TrimEnd(s);
      |r| <= |s| && r == s[..|r|] && AllSpace(s[|r|..]) && (r == [] || !IsSpace(r[|r| - 1]))
  {
    if |s| > 0 && IsSpace(s[|s| - 1]) {
      TrimEndSpec(s[..|s| - 1]);
      var r := TrimEnd(s);
      assert s[|r|..] == s[..|s| - 1][|r|..] + [s[|s| - 1]];
    }
  }

  /** The result of `strip()` has visible characters at both ends. */
  lemma StripEnds(s: string)
    ensures var r := Strip(s); r == [] || (!IsSpace(r[0]) && !IsSpace(r[|r| - 1]))
  {
    var t := TrimStart(s);
    TrimStartSpec(s);
    TrimEndSpec(t);
  }

  /** `s.strip() == ""` holds exactly when every character of `s` is whitespace. */
  lemma StripEmptyIff(s: string)
    ensures Strip(s) == [] <==> AllSpace(s)
  {
    if AllSpace(s) {
      AllSpaceStrips(s);
    }
    if Strip(s) == [] {
      StrippedToNothing(s);
    }
  }

  lemma AllSpaceStrips(s: string)
    requires AllSpace(s)
    ensures Strip(s) == []
  {
    TrimStartSpec(s);
  }

  lemma StrippedToNothing(s: string)
    requires Strip(s) == []
    ensures AllSpace(s)
  {
    var t := TrimStart(s);
    TrimStartSpec(s);
    TrimEndSpec(t);
    assert t[0..] == t;
    assert t == [];
    forall i | 0 <= i < |s|
      ensures IsSpace(s[i])
    {
      assert s[..|s|][i] == s[i];
    }
  }

  /** A string with no whitespace at either end is its own `strip()`. */
  lemma StripTrimmed(s: string)
    requires s == [] || (!IsSpace(s[0]) && !IsSpace(s[|s| - 1]))
    ensures Strip(s) == s
  {
  }

  lemma StripIdempotent(s: string)
    ensures Strip(Strip(s)) == Strip(s)
  {
    StripEnds(s);
    StripTrimmed(Strip(s));
  }

  /** Python's `s.strip() != ""`: the line holds some visible character. */
  predicate NonBlank(s: string) {
    Strip(s) != []
  }

  /** Number of non-blank strings in `ls`. */
  function CountNonBlank(ls: seq<string>): (n: nat)
    ensures n <= |ls|
  {
    if ls == [] then 0 else CountNonBlank(ls[..|ls| - 1]) + (if NonBlank(ls[|ls| - 1]) then 1 else 0)
  }

  lemma {:induction false} CountNonBlankAll(ls: seq<string>)
    requires forall i :: 0 <= i < |ls| ==> NonBlank(ls[i])
    ensures CountNonBlank(ls) == |ls|
  {
    if ls != [] {
      CountNonBlankAll(ls[..|ls| - 1]);
    }
  }

  /** Index of the first line boundary in `s`, or `|s|` when there is none. */
  function LineEnd(s: string): (i: nat)
    ensures i <= |s|
  {
    if s == [] || IsLineBreak(s[0]) then 0 else 1 + LineEnd(s[1..])
  }

  /**
   * Python's `s.splitlines()`: split at every line boundary, `"\r\n"` counting
   * as one boundary; no trailing empty line, and `[]` for the empty string.
   */
  function SplitLines(s: string): seq<string>
    decreases |s|
  {
    if s == [] then []
    else
      var i := LineEnd(s);
      if i == |s| then [s]
      else
        var width := if s[i] == '\r' && i + 1 < |s| && s[i + 1] == '\n' then 2 else 1;
        [s[..i]] + SplitLines(s[i + width..])
  }

  /** Python's `sep.join(ls)`. */
  function Join(ls: seq<string>, sep: string): (s: string)
  {
    if |ls| == 0 then [] else if |ls| == 1 then ls[0] else ls[0] + sep + Join(ls[1..], sep)
  }

  /** Joining a line in front of a non-empty list puts one separator between them. */
  lemma JoinCons(l: string, ls: seq<string>, sep: string)
    requires |ls| > 0
    ensures Join([l] + ls, sep) == l + sep + Join(ls, sep)
  {
    assert ([l] + ls)[1..] == ls;
  }

  lemma LineEndOfJoin(l: string, rest: string)
    requires NoLineBreak(l)
    ensures LineEnd(l + "\n" + rest) == |l|
  {
    if l != [] {
      assert (l + "\n" + rest)[1..] == l[1..] + "\n" + rest;
      LineEndOfJoin(l[1..], rest);
    }
  }

  lemma LineEndNone(l: string)
    requires NoLineBreak(l)
    ensures LineEnd(l) == |l|
  {
    if l != [] {
      LineEndNone(l[1..]);
    }
  }

  /** Joining break-free lines with `"\n"` and splitting them again gives the lines back. */
  lemma {:induction false} SplitLinesOfJoin(ls: seq<string>)
    requires forall k :: 0 <= k < |ls| ==> NoLineBreak(ls[k])
    requires ls == [] || ls[|ls| - 1] != []
    ensures SplitLines(Join(ls, "\n")) == ls
  {
    if |ls| == 1 {
      LineEndNone(ls[0]);
    } else if |ls| > 1 {
      var rest := Join(ls[1..], "\n");
      var s := ls[0] + "\n" + rest;
      LineEndOfJoin(ls[0], rest);
      assert s[..|ls[0]|] == ls[0];
      assert s[|ls[0]| + 1..] == rest;
      SplitLinesOfJoin(ls[1..]);
      assert [ls[0]] + ls[1..] == ls;
    }
  }

  /** Index of the first `sep` in `s`, or `|s|` when there is none. */
  function IndexOf(s: string, sep: char): (i: nat)
    ensures i <= |s|
  {
    if s == [] || s[0] == sep then 0 else 1 + IndexOf(s[1..], sep)
  }

  /** Python's `s.split(sep)` for a one-character separator; `"".split(",") == [""]`. */
  function Split(s: string, sep: char): (parts: seq<string>)
    ensures |parts| > 0
    decreases |s|
  {
    var i := IndexOf(s, sep);
    if i == |s| then [s] else [s[..i]] + Split(s[i + 1..], sep)
  }

  lemma IndexOfJoin(p: string, sep: char, rest: string)
    requires sep !in p
    ensures IndexOf(p + [sep] + rest, sep) == |p|
  {
    if p != [] {
      assert (p + [sep] + rest)[1..] == p[1..] + [sep] + rest;
      IndexOfJoin(p[1..], sep, rest);
    }
  }

  lemma IndexOfNone(p: string, sep: char)
    requires sep !in p
    ensures IndexOf(p, sep) == |p|
  {
    if p != [] {
      IndexOfNone(p[1..], sep);
    }
  }

  /** Splitting a non-empty join at its separator gives the parts back. */
  lemma {:induction false} SplitOfJoin(parts: seq<string>, sep: char)
    requires |parts| > 0
    requires forall k :: 0 <= k < |parts| ==> sep !in parts[k]
    ensures Split(Join(parts, [sep]), sep) == parts
  {
    if |parts| == 1 {
      IndexOfNone(parts[0], sep);
    } else {
      var rest := Join(parts[1..], [sep]);
      var s := parts[0] + [sep] + rest;
      IndexOfJoin(parts[0], sep, rest);
      assert s[..|parts[0]|] == parts[0];
      assert s[|parts[0]| + 1..] == rest;
      SplitOfJoin(parts[1..], sep);
      assert [parts[0]] + parts[1..] == parts;
    }
  }

  /** Python's `t in s`: `t` occurs in `s` as a contiguous substring. */
  function Contains(s: string, t: string): bool
    decreases |s|
  {
    if |s| < |t| then false else s[..|t|] == t || Contains(s[1..], t)
  }

  /** A string contains every piece that it is built around. */
  lemma {:induction false} ContainsMiddle(a: string, t: string, b: string)
    ensures Contains(a + t + b, t)
  {
    if a == [] {
      assert (a + t + b)[..|t|] == t;
    } else {
      assert (a + t + b)[1..] == a[1..] + t + b;
      ContainsMiddle(a[1..], t, b);
    }
  }

  /** Text appended after a string keeps every piece the string contains. */
  lemma {:induction false} ContainsExtend(s: string, x: string, t: string)
    requires Contains(s, t)
    ensures Contains(s + x, t)
    decreases |s|
  {
    if s[..|t|] == t {
      assert (s + x)[..|t|] == t;
    } else {
      assert (s + x)[1..] == s[1..] + x;
      ContainsExtend(s[1..], x, t);
    }
  }
}
