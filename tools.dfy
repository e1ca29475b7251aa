/**
 * The analysis tools the workflow nodes call: function extraction
 * (post-processing of the pattern matches), the line-count complexity
 * metric, smell detection and the penalty-based quality score.
 */
module Tools {
  import opened Strings

  /** One function found in the submitted code: `{name, params, body}`. */
  datatype FunctionInfo = FunctionInfo(name: string, params: string, body: string)

  /**
   * The three groups of one match of the function pattern: name, raw
   * parameter text and raw indented body. The pattern itself (a regular
   * expression) is not modelled: the engine receives the matcher as a
   * parameter of type `string -> seq<RawMatch>`.
   */
  datatype RawMatch = RawMatch(name: string, params: string, body: string)

  // ---------------------------------------------------------------------
  // extract_functions

  /** The four indentation spaces removed from the front of a body line. */
  const Indentation: string := "    "

  function DedentLine(line: string): string {
    if |line| >= 4 && line[..4] == Indentation then line[4..] else line
  }

  /** The body as stored: every line de-indented once, rejoined with `"\n"`, then stripped. */
  function Dedent(body: string): string {
    var lines := SplitLines(body);
    Strip(Join(seq(|lines|, k requires 0 <= k < |lines| => DedentLine(lines[k])), "\n"))
  }

  function ToFunctionInfo(m: RawMatch): FunctionInfo {
    FunctionInfo(m.name, Strip(m.params), Dedent(m.body))
  }

  /** The functions `extract_functions` reports for the given matches, in match order. */
  function ExtractedOf(ms: seq<RawMatch>): (fs: seq<FunctionInfo>)
    ensures |fs| == |ms|
    ensures forall k :: 0 <= k < |ms| ==> fs[k].name == ms[k].name
  {
    seq(|ms|, k requires 0 <= k < |ms| => ToFunctionInfo(ms[k]))
  }

  /** One function record per match, in order, with parameters stripped and the body de-indented. */
  method ExtractFunctions(code: string, findMatches: string -> seq<RawMatch>) returns (results: seq<FunctionInfo>)
    ensures results == ExtractedOf(findMatches(code))
    ensures forall k :: 0 <= k < |results| ==> results[k].params == Strip(results[k].params)
  {
    var matches := findMatches(code);
    results := [];
    var i := 0;
    while i < |matches|
      invariant 0 <= i <= |matches|
      invariant results == ExtractedOf(matches[..i])
    {
      var m := matches[i];
      var bodyText := Dedent(m.body);
      results := results + [FunctionInfo(m.name, Strip(m.params), bodyText)];
      i := i + 1;
    }
    assert matches[..i] == matches;
    forall k | 0 <= k < |results| ensures results[k].params == Strip(results[k].params) {
      StripIdempotent(matches[k].params);
    }
  }

  /** Indents every line by one level, as the body of a `def` appears in the source text. */
  function Indent(lines: seq<string>): (r: seq<string>)
    ensures |r| == |lines|
  {
    seq(|lines|, k requires 0 <= k < |lines| => Indentation + lines[k])
  }

  /** A line with visible characters at both ends and no line boundary. */
  predicate Visible(line: string) {
    line != [] && !IsSpace(line[0]) && !IsSpace(line[|line| - 1]) && NoLineBreak(line)
  }

  /** The lines of an indented block are an empty first line followed by the indented lines. */
  lemma SplitIndentedBlock(lines: seq<string>)
    requires forall k :: 0 <= k < |lines| ==> Visible(lines[k])
    ensures SplitLines("\n" + Join(Indent(lines), "\n")) == [""] + Indent(lines)
  {
    if lines == [] {
      assert "\n" + Join(Indent(lines), "\n") == "\n";
      assert LineEnd("\n") == 0;
      assert "\n"[1..] == [];
      return;
    }
    var raw := [""] + Indent(lines);
    assert Join(raw, "\n") == "\n" + Join(Indent(lines), "\n");
    forall k | 0 <= k < |raw| ensures NoLineBreak(raw[k]) {
      if k > 0 {
        assert raw[k] == Indentation + lines[k - 1];
        IndentedNoBreak(lines[k - 1]);
      }
    }
    SplitLinesOfJoin(raw);
  }

  /** Indenting a line adds no line break. */
  lemma IndentedNoBreak(line: string)
    requires Visible(line)
    ensures NoLineBreak(Indentation + line)
  {
    var s := Indentation + line;
    forall i | 0 <= i < |s| ensures !IsLineBreak(s[i]) {
      if i < 4 {
        assert s[i] == ' ';
      } else {
        assert s[i] == line[i - 4];
      }
    }
  }

  /** De-indenting the lines of an indented block recovers the original lines. */
  lemma DedentIndentedLines(lines: seq<string>)
    ensures var raw := [""] + Indent(lines);
      seq(|raw|, k requires 0 <= k < |raw| => DedentLine(raw[k])) == [""] + lines
  {
    var raw := [""] + Indent(lines);
    var dedented := seq(|raw|, k requires 0 <= k < |raw| => DedentLine(raw[k]));
    forall k | 0 <= k < |raw| ensures dedented[k] == ([""] + lines)[k] {
      if k > 0 {
        assert raw[k] == Indentation + lines[k - 1];
        assert raw[k][..4] == Indentation && raw[k][4..] == lines[k - 1];
      }
    }
  }

  /**
   * A matched body made of lines each indented once comes out as those
   * lines joined by `"\n"`: the leading newline and the indentation go.
   */
  lemma DedentIndentedBlock(lines: seq<string>)
    requires forall k :: 0 <= k < |lines| ==> Visible(lines[k])
    ensures Dedent("\n" + Join(Indent(lines), "\n")) == Join(lines, "\n")
  {
    SplitIndentedBlock(lines);
    DedentIndentedLines(lines);
    if lines == [] {
      assert Join([""], "\n") == "";
      return;
    }
    var body := Join(lines, "\n");
    JoinCons("", lines, "\n");
    assert Visible(lines[0]) && Visible(lines[|lines| - 1]);
    JoinFirst(lines, "\n");
    JoinLast(lines, "\n");
    assert ("\n" + body)[1..] == body;
    StripTrimmed(body);
  }

  /** A join starts with the first character of its first line when that line is not empty. */
  lemma JoinFirst(lines: seq<string>, sep: string)
    requires |lines| > 0 && lines[0] != []
    ensures var s := Join(lines, sep); s != [] && s[0] == lines[0][0]
  {
  }

  /** A join ends with the last character of its last line when that line is not empty. */
  lemma {:induction false} JoinLast(lines: seq<string>, sep: string)
    requires |lines| > 0 && lines[|lines| - 1] != []
    ensures var s := Join(lines, sep); s != [] && s[|s| - 1] == lines[|lines| - 1][|lines[|lines| - 1]| - 1]
  {
    if |lines| > 1 {
      JoinLast(lines[1..], sep);
    }
  }

  // ---------------------------------------------------------------------
  // check_complexity

  /** Complexity of a body: 0 when it is empty, else its number of non-blank lines. */
  function CheckComplexity(body: string): (n: nat)
    ensures body == [] ==> n == 0
    ensures n <= |SplitLines(body)|
  {
    if body == [] then 0 else CountNonBlank(SplitLines(body))
  }

  lemma VisibleIsNonBlank(line: string)
    requires Visible(line)
    ensures NonBlank(line)
  {
    StripTrimmed(line);
  }

  /** Visible lines are non-blank lines without line breaks. */
  lemma VisibleLines(lines: seq<string>)
    requires forall k :: 0 <= k < |lines| ==> Visible(lines[k])
    ensures forall k :: 0 <= k < |lines| ==> NonBlank(lines[k]) && NoLineBreak(lines[k])
  {
    forall k | 0 <= k < |lines| ensures NonBlank(lines[k]) {
      VisibleIsNonBlank(lines[k]);
    }
  }

  /**
   * A body made of `n` non-blank lines has complexity exactly `n`, whatever
   * whitespace (nested indentation included) the lines carry at their ends.
   */
  lemma ComplexityOfLines(lines: seq<string>)
    requires forall k :: 0 <= k < |lines| ==> NonBlank(lines[k]) && NoLineBreak(lines[k])
    ensures CheckComplexity(Join(lines, "\n")) == |lines|
  {
    SplitLinesOfJoin(lines);
    CountNonBlankAll(lines);
    if lines != [] {
      assert NonBlank(lines[0]);
      JoinFirst(lines, "\n");
    }
  }

  // ---------------------------------------------------------------------
  // detect_smells

  const TooManyParameters: string := "too_many_parameters"
  const LongFunction: string := "long_function"
  const ContainsTodo: string := "contains_TODO"

  /** Python's `str(n)` for a natural number: its decimal digits, most significant first. */
  function NatToString(n: nat): (s: string)
    ensures |s| > 0
    ensures forall i :: 0 <= i < |s| ==> '0' <= s[i] <= '9'
  {
    var digit := ['0' + (n % 10) as char];
    if n < 10 then digit else NatToString(n / 10) + digit
  }

  /** The smell text `"<name>: <tag><detail>"`. */
  function SmellMessage(name: string, tag: string, detail: string): string {
    name + ": " + tag + detail
  }

  /** `f"{name}: too_many_parameters ({param_count})"` */
  function TooManyMessage(name: string, count: nat): string {
    SmellMessage(name, TooManyParameters, " (" + NatToString(count) + ")")
  }

  /** `f"{name}: long_function ({complexity} lines)"` */
  function LongMessage(name: string, lines: nat): string {
    SmellMessage(name, LongFunction, " (" + NatToString(lines) + " lines)")
  }

  /** `f"{name}: contains_TODO"` */
  function TodoMessage(name: string): string {
    SmellMessage(name, ContainsTodo, "")
  }

  /** The first character after `"<name>: "` is the first character of the tag. */
  lemma SmellMessageTagStart(name: string, tag: string, detail: string)
    requires tag != []
    ensures SmellMessage(name, tag, detail)[|name| + 2] == tag[0]
  {
  }

  /** The three kinds of message of one function differ from each other. */
  lemma SmellMessagesDistinct(name: string, count: nat, lines: nat)
    ensures TooManyMessage(name, count) != LongMessage(name, lines)
    ensures TooManyMessage(name, count) != TodoMessage(name)
    ensures LongMessage(name, lines) != TodoMessage(name)
  {
    SmellMessageTagStart(name, TooManyParameters, " (" + NatToString(count) + ")");
    SmellMessageTagStart(name, LongFunction, " (" + NatToString(lines) + " lines)");
    SmellMessageTagStart(name, ContainsTodo, "");
  }

  /** Number of non-blank comma-separated parameters; 0 for blank parameter text. */
  function ParamCount(params: string): nat {
    if Strip(params) == [] then 0 else CountNonBlank(Split(params, ','))
  }

  /** Python's `"TODO" in body or "todo" in body`; no other casing is recognised. */
  predicate HasTodo(body: string) {
    Contains(body, "TODO") || Contains(body, "todo")
  }

  /** The smells of one function: too many parameters, long function, TODO, in that order. */
  function SmellsOf(f: FunctionInfo): (r: seq<string>)
    ensures |r| <= 3
    ensures |r| == (if ParamCount(f.params) > 4 then 1 else 0)
                 + (if CheckComplexity(f.body) > 20 then 1 else 0)
                 + (if HasTodo(f.body) then 1 else 0)
    ensures TooManyMessage(f.name, ParamCount(f.params)) in r <==> ParamCount(f.params) > 4
    ensures LongMessage(f.name, CheckComplexity(f.body)) in r <==> CheckComplexity(f.body) > 20
    ensures TodoMessage(f.name) in r <==> HasTodo(f.body)
    ensures forall k :: 0 <= k < |r| ==>
      r[k] in {TooManyMessage(f.name, ParamCount(f.params)), LongMessage(f.name, CheckComplexity(f.body)), TodoMessage(f.name)}
    ensures ParamCount(f.params) > 4 ==> r[0] == TooManyMessage(f.name, ParamCount(f.params))
    ensures HasTodo(f.body) ==> r[|r| - 1] == TodoMessage(f.name)
  {
    var tooMany := TooManyMessage(f.name, ParamCount(f.params));
    var long := LongMessage(f.name, CheckComplexity(f.body));
    var todo := TodoMessage(f.name);
    SmellMessagesDistinct(f.name, ParamCount(f.params), CheckComplexity(f.body));
    (if ParamCount(f.params) > 4 then [tooMany] else [])
    + (if CheckComplexity(f.body) > 20 then [long] else [])
    + (if HasTodo(f.body) then [todo] else [])
  }

  /** detect_smells: the three threshold checks, appending each smell found. */
  method DetectSmells(f: FunctionInfo) returns (smells: seq<string>)
    ensures smells == SmellsOf(f)
  {
    smells := [];
    var paramCount := 0;
    if Strip(f.params) != [] {
      paramCount := CountNonBlank(Split(f.params, ','));
    }
    assert paramCount == ParamCount(f.params);
    if paramCount > 4 {
      smells := smells + [TooManyMessage(f.name, paramCount)];
    }
    var complexity := CheckComplexity(f.body);
    if complexity > 20 {
      smells := smells + [LongMessage(f.name, complexity)];
    }
    if Contains(f.body, "TODO") || Contains(f.body, "todo") {
      smells := smells + [TodoMessage(f.name)];
    }
  }

  /** Parameter text made of `|parts|` non-blank, comma-free parts joined by commas counts `|parts|` parameters. */
  lemma ParamCountOfJoin(parts: seq<string>)
    requires forall k :: 0 <= k < |parts| ==> NonBlank(parts[k]) && ',' !in parts[k]
    ensures ParamCount(Join(parts, ",")) == |parts|
  {
    if parts != [] {
      SplitOfJoin(parts, ',');
      CountNonBlankAll(parts);
      var s := Join(parts, ",");
      if Strip(s) == [] {
        StripEmptyIff(s);
        JoinHasVisible(parts);
      }
    }
  }

  /** A join containing a non-blank part is not blank. */
  lemma {:induction false} JoinHasVisible(parts: seq<string>)
    requires |parts| > 0 && NonBlank(parts[0])
    ensures !AllSpace(Join(parts, ","))
  {
    StripEmptyIff(parts[0]);
    var i :| 0 <= i < |parts[0]| && !IsSpace(parts[0][i]);
    var s := Join(parts, ",");
    assert s[..|parts[0]|] == parts[0];
    assert s[i] == parts[0][i];
  }

  /** Four parameters raise no too-many-parameters smell; five do. */
  lemma TooManyParametersBoundary(name: string, parts: seq<string>, body: string)
    requires forall k :: 0 <= k < |parts| ==> NonBlank(parts[k]) && ',' !in parts[k]
    ensures var f := FunctionInfo(name, Join(parts, ","), body);
      TooManyMessage(name, |parts|) in SmellsOf(f) <==> |parts| > 4
  {
    ParamCountOfJoin(parts);
  }

  /** Twenty non-blank lines raise no long-function smell; twenty-one do. */
  lemma LongFunctionBoundary(name: string, params: string, lines: seq<string>)
    requires forall k :: 0 <= k < |lines| ==> NonBlank(lines[k]) && NoLineBreak(lines[k])
    ensures var f := FunctionInfo(name, params, Join(lines, "\n"));
      LongMessage(name, |lines|) in SmellsOf(f) <==> |lines| > 20
  {
    ComplexityOfLines(lines);
  }

  /** The TODO check sees upper-case `TODO` and lower-case `todo` anywhere in the body. */
  lemma TodoDetected(before: string, after: string)
    ensures HasTodo(before + "TODO" + after)
    ensures HasTodo(before + "todo" + after)
  {
    ContainsMiddle(before, "TODO", after);
    ContainsMiddle(before, "todo", after);
  }

  /** The TODO check is case-sensitive: a body reading just `Todo` raises no smell. */
  lemma MixedCaseTodoIgnored()
    ensures !HasTodo("Todo")
  {
    var s := "Todo";
    assert s[..4][1] != "TODO"[1] && s[..4][0] != "todo"[0];
    assert |s[1..]| < 4;
  }

  // ---------------------------------------------------------------------
  // suggest_improvements

  /** The penalty of one smell: the first tag found decides, in the order parameters, long, TODO. */
  function Penalty(smell: string): (p: nat)
    ensures 5 <= p <= 25
  {
    if Contains(smell, TooManyParameters) then 20
    else if Contains(smell, LongFunction) then 25
    else if Contains(smell, ContainsTodo) then 10
    else 5
  }

  const GroupParameters: string := "Consider grouping parameters into a dataclass or reduce parameter count."
  const SplitFunction: string := "Split long functions into smaller helper functions."
  const ResolveTodo: string := "Resolve TODO comments or add tests/implementation."
  const Investigate: string := "Investigate: "

  /** The suggestion for one smell, chosen by the same first-match rule as its penalty. */
  function Suggestion(smell: string): string {
    if Contains(smell, TooManyParameters) then GroupParameters
    else if Contains(smell, LongFunction) then SplitFunction
    else if Contains(smell, ContainsTodo) then ResolveTodo
    else Investigate + smell
  }

  /** One suggestion per smell, in smell order. */
  function SuggestionsOf(smells: seq<string>): (r: seq<string>)
    ensures |r| == |smells|
    ensures forall k :: 0 <= k < |smells| ==> r[k] == Suggestion(smells[k])
  {
    seq(|smells|, k requires 0 <= k < |smells| => Suggestion(smells[k]))
  }

  /** Sum of the penalties of all smells. */
  function TotalPenalty(smells: seq<string>): (p: nat)
    ensures 5 * |smells| <= p <= 25 * |smells|
  {
    if smells == [] then 0 else TotalPenalty(smells[..|smells| - 1]) + Penalty(smells[|smells| - 1])
  }

  /** The quality score: 100 minus the total penalty, never below 0. */
  function Score(smells: seq<string>): (q: int)
    ensures 0 <= q <= 100
    ensures smells == [] ==> q == 100
    ensures TotalPenalty(smells) < 100 ==> q == 100 - TotalPenalty(smells)
    ensures TotalPenalty(smells) >= 100 ==> q == 0
  {
    if 100 - TotalPenalty(smells) > 0 then 100 - TotalPenalty(smells) else 0
  }

  /** suggest_improvements: one suggestion per smell and the accumulated penalty turned into a score. */
  method SuggestImprovements(smells: seq<string>) returns (suggestions: seq<string>, qualityScore: int)
    ensures suggestions == SuggestionsOf(smells)
    ensures qualityScore == Score(smells)
  {
    suggestions := [];
    var penalty := 0;
    var i := 0;
    while i < |smells|
      invariant 0 <= i <= |smells|
      invariant |suggestions| == i
      invariant forall k :: 0 <= k < i ==> suggestions[k] == Suggestion(smells[k])
      invariant penalty == TotalPenalty(smells[..i])
    {
      var s := smells[i];
      var suggestion, points;
      if Contains(s, TooManyParameters) {
        suggestion, points := GroupParameters, 20;
      } else if Contains(s, LongFunction) {
        suggestion, points := SplitFunction, 25;
      } else if Contains(s, ContainsTodo) {
        suggestion, points := ResolveTodo, 10;
      } else {
        suggestion, points := Investigate + s, 5;
      }
      assert suggestion == Suggestion(s) && points == Penalty(s);
      TotalPenaltyStep(smells, i);
      SuggestionsStep(suggestions, smells, i, suggestion);
      suggestions := suggestions + [suggestion];
      penalty := penalty + points;
      i := i + 1;
    }
    assert smells[..i] == smells;
    qualityScore := if 0 > 100 - penalty then 0 else 100 - penalty;
  }

  lemma SuggestionsStep(suggestions: seq<string>, smells: seq<string>, i: nat, next: string)
    requires i < |smells| && |suggestions| == i && next == Suggestion(smells[i])
    requires forall k :: 0 <= k < i ==> suggestions[k] == Suggestion(smells[k])
    ensures forall k :: 0 <= k < i + 1 ==> (suggestions + [next])[k] == Suggestion(smells[k])
  {
  }

  lemma TotalPenaltyStep(smells: seq<string>, i: nat)
    requires i < |smells|
    ensures TotalPenalty(smells[..i + 1]) == TotalPenalty(smells[..i]) + Penalty(smells[i])
  {
    assert smells[..i + 1][..i] == smells[..i];
  }

  // ---------------------------------------------------------------------
  // Properties of the score

  lemma {:induction false} TotalPenaltyAppend(a: seq<string>, b: seq<string>)
    ensures TotalPenalty(a + b) == TotalPenalty(a) + TotalPenalty(b)
    decreases |b|
  {
    if b == [] {
      assert a + b == a;
    } else {
      var b' := b[..|b| - 1];
      assert (a + b)[..|a + b| - 1] == a + b';
      TotalPenaltyAppend(a, b');
    }
  }

  /** The total penalty depends only on which smells occur, not on their order. */
  lemma {:induction false} TotalPenaltyPermutation(a: seq<string>, b: seq<string>)
    requires multiset(a) == multiset(b)
    ensures TotalPenalty(a) == TotalPenalty(b)
    decreases |a|
  {
    if a != [] {
      var x := a[|a| - 1];
      var a' := a[..|a| - 1];
      assert a == a' + [x];
      assert x in multiset(b);
      var j :| 0 <= j < |b| && b[j] == x;
      var b' := b[..j] + b[j + 1..];
      assert b == b[..j] + [x] + b[j + 1..];
      assert multiset(b) == multiset(b') + multiset{x};
      assert multiset(a) == multiset(a') + multiset{x};
      assert multiset(a') == multiset(a) - multiset{x};
      assert multiset(b') == multiset(b) - multiset{x};
      TotalPenaltyPermutation(a', b');
      TotalPenaltyAppend(a', [x]);
      TotalPenaltyAppend(b[..j], [x]);
      TotalPenaltyAppend(b[..j] + [x], b[j + 1..]);
      TotalPenaltyAppend(b[..j], b[j + 1..]);
    } else {
      assert |b| == |multiset(b)|;
    }
  }

  /** The quality score is invariant under any reordering of the smells. */
  lemma ScorePermutation(a: seq<string>, b: seq<string>)
    requires multiset(a) == multiset(b)
    ensures Score(a) == Score(b)
  {
    TotalPenaltyPermutation(a, b);
  }

  /** The suggestions for concatenated smell lists are the concatenated suggestions, as node_suggest builds them. */
  lemma SuggestionsOfAppend(a: seq<string>, b: seq<string>)
    ensures SuggestionsOf(a + b) == SuggestionsOf(a) + SuggestionsOf(b)
  {
    var l, r := SuggestionsOf(a + b), SuggestionsOf(a) + SuggestionsOf(b);
    assert |l| == |r|;
    forall k | 0 <= k < |l| ensures l[k] == r[k] {
      if k < |a| {
        assert (a + b)[k] == a[k];
      } else {
        assert (a + b)[k] == b[k - |a|];
      }
    }
  }

  /** Taking one smell out of a list takes its suggestion out of the suggestions. */
  lemma SuggestionsOfSplit(p: seq<string>, x: string, q: seq<string>)
    ensures multiset(SuggestionsOf(p + [x] + q)) == multiset(SuggestionsOf(p + q)) + multiset{Suggestion(x)}
  {
    SuggestionsOfAppend(p + [x], q);
    SuggestionsOfAppend(p, [x]);
    SuggestionsOfAppend(p, q);
    assert SuggestionsOf([x]) == [Suggestion(x)];
  }

  /** Reordering the smells reorders the suggestions and changes none of them. */
  lemma {:induction false} SuggestionsOfPermutation(a: seq<string>, b: seq<string>)
    requires multiset(a) == multiset(b)
    ensures multiset(SuggestionsOf(a)) == multiset(SuggestionsOf(b))
    decreases |a|
  {
    if a != [] {
      var x := a[|a| - 1];
      var a' := a[..|a| - 1];
      assert a == a' + [x] + [];
      assert x in multiset(b);
      var j :| 0 <= j < |b| && b[j] == x;
      assert b == b[..j] + [x] + b[j + 1..];
      assert multiset(a') == multiset(a) - multiset{x};
      assert multiset(b[..j] + b[j + 1..]) == multiset(b) - multiset{x};
      SuggestionsOfPermutation(a', b[..j] + b[j + 1..]);
      SuggestionsOfSplit(a', x, []);
      assert a' + [] == a';
      SuggestionsOfSplit(b[..j], x, b[j + 1..]);
    } else {
      assert |b| == |multiset(b)|;
    }
  }

  /** More smells never raise the score, and lower it while it is still positive. */
  lemma ScoreMonotone(a: seq<string>, b: seq<string>)
    ensures Score(a + b) <= Score(a)
    ensures b != [] && Score(a) > 0 ==> Score(a + b) < Score(a)
  {
    TotalPenaltyAppend(a, b);
  }

  // ---------------------------------------------------------------------
  // How smell messages are classified

  lemma ContainsLength(s: string, t: string)
    requires Contains(s, t)
    ensures |t| <= |s|
  {
  }

  /** A prefix of `a + [c] + b` longer than `a` contains `c`. */
  lemma PrefixOverSeparator(a: string, c: char, b: string, t: string)
    requires |t| <= |a| + 1 + |b| && (a + [c] + b)[..|t|] == t
    ensures |t| > |a| ==> c in t
  {
    if |t| > |a| {
      assert t[|a|] == (a + [c] + b)[|a|];
    }
  }

  /** An occurrence of `t` in `a + [c] + b` lies inside `a` or inside `b` when `c` is not a character of `t`. */
  lemma {:induction false} ContainsAroundSeparator(a: string, c: char, b: string, t: string)
    requires c !in t
    requires Contains(a + [c] + b, t)
    ensures Contains(a, t) || Contains(b, t)
    decreases |a|
  {
    var s := a + [c] + b;
    if s[..|t|] == t {
      PrefixOverSeparator(a, c, b, t);
      assert a[..|t|] == s[..|t|];
    } else if a == [] {
      assert s[1..] == b;
    } else {
      assert s[1..] == a[1..] + [c] + b;
      ContainsAroundSeparator(a[1..], c, b, t);
      if Contains(a[1..], t) {
        ContainsLength(a[1..], t);
      }
    }
  }

  /** A string lacking one of the characters of `t` does not contain `t`. */
  lemma {:induction false} NotContainsChar(s: string, t: string, c: char)
    requires c in t && c !in s
    ensures !Contains(s, t)
    decreases |s|
  {
    if |s| >= |t| {
      NotContainsChar(s[1..], t, c);
    }
  }

  /** What follows the tag: nothing, or a space and text without `_`. */
  predicate Detail(d: string) {
    d == [] || (d[0] == ' ' && '_' !in d)
  }

  lemma CountDetails(n: nat)
    ensures Detail(" (" + NatToString(n) + ")")
    ensures Detail(" (" + NatToString(n) + " lines)")
  {
  }

  /**
   * A word with `_` but without `:` or space occurs in a smell message only
   * if it occurs in the name or in the tag.
   */
  lemma NotContainsInMessage(name: string, tag: string, detail: string, t: string)
    requires ':' !in t && ' ' !in t && '_' in t
    requires Detail(detail)
    requires !Contains(name, t) && !Contains(tag, t)
    ensures !Contains(SmellMessage(name, tag, detail), t)
  {
    var rest := tag + detail;
    if detail != [] {
      assert rest == tag + [' '] + detail[1..];
      NotContainsChar(detail[1..], t, '_');
      if Contains(tag + [' '] + detail[1..], t) {
        ContainsAroundSeparator(tag, ' ', detail[1..], t);
      }
    } else {
      assert rest == tag;
    }
    assert SmellMessage(name, tag, detail) == name + [':'] + (" " + rest);
    assert " " + rest == [] + [' '] + rest;
    if Contains([] + [' '] + rest, t) {
      ContainsAroundSeparator([], ' ', rest, t);
    }
    if Contains(name + [':'] + (" " + rest), t) {
      ContainsAroundSeparator(name, ':', " " + rest, t);
    }
  }

  /** No tag checked earlier occurs inside a tag checked later. */
  lemma TagsApart()
    ensures !Contains(LongFunction, TooManyParameters)
    ensures !Contains(ContainsTodo, TooManyParameters)
    ensures !Contains(ContainsTodo, LongFunction)
  {
    assert ContainsTodo[..|LongFunction|][0] != LongFunction[0];
  }

  lemma MessageContainsTag(name: string, tag: string, detail: string)
    ensures Contains(SmellMessage(name, tag, detail), tag)
  {
    ContainsMiddle(name + ": ", tag, detail);
  }

  /** The function name mentions none of the three tags. */
  predicate TagFreeName(name: string) {
    !Contains(name, TooManyParameters) && !Contains(name, LongFunction) && !Contains(name, ContainsTodo)
  }

  /** For a name without tags, each smell message is penalised by its own tag. */
  lemma PenaltyOfSmellMessage(name: string, count: nat, lines: nat)
    requires TagFreeName(name)
    ensures Penalty(TooManyMessage(name, count)) == 20
    ensures Suggestion(TooManyMessage(name, count)) == GroupParameters
    ensures Penalty(LongMessage(name, lines)) == 25
    ensures Suggestion(LongMessage(name, lines)) == SplitFunction
    ensures Penalty(TodoMessage(name)) == 10
    ensures Suggestion(TodoMessage(name)) == ResolveTodo
  {
    MessageContainsTag(name, TooManyParameters, " (" + NatToString(count) + ")");
    PenaltyOfLongMessage(name, lines);
    PenaltyOfTodoMessage(name);
  }

  lemma PenaltyOfLongMessage(name: string, lines: nat)
    requires TagFreeName(name)
    ensures Penalty(LongMessage(name, lines)) == 25
    ensures Suggestion(LongMessage(name, lines)) == SplitFunction
  {
    var detail := " (" + NatToString(lines) + " lines)";
    CountDetails(lines);
    MessageContainsTag(name, LongFunction, detail);
    TagsApart();
    TagShape(TooManyParameters);
    NotContainsInMessage(name, LongFunction, detail, TooManyParameters);
  }

  lemma PenaltyOfTodoMessage(name: string)
    requires TagFreeName(name)
    ensures Penalty(TodoMessage(name)) == 10
    ensures Suggestion(TodoMessage(name)) == ResolveTodo
  {
    MessageContainsTag(name, ContainsTodo, "");
    TagsApart();
    TagShape(TooManyParameters);
    TagShape(LongFunction);
    NotContainsInMessage(name, ContainsTodo, "", TooManyParameters);
    NotContainsInMessage(name, ContainsTodo, "", LongFunction);
  }

  /**
   * A function with a tag-free name loses 20 points for too many
   * parameters, 25 for length and 10 for a TODO.
   */
  lemma PenaltyOfFunction(f: FunctionInfo)
    requires TagFreeName(f.name)
    ensures TotalPenalty(SmellsOf(f)) ==
      (if ParamCount(f.params) > 4 then 20 else 0)
      + (if CheckComplexity(f.body) > 20 then 25 else 0)
      + (if HasTodo(f.body) then 10 else 0)
  {
    var tooMany := TooManyMessage(f.name, ParamCount(f.params));
    var long := LongMessage(f.name, CheckComplexity(f.body));
    var todo := TodoMessage(f.name);
    PenaltyOfSmellMessage(f.name, ParamCount(f.params), CheckComplexity(f.body));
    var a: seq<string> := if ParamCount(f.params) > 4 then [tooMany] else [];
    var b: seq<string> := if CheckComplexity(f.body) > 20 then [long] else [];
    var c: seq<string> := if HasTodo(f.body) then [todo] else [];
    assert SmellsOf(f) == a + b + c;
    TotalPenaltyOfThree(a, b, c);
    TotalPenaltySingle(tooMany);
    TotalPenaltySingle(long);
    TotalPenaltySingle(todo);
  }

  lemma TotalPenaltySingle(smell: string)
    ensures TotalPenalty([smell]) == Penalty(smell)
  {
    assert [smell][..0] == [];
  }

  lemma TotalPenaltyOfThree(a: seq<string>, b: seq<string>, c: seq<string>)
    ensures TotalPenalty(a + b + c) == TotalPenalty(a) + TotalPenalty(b) + TotalPenalty(c)
  {
    TotalPenaltyAppend(a + b, c);
    TotalPenaltyAppend(a, b);
  }

  /**
   * Classification reads the whole message, name included: the TODO smell
   * of a function called `long_function` is penalised as a long function.
   */
  lemma NameDecidesClassification()
    ensures Penalty(TodoMessage(LongFunction)) == 25
    ensures Suggestion(TodoMessage(LongFunction)) == SplitFunction
  {
    TagsApart();
    ContainsMiddle([], LongFunction, []);
    assert [] + LongFunction + [] == LongFunction;
    TodoOfLongName(LongFunction);
  }

  /** A tag holds an underscore and neither a colon nor a space. */
  lemma TagShape(tag: string)
    requires tag in {TooManyParameters, LongFunction, ContainsTodo}
    ensures ':' !in tag && ' ' !in tag && '_' in tag
  {
    if tag == TooManyParameters {
      assert tag[3] == '_';
    } else if tag == LongFunction {
      assert tag[4] == '_';
    } else {
      assert tag[8] == '_';
    }
  }

  /** The TODO smell of a function whose name mentions `long_function` but not `too_many_parameters`. */
  lemma TodoOfLongName(name: string)
    requires Contains(name, LongFunction) && !Contains(name, TooManyParameters)
    ensures Penalty(TodoMessage(name)) == 25 && Suggestion(TodoMessage(name)) == SplitFunction
  {
    assert TodoMessage(name) == name + (": " + ContainsTodo);
    ContainsExtend(name, ": " + ContainsTodo, LongFunction);
    TagsApart();
    TagShape(TooManyParameters);
    NotContainsInMessage(name, ContainsTodo, "", TooManyParameters);
    ClassifiedLong(TodoMessage(name));
  }

  /** A smell that mentions `long_function` but not `too_many_parameters` is classified as a long function. */
  lemma ClassifiedLong(smell: string)
    requires !Contains(smell, TooManyParameters) && Contains(smell, LongFunction)
    ensures Penalty(smell) == 25 && Suggestion(smell) == SplitFunction
  {
  }
}
