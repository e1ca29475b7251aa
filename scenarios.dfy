/**
 * Concrete runs of the default graph: code without functions, a function
 * with every smell, and a clean function.
 */
module Scenarios {
  import opened Wrappers
  import opened Strings
  import opened Tools
  import opened Models
  import opened Workflows
  import opened Engine
  import opened Pipeline

  /**
   * The match a matcher reports for `def name(p1,...,pn):` followed by the
   * indented `lines` when it gives the indented block as the body group.
   */
  function MatchOf(name: string, parts: seq<string>, lines: seq<string>): RawMatch {
    RawMatch(name, Join(parts, ","), "\n" + Join(Indent(lines), "\n"))
  }

  /** Parameter text without padding at its ends and an indented block of visible lines are extracted as written. */
  lemma ExtractVisible(name: string, parts: seq<string>, lines: seq<string>)
    requires Strip(Join(parts, ",")) == Join(parts, ",")
    requires forall k :: 0 <= k < |lines| ==> Visible(lines[k])
    ensures ToFunctionInfo(MatchOf(name, parts, lines)) == FunctionInfo(name, Join(parts, ","), Join(lines, "\n"))
  {
    DedentIndentedBlock(lines);
  }

  /** A single match yields a single extracted function. */
  lemma OneMatch(finder: Matcher, code: string, m: RawMatch)
    requires finder(code) == [m]
    ensures FunctionsOf(finder, code) == [ToFunctionInfo(m)]
  {
    var fs := FunctionsOf(finder, code);
    assert |fs| == 1 && fs[0] == ToFunctionInfo(m);
  }

  /** A function with none of the three smells has an empty smell list and scores 100. */
  lemma NoSmellsOf(f: FunctionInfo)
    requires ParamCount(f.params) <= 4 && CheckComplexity(f.body) <= 20 && !HasTodo(f.body)
    ensures SmellsOf(f) == [] && Score(SmellsOf(f)) == 100 && SuggestionsOf(SmellsOf(f)) == []
  {
  }

  /** With a single extracted function, the smells of the run are that function's smells. */
  lemma SingleFunction(fs: seq<FunctionInfo>)
    requires |fs| == 1
    ensures AllSmells(fs) == SmellsOf(fs[0])
    ensures DetectEntries(fs) == if SmellsOf(fs[0]) != [] then [SmellEntry(fs[0].name, SmellsOf(fs[0]))] else []
  {
    assert fs[..0] == [];
  }

  /** Code in which the pattern finds nothing scores 100 and stops after the suggest node. */
  lemma NoFunctions(finder: Matcher, code: string)
    requires finder(code) == []
    ensures var t := RunSpec(DefaultGraph(), NodeFnMap(), finder, code);
      t.exit == Stopped && |t.log| == 9 && t.log[8] == StopEntry(100, 80)
      && t.shared.qualityScore == Some(100) && t.shared.functions == Some([])
      && t.shared.complexities == Some([]) && t.shared.smells == Some([]) && t.shared.suggestions == Some([])
  {
    DefaultRun(finder, code);
    assert FunctionsOf(finder, code) == [];
  }

  /** A run of the default graph on code holding one function: its smells decide score, suggestions and exit. */
  lemma OneFunctionRun(finder: Matcher, code: string, f: FunctionInfo)
    requires FunctionsOf(finder, code) == [f]
    ensures var t := RunSpec(DefaultGraph(), NodeFnMap(), finder, code);
      var q := Score(SmellsOf(f));
      t.exit == (if q >= 80 then Stopped else Finished)
      && |t.log| == (if q >= 80 then 9 else 8)
      && (q >= 80 ==> t.log[8] == StopEntry(q, 80))
      && t.shared.qualityScore == Some(q)
      && t.shared.smells == Some(if SmellsOf(f) != [] then [SmellEntry(f.name, SmellsOf(f))] else [])
      && t.shared.suggestions == Some(SuggestionsOf(SmellsOf(f)))
  {
    SingleFunction([f]);
    DefaultRun(finder, code);
  }

  /** A function with every smell, tag-free name: the three messages in order, and a score of 45. */
  lemma AllSmellsOf(f: FunctionInfo)
    requires TagFreeName(f.name)
    requires ParamCount(f.params) > 4 && CheckComplexity(f.body) > 20 && HasTodo(f.body)
    ensures SmellsOf(f) == [TooManyMessage(f.name, ParamCount(f.params)), LongMessage(f.name, CheckComplexity(f.body)), TodoMessage(f.name)]
    ensures Score(SmellsOf(f)) == 45
    ensures SuggestionsOf(SmellsOf(f)) == [GroupParameters, SplitFunction, ResolveTodo]
  {
    PenaltyOfFunction(f);
    PenaltyOfSmellMessage(f.name, ParamCount(f.params), CheckComplexity(f.body));
    var r := SuggestionsOf(SmellsOf(f));
    assert r[0] == GroupParameters && r[1] == SplitFunction && r[2] == ResolveTodo;
  }

  /** The smells of a function with more than four parameters, more than twenty lines and a TODO. */
  lemma SmellyFunctionSmells(name: string, parts: seq<string>, lines: seq<string>)
    requires TagFreeName(name)
    requires |parts| > 4 && forall k :: 0 <= k < |parts| ==> NonBlank(parts[k]) && ',' !in parts[k]
    requires |lines| > 20 && forall k :: 0 <= k < |lines| ==> NonBlank(lines[k]) && NoLineBreak(lines[k])
    requires HasTodo(Join(lines, "\n"))
    ensures var f := FunctionInfo(name, Join(parts, ","), Join(lines, "\n"));
      SmellsOf(f) == [TooManyMessage(name, |parts|), LongMessage(name, |lines|), TodoMessage(name)]
      && Score(SmellsOf(f)) == 45
      && SuggestionsOf(SmellsOf(f)) == [GroupParameters, SplitFunction, ResolveTodo]
  {
    ParamCountOfJoin(parts);
    ComplexityOfLines(lines);
    AllSmellsOf(FunctionInfo(name, Join(parts, ","), Join(lines, "\n")));
  }

  /**
   * One function with more than four parameters, more than twenty lines and
   * a TODO, reported by a matcher that gives its indented block as the body
   * group, loses 20 + 25 + 10 points: the score is 45, the run is not
   * stopped, and the three suggestions come in smell order.
   */
  lemma SmellyFunction(finder: Matcher, code: string, name: string, parts: seq<string>, lines: seq<string>)
    requires finder(code) == [MatchOf(name, parts, lines)]
    requires TagFreeName(name)
    requires Strip(Join(parts, ",")) == Join(parts, ",")
    requires |parts| > 4 && forall k :: 0 <= k < |parts| ==> NonBlank(parts[k]) && ',' !in parts[k]
    requires |lines| > 20 && forall k :: 0 <= k < |lines| ==> Visible(lines[k])
    requires HasTodo(Join(lines, "\n"))
    ensures var t := RunSpec(DefaultGraph(), NodeFnMap(), finder, code);
      t.exit == Finished && |t.log| == 8
      && t.shared.qualityScore == Some(45)
      && t.shared.suggestions == Some([GroupParameters, SplitFunction, ResolveTodo])
  {
    var f := FunctionInfo(name, Join(parts, ","), Join(lines, "\n"));
    ExtractVisible(name, parts, lines);
    OneMatch(finder, code, MatchOf(name, parts, lines));
    VisibleLines(lines);
    SmellyFunctionSmells(name, parts, lines);
    OneFunctionRun(finder, code, f);
  }

  /** A function whose only smell is too many parameters loses 20 points and gets the grouping suggestion. */
  lemma ParameterSmellOf(f: FunctionInfo)
    requires ParamCount(f.params) > 4 && CheckComplexity(f.body) <= 20 && !HasTodo(f.body)
    ensures SmellsOf(f) == [TooManyMessage(f.name, ParamCount(f.params))]
    ensures Score(SmellsOf(f)) == 80
    ensures SuggestionsOf(SmellsOf(f)) == [GroupParameters]
  {
    var m := TooManyMessage(f.name, ParamCount(f.params));
    MessageContainsTag(f.name, TooManyParameters, " (" + NatToString(ParamCount(f.params)) + ")");
    TotalPenaltySingle(m);
    assert SuggestionsOf([m])[0] == GroupParameters;
  }

  /** An empty body counts no lines and holds no TODO. */
  lemma EmptyBody()
    ensures CheckComplexity("") == 0 && !HasTodo("")
  {
  }

  /**
   * The function pattern as written reports an empty body group, so a
   * function with more than four parameters keeps only the parameter smell
   * whatever its body holds: the score is 80 and the threshold stops the run.
   */
  lemma SmellyFunctionAsWritten(finder: Matcher, code: string, name: string, params: string)
    requires finder(code) == [RawMatch(name, params, "")]
    requires ParamCount(Strip(params)) > 4
    ensures var t := RunSpec(DefaultGraph(), NodeFnMap(), finder, code);
      t.exit == Stopped && |t.log| == 9 && t.log[8] == StopEntry(80, 80)
      && t.shared.qualityScore == Some(80)
      && t.shared.suggestions == Some([GroupParameters])
  {
    EmptyBodyGroup(finder, code, name, params);
    EmptyBody();
    ParameterOnlyRun(finder, code, FunctionInfo(name, Strip(params), ""));
  }

  /** Code holding one function whose only smell is too many parameters: the score is 80 and the threshold stops the run. */
  lemma ParameterOnlyRun(finder: Matcher, code: string, f: FunctionInfo)
    requires FunctionsOf(finder, code) == [f]
    requires ParamCount(f.params) > 4 && CheckComplexity(f.body) <= 20 && !HasTodo(f.body)
    ensures var t := RunSpec(DefaultGraph(), NodeFnMap(), finder, code);
      t.exit == Stopped && |t.log| == 9 && t.log[8] == StopEntry(80, 80)
      && t.shared.qualityScore == Some(80)
      && t.shared.suggestions == Some([GroupParameters])
  {
    ParameterSmellOf(f);
    OneFunctionRun(finder, code, f);
  }

  /** A single match with an empty body group yields one function with stripped parameters and an empty body. */
  lemma EmptyBodyGroup(finder: Matcher, code: string, name: string, params: string)
    requires finder(code) == [RawMatch(name, params, "")]
    ensures FunctionsOf(finder, code) == [FunctionInfo(name, Strip(params), "")]
  {
    assert Dedent("") == "";
    OneMatch(finder, code, RawMatch(name, params, ""));
  }

  /** Code holding one function without smells: the score is 100 and the threshold stops the run. */
  lemma CleanRun(finder: Matcher, code: string, f: FunctionInfo)
    requires FunctionsOf(finder, code) == [f]
    requires SmellsOf(f) == []
    ensures var t := RunSpec(DefaultGraph(), NodeFnMap(), finder, code);
      t.exit == Stopped && |t.log| == 9 && t.log[8] == StopEntry(100, 80)
      && t.shared.qualityScore == Some(100) && t.shared.smells == Some([]) && t.shared.suggestions == Some([])
  {
    OneFunctionRun(finder, code, f);
  }

  /** A function with at most four parameters, at most twenty lines and no TODO has no smells. */
  lemma CleanFunctionSmells(name: string, parts: seq<string>, lines: seq<string>)
    requires |parts| <= 4 && forall k :: 0 <= k < |parts| ==> NonBlank(parts[k]) && ',' !in parts[k]
    requires |lines| <= 20 && forall k :: 0 <= k < |lines| ==> NonBlank(lines[k]) && NoLineBreak(lines[k])
    requires !HasTodo(Join(lines, "\n"))
    ensures var f := FunctionInfo(name, Join(parts, ","), Join(lines, "\n"));
      SmellsOf(f) == [] && Score(SmellsOf(f)) == 100 && SuggestionsOf(SmellsOf(f)) == []
  {
    ParamCountOfJoin(parts);
    ComplexityOfLines(lines);
    NoSmellsOf(FunctionInfo(name, Join(parts, ","), Join(lines, "\n")));
  }

  /**
   * One function with at most four parameters and at most twenty lines
   * (either possibly none) and no TODO, reported by a matcher that gives its indented
   * block as the body group, scores 100 and stops the run.
   */
  lemma CleanFunction(finder: Matcher, code: string, name: string, parts: seq<string>, lines: seq<string>)
    requires finder(code) == [MatchOf(name, parts, lines)]
    requires Strip(Join(parts, ",")) == Join(parts, ",")
    requires |parts| <= 4 && forall k :: 0 <= k < |parts| ==> NonBlank(parts[k]) && ',' !in parts[k]
    requires |lines| <= 20 && forall k :: 0 <= k < |lines| ==> Visible(lines[k])
    requires !HasTodo(Join(lines, "\n"))
    ensures var t := RunSpec(DefaultGraph(), NodeFnMap(), finder, code);
      t.exit == Stopped && |t.log| == 9 && t.log[8] == StopEntry(100, 80)
      && t.shared.qualityScore == Some(100) && t.shared.smells == Some([]) && t.shared.suggestions == Some([])
  {
    var m := MatchOf(name, parts, lines);
    VisibleLines(lines);
    CleanFunctionSmells(name, parts, lines);
    ExtractVisible(name, parts, lines);
    OneMatch(finder, code, m);
    CleanRun(finder, code, ToFunctionInfo(m));
  }
}
