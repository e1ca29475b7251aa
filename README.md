# A verified model of the FastApi-APP workflow engine

FastApi-APP runs a small code-review workflow. A *graph* is an ordered list of
nodes, and each node names a node function. The four built-in nodes are
extract, complexity, detect and suggest. The engine runs the nodes one by one
over a shared context. It records every step in an in-memory run store. It
stops early once the context's `quality_score` reaches the graph's threshold.

The model covers:

- the four node functions and their analysis tools: function extraction,
  line-count complexity, smell detection, and the penalty-based quality score;
- the `NODE_FN_MAP` registry;
- `run_graph` with all three of its exits: a completed run, a run stopped by
  the threshold, and a failed run;
- the store operations `create_run`, `get_run`, `update_run` and
  `append_node_result`;
- the graph definitions `get_default_graph` and `get_graph`.

## Modules

| file | module | what it holds |
|---|---|---|
| `wrappers.dfy` | `Wrappers` | `Option` |
| `strings.dfy` | `Strings` | Python's `isspace`, `strip`, `splitlines`, `split(",")`, `sep.join` and the `in` substring test |
| `tools.dfy` | `Tools` | `extract_functions`, `check_complexity`, `detect_smells`, `suggest_improvements`, and lemmas about them |
| `models.dfy` | `Models` | the shared context, node outputs, node results and run records |
| `storage.dfy` | `Storage` | `_RUNS` as the class `RunStore`, plus the `update_run` field writes |
| `workflows.dfy` | `Workflows` | `DEFAULT_GRAPH_ID`, `get_default_graph`, `get_graph` |
| `engine.dfy` | `Engine` | the node methods, `NODE_FN_MAP`, the specification `Steps` of the run loop, and the run loop as methods over a `RunStore` |
| `runs.dfy` | `Runs` | properties of every run: pairing of log entries, graph order, and the shape of each exit |
| `pipeline.dfy` | `Pipeline` | the default graph end to end, for any code |
| `scenarios.dfy` | `Scenarios` | concrete runs: no functions, one function with every smell, one function whose only smell is its parameter count, the same smelly function under the body group the expression actually reports, and one clean function |

The shared context is a typed record. Each key the nodes use is an `Option`
field, and `{}` is the record with every field `None`. The engine is proved
against the value-level specification `Engine.RunSpec`. `Engine.Execute` is
the loop: it is the `for node_def in nodes` of `run_graph`, performing the
same store writes in the same order. Its contract says two things. The store
ends with `FinalRecord(RunSpec(...))` under the run id. The returned summary
is `OutcomeOf(RunSpec(...))`. Everything in `Runs`, `Pipeline` and
`Scenarios` is proved about `RunSpec`, so it holds for the stored record and
for the returned summary too.

In `run_graph` the dictionary `shared` is the same object as the stored
record's `"shared"`, because `create_run` stores `initial_shared` itself. So
the node functions' writes show up in the store at once, even on the failure
path, where the code writes no `shared=` argument. The model has no aliasing.
It writes the context back explicitly after each node. When a node raises,
it stores the context as it was at the raise.

Three behaviours of the code matter here:

- The TODO check is case-sensitive. It matches `"TODO"` and `"todo"` only,
  and a body with just `Todo` raises no smell (`Tools.MixedCaseTodoIgnored`).
- Penalties and suggestions classify a smell by searching the whole message,
  and that message starts with the function's name. So the TODO smell of a
  function named `long_function` is penalised as a long function
  (`Tools.NameDecidesClassification`). The parameter smell is checked first,
  so it is classified correctly whatever the name. The lemmas that tie the
  long-function and TODO smells to their own penalties need a name that
  contains none of the three tags (`Tools.TagFreeName`).
- An unknown graph id silently gets the default graph
  (`Workflows.DefaultGraphShape`), and the run record keeps the id that was
  asked for (`Engine.RunGraph`).

## Model

| member | source | states |
|---|---|---|
| Strings.StripEmptyIff | app/tools.py:37 | `s.strip() == ""` holds exactly when every character of `s` is whitespace |
| Strings.StripIdempotent | app/tools.py:25-26 | stripping twice is stripping once |
| Strings.StripEnds | app/tools.py:25-26 | a stripped text is empty or has visible characters at both ends |
| Strings.SplitLinesOfJoin | app/tools.py:24 | `splitlines` of lines without line breaks joined by `"\n"` gives the lines back, when the last line is non-empty or there are no lines |
| Strings.SplitOfJoin | app/tools.py:56 | `split(",")` of a non-empty list of comma-free parts joined with `","` gives the parts back |
| Strings.CountNonBlankAll | app/tools.py:37 | when every line is non-blank, all of them are counted |
| Strings.ContainsMiddle | app/tools.py:66 | the substring test finds a piece wherever it sits in the text |
| Tools.ExtractFunctions | app/tools.py:10-27 | the loop yields one record per match, in match order, holding the match's name, its stripped parameters and its de-indented body; every stored parameter text is already stripped |
| Tools.SplitIndentedBlock | app/tools.py:24 | an indented block of visible lines splits into an empty first line followed by the indented lines |
| Tools.DedentIndentedLines | app/tools.py:24 | de-indenting removes the four-space indent from every line and leaves the empty first line alone |
| Tools.DedentIndentedBlock | app/tools.py:22-25 | de-indenting and stripping a body of visible lines indented by four spaces gives back the lines joined by `"\n"` |
| Tools.CheckComplexity | app/tools.py:30-38 | an empty body has complexity 0, and the complexity is at most the number of lines |
| Tools.ComplexityOfLines | app/tools.py:37-38 | a body of non-blank lines without line breaks, whatever whitespace (nested indentation included) they carry at their ends, has complexity equal to its number of lines |
| Tools.NatToString | app/tools.py:58 | `str(n)` is a non-empty string of decimal digits |
| Tools.SmellMessagesDistinct | app/tools.py:58-67 | the three messages of one function differ from each other |
| Tools.SmellsOf | app/tools.py:41-69 | the smell list holds one entry per triggered check, in check order. Each message is present exactly when its condition holds: more than 4 parameters, complexity above 20, a `TODO`/`todo`. The messages carry the parameter count and the line count |
| Tools.DetectSmells | app/tools.py:41-69 | the statement sequence of `detect_smells` computes exactly `SmellsOf` |
| Tools.ParamCountOfJoin | app/tools.py:54-56 | parameter text made of `n` non-blank, comma-free parts (none for an empty text) counts `n` parameters |
| Tools.TooManyParametersBoundary | app/tools.py:57-58 | the too-many-parameters smell appears exactly when there are more than 4 parameters |
| Tools.LongFunctionBoundary | app/tools.py:61-63 | for a body of non-blank lines (nested indentation allowed), the long-function smell appears exactly when there are more than 20 of them: 20 give none, 21 give it |
| Tools.TodoDetected | app/tools.py:66-67 | an upper-case `TODO` or lower-case `todo` anywhere in the body is detected |
| Tools.MixedCaseTodoIgnored | app/tools.py:66 | a body reading just `Todo` raises no TODO smell |
| Tools.Penalty | app/tools.py:80-91 | every smell costs between 5 and 25 points |
| Tools.TotalPenalty | app/tools.py:79-91 | the total penalty is between 5 and 25 points times the number of smells |
| Tools.Score | app/tools.py:93-94 | the score lies in 0..100 and is 100 for no smells; it is `100 - penalty` when the penalty is below 100, and 0 otherwise |
| Tools.SuggestionsOfAppend | app/engine.py:66-70 | the suggestions for the concatenated smell lists of all entries are the concatenated suggestions of each list |
| Tools.SuggestionsOfPermutation | app/tools.py:79-91 | reordering the smells reorders the suggestions: the same suggestions occur, each as often |
| Tools.SuggestImprovements | app/tools.py:72-95 | the loop returns exactly `SuggestionsOf(smells)` and `Score(smells)` |
| Tools.TotalPenaltyAppend | app/tools.py:79-91 | penalties add up over concatenated smell lists |
| Tools.TotalPenaltyPermutation | app/tools.py:79-91 | the total penalty does not depend on the order of the smells |
| Tools.ScorePermutation | app/tools.py:93-94 | the score does not depend on the order of the smells |
| Tools.ScoreMonotone | app/tools.py:93-94 | more smells never raise the score, and strictly lower a positive one |
| Tools.TagsApart | app/tools.py:80-86 | no tag occurs inside a tag that is tested after it |
| Tools.NotContainsInMessage | app/tools.py:80-86 | a tag occurs in a smell message only if it occurs in the function name or in the message's own tag |
| Tools.PenaltyOfSmellMessage | app/tools.py:80-88 | for a tag-free name, each message gets its own penalty (20, 25, 10) and its own suggestion |
| Tools.PenaltyOfLongMessage | app/tools.py:83-85 | for a tag-free name, the long-function message costs 25 and asks to split the function |
| Tools.PenaltyOfTodoMessage | app/tools.py:86-88 | for a tag-free name, the TODO message costs 10 and asks to resolve the TODO |
| Tools.PenaltyOfFunction | app/tools.py:41-91 | a function with a tag-free name loses 20 points for too many parameters, 25 for length and 10 for a TODO |
| Tools.NameDecidesClassification | app/tools.py:80-88 | the TODO smell of a function named `long_function` is penalised 25 and gets the split suggestion |
| Tools.TodoOfLongName | app/tools.py:80-88 | the TODO smell of any function whose name mentions `long_function` but not `too_many_parameters` is penalised 25 and gets the split suggestion |
| Storage.ApplyFields | app/storage.py:35-36 | writing keyword arguments never changes the run id, the graph id or the node log |
| Storage.ApplyFieldsLastWriter | app/storage.py:35-36 | after `update_run`, each written key holds the last value given for it, and every other key keeps its value |
| Storage.ApplyFieldsIdempotent | app/storage.py:31-36 | repeating the same `update_run` call changes nothing more |
| Storage.RunStore.constructor | app/storage.py:10 | the store starts empty |
| Storage.RunStore.CreateRun | app/storage.py:13-24 | stores a running record with no node results and `stopped` false. Its context is the initial one, or `{}` when there is none. Nothing else changes |
| Storage.RunStore.GetRun | app/storage.py:27-28 | the stored record for a known id, `None` for an unknown one; a record is stored under its own id |
| Storage.RunStore.UpdateRun | app/storage.py:31-36 | the record holds the fields written in order. An unknown id leaves the store unchanged |
| Storage.RunStore.AppendNodeResult | app/storage.py:39-43 | appends the entry to that run's log only. An unknown id leaves the store unchanged |
| Workflows.GetGraph | app/workflows.py:47-52 | every graph id, known or not, gets the default graph |
| Workflows.DefaultGraphShape | app/workflows.py:17-52 | graph lookup details, listed below |
| Engine.DetectEntries | app/engine.py:49-56 | there are at most as many entries as functions, and no entry has an empty smell list |
| Engine.DetectEntriesMembers | app/engine.py:51-54 | every entry is `{function: name, smells}` of a function whose smell list is not empty, and every such function has its entry |
| Engine.FlattenDetect | app/engine.py:64-68 | flattening the detect entries gives the smells of all functions, in function order |
| Engine.NodeExtract | app/engine.py:20-29 | `node_extract` writes the extracted functions to the context and returns them |
| Engine.NodeComplexity | app/engine.py:32-42 | the loop computes one `(name, complexity)` entry per function, in order |
| Engine.NodeDetect | app/engine.py:45-56 | the loop computes `DetectEntries`: the functions with at least one smell |
| Engine.NodeSuggest | app/engine.py:59-75 | the loop flattens all smell lists. It then stores the suggestions and the score for them |
| Engine.InvokeStep | app/engine.py:78-83 | calls the registered node function; the four built-in nodes never raise |
| Engine.FinalRecord | app/engine.py:126-147 | a finished run is never left running, is stopped only when completed, and has failed exactly when a node raised an `Exception` |
| Engine.StepsAppend | app/engine.py:99-100 | running two node lists in a row is running the first, then the second only if the first neither stopped nor failed |
| Engine.RecordResult | app/engine.py:119-144 | the store writes after a node returned or raised, exactly as in each of the three branches |
| Engine.StepNode | app/engine.py:100-144 | one loop iteration leaves the store holding the log and context of `StepOne`. A run that ends here gets its final record |
| Engine.Execute | app/engine.py:86-148 | the run loop leaves `FinalRecord(RunSpec)` under the run id and returns `OutcomeOf(RunSpec)`. Other runs are untouched |
| Engine.RunGraph | app/engine.py:86-148 | `run_graph`: `Execute` on `get_graph(graph_id)` with `NODE_FN_MAP` |
| Runs.StepOneLog | app/engine.py:100-144 | one node appends a well-paired log that closes that node exactly once and holds no `skipped` entry |
| Runs.LogWellFormed | app/engine.py:99-148 | the log of every run is well-paired and holds no `skipped` entry |
| Runs.ClosedInGraphOrder | app/engine.py:99-148 | result order, listed below |
| Runs.StopShape | app/engine.py:126-135 | a stopped run ends with a completed node and then the stop entry, whose score reached the threshold |
| Runs.AbortShape | app/engine.py:140-144 | a failed run ends with the raising node's running entry and its failed entry carrying the error message |
| Runs.FinishedClean | app/engine.py:146-148 | a run that went through every node logged no failure and no stop |
| Runs.UnresolvedGraph | app/engine.py:106-110 | unknown node functions, listed below |
| Runs.UnresolvedNodes | app/engine.py:106-110 | the same as `UnresolvedGraph`, for any node list and any starting context |
| Pipeline.ExtractFrom | app/engine.py:20-29 | the extract node of the default graph stores the functions and hands over to the remaining nodes |
| Pipeline.ComplexityFrom | app/engine.py:32-42 | the complexity node stores one entry per function and hands over to detect |
| Pipeline.DetectFrom | app/engine.py:45-56 | the detect node stores the smelly functions and hands over to suggest |
| Pipeline.SuggestFrom | app/engine.py:59-75 | the suggest node stores suggestions and score, and stops the run exactly when the score is at least 80 |
| Pipeline.DefaultRun | app/engine.py:86-148 | the default graph on any code, listed below |
| Scenarios.ExtractVisible | app/tools.py:20-26 | parameter text without padding at its two ends and a block of visible lines are extracted exactly as written |
| Scenarios.OneMatch | app/tools.py:19-27 | a single match gives a single extracted function |
| Scenarios.NoSmellsOf | app/tools.py:41-69 | a function that triggers none of the three checks has no smells and scores 100 |
| Scenarios.SingleFunction | app/engine.py:49-68 | with one function, the smells of the run are that function's smells |
| Scenarios.NoFunctions | app/engine.py:126-135 | code without functions scores 100, and the run stops after suggest with empty functions, complexities, smells and suggestions |
| Scenarios.OneFunctionRun | app/engine.py:86-148 | for code holding one function, that function's smells decide the score, the suggestions and the exit |
| Scenarios.AllSmellsOf | app/tools.py:41-94 | a function with every smell, whose name mentions none of the three tags, has the three messages in order, a score of 45 and the three suggestions |
| Scenarios.SmellyFunctionSmells | app/tools.py:41-94 | for a name that mentions none of the three tags, more than 4 non-blank comma-free parameters (padding allowed), more than 20 non-blank lines (nested indentation allowed) and a TODO anywhere give the three smells and a score of 45 |
| Scenarios.SmellyFunction | app/engine.py:86-148 | for a matcher that reports one such function (its name mentioning none of the three tags) with its indented block of visible lines as the body, and parameter text unpadded at its two ends: the run completes all four nodes with score 45 and the three suggestions in smell order |
| Scenarios.ParameterSmellOf | app/tools.py:48-94 | a function, whatever its name, whose only triggered check is the parameter count has that one smell, scores 80 and gets the grouping suggestion |
| Scenarios.EmptyBodyGroup | app/tools.py:19-27 | a single match with an empty body group gives one function with the stripped parameters and an empty body |
| Scenarios.ParameterOnlyRun | app/engine.py:86-148 | for code holding one function, whatever its name, whose only smell is the parameter count, the run stops after suggest with score 80 and the grouping suggestion |
| Scenarios.SmellyFunctionAsWritten | app/tools.py:16 | with the body group the expression reports, a function with more than 4 parameters (after stripping) stops the run after suggest with score 80 and the grouping suggestion only, whatever its name and body |
| Scenarios.CleanRun | app/engine.py:126-135 | for code holding one function without smells, the run stops after suggest with score 100 |
| Scenarios.CleanFunctionSmells | app/tools.py:41-69 | at most 4 non-blank comma-free parameters (none allowed, padding allowed), at most 20 non-blank lines (none allowed, nested indentation allowed) and no TODO give no smells |
| Scenarios.CleanFunction | app/engine.py:86-148 | for a matcher that reports one such function, whatever its name, with its indented block of visible lines (possibly none) as the body, and parameter text unpadded at its two ends: the run stops after suggest with score 100 |

Details for the rows that say "listed below":

- **Workflows.DefaultGraphShape.** The graph has the nodes extract,
  complexity, detect and suggest, in that order. Its threshold is 80. The
  returned graph's id equals the id asked for exactly when that id is
  `"default"`.
- **Runs.ClosedInGraphOrder.** The closed node ids form a prefix of the
  graph's node ids. A run that went past the last node has closed all of
  them. A run that stopped or failed at the last node has closed all of
  them too, so the converse does not hold. An early exit closes at least
  one node.
- **Runs.UnresolvedGraph.** When no node function resolves, every node is
  logged as an `error` entry. The run completes, and the context is the
  initial one.
- **Pipeline.DefaultRun.** The four nodes run once each, in order. The score
  is the one the smells of all extracted functions earn. The run stops, with
  one extra `stop` entry, exactly when that score is at least 80.

## Left out

- The function-definition regular expression in `extract_functions` is not
  modelled. The matcher is a parameter of type `string -> seq<RawMatch>`. The
  post-processing of each match is modelled: stripping the parameters, and
  de-indenting then stripping the body.
- The expression's empty body group is described under "## Findings". The
  model takes both matchers: the one the expression is, and one that
  reports the indented block.
- `async`/`await` is left out. The nodes run strictly one after another.
- `time.sleep(0.01)` between nodes is left out: it has no observable effect
  on state.
- `uuid.uuid4().hex` is left out. The run id is a parameter of
  `RunStore.CreateRun` and `Engine.RunGraph`.
- Storage.RunStore.CreateRun: an id that is already in the store is
  overwritten. A uuid collision is not excluded.
- Object aliasing of the shared dictionary between the run and its stored
  record is replaced by explicit write-backs. The stored contents are the
  same (see above).
- Untyped dictionaries are left out. The context, node outputs and records
  are typed records. Missing keys are `None` and read with the source's
  defaults. Values of the wrong type, and keys the code never uses, are left
  out.
- Exceptions raised inside the four built-in nodes are left out. They cannot
  happen on the typed context. The failure path of `run_graph` is reached
  with a `Custom` node function, which stands for any callable that raises
  an `Exception`. The raised error's `str(e)` is the failure message.
- A step raising a `BaseException` that is not an `Exception` (such as
  `KeyboardInterrupt` or `SystemExit`) escapes `run_graph`
  (app/engine.py:140). The record then stays `running`, with an unpaired
  `running` entry last. This is not modelled.
- `update_run` accepts only the keys the engine passes (`status`, `shared`,
  `stopped`), not arbitrary keyword arguments.
- `app/main.py` (the HTTP routes) and `app/models.py` (the request and
  response schemas) are not part of this model.
- Dafny strings hold Unicode scalar values. Python's whitespace and
  line-boundary sets are listed by code point as CPython defines them.

## Findings

| source | as written | input that shows it | evidently intended | confidence | as-written member | corrected member |
|---|---|---|---|---|---|---|
| app/tools.py:16 | As written, the body group `((?:\n(?:\s+).+)*)` is always empty. The greedy `\s*` after the colon takes the line break and the indentation, and the group must start with a line break. Every extracted body is `""`, so only `too_many_parameters` can arise | `def f(a, b, c, d, e, g):` followed by 25 indented lines, the first holding `TODO`: the score is 80 and the run stops after suggest | the group holds the indented block, so the same code scores 45 and the run completes all four nodes | not executed | Scenarios.SmellyFunctionAsWritten | Scenarios.SmellyFunction |
