/**
 * The workflow engine: the four analysis nodes, the registry that names
 * them, and the run loop that executes a graph node by node over a shared
 * context, logging every step in the run store and stopping early once the
 * quality score reaches the graph's threshold.
 */
module Engine {
  import opened Wrappers
  import opened Tools
  import opened Models
  import opened Storage
  import opened Workflows

  /** What a node call produces: its output and the context it leaves, or the raised error and the context at that point. */
  datatype StepResult =
    | Ok(output: Output, shared: Shared)
    | Failure(message: string, shared: Shared)

  /** A node function: one of the four built-in nodes, or any other callable over the context. */
  datatype NodeFn =
    | Extract
    | Complexity
    | Detect
    | Suggest
    | Custom(run: Shared -> StepResult)

  /** Node function name to node function. */
  type Registry = map<string, NodeFn>

  /** The function-definition pattern of `extract_functions`, applied to source text. */
  type Matcher = string -> seq<RawMatch>

  /** `NODE_FN_MAP`. */
  function NodeFnMap(): Registry {
    map["node_extract" := Extract, "node_complexity" := Complexity,
        "node_detect" := Detect, "node_suggest" := Suggest]
  }

  // ---------------------------------------------------------------------
  // The nodes, specified on values

  function ExtractStep(shared: Shared, finder: Matcher): StepResult {
    var fs := ExtractedOf(finder(shared.code.GetOr("")));
    Ok(ExtractOutput(fs), shared.(functions := Some(fs)))
  }

  function ComplexitiesOf(fs: seq<FunctionInfo>): seq<ComplexityEntry> {
    seq(|fs|, k requires 0 <= k < |fs| => ComplexityEntry(fs[k].name, CheckComplexity(fs[k].body)))
  }

  function ComplexityStep(shared: Shared): StepResult {
    var cs := ComplexitiesOf(shared.functions.GetOr([]));
    Ok(ComplexityOutput(cs), shared.(complexities := Some(cs)))
  }

  /** One entry per function that has at least one smell, in function order. */
  function DetectEntries(fs: seq<FunctionInfo>): (es: seq<SmellEntry>)
    ensures |es| <= |fs|
    ensures forall k :: 0 <= k < |es| ==> es[k].smells != []
  {
    if fs == [] then []
    else
      var f := fs[|fs| - 1];
      var smells := SmellsOf(f);
      DetectEntries(fs[..|fs| - 1]) + (if smells != [] then [SmellEntry(f.name, smells)] else [])
  }

  /**
   * Every entry is `{function: name, smells}` of a function with a smell,
   * and every function with a smell has its entry.
   */
  lemma {:induction false} DetectEntriesMembers(fs: seq<FunctionInfo>)
    ensures forall e :: e in DetectEntries(fs) ==>
      exists f :: f in fs && SmellsOf(f) != [] && e == SmellEntry(f.name, SmellsOf(f))
    ensures forall f :: f in fs && SmellsOf(f) != [] ==> SmellEntry(f.name, SmellsOf(f)) in DetectEntries(fs)
  {
    if fs != [] {
      var init, last := fs[..|fs| - 1], fs[|fs| - 1];
      DetectEntriesMembers(init);
      assert fs == init + [last];
      forall e | e in DetectEntries(fs)
        ensures exists f :: f in fs && SmellsOf(f) != [] && e == SmellEntry(f.name, SmellsOf(f))
      {
        if e in DetectEntries(init) {
          var f :| f in init && SmellsOf(f) != [] && e == SmellEntry(f.name, SmellsOf(f));
          assert f in fs;
        } else {
          assert last in fs;
        }
      }
    }
  }

  function DetectStep(shared: Shared): StepResult {
    var es := DetectEntries(shared.functions.GetOr([]));
    Ok(DetectOutput(es), shared.(smells := Some(es)))
  }

  /** The smell strings of all entries, concatenated in entry order. */
  function Flatten(es: seq<SmellEntry>): seq<string> {
    if es == [] then [] else Flatten(es[..|es| - 1]) + es[|es| - 1].smells
  }

  /** The smells of every function, concatenated in function order. */
  function AllSmells(fs: seq<FunctionInfo>): seq<string> {
    if fs == [] then [] else AllSmells(fs[..|fs| - 1]) + SmellsOf(fs[|fs| - 1])
  }

  function SuggestStep(shared: Shared): StepResult {
    var smells := if shared.smells.Some? then Flatten(shared.smells.value) else [];
    var suggestions := SuggestionsOf(smells);
    var q := Score(smells);
    Ok(SuggestOutput(suggestions, q), shared.(suggestions := Some(suggestions), qualityScore := Some(q)))
  }

  /** The effect of calling a node function on a context. */
  function ApplyStep(fn: NodeFn, shared: Shared, finder: Matcher): StepResult {
    match fn
    case Extract => ExtractStep(shared, finder)
    case Complexity => ComplexityStep(shared)
    case Detect => DetectStep(shared)
    case Suggest => SuggestStep(shared)
    case Custom(run) => run(shared)
  }

  /** Dropping the functions without smells loses no smell: the suggest node sees every function's smells. */
  lemma {:induction false} FlattenDetect(fs: seq<FunctionInfo>)
    ensures Flatten(DetectEntries(fs)) == AllSmells(fs)
  {
    if fs != [] {
      var init := fs[..|fs| - 1];
      var f := fs[|fs| - 1];
      FlattenDetect(init);
      var es := DetectEntries(init);
      if SmellsOf(f) != [] {
        var e := SmellEntry(f.name, SmellsOf(f));
        assert (es + [e])[..|es|] == es;
      } else {
        assert es + [] == es;
      }
    }
  }

  // ---------------------------------------------------------------------
  // The nodes, as the loops they are

  /** `node_extract`. */
  method NodeExtract(shared: Shared, finder: Matcher) returns (r: StepResult)
    ensures r == ExtractStep(shared, finder)
  {
    var code := shared.code.GetOr("");
    var funcs := ExtractFunctions(code, finder);
    r := Ok(ExtractOutput(funcs), shared.(functions := Some(funcs)));
  }

  /** `node_complexity`. */
  method NodeComplexity(shared: Shared) returns (r: StepResult)
    ensures r == ComplexityStep(shared)
  {
    var funcs := shared.functions.GetOr([]);
    var complexities: seq<ComplexityEntry> := [];
    var i := 0;
    while i < |funcs|
      invariant 0 <= i <= |funcs|
      invariant complexities == ComplexitiesOf(funcs[..i])
    {
      var c := CheckComplexity(funcs[i].body);
      complexities := complexities + [ComplexityEntry(funcs[i].name, c)];
      i := i + 1;
    }
    assert funcs[..i] == funcs;
    r := Ok(ComplexityOutput(complexities), shared.(complexities := Some(complexities)));
  }

  /** `node_detect`. */
  method NodeDetect(shared: Shared) returns (r: StepResult)
    ensures r == DetectStep(shared)
  {
    var funcs := shared.functions.GetOr([]);
    var allSmells: seq<SmellEntry> := [];
    var i := 0;
    while i < |funcs|
      invariant 0 <= i <= |funcs|
      invariant allSmells == DetectEntries(funcs[..i])
    {
      assert funcs[..i + 1][..i] == funcs[..i];
      var smells := DetectSmells(funcs[i]);
      if smells != [] {
        allSmells := allSmells + [SmellEntry(funcs[i].name, smells)];
      }
      i := i + 1;
    }
    assert funcs[..i] == funcs;
    r := Ok(DetectOutput(allSmells), shared.(smells := Some(allSmells)));
  }

  /** `node_suggest`. */
  method NodeSuggest(shared: Shared) returns (r: StepResult)
    ensures r == SuggestStep(shared)
  {
    var smellsList: seq<string> := [];
    if shared.smells.Some? {
      var entries := shared.smells.value;
      var i := 0;
      while i < |entries|
        invariant 0 <= i <= |entries|
        invariant smellsList == Flatten(entries[..i])
      {
        assert entries[..i + 1][..i] == entries[..i];
        smellsList := smellsList + entries[i].smells;
        i := i + 1;
      }
      assert entries[..i] == entries;
    }
    var suggestions, qualityScore := SuggestImprovements(smellsList);
    r := Ok(SuggestOutput(suggestions, qualityScore),
            shared.(suggestions := Some(suggestions), qualityScore := Some(qualityScore)));
  }

  /** `await node_fn(shared)`; the built-in nodes never raise. */
  method InvokeStep(fn: NodeFn, shared: Shared, finder: Matcher) returns (r: StepResult)
    ensures r == ApplyStep(fn, shared, finder)
    ensures !fn.Custom? ==> r.Ok?
  {
    match fn
    case Extract => r := NodeExtract(shared, finder);
    case Complexity => r := NodeComplexity(shared);
    case Detect => r := NodeDetect(shared);
    case Suggest => r := NodeSuggest(shared);
    case Custom(run) => r := run(shared);
  }

  // ---------------------------------------------------------------------
  // The run loop, specified on values

  const DefaultThreshold: int := 80
  const StopNodeId: string := "stop"

  function NotFoundMessage(fn: string): string {
    "Node function '" + fn + "' not found."
  }

  function ErrorEntry(n: NodeDef): NodeResult {
    NodeResult(n.id, NodeError, Some(ErrorOutput(NotFoundMessage(n.fn))))
  }

  function RunningEntry(id: string): NodeResult {
    NodeResult(id, NodeRunning, None)
  }

  function CompletedEntry(id: string, out: Output): NodeResult {
    NodeResult(id, NodeCompleted, Some(out))
  }

  function FailedEntry(id: string, message: string): NodeResult {
    NodeResult(id, NodeFailed, Some(ErrorOutput(message)))
  }

  function StopEntry(q: int, threshold: int): NodeResult {
    NodeResult(StopNodeId, StoppedByThreshold, Some(StopOutput(q, threshold)))
  }

  /** How a run ends: all nodes done, stopped by the threshold, or aborted by a raised error. */
  datatype Exit = Finished | Stopped | Aborted(message: string)

  /** The node log a run appends, the context it ends with, and how it ends. */
  datatype Trace = Trace(log: seq<NodeResult>, shared: Shared, exit: Exit)

  function Prepend(log: seq<NodeResult>, t: Trace): Trace {
    Trace(log + t.log, t.shared, t.exit)
  }

  /**
   * One node of the loop: its log entries, the context after it, and
   * `Finished` when the loop goes on to the next node.
   */
  function StepOne(n: NodeDef, registry: Registry, finder: Matcher, threshold: int, shared: Shared): Trace {
    if n.fn !in registry then
      Trace([ErrorEntry(n)], shared, Finished)
    else
      match ApplyStep(registry[n.fn], shared, finder)
      case Failure(message, ctx) =>
        Trace([RunningEntry(n.id), FailedEntry(n.id, message)], ctx, Aborted(message))
      case Ok(out, next) =>
        var q := next.qualityScore.GetOr(0);
        if q >= threshold then
          Trace([RunningEntry(n.id), CompletedEntry(n.id, out), StopEntry(q, threshold)], next, Stopped)
        else
          Trace([RunningEntry(n.id), CompletedEntry(n.id, out)], next, Finished)
  }

  /** Executing `nodes` in order from context `shared`. */
  function Steps(nodes: seq<NodeDef>, registry: Registry, finder: Matcher, threshold: int, shared: Shared): Trace
    decreases |nodes|
  {
    if nodes == [] then Trace([], shared, Finished)
    else
      var t := StepOne(nodes[0], registry, finder, threshold, shared);
      if t.exit.Finished? then Prepend(t.log, Steps(nodes[1..], registry, finder, threshold, t.shared)) else t
  }

  lemma PrependPrepend(a: seq<NodeResult>, b: seq<NodeResult>, t: Trace)
    ensures Prepend(a, Prepend(b, t)) == Prepend(a + b, t)
  {
    assert a + (b + t.log) == (a + b) + t.log;
  }

  function ThresholdOf(g: Graph): int {
    g.threshold.GetOr(DefaultThreshold)
  }

  /** The context a run starts from. */
  function InitialShared(code: string, threshold: int): Shared {
    Shared(Some(code), Some(threshold), Some(0), None, None, None, None)
  }

  /** The whole run of `graph` on `code`. */
  function RunSpec(graph: Graph, registry: Registry, finder: Matcher, code: string): Trace {
    var threshold := ThresholdOf(graph);
    Steps(graph.nodes, registry, finder, threshold, InitialShared(code, threshold))
  }

  function StatusOf(e: Exit): RunStatus {
    if e.Aborted? then Failed else Completed
  }

  /** The stored record at the end of a run: never left running, and stopped only when completed. */
  function FinalRecord(runId: string, graphId: string, t: Trace): (r: RunRecord)
    ensures r.status != Running
    ensures r.stopped ==> r.status == Completed
    ensures r.status == Failed <==> t.exit.Aborted?
  {
    RunRecord(runId, graphId, StatusOf(t.exit), t.log, t.shared, t.exit.Stopped?)
  }

  /** The summary `run_graph` returns; `error` is present exactly for failed runs. */
  datatype RunOutcome = RunOutcome(runId: string, status: RunStatus, error: Option<string>, shared: Shared)

  function OutcomeOf(runId: string, t: Trace): RunOutcome {
    RunOutcome(runId, StatusOf(t.exit), if t.exit.Aborted? then Some(t.exit.message) else None, t.shared)
  }

  // ---------------------------------------------------------------------
  // The run loop

  /** A second write to the same key replaces the first. */
  lemma Overwrite(m: map<string, RunRecord>, k: string, a: RunRecord, b: RunRecord)
    ensures m[k := a][k := b] == m[k := b]
  {
  }

  /**
   * Running `a + b` is running `a` and, when `a` finishes without stopping or
   * failing, running `b` from the context `a` left; an early exit in `a`
   * ignores `b` entirely.
   */
  lemma {:induction false} StepsAppend(a: seq<NodeDef>, b: seq<NodeDef>, registry: Registry, finder: Matcher,
                                       threshold: int, shared: Shared)
    ensures var t := Steps(a, registry, finder, threshold, shared);
      Steps(a + b, registry, finder, threshold, shared)
      == if t.exit.Finished? then Prepend(t.log, Steps(b, registry, finder, threshold, t.shared)) else t
    decreases |a|
  {
    if a == [] {
      assert a + b == b;
    } else {
      assert (a + b)[0] == a[0] && (a + b)[1..] == a[1..] + b;
      var s := StepOne(a[0], registry, finder, threshold, shared);
      if s.exit.Finished? {
        StepsAppend(a[1..], b, registry, finder, threshold, s.shared);
        var t := Steps(a[1..], registry, finder, threshold, s.shared);
        if t.exit.Finished? {
          PrependPrepend(s.log, t.log, Steps(b, registry, finder, threshold, t.shared));
        }
      }
    }
  }

  /**
   * The store writes after a resolved node returned or raised: the closing
   * entry, the context, and the final status when the run ends here.
   */
  method RecordResult(store: RunStore, runId: string, graphId: string, nodeId: string, result: StepResult,
                      threshold: int, ghost before: map<string, RunRecord>, ghost log: seq<NodeResult>,
                      ghost shared: Shared)
    returns (exit: Exit)
    requires store.Valid()
    requires store.runs == before[runId := RunRecord(runId, graphId, Running, log, shared, false)]
    modifies store
    ensures store.Valid()
    ensures result.Failure? ==>
      exit == Aborted(result.message)
      && store.runs == before[runId := RunRecord(runId, graphId, Failed, log + [FailedEntry(nodeId, result.message)], result.shared, false)]
    ensures result.Ok? && result.shared.qualityScore.GetOr(0) >= threshold ==>
      var q := result.shared.qualityScore.GetOr(0);
      exit == Stopped
      && store.runs == before[runId := RunRecord(runId, graphId, Completed,
                                                 log + [CompletedEntry(nodeId, result.output), StopEntry(q, threshold)],
                                                 result.shared, true)]
    ensures result.Ok? && result.shared.qualityScore.GetOr(0) < threshold ==>
      exit == Finished
      && store.runs == before[runId := RunRecord(runId, graphId, Running, log + [CompletedEntry(nodeId, result.output)], result.shared, false)]
  {
    if result.Failure? {
      var failed := FailedEntry(nodeId, result.message);
      store.AppendNodeResult(runId, failed);
      Overwrite(before, runId, RunRecord(runId, graphId, Running, log, shared, false),
                RunRecord(runId, graphId, Running, log + [failed], shared, false));
      // status="failed"; the record holds the live context, so the node's writes show there too
      ApplyTwo(store.runs[runId], SharedField(result.shared), StatusField(Failed));
      store.UpdateRun(runId, [SharedField(result.shared), StatusField(Failed)]);
      Overwrite(before, runId, RunRecord(runId, graphId, Running, log + [failed], shared, false),
                RunRecord(runId, graphId, Failed, log + [failed], result.shared, false));
      return Aborted(result.message);
    }
    var completed := CompletedEntry(nodeId, result.output);
    store.AppendNodeResult(runId, completed);
    Overwrite(before, runId, RunRecord(runId, graphId, Running, log, shared, false),
              RunRecord(runId, graphId, Running, log + [completed], shared, false));
    ApplyOne(store.runs[runId], SharedField(result.shared));
    store.UpdateRun(runId, [SharedField(result.shared)]);
    Overwrite(before, runId, RunRecord(runId, graphId, Running, log + [completed], shared, false),
              RunRecord(runId, graphId, Running, log + [completed], result.shared, false));
    var currentQuality := result.shared.qualityScore.GetOr(0);
    if currentQuality >= threshold {
      var stop := StopEntry(currentQuality, threshold);
      ApplyTwo(store.runs[runId], StoppedField(true), StatusField(Completed));
      store.UpdateRun(runId, [StoppedField(true), StatusField(Completed)]);
      Overwrite(before, runId, RunRecord(runId, graphId, Running, log + [completed], result.shared, false),
                RunRecord(runId, graphId, Completed, log + [completed], result.shared, true));
      store.AppendNodeResult(runId, stop);
      assert log + [completed] + [stop] == log + [completed, stop];
      Overwrite(before, runId, RunRecord(runId, graphId, Completed, log + [completed], result.shared, true),
                RunRecord(runId, graphId, Completed, log + [completed, stop], result.shared, true));
      return Stopped;
    }
    return Finished;
  }

  /**
   * One iteration of the loop of `run_graph`: runs `node`, appends its
   * entries to the stored log and, when the run ends here, writes the final
   * status. `exit` is `Finished` when the loop goes on.
   */
  method StepNode(store: RunStore, runId: string, graphId: string, node: NodeDef, registry: Registry,
                  finder: Matcher, threshold: int, shared: Shared,
                  ghost before: map<string, RunRecord>, ghost log: seq<NodeResult>)
    returns (next: Shared, exit: Exit)
    requires store.Valid()
    requires store.runs == before[runId := RunRecord(runId, graphId, Running, log, shared, false)]
    modifies store
    ensures store.Valid()
    ensures var t := StepOne(node, registry, finder, threshold, shared);
      next == t.shared && exit == t.exit
      && store.runs == before[runId := if exit.Finished? then RunRecord(runId, graphId, Running, log + t.log, next, false)
                                       else FinalRecord(runId, graphId, Prepend(log, t))]
  {
    if node.fn !in registry {
      store.AppendNodeResult(runId, ErrorEntry(node));
      return shared, Finished;
    }
    var running := RunningEntry(node.id);
    store.AppendNodeResult(runId, running);
    Overwrite(before, runId, RunRecord(runId, graphId, Running, log, shared, false),
              RunRecord(runId, graphId, Running, log + [running], shared, false));
    var result := InvokeStep(registry[node.fn], shared, finder);
    exit := RecordResult(store, runId, graphId, node.id, result, threshold, before, log + [running], shared);
    next := result.shared;
    if result.Failure? {
      assert log + [running] + [FailedEntry(node.id, result.message)]
          == log + [running, FailedEntry(node.id, result.message)];
    } else if result.shared.qualityScore.GetOr(0) >= threshold {
      var q := result.shared.qualityScore.GetOr(0);
      assert log + [running] + [CompletedEntry(node.id, result.output), StopEntry(q, threshold)]
          == log + [running, CompletedEntry(node.id, result.output), StopEntry(q, threshold)];
    } else {
      assert log + [running] + [CompletedEntry(node.id, result.output)]
          == log + [running, CompletedEntry(node.id, result.output)];
    }
  }

  /**
   * The loop of `run_graph` over a given graph and registry: the store ends
   * up holding exactly the final record of the run and nothing else changes.
   */
  method Execute(store: RunStore, graphId: string, graph: Graph, code: string, runId: string,
                 registry: Registry, finder: Matcher) returns (outcome: RunOutcome)
    requires store.Valid()
    modifies store
    ensures store.Valid()
    ensures store.runs == old(store.runs)[runId := FinalRecord(runId, graphId, RunSpec(graph, registry, finder, code))]
    ensures outcome == OutcomeOf(runId, RunSpec(graph, registry, finder, code))
  {
    var threshold := ThresholdOf(graph);
    var shared := InitialShared(code, threshold);
    store.CreateRun(runId, graphId, Some(shared));
    ghost var spec := RunSpec(graph, registry, finder, code);
    ghost var log: seq<NodeResult> := [];
    var nodes := graph.nodes;
    var i := 0;
    while i < |nodes|
      invariant 0 <= i <= |nodes|
      invariant store.Valid()
      invariant store.runs == old(store.runs)[runId := RunRecord(runId, graphId, Running, log, shared, false)]
      invariant spec == Prepend(log, Steps(nodes[i..], registry, finder, threshold, shared))
    {
      ghost var t := StepOne(nodes[i], registry, finder, threshold, shared);
      assert nodes[i..][0] == nodes[i] && nodes[i..][1..] == nodes[i + 1..];
      var next, exit := StepNode(store, runId, graphId, nodes[i], registry, finder, threshold, shared,
                                 old(store.runs), log);
      if !exit.Finished? {
        outcome := RunOutcome(runId, StatusOf(exit), if exit.Aborted? then Some(exit.message) else None, next);
        return;
      }
      PrependPrepend(log, t.log, Steps(nodes[i + 1..], registry, finder, threshold, next));
      log := log + t.log;
      shared := next;
      i := i + 1;
    }
    assert nodes[i..] == [] && log + [] == log;
    assert spec == Trace(log, shared, Finished);
    ApplyTwo(store.runs[runId], StatusField(Completed), SharedField(shared));
    store.UpdateRun(runId, [StatusField(Completed), SharedField(shared)]);
    Overwrite(old(store.runs), runId, RunRecord(runId, graphId, Running, log, shared, false),
              RunRecord(runId, graphId, Completed, log, shared, false));
    outcome := RunOutcome(runId, Completed, None, shared);
  }

  /** `run_graph`: looks the graph up and runs it with the built-in node functions. */
  method RunGraph(store: RunStore, graphId: string, code: string, runId: string, finder: Matcher)
    returns (outcome: RunOutcome)
    requires store.Valid()
    modifies store
    ensures store.Valid()
    ensures store.runs == old(store.runs)[runId := FinalRecord(runId, graphId, RunSpec(GetGraph(graphId), NodeFnMap(), finder, code))]
    ensures outcome == OutcomeOf(runId, RunSpec(GetGraph(graphId), NodeFnMap(), finder, code))
  {
    var graph := GetGraph(graphId);
    outcome := Execute(store, graphId, graph, code, runId, NodeFnMap(), finder);
  }
}
