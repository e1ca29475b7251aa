/**
 * The default graph end to end: what `run_graph` computes for any source
 * text, node by node.
 */
module Pipeline {
  import opened Wrappers
  import opened Tools
  import opened Models
  import opened Workflows
  import opened Engine

  const ExtractNode: NodeDef := NodeDef("extract", "node_extract")
  const ComplexityNode: NodeDef := NodeDef("complexity", "node_complexity")
  const DetectNode: NodeDef := NodeDef("detect", "node_detect")
  const SuggestNode: NodeDef := NodeDef("suggest", "node_suggest")

  /** The two entries of a node that completed with `out`. */
  function NodeLog(id: string, out: Output): seq<NodeResult> {
    [RunningEntry(id), CompletedEntry(id, out)]
  }

  /** The functions the extract node finds in `code`. */
  function FunctionsOf(finder: Matcher, code: string): seq<FunctionInfo> {
    ExtractedOf(finder(code))
  }

  /** The context the default graph leaves behind after its suggest node. */
  function AnalysedShared(finder: Matcher, code: string): Shared {
    var fs := FunctionsOf(finder, code);
    var smells := AllSmells(fs);
    Shared(Some(code), Some(80), Some(Score(smells)), Some(fs), Some(ComplexitiesOf(fs)),
           Some(DetectEntries(fs)), Some(SuggestionsOf(smells)))
  }

  /** The entries of the four nodes of the default graph, in order. */
  function AnalysisLog(finder: Matcher, code: string): seq<NodeResult> {
    var fs := FunctionsOf(finder, code);
    var smells := AllSmells(fs);
    NodeLog("extract", ExtractOutput(fs))
    + NodeLog("complexity", ComplexityOutput(ComplexitiesOf(fs)))
    + NodeLog("detect", DetectOutput(DetectEntries(fs)))
    + NodeLog("suggest", SuggestOutput(SuggestionsOf(smells), Score(smells)))
  }

  lemma Regroup<T>(a: seq<T>, b: seq<T>, c: seq<T>, d: seq<T>, e: seq<T>)
    ensures a + (b + c) + (d + e) == a + b + c + d + e
  {
  }

  lemma SuggestFrom(finder: Matcher, s: Shared, es: seq<SmellEntry>)
    requires s.smells == Some(es)
    ensures var smells := Flatten(es);
      var q := Score(smells);
      Steps([SuggestNode], NodeFnMap(), finder, 80, s)
      == Trace(NodeLog("suggest", SuggestOutput(SuggestionsOf(smells), q)) + (if q >= 80 then [StopEntry(q, 80)] else []),
               s.(suggestions := Some(SuggestionsOf(smells)), qualityScore := Some(q)),
               if q >= 80 then Stopped else Finished)
  {
    assert [SuggestNode][1..] == [];
    var smells := Flatten(es);
    var log := NodeLog("suggest", SuggestOutput(SuggestionsOf(smells), Score(smells)));
    assert log + [] == log;
  }

  lemma DetectFrom(finder: Matcher, s: Shared, fs: seq<FunctionInfo>)
    requires s.functions == Some(fs) && s.qualityScore == Some(0)
    ensures Steps([DetectNode, SuggestNode], NodeFnMap(), finder, 80, s)
         == Prepend(NodeLog("detect", DetectOutput(DetectEntries(fs))),
                    Steps([SuggestNode], NodeFnMap(), finder, 80, s.(smells := Some(DetectEntries(fs)))))
  {
    assert [DetectNode, SuggestNode][1..] == [SuggestNode];
  }

  lemma ComplexityFrom(finder: Matcher, s: Shared, fs: seq<FunctionInfo>)
    requires s.functions == Some(fs) && s.qualityScore == Some(0)
    ensures Steps([ComplexityNode, DetectNode, SuggestNode], NodeFnMap(), finder, 80, s)
         == Prepend(NodeLog("complexity", ComplexityOutput(ComplexitiesOf(fs))),
                    Steps([DetectNode, SuggestNode], NodeFnMap(), finder, 80, s.(complexities := Some(ComplexitiesOf(fs)))))
  {
    assert [ComplexityNode, DetectNode, SuggestNode][1..] == [DetectNode, SuggestNode];
  }

  lemma ExtractFrom(finder: Matcher, code: string)
    ensures var fs := FunctionsOf(finder, code);
      Steps(DefaultGraph().nodes, NodeFnMap(), finder, 80, InitialShared(code, 80))
      == Prepend(NodeLog("extract", ExtractOutput(fs)),
                 Steps([ComplexityNode, DetectNode, SuggestNode], NodeFnMap(), finder, 80,
                       InitialShared(code, 80).(functions := Some(fs))))
  {
    assert DefaultGraph().nodes[1..] == [ComplexityNode, DetectNode, SuggestNode];
  }

  /**
   * The default graph on any code: extract, complexity, detect and suggest
   * each run once and in order; the score is the one the smells of all
   * extracted functions earn; and the run stops (one more entry, `stop`)
   * exactly when that score is at least 80.
   */
  lemma DefaultRun(finder: Matcher, code: string)
    ensures var t := RunSpec(DefaultGraph(), NodeFnMap(), finder, code);
      var q := Score(AllSmells(FunctionsOf(finder, code)));
      t.shared == AnalysedShared(finder, code)
      && t.exit == (if q >= 80 then Stopped else Finished)
      && t.log == AnalysisLog(finder, code) + (if q >= 80 then [StopEntry(q, 80)] else [])
  {
    var fs := FunctionsOf(finder, code);
    var s1 := InitialShared(code, 80).(functions := Some(fs));
    var s2 := s1.(complexities := Some(ComplexitiesOf(fs)));
    var s3 := s2.(smells := Some(DetectEntries(fs)));
    ExtractFrom(finder, code);
    ComplexityFrom(finder, s1, fs);
    DetectFrom(finder, s2, fs);
    SuggestFrom(finder, s3, DetectEntries(fs));
    FlattenDetect(fs);
    var smells := AllSmells(fs);
    var q := Score(smells);
    var a := NodeLog("extract", ExtractOutput(fs));
    var b := NodeLog("complexity", ComplexityOutput(ComplexitiesOf(fs)));
    var c := NodeLog("detect", DetectOutput(DetectEntries(fs)));
    var d := NodeLog("suggest", SuggestOutput(SuggestionsOf(smells), q));
    var tail: seq<NodeResult> := if q >= 80 then [StopEntry(q, 80)] else [];
    var last := Steps([SuggestNode], NodeFnMap(), finder, 80, s3);
    assert last.log == d + tail;
    PrependPrepend(b, c, last);
    PrependPrepend(a, b + c, last);
    assert AnalysisLog(finder, code) == a + b + c + d;
    Regroup(a, b, c, d, tail);
  }
}
