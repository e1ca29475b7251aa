/**
 * The records the engine, the nodes and the run store exchange: the shared
 * context, node outputs, node results and run records.
 */
module Models {
  import opened Wrappers
  import opened Tools

  /** One entry of `shared["complexities"]`. */
  datatype ComplexityEntry = ComplexityEntry(name: string, complexity: nat)

  /** One entry of `shared["smells"]`: a function and its (non-empty) smell list. */
  datatype SmellEntry = SmellEntry(functionName: string, smells: seq<string>)

  /**
   * The shared context of one run. Each field is one key of the context
   * dictionary; `None` means the key is absent.
   */
  datatype Shared = Shared(
    code: Option<string>,
    threshold: Option<int>,
    qualityScore: Option<int>,
    functions: Option<seq<FunctionInfo>>,
    complexities: Option<seq<ComplexityEntry>>,
    smells: Option<seq<SmellEntry>>,
    suggestions: Option<seq<string>>)

  /** The empty context `{}`. */
  const EmptyShared: Shared := Shared(None, None, None, None, None, None, None)

  /** The payload a node returns, and the payloads of `error`/`failed`/stop entries. */
  datatype Output =
    | ExtractOutput(functions: seq<FunctionInfo>)
    | ComplexityOutput(complexities: seq<ComplexityEntry>)
    | DetectOutput(smells: seq<SmellEntry>)
    | SuggestOutput(suggestions: seq<string>, qualityScore: int)
    | ErrorOutput(error: string)
    | StopOutput(qualityScore: int, threshold: int)

  /** Status of one node-result entry. */
  datatype NodeStatus = NodeSkipped | NodeRunning | NodeCompleted | NodeError | NodeFailed | StoppedByThreshold

  /** `{node_id, status, output}`. */
  datatype NodeResult = NodeResult(nodeId: string, status: NodeStatus, output: Option<Output>)

  /** Status of a whole run. */
  datatype RunStatus = Running | Completed | Failed

  /** The stored state of one run. */
  datatype RunRecord = RunRecord(
    runId: string,
    graphId: string,
    status: RunStatus,
    nodes: seq<NodeResult>,
    shared: Shared,
    stopped: bool)
}
