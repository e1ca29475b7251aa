/** Workflow graph definitions: the one built-in graph and the lookup by id. */
module Workflows {
  import opened Wrappers

  /** `{"id": ..., "fn": ...}`: a node id and the name of the node function it runs. */
  datatype NodeDef = NodeDef(id: string, fn: string)

  /** A graph: its id, the nodes in execution order and the optional stop threshold. */
  datatype Graph = Graph(id: string, nodes: seq<NodeDef>, threshold: Option<int>)

  const DefaultGraphId: string := "default"

  /** The only graph: extract, complexity, detect, suggest, stopping at quality 80. */
  function DefaultGraph(): Graph {
    Graph(DefaultGraphId,
          [NodeDef("extract", "node_extract"),
           NodeDef("complexity", "node_complexity"),
           NodeDef("detect", "node_detect"),
           NodeDef("suggest", "node_suggest")],
          Some(80))
  }

  /** Ids of the nodes of a graph, in order. */
  function NodeIds(nodes: seq<NodeDef>): (ids: seq<string>)
    ensures |ids| == |nodes|
    ensures forall k :: 0 <= k < |nodes| ==> ids[k] == nodes[k].id
  {
    seq(|nodes|, k requires 0 <= k < |nodes| => nodes[k].id)
  }

  /** Every graph id, known or not, looks up the default graph. */
  function GetGraph(graphId: string): (g: Graph)
    ensures g == DefaultGraph()
  {
    if graphId == DefaultGraphId then DefaultGraph() else DefaultGraph()
  }

  /**
   * The default graph runs its four stages in order under distinct node ids,
   * with the threshold 80; an unknown id does not yield a graph of that id.
   */
  lemma DefaultGraphShape(graphId: string)
    ensures NodeIds(GetGraph(graphId).nodes) == ["extract", "complexity", "detect", "suggest"]
    ensures GetGraph(graphId).threshold == Some(80)
    ensures GetGraph(graphId).id == graphId <==> graphId == DefaultGraphId
  {
    var ids := NodeIds(DefaultGraph().nodes);
    assert ids == [ids[0], ids[1], ids[2], ids[3]];
  }
}
