/**
 * Properties of the run loop: what the node log of a run looks like, in
 * which order nodes close, and how each kind of exit leaves the log.
 */
module Runs {
  import opened Wrappers
  import opened Models
  import opened Workflows
  import opened Engine

  /** Statuses that close a node: it completed, raised, or could not be resolved. */
  predicate Closes(st: NodeStatus) {
    st == NodeCompleted || st == NodeError || st == NodeFailed
  }

  /** Ids of the entries that close a node, in log order. */
  function ClosedIds(log: seq<NodeResult>): seq<string> {
    if log == [] then []
    else (if Closes(log[0].status) then [log[0].nodeId] else []) + ClosedIds(log[1..])
  }

  lemma {:induction false} ClosedIdsAppend(a: seq<NodeResult>, b: seq<NodeResult>)
    ensures ClosedIds(a + b) == ClosedIds(a) + ClosedIds(b)
  {
    if a == [] {
      assert a + b == b;
    } else {
      assert (a + b)[0] == a[0] && (a + b)[1..] == a[1..] + b;
      ClosedIdsAppend(a[1..], b);
    }
  }

  /**
   * The log pairs every `running` entry with the `completed` or `failed`
   * entry of the same node right after it, and has no `completed` or
   * `failed` entry without one.
   */
  predicate WellPaired(log: seq<NodeResult>)
    decreases |log|
  {
    if log == [] then true
    else if log[0].status == NodeRunning then
      |log| >= 2 && log[1].nodeId == log[0].nodeId
      && (log[1].status == NodeCompleted || log[1].status == NodeFailed)
      && WellPaired(log[2..])
    else
      log[0].status != NodeCompleted && log[0].status != NodeFailed && WellPaired(log[1..])
  }

  lemma {:induction false} WellPairedAppend(a: seq<NodeResult>, b: seq<NodeResult>)
    requires WellPaired(a) && WellPaired(b)
    ensures WellPaired(a + b)
    decreases |a|
  {
    if a == [] {
      assert a + b == b;
    } else {
      var s := a + b;
      if a[0].status == NodeRunning {
        assert s[0] == a[0] && s[1] == a[1] && s[2..] == a[2..] + b;
        WellPairedAppend(a[2..], b);
      } else {
        assert s[0] == a[0] && s[1..] == a[1..] + b;
        WellPairedAppend(a[1..], b);
      }
    }
  }

  /** What one node appends: paired, closing that node once, never `skipped`. */
  lemma StepOneLog(n: NodeDef, registry: Registry, finder: Matcher, threshold: int, shared: Shared)
    ensures var t := StepOne(n, registry, finder, threshold, shared);
      WellPaired(t.log) && ClosedIds(t.log) == [n.id]
      && (forall k :: 0 <= k < |t.log| ==> t.log[k].status != NodeSkipped)
  {
    var t := StepOne(n, registry, finder, threshold, shared);
    if |t.log| == 1 {
      assert t.log[1..] == [];
    } else {
      assert t.log[1..][1..] == t.log[2..];
      if |t.log| == 2 {
        assert t.log[2..] == [];
      } else {
        assert t.log[2..] == [t.log[2]] && [t.log[2]][1..] == [];
        assert t.log[2].status == StoppedByThreshold;
        assert ClosedIds(t.log[2..]) == [];
      }
    }
  }

  /**
   * Every entry of a run's log has a real status: a node is never logged
   * as `skipped`, and running entries are paired with their outcome.
   */
  lemma {:induction false} LogWellFormed(nodes: seq<NodeDef>, registry: Registry, finder: Matcher,
                                         threshold: int, shared: Shared)
    ensures var t := Steps(nodes, registry, finder, threshold, shared);
      WellPaired(t.log) && forall k :: 0 <= k < |t.log| ==> t.log[k].status != NodeSkipped
    decreases |nodes|
  {
    if nodes != [] {
      var s := StepOne(nodes[0], registry, finder, threshold, shared);
      StepOneLog(nodes[0], registry, finder, threshold, shared);
      if s.exit.Finished? {
        var r := Steps(nodes[1..], registry, finder, threshold, s.shared);
        LogWellFormed(nodes[1..], registry, finder, threshold, s.shared);
        WellPairedAppend(s.log, r.log);
        forall k | 0 <= k < |s.log + r.log|
          ensures (s.log + r.log)[k].status != NodeSkipped
        {
          if k >= |s.log| {
            assert (s.log + r.log)[k] == r.log[k - |s.log|];
          }
        }
      }
    }
  }

  /**
   * Nodes close in graph order: the closed ids form a prefix of the
   * graph's node ids, all of them when the run got past the last node,
   * and at least the first one when it ended early.
   */
  lemma {:induction false} ClosedInGraphOrder(nodes: seq<NodeDef>, registry: Registry, finder: Matcher,
                                              threshold: int, shared: Shared)
    ensures var t := Steps(nodes, registry, finder, threshold, shared);
      ClosedIds(t.log) <= NodeIds(nodes)
      && (t.exit.Finished? ==> ClosedIds(t.log) == NodeIds(nodes))
      && (!t.exit.Finished? ==> ClosedIds(t.log) != [])
    decreases |nodes|
  {
    if nodes != [] {
      var s := StepOne(nodes[0], registry, finder, threshold, shared);
      StepOneLog(nodes[0], registry, finder, threshold, shared);
      var ids := NodeIds(nodes);
      assert ids == [nodes[0].id] + NodeIds(nodes[1..]);
      if s.exit.Finished? {
        var r := Steps(nodes[1..], registry, finder, threshold, s.shared);
        ClosedInGraphOrder(nodes[1..], registry, finder, threshold, s.shared);
        ClosedIdsAppend(s.log, r.log);
      }
    }
  }

  /** A stopped run ends with the stop entry, carrying the score that reached the threshold, right after a completed node. */
  lemma {:induction false} StopShape(nodes: seq<NodeDef>, registry: Registry, finder: Matcher,
                                     threshold: int, shared: Shared)
    ensures var t := Steps(nodes, registry, finder, threshold, shared);
      var q := t.shared.qualityScore.GetOr(0);
      t.exit == Stopped ==>
        |t.log| >= 3 && t.log[|t.log| - 1] == StopEntry(q, threshold) && q >= threshold
        && t.log[|t.log| - 2].status == NodeCompleted
    decreases |nodes|
  {
    if nodes != [] {
      var s := StepOne(nodes[0], registry, finder, threshold, shared);
      if s.exit.Finished? {
        var r := Steps(nodes[1..], registry, finder, threshold, s.shared);
        StopShape(nodes[1..], registry, finder, threshold, s.shared);
        if r.exit == Stopped {
          var log := s.log + r.log;
          assert log[|log| - 1] == r.log[|r.log| - 1];
          assert log[|log| - 2] == r.log[|r.log| - 2];
        }
      }
    }
  }

  /** A failed run ends with the raising node's running entry and its error message. */
  lemma {:induction false} AbortShape(nodes: seq<NodeDef>, registry: Registry, finder: Matcher,
                                      threshold: int, shared: Shared)
    ensures var t := Steps(nodes, registry, finder, threshold, shared);
      t.exit.Aborted? ==>
        |t.log| >= 2 && t.log[|t.log| - 1] == FailedEntry(t.log[|t.log| - 2].nodeId, t.exit.message)
        && t.log[|t.log| - 2].status == NodeRunning
    decreases |nodes|
  {
    if nodes != [] {
      var s := StepOne(nodes[0], registry, finder, threshold, shared);
      if s.exit.Finished? {
        var r := Steps(nodes[1..], registry, finder, threshold, s.shared);
        AbortShape(nodes[1..], registry, finder, threshold, s.shared);
        if r.exit.Aborted? {
          var log := s.log + r.log;
          assert log[|log| - 1] == r.log[|r.log| - 1];
          assert log[|log| - 2] == r.log[|r.log| - 2];
        }
      }
    }
  }

  /** A run that went through every node logged no failure and no stop. */
  lemma {:induction false} FinishedClean(nodes: seq<NodeDef>, registry: Registry, finder: Matcher,
                                         threshold: int, shared: Shared)
    ensures var t := Steps(nodes, registry, finder, threshold, shared);
      t.exit.Finished? ==>
        forall k :: 0 <= k < |t.log| ==> t.log[k].status != NodeFailed && t.log[k].status != StoppedByThreshold
    decreases |nodes|
  {
    if nodes != [] {
      var s := StepOne(nodes[0], registry, finder, threshold, shared);
      if s.exit.Finished? {
        var r := Steps(nodes[1..], registry, finder, threshold, s.shared);
        FinishedClean(nodes[1..], registry, finder, threshold, s.shared);
        if r.exit.Finished? {
          var log := s.log + r.log;
          forall k | 0 <= k < |log|
            ensures log[k].status != NodeFailed && log[k].status != StoppedByThreshold
          {
            if k >= |s.log| {
              assert log[k] == r.log[k - |s.log|];
            }
          }
        }
      }
    }
  }

  /**
   * When no node function resolves, every node is logged as an error, the
   * run finishes, and the context stays the initial one: the code, the
   * threshold (80 when the graph gives none) and a quality score of 0.
   */
  lemma {:induction false} UnresolvedGraph(graph: Graph, registry: Registry, finder: Matcher, code: string)
    requires forall k :: 0 <= k < |graph.nodes| ==> graph.nodes[k].fn !in registry
    ensures var t := RunSpec(graph, registry, finder, code);
      t.exit == Finished
      && t.log == seq(|graph.nodes|, k requires 0 <= k < |graph.nodes| => ErrorEntry(graph.nodes[k]))
      && t.shared == Shared(Some(code), Some(graph.threshold.GetOr(80)), Some(0), None, None, None, None)
  {
    var th := ThresholdOf(graph);
    UnresolvedNodes(graph.nodes, registry, finder, th, InitialShared(code, th));
  }

  lemma {:induction false} UnresolvedNodes(nodes: seq<NodeDef>, registry: Registry, finder: Matcher,
                                           threshold: int, shared: Shared)
    requires forall k :: 0 <= k < |nodes| ==> nodes[k].fn !in registry
    ensures var t := Steps(nodes, registry, finder, threshold, shared);
      t.exit == Finished && t.shared == shared
      && t.log == seq(|nodes|, k requires 0 <= k < |nodes| => ErrorEntry(nodes[k]))
    decreases |nodes|
  {
    if nodes != [] {
      UnresolvedNodes(nodes[1..], registry, finder, threshold, shared);
      var r := Steps(nodes[1..], registry, finder, threshold, shared);
      var expected := seq(|nodes|, k requires 0 <= k < |nodes| => ErrorEntry(nodes[k]));
      assert expected == [ErrorEntry(nodes[0])] + r.log;
    }
  }
}
