/**
 * The in-memory run store: one dictionary from run id to run record, with
 * create, read, field update and node-result append.
 */
module Storage {
  import opened Wrappers
  import opened Models

  /** One keyword argument of `update_run`: the record keys the engine writes. */
  datatype Field =
    | StatusField(status: RunStatus)
    | SharedField(shared: Shared)
    | StoppedField(stopped: bool)

  /** `run[k] = v` for one keyword argument. */
  function ApplyField(r: RunRecord, f: Field): RunRecord {
    match f
    case StatusField(s) => r.(status := s)
    case SharedField(s) => r.(shared := s)
    case StoppedField(b) => r.(stopped := b)
  }

  /** The keyword arguments written in order, left to right; identity, graph and node log stay. */
  function ApplyFields(r: RunRecord, fs: seq<Field>): (r': RunRecord)
    ensures r'.runId == r.runId && r'.graphId == r.graphId && r'.nodes == r.nodes
    decreases |fs|
  {
    if fs == [] then r else ApplyFields(ApplyField(r, fs[0]), fs[1..])
  }

  lemma ApplyOne(r: RunRecord, f: Field)
    ensures ApplyFields(r, [f]) == ApplyField(r, f)
  {
    assert [f][1..] == [];
  }

  lemma ApplyTwo(r: RunRecord, f: Field, g: Field)
    ensures ApplyFields(r, [f, g]) == ApplyField(ApplyField(r, f), g)
  {
    assert [f, g][1..] == [g];
    ApplyOne(ApplyField(r, f), g);
  }

  function PickStatus(f: Field): Option<RunStatus> {
    if f.StatusField? then Some(f.status) else None
  }

  function PickShared(f: Field): Option<Shared> {
    if f.SharedField? then Some(f.shared) else None
  }

  function PickStopped(f: Field): Option<bool> {
    if f.StoppedField? then Some(f.stopped) else None
  }

  /** The value of the last argument that `pick` selects, scanning from the right. */
  function LastWhere<T>(fs: seq<Field>, pick: Field -> Option<T>): Option<T> {
    if fs == [] then None
    else if pick(fs[|fs| - 1]).Some? then pick(fs[|fs| - 1])
    else LastWhere(fs[..|fs| - 1], pick)
  }

  lemma {:induction false} LastWhereCons<T>(f: Field, fs: seq<Field>, pick: Field -> Option<T>)
    ensures LastWhere([f] + fs, pick)
         == if LastWhere(fs, pick).Some? then LastWhere(fs, pick) else pick(f)
  {
    var s := [f] + fs;
    if fs == [] {
      assert s[..0] == [];
    } else {
      assert s[|s| - 1] == fs[|fs| - 1];
      assert s[..|s| - 1] == [f] + fs[..|fs| - 1];
      LastWhereCons(f, fs[..|fs| - 1], pick);
    }
  }

  /**
   * The record after `update_run(**kwargs)`: each written key holds the last
   * value given for it, and every other key keeps its value.
   */
  lemma {:induction false} ApplyFieldsLastWriter(r: RunRecord, fs: seq<Field>)
    ensures ApplyFields(r, fs)
         == r.(status := LastWhere(fs, PickStatus).GetOr(r.status),
               shared := LastWhere(fs, PickShared).GetOr(r.shared),
               stopped := LastWhere(fs, PickStopped).GetOr(r.stopped))
    decreases |fs|
  {
    if fs != [] {
      ApplyFieldsLastWriter(ApplyField(r, fs[0]), fs[1..]);
      assert [fs[0]] + fs[1..] == fs;
      LastWhereCons(fs[0], fs[1..], PickStatus);
      LastWhereCons(fs[0], fs[1..], PickShared);
      LastWhereCons(fs[0], fs[1..], PickStopped);
    }
  }

  /** Repeating the same `update_run` call changes nothing more. */
  lemma ApplyFieldsIdempotent(r: RunRecord, fs: seq<Field>)
    ensures ApplyFields(ApplyFields(r, fs), fs) == ApplyFields(r, fs)
  {
    ApplyFieldsLastWriter(r, fs);
    ApplyFieldsLastWriter(ApplyFields(r, fs), fs);
  }

  /** The record `create_run` stores: running, no node results, not stopped. */
  function NewRun(runId: string, graphId: string, initialShared: Option<Shared>): RunRecord {
    RunRecord(runId, graphId, Running, [], initialShared.GetOr(EmptyShared), false)
  }

  /** The module-level `_RUNS` dictionary and the functions over it. */
  class RunStore {
    var runs: map<string, RunRecord>

    /** Every record is stored under its own run id. */
    ghost predicate Valid()
      reads this
    {
      forall id :: id in runs ==> runs[id].runId == id
    }

    constructor ()
      ensures Valid() && runs == map[]
    {
      runs := map[];
    }

    /**
     * `create_run`: stores a fresh running record under `runId`. The random
     * run id is a parameter here.
     */
    method CreateRun(runId: string, graphId: string, initialShared: Option<Shared>)
      requires Valid()
      modifies this
      ensures Valid()
      ensures runs == old(runs)[runId := NewRun(runId, graphId, initialShared)]
    {
      runs := runs[runId := NewRun(runId, graphId, initialShared)];
    }

    /** `get_run`: the stored record, or `None` for an unknown id. */
    method GetRun(runId: string) returns (r: Option<RunRecord>)
      ensures runId in runs ==> r == Some(runs[runId])
      ensures runId !in runs ==> r == None
      ensures Valid() && r.Some? ==> r.value.runId == runId
    {
      if runId in runs {
        r := Some(runs[runId]);
      } else {
        r := None;
      }
    }

    /** `update_run`: writes the given keys in order; an unknown id is ignored. */
    method UpdateRun(runId: string, fields: seq<Field>)
      requires Valid()
      modifies this
      ensures Valid()
      ensures runId in old(runs) ==> runs == old(runs)[runId := ApplyFields(old(runs)[runId], fields)]
      ensures runId !in old(runs) ==> runs == old(runs)
    {
      if runId !in runs {
        return;
      }
      var i := 0;
      while i < |fields|
        invariant 0 <= i <= |fields|
        invariant runId in runs && runs.Keys == old(runs).Keys
        invariant runs == old(runs)[runId := runs[runId]]
        invariant ApplyFields(runs[runId], fields[i..]) == ApplyFields(old(runs)[runId], fields)
        invariant Valid()
      {
        assert fields[i..][1..] == fields[i + 1..];
        runs := runs[runId := ApplyField(runs[runId], fields[i])];
        i := i + 1;
      }
    }

    /** `append_node_result`: adds one entry to the run's node log; an unknown id is ignored. */
    method AppendNodeResult(runId: string, result: NodeResult)
      requires Valid()
      modifies this
      ensures Valid()
      ensures runId in old(runs) ==>
        runs == old(runs)[runId := old(runs)[runId].(nodes := old(runs)[runId].nodes + [result])]
      ensures runId !in old(runs) ==> runs == old(runs)
    {
      if runId in runs {
        runs := runs[runId := runs[runId].(nodes := runs[runId].nodes + [result])];
      }
    }
  }
}
