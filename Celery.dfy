/**
 * Task-state fetching of the Celery executor: how the states of many Celery tasks are
 * gathered into one map from task id to (state, info), how the worker pool of the
 * multiprocessing path is sized, and how a workload's execution-API server URL is chosen.
 *
 * The Celery app, its result backends, the process pool and the network stay outside:
 * what they return is given to these members as input.
 */
module CeleryExecutorUtils {
  import opened Wrappers

  /** A value held in a Celery result: a string (such as a state name) or any other payload. */
  datatype Value = Text(s: string) | Opaque(tag: int)

  /** Celery's name for a task whose result is not known yet. */
  const PENDING: Value := Text("PENDING")

  /** One entry of the executor's event buffer: a task's state and its info. */
  datatype StateInfo = StateInfo(state: Value, info: Option<Value>)

  /**
   * A task result decoded by a result backend: a dictionary, and whether the object
   * also carries an attribute named `info` (a plain dictionary does not).
   */
  datatype TaskMeta = TaskMeta(fields: map<string, Value>, hasInfoAttribute: bool)

  /** The Python exceptions these members can raise. */
  datatype Error =
    | KeyError(key: string)
    | TypeError(message: string)
    | ValueError(message: string)
    | AirflowTaskTimeout

  /**
   * What reading a task's state over the network yields: a state and its info attribute,
   * an exception, or no answer before the operation timeout fires. The timeout raises
   * AirflowTaskTimeout, which is not an `Exception` and so is not caught by the fetch.
   */
  datatype Probe =
    | Answers(state: Value, info: Option<Value>)
    | Raises(exception: string, formattedTraceback: string)
    | TimesOut

  /** A Celery AsyncResult: the task id and what asking the backend for its state produces. */
  datatype AsyncResult = AsyncResult(taskId: string, probe: Probe)

  /** An exception carried back from a pool worker to the parent process. */
  datatype ExceptionWithTraceback = ExceptionWithTraceback(exception: string, traceback: string)

  datatype StateOrException = State(state: Value) | Failed(failure: ExceptionWithTraceback)

  /** The triple (task id, state or exception, info) that one fetch returns. */
  datatype FetchedState = FetchedState(taskId: string, stateOrException: StateOrException, info: Option<Value>)

  // ---------------------------------------------------------------------------------
  // Task ids

  /** The set of task ids of the given async results; repeated ids collapse into one. */
  function TaskIds(tasks: seq<AsyncResult>): (ids: set<string>)
    ensures forall id :: id in ids <==> exists i :: 0 <= i < |tasks| && tasks[i].taskId == id
    ensures |ids| <= |tasks|
    decreases |tasks|
  {
    if tasks == [] then {}
    else
      var init := tasks[..|tasks| - 1];
      assert forall i :: 0 <= i < |init| ==> init[i] == tasks[i];
      TaskIds(init) + {tasks[|tasks| - 1].taskId}
  }

  // ---------------------------------------------------------------------------------
  // Folding stored results into states (key-value and database backends)

  /**
   * The event-buffer entry for one task id, given the stored results indexed by task id.
   * A missing or empty (falsy) result means the task is still PENDING with no info; a
   * stored result gives its "status", and its "info" only when the result object has an
   * `info` attribute. Looking up a key the dictionary lacks raises KeyError.
   */
  function StateInfoFor(taskId: string, resultsByTaskId: map<Value, TaskMeta>): (r: Result<StateInfo, Error>)
    ensures Text(taskId) !in resultsByTaskId ==> r == Ok(StateInfo(PENDING, None))
    ensures Text(taskId) in resultsByTaskId && resultsByTaskId[Text(taskId)].fields == map[] ==>
      r == Ok(StateInfo(PENDING, None))
    ensures Text(taskId) in resultsByTaskId && resultsByTaskId[Text(taskId)].fields != map[] ==>
      var meta := resultsByTaskId[Text(taskId)];
      && (r.Ok? <==> "status" in meta.fields && (meta.hasInfoAttribute ==> "info" in meta.fields))
      && (r.Ok? ==> r.value.state == meta.fields["status"])
      && (r.Ok? && !meta.hasInfoAttribute ==> r.value.info == None)
      && (r.Ok? && meta.hasInfoAttribute ==> r.value.info == Some(meta.fields["info"]))
      && (r.Err? ==> r.error in {KeyError("status"), KeyError("info")})
  {
    var found := if Text(taskId) in resultsByTaskId then Some(resultsByTaskId[Text(taskId)]) else None;
    if found.Some? && found.value.fields != map[] then
      var meta := found.value;
      if "status" !in meta.fields then Err(KeyError("status"))
      else if !meta.hasInfoAttribute then Ok(StateInfo(meta.fields["status"], None))
      else if "info" !in meta.fields then Err(KeyError("info"))
      else Ok(StateInfo(meta.fields["status"], Some(meta.fields["info"])))
    else
      Ok(StateInfo(PENDING, None))
  }

  /**
   * Builds the map from every given task id to its (state, info), visiting the ids one
   * at a time. The keys are exactly the given ids; the call fails with the KeyError of a
   * stored result that lacks a key it needs.
   */
  method PrepareStateAndInfoByTaskDict(taskIds: set<string>, resultsByTaskId: map<Value, TaskMeta>)
    returns (r: Result<map<string, StateInfo>, Error>)
    ensures r.Ok? <==> forall id :: id in taskIds ==> StateInfoFor(id, resultsByTaskId).Ok?
    ensures r.Ok? ==> r.value.Keys == taskIds
    ensures r.Ok? ==> forall id :: id in taskIds ==> Ok(r.value[id]) == StateInfoFor(id, resultsByTaskId)
    ensures r.Err? ==> exists id :: id in taskIds && StateInfoFor(id, resultsByTaskId) == Err(r.error)
  {
    var stateInfo: map<string, StateInfo> := map[];
    var remaining := taskIds;
    while remaining != {}
      invariant remaining <= taskIds
      invariant stateInfo.Keys == taskIds - remaining
      invariant forall id :: id in stateInfo ==> StateInfoFor(id, resultsByTaskId) == Ok(stateInfo[id])
      decreases remaining
    {
      var taskId :| taskId in remaining;
      var entry := StateInfoFor(taskId, resultsByTaskId);
      if entry.Err? {
        return Err(entry.error);
      }
      stateInfo := stateInfo[taskId := entry.value];
      remaining := remaining - {taskId};
    }
    return Ok(stateInfo);
  }

  /** A value read from a key-value backend counts only when it is present and non-empty. */
  predicate Truthy(v: Option<seq<bv8>>) {
    v.Some? && |v.value| > 0
  }

  /** Decodes, in order, the fetched values that are truthy; the falsy ones are dropped first. */
  function DecodeFetched(values: seq<Option<seq<bv8>>>, decode: seq<bv8> -> TaskMeta): (r: seq<TaskMeta>)
    ensures |r| <= |values|
    ensures forall i :: 0 <= i < |values| && Truthy(values[i]) ==> decode(values[i].value) in r
    ensures forall m :: m in r ==> exists i :: 0 <= i < |values| && Truthy(values[i]) && decode(values[i].value) == m
    decreases |values|
  {
    if values == [] then []
    else
      var init := values[..|values| - 1];
      var last := values[|values| - 1];
      assert forall i :: 0 <= i < |init| ==> init[i] == values[i];
      DecodeFetched(init, decode) + if Truthy(last) then [decode(last.value)] else []
  }

  /** The positions of the truthy values, in increasing order: the reference for DecodeFetched. */
  function TruthyIndices(values: seq<Option<seq<bv8>>>): (ix: seq<nat>)
    ensures |ix| <= |values|
    decreases |values|
  {
    if values == [] then []
    else TruthyIndices(values[..|values| - 1]) + if Truthy(values[|values| - 1]) then [|values| - 1] else []
  }

  /** The positions are those of the truthy values, each once, in increasing order. */
  lemma {:induction false} TruthyIndicesSpec(values: seq<Option<seq<bv8>>>)
    ensures forall k :: 0 <= k < |TruthyIndices(values)| ==>
      TruthyIndices(values)[k] < |values| && Truthy(values[TruthyIndices(values)[k]])
    ensures forall k, l :: 0 <= k < l < |TruthyIndices(values)| ==> TruthyIndices(values)[k] < TruthyIndices(values)[l]
    ensures forall i :: 0 <= i < |values| && Truthy(values[i]) ==> i in TruthyIndices(values)
    decreases |values|
  {
    if values != [] {
      var init := values[..|values| - 1];
      assert forall i :: 0 <= i < |init| ==> init[i] == values[i];
      TruthyIndicesSpec(init);
    }
  }

  /**
   * DecodeFetched is an order-preserving filter: its k-th result is the decoding of the
   * k-th truthy value, so order and repetitions of the backend's answer are kept.
   */
  lemma {:induction false} DecodeFetchedInOrder(values: seq<Option<seq<bv8>>>, decode: seq<bv8> -> TaskMeta)
    ensures |DecodeFetched(values, decode)| == |TruthyIndices(values)|
    ensures forall k :: 0 <= k < |TruthyIndices(values)| ==>
      && TruthyIndices(values)[k] < |values| && Truthy(values[TruthyIndices(values)[k]])
      && DecodeFetched(values, decode)[k] == decode(values[TruthyIndices(values)[k]].value)
    decreases |values|
  {
    if values != [] {
      var init := values[..|values| - 1];
      assert forall i :: 0 <= i < |init| ==> init[i] == values[i];
      DecodeFetchedInOrder(init, decode);
      TruthyIndicesSpec(init);
      var d, t := DecodeFetched(init, decode), TruthyIndices(init);
      var last := values[|values| - 1];
      var tail := if Truthy(last) then [decode(last.value)] else [];
      var tailIx := if Truthy(last) then [|values| - 1] else [];
      assert DecodeFetched(values, decode) == d + tail;
      assert TruthyIndices(values) == t + tailIx;
      forall k | 0 <= k < |t + tailIx|
        ensures (t + tailIx)[k] < |values| && Truthy(values[(t + tailIx)[k]])
        ensures (d + tail)[k] == decode(values[(t + tailIx)[k]].value)
      {
        if k < |t| {
          assert (t + tailIx)[k] == t[k] < |init|;
          assert (d + tail)[k] == d[k];
          assert values[t[k]] == init[t[k]];
        } else {
          assert k == |t| && Truthy(last);
          assert (t + tailIx)[k] == |values| - 1;
        }
      }
    }
  }

  /** The task-id key of a decoded result, when it has one. */
  predicate HasTaskId(meta: TaskMeta) {
    "task_id" in meta.fields
  }

  /**
   * Indexes decoded results by their own "task_id", scanning left to right, so a later
   * result for an id replaces an earlier one; a result without "task_id" raises KeyError.
   */
  function ResultsByTaskId(results: seq<TaskMeta>): (r: Result<map<Value, TaskMeta>, Error>)
    ensures r.Err? <==> exists i :: 0 <= i < |results| && !HasTaskId(results[i])
    ensures r.Err? ==> r.error == KeyError("task_id")
    decreases |results|
  {
    if results == [] then Ok(map[])
    else
      var init := results[..|results| - 1];
      var last := results[|results| - 1];
      assert forall i :: 0 <= i < |init| ==> init[i] == results[i];
      match ResultsByTaskId(init)
      case Err(e) => Err(e)
      case Ok(m) =>
        if !HasTaskId(last) then Err(KeyError("task_id"))
        else Ok(m[last.fields["task_id"] := last])
  }

  /** The keys of the index are exactly the "task_id" values of the decoded results. */
  lemma {:induction false} ResultsByTaskIdKeys(results: seq<TaskMeta>)
    requires ResultsByTaskId(results).Ok?
    ensures forall k :: k in ResultsByTaskId(results).value <==>
      exists i :: 0 <= i < |results| && results[i].fields["task_id"] == k
    decreases |results|
  {
    if results != [] {
      var init := results[..|results| - 1];
      assert forall i :: 0 <= i < |init| ==> init[i] == results[i];
      ResultsByTaskIdKeys(init);
    }
  }

  /** The result indexed under an id is the last decoded result carrying that id. */
  lemma {:induction false} ResultsByTaskIdKeepsLast(results: seq<TaskMeta>, k: Value)
    requires ResultsByTaskId(results).Ok? && k in ResultsByTaskId(results).value
    ensures exists i :: (0 <= i < |results| && results[i].fields["task_id"] == k &&
      ResultsByTaskId(results).value[k] == results[i] &&
      forall j :: i < j < |results| ==> results[j].fields["task_id"] != k)
    decreases |results|
  {
    var init := results[..|results| - 1];
    var last := results[|results| - 1];
    assert forall i :: 0 <= i < |init| ==> init[i] == results[i];
    if last.fields["task_id"] == k {
      var i := |results| - 1;
      assert results[i].fields["task_id"] == k && ResultsByTaskId(results).value[k] == results[i];
    } else {
      assert ResultsByTaskId(results).value[k] == ResultsByTaskId(init).value[k];
      ResultsByTaskIdKeepsLast(init, k);
    }
  }

  /**
   * The key-value backend path: the stored values fetched for the tasks' keys (given here
   * as `fetched`, in the order the backend returned them) are filtered, decoded, indexed
   * by task id and folded into one entry per task id.
   */
  method GetManyFromKvBackend(asyncTasks: seq<AsyncResult>, fetched: seq<Option<seq<bv8>>>, decode: seq<bv8> -> TaskMeta)
    returns (r: Result<map<string, StateInfo>, Error>)
    ensures ResultsByTaskId(DecodeFetched(fetched, decode)).Err? ==> r == Err(KeyError("task_id"))
    ensures r.Ok? <==> (ResultsByTaskId(DecodeFetched(fetched, decode)).Ok? &&
      forall id :: id in TaskIds(asyncTasks) ==> StateInfoFor(id, ResultsByTaskId(DecodeFetched(fetched, decode)).value).Ok?)
    ensures r.Err? && ResultsByTaskId(DecodeFetched(fetched, decode)).Ok? ==>
      exists id :: id in TaskIds(asyncTasks) && StateInfoFor(id, ResultsByTaskId(DecodeFetched(fetched, decode)).value) == Err(r.error)
    ensures r.Ok? ==> r.value.Keys == TaskIds(asyncTasks)
    ensures r.Ok? ==> forall id :: id in TaskIds(asyncTasks) ==>
      Ok(r.value[id]) == StateInfoFor(id, ResultsByTaskId(DecodeFetched(fetched, decode)).value)
  {
    var taskIds := TaskIds(asyncTasks);
    var taskResults := DecodeFetched(fetched, decode);
    var byTaskId := ResultsByTaskId(taskResults);
    if byTaskId.Err? {
      return Err(byTaskId.error);
    }
    r := PrepareStateAndInfoByTaskDict(taskIds, byTaskId.value);
  }

  /**
   * The database backend path after its query: the stored rows (already converted to
   * result dictionaries) are indexed by task id and folded into one entry per task id.
   */
  method GetManyFromDbBackend(asyncTasks: seq<AsyncResult>, storedResults: seq<TaskMeta>)
    returns (r: Result<map<string, StateInfo>, Error>)
    ensures ResultsByTaskId(storedResults).Err? ==> r == Err(KeyError("task_id"))
    ensures r.Ok? <==> (ResultsByTaskId(storedResults).Ok? &&
      forall id :: id in TaskIds(asyncTasks) ==> StateInfoFor(id, ResultsByTaskId(storedResults).value).Ok?)
    ensures r.Err? && ResultsByTaskId(storedResults).Ok? ==>
      exists id :: id in TaskIds(asyncTasks) && StateInfoFor(id, ResultsByTaskId(storedResults).value) == Err(r.error)
    ensures r.Ok? ==> r.value.Keys == TaskIds(asyncTasks)
    ensures r.Ok? ==> forall id :: id in TaskIds(asyncTasks) ==>
      Ok(r.value[id]) == StateInfoFor(id, ResultsByTaskId(storedResults).value)
  {
    var taskIds := TaskIds(asyncTasks);
    var byTaskId := ResultsByTaskId(storedResults);
    if byTaskId.Err? {
      return Err(byTaskId.error);
    }
    r := PrepareStateAndInfoByTaskDict(taskIds, byTaskId.value);
  }

  // ---------------------------------------------------------------------------------
  // The `hasattr(task_result, "info")` guard on stored results

  /** A stored result that is a plain dictionary: it has no attribute named `info`. */
  predicate PlainDict(meta: TaskMeta) {
    !meta.hasInfoAttribute
  }

  /**
   * Both backends index results built by `meta_from_decoded`, which are plain dictionaries.
   * The `hasattr` guard then never holds, so every entry read from the index reports no
   * info, whatever the stored result holds under "info".
   */
  lemma {:induction false} PlainDictResultsReportNoInfo(results: seq<TaskMeta>, taskId: string)
    requires forall i :: 0 <= i < |results| ==> PlainDict(results[i])
    requires ResultsByTaskId(results).Ok?
    ensures StateInfoFor(taskId, ResultsByTaskId(results).value).Ok? ==>
      StateInfoFor(taskId, ResultsByTaskId(results).value).value.info == None
  {
    if Text(taskId) in ResultsByTaskId(results).value {
      ResultsByTaskIdKeepsLast(results, Text(taskId));
    }
  }

  /** A stored result that holds "info" next to its status: the entry read for it drops the info. */
  lemma StoredInfoIsDropped()
    ensures var meta := TaskMeta(map["task_id" := Text("t"), "status" := Text("SUCCESS"), "info" := Text("done")], false);
      && "info" in meta.fields
      && ResultsByTaskId([meta]) == Ok(map[Text("t") := meta])
      && StateInfoFor("t", ResultsByTaskId([meta]).value) == Ok(StateInfo(Text("SUCCESS"), None))
  {
    var meta := TaskMeta(map["task_id" := Text("t"), "status" := Text("SUCCESS"), "info" := Text("done")], false);
    assert [meta][..0] == [];
  }

  /**
   * The entry the guard evidently means to read: the stored "info" when the result has
   * that key, and no info otherwise, as `task_result.get("info")` reads it.
   */
  function StateInfoForIntended(taskId: string, resultsByTaskId: map<Value, TaskMeta>): (r: Result<StateInfo, Error>)
    ensures Text(taskId) !in resultsByTaskId ==> r == Ok(StateInfo(PENDING, None))
    ensures Text(taskId) in resultsByTaskId && resultsByTaskId[Text(taskId)].fields == map[] ==>
      r == Ok(StateInfo(PENDING, None))
    ensures Text(taskId) in resultsByTaskId && resultsByTaskId[Text(taskId)].fields != map[] ==>
      var meta := resultsByTaskId[Text(taskId)];
      && (r.Ok? <==> "status" in meta.fields)
      && (r.Ok? ==> r.value.state == meta.fields["status"])
      && (r.Ok? ==> (r.value.info.Some? <==> "info" in meta.fields))
      && (r.Ok? && "info" in meta.fields ==> r.value.info == Some(meta.fields["info"]))
      && (r.Err? ==> r.error == KeyError("status"))
  {
    var found := if Text(taskId) in resultsByTaskId then Some(resultsByTaskId[Text(taskId)]) else None;
    if found.Some? && found.value.fields != map[] then
      var meta := found.value;
      if "status" !in meta.fields then Err(KeyError("status"))
      else Ok(StateInfo(meta.fields["status"], if "info" in meta.fields then Some(meta.fields["info"]) else None))
    else
      Ok(StateInfo(PENDING, None))
  }

  /**
   * The intended entry reads the same state as the guard as written, and the same entry
   * for a result that does carry an `info` attribute.
   */
  lemma IntendedAgreesWithAttribute(taskId: string, resultsByTaskId: map<Value, TaskMeta>)
    ensures StateInfoFor(taskId, resultsByTaskId).Ok? ==>
      && StateInfoForIntended(taskId, resultsByTaskId).Ok?
      && StateInfoForIntended(taskId, resultsByTaskId).value.state == StateInfoFor(taskId, resultsByTaskId).value.state
    ensures (StateInfoFor(taskId, resultsByTaskId).Ok? && Text(taskId) in resultsByTaskId &&
             resultsByTaskId[Text(taskId)].hasInfoAttribute) ==>
      StateInfoForIntended(taskId, resultsByTaskId) == StateInfoFor(taskId, resultsByTaskId)
  {
  }

  /**
   * Over an index of stored results, the intended entry of an id reports info exactly when
   * the last stored result for that id holds "info", and then reports that value.
   */
  lemma {:induction false} IntendedReportsStoredInfo(results: seq<TaskMeta>, taskId: string)
    requires ResultsByTaskId(results).Ok?
    ensures var r := StateInfoForIntended(taskId, ResultsByTaskId(results).value);
      r.Ok? && r.value.info.Some? ==>
        exists i :: (0 <= i < |results| && results[i].fields["task_id"] == Text(taskId) &&
          "info" in results[i].fields && r.value.info == Some(results[i].fields["info"]) &&
          forall j :: i < j < |results| ==> results[j].fields["task_id"] != Text(taskId))
    ensures var r := StateInfoForIntended(taskId, ResultsByTaskId(results).value);
      r.Ok? && r.value.info.None? ==>
        forall i :: (0 <= i < |results| && results[i].fields["task_id"] == Text(taskId) &&
          (forall j :: i < j < |results| ==> results[j].fields["task_id"] != Text(taskId))) ==>
          "info" !in results[i].fields
  {
    var m := ResultsByTaskId(results).value;
    ResultsByTaskIdKeys(results);
    if Text(taskId) in m {
      ResultsByTaskIdKeepsLast(results, Text(taskId));
      var last :| (0 <= last < |results| && results[last].fields["task_id"] == Text(taskId) &&
        m[Text(taskId)] == results[last] &&
        forall j :: last < j < |results| ==> results[j].fields["task_id"] != Text(taskId));
      forall i | (0 <= i < |results| && results[i].fields["task_id"] == Text(taskId) &&
          (forall j :: i < j < |results| ==> results[j].fields["task_id"] != Text(taskId)))
        ensures i == last
      {
      }
    }
  }

  // ---------------------------------------------------------------------------------
  // The multiprocessing path

  /**
   * Reads one task's state and info; an exception becomes a wrapped exception and no
   * info, and a timeout escapes as AirflowTaskTimeout.
   */
  function FetchCeleryTaskState(a: AsyncResult): (r: Result<FetchedState, Error>)
    ensures r.Err? <==> a.probe.TimesOut?
    ensures r.Err? ==> r.error == AirflowTaskTimeout
    ensures r.Ok? ==> r.value.taskId == a.taskId
    ensures r.Ok? ==> (r.value.stateOrException.Failed? <==> a.probe.Raises?)
    ensures a.probe.Answers? ==> r.Ok? && r.value.stateOrException == State(a.probe.state) && r.value.info == a.probe.info
    ensures a.probe.Raises? ==>
      && r.Ok?
      && r.value.info == None
      && r.value.stateOrException.failure.exception == a.probe.exception
      && r.value.stateOrException.failure.traceback == "Celery Task ID: " + a.taskId + "\n" + a.probe.formattedTraceback
  {
    match a.probe
    case Answers(state, info) => Ok(FetchedState(a.taskId, State(state), info))
    case Raises(e, tb) =>
      Ok(FetchedState(a.taskId, Failed(ExceptionWithTraceback(e, "Celery Task ID: " + a.taskId + "\n" + tb)), None))
    case TimesOut => Err(AirflowTaskTimeout)
  }

  /**
   * The pool's answers, in the order of the async results (the pool's map keeps order);
   * a timeout in any worker escapes the map, so then there is no list of answers at all.
   */
  function FetchAll(asyncResults: seq<AsyncResult>): (r: Result<seq<FetchedState>, Error>)
    ensures r.Ok? <==> forall i :: 0 <= i < |asyncResults| ==> !asyncResults[i].probe.TimesOut?
    ensures r.Err? ==> r.error == AirflowTaskTimeout
    ensures r.Ok? ==> |r.value| == |asyncResults|
    ensures r.Ok? ==> forall i :: 0 <= i < |r.value| ==> Ok(r.value[i]) == FetchCeleryTaskState(asyncResults[i])
  {
    if exists i :: 0 <= i < |asyncResults| && asyncResults[i].probe.TimesOut? then Err(AirflowTaskTimeout)
    else Ok(seq(|asyncResults|, i requires 0 <= i < |asyncResults| => FetchCeleryTaskState(asyncResults[i]).value))
  }

  /** The size of the process pool and of the chunks handed to each worker. */
  datatype PoolPlan = PoolPlan(workers: nat, chunkSize: nat)

  function CeilDiv(n: nat, d: nat): nat
    requires d > 0
  {
    (n + d - 1) / d
  }

  /**
   * Sizes the pool for `n` results: min(n, sync_parallelism) workers and chunks of
   * max(1, ceil(n / sync_parallelism)). An unset parallelism makes `min` raise TypeError;
   * a pool of zero or fewer workers is refused with ValueError.
   */
  function PlanPool(n: nat, syncParallelism: Option<int>): (r: Result<PoolPlan, Error>)
    ensures r.Ok? <==> syncParallelism.Some? && syncParallelism.value > 0 && n > 0
    ensures syncParallelism.None? ==> r.Err? && r.error.TypeError?
    ensures syncParallelism.Some? && r.Err? ==> r.error == ValueError("max_workers must be greater than 0")
    ensures r.Ok? ==>
      var p := syncParallelism.value;
      && r.value.workers == (if n < p then n else p)
      && 1 <= r.value.workers <= n
      && r.value.chunkSize >= 1
      && (r.value.chunkSize - 1) * p < n <= r.value.chunkSize * p
      && n <= r.value.workers * r.value.chunkSize
  {
    if syncParallelism.None? then
      Err(TypeError("'<' not supported between instances of 'NoneType' and 'int'"))
    else
      var p := syncParallelism.value;
      var workers := if p < n then p else n;
      if workers <= 0 then Err(ValueError("max_workers must be greater than 0"))
      else
        var c := CeilDiv(n, p);
        ChunksCover(n, p, workers, c);
        var chunk := if c < 1 then 1 else c;
        Ok(PoolPlan(workers, chunk))
  }

  /** Chunks of ceil(n / p) results cover all n results, on p or on min(n, p) workers. */
  lemma ChunksCover(n: nat, p: nat, workers: nat, c: nat)
    requires n > 0 && p > 0
    requires workers == (if p < n then p else n)
    requires c == CeilDiv(n, p)
    ensures c >= 1
    ensures (c - 1) * p < n <= c * p
    ensures n <= workers * c
  {
    CeilDivBounds(n, p);
    if workers == n {
      assert n * c >= n * 1;
    }
  }

  lemma CeilDivBounds(n: nat, d: nat)
    requires n > 0 && d > 0
    ensures CeilDiv(n, d) >= 1
    ensures (CeilDiv(n, d) - 1) * d < n <= CeilDiv(n, d) * d
  {
    var q := CeilDiv(n, d);
    var rem := (n + d - 1) % d;
    assert n + d - 1 == q * d + rem;
    assert 0 <= rem < d;
    assert (q - 1) * d == q * d - d;
  }

  /**
   * The states gathered from the pool's answers, in order: an answer that is an
   * exception is left out, and a later answer for a task id replaces an earlier one.
   */
  function StatesByTaskId(fetched: seq<FetchedState>): map<string, StateInfo>
    decreases |fetched|
  {
    if fetched == [] then map[]
    else
      var states := StatesByTaskId(fetched[..|fetched| - 1]);
      var last := fetched[|fetched| - 1];
      match last.stateOrException
      case Failed(_) => states
      case State(s) => states[last.taskId := StateInfo(s, last.info)]
  }

  /**
   * The multiprocessing path: size the pool, fetch every state through it, then keep the
   * non-failed ones. A timeout in any fetch makes the whole call raise.
   */
  method GetManyUsingMultiprocessing(asyncResults: seq<AsyncResult>, syncParallelism: Option<int>)
    returns (r: Result<map<string, StateInfo>, Error>)
    ensures r.Err? <==> (PlanPool(|asyncResults|, syncParallelism).Err? ||
      exists i :: 0 <= i < |asyncResults| && asyncResults[i].probe.TimesOut?)
    ensures PlanPool(|asyncResults|, syncParallelism).Err? ==> r.error == PlanPool(|asyncResults|, syncParallelism).error
    ensures PlanPool(|asyncResults|, syncParallelism).Ok? && r.Err? ==> r.error == AirflowTaskTimeout
    ensures r.Ok? ==> r.value == StatesByTaskId(FetchAll(asyncResults).value)
    ensures r.Ok? ==> r.value.Keys <= TaskIds(asyncResults)
  {
    var plan := PlanPool(|asyncResults|, syncParallelism);
    if plan.Err? {
      return Err(plan.error);
    }
    var answers := FetchAll(asyncResults);
    if answers.Err? {
      return Err(answers.error);
    }
    var states := CollectStates(answers.value);
    StatesKeysAreSuccessfulIds(answers.value);
    return Ok(states);
  }

  /** The loop over the pool's answers: a failed answer is only logged, the others are stored by task id. */
  method CollectStates(fetched: seq<FetchedState>) returns (states: map<string, StateInfo>)
    ensures states == StatesByTaskId(fetched)
  {
    states := map[];
    for i := 0 to |fetched|
      invariant states == StatesByTaskId(fetched[..i])
    {
      assert fetched[..i + 1][..i] == fetched[..i];
      var f := fetched[i];
      if f.stateOrException.State? {
        states := states[f.taskId := StateInfo(f.stateOrException.state, f.info)];
      }
    }
    assert fetched[..|fetched|] == fetched;
  }

  /** The keys of the gathered states are exactly the task ids whose fetch did not fail. */
  lemma {:induction false} StatesKeysAreSuccessfulIds(fetched: seq<FetchedState>)
    ensures forall id :: id in StatesByTaskId(fetched) <==>
      exists i :: 0 <= i < |fetched| && fetched[i].taskId == id && fetched[i].stateOrException.State?
    decreases |fetched|
  {
    if fetched != [] {
      var init := fetched[..|fetched| - 1];
      assert forall i :: 0 <= i < |init| ==> init[i] == fetched[i];
      StatesKeysAreSuccessfulIds(init);
    }
  }

  /**
   * The state kept for a task id is that of its last non-failed answer: that answer's
   * state and info, and every later answer for the same id failed.
   */
  lemma {:induction false} StatesAreLastSuccessfulAnswer(fetched: seq<FetchedState>, id: string)
    requires id in StatesByTaskId(fetched)
    ensures exists i :: (0 <= i < |fetched| && fetched[i].taskId == id && fetched[i].stateOrException.State? &&
      StatesByTaskId(fetched)[id] == StateInfo(fetched[i].stateOrException.state, fetched[i].info) &&
      forall j :: i < j < |fetched| && fetched[j].taskId == id ==> fetched[j].stateOrException.Failed?)
    decreases |fetched|
  {
    var init := fetched[..|fetched| - 1];
    var last := fetched[|fetched| - 1];
    assert forall i :: 0 <= i < |init| ==> init[i] == fetched[i];
    if last.taskId == id && last.stateOrException.State? {
      var i := |fetched| - 1;
      assert fetched[i].taskId == id && fetched[i].stateOrException.State? &&
        StatesByTaskId(fetched)[id] == StateInfo(fetched[i].stateOrException.state, fetched[i].info);
    } else {
      assert StatesByTaskId(fetched)[id] == StatesByTaskId(init)[id];
      StatesAreLastSuccessfulAnswer(init, id);
    }
  }

  /** A task whose every answer failed has no entry at all. */
  lemma AllFailedMeansAbsent(fetched: seq<FetchedState>, id: string)
    requires forall i :: 0 <= i < |fetched| && fetched[i].taskId == id ==> fetched[i].stateOrException.Failed?
    ensures id !in StatesByTaskId(fetched)
  {
    StatesKeysAreSuccessfulIds(fetched);
  }

  // ---------------------------------------------------------------------------------
  // The execution-API server of a workload

  const LOCALHOST_BASE: string := "http://localhost:8080"
  const EXECUTION_PATH: string := "/execution/"

  /** A relative base URL (one starting with "/") is taken to be on localhost port 8080. */
  function AbsoluteBaseUrl(baseUrl: string): string
  {
    if |baseUrl| > 0 && baseUrl[0] == '/' then LOCALHOST_BASE + baseUrl else baseUrl
  }

  /** Python's rstrip('/'): the longest prefix that does not end in '/'. */
  function RStripSlashes(s: string): (r: string)
    ensures r <= s
    ensures r == [] || r[|r| - 1] != '/'
    ensures forall i :: |r| <= i < |s| ==> s[i] == '/'
    decreases |s|
  {
    if s != [] && s[|s| - 1] == '/' then RStripSlashes(s[..|s| - 1]) else s
  }

  /** The default execution-API server: the absolute base, trailing slashes stripped, then "/execution/". */
  function DefaultExecutionApiServer(baseUrl: string): string
  {
    RStripSlashes(AbsoluteBaseUrl(baseUrl)) + EXECUTION_PATH
  }

  /**
   * The default server always ends in "/execution/", and the character before that
   * suffix, when there is one, is not another '/'.
   */
  lemma DefaultServerEndsInExecutionPath(baseUrl: string)
    ensures var r := DefaultExecutionApiServer(baseUrl);
      && |r| >= |EXECUTION_PATH|
      && r[|r| - |EXECUTION_PATH|..] == EXECUTION_PATH
      && (|r| == |EXECUTION_PATH| || r[|r| - |EXECUTION_PATH| - 1] != '/')
  {
    SuffixShape(RStripSlashes(AbsoluteBaseUrl(baseUrl)));
  }

  /** A relative base URL yields a default server on http://localhost:8080. */
  lemma RelativeBaseUsesLocalhost(baseUrl: string)
    requires |baseUrl| > 0 && baseUrl[0] == '/'
    ensures LOCALHOST_BASE <= DefaultExecutionApiServer(baseUrl)
  {
    LocalhostPrefixSurvivesStrip(baseUrl);
    PrefixExtends(LOCALHOST_BASE, RStripSlashes(AbsoluteBaseUrl(baseUrl)), EXECUTION_PATH);
  }

  lemma SuffixShape(stripped: string)
    requires stripped == [] || stripped[|stripped| - 1] != '/'
    ensures var r := stripped + EXECUTION_PATH;
      && |r| >= |EXECUTION_PATH|
      && r[|r| - |EXECUTION_PATH|..] == EXECUTION_PATH
      && (|r| == |EXECUTION_PATH| || r[|r| - |EXECUTION_PATH| - 1] != '/')
  {
    var r := stripped + EXECUTION_PATH;
    assert r[|stripped|..] == EXECUTION_PATH;
    if |stripped| > 0 {
      assert r[|stripped| - 1] == stripped[|stripped| - 1];
    }
  }

  lemma PrefixExtends(p: string, s: string, t: string)
    requires p <= s
    ensures p <= s + t
  {
    assert (s + t)[..|p|] == s[..|p|];
  }

  lemma LocalhostPrefixSurvivesStrip(baseUrl: string)
    requires |baseUrl| > 0 && baseUrl[0] == '/'
    ensures LOCALHOST_BASE <= RStripSlashes(LOCALHOST_BASE + baseUrl)
  {
    var abs := LOCALHOST_BASE + baseUrl;
    var stripped := RStripSlashes(abs);
    var n := |LOCALHOST_BASE|;
    assert abs[n - 1] != '/';
    assert |stripped| >= n;
    assert stripped[..n] == abs[..n] == LOCALHOST_BASE;
  }

  /** Trailing slashes on a non-empty base URL do not change the default server. */
  lemma {:induction false} TrailingSlashIgnored(baseUrl: string)
    requires |baseUrl| > 0
    ensures DefaultExecutionApiServer(baseUrl + "/") == DefaultExecutionApiServer(baseUrl)
  {
    var withSlash := baseUrl + "/";
    assert withSlash[0] == baseUrl[0];
    assert AbsoluteBaseUrl(withSlash) == AbsoluteBaseUrl(baseUrl) + "/";
    var abs := AbsoluteBaseUrl(baseUrl) + "/";
    assert abs[..|abs| - 1] == AbsoluteBaseUrl(baseUrl);
  }

  /** The decoded workload a Celery task receives; only ExecuteTask is handled. */
  datatype Workload =
    | ExecuteTask(ti: string, dagRelPath: string, bundleInfo: string, token: string, logPath: Option<string>)
    | OtherWorkload(kind: string)

  /** The arguments handed to the task supervisor. */
  datatype SuperviseCall = SuperviseCall(
    ti: string, dagRelPath: string, bundleInfo: string, token: string, server: string, logPath: Option<string>)

  /**
   * What executing a workload hands to the supervisor. `apiBaseUrl` and
   * `executionApiServerUrl` are the configured [api] base_url and [core]
   * execution_api_server_url, when set.
   */
  function ExecuteWorkload(w: Workload, apiBaseUrl: Option<string>, executionApiServerUrl: Option<string>)
    : (r: Result<SuperviseCall, Error>)
    ensures r.Err? <==> w.OtherWorkload?
    ensures r.Err? ==> r.error == ValueError("CeleryExecutor does not know how to handle " + w.kind)
    ensures r.Ok? ==>
      && r.value.ti == w.ti && r.value.dagRelPath == w.dagRelPath && r.value.bundleInfo == w.bundleInfo
      && r.value.token == w.token && r.value.logPath == w.logPath
    ensures r.Ok? && executionApiServerUrl.Some? ==> r.value.server == executionApiServerUrl.value
    ensures r.Ok? && executionApiServerUrl.None? && apiBaseUrl.None? ==>
      r.value.server == "http://localhost:8080/execution/"
    ensures r.Ok? && executionApiServerUrl.None? && apiBaseUrl.Some? ==>
      r.value.server == DefaultExecutionApiServer(apiBaseUrl.value)
  {
    match w
    case OtherWorkload(kind) => Err(ValueError("CeleryExecutor does not know how to handle " + kind))
    case ExecuteTask(ti, dagRelPath, bundleInfo, token, logPath) =>
      var baseUrl := if apiBaseUrl.Some? then apiBaseUrl.value else "/";
      var server := if executionApiServerUrl.Some? then executionApiServerUrl.value
                    else DefaultExecutionApiServer(baseUrl);
      Ok(SuperviseCall(ti, dagRelPath, bundleInfo, token, server, logPath))
  }
}
