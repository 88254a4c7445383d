# Airflow provider hooks: Celery state fetching, Dataproc Metastore requests, Databricks SQL

This project models three modules of Apache Airflow's provider packages in Dafny and proves
properties of the model.

- **Celery executor utilities** (`Celery.dfy`, module `CeleryExecutorUtils`):
  - `BulkStateFetcher` gathers the state and info of many Celery tasks in one of three ways: a
    key-value backend, a database backend, or a process pool that fetches each task on its own.
  - `fetch_celery_task_state` turns a failed fetch into an exception together with its traceback.
  - `execute_workload` rejects workloads that are not `ExecuteTask`. It also works out the default
    Execution API server URL from `[api] base_url`.
- **Dataproc Metastore hook** (`DataprocMetastore.dfy`, module `DataprocMetastore`):
  - every operation builds a resource name of the form
    `projects/{project}/locations/{region}/services/{service}[/backups/{backup}]` and a request
    record;
  - `update_service` writes the service name into the caller's dict;
  - `list_hive_partitions` de-duplicates the partition names and builds the SQL query the
    metadata query API runs.
- **Databricks SQL hook** (`DatabricksSql.dfy`, module `DatabricksSql`, class
  `DatabricksSqlHook`). The class fields are the hook's `_http_path`, `_token`,
  `session_config`, `_sql_conn`, `query_ids` and `descriptions`.
  - `GetConn` resolves the HTTP path, refreshes the token and decides whether to reconnect.
  - `Run` builds the statement list, runs each statement, collects query ids and results, and
    chooses its return value.
  - Each method is proved against a function of the old state: `GetConnStep` for `GetConn` and
    `RunSpec` for `Run`.
  - Lemmas about those functions state the source's rules.
- `Wrappers.dfy` holds the shared `Option` and `Result` types. Python exceptions are modelled as
  `Err` values: `KeyError`, `TypeError`, `ValueError`, `AirflowException`, `AirflowTaskTimeout` and
  the Databricks execution errors.

Foreign inputs are parameters of the model:

- Celery: the task probes, backend values, decoder, stored results and configuration.
- Dataproc Metastore: nothing beyond the operation's own arguments; the client call itself is left
  out.
- Databricks: the endpoint listing, the token returned by each `get_conn`, the outcome of each
  statement and whether run was given an `execution_timeout` (a `Driver` value).
  The statement splitter, the statement stripper and the answer of
  `return_single_query_results` are also parameters.

## Model

Source paths are relative to the root of the Airflow repository.

| member | source | states |
|---|---|---|
| CeleryExecutorUtils.TaskIds | providers/celery/src/airflow/providers/celery/executors/celery_executor_utils.py:327-328 | the set holds exactly the task ids of the given async results, and has no more ids than there are results |
| CeleryExecutorUtils.StateInfoFor | providers/celery/src/airflow/providers/celery/executors/celery_executor_utils.py:371-378 | an id that is absent, or whose result is empty, is PENDING with no info; otherwise its "status"; info only when the result has an `info` attribute; a KeyError when "status" or "info" is missing |
| CeleryExecutorUtils.PrepareStateAndInfoByTaskDict | providers/celery/src/airflow/providers/celery/executors/celery_executor_utils.py:365-379 | succeeds iff every id's entry can be read; the keys are exactly the requested ids; each value is that id's state and info; an error is the error of one of the ids |
| CeleryExecutorUtils.DecodeFetched | providers/celery/src/airflow/providers/celery/executors/celery_executor_utils.py:345 | every truthy backend value is decoded into the list, only truthy values are decoded, and there are no more results than values |
| CeleryExecutorUtils.TruthyIndicesSpec | providers/celery/src/airflow/providers/celery/executors/celery_executor_utils.py:345 | the reference positions are exactly the positions of the truthy values, each once, in increasing order |
| CeleryExecutorUtils.DecodeFetchedInOrder | providers/celery/src/airflow/providers/celery/executors/celery_executor_utils.py:345 | the decoded list is an order-preserving filter: its k-th entry is the decoding of the k-th truthy value, so order and repetitions are kept |
| CeleryExecutorUtils.ResultsByTaskId | providers/celery/src/airflow/providers/celery/executors/celery_executor_utils.py:346 | indexing fails iff some result lacks "task_id", and then with KeyError("task_id") |
| CeleryExecutorUtils.ResultsByTaskIdKeys | providers/celery/src/airflow/providers/celery/executors/celery_executor_utils.py:346 | the index keys are exactly the "task_id" values of the results |
| CeleryExecutorUtils.ResultsByTaskIdKeepsLast | providers/celery/src/airflow/providers/celery/executors/celery_executor_utils.py:346 | the result stored under an id is the last result carrying that id (dict-comprehension last-wins) |
| CeleryExecutorUtils.GetManyFromKvBackend | providers/celery/src/airflow/providers/celery/executors/celery_executor_utils.py:341-348 | succeeds iff every decoded result has "task_id" and every requested id's entry can be read; a result without "task_id" raises KeyError("task_id"), any other error is the entry error of a requested id; on success the keys are the requested task ids, each with the state and info read from the index |
| CeleryExecutorUtils.GetManyFromDbBackend | providers/celery/src/airflow/providers/celery/executors/celery_executor_utils.py:357-363 | the same for the stored database results: succeeds iff they all have "task_id" and every requested entry can be read, with the same errors and the same map |
| CeleryExecutorUtils.PlainDictResultsReportNoInfo | providers/celery/src/airflow/providers/celery/executors/celery_executor_utils.py:360-374 | as written: when every stored result is a plain dictionary, as `meta_from_decoded` builds them, no entry read from the index reports info, whatever the result holds under "info" |
| CeleryExecutorUtils.StoredInfoIsDropped | providers/celery/src/airflow/providers/celery/executors/celery_executor_utils.py:371-378 | as written: a stored result {"task_id": "t", "status": "SUCCESS", "info": "done"} is read as ("SUCCESS", None) |
| CeleryExecutorUtils.StateInfoForIntended | providers/celery/src/airflow/providers/celery/executors/celery_executor_utils.py:371-378 | the evidently intended entry: PENDING with no info for an absent or empty result; otherwise its "status" (KeyError("status") when missing) and its "info" exactly when the result has that key |
| CeleryExecutorUtils.IntendedAgreesWithAttribute | providers/celery/src/airflow/providers/celery/executors/celery_executor_utils.py:371-378 | the intended entry reads the same state as the code as written, and the same entry for a result that has an `info` attribute |
| CeleryExecutorUtils.IntendedReportsStoredInfo | providers/celery/src/airflow/providers/celery/executors/celery_executor_utils.py:371-378 | over an index of stored results, the intended entry reports info exactly when the last stored result for that id holds "info", and then that value |
| CeleryExecutorUtils.FetchCeleryTaskState | providers/celery/src/airflow/providers/celery/executors/celery_executor_utils.py:292-311 | a timeout escapes as AirflowTaskTimeout, since only `Exception` is caught; otherwise the task id is kept, a probe that answers gives its state and info, and a probe that raises gives an exception whose traceback is "Celery Task ID: {id}" followed by the formatted traceback, with no info |
| CeleryExecutorUtils.FetchAll | providers/celery/src/airflow/providers/celery/executors/celery_executor_utils.py:387-389 | `list(sync_pool.map(...))` fails with AirflowTaskTimeout iff some fetch times out; otherwise one fetched state per async result, in order |
| CeleryExecutorUtils.PlanPool | providers/celery/src/airflow/providers/celery/executors/celery_executor_utils.py:382-385 | no sync_parallelism raises TypeError; a pool of at most 0 workers raises ValueError; otherwise workers = min(n, p) and chunksize = max(1, ceil(n / p)), so the chunks cover every result and no chunk is more than needed |
| CeleryExecutorUtils.CeilDiv | providers/celery/src/airflow/providers/celery/executors/celery_executor_utils.py:385 | `math.ceil(n / p)` as integer ceiling division; no contract of its own: CeilDivBounds states it is the least c with n <= c * p, and PlanPool uses it |
| CeleryExecutorUtils.CeilDivBounds | providers/celery/src/airflow/providers/celery/executors/celery_executor_utils.py:385 | the integer ceiling c of n / d is the least c with n <= c * d |
| CeleryExecutorUtils.GetManyUsingMultiprocessing | providers/celery/src/airflow/providers/celery/executors/celery_executor_utils.py:381-402 | fails exactly when the pool cannot be planned (with that error) or some fetch times out (with AirflowTaskTimeout); otherwise the map equals StatesByTaskId of all fetched states, and its keys are among the task ids |
| CeleryExecutorUtils.StatesByTaskId | providers/celery/src/airflow/providers/celery/executors/celery_executor_utils.py:391-401 | the map the loop builds, as a fold over the answers; no contract of its own: CollectStates proves the loop equal to it, and StatesKeysAreSuccessfulIds, StatesAreLastSuccessfulAnswer and AllFailedMeansAbsent state what it holds |
| CeleryExecutorUtils.CollectStates | providers/celery/src/airflow/providers/celery/executors/celery_executor_utils.py:391-401 | the loop over the pool's answers builds exactly StatesByTaskId of them: failed answers are skipped, a later answer for an id replaces an earlier one |
| CeleryExecutorUtils.StatesKeysAreSuccessfulIds | providers/celery/src/airflow/providers/celery/executors/celery_executor_utils.py:391-401 | an id is in the result iff some fetch of it did not fail |
| CeleryExecutorUtils.StatesAreLastSuccessfulAnswer | providers/celery/src/airflow/providers/celery/executors/celery_executor_utils.py:391-401 | the entry of an id is the state and info of its last fetch that did not fail |
| CeleryExecutorUtils.AllFailedMeansAbsent | providers/celery/src/airflow/providers/celery/executors/celery_executor_utils.py:393-399 | an id all of whose fetches failed is only logged, never stored |
| CeleryExecutorUtils.AbsoluteBaseUrl | providers/celery/src/airflow/providers/celery/executors/celery_executor_utils.py:166-168 | a base URL starting with "/" is put on http://localhost:8080; no contract of its own: RelativeBaseUsesLocalhost states it through the default server |
| CeleryExecutorUtils.RStripSlashes | providers/celery/src/airflow/providers/celery/executors/celery_executor_utils.py:169 | `rstrip('/')` gives a prefix of its input that does not end in '/', and only '/' was removed |
| CeleryExecutorUtils.DefaultExecutionApiServer | providers/celery/src/airflow/providers/celery/executors/celery_executor_utils.py:165-169 | the absolute base with trailing slashes stripped, then "/execution/"; no contract of its own: specified by DefaultServerEndsInExecutionPath, RelativeBaseUsesLocalhost and TrailingSlashIgnored |
| CeleryExecutorUtils.DefaultServerEndsInExecutionPath | providers/celery/src/airflow/providers/celery/executors/celery_executor_utils.py:165-169 | the default server URL ends in "/execution/" with no doubled slash before it |
| CeleryExecutorUtils.RelativeBaseUsesLocalhost | providers/celery/src/airflow/providers/celery/executors/celery_executor_utils.py:165-168 | a base URL starting with '/' gives a default server on http://localhost:8080 |
| CeleryExecutorUtils.TrailingSlashIgnored | providers/celery/src/airflow/providers/celery/executors/celery_executor_utils.py:169 | for a non-empty base URL, a trailing '/' does not change the default server |
| CeleryExecutorUtils.ExecuteWorkload | providers/celery/src/airflow/providers/celery/executors/celery_executor_utils.py:148-179 | a workload that is not ExecuteTask raises ValueError with the message naming its type; otherwise supervise gets the workload's fields and the configured server, or the default built from base_url (fallback "/", giving http://localhost:8080/execution/) |
| DataprocMetastore.LocationName | providers/google/src/airflow/providers/google/cloud/hooks/dataproc_metastore.py:223 | `projects/{project_id}/locations/{region}`; no contract of its own: LocationNameIsJoin and LocationNameRoundTrip state it |
| DataprocMetastore.ServiceName | providers/google/src/airflow/providers/google/cloud/hooks/dataproc_metastore.py:316 | the location name followed by `/services/{service_id}`; no contract of its own: ServiceNameIsJoin and ServiceNameRoundTrip state it |
| DataprocMetastore.BackupName | providers/google/src/airflow/providers/google/cloud/hooks/dataproc_metastore.py:274 | the service name followed by `/backups/{backup_id}`; no contract of its own: BackupNameIsJoin, BackupNameRoundTrip and BackupNamesInjective state it |
| DataprocMetastore.BackupsParent | providers/google/src/airflow/providers/google/cloud/hooks/dataproc_metastore.py:510 | the service name followed by `/backups`; no contract of its own: BackupsParentIsJoin and BackupsParentRoundTrip state it |
| DataprocMetastore.BackupNamesExtendServiceName | providers/google/src/airflow/providers/google/cloud/hooks/dataproc_metastore.py:223-274 | the backup, backup-collection and service names extend the service and location names |
| DataprocMetastore.SplitCons | providers/google/src/airflow/providers/google/cloud/hooks/dataproc_metastore.py:115 | splitting a slash-free segment followed by '/' peels that segment off |
| DataprocMetastore.SplitJoin | providers/google/src/airflow/providers/google/cloud/hooks/dataproc_metastore.py:115 | splitting a '/'-joined path of slash-free segments gives back the segments |
| DataprocMetastore.ParseJoin | providers/google/src/airflow/providers/google/cloud/hooks/dataproc_metastore.py:115 | a name joined from slash-free segments is read back from those segments |
| DataprocMetastore.LocationNameIsJoin | providers/google/src/airflow/providers/google/cloud/hooks/dataproc_metastore.py:223 | the location name is the '/'-join of "projects", the project, "locations" and the region |
| DataprocMetastore.ServiceNameIsJoin | providers/google/src/airflow/providers/google/cloud/hooks/dataproc_metastore.py:316 | the service name is the location's segments followed by "services" and the service |
| DataprocMetastore.BackupsParentIsJoin | providers/google/src/airflow/providers/google/cloud/hooks/dataproc_metastore.py:510 | the backups parent is the service's segments followed by "backups" |
| DataprocMetastore.BackupNameIsJoin | providers/google/src/airflow/providers/google/cloud/hooks/dataproc_metastore.py:274 | the backup name is the service's segments followed by "backups" and the backup |
| DataprocMetastore.LocationNameRoundTrip | providers/google/src/airflow/providers/google/cloud/hooks/dataproc_metastore.py:223 | with slash-free ids, the location name parses back into its project and region |
| DataprocMetastore.ServiceNameRoundTrip | providers/google/src/airflow/providers/google/cloud/hooks/dataproc_metastore.py:316 | with slash-free ids, the service name parses back into its project, region and service |
| DataprocMetastore.BackupsParentRoundTrip | providers/google/src/airflow/providers/google/cloud/hooks/dataproc_metastore.py:510 | the backups parent parses back into its service |
| DataprocMetastore.BackupNameRoundTrip | providers/google/src/airflow/providers/google/cloud/hooks/dataproc_metastore.py:274 | the backup name parses back into its project, region, service and backup |
| DataprocMetastore.BackupNamesInjective | providers/google/src/airflow/providers/google/cloud/hooks/dataproc_metastore.py:449 | two backups of slash-free ids with the same name have the same ids |
| DataprocMetastore.CreateBackup | providers/google/src/airflow/providers/google/cloud/hooks/dataproc_metastore.py:115-124 | the request carries the backup, its id and the request id; its parent names the service |
| DataprocMetastore.CreateMetadataImport | providers/google/src/airflow/providers/google/cloud/hooks/dataproc_metastore.py:173-182 | the request carries the import, its id and the request id; its parent names the service |
| DataprocMetastore.CreateService | providers/google/src/airflow/providers/google/cloud/hooks/dataproc_metastore.py:223-232 | a missing service becomes {}; the parent names the location |
| DataprocMetastore.DeleteBackup | providers/google/src/airflow/providers/google/cloud/hooks/dataproc_metastore.py:274-281 | the name names the backup |
| DataprocMetastore.DeleteService | providers/google/src/airflow/providers/google/cloud/hooks/dataproc_metastore.py:316-323 | the name names the service |
| DataprocMetastore.ExportMetadata | providers/google/src/airflow/providers/google/cloud/hooks/dataproc_metastore.py:366-375 | the request carries the folder, the dump type and the request id; the service names the service |
| DataprocMetastore.GetService | providers/google/src/airflow/providers/google/cloud/hooks/dataproc_metastore.py:408-414 | the name names the service |
| DataprocMetastore.GetBackup | providers/google/src/airflow/providers/google/cloud/hooks/dataproc_metastore.py:449-454 | the name names the backup |
| DataprocMetastore.ListBackups | providers/google/src/airflow/providers/google/cloud/hooks/dataproc_metastore.py:510-520 | the paging, filter and order arguments are passed on; the parent names the backups of the service |
| DataprocMetastore.RestoreService | providers/google/src/airflow/providers/google/cloud/hooks/dataproc_metastore.py:571-584 | the service names the target service and the backup names the backup of the (possibly other) backup service |
| DataprocMetastore.UpdateService | providers/google/src/airflow/providers/google/cloud/hooks/dataproc_metastore.py:636-645 | the caller's dict gains "name" set to the service name and keeps every other entry; the request carries that same dict, the mask and the request id |
| DataprocMetastore.Dedup | providers/google/src/airflow/providers/google/cloud/hooks/dataproc_metastore.py:675 | `list(dict.fromkeys(names))`; no contract of its own: DedupSameElements, DedupDistinct, DedupFirstOccurrenceOrder, DedupOfDistinct and DedupIdempotent state it |
| DataprocMetastore.DedupSameElements | providers/google/src/airflow/providers/google/cloud/hooks/dataproc_metastore.py:675 | `dict.fromkeys` keeps exactly the names of the input |
| DataprocMetastore.DedupDistinct | providers/google/src/airflow/providers/google/cloud/hooks/dataproc_metastore.py:675 | no name is kept twice |
| DataprocMetastore.FirstOrderExtend | providers/google/src/airflow/providers/google/cloud/hooks/dataproc_metastore.py:675 | appending a name keeps the first-occurrence order of the names already kept |
| DataprocMetastore.FirstOrderAppendNew | providers/google/src/airflow/providers/google/cloud/hooks/dataproc_metastore.py:675 | a name seen for the first time is kept after every name kept before it |
| DataprocMetastore.DedupFirstOccurrenceOrder | providers/google/src/airflow/providers/google/cloud/hooks/dataproc_metastore.py:673-675 | the kept names occur in the input and are in the order of their first occurrence |
| DataprocMetastore.DedupOfDistinct | providers/google/src/airflow/providers/google/cloud/hooks/dataproc_metastore.py:675 | a list without repeats is unchanged |
| DataprocMetastore.DedupIdempotent | providers/google/src/airflow/providers/google/cloud/hooks/dataproc_metastore.py:675 | de-duplicating twice equals de-duplicating once |
| DataprocMetastore.QueryPartitions | providers/google/src/airflow/providers/google/cloud/hooks/dataproc_metastore.py:675 | the de-duplicated names when they are given and non-empty, else []; no contract of its own: QueryPartitionsEmpty states it |
| DataprocMetastore.QueryPartitionsEmpty | providers/google/src/airflow/providers/google/cloud/hooks/dataproc_metastore.py:675-677 | no partitions are queried iff the names are None or empty |
| DataprocMetastore.QuotedList | providers/google/src/airflow/providers/google/cloud/hooks/dataproc_metastore.py:678 | each name in single quotes, joined by ", "; no contract of its own: QuotedListRoundTrip states it |
| DataprocMetastore.QuotedListRoundTrip | providers/google/src/airflow/providers/google/cloud/hooks/dataproc_metastore.py:678 | the `", ".join` of quoted names reads back into the names, when no name contains a quote |
| DataprocMetastore.HivePartitionsQuery | providers/google/src/airflow/providers/google/cloud/hooks/dataproc_metastore.py:677-690 | the two f-string queries; no contract of its own: HivePartitionsQueryShape states it |
| DataprocMetastore.HivePartitionsQueryShape | providers/google/src/airflow/providers/google/cloud/hooks/dataproc_metastore.py:677-690 | without partitions the query is the table filter and ';'; with partitions, when no name contains a quote, it adds a PART_NAME IN list that reads back into them |
| DataprocMetastore.ListHivePartitions | providers/google/src/airflow/providers/google/cloud/hooks/dataproc_metastore.py:675-695 | the request's query is built from the de-duplicated partitions and its service names the service |
| DataprocMetastore.ListHivePartitionsNamesEachPartitionOnce | providers/google/src/airflow/providers/google/cloud/hooks/dataproc_metastore.py:675-684 | for a non-empty list the IN list reads back into the de-duplicated names, which hold no repeat |
| DatabricksSql.ExtraConfig | providers/databricks/src/airflow/providers/databricks/hooks/databricks_sql.py:112-118 | the extras without the removed keys; no contract of its own: ExtraConfigKeepsOthers states it and DatabricksSqlHook.GetExtraConfig proves the loop equal to it |
| DatabricksSql.ExtraConfigKeepsOthers | providers/databricks/src/airflow/providers/databricks/hooks/databricks_sql.py:112-118 | the extra config holds exactly the extras not named in the removed keys, with their values |
| DatabricksSql.DatabricksSqlHook.GetExtraConfig | providers/databricks/src/airflow/providers/databricks/hooks/databricks_sql.py:112-118 | the loop's result drops "http_path", "session_configuration" and every extra parameter, and keeps every other extra unchanged |
| DatabricksSql.ConnectKeywords | providers/databricks/src/airflow/providers/databricks/hooks/databricks_sql.py:157-168 | the keyword arguments of `sql.connect`; no contract of its own: ConnectKeywordsClash states it |
| DatabricksSql.ConnectKeywordsClash | providers/databricks/src/airflow/providers/databricks/hooks/databricks_sql.py:157-168 | `**extra_config, **additional_params` raises TypeError iff a key repeats an explicit keyword or appears in both; otherwise the union of the two |
| DatabricksSql.FirstEndpointNamed | providers/databricks/src/airflow/providers/databricks/hooks/databricks_sql.py:124-129 | the `next(...)` over the endpoints; no contract of its own: FirstEndpointNamedSpec states it |
| DatabricksSql.FirstEndpointNamedSpec | providers/databricks/src/airflow/providers/databricks/hooks/databricks_sql.py:124-129 | the result is the first endpoint with that name; not found iff every endpoint is named otherwise; a KeyError iff an endpoint looked at before any match has no name |
| DatabricksSql.EndpointByName | providers/databricks/src/airflow/providers/databricks/hooks/databricks_sql.py:120-129 | a listing without "endpoints" raises "Can't list Databricks SQL endpoints"; otherwise the first match |
| DatabricksSql.OdbcPath | providers/databricks/src/airflow/providers/databricks/hooks/databricks_sql.py:136 | `endpoint["odbc_params"]["path"]`, with a KeyError when either key is missing |
| DatabricksSql.ResolveHttpPath | providers/databricks/src/airflow/providers/databricks/hooks/databricks_sql.py:133-144 | the HTTP path get_conn works with; no contract of its own: HttpPathPriority and HttpPathNeverRecomputed state it |
| DatabricksSql.HttpPathPriority | providers/databricks/src/airflow/providers/databricks/hooks/databricks_sql.py:133-144 | a set path wins; otherwise a named endpoint is used and the extra is ignored; otherwise the extra; the "http_path should be provided" error iff none of the three exists |
| DatabricksSql.HttpPathNeverRecomputed | providers/databricks/src/airflow/providers/databricks/hooks/databricks_sql.py:133 | once the path is set, get_conn keeps it and does not consult the endpoint listing |
| DatabricksSql.RefreshToken | providers/databricks/src/airflow/providers/databricks/hooks/databricks_sql.py:146-152 | the token and session-configuration updates; no contract of its own: RefreshTokenSetsToken and GetConnSessionConfiguration state it |
| DatabricksSql.RefreshTokenSetsToken | providers/databricks/src/airflow/providers/databricks/hooks/databricks_sql.py:146-152 | after the token update the token is always the one just obtained |
| DatabricksSql.GetConnStep | providers/databricks/src/airflow/providers/databricks/hooks/databricks_sql.py:131-172 | get_conn as a function of the hook's fields; no contract of its own: DatabricksSqlHook.GetConn is proved equal to it, and GetConnKeepsNewToken, GetConnReconnectRule, GetConnSessionConfiguration, GetConnKeepsRunFields, GetConnErrors, GetConnKeepsConnTracked and GetConnFailureOpensNothing state it |
| DatabricksSql.GetConnKeepsNewToken | providers/databricks/src/airflow/providers/databricks/hooks/databricks_sql.py:146-172 | a successful get_conn holds the new token and returns the hook's current connection |
| DatabricksSql.Reconnect | providers/databricks/src/airflow/providers/databricks/hooks/databricks_sql.py:154-168 | close the held connection, then `sql.connect`; no contract of its own: GetConnReconnectRule states it and DatabricksSqlHook.Reopen is proved equal to it |
| DatabricksSql.GetConnReconnectRule | providers/databricks/src/airflow/providers/databricks/hooks/databricks_sql.py:154-168 | with no connection or a changed token, the old connection is closed before a new one is opened with the current path and token; otherwise the existing connection is returned and nothing is opened or closed |
| DatabricksSql.GetConnSessionConfiguration | providers/databricks/src/airflow/providers/databricks/hooks/databricks_sql.py:151-152 | a falsy session configuration falls back to the extra "session_configuration" (None when absent); a set one is kept |
| DatabricksSql.GetConnKeepsRunFields | providers/databricks/src/airflow/providers/databricks/hooks/databricks_sql.py:131-172 | get_conn does not touch query_ids or descriptions |
| DatabricksSql.GetConnErrors | providers/databricks/src/airflow/providers/databricks/hooks/databricks_sql.py:131-172 | get_conn never raises a ValueError |
| DatabricksSql.DatabricksSqlHook.GetConn | providers/databricks/src/airflow/providers/databricks/hooks/databricks_sql.py:131-172 | the new fields and the result are those of GetConnStep on the old fields |
| DatabricksSql.DatabricksSqlHook.Reopen | providers/databricks/src/airflow/providers/databricks/hooks/databricks_sql.py:155-168 | the reconnecting branch: close, build the keywords, then `sql.connect` |
| DatabricksSql.StatementList | providers/databricks/src/airflow/providers/databricks/hooks/databricks_sql.py:232-238 | a string is split and each part stripped, or stripped whole without splitting; a list has each element stripped, in order |
| DatabricksSql.CreateTimeoutThread | providers/databricks/src/airflow/providers/databricks/hooks/databricks_sql.py:54-61 | a timer, never started, when an execution timeout is given, else None; no contract of its own: StatementErrorKind states its effect |
| DatabricksSql.StatementError | providers/databricks/src/airflow/providers/databricks/hooks/databricks_sql.py:258-267 | the exception a failing statement raises; no contract of its own: StatementErrorKind states it |
| DatabricksSql.StatementErrorKind | providers/databricks/src/airflow/providers/databricks/hooks/databricks_sql.py:259-267 | without an execution timeout a failing statement raises "Error running SQL statement: {sql}. {e}"; with one, the timer `create_timeout_thread` builds is never started, so every failing statement raises the timeout error "Timeout threshold exceeded for SQL statement: {sql} was cancelled.", whatever its message |
| DatabricksSql.RunStep | providers/databricks/src/airflow/providers/databricks/hooks/databricks_sql.py:247-285 | one iteration of the loop; no contract of its own: StoppedStaysStopped, RunStepGoing, RunStepBookkeeping and RunStepConnTracked state it and DatabricksSqlHook.RunStatement is proved equal to it |
| DatabricksSql.RunPrefix | providers/databricks/src/airflow/providers/databricks/hooks/databricks_sql.py:247-285 | the loop after its first n statements; no contract of its own: the RunPrefix lemmas below state it |
| DatabricksSql.StoppedStaysStopped | providers/databricks/src/airflow/providers/databricks/hooks/databricks_sql.py:247-267 | an exception in the loop ends it: later iterations change nothing |
| DatabricksSql.RunStepGoing | providers/databricks/src/airflow/providers/databricks/hooks/databricks_sql.py:247-285 | an iteration that goes on got a connection from get_conn, its statement ran, and only its bookkeeping changed the run fields |
| DatabricksSql.RunStepBookkeeping | providers/databricks/src/airflow/providers/databricks/hooks/databricks_sql.py:247-285 | an iteration that goes on leaves the hook holding its connection, adds the statement's query id when truthy, and records its result and description as the mode says |
| DatabricksSql.RunPrefixStep | providers/databricks/src/airflow/providers/databricks/hooks/databricks_sql.py:247-285 | a loop still going after n statements was going after n - 1, and statement n - 1 did only its bookkeeping |
| DatabricksSql.RunPrefixNext | providers/databricks/src/airflow/providers/databricks/hooks/databricks_sql.py:247-267 | an error from get_conn or from the statement ends the loop with that error; otherwise the loop goes on with the statement's bookkeeping |
| DatabricksSql.RunPrefixRan | providers/databricks/src/airflow/providers/databricks/hooks/databricks_sql.py:247-285 | while the loop goes on, every statement so far ran |
| DatabricksSql.RunPrefixQueryIds | providers/databricks/src/airflow/providers/databricks/hooks/databricks_sql.py:229-230 | after the reset the query ids are the truthy query ids of the statements so far, in statement order |
| DatabricksSql.RunPrefixNoHandler | providers/databricks/src/airflow/providers/databricks/hooks/databricks_sql.py:276 | without a handler no result and no description is kept |
| DatabricksSql.RunPrefixSingle | providers/databricks/src/airflow/providers/databricks/hooks/databricks_sql.py:280-282 | in single-result mode only the last statement's result and description are kept |
| DatabricksSql.RunPrefixAll | providers/databricks/src/airflow/providers/databricks/hooks/databricks_sql.py:283-285 | otherwise every statement's result and description are kept, in statement order |
| DatabricksSql.UpToEntries | providers/databricks/src/airflow/providers/databricks/hooks/databricks_sql.py:283-285 | entry i of the kept results and descriptions belongs to statement i |
| DatabricksSql.ResetRun | providers/databricks/src/airflow/providers/databricks/hooks/databricks_sql.py:229-230 | descriptions and query_ids emptied; no contract of its own: RunEmptyRaises and RunPrefixQueryIds state it |
| DatabricksSql.RunSpec | providers/databricks/src/airflow/providers/databricks/hooks/databricks_sql.py:229-294 | run as a function of the hook's fields; no contract of its own: DatabricksSqlHook.Run is proved equal to it, and RunEmptyRaises, RunStoppedError, RunBookkeeping, RunKeepsConnTracked and RunReturnSelection state it |
| DatabricksSql.RunEmptyRaises | providers/databricks/src/airflow/providers/databricks/hooks/databricks_sql.py:229-243 | run raises "List of SQL statements is empty" iff the statement list is empty, after resetting query_ids and descriptions |
| DatabricksSql.RunStoppedError | providers/databricks/src/airflow/providers/databricks/hooks/databricks_sql.py:250-267 | a stopped loop was stopped by one iteration reached while still going, whose get_conn raised that error or whose statement raised and was reported with StatementError; never run's ValueError |
| DatabricksSql.RunBookkeeping | providers/databricks/src/airflow/providers/databricks/hooks/databricks_sql.py:272-288 | after a successful run every statement ran, the query ids are the truthy query ids of all statements in order, `_sql_conn` is cleared, and the last event closes a connection; when the hook's connection was the last one opened, the connection closed is the last one opened |
| DatabricksSql.GetConnKeepsConnTracked | providers/databricks/src/airflow/providers/databricks/hooks/databricks_sql.py:154-168 | get_conn keeps the hook's connection the last one opened: reconnecting opens the new one last and reusing changes nothing |
| DatabricksSql.GetConnFailureOpensNothing | providers/databricks/src/airflow/providers/databricks/hooks/databricks_sql.py:131-168 | a get_conn that raises opens nothing: the hook keeps the connection it held and the next serial, and the only event it may add is the close of that connection |
| DatabricksSql.RunStepConnTracked | providers/databricks/src/airflow/providers/databricks/hooks/databricks_sql.py:247-285 | one loop iteration keeps the hook's connection the last one opened |
| DatabricksSql.RunPrefixConnTracked | providers/databricks/src/airflow/providers/databricks/hooks/databricks_sql.py:247-285 | every prefix of the loop keeps the hook's connection the last one opened |
| DatabricksSql.RunKeepsConnTracked | providers/databricks/src/airflow/providers/databricks/hooks/databricks_sql.py:229-288 | run keeps the hook's connection the last one opened, whether it succeeds or raises |
| DatabricksSql.RunReturnSelection | providers/databricks/src/airflow/providers/databricks/hooks/databricks_sql.py:276-294 | no handler returns None; single-result mode returns the last statement's result; otherwise every statement's result in order |
| DatabricksSql.DatabricksSqlHook.Run | providers/databricks/src/airflow/providers/databricks/hooks/databricks_sql.py:198-294 | the new fields and the result are those of RunSpec on the old fields and the statement list |
| DatabricksSql.DatabricksSqlHook.RunStatement | providers/databricks/src/airflow/providers/databricks/hooks/databricks_sql.py:247-285 | one loop iteration: the error that ends the loop, or the connection and results it goes on with, as RunPrefix says |
| DatabricksSql.DatabricksSqlHook.RecordRan | providers/databricks/src/airflow/providers/databricks/hooks/databricks_sql.py:272-285 | the bookkeeping of one statement that ran |
| DatabricksSql.DatabricksSqlHook.constructor | providers/databricks/src/airflow/providers/databricks/hooks/databricks_sql.py:87-110 | no connection, token or query ids; path and session configuration as given; the connection-tracking invariant holds |
| DatabricksSql.DatabricksSqlHook.DefaultSchema | providers/databricks/src/airflow/providers/databricks/hooks/databricks_sql.py:340-341 | the schema when it is set and non-empty, otherwise "default"; never empty |
| DatabricksSql.DatabricksSqlHook.SpecificLineage | providers/databricks/src/airflow/providers/databricks/hooks/databricks_sql.py:367-394 | the external-query facet exists iff there is exactly one query id, and it names that id and the namespace |

## Left out

- Celery app setup, `send_task_to_executor`, `_execute_in_fork`, `_execute_in_subprocess` and `execute_command`. These are process control, signals and subprocesses.
- The `timeout(seconds=OPERATION_TIMEOUT)` guard is modelled by its outcome only: a probe may time out. The AirflowTaskTimeout it raises is not an `Exception`, so `fetch_celery_task_state` does not catch it and it ends the whole multiprocessing fetch. The timer itself and the process id in the message are not modelled.
- `get_many`, which dispatches on the type of the Celery backend. The three strategies are modelled separately.
- `_query_task_cls_from_db_backend` and its retry decorator. The stored results are a parameter.
- `app.backend.get_key_for_task`, `mget`, `decode_result` and `meta_from_decoded` are foreign. The fetched values and the decoder are parameters.
- Task ids are modelled as strings. `str(async_result)` in the traceback text is taken to be the task id.
- `ProcessPoolExecutor`: the parallel, chunked fetching is modelled as a sequential map. The chunk size is computed but does not change the result.
- PlanPool: `math.ceil` on a float quotient is modelled as exact integer ceiling division.
- The JSON decoding of the workload, `supervise` and logging are not modelled. `execute_workload` is modelled up to the arguments it passes to `supervise`.
- Dataproc Metastore client calls, `wait_for_operation`, retries, timeouts and metadata are not modelled. Each operation is modelled up to the request it sends. The `fallback_to_default_project_id` decorator is not modelled.
- Resource names parse back only when the ids contain no '/'. The source does not check ids.
- ListHivePartitionsNamesEachPartitionOnce: assumes no partition name contains a quote character. The source does not escape quotes.
- The Databricks SQL driver (`sql.connect`, cursors, `close`), `_get_token` and the endpoint listing call are replaced by values. These are the `Driver` value, the token parameter and the listing parameter.
- `threading.Timer` is reduced to whether its thread is alive, and the connection cancel it would call is not modelled. `create_timeout_thread` never starts the timer, so with an execution timeout every failing statement is reported as a timeout (see StatementErrorKind). Only whether an execution timeout was given matters; its length does not.
- `set_autocommit` is not modelled (the source says it has no effect).
- `_make_common_data_structure` is not modelled. It creates namedtuples dynamically. The handler's result is taken as it is, and the TypeError it raises for a result that is neither a list nor a Row (databricks_sql.py:311) is not modelled.
- Driver errors outside the statement's `try` are not modelled: `sql.connect` raising, `conn.cursor()` raising, and the handler raising. A statement either ran or raised inside `_run_command`.
- DatabricksSql.GetConnStep: every failure of `_get_token` is modelled as AirflowError with its message. The other exceptions the base hook can raise while fetching a token are not told apart.
- `split_sql_string`, `strip_sql_string` and `return_single_query_results` are parameters. Their source is not part of this model.
- DatabricksSql.ConnectKeywordsClash: the TypeError names no particular key, because map order is not modelled.
- get_conn's final "SQL connection is not initialized" check is not modelled. It cannot be reached after the branch above it.
- `get_openlineage_database_info` and `get_openlineage_database_dialect` are not modelled. The first is a record built from the host and catalog settings, the second a constant.
- The event emission and namespace creation of `get_openlineage_database_specific_lineage` are not modelled. They are foreign calls, and the namespace is a parameter.
- `bulk_dump` and `bulk_load` only raise NotImplementedError and are not modelled.
- JSON values are limited to null, booleans, integers, strings and string-valued objects.

## Findings

| source | as written | input that shows it | evidently intended | confidence | as-written member | corrected member |
|---|---|---|---|---|---|---|
| providers/celery/src/airflow/providers/celery/executors/celery_executor_utils.py:374 | `info = None if not hasattr(task_result, "info") else task_result["info"]`; both backends store plain dictionaries (lines 345 and 360), which have no `info` attribute, so the stored info is never read | the stored result {"task_id": "t", "status": "SUCCESS", "info": "done"} is read as ("SUCCESS", None) | read the "info" key when the result has it, as `task_result.get("info")` does | medium, not executed | CeleryExecutorUtils.PlainDictResultsReportNoInfo, CeleryExecutorUtils.StoredInfoIsDropped | CeleryExecutorUtils.StateInfoForIntended, with IntendedAgreesWithAttribute and IntendedReportsStoredInfo |

The backend members (`PrepareStateAndInfoByTaskDict`, `GetManyFromKvBackend`, `GetManyFromDbBackend`)
keep the guard as written, so that their contracts describe what the code returns;
`StateInfoForIntended` is the entry the guard evidently means to read.
