/**
 * The Databricks SQL hook: how it resolves the HTTP path of the SQL endpoint, when it
 * opens a new connection, and how `run` turns its input into statements, collects the
 * query ids and chooses what it returns.  The SQL driver, the token provider and the
 * endpoint listing API are foreign; they are given to the model as values.
 */
module DatabricksSql {
  import opened Wrappers

  // ---------------------------------------------------------------------------
  // Values

  /** The JSON values the connection extras and the endpoint listing carry. */
  datatype Json = JNull | JBool(b: bool) | JNum(n: int) | JStr(s: string) | JObj(fields: map<string, string>)

  /** Python truthiness of a JSON value. */
  predicate Truthy(v: Json) {
    match v
    case JNull => false
    case JBool(b) => b
    case JNum(n) => n != 0
    case JStr(s) => s != ""
    case JObj(fields) => fields != map[]
  }

  /** Python truthiness of an optional string. */
  predicate TruthyText(o: Option<string>) {
    o.Some? && o.value != ""
  }

  /** `dict.get(key)`: the value, or None. */
  function Lookup(extras: map<string, Json>, key: string): (v: Json)
    ensures key !in extras ==> v == JNull
    ensures key in extras ==> v == extras[key]
  {
    if key in extras then extras[key] else JNull
  }

  /** The exceptions the hook raises or lets through. */
  datatype Error =
    | AirflowError(message: string)
    | KeyError(key: string)
    | TypeError(message: string)
    | ValueError(message: string)
    | ExecutionError(message: string)
    | ExecutionTimeout(message: string)

  const CANT_LIST_ENDPOINTS := "Can't list Databricks SQL endpoints"
  const HTTP_PATH_REQUIRED :=
    "http_path should be provided either explicitly, or in extra parameter of Databricks connection, or sql_endpoint_name should be specified"
  const DUPLICATE_KEYWORD := "connect() got multiple values for keyword argument"
  const EMPTY_STATEMENTS := "List of SQL statements is empty"

  function EndpointNotFound(name: string): string {
    "Can't find Databricks SQL endpoint with name '" + name + "'"
  }

  /** The settings fixed when the hook is built, together with the Databricks connection it reads. */
  datatype Settings = Settings(
    host: string,
    extras: map<string, Json>,          // extra_dejson of the Databricks connection
    extraParameters: seq<string>,       // extras reserved by the base Databricks hook
    userAgent: string,
    sqlEndpointName: Option<string>,
    httpHeaders: Option<seq<(string, string)>>,
    catalog: Option<string>,
    schema: Option<string>,
    additionalParams: map<string, Json>)

  /** The arguments handed to `sql.connect`. */
  datatype ConnectCall = ConnectCall(
    host: string,
    httpPath: Json,
    token: string,
    schema: Option<string>,
    catalog: Option<string>,
    sessionConfiguration: Json,
    httpHeaders: Option<seq<(string, string)>>,
    userAgentEntry: string,
    keywords: map<string, Json>)

  /** A driver connection, numbered in the order the hook opened them. */
  datatype Conn = Conn(serial: nat, call: ConnectCall)

  /** What the hook did to driver connections, in order. */
  datatype ConnEvent = Opened(serial: nat) | Closed(serial: nat)

  /** The fields of the hook that its methods update. */
  datatype HookState = HookState(
    httpPath: Json,
    token: Option<string>,
    sessionConfig: Json,
    sqlConn: Option<Conn>,
    queryIds: seq<string>,
    descriptions: seq<Json>,
    events: seq<ConnEvent>,
    nextSerial: nat)

  // ---------------------------------------------------------------------------
  // Extra configuration

  /** The extras `_get_extra_config` deletes. */
  function RemovedKeys(extraParameters: seq<string>): seq<string> {
    ["http_path", "session_configuration"] + extraParameters
  }

  /** The extras left after deleting `keys` one after another. */
  function ExtraConfig(extras: map<string, Json>, keys: seq<string>): map<string, Json>
    decreases |keys|
  {
    if keys == [] then extras
    else ExtraConfig(extras, keys[..|keys| - 1]) - {keys[|keys| - 1]}
  }

  /** The extra configuration holds exactly the extras not named in `keys`, with their values. */
  lemma {:induction false} ExtraConfigKeepsOthers(extras: map<string, Json>, keys: seq<string>)
    ensures forall k :: k in ExtraConfig(extras, keys) <==> k in extras && k !in keys
    ensures forall k :: k in ExtraConfig(extras, keys) ==> ExtraConfig(extras, keys)[k] == extras[k]
    decreases |keys|
  {
    if keys != [] {
      var init := keys[..|keys| - 1];
      ExtraConfigKeepsOthers(extras, init);
      assert keys == init + [keys[|keys| - 1]];
    }
  }

  /** The keyword arguments `get_conn` names itself in its call to `sql.connect`. */
  const EXPLICIT_KEYWORDS: set<string> :=
    {"schema", "catalog", "session_configuration", "http_headers", "_user_agent_entry"}

  /** The keywords `**extra_config, **additional_params` add to the call, or the TypeError. */
  function ConnectKeywords(extraConfig: map<string, Json>, additional: map<string, Json>): Result<map<string, Json>, Error> {
    if extraConfig.Keys * EXPLICIT_KEYWORDS != {} then Err(TypeError(DUPLICATE_KEYWORD))
    else if additional.Keys * (EXPLICIT_KEYWORDS + extraConfig.Keys) != {} then Err(TypeError(DUPLICATE_KEYWORD))
    else Ok(extraConfig + additional)
  }

  /**
   * A TypeError exactly when a key repeats a keyword get_conn names itself or appears in both
   * maps; otherwise the union of the two, each key with its own value.
   */
  lemma ConnectKeywordsClash(extraConfig: map<string, Json>, additional: map<string, Json>)
    ensures var r := ConnectKeywords(extraConfig, additional);
      && (r.Ok? <==>
           (forall k :: k in extraConfig ==> k !in EXPLICIT_KEYWORDS) &&
           (forall k :: k in additional ==> k !in EXPLICIT_KEYWORDS && k !in extraConfig))
      && (r.Err? ==> r.error == TypeError(DUPLICATE_KEYWORD))
      && (r.Ok? ==> r.value.Keys == extraConfig.Keys + additional.Keys)
      && (r.Ok? ==> forall k :: k in extraConfig ==> r.value[k] == extraConfig[k])
      && (r.Ok? ==> forall k :: k in additional ==> r.value[k] == additional[k])
  {
    if extraConfig.Keys * EXPLICIT_KEYWORDS != {} {
      var k :| k in extraConfig.Keys * EXPLICIT_KEYWORDS;
    } else if additional.Keys * (EXPLICIT_KEYWORDS + extraConfig.Keys) != {} {
      var k :| k in additional.Keys * (EXPLICIT_KEYWORDS + extraConfig.Keys);
    } else {
      forall k | k in extraConfig
        ensures k !in EXPLICIT_KEYWORDS
      {
        assert k !in extraConfig.Keys * EXPLICIT_KEYWORDS;
      }
      forall k | k in additional
        ensures k !in EXPLICIT_KEYWORDS && k !in extraConfig
      {
        assert k !in additional.Keys * (EXPLICIT_KEYWORDS + extraConfig.Keys);
      }
    }
  }

  // ---------------------------------------------------------------------------
  // Endpoint lookup

  /** An entry of the endpoint listing; a missing key is None. */
  datatype Endpoint = Endpoint(name: Option<Json>, odbcParams: Option<map<string, Json>>)

  predicate IsNamed(e: Endpoint, name: string) {
    e.name == Some(JStr(name))
  }

  /** Every endpoint before index `i` has a name, and it is not `name`. */
  predicate NoMatchBefore(endpoints: seq<Endpoint>, i: int, name: string)
    requires 0 <= i <= |endpoints|
  {
    forall j :: 0 <= j < i ==> endpoints[j].name.Some? && !IsNamed(endpoints[j], name)
  }

  /** `next(e for e in endpoints if e["name"] == name)`, where reading a missing name raises KeyError. */
  function FirstEndpointNamed(endpoints: seq<Endpoint>, name: string): Result<Endpoint, Error>
    decreases |endpoints|
  {
    if endpoints == [] then Err(AirflowError(EndpointNotFound(name)))
    else
      var e := endpoints[0];
      if e.name.None? then Err(KeyError("name"))
      else if IsNamed(e, name) then Ok(e)
      else FirstEndpointNamed(endpoints[1..], name)
  }

  /**
   * The result is the first endpoint with that name; not found exactly when every endpoint is
   * named otherwise; any other error is the KeyError of an unnamed endpoint before any match.
   */
  lemma {:induction false} FirstEndpointNamedSpec(endpoints: seq<Endpoint>, name: string)
    ensures var r := FirstEndpointNamed(endpoints, name);
      && (r.Ok? ==> exists i :: (0 <= i < |endpoints| && endpoints[i] == r.value &&
            IsNamed(endpoints[i], name) && NoMatchBefore(endpoints, i, name)))
      && (r == Err(AirflowError(EndpointNotFound(name))) <==> NoMatchBefore(endpoints, |endpoints|, name))
      && (r.Err? && r.error != AirflowError(EndpointNotFound(name)) ==>
            r.error == KeyError("name") &&
            exists i :: 0 <= i < |endpoints| && endpoints[i].name.None? && NoMatchBefore(endpoints, i, name))
    decreases |endpoints|
  {
    if endpoints != [] {
      var e := endpoints[0];
      if e.name.Some? && !IsNamed(e, name) {
        FirstEndpointNamedSpec(endpoints[1..], name);
        NoMatchShift(endpoints, name);
        var r := FirstEndpointNamed(endpoints[1..], name);
        if r.Ok? {
          var i :| 0 <= i < |endpoints[1..]| && endpoints[1..][i] == r.value &&
                   IsNamed(endpoints[1..][i], name) && NoMatchBefore(endpoints[1..], i, name);
          assert endpoints[i + 1] == r.value;
        } else if r.error != AirflowError(EndpointNotFound(name)) {
          var i :| 0 <= i < |endpoints[1..]| && endpoints[1..][i].name.None? && NoMatchBefore(endpoints[1..], i, name);
          assert endpoints[i + 1].name.None?;
        }
      } else {
        assert !NoMatchBefore(endpoints, |endpoints|, name);
      }
    }
  }

  /** Looking past a non-matching first endpoint shifts every index by one. */
  lemma NoMatchShift(endpoints: seq<Endpoint>, name: string)
    requires endpoints != [] && endpoints[0].name.Some? && !IsNamed(endpoints[0], name)
    ensures forall i :: 0 <= i <= |endpoints| - 1 ==>
      (NoMatchBefore(endpoints[1..], i, name) <==> NoMatchBefore(endpoints, i + 1, name))
  {
    forall i | 0 <= i <= |endpoints| - 1
      ensures NoMatchBefore(endpoints[1..], i, name) <==> NoMatchBefore(endpoints, i + 1, name)
    {
      if NoMatchBefore(endpoints[1..], i, name) {
        forall j | 0 <= j < i + 1
          ensures endpoints[j].name.Some? && !IsNamed(endpoints[j], name)
        {
          if j > 0 {
            assert endpoints[j] == endpoints[1..][j - 1];
          }
        }
      }
    }
  }

  /** `_get_sql_endpoint_by_name`: the listing must have "endpoints"; then the first match. */
  function EndpointByName(response: Option<seq<Endpoint>>, name: string): (r: Result<Endpoint, Error>)
    ensures response.None? ==> r == Err(AirflowError(CANT_LIST_ENDPOINTS))
    ensures response.Some? ==> r == FirstEndpointNamed(response.value, name)
  {
    match response
    case None => Err(AirflowError(CANT_LIST_ENDPOINTS))
    case Some(endpoints) => FirstEndpointNamed(endpoints, name)
  }

  /** `endpoint["odbc_params"]["path"]`. */
  function OdbcPath(e: Endpoint): (r: Result<Json, Error>)
    ensures r.Ok? <==> e.odbcParams.Some? && "path" in e.odbcParams.value
    ensures r.Ok? ==> r.value == e.odbcParams.value["path"]
    ensures r.Err? ==> r.error.KeyError?
  {
    match e.odbcParams
    case None => Err(KeyError("odbc_params"))
    case Some(params) => if "path" in params then Ok(params["path"]) else Err(KeyError("path"))
  }

  // ---------------------------------------------------------------------------
  // get_conn, as a function of the hook's fields

  /** The HTTP path `get_conn` works with: the current one if set, else the endpoint's, else the extra's. */
  function ResolveHttpPath(s: Settings, current: Json, endpoints: Option<seq<Endpoint>>): Result<Json, Error> {
    if Truthy(current) then Ok(current)
    else if TruthyText(s.sqlEndpointName) then
      match EndpointByName(endpoints, s.sqlEndpointName.value)
      case Err(e) => Err(e)
      case Ok(endpoint) => OdbcPath(endpoint)
    else if "http_path" in s.extras then Ok(s.extras["http_path"])
    else Err(AirflowError(HTTP_PATH_REQUIRED))
  }

  /** A new connection is opened when there is none or the token changed. */
  predicate MustReconnect(st: HookState, newToken: string) {
    st.sqlConn.None? || st.token != Some(newToken)
  }

  /** `_token` after `get_conn` obtained `t`, and the session configuration falling back to the extra's. */
  function RefreshToken(s: Settings, st: HookState, t: string): HookState {
    var st1 := if !TruthyText(st.token) || Some(t) != st.token then st.(token := Some(t)) else st;
    if Truthy(st1.sessionConfig) then st1
    else st1.(sessionConfig := Lookup(s.extras, "session_configuration"))
  }

  /** Close the existing connection, if any, and open a new one with the hook's path and token. */
  function Reconnect(s: Settings, st: HookState): (HookState, Result<Conn, Error>)
    requires st.token.Some?
  {
    var st1 := if st.sqlConn.Some? then st.(events := st.events + [Closed(st.sqlConn.value.serial)]) else st;
    match ConnectKeywords(ExtraConfig(s.extras, RemovedKeys(s.extraParameters)), s.additionalParams)
    case Err(e) => (st1, Err(e))
    case Ok(keywords) =>
      var c := Conn(st1.nextSerial,
                    ConnectCall(s.host, st1.httpPath, st1.token.value, s.schema, s.catalog,
                                st1.sessionConfig, s.httpHeaders, s.userAgent, keywords));
      (st1.(sqlConn := Some(c), events := st1.events + [Opened(c.serial)], nextSerial := st1.nextSerial + 1), Ok(c))
  }

  /**
   * The new state and the result of one `get_conn`, given the endpoint listing and the token
   * the base hook obtains (or the message it fails with).
   */
  function GetConnStep(s: Settings, st: HookState, endpoints: Option<seq<Endpoint>>, newToken: Result<string, string>)
    : (HookState, Result<Conn, Error>)
  {
    match ResolveHttpPath(s, st.httpPath, endpoints)
    case Err(e) => (st, Err(e))
    case Ok(path) =>
      match newToken
      case Err(message) => (st.(httpPath := path), Err(AirflowError(message)))
      case Ok(t) =>
        var st1 := RefreshToken(s, st.(httpPath := path), t);
        if MustReconnect(st, t) then Reconnect(s, st1)
        else (st1, Ok(st1.sqlConn.value))
  }

  /** RefreshToken always leaves the token just obtained, and touches nothing but the token and session configuration. */
  lemma RefreshTokenSetsToken(s: Settings, st: HookState, t: string)
    ensures RefreshToken(s, st, t).token == Some(t)
    ensures RefreshToken(s, st, t) == st.(token := Some(t), sessionConfig := RefreshToken(s, st, t).sessionConfig)
  {
  }

  /**
   * http_path priority: a set path is kept; otherwise a named endpoint is used and the extra is
   * not consulted; otherwise the extra; the error only when none of the three is available.
   */
  lemma HttpPathPriority(s: Settings, current: Json, endpoints: Option<seq<Endpoint>>, other: Json)
    ensures Truthy(current) ==> ResolveHttpPath(s, current, endpoints) == Ok(current)
    ensures !Truthy(current) && TruthyText(s.sqlEndpointName) ==>
      ResolveHttpPath(s, current, endpoints) ==
      ResolveHttpPath(s.(extras := s.extras["http_path" := other]), current, endpoints)
    ensures !Truthy(current) && !TruthyText(s.sqlEndpointName) && "http_path" in s.extras ==>
      ResolveHttpPath(s, current, endpoints) == Ok(s.extras["http_path"])
    ensures ResolveHttpPath(s, current, endpoints) == Err(AirflowError(HTTP_PATH_REQUIRED)) <==>
      !Truthy(current) && !TruthyText(s.sqlEndpointName) && "http_path" !in s.extras
  {
    if !Truthy(current) && TruthyText(s.sqlEndpointName) {
      var name := s.sqlEndpointName.value;
      if endpoints.Some? {
        FirstEndpointNamedSpec(endpoints.value, name);
      }
      assert HTTP_PATH_REQUIRED[|HTTP_PATH_REQUIRED| - 1] == 'd';
      assert CANT_LIST_ENDPOINTS[|CANT_LIST_ENDPOINTS| - 1] == 's';
      assert EndpointNotFound(name)[|EndpointNotFound(name)| - 1] == '\'';
    }
  }

  /** Once the HTTP path is set, get_conn keeps it and no longer looks at the endpoint listing. */
  lemma HttpPathNeverRecomputed(s: Settings, st: HookState, e1: Option<seq<Endpoint>>, e2: Option<seq<Endpoint>>,
                                newToken: Result<string, string>)
    requires Truthy(st.httpPath)
    ensures GetConnStep(s, st, e1, newToken).0.httpPath == st.httpPath
    ensures GetConnStep(s, st, e1, newToken) == GetConnStep(s, st, e2, newToken)
  {
  }

  /** After a successful get_conn the token is the one just obtained and the result is the hook's connection. */
  lemma GetConnKeepsNewToken(s: Settings, st: HookState, endpoints: Option<seq<Endpoint>>, newToken: Result<string, string>)
    requires GetConnStep(s, st, endpoints, newToken).1.Ok?
    ensures newToken.Ok?
    ensures GetConnStep(s, st, endpoints, newToken).0.token == Some(newToken.value)
    ensures GetConnStep(s, st, endpoints, newToken).0.sqlConn == Some(GetConnStep(s, st, endpoints, newToken).1.value)
    ensures Truthy(GetConnStep(s, st, endpoints, newToken).0.httpPath) || !Truthy(st.httpPath)
  {
  }

  /**
   * The reconnect rule: with no connection or a changed token, the old connection (if any) is
   * closed and a new one opened with the hook's current path and token; otherwise the existing
   * connection is returned and nothing is opened or closed.
   */
  lemma GetConnReconnectRule(s: Settings, st: HookState, endpoints: Option<seq<Endpoint>>, newToken: Result<string, string>)
    requires GetConnStep(s, st, endpoints, newToken).1.Ok?
    ensures newToken.Ok?
    ensures var (st', r) := GetConnStep(s, st, endpoints, newToken);
      MustReconnect(st, newToken.value) ==>
        && r.value.serial == st.nextSerial
        && st'.nextSerial == st.nextSerial + 1
        && r.value.call.token == newToken.value
        && r.value.call.httpPath == st'.httpPath
        && st'.events == st.events + (if st.sqlConn.Some? then [Closed(st.sqlConn.value.serial)] else []) + [Opened(r.value.serial)]
    ensures var (st', r) := GetConnStep(s, st, endpoints, newToken);
      !MustReconnect(st, newToken.value) ==>
        r.value == st.sqlConn.value && st'.events == st.events && st'.nextSerial == st.nextSerial
  {
    var t := newToken.value;
    if MustReconnect(st, t) && st.sqlConn.Some? {
      var (st', r) := GetConnStep(s, st, endpoints, newToken);
      assert st'.events == st.events + [Closed(st.sqlConn.value.serial)] + [Opened(r.value.serial)];
    }
  }

  /** A falsy session configuration is replaced by the extra's "session_configuration"; a truthy one is kept. */
  lemma GetConnSessionConfiguration(s: Settings, st: HookState, endpoints: Option<seq<Endpoint>>, newToken: Result<string, string>)
    requires GetConnStep(s, st, endpoints, newToken).1.Ok?
    ensures Truthy(st.sessionConfig) ==> GetConnStep(s, st, endpoints, newToken).0.sessionConfig == st.sessionConfig
    ensures !Truthy(st.sessionConfig) ==>
      GetConnStep(s, st, endpoints, newToken).0.sessionConfig == Lookup(s.extras, "session_configuration")
  {
  }

  // ---------------------------------------------------------------------------
  // run, as a function of the hook's fields

  /** The `sql` argument of run: one string, or an iterable of statements. */
  datatype SqlInput = SqlText(text: string) | SqlStatements(items: seq<string>)

  /** What a statement does on the driver: it ran, or its command raised an exception with this message. */
  datatype Outcome = Ran(queryId: Option<string>, description: Json, result: Json) | Raised(message: string)

  /**
   * What a run depends on besides its statements and flags: the endpoint listing, the token
   * `get_conn` obtains before statement i, what statement i does, and whether run was given
   * an `execution_timeout`.
   */
  datatype Driver = Driver(endpoints: Option<seq<Endpoint>>, tokenAt: nat -> Result<string, string>, outcomeAt: nat -> Outcome,
                           timeoutSet: bool)

  /** What run returns. */
  datatype RunResult = NoHandler | Single(result: Json) | All(results: seq<Json>)

  /** The statements run executes: split and stripped, stripped whole, or each element stripped. */
  function StatementList(sql: SqlInput, splitStatements: bool, split: string -> seq<string>, strip: string -> string): (r: seq<string>)
    ensures sql.SqlText? && !splitStatements ==> r == [strip(sql.text)]
    ensures sql.SqlText? && splitStatements ==>
      |r| == |split(sql.text)| && forall i :: 0 <= i < |r| ==> r[i] == strip(split(sql.text)[i])
    ensures sql.SqlStatements? ==> |r| == |sql.items| && forall i :: 0 <= i < |r| ==> r[i] == strip(sql.items[i])
  {
    match sql
    case SqlText(text) =>
      if splitStatements then Stripped(split(text), strip) else [strip(text)]
    case SqlStatements(items) => Stripped(items, strip)
  }

  function Stripped(parts: seq<string>, strip: string -> string): (r: seq<string>)
    ensures |r| == |parts| && forall i :: 0 <= i < |parts| ==> r[i] == strip(parts[i])
  {
    seq(|parts|, i requires 0 <= i < |parts| => strip(parts[i]))
  }

  /**
   * The error a failing statement is reported with: `t is None or t.is_alive()` selects an
   * execution error, anything else a timeout.
   */
  function StatementError(statement: string, message: string, timeoutSet: bool): Error {
    var timer := CreateTimeoutThread(timeoutSet);
    if timer.None? || timer.value.alive then ExecutionError("Error running SQL statement: " + statement + ". " + message)
    else ExecutionTimeout("Timeout threshold exceeded for SQL statement: " + statement + " was cancelled.")
  }

  /** A `threading.Timer`, reduced to whether its thread is running. */
  datatype Timer = Timer(alive: bool)

  /**
   * `create_timeout_thread`: a timer when an execution timeout is given, else none. The
   * timer is built but never started, so its thread is never alive.
   */
  function CreateTimeoutThread(timeoutSet: bool): Option<Timer> {
    if timeoutSet then Some(Timer(false)) else None
  }

  /**
   * With no execution timeout a failing statement is an execution error carrying the
   * driver's message; with one, every failing statement is reported as a timeout, whatever
   * its message, because the timer that would tell the two apart never runs.
   */
  lemma StatementErrorKind(statement: string, message: string, timeoutSet: bool)
    ensures StatementError(statement, message, timeoutSet).ExecutionTimeout? <==> timeoutSet
    ensures !timeoutSet ==>
      StatementError(statement, message, timeoutSet) == ExecutionError("Error running SQL statement: " + statement + ". " + message)
    ensures timeoutSet ==>
      StatementError(statement, message, timeoutSet) ==
      ExecutionTimeout("Timeout threshold exceeded for SQL statement: " + statement + " was cancelled.")
    ensures timeoutSet ==> forall other :: StatementError(statement, message, timeoutSet) == StatementError(statement, other, timeoutSet)
  {
  }

  /** The loop of run: still going (state, results, last connection), or stopped by an exception. */
  datatype Progress = Going(state: HookState, results: seq<Json>, conn: Option<Conn>) | Stopped(state: HookState, error: Error)

  /** What statement i does once get_conn returned `c`: raise, or record its query id and result. */
  function RecordStatement(st: HookState, results: seq<Json>, c: Conn, statement: string, o: Outcome,
                           timeoutSet: bool, hasHandler: bool, single: bool): Progress {
    match o
    case Raised(message) => Stopped(st, StatementError(statement, message, timeoutSet))
    case Ran(queryId, description, result) =>
      var st1 := if TruthyText(queryId) then st.(queryIds := st.queryIds + [queryId.value]) else st;
      if !hasHandler then Going(st1, results, Some(c))
      else if single then Going(st1.(descriptions := [description]), [result], Some(c))
      else Going(st1.(descriptions := st1.descriptions + [description]), results + [result], Some(c))
  }

  /** One iteration of run's loop for statement i. */
  function RunStep(s: Settings, p: Progress, statement: string, i: nat, drv: Driver, hasHandler: bool, single: bool): Progress {
    match p
    case Stopped(_, _) => p
    case Going(st, results, _) =>
      var (st1, rc) := GetConnStep(s, st, drv.endpoints, drv.tokenAt(i));
      match rc
      case Err(e) => Stopped(st1, e)
      case Ok(c) => RecordStatement(st1, results, c, statement, drv.outcomeAt(i), drv.timeoutSet, hasHandler, single)
  }

  /** The loop after its first n iterations. */
  function RunPrefix(s: Settings, st0: HookState, statements: seq<string>, drv: Driver, hasHandler: bool, single: bool, n: nat): Progress
    requires n <= |statements|
  {
    if n == 0 then Going(st0, [], None)
    else RunStep(s, RunPrefix(s, st0, statements, drv, hasHandler, single, n - 1), statements[n - 1], n - 1, drv, hasHandler, single)
  }

  /** `self.descriptions = []` and `self.query_ids = []`. */
  function ResetRun(st: HookState): HookState {
    st.(descriptions := [], queryIds := [])
  }

  /** The new state and the outcome of run over the given statements. */
  function RunSpec(s: Settings, st: HookState, statements: seq<string>, drv: Driver, hasHandler: bool, single: bool)
    : (HookState, Result<RunResult, Error>)
  {
    var st0 := ResetRun(st);
    if statements == [] then (st0, Err(ValueError(EMPTY_STATEMENTS)))
    else
      match RunPrefix(s, st0, statements, drv, hasHandler, single, |statements|)
      case Stopped(st1, e) => (st1, Err(e))
      case Going(st1, results, conn) =>
        var st2 := if conn.Some? then st1.(events := st1.events + [Closed(conn.value.serial)], sqlConn := None) else st1;
        if !hasHandler then (st2, Ok(NoHandler))
        else if single then
          RunPrefixSingle(s, st0, statements, drv, |statements|);
          (st2, Ok(Single(results[|results| - 1])))
        else (st2, Ok(All(results)))
  }

  /** The truthy query ids of the first n statements, in statement order. */
  function TruthyQueryIds(drv: Driver, n: nat): seq<string> {
    if n == 0 then []
    else
      var o := drv.outcomeAt(n - 1);
      TruthyQueryIds(drv, n - 1) + (if o.Ran? && TruthyText(o.queryId) then [o.queryId.value] else [])
  }

  /** Once stopped, the loop stays stopped with the same state and error. */
  lemma {:induction false} StoppedStaysStopped(s: Settings, st0: HookState, statements: seq<string>, drv: Driver,
                                               hasHandler: bool, single: bool, n: nat, m: nat)
    requires n <= m <= |statements|
    requires RunPrefix(s, st0, statements, drv, hasHandler, single, n).Stopped?
    ensures RunPrefix(s, st0, statements, drv, hasHandler, single, m) == RunPrefix(s, st0, statements, drv, hasHandler, single, n)
    decreases m - n
  {
    if n < m {
      StoppedStaysStopped(s, st0, statements, drv, hasHandler, single, n, m - 1);
    }
  }

  /** get_conn leaves the query ids and descriptions alone. */
  lemma GetConnKeepsRunFields(s: Settings, st: HookState, endpoints: Option<seq<Endpoint>>, newToken: Result<string, string>)
    ensures GetConnStep(s, st, endpoints, newToken).0.queryIds == st.queryIds
    ensures GetConnStep(s, st, endpoints, newToken).0.descriptions == st.descriptions
  {
  }

  /** A loop iteration that keeps going got a connection from get_conn and its statement ran. */
  lemma RunStepGoing(s: Settings, p: Progress, statement: string, i: nat, drv: Driver, hasHandler: bool, single: bool)
    requires RunStep(s, p, statement, i, drv, hasHandler, single).Going?
    ensures p.Going?
    ensures drv.outcomeAt(i).Ran?
    ensures var (st1, rc) := GetConnStep(s, p.state, drv.endpoints, drv.tokenAt(i));
      && rc.Ok?
      && st1.sqlConn == Some(rc.value)
      && st1.queryIds == p.state.queryIds
      && st1.descriptions == p.state.descriptions
      && RunStep(s, p, statement, i, drv, hasHandler, single) == RecordStatement(st1, p.results, rc.value, statement, drv.outcomeAt(i), drv.timeoutSet, hasHandler, single)
  {
    GetConnKeepsNewToken(s, p.state, drv.endpoints, drv.tokenAt(i));
    GetConnKeepsRunFields(s, p.state, drv.endpoints, drv.tokenAt(i));
  }

  /** The bookkeeping of an iteration that goes on, stated without get_conn's internals. */
  lemma RunStepBookkeeping(s: Settings, p: Progress, statement: string, i: nat, drv: Driver, hasHandler: bool, single: bool)
    requires RunStep(s, p, statement, i, drv, hasHandler, single).Going?
    ensures p.Going?
    ensures drv.outcomeAt(i).Ran?
    ensures var r := RunStep(s, p, statement, i, drv, hasHandler, single);
      var o := drv.outcomeAt(i);
      && r.conn.Some? && r.state.sqlConn == r.conn
      && r.state.queryIds == p.state.queryIds + (if TruthyText(o.queryId) then [o.queryId.value] else [])
      && r.results == (if !hasHandler then p.results else if single then [o.result] else p.results + [o.result])
      && r.state.descriptions ==
           (if !hasHandler then p.state.descriptions else if single then [o.description] else p.state.descriptions + [o.description])
  {
    RunStepGoing(s, p, statement, i, drv, hasHandler, single);
  }

  /** What iteration n - 1 did, for a loop still going after n iterations. */
  predicate Bookkept(p: Progress, q: Progress, o: Outcome, hasHandler: bool, single: bool) {
    && p.Going? && q.Going? && o.Ran?
    && q.conn.Some? && q.state.sqlConn == q.conn
    && q.state.queryIds == p.state.queryIds + (if TruthyText(o.queryId) then [o.queryId.value] else [])
    && q.results == (if !hasHandler then p.results else if single then [o.result] else p.results + [o.result])
    && q.state.descriptions ==
         (if !hasHandler then p.state.descriptions else if single then [o.description] else p.state.descriptions + [o.description])
  }

  /** A loop still going after n iterations was going after n - 1, and iteration n - 1 only did its bookkeeping. */
  lemma RunPrefixStep(s: Settings, st0: HookState, statements: seq<string>, drv: Driver, hasHandler: bool, single: bool, n: nat)
    requires 0 < n <= |statements|
    requires RunPrefix(s, st0, statements, drv, hasHandler, single, n).Going?
    ensures Bookkept(RunPrefix(s, st0, statements, drv, hasHandler, single, n - 1),
                     RunPrefix(s, st0, statements, drv, hasHandler, single, n), drv.outcomeAt(n - 1), hasHandler, single)
  {
    var prev := RunPrefix(s, st0, statements, drv, hasHandler, single, n - 1);
    RunStepBookkeeping(s, prev, statements[n - 1], n - 1, drv, hasHandler, single);
  }

  /** Iteration i of the loop, from the answer of get_conn: where the loop goes, or how it ends. */
  lemma RunPrefixNext(s: Settings, st0: HookState, statements: seq<string>, drv: Driver, hasHandler: bool, single: bool,
                      i: nat, before: HookState, results: seq<Json>, conn: Option<Conn>, after: HookState, rc: Result<Conn, Error>)
    requires i < |statements|
    requires RunPrefix(s, st0, statements, drv, hasHandler, single, i) == Going(before, results, conn)
    requires (after, rc) == GetConnStep(s, before, drv.endpoints, drv.tokenAt(i))
    ensures rc.Err? ==> RunPrefix(s, st0, statements, drv, hasHandler, single, |statements|) == Stopped(after, rc.error)
    ensures rc.Ok? ==> (RunPrefix(s, st0, statements, drv, hasHandler, single, i + 1) ==
      RecordStatement(after, results, rc.value, statements[i], drv.outcomeAt(i), drv.timeoutSet, hasHandler, single))
    ensures rc.Ok? && drv.outcomeAt(i).Raised? ==>
      (RunPrefix(s, st0, statements, drv, hasHandler, single, |statements|) ==
       Stopped(after, StatementError(statements[i], drv.outcomeAt(i).message, drv.timeoutSet)))
  {
    if rc.Err? || drv.outcomeAt(i).Raised? {
      StoppedStaysStopped(s, st0, statements, drv, hasHandler, single, i + 1, |statements|);
    }
  }

  /** While the loop is going after n statements, every one of them ran. */
  lemma RunPrefixRan(s: Settings, st0: HookState, statements: seq<string>, drv: Driver,
                     hasHandler: bool, single: bool, n: nat)
    requires n <= |statements|
    requires RunPrefix(s, st0, statements, drv, hasHandler, single, n).Going?
    ensures forall i :: 0 <= i < n ==> drv.outcomeAt(i).Ran?
  {
    forall i | 0 <= i < n
      ensures drv.outcomeAt(i).Ran?
    {
      if RunPrefix(s, st0, statements, drv, hasHandler, single, i + 1).Stopped? {
        StoppedStaysStopped(s, st0, statements, drv, hasHandler, single, i + 1, n);
      }
      RunPrefixStep(s, st0, statements, drv, hasHandler, single, i + 1);
    }
  }

  /** While the loop is going after n statements, the query ids are the truthy ids of those statements, in order. */
  lemma {:induction false} RunPrefixQueryIds(s: Settings, st0: HookState, statements: seq<string>, drv: Driver,
                                             hasHandler: bool, single: bool, n: nat)
    requires n <= |statements|
    requires st0.queryIds == []
    requires RunPrefix(s, st0, statements, drv, hasHandler, single, n).Going?
    ensures RunPrefix(s, st0, statements, drv, hasHandler, single, n).state.queryIds == TruthyQueryIds(drv, n)
    decreases n
  {
    if n > 0 {
      RunPrefixStep(s, st0, statements, drv, hasHandler, single, n);
      RunPrefixQueryIds(s, st0, statements, drv, hasHandler, single, n - 1);
      var o := drv.outcomeAt(n - 1);
      assert TruthyQueryIds(drv, n) == TruthyQueryIds(drv, n - 1) + (if TruthyText(o.queryId) then [o.queryId.value] else []);
    }
  }

  /** Without a handler the loop gathers no results and no descriptions. */
  lemma {:induction false} RunPrefixNoHandler(s: Settings, st0: HookState, statements: seq<string>, drv: Driver,
                                              single: bool, n: nat)
    requires n <= |statements|
    requires st0.descriptions == []
    requires RunPrefix(s, st0, statements, drv, false, single, n).Going?
    ensures RunPrefix(s, st0, statements, drv, false, single, n).results == []
    ensures RunPrefix(s, st0, statements, drv, false, single, n).state.descriptions == []
    decreases n
  {
    if n > 0 {
      RunPrefixStep(s, st0, statements, drv, false, single, n);
      RunPrefixNoHandler(s, st0, statements, drv, single, n - 1);
    }
  }

  /** In single-result mode the loop keeps only the last statement's result and description. */
  lemma RunPrefixSingle(s: Settings, st0: HookState, statements: seq<string>, drv: Driver, n: nat)
    requires 0 < n <= |statements|
    requires RunPrefix(s, st0, statements, drv, true, true, n).Going?
    ensures drv.outcomeAt(n - 1).Ran?
    ensures RunPrefix(s, st0, statements, drv, true, true, n).results == [drv.outcomeAt(n - 1).result]
    ensures RunPrefix(s, st0, statements, drv, true, true, n).state.descriptions == [drv.outcomeAt(n - 1).description]
  {
    RunPrefixStep(s, st0, statements, drv, true, true, n);
  }

  /** The result of a statement that ran. */
  function ResultOf(o: Outcome): Json {
    if o.Ran? then o.result else JNull
  }

  /** The description of a statement that ran. */
  function DescriptionOf(o: Outcome): Json {
    if o.Ran? then o.description else JNull
  }

  /** The results of the first n statements, in statement order. */
  function ResultsUpTo(drv: Driver, n: nat): seq<Json> {
    if n == 0 then [] else ResultsUpTo(drv, n - 1) + [ResultOf(drv.outcomeAt(n - 1))]
  }

  /** The descriptions of the first n statements, in statement order. */
  function DescriptionsUpTo(drv: Driver, n: nat): seq<Json> {
    if n == 0 then [] else DescriptionsUpTo(drv, n - 1) + [DescriptionOf(drv.outcomeAt(n - 1))]
  }

  /** Entry i of ResultsUpTo and DescriptionsUpTo belongs to statement i. */
  lemma {:induction false} UpToEntries(drv: Driver, n: nat)
    ensures |ResultsUpTo(drv, n)| == n && |DescriptionsUpTo(drv, n)| == n
    ensures forall i :: 0 <= i < n ==>
      ResultsUpTo(drv, n)[i] == ResultOf(drv.outcomeAt(i)) && DescriptionsUpTo(drv, n)[i] == DescriptionOf(drv.outcomeAt(i))
  {
    if n > 0 {
      UpToEntries(drv, n - 1);
    }
  }

  /** Otherwise the loop gathers one result and one description per statement, in order. */
  lemma RunPrefixAll(s: Settings, st0: HookState, statements: seq<string>, drv: Driver, n: nat)
    requires n <= |statements|
    requires st0.descriptions == []
    requires RunPrefix(s, st0, statements, drv, true, false, n).Going?
    ensures RunPrefix(s, st0, statements, drv, true, false, n).results == ResultsUpTo(drv, n)
    ensures RunPrefix(s, st0, statements, drv, true, false, n).state.descriptions == DescriptionsUpTo(drv, n)
  {
    RunPrefixAllResults(s, st0, statements, drv, n);
    RunPrefixAllDescriptions(s, st0, statements, drv, n);
  }

  /** The results half of RunPrefixAll, by induction on the number of statements. */
  lemma {:induction false} RunPrefixAllResults(s: Settings, st0: HookState, statements: seq<string>, drv: Driver, n: nat)
    requires n <= |statements|
    requires RunPrefix(s, st0, statements, drv, true, false, n).Going?
    ensures RunPrefix(s, st0, statements, drv, true, false, n).results == ResultsUpTo(drv, n)
    decreases n
  {
    if n == 0 {
      assert RunPrefix(s, st0, statements, drv, true, false, 0) == Going(st0, [], None);
    } else {
      RunPrefixAllStep(s, st0, statements, drv, n);
      RunPrefixAllResults(s, st0, statements, drv, n - 1);
      assert ResultsUpTo(drv, n) == ResultsUpTo(drv, n - 1) + [ResultOf(drv.outcomeAt(n - 1))];
    }
  }

  /** The descriptions half of RunPrefixAll, by induction on the number of statements. */
  lemma {:induction false} RunPrefixAllDescriptions(s: Settings, st0: HookState, statements: seq<string>, drv: Driver, n: nat)
    requires n <= |statements|
    requires st0.descriptions == []
    requires RunPrefix(s, st0, statements, drv, true, false, n).Going?
    ensures RunPrefix(s, st0, statements, drv, true, false, n).state.descriptions == DescriptionsUpTo(drv, n)
    decreases n
  {
    if n == 0 {
      assert RunPrefix(s, st0, statements, drv, true, false, 0) == Going(st0, [], None);
    } else {
      RunPrefixAllStep(s, st0, statements, drv, n);
      RunPrefixAllDescriptions(s, st0, statements, drv, n - 1);
      assert DescriptionsUpTo(drv, n) == DescriptionsUpTo(drv, n - 1) + [DescriptionOf(drv.outcomeAt(n - 1))];
    }
  }

  /** In all-results mode, one statement's bookkeeping appends its result and its description. */
  lemma BookkeptAppends(p: Progress, q: Progress, o: Outcome)
    requires Bookkept(p, q, o, true, false)
    ensures q.results == p.results + [ResultOf(o)] && q.state.descriptions == p.state.descriptions + [DescriptionOf(o)]
  {
  }

  /** In all-results mode, statement n - 1 appends its result and its description to those of the prefix before it. */
  lemma RunPrefixAllStep(s: Settings, st0: HookState, statements: seq<string>, drv: Driver, n: nat)
    requires 0 < n <= |statements|
    requires RunPrefix(s, st0, statements, drv, true, false, n).Going?
    ensures RunPrefix(s, st0, statements, drv, true, false, n - 1).Going?
    ensures RunPrefix(s, st0, statements, drv, true, false, n).results ==
      RunPrefix(s, st0, statements, drv, true, false, n - 1).results + [ResultOf(drv.outcomeAt(n - 1))]
    ensures RunPrefix(s, st0, statements, drv, true, false, n).state.descriptions ==
      RunPrefix(s, st0, statements, drv, true, false, n - 1).state.descriptions + [DescriptionOf(drv.outcomeAt(n - 1))]
  {
    RunPrefixStep(s, st0, statements, drv, true, false, n);
    BookkeptAppends(RunPrefix(s, st0, statements, drv, true, false, n - 1), RunPrefix(s, st0, statements, drv, true, false, n),
                    drv.outcomeAt(n - 1));
  }

  /** run rejects exactly an empty statement list, with ValueError, after resetting the query ids. */
  lemma RunEmptyRaises(s: Settings, st: HookState, statements: seq<string>, drv: Driver, hasHandler: bool, single: bool)
    ensures RunSpec(s, st, statements, drv, hasHandler, single).1 == Err(ValueError(EMPTY_STATEMENTS)) <==> statements == []
    ensures statements == [] ==> RunSpec(s, st, statements, drv, hasHandler, single).0 == ResetRun(st)
  {
    if statements != [] {
      var st0 := ResetRun(st);
      var p := RunPrefix(s, st0, statements, drv, hasHandler, single, |statements|);
      if p.Stopped? {
        RunStoppedError(s, st0, statements, drv, hasHandler, single, |statements|);
      }
    }
  }

  /**
   * How iteration i ends the loop from hook state `st`: get_conn fails with `e`, or it
   * succeeds and statement i raises, reported as `e`.
   */
  predicate FailsWith(s: Settings, st: HookState, statement: string, i: nat, drv: Driver, e: Error) {
    var rc := GetConnStep(s, st, drv.endpoints, drv.tokenAt(i)).1;
    || (rc.Err? && e == rc.error)
    || (rc.Ok? && drv.outcomeAt(i).Raised? && e == StatementError(statement, drv.outcomeAt(i).message, drv.timeoutSet))
  }

  /**
   * A loop that stopped was stopped by one iteration i, reached while still going, whose
   * get_conn or statement raised the error; so it is never run's ValueError.
   */
  lemma {:induction false} RunStoppedError(s: Settings, st0: HookState, statements: seq<string>, drv: Driver,
                                           hasHandler: bool, single: bool, n: nat)
    requires n <= |statements|
    requires RunPrefix(s, st0, statements, drv, hasHandler, single, n).Stopped?
    ensures exists i :: (0 <= i < n && RunPrefix(s, st0, statements, drv, hasHandler, single, i).Going? &&
      FailsWith(s, RunPrefix(s, st0, statements, drv, hasHandler, single, i).state, statements[i], i, drv,
                RunPrefix(s, st0, statements, drv, hasHandler, single, n).error))
    ensures RunPrefix(s, st0, statements, drv, hasHandler, single, n).error != ValueError(EMPTY_STATEMENTS)
    decreases n
  {
    var prev := RunPrefix(s, st0, statements, drv, hasHandler, single, n - 1);
    if prev.Stopped? {
      RunStoppedError(s, st0, statements, drv, hasHandler, single, n - 1);
    } else {
      assert FailsWith(s, prev.state, statements[n - 1], n - 1, drv, RunPrefix(s, st0, statements, drv, hasHandler, single, n).error);
      GetConnErrors(s, prev.state, drv.endpoints, drv.tokenAt(n - 1));
    }
  }

  /** get_conn fails only with a lookup, token or keyword error, never a ValueError about statements. */
  lemma GetConnErrors(s: Settings, st: HookState, endpoints: Option<seq<Endpoint>>, newToken: Result<string, string>)
    ensures GetConnStep(s, st, endpoints, newToken).1.Err? ==> !GetConnStep(s, st, endpoints, newToken).1.error.ValueError?
  {
    var name := s.sqlEndpointName;
    if !Truthy(st.httpPath) && TruthyText(name) && endpoints.Some? {
      FirstEndpointNamedSpec(endpoints.value, name.value);
      var r := FirstEndpointNamed(endpoints.value, name.value);
      assert r.Err? ==> !r.error.ValueError?;
    }
  }

  /** The serial of the connection the events last say was opened, if any. */
  function LastOpened(events: seq<ConnEvent>): Option<nat> {
    if events == [] then None
    else match events[|events| - 1]
      case Opened(k) => Some(k)
      case Closed(_) => LastOpened(events[..|events| - 1])
  }

  /** The hook's connection, when it holds one, is the one it opened last. */
  predicate ConnTracked(st: HookState) {
    st.sqlConn.Some? ==> LastOpened(st.events) == Some(st.sqlConn.value.serial)
  }

  lemma LastOpenedAppend(events: seq<ConnEvent>, e: ConnEvent)
    ensures LastOpened(events + [e]) == if e.Opened? then Some(e.serial) else LastOpened(events)
  {
    assert (events + [e])[..|events|] == events;
  }

  /** get_conn keeps the hook's connection the last one opened, whether it reconnects, reuses or fails. */
  lemma GetConnKeepsConnTracked(s: Settings, st: HookState, endpoints: Option<seq<Endpoint>>, newToken: Result<string, string>)
    requires ConnTracked(st)
    ensures ConnTracked(GetConnStep(s, st, endpoints, newToken).0)
  {
    var st' := GetConnStep(s, st, endpoints, newToken).0;
    if st'.events != st.events {
      var closed := if st.sqlConn.Some? then st.events + [Closed(st.sqlConn.value.serial)] else st.events;
      if st.sqlConn.Some? {
        LastOpenedAppend(st.events, Closed(st.sqlConn.value.serial));
      }
      if st'.events != closed {
        LastOpenedAppend(closed, Opened(st'.sqlConn.value.serial));
      }
    }
  }

  /**
   * A get_conn that raises opens nothing: the hook keeps the connection it held (closed if
   * `sql.connect` was the call that failed) and at most that connection's close is recorded.
   */
  lemma GetConnFailureOpensNothing(s: Settings, st: HookState, endpoints: Option<seq<Endpoint>>, newToken: Result<string, string>)
    ensures GetConnStep(s, st, endpoints, newToken).1.Err? ==>
      var st' := GetConnStep(s, st, endpoints, newToken).0;
      && st'.sqlConn == st.sqlConn
      && st'.nextSerial == st.nextSerial
      && (st'.events == st.events || (st.sqlConn.Some? && st'.events == st.events + [Closed(st.sqlConn.value.serial)]))
  {
  }

  /** One iteration of the loop keeps the hook's connection the last one opened. */
  lemma RunStepConnTracked(s: Settings, p: Progress, statement: string, i: nat, drv: Driver, hasHandler: bool, single: bool,
                           q: Progress)
    requires ConnTracked(p.state)
    requires q == RunStep(s, p, statement, i, drv, hasHandler, single)
    ensures ConnTracked(q.state)
  {
    if p.Going? {
      GetConnKeepsConnTracked(s, p.state, drv.endpoints, drv.tokenAt(i));
    }
  }

  lemma RunPrefixUnfold(s: Settings, st0: HookState, statements: seq<string>, drv: Driver, hasHandler: bool, single: bool, n: nat)
    requires 0 < n <= |statements|
    ensures RunPrefix(s, st0, statements, drv, hasHandler, single, n) ==
      RunStep(s, RunPrefix(s, st0, statements, drv, hasHandler, single, n - 1), statements[n - 1], n - 1, drv, hasHandler, single)
  {
  }

  /** Every iteration of the loop keeps the hook's connection the last one opened. */
  lemma {:induction false} RunPrefixConnTracked(s: Settings, st0: HookState, statements: seq<string>, drv: Driver,
                                                hasHandler: bool, single: bool, n: nat)
    requires n <= |statements|
    requires ConnTracked(st0)
    ensures ConnTracked(RunPrefix(s, st0, statements, drv, hasHandler, single, n).state)
    decreases n
  {
    if n > 0 {
      RunPrefixConnTracked(s, st0, statements, drv, hasHandler, single, n - 1);
      RunPrefixUnfold(s, st0, statements, drv, hasHandler, single, n);
      RunStepConnTracked(s, RunPrefix(s, st0, statements, drv, hasHandler, single, n - 1), statements[n - 1], n - 1,
                         drv, hasHandler, single, RunPrefix(s, st0, statements, drv, hasHandler, single, n));
    }
  }

  /** run keeps the hook's connection the last one opened, on every outcome. */
  lemma RunKeepsConnTracked(s: Settings, st: HookState, statements: seq<string>, drv: Driver, hasHandler: bool, single: bool)
    requires ConnTracked(st)
    ensures ConnTracked(RunSpec(s, st, statements, drv, hasHandler, single).0)
  {
    if statements != [] {
      RunPrefixConnTracked(s, ResetRun(st), statements, drv, hasHandler, single, |statements|);
    }
  }

  /**
   * A successful run leaves exactly the truthy query ids of its statements, in order, every
   * statement having run; it closes the last connection and clears the hook's connection.
   */
  lemma RunBookkeeping(s: Settings, st: HookState, statements: seq<string>, drv: Driver, hasHandler: bool, single: bool)
    requires RunSpec(s, st, statements, drv, hasHandler, single).1.Ok?
    ensures statements != []
    ensures forall i :: 0 <= i < |statements| ==> drv.outcomeAt(i).Ran?
    ensures var st' := RunSpec(s, st, statements, drv, hasHandler, single).0;
      && st'.queryIds == TruthyQueryIds(drv, |statements|)
      && st'.sqlConn.None?
      && |st'.events| > 0 && st'.events[|st'.events| - 1].Closed?
    ensures ConnTracked(st) ==>
      var events := RunSpec(s, st, statements, drv, hasHandler, single).0.events;
      && |events| > 0
      && LastOpened(events[..|events| - 1]).Some?
      && events[|events| - 1] == Closed(LastOpened(events[..|events| - 1]).value)
  {
    RunPrefixRan(s, ResetRun(st), statements, drv, hasHandler, single, |statements|);
    RunPrefixStep(s, ResetRun(st), statements, drv, hasHandler, single, |statements|);
    RunPrefixQueryIds(s, ResetRun(st), statements, drv, hasHandler, single, |statements|);
    if ConnTracked(st) {
      RunPrefixConnTracked(s, ResetRun(st), statements, drv, hasHandler, single, |statements|);
      var before := RunPrefix(s, ResetRun(st), statements, drv, hasHandler, single, |statements|).state.events;
      var events := RunSpec(s, st, statements, drv, hasHandler, single).0.events;
      assert events[..|events| - 1] == before;
    }
  }

  /**
   * What a successful run returns: None without a handler; in single-result mode the last
   * statement's result (and its description alone); otherwise every statement's result and
   * description in order.
   */
  lemma RunReturnSelection(s: Settings, st: HookState, statements: seq<string>, drv: Driver, hasHandler: bool, single: bool)
    requires RunSpec(s, st, statements, drv, hasHandler, single).1.Ok?
    ensures var (st', r) := RunSpec(s, st, statements, drv, hasHandler, single);
      && (!hasHandler ==> r.value == NoHandler && st'.descriptions == [])
      && (hasHandler && single ==>
            r.value == Single(drv.outcomeAt(|statements| - 1).result) &&
            st'.descriptions == [drv.outcomeAt(|statements| - 1).description])
      && (hasHandler && !single ==>
            r.value.All? && |r.value.results| == |statements| && |st'.descriptions| == |statements| &&
            forall i :: 0 <= i < |statements| ==>
              drv.outcomeAt(i).Ran? && r.value.results[i] == drv.outcomeAt(i).result && st'.descriptions[i] == drv.outcomeAt(i).description)
  {
    if !hasHandler {
      RunPrefixNoHandler(s, ResetRun(st), statements, drv, single, |statements|);
    } else if single {
      RunPrefixSingle(s, ResetRun(st), statements, drv, |statements|);
    } else {
      RunPrefixAll(s, ResetRun(st), statements, drv, |statements|);
      RunPrefixRan(s, ResetRun(st), statements, drv, hasHandler, single, |statements|);
      UpToEntries(drv, |statements|);
    }
  }

  // ---------------------------------------------------------------------------
  // OpenLineage

  /** The facet attached for a single query. */
  datatype Lineage = ExternalQuery(externalQueryId: string, source: string)

  // ---------------------------------------------------------------------------
  // The hook

  class DatabricksSqlHook {
    const settings: Settings
    var httpPath: Json
    var token: Option<string>
    var sessionConfig: Json
    var sqlConn: Option<Conn>
    var queryIds: seq<string>
    var descriptions: seq<Json>
    var events: seq<ConnEvent>
    var nextSerial: nat

    function View(): HookState
      reads this
    {
      HookState(httpPath, token, sessionConfig, sqlConn, queryIds, descriptions, events, nextSerial)
    }

    /** A hook with no connection, no token and no query ids yet. */
    constructor (settings: Settings, httpPath: Option<string>, sessionConfiguration: Option<map<string, string>>)
      ensures this.settings == settings
      ensures this.httpPath == (if httpPath.Some? then JStr(httpPath.value) else JNull)
      ensures this.sessionConfig == (if sessionConfiguration.Some? then JObj(sessionConfiguration.value) else JNull)
      ensures token.None? && sqlConn.None? && queryIds == [] && descriptions == [] && events == []
      ensures ConnTracked(View())
    {
      this.settings := settings;
      this.httpPath := if httpPath.Some? then JStr(httpPath.value) else JNull;
      this.sessionConfig := if sessionConfiguration.Some? then JObj(sessionConfiguration.value) else JNull;
      token := None;
      sqlConn := None;
      queryIds := [];
      descriptions := [];
      events := [];
      nextSerial := 0;
    }

    /** `_get_extra_config`: a copy of the extras with the reserved keys deleted. */
    method GetExtraConfig() returns (extra: map<string, Json>)
      ensures extra == ExtraConfig(settings.extras, RemovedKeys(settings.extraParameters))
      ensures forall k :: k in extra <==> k in settings.extras && k !in RemovedKeys(settings.extraParameters)
      ensures forall k :: k in extra ==> extra[k] == settings.extras[k]
    {
      var keys := RemovedKeys(settings.extraParameters);
      extra := settings.extras;
      for i := 0 to |keys|
        invariant extra == ExtraConfig(settings.extras, keys[..i])
      {
        assert keys[..i + 1][..i] == keys[..i];
        if keys[i] in extra {
          extra := extra - {keys[i]};
        }
      }
      assert keys[..|keys|] == keys;
      ExtraConfigKeepsOthers(settings.extras, keys);
    }

    /** `get_conn`, given the endpoint listing and the token the base hook returns. */
    method GetConn(endpoints: Option<seq<Endpoint>>, newToken: Result<string, string>) returns (r: Result<Conn, Error>)
      modifies this
      ensures (View(), r) == GetConnStep(settings, old(View()), endpoints, newToken)
    {
      ghost var st := View();
      if !Truthy(httpPath) {
        if TruthyText(settings.sqlEndpointName) {
          var endpoint := EndpointByName(endpoints, settings.sqlEndpointName.value);
          if endpoint.Err? {
            return Err(endpoint.error);
          }
          var path := OdbcPath(endpoint.value);
          if path.Err? {
            return Err(path.error);
          }
          httpPath := path.value;
        } else if "http_path" in settings.extras {
          httpPath := settings.extras["http_path"];
        } else {
          return Err(AirflowError(HTTP_PATH_REQUIRED));
        }
      }
      assert ResolveHttpPath(settings, st.httpPath, endpoints) == Ok(httpPath);
      var prevToken := token;
      if newToken.Err? {
        return Err(AirflowError(newToken.error));
      }
      var t := newToken.value;
      if !TruthyText(token) || Some(t) != token {
        token := Some(t);
      }
      if !Truthy(sessionConfig) {
        sessionConfig := Lookup(settings.extras, "session_configuration");
      }
      ghost var st1 := View();
      assert st1 == RefreshToken(settings, st.(httpPath := httpPath), t);
      if sqlConn.None? || prevToken != Some(t) {
        r := Reopen();
      } else {
        r := Ok(sqlConn.value);
      }
    }

    /** The reconnecting branch of get_conn: close the connection held, then `sql.connect`. */
    method Reopen() returns (r: Result<Conn, Error>)
      requires token.Some?
      modifies this
      ensures (View(), r) == Reconnect(settings, old(View()))
    {
      if sqlConn.Some? {
        events := events + [Closed(sqlConn.value.serial)];
      }
      var extra := GetExtraConfig();
      var keywords := ConnectKeywords(extra, settings.additionalParams);
      if keywords.Err? {
        return Err(keywords.error);
      }
      var c := Conn(nextSerial, ConnectCall(settings.host, httpPath, token.value, settings.schema, settings.catalog,
                                            sessionConfig, settings.httpHeaders, settings.userAgent, keywords.value));
      sqlConn := Some(c);
      events := events + [Opened(c.serial)];
      nextSerial := nextSerial + 1;
      r := Ok(c);
    }

    /**
     * `run`: `single` is what `return_single_query_results(sql, return_last, split_statements)`
     * answers, `split` and `strip` are the base hook's statement splitter and stripper.
     */
    method Run(sql: SqlInput, hasHandler: bool, splitStatements: bool, single: bool, drv: Driver,
               split: string -> seq<string>, strip: string -> string) returns (r: Result<RunResult, Error>)
      modifies this
      ensures (View(), r) == RunSpec(settings, old(View()), StatementList(sql, splitStatements, split, strip), drv, hasHandler, single)
    {
      descriptions := [];
      queryIds := [];
      ghost var st0 := View();
      assert st0 == ResetRun(old(View()));
      var statements := StatementList(sql, splitStatements, split, strip);
      if statements == [] {
        return Err(ValueError(EMPTY_STATEMENTS));
      }
      var conn: Option<Conn> := None;
      var results: seq<Json> := [];
      for i := 0 to |statements|
        invariant RunPrefix(settings, st0, statements, drv, hasHandler, single, i) == Going(View(), results, conn)
      {
        var stop;
        stop, conn, results := RunStatement(st0, statements, i, drv, hasHandler, single, conn, results);
        if stop.Some? {
          return Err(stop.value);
        }
      }
      assert RunPrefix(settings, st0, statements, drv, hasHandler, single, |statements|) == Going(View(), results, conn);
      if conn.Some? {
        events := events + [Closed(conn.value.serial)];
        sqlConn := None;
      }
      if !hasHandler {
        return Ok(NoHandler);
      }
      if single {
        RunPrefixSingle(settings, st0, statements, drv, |statements|);
        return Ok(Single(results[|results| - 1]));
      }
      return Ok(All(results));
    }

    /**
     * One iteration of run's loop: `get_conn`, then statement i; it answers the error that
     * ends the loop, or the connection and results the loop goes on with.
     */
    method RunStatement(ghost st0: HookState, statements: seq<string>, i: nat, drv: Driver, hasHandler: bool, single: bool,
                        conn: Option<Conn>, results: seq<Json>)
      returns (stop: Option<Error>, conn': Option<Conn>, results': seq<Json>)
      requires i < |statements|
      requires RunPrefix(settings, st0, statements, drv, hasHandler, single, i) == Going(View(), results, conn)
      modifies this
      ensures stop.None? ==> RunPrefix(settings, st0, statements, drv, hasHandler, single, i + 1) == Going(View(), results', conn')
      ensures stop.Some? ==> RunPrefix(settings, st0, statements, drv, hasHandler, single, |statements|) == Stopped(View(), stop.value)
    {
      ghost var before := View();
      var c := GetConn(drv.endpoints, drv.tokenAt(i));
      RunPrefixNext(settings, st0, statements, drv, hasHandler, single, i, before, results, conn, View(), c);
      if c.Err? {
        return Some(c.error), conn, results;
      }
      conn' := Some(c.value);
      match drv.outcomeAt(i)
      case Raised(message) =>
        return Some(StatementError(statements[i], message, drv.timeoutSet)), conn', results;
      case Ran(queryId, description, result) =>
        results' := RecordRan(c.value, statements[i], queryId, description, result, results, hasHandler, single);
        stop := None;
    }

    /**
     * The bookkeeping run does after a statement ran: its query id, and its result and
     * description (a statement that ran does not depend on the execution timeout).
     */
    method RecordRan(c: Conn, statement: string, queryId: Option<string>, description: Json, result: Json,
                     results: seq<Json>, hasHandler: bool, single: bool) returns (results': seq<Json>)
      modifies this
      ensures Going(View(), results', Some(c)) ==
        RecordStatement(old(View()), results, c, statement, Ran(queryId, description, result), false, hasHandler, single)
    {
      results' := results;
      if TruthyText(queryId) {
        queryIds := queryIds + [queryId.value];
      }
      if hasHandler {
        if single {
          results' := [result];
          descriptions := [description];
        } else {
          results' := results + [result];
          descriptions := descriptions + [description];
        }
      }
    }

    /** `get_openlineage_default_schema`: the schema when it is set and non-empty, else "default". */
    function DefaultSchema(): (r: string)
      ensures r != ""
      ensures TruthyText(settings.schema) ==> r == settings.schema.value
      ensures !TruthyText(settings.schema) ==> r == "default"
    {
      if TruthyText(settings.schema) then settings.schema.value else "default"
    }

    /**
     * The lineage `get_openlineage_database_specific_lineage` returns for the query ids of the
     * last run, given the namespace of the database: the external-query facet exactly when
     * there is one query id.
     */
    function SpecificLineage(namespace: string): (r: Option<Lineage>)
      reads this
      ensures r.Some? <==> |queryIds| == 1
      ensures r.Some? ==> r.value == ExternalQuery(queryIds[0], namespace)
    {
      if queryIds == [] then None
      else if |queryIds| == 1 then Some(ExternalQuery(queryIds[0], namespace))
      else None
    }
  }
}
