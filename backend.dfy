/** The backend's connection registry (`DatabaseManager` in backend/app.py): how a profile
    selects a driver routine, what `create_connection` and `close_connection` do to the
    registry, the "Connection not found" guard in front of every other operation, the
    per-type dispatch behind it, and the query classifier `_detect_query_type`.
    The driver routines themselves (`connect_sqlite`, `connect_mysql`, ...) are a function
    parameter `connect`; `uuid.uuid4()` is the parameter `uuid`. */
module Backend {
  import opened Wrappers
  import opened Text
  import opened SqliteSql

  /** A profile as the JSON body of a request; an absent key is `None`. */
  datatype Profile = Profile(
    name: Option<string>, dbType: Option<string>, color: Option<string>, database: Option<string>,
    host: Option<string>, port: Option<int>, username: Option<string>, password: Option<string>)

  datatype ServerKind = MySql | PostgreSql | MsSql

  /** The driver routine a profile selects and the arguments it is called with. */
  datatype DriverCall =
    | SqliteCall(databasePath: string)
    | ServerCall(kind: ServerKind, host: string, port: int, username: string, password: string, database: string)

  /** The keys a driver routine puts in a successful reply; one it leaves out is `None`. */
  datatype DriverDetails = DriverDetails(
    version: Option<string>, database: Option<string>, host: Option<string>, port: Option<int>, path: Option<string>)

  datatype DriverResult = Connected(details: DriverDetails) | ConnectFailed(error: string)

  const SupportedTypes: set<string> := {"sqlite", "mysql", "postgresql", "mssql"}

  /** The `type` each driver routine reports: the lower-case name it is selected by. */
  function TypeName(call: DriverCall): string {
    match call
    case SqliteCall(_) => "sqlite"
    case ServerCall(kind, _, _, _, _, _) =>
      match kind
      case MySql => "mysql"
      case PostgreSql => "postgresql"
      case MsSql => "mssql"
  }

  /** The port `profile.get('port', ...)` falls back to. */
  function DefaultPort(kind: ServerKind): int {
    match kind
    case MySql => 3306
    case PostgreSql => 5432
    case MsSql => 1433
  }

  /** `str(KeyError(key))`: the key in single quotes, which is what the handlers reply. */
  function KeyError(key: string): string {
    "'" + key + "'"
  }

  function UnsupportedType(dbType: string): string {
    "Unsupported database type: " + dbType
  }

  const ConnectionNotFound := "Connection not found"

  /** The server branches: the port is looked up first, then `host`, `username`, `password`
      and `database` in argument order, the first missing one raising KeyError. */
  function ServerCallOf(kind: ServerKind, p: Profile): Result<DriverCall> {
    var port := p.port.GetOr(DefaultPort(kind));
    if p.host.None? then Err(KeyError("host"))
    else if p.username.None? then Err(KeyError("username"))
    else if p.password.None? then Err(KeyError("password"))
    else if p.database.None? then Err(KeyError("database"))
    else Ok(ServerCall(kind, p.host.value, port, p.username.value, p.password.value, p.database.value))
  }

  /** The type switch shared by `test_connection` and `create_connection`. */
  function ResolveDriverCall(p: Profile): Result<DriverCall> {
    if p.dbType.None? then Err(KeyError("type"))
    else
      var t := Lower(p.dbType.value);
      if t == "sqlite" then
        if p.database.None? then Err(KeyError("database")) else Ok(SqliteCall(p.database.value))
      else if t == "mysql" then ServerCallOf(MySql, p)
      else if t == "postgresql" then ServerCallOf(PostgreSql, p)
      else if t == "mssql" then ServerCallOf(MsSql, p)
      else Err(UnsupportedType(t))
  }

  lemma {:induction false} LowerIdempotent(s: string)
    ensures Lower(Lower(s)) == Lower(s)
  {
  }

  /** A resolved call goes to the routine named by the lower-cased type, and a server call
      gets the profile's port, or the type's default port when the profile has none. */
  lemma {:induction false} ResolveSelectsByLowerCaseType(p: Profile)
    ensures ResolveDriverCall(p).Ok? ==> p.dbType.Some? && TypeName(ResolveDriverCall(p).value) == Lower(p.dbType.value)
    ensures ResolveDriverCall(p).Ok? ==> TypeName(ResolveDriverCall(p).value) in SupportedTypes
    ensures ResolveDriverCall(p).Ok? && ResolveDriverCall(p).value.ServerCall? ==>
      var call := ResolveDriverCall(p).value;
      call.port == (if p.port.Some? then p.port.value else DefaultPort(call.kind))
  {
  }

  /** The type is matched without regard to ASCII case. */
  lemma {:induction false} ResolveIgnoresCase(p: Profile)
    requires p.dbType.Some?
    ensures ResolveDriverCall(p) == ResolveDriverCall(p.(dbType := Some(Lower(p.dbType.value))))
  {
    LowerIdempotent(p.dbType.value);
  }

  /** The "Unsupported" reply comes exactly for a type outside the four supported ones. */
  lemma {:induction false} ResolveUnsupportedIff(p: Profile)
    ensures (exists t :: ResolveDriverCall(p) == Err(UnsupportedType(t)))
        <==> p.dbType.Some? && Lower(p.dbType.value) !in SupportedTypes
  {
    if p.dbType.Some? && Lower(p.dbType.value) in SupportedTypes {
      forall t ensures ResolveDriverCall(p) != Err(UnsupportedType(t)) {
        if ResolveDriverCall(p).Err? {
          var e := ResolveDriverCall(p).error;
          assert e[0] == '\'';
          assert UnsupportedType(t)[0] == 'U';
        }
      }
    }
    if p.dbType.None? {
      forall t ensures ResolveDriverCall(p) != Err(UnsupportedType(t)) {
        assert KeyError("type")[0] == '\'';
        assert UnsupportedType(t)[0] == 'U';
      }
    }
    if p.dbType.Some? && Lower(p.dbType.value) !in SupportedTypes {
      assert ResolveDriverCall(p) == Err(UnsupportedType(Lower(p.dbType.value)));
    }
  }

  /** The reply of `test_connection`, without the connection object. */
  datatype TestReply = TestReply(dbType: string, version: string, database: string, host: string, port: Option<int>, path: string)

  function TestConnection(p: Profile, connect: DriverCall -> DriverResult): (r: Result<TestReply>)
    ensures ResolveDriverCall(p).Err? ==> r == Err(ResolveDriverCall(p).error)
    ensures r.Ok? <==> ResolveDriverCall(p).Ok? && connect(ResolveDriverCall(p).value).Connected?
    ensures r.Ok? ==> p.dbType.Some? && r.value.dbType == Lower(p.dbType.value)
  {
    ResolveSelectsByLowerCaseType(p);
    match ResolveDriverCall(p)
    case Err(e) => Err(e)
    case Ok(call) =>
      match connect(call)
      case ConnectFailed(e) => Err(e)
      case Connected(d) =>
        Ok(TestReply(TypeName(call), d.version.GetOr(""), d.database.GetOr(""), d.host.GetOr(""), d.port, d.path.GetOr("")))
  }

  /** `connection_info` as `create_connection` builds it; `type` is the profile's own text. */
  datatype ConnectionInfo = ConnectionInfo(
    name: string, dbType: string, color: string, version: string, database: string, host: string,
    port: Option<int>, path: string)

  const DefaultColor := "#007bff"

  function ConnectionInfoOf(p: Profile, d: DriverDetails): ConnectionInfo
    requires p.name.Some? && p.dbType.Some?
  {
    ConnectionInfo(p.name.value, p.dbType.value, p.color.GetOr(DefaultColor), d.version.GetOr(""),
                   d.database.GetOr(""), d.host.GetOr(""), d.port, d.path.GetOr(""))
  }

  datatype Created = Created(connectionId: string, info: ConnectionInfo)

  /** The reply of `create_connection`. `profile['name']` is read only after the driver has
      connected, so a nameless profile fails after connecting. */
  function CreateOutcome(p: Profile, connect: DriverCall -> DriverResult, uuid: string): Result<Created> {
    match ResolveDriverCall(p)
    case Err(e) => Err(e)
    case Ok(call) =>
      match connect(call)
      case ConnectFailed(e) => Err(e)
      case Connected(d) =>
        if p.name.None? then Err(KeyError("name")) else Ok(Created(uuid, ConnectionInfoOf(p, d)))
  }

  /** `create_connection` succeeds exactly when `test_connection` does on a named profile,
      and then fails with the same error; a success carries the new id, the profile's name
      and its colour or the default one. */
  lemma {:induction false} CreateAgreesWithTest(p: Profile, connect: DriverCall -> DriverResult, uuid: string)
    ensures p.name.Some? ==> (CreateOutcome(p, connect, uuid).Ok? <==> TestConnection(p, connect).Ok?)
    ensures TestConnection(p, connect).Err? ==> CreateOutcome(p, connect, uuid) == Err(TestConnection(p, connect).error)
    ensures CreateOutcome(p, connect, uuid).Ok? ==>
      && p.name.Some? && p.dbType.Some?
      && CreateOutcome(p, connect, uuid).value.connectionId == uuid
      && CreateOutcome(p, connect, uuid).value.info.name == p.name.value
      && CreateOutcome(p, connect, uuid).value.info.color == (if p.color.Some? then p.color.value else DefaultColor)
  {
  }

  /** The operations behind the "Connection not found" guard, besides closing. */
  datatype Operation =
    | ExecuteQueryOp | DatabaseInfoOp | TableSchemaOp
    | InsertRecordOp | UpdateRecordOp | DeleteRecordOp | SelectRecordsOp | TableDataOp

  /** The name of the per-type method each operation calls. */
  function HandlerName(op: Operation, dbType: string): string {
    match op
    case ExecuteQueryOp => "_execute_" + dbType + "_query"
    case DatabaseInfoOp => "_get_" + dbType + "_info"
    case TableSchemaOp => "_get_" + dbType + "_table_schema"
    case InsertRecordOp => "_insert_" + dbType + "_record"
    case UpdateRecordOp => "_update_" + dbType + "_record"
    case DeleteRecordOp => "_delete_" + dbType + "_record"
    case SelectRecordsOp => "_select_" + dbType + "_records"
    case TableDataOp => "_get_" + dbType + "_table_data"
  }

  /** Which of those methods `DatabaseManager` defines: every type can execute queries and
      describe its database, sqlite and mysql describe a table, and only sqlite has the
      record and table-data methods. */
  predicate HandlerDefined(op: Operation, dbType: string) {
    op == ExecuteQueryOp || op == DatabaseInfoOp || dbType == "sqlite" || (op == TableSchemaOp && dbType == "mysql")
  }

  /** The `if db_type == ...` chain of each operation. Calling a method the class lacks
      raises AttributeError, which the handler replies as its message. */
  function Dispatch(op: Operation, dbType: string): Result<string> {
    if dbType !in SupportedTypes then Err(UnsupportedType(dbType))
    else if HandlerDefined(op, dbType) then Ok(HandlerName(op, dbType))
    else Err("'DatabaseManager' object has no attribute '" + HandlerName(op, dbType) + "'")
  }

  /** Queries and database descriptions reach a handler for every supported type; the
      record operations and table data only for sqlite. */
  lemma {:induction false} DispatchCoverage(op: Operation, dbType: string)
    ensures (op == ExecuteQueryOp || op == DatabaseInfoOp) ==> (Dispatch(op, dbType).Ok? <==> dbType in SupportedTypes)
    ensures op == TableSchemaOp ==> (Dispatch(op, dbType).Ok? <==> dbType == "sqlite" || dbType == "mysql")
    ensures op !in {ExecuteQueryOp, DatabaseInfoOp, TableSchemaOp} ==> (Dispatch(op, dbType).Ok? <==> dbType == "sqlite")
  {
  }

  /** The classes of `_detect_query_type`, tried in the source's order on the stripped,
      upper-cased query. */
  function Classify(u: string): string {
    if StartsWith(u, "SELECT") then "select"
    else if StartsWith(u, "INSERT") then "insert"
    else if StartsWith(u, "UPDATE") then "update"
    else if StartsWith(u, "DELETE") then "delete"
    else if StartsWith(u, "CREATE") || StartsWith(u, "ALTER") || StartsWith(u, "DROP") || StartsWith(u, "TRUNCATE") then "ddl"
    else "other"
  }

  predicate StartsWithDdl(u: string) {
    StartsWith(u, "CREATE") || StartsWith(u, "ALTER") || StartsWith(u, "DROP") || StartsWith(u, "TRUNCATE")
  }

  /** Two texts that differ at a position within both cannot both open `u`. */
  lemma {:induction false} Clash(u: string, a: string, b: string, i: nat)
    requires i < |a| && i < |b| && a[i] != b[i]
    ensures !(StartsWith(u, a) && StartsWith(u, b))
  {
    if i < |u| && u[i] == a[i] {
      StartsWithAt(u, b, i);
    } else {
      StartsWithAt(u, a, i);
    }
  }

  /** No two keywords of different classes can open the same text, so each class is exactly
      "opens with one of its keywords", whatever order the tests run in. */
  lemma {:induction false} ClassifyIff(u: string)
    ensures Classify(u) == "select" <==> StartsWith(u, "SELECT")
    ensures Classify(u) == "insert" <==> StartsWith(u, "INSERT")
    ensures Classify(u) == "update" <==> StartsWith(u, "UPDATE")
    ensures Classify(u) == "delete" <==> StartsWith(u, "DELETE")
    ensures Classify(u) == "ddl" <==> StartsWithDdl(u)
    ensures Classify(u) == "other" <==>
      !StartsWith(u, "SELECT") && !StartsWith(u, "INSERT") && !StartsWith(u, "UPDATE")
      && !StartsWith(u, "DELETE") && !StartsWithDdl(u)
  {
    Clash(u, "SELECT", "INSERT", 0);
    Clash(u, "SELECT", "UPDATE", 0);
    Clash(u, "SELECT", "DELETE", 0);
    Clash(u, "INSERT", "UPDATE", 0);
    Clash(u, "INSERT", "DELETE", 0);
    Clash(u, "UPDATE", "DELETE", 0);
    Clash(u, "SELECT", "CREATE", 0);
    Clash(u, "SELECT", "ALTER", 0);
    Clash(u, "SELECT", "DROP", 0);
    Clash(u, "SELECT", "TRUNCATE", 0);
    Clash(u, "INSERT", "CREATE", 0);
    Clash(u, "INSERT", "ALTER", 0);
    Clash(u, "INSERT", "DROP", 0);
    Clash(u, "INSERT", "TRUNCATE", 0);
    Clash(u, "UPDATE", "CREATE", 0);
    Clash(u, "UPDATE", "ALTER", 0);
    Clash(u, "UPDATE", "DROP", 0);
    Clash(u, "UPDATE", "TRUNCATE", 0);
    Clash(u, "DELETE", "CREATE", 0);
    Clash(u, "DELETE", "ALTER", 0);
    Clash(u, "DELETE", "DROP", 1);
    Clash(u, "DELETE", "TRUNCATE", 0);
  }

  /** `_detect_query_type` as written. */
  function DetectQueryType(query: string): string {
    Classify(Upper(PyStrip(query)))
  }

  /** Surrounding whitespace does not change the class. */
  lemma {:induction false} DetectIgnoresPadding(pre: string, query: string, post: string)
    requires AllOf(pre, IsPyWhitespace) && AllOf(post, IsPyWhitespace)
    ensures DetectQueryType(pre + query + post) == DetectQueryType(query)
  {
    TrimIgnoresPadding(pre, query, post, IsPyWhitespace);
  }

  /** The class does not depend on ASCII letter case. */
  lemma {:induction false} DetectIgnoresCase(query: string)
    ensures DetectQueryType(Lower(query)) == DetectQueryType(query)
  {
    UpperStrip(Lower(query));
    UpperStrip(query);
    UpperOfLower(query);
  }

  lemma {:induction false} UpperKeepsPrefix(s: string, prefix: string)
    requires StartsWith(s, prefix)
    ensures StartsWith(Upper(s), Upper(prefix))
  {
    assert Upper(s)[..|prefix|] == Upper(prefix);
  }

  /** A classified text keeps its class when it is extended. */
  lemma {:induction false} ClassifyExtension(u: string, v: string)
    requires StartsWith(v, u) && Classify(u) != "other"
    ensures Classify(v) == Classify(u)
  {
    ClassifyIff(u);
    ClassifyIff(v);
    var keywords := ["SELECT", "INSERT", "UPDATE", "DELETE", "CREATE", "ALTER", "DROP", "TRUNCATE"];
    forall k | k in keywords && StartsWith(u, k) ensures StartsWith(v, k) {
      StartsWithTransitive(v, u, k);
    }
  }

  /** Appending text to a classified query keeps its class: only the opening keyword counts. */
  lemma {:induction false} DetectStableUnderExtension(query: string, rest: string)
    requires DetectQueryType(query) != "other"
    ensures DetectQueryType(query + rest) == DetectQueryType(query)
  {
    TrimEmptyIff(query, IsPyWhitespace);
    assert Classify([]) == "other";
    TrimPrefixOfExtension(query, rest, IsPyWhitespace);
    UpperKeepsPrefix(PyStrip(query + rest), PyStrip(query));
    ClassifyExtension(Upper(PyStrip(query)), Upper(PyStrip(query + rest)));
  }

  /** The text after the first line break, or nothing when there is none. */
  function AfterLine(s: string): (r: string)
    ensures s != [] ==> |r| < |s|
  {
    if s == [] then [] else if s[0] == '\n' then s[1..] else AfterLine(s[1..])
  }

  lemma {:induction false} AfterLineSkips(line: string, rest: string)
    requires '\n' !in line
    ensures AfterLine(line + "\n" + rest) == rest
  {
    if line == [] {
      assert line + "\n" + rest == ['\n'] + rest;
    } else {
      assert (line + "\n" + rest)[1..] == line[1..] + "\n" + rest;
      assert forall c :: c in line[1..] ==> c in line;
      AfterLineSkips(line[1..], rest);
    }
  }

  /** Leading whitespace and `--` comment lines dropped. */
  function SkipLineComments(s: string): (r: string)
    decreases |s|
  {
    var t := TrimStart(s, IsPyWhitespace);
    if StartsWith(t, "--") then SkipLineComments(AfterLine(t)) else t
  }

  /** `_detect_query_type` classifying the first statement after any leading comment lines. */
  function DetectQueryTypeAfterComments(query: string): string {
    Classify(Upper(PyStrip(SkipLineComments(query))))
  }

  /** Without a leading comment the two classifiers agree. */
  lemma {:induction false} AfterCommentsAgrees(query: string)
    requires !StartsWith(TrimStart(query, IsPyWhitespace), "--")
    ensures DetectQueryTypeAfterComments(query) == DetectQueryType(query)
  {
    TrimStartIdle(TrimStart(query, IsPyWhitespace), IsPyWhitespace);
  }

  /** A leading comment line does not change the class. */
  lemma {:induction false} AfterCommentsSkipsLine(comment: string, query: string)
    requires '\n' !in comment
    ensures DetectQueryTypeAfterComments("--" + comment + "\n" + query) == DetectQueryTypeAfterComments(query)
  {
    var s := "--" + comment + "\n" + query;
    assert s == "--" + comment + "\n" + query;
    assert s[0] == '-';
    TrimStartIdle(s, IsPyWhitespace);
    assert StartsWith(s, "--");
    assert '\n' !in "--" + comment;
    AfterLineSkips("--" + comment, query);
  }

  /** The query the renderer's editor opens with: a comment line, then a select. */
  const SeededComment := "-- Enter your SQL query here"
  const SeededSelect := "SELECT" + " * FROM your_table LIMIT 10" + ";"
  const SeededQuery := SeededComment + "\n" + SeededSelect

  lemma {:induction false} StripIdle(s: string)
    requires s != [] && !IsPyWhitespace(s[0]) && !IsPyWhitespace(s[|s| - 1])
    ensures PyStrip(s) == s
  {
    TrimStartIdle(s, IsPyWhitespace);
  }

  /** A text opening with none of the keywords' first letters is 'other'. */
  lemma {:induction false} ClassifyOther(u: string)
    requires u != [] && u[0] !in "SIUDCAT"
    ensures Classify(u) == "other"
  {
    StartsWithAt(u, "SELECT", 0);
    StartsWithAt(u, "INSERT", 0);
    StartsWithAt(u, "UPDATE", 0);
    StartsWithAt(u, "DELETE", 0);
    StartsWithAt(u, "CREATE", 0);
    StartsWithAt(u, "ALTER", 0);
    StartsWithAt(u, "DROP", 0);
    StartsWithAt(u, "TRUNCATE", 0);
  }

  lemma {:induction false} SeededSelectShape()
    ensures SeededSelect != [] && SeededSelect[0] == 'S' && SeededSelect[|SeededSelect| - 1] == ';'
    ensures StartsWith(Upper(SeededSelect), "SELECT")
  {
    var kw, rest := "SELECT", " * FROM your_table LIMIT 10";
    assert SeededSelect == kw + (rest + ";");
    UpperConcat(kw, rest + ";");
    assert Upper(kw) == kw;
    StartsWithConcat(kw, Upper(rest + ";"));
  }

  lemma {:induction false} SeededQueryEnds()
    ensures SeededQuery != [] && SeededQuery[0] == '-' && SeededQuery[|SeededQuery| - 1] == ';'
  {
    SeededSelectShape();
    var s := SeededQuery;
    assert s[0] == SeededComment[0];
    assert s[|s| - 1] == SeededSelect[|SeededSelect| - 1];
  }

  /** As written, the seeded query is classified 'other', so its rows are never fetched. */
  lemma {:induction false} SeededQueryAsWritten()
    ensures DetectQueryType(SeededQuery) == "other"
  {
    SeededQueryEnds();
    StripIdle(SeededQuery);
    ClassifyOther(Upper(SeededQuery));
  }

  lemma {:induction false} SeededSelectAfterComments()
    ensures DetectQueryTypeAfterComments(SeededSelect) == "select"
  {
    SeededSelectShape();
    StartsWithAt(SeededSelect, "--", 0);
    TrimStartIdle(SeededSelect, IsPyWhitespace);
    StripIdle(SeededSelect);
    ClassifyIff(Upper(SeededSelect));
  }

  const SeededCommentText := " Enter your SQL query here"

  lemma {:induction false} SeededCommentShape()
    ensures SeededComment == "--" + SeededCommentText && '\n' !in SeededCommentText
  {
  }

  /** With leading comment lines skipped, the seeded query is a select. */
  lemma {:induction false} SeededQueryAfterComments()
    ensures DetectQueryTypeAfterComments(SeededQuery) == "select"
  {
    SeededCommentShape();
    AfterCommentsSkipsLine(SeededCommentText, SeededSelect);
    SeededSelectAfterComments();
  }

  /** As written, the stored type is the profile's own text, while the driver was chosen by
      its lower-cased form. */
  function StoredTypeAsWritten(p: Profile): string
    requires p.dbType.Some?
  {
    p.dbType.value
  }

  /** The type the registry records for dispatch: the lower-cased one the driver was chosen by. */
  function StoredType(p: Profile): string
    requires p.dbType.Some?
  {
    Lower(p.dbType.value)
  }

  /** As written, a profile typed `SQLite` connects, and then every operation on the new
      connection is refused as unsupported. */
  lemma {:induction false} MixedCaseTypeAsWritten(op: Operation)
    ensures var p := Profile(Some("db"), Some("SQLite"), None, Some("app.db"), None, None, None, None);
      && ResolveDriverCall(p) == Ok(SqliteCall("app.db"))
      && Dispatch(op, StoredTypeAsWritten(p)) == Err(UnsupportedType("SQLite"))
  {
    var t := "SQLite";
    assert Lower(t) == "sqlite";
    assert t !in SupportedTypes by {
      assert t[0] == 'S';
    }
  }

  /** With the lower-cased type stored, every connection the drivers accept can execute
      queries and describe its database, and sqlite ones reach every operation. */
  lemma {:induction false} StoredTypeDispatches(p: Profile, op: Operation)
    requires ResolveDriverCall(p).Ok?
    ensures StoredType(p) == TypeName(ResolveDriverCall(p).value)
    ensures (op == ExecuteQueryOp || op == DatabaseInfoOp) ==> Dispatch(op, StoredType(p)).Ok?
    ensures ResolveDriverCall(p).value.SqliteCall? ==> Dispatch(op, StoredType(p)).Ok?
  {
    ResolveSelectsByLowerCaseType(p);
  }

  /** One registry entry (`DatabaseConnection`); the driver handle and the timestamps are not
      modelled. */
  class DatabaseConnection {
    const connectionId: string
    const info: ConnectionInfo
    const dbType: string
    var isActive: bool

    constructor (connectionId: string, info: ConnectionInfo, dbType: string)
      ensures this.connectionId == connectionId && this.info == info && this.dbType == dbType
      ensures isActive
    {
      this.connectionId := connectionId;
      this.info := info;
      this.dbType := dbType;
      isActive := true;
    }
  }

  /** Where an operation on a sqlite connection goes: the handler and the query type it is
      run with. */
  datatype QueryRoute = QueryRoute(handler: string, queryType: string)

  class DatabaseManager {
    var connections: map<string, DatabaseConnection>

    /** Every entry is active and is filed under its own id. */
    ghost predicate Valid()
      reads this, connections.Values
    {
      forall id | id in connections :: connections[id].connectionId == id && connections[id].isActive
    }

    constructor ()
      ensures connections == map[] && Valid()
    {
      connections := map[];
    }

    /** `create_connection`: on success the registry gains the entry filed under `uuid`;
        on any failure it is unchanged. */
    method CreateConnection(profile: Profile, connect: DriverCall -> DriverResult, uuid: string)
      returns (r: Result<Created>)
      requires Valid()
      modifies this
      ensures Valid()
      ensures r == CreateOutcome(profile, connect, uuid)
      ensures r.Err? ==> connections == old(connections)
      ensures r.Ok? ==>
        && uuid in connections && fresh(connections[uuid])
        && connections == old(connections)[uuid := connections[uuid]]
        && connections[uuid].info == r.value.info
        && connections[uuid].dbType == StoredTypeAsWritten(profile)
      ensures r.Ok? && uuid !in old(connections) ==> connections.Keys == old(connections).Keys + {uuid}
    {
      var resolved := ResolveDriverCall(profile);
      if resolved.Err? {
        return Err(resolved.error);
      }
      var result := connect(resolved.value);
      if result.ConnectFailed? {
        return Err(result.error);
      }
      if profile.name.None? {
        return Err(KeyError("name"));
      }
      var info := ConnectionInfoOf(profile, result.details);
      var entry := new DatabaseConnection(uuid, info, StoredTypeAsWritten(profile));
      connections := connections[uuid := entry];
      r := Ok(Created(uuid, info));
    }

    /** `close_connection`; `closeError` is the exception the driver's `close()` raises, if any. */
    method CloseConnection(connectionId: string, closeError: Option<string>) returns (r: Result<string>)
      requires Valid()
      modifies this, if connectionId in connections then {connections[connectionId]} else {}
      ensures Valid()
      ensures connectionId !in old(connections) ==> r == Err(ConnectionNotFound) && connections == old(connections)
      ensures connectionId in old(connections) && closeError.Some? ==>
        r == Err(closeError.value) && connections == old(connections) && connections[connectionId].isActive
      ensures connectionId in old(connections) && closeError.None? ==>
        && r == Ok("Connection closed successfully")
        && connections == old(connections) - {connectionId}
        && !old(connections)[connectionId].isActive
    {
      if connectionId !in connections {
        return Err(ConnectionNotFound);
      }
      var entry := connections[connectionId];
      if closeError.Some? {
        return Err(closeError.value);
      }
      entry.isActive := false;
      connections := connections - {connectionId};
      r := Ok("Connection closed successfully");
    }

    /** The guard and type switch of `get_database_info`, `get_table_schema` and
        `get_table_data`, and the routing part of the record operations. */
    method Route(op: Operation, connectionId: string) returns (r: Result<string>)
      ensures connectionId !in connections ==> r == Err(ConnectionNotFound)
      ensures connectionId in connections ==> r == Dispatch(op, connections[connectionId].dbType)
    {
      if connectionId !in connections {
        return Err(ConnectionNotFound);
      }
      r := Dispatch(op, connections[connectionId].dbType);
    }

    /** `execute_query`: `auto` is replaced by the detected type before the handler runs. */
    method ExecuteQuery(connectionId: string, query: string, queryType: string) returns (r: Result<QueryRoute>)
      ensures connectionId !in connections ==> r == Err(ConnectionNotFound)
      ensures connectionId in connections ==>
        var d := Dispatch(ExecuteQueryOp, connections[connectionId].dbType);
        var qt := if queryType == "auto" then DetectQueryType(query) else queryType;
        r == (if d.Ok? then Ok(QueryRoute(d.value, qt)) else Err(d.error))
    {
      if connectionId !in connections {
        return Err(ConnectionNotFound);
      }
      var qt := queryType;
      if qt == "auto" {
        qt := DetectQueryType(query);
      }
      var d := Dispatch(ExecuteQueryOp, connections[connectionId].dbType);
      if d.Err? {
        return Err(d.error);
      }
      r := Ok(QueryRoute(d.value, qt));
    }

    /** `insert_record`: on a sqlite connection, the statement `_insert_sqlite_record` runs. */
    method InsertRecord(connectionId: string, table: string, values: Dict) returns (r: Result<Statement>)
      ensures connectionId !in connections ==> r == Err(ConnectionNotFound)
      ensures connectionId in connections ==>
        var d := Dispatch(InsertRecordOp, connections[connectionId].dbType);
        r == (if d.Ok? then Ok(InsertSql(table, values)) else Err(d.error))
    {
      var route := Route(InsertRecordOp, connectionId);
      if route.Err? {
        return Err(route.error);
      }
      r := Ok(InsertSql(table, values));
    }

    /** `update_record` */
    method UpdateRecord(connectionId: string, table: string, values: Dict, whereConditions: Dict)
      returns (r: Result<Statement>)
      ensures connectionId !in connections ==> r == Err(ConnectionNotFound)
      ensures connectionId in connections ==>
        var d := Dispatch(UpdateRecordOp, connections[connectionId].dbType);
        r == (if d.Ok? then Ok(UpdateSql(table, values, whereConditions)) else Err(d.error))
    {
      var route := Route(UpdateRecordOp, connectionId);
      if route.Err? {
        return Err(route.error);
      }
      r := Ok(UpdateSql(table, values, whereConditions));
    }

    /** `delete_record` */
    method DeleteRecord(connectionId: string, table: string, whereConditions: Dict) returns (r: Result<Statement>)
      ensures connectionId !in connections ==> r == Err(ConnectionNotFound)
      ensures connectionId in connections ==>
        var d := Dispatch(DeleteRecordOp, connections[connectionId].dbType);
        r == (if d.Ok? then Ok(DeleteSql(table, whereConditions)) else Err(d.error))
    {
      var route := Route(DeleteRecordOp, connectionId);
      if route.Err? {
        return Err(route.error);
      }
      r := Ok(DeleteSql(table, whereConditions));
    }

    /** `select_records` */
    method SelectRecords(connectionId: string, table: string, columns: seq<string>, whereConditions: Dict,
                         limit: Param, offset: Param) returns (r: Result<Statement>)
      ensures connectionId !in connections ==> r == Err(ConnectionNotFound)
      ensures connectionId in connections ==>
        var d := Dispatch(SelectRecordsOp, connections[connectionId].dbType);
        r == (if d.Ok? then Ok(SelectSql(table, columns, whereConditions, limit, offset)) else Err(d.error))
    {
      var route := Route(SelectRecordsOp, connectionId);
      if route.Err? {
        return Err(route.error);
      }
      r := Ok(SelectSql(table, columns, whereConditions, limit, offset));
    }
  }

  /** As written, a registry entry created for a profile typed `SQLite` is refused by every
      operation that checks the stored type, although the driver accepted it. */
  method MixedCaseRegistryAsWritten(op: Operation) returns (created: Result<Created>, routed: Result<string>)
    ensures created.Ok? && created.value.connectionId == "conn-1"
    ensures routed == Err(UnsupportedType("SQLite"))
  {
    MixedCaseTypeAsWritten(op);
    var registry := new DatabaseManager();
    var p := Profile(Some("db"), Some("SQLite"), None, Some("app.db"), None, None, None, None);
    var connect := (call: DriverCall) => Connected(DriverDetails(None, None, None, None, None));
    created := registry.CreateConnection(p, connect, "conn-1");
    routed := registry.Route(op, "conn-1");
  }
}
