/** The renderer's client-side state (renderer.js): the saved connection profiles, the
    active session and the query history, with the operations that change them, plus the
    connection-form validation, JavaScript's `parseInt` as the form uses it, and the
    blank-value filter of the record form. Backend replies, `Date.now()` and the clock's
    ISO text are inputs; DOM updates and notifications are not modelled. */
module Renderer {
  import opened Wrappers
  import opened Text

  // ----- parseInt -----

  /** The value of a digit in radices up to 36; 36 for a character that is no digit. */
  function DigitValue(c: char): nat {
    if '0' <= c <= '9' then c as int - '0' as int
    else if 'a' <= c <= 'z' then c as int - 'a' as int + 10
    else if 'A' <= c <= 'Z' then c as int - 'A' as int + 10
    else 36
  }

  /** The longest prefix made of digits of `radix`. */
  function DigitRun(s: string, radix: nat): (r: string)
    ensures |r| <= |s| && r == s[..|r|]
    ensures forall i :: 0 <= i < |r| ==> DigitValue(r[i]) < radix
    ensures |r| == |s| || DigitValue(s[|r|]) >= radix
  {
    if s != [] && DigitValue(s[0]) < radix then [s[0]] + DigitRun(s[1..], radix) else []
  }

  /** The number a digit string denotes in `radix`, most significant digit first. */
  function DigitsValue(ds: string, radix: nat): nat {
    if ds == [] then 0 else DigitsValue(ds[..|ds| - 1], radix) * radix + DigitValue(ds[|ds| - 1])
  }

  /** Whether the unsigned part starts with `0x` or `0X`, which selects radix 16. */
  predicate HexPrefixed(u: string) {
    |u| >= 2 && u[0] == '0' && (u[1] == 'x' || u[1] == 'X')
  }

  function Radix(u: string): nat {
    if HexPrefixed(u) then 16 else 10
  }

  /** The digits `parseInt` reads from the unsigned part. */
  function Digits(u: string): string {
    DigitRun(if HexPrefixed(u) then u[2..] else u, Radix(u))
  }

  /** The value of the digits after the sign; `None` when there is no digit. */
  function Unsigned(u: string): Option<int> {
    var digits := Digits(u);
    if digits == [] then None else Some(DigitsValue(digits, Radix(u)))
  }

  function Negated(n: Option<int>): Option<int> {
    if n.Some? then Some(-n.value) else None
  }

  /** JavaScript `parseInt(s)` without a radix (section 19.2.5 of ECMA-262): leading
      whitespace, an optional sign, an optional `0x`/`0X` prefix selecting radix 16, then the
      longest digit prefix; no digit at all is NaN, here `None`. */
  function ParseInt(s: string): Option<int> {
    var t := TrimStart(s, IsJsWhitespace);
    if t != [] && t[0] == '-' then Negated(Unsigned(t[1..]))
    else if t != [] && t[0] == '+' then Unsigned(t[1..])
    else Unsigned(t)
  }

  function DigitChar(d: nat): char
    requires d < 10
  {
    ('0' as int + d) as char
  }

  /** The decimal numeral of `n`, as `String(n)` writes it. */
  function DecimalText(n: nat): (r: string)
    ensures r != [] && forall i :: 0 <= i < |r| ==> DigitValue(r[i]) < 10
  {
    if n < 10 then [DigitChar(n)] else DecimalText(n / 10) + [DigitChar(n % 10)]
  }

  lemma {:induction false} DecimalTextValue(n: nat)
    ensures DigitsValue(DecimalText(n), 10) == n
  {
    var r := DecimalText(n);
    if n < 10 {
      assert r[..0] == [];
    } else {
      assert r[..|r| - 1] == DecimalText(n / 10);
      DecimalTextValue(n / 10);
    }
  }

  lemma {:induction false} DigitRunWhole(s: string, radix: nat)
    requires forall i :: 0 <= i < |s| ==> DigitValue(s[i]) < radix
    ensures DigitRun(s, radix) == s
  {
  }

  predicate DecimalDigits(s: string) {
    s != [] && forall i :: 0 <= i < |s| ==> DigitValue(s[i]) < 10
  }

  /** A run of decimal digits has no `0x` prefix and is read whole, in radix 10. */
  lemma {:induction false} DecimalDigitsRead(s: string)
    requires DecimalDigits(s)
    ensures Unsigned(s) == Some(DigitsValue(s, 10) as int)
  {
    if |s| >= 2 {
      assert DigitValue(s[1]) < 10;
    }
    DigitRunWhole(s, 10);
  }

  /** A run of decimal digits is read in radix 10. */
  lemma {:induction false} ParseIntDigits(s: string)
    requires DecimalDigits(s)
    ensures ParseInt(s) == Some(DigitsValue(s, 10) as int)
  {
    assert '0' <= s[0] <= '9';
    TrimStartIdle(s, IsJsWhitespace);
    DecimalDigitsRead(s);
  }

  /** A leading minus sign negates what follows it, so `-5` is read as the number -5. */
  lemma {:induction false} ParseIntMinus(s: string)
    ensures ParseInt("-" + s) == Negated(Unsigned(s))
  {
    var m := "-" + s;
    assert m[0] == '-' && m[1..] == s;
    TrimStartIdle(m, IsJsWhitespace);
  }

  /** `parseInt` reads back every decimal numeral. */
  lemma {:induction false} ParseIntDecimal(n: nat)
    ensures ParseInt(DecimalText(n)) == Some(n)
  {
    DecimalTextValue(n);
    ParseIntDigits(DecimalText(n));
  }

  /** `parseInt` yields NaN when the text holds no digit before anything else. */
  lemma {:induction false} ParseIntNaN(s: string)
    requires s == [] || (DigitValue(s[0]) >= 10 && !IsJsWhitespace(s[0]) && s[0] != '-' && s[0] != '+')
    ensures ParseInt(s) == None
  {
  }

  // ----- connection form -----

  /** The raw values of the connection form's inputs. */
  datatype ConnectionForm = ConnectionForm(
    name: string, dbType: string, color: string, sqlitePath: string,
    host: string, port: string, username: string, password: string, database: string)

  /** The object `getConnectionFormData` returns. */
  datatype ConnectionData =
    | SqliteData(name: string, dbType: string, color: string, database: string)
    | ServerData(name: string, dbType: string, color: string, host: string, port: int,
                 username: string, password: string, database: string)

  /** `type === 'mysql' ? 3306 : type === 'postgresql' ? 5432 : 1433` */
  function DefaultPort(dbType: string): int {
    if dbType == "mysql" then 3306 else if dbType == "postgresql" then 5432 else 1433
  }

  /** `parseInt(port) || default`: NaN and 0 are both falsy. */
  function PortOrDefault(port: string, dbType: string): (r: int)
    ensures r != 0
  {
    var n := ParseInt(port);
    if n.Some? && n.value != 0 then n.value else DefaultPort(dbType)
  }

  /** A typed positive port is kept; an empty or non-numeric one and `0` give the default. */
  lemma {:induction false} PortOrDefaultCases(p: nat, dbType: string)
    ensures p > 0 ==> PortOrDefault(DecimalText(p), dbType) == p
    ensures PortOrDefault("", dbType) == DefaultPort(dbType)
    ensures PortOrDefault(DecimalText(0), dbType) == DefaultPort(dbType)
  {
    ParseIntDecimal(p);
    ParseIntDecimal(0);
    ParseIntNaN("");
  }

  /** What every object `getConnectionFormData` returns satisfies. */
  predicate FormShaped(d: ConnectionData) {
    && d.name != [] && d.dbType != [] && d.database != []
    && (d.SqliteData? <==> d.dbType == "sqlite")
    && (d.ServerData? ==> d.host != [] && d.username != [] && d.port != 0)
  }

  /** `getConnectionFormData`: null when a required field is blank, otherwise the trimmed
      values, with the port parsed and defaulted for server types. */
  function ConnectionDataOf(form: ConnectionForm): (r: Option<ConnectionData>)
    ensures r.None? <==>
      || JsTrim(form.name) == [] || form.dbType == []
      || (form.dbType == "sqlite" && JsTrim(form.sqlitePath) == [])
      || (form.dbType != "sqlite" && (JsTrim(form.host) == [] || JsTrim(form.username) == [] || JsTrim(form.database) == []))
    ensures r.Some? ==> FormShaped(r.value)
    ensures r.Some? ==> r.value.name == JsTrim(form.name) && r.value.dbType == form.dbType && r.value.color == form.color
    ensures r.Some? ==> (r.value.SqliteData? <==> form.dbType == "sqlite")
    ensures r.Some? && r.value.SqliteData? ==> r.value.database == JsTrim(form.sqlitePath)
    ensures r.Some? && r.value.ServerData? ==>
      && r.value.host == JsTrim(form.host) && r.value.port == PortOrDefault(JsTrim(form.port), form.dbType)
      && r.value.username == JsTrim(form.username) && r.value.password == JsTrim(form.password)
      && r.value.database == JsTrim(form.database)
  {
    var name := JsTrim(form.name);
    var dbType := form.dbType;
    if name == [] || dbType == [] then None
    else if dbType == "sqlite" then
      var path := JsTrim(form.sqlitePath);
      if path == [] then None else Some(SqliteData(name, dbType, form.color, path))
    else
      var host := JsTrim(form.host);
      var username := JsTrim(form.username);
      var database := JsTrim(form.database);
      if host == [] || username == [] || database == [] then None
      else
        Some(ServerData(name, dbType, form.color, host, PortOrDefault(JsTrim(form.port), dbType), username,
                        JsTrim(form.password), database))
  }

  /** `getConnectionFormData` as the source writes it: early returns on a blank required
      field, the type-specific fields filled in after the common ones. */
  method GetConnectionFormData(form: ConnectionForm) returns (r: Option<ConnectionData>)
    ensures r == ConnectionDataOf(form)
  {
    var name := JsTrim(form.name);
    var dbType := form.dbType;
    if name == [] || dbType == [] {
      return None;
    }
    var color := form.color;
    if dbType == "sqlite" {
      var path := JsTrim(form.sqlitePath);
      if path == [] {
        return None;
      }
      return Some(SqliteData(name, dbType, color, path));
    }
    var host := JsTrim(form.host);
    var port := JsTrim(form.port);
    var username := JsTrim(form.username);
    var password := JsTrim(form.password);
    var database := JsTrim(form.database);
    if host == [] || username == [] || database == [] {
      return None;
    }
    r := Some(ServerData(name, dbType, color, host, PortOrDefault(port, dbType), username, password, database));
  }

  /** `getDatabaseIcon` */
  function DatabaseIcon(dbType: string): string {
    if dbType == "sqlite" then "fas fa-file-database" else "fas fa-database"
  }

  lemma {:induction false} DatabaseIconIff(dbType: string)
    ensures DatabaseIcon(dbType) == "fas fa-file-database" <==> dbType == "sqlite"
    ensures DatabaseIcon(dbType) != "fas fa-file-database" ==> DatabaseIcon(dbType) == "fas fa-database"
  {
    assert "fas fa-database"[7] != "fas fa-file-database"[7];
  }

  // ----- profiles and the session -----

  /** A saved profile: `{id, ...formData, isActive}`. */
  datatype ConnectionProfile = ConnectionProfile(id: string, data: ConnectionData, isActive: bool)

  /** `currentConnection`: the profile plus the backend's `connection_id`. */
  datatype Session = Session(profile: ConnectionProfile, connectionId: string)

  /** The index of the first profile with the id, or the length when there is none. */
  function FirstIndex(profiles: seq<ConnectionProfile>, id: string): (k: nat)
    ensures k <= |profiles| && forall j :: 0 <= j < k ==> profiles[j].id != id
    ensures k < |profiles| ==> profiles[k].id == id
  {
    if profiles == [] then 0 else if profiles[0].id == id then 0 else 1 + FirstIndex(profiles[1..], id)
  }

  /** `connections.find(c => c.id === id)` */
  function FindProfile(profiles: seq<ConnectionProfile>, id: string): (r: Option<ConnectionProfile>)
    ensures r.None? <==> forall i :: 0 <= i < |profiles| ==> profiles[i].id != id
    ensures r.Some? ==> exists i :: 0 <= i < |profiles| && profiles[i] == r.value
                          && r.value.id == id && forall j :: 0 <= j < i ==> profiles[j].id != id
  {
    var k := FirstIndex(profiles, id);
    if k < |profiles| then Some(profiles[k]) else None
  }

  /** `connections.filter(c => c.id !== id)` */
  function Without(profiles: seq<ConnectionProfile>, id: string): seq<ConnectionProfile> {
    if profiles == [] then []
    else if profiles[0].id != id then [profiles[0]] + Without(profiles[1..], id)
    else Without(profiles[1..], id)
  }

  lemma {:induction false} WithoutMembers(profiles: seq<ConnectionProfile>, id: string)
    ensures forall p :: p in Without(profiles, id) <==> p in profiles && p.id != id
  {
    if profiles != [] {
      WithoutMembers(profiles[1..], id);
      assert forall p :: p in profiles <==> p == profiles[0] || p in profiles[1..];
    }
  }

  /** Filtering works piecewise, so the kept profiles stay in their original order. */
  lemma {:induction false} WithoutConcat(a: seq<ConnectionProfile>, b: seq<ConnectionProfile>, id: string)
    ensures Without(a + b, id) == Without(a, id) + Without(b, id)
  {
    if a == [] {
      assert a + b == b;
    } else {
      assert (a + b)[1..] == a[1..] + b;
      WithoutConcat(a[1..], b, id);
    }
  }

  /** Nothing is removed when no profile has the id, and filtering twice removes nothing more. */
  lemma {:induction false} WithoutIdle(profiles: seq<ConnectionProfile>, id: string)
    ensures (forall i :: 0 <= i < |profiles| ==> profiles[i].id != id) ==> Without(profiles, id) == profiles
    ensures Without(Without(profiles, id), id) == Without(profiles, id)
  {
    if profiles != [] {
      WithoutIdle(profiles[1..], id);
      if profiles[0].id != id {
        assert ([profiles[0]] + Without(profiles[1..], id))[1..] == Without(profiles[1..], id);
      }
    }
  }

  // ----- query history -----

  datatype HistoryEntry = HistoryEntry(id: int, query: string, timestamp: string, success: bool,
                                       rowCount: int, executionTime: real)

  /** The fields of an `execute-query` reply the renderer reads; an absent one is `None`. */
  datatype QueryReply =
    | QueryOk(rowCount: Option<int>, affectedRows: Option<int>, executionTime: Option<real>)
    | QueryFailed(error: string)

  const HistoryLimit := 100

  /** `result.row_count || result.affected_rows || 0` */
  function RowCount(rowCount: Option<int>, affectedRows: Option<int>): (r: int)
    ensures r != 0 ==> (rowCount.Some? && r == rowCount.value) || (affectedRows.Some? && r == affectedRows.value)
    ensures rowCount.Some? && rowCount.value != 0 ==> r == rowCount.value
    ensures r == 0 <==> (rowCount.None? || rowCount.value == 0) && (affectedRows.None? || affectedRows.value == 0)
  {
    if rowCount.Some? && rowCount.value != 0 then rowCount.value
    else if affectedRows.Some? && affectedRows.value != 0 then affectedRows.value
    else 0
  }

  /** The history after `unshift(item)` and the cut to 100 entries. */
  function Recent(item: HistoryEntry, history: seq<HistoryEntry>): (r: seq<HistoryEntry>)
    ensures |r| == if |history| < HistoryLimit then |history| + 1 else HistoryLimit
    ensures r[0] == item
    ensures r[1..] == history[..|r| - 1]
  {
    var h := [item] + history;
    if |h| > HistoryLimit then h[..HistoryLimit] else h
  }

  /** Entries added one after another, the newest first, cut to the limit. */
  function RecentAll(items: seq<HistoryEntry>, history: seq<HistoryEntry>): seq<HistoryEntry> {
    if items == [] then history else Recent(items[|items| - 1], RecentAll(items[..|items| - 1], history))
  }

  function Reversed<T>(s: seq<T>): seq<T> {
    if s == [] then [] else [s[|s| - 1]] + Reversed(s[..|s| - 1])
  }

  function Take<T>(s: seq<T>, n: nat): seq<T> {
    if |s| <= n then s else s[..n]
  }

  /** Adding entries one at a time keeps the latest 100 of them and the history, newest first. */
  lemma {:induction false} RecentAllIsNewestFirst(items: seq<HistoryEntry>, history: seq<HistoryEntry>)
    requires |history| <= HistoryLimit
    ensures RecentAll(items, history) == Take(Reversed(items) + history, HistoryLimit)
  {
    if items != [] {
      var n := |items| - 1;
      RecentAllIsNewestFirst(items[..n], history);
      var prev := Reversed(items[..n]) + history;
      assert Reversed(items) + history == [items[n]] + prev;
      var t := Take(prev, HistoryLimit);
      var full := [items[n]] + prev;
      if |full| > HistoryLimit {
        assert ([items[n]] + t)[..HistoryLimit] == full[..HistoryLimit];
      }
    }
  }

  // ----- record form -----

  /** `values[key] = value` on a plain object: an existing key keeps its place. */
  function Put(values: seq<(string, string)>, key: string, value: string): seq<(string, string)> {
    if values == [] then [(key, value)]
    else if values[0].0 == key then [(key, value)] + values[1..]
    else [values[0]] + Put(values[1..], key, value)
  }

  function Lookup(values: seq<(string, string)>, key: string): Option<string> {
    if values == [] then None else if values[0].0 == key then Some(values[0].1) else Lookup(values[1..], key)
  }

  lemma {:induction false} LookupPut(values: seq<(string, string)>, key: string, value: string, k: string)
    ensures Lookup(Put(values, key, value), k) == if k == key then Some(value) else Lookup(values, k)
  {
    if values != [] && values[0].0 != key {
      LookupPut(values[1..], key, value, k);
    }
  }

  function Blank(value: string): bool {
    JsTrim(value) == []
  }

  /** The `values` object the record form submits: every entry whose trimmed value is not
      empty, written in form order, the untrimmed value kept. */
  function CrudValues(entries: seq<(string, string)>): seq<(string, string)> {
    if entries == [] then []
    else
      var prev := CrudValues(entries[..|entries| - 1]);
      var e := entries[|entries| - 1];
      if !Blank(e.1) then Put(prev, e.0, e.1) else prev
  }

  /** The value of the last entry for `key` whose value is not blank. */
  function LastNonBlank(entries: seq<(string, string)>, key: string): Option<string> {
    if entries == [] then None
    else
      var e := entries[|entries| - 1];
      if e.0 == key && !Blank(e.1) then Some(e.1) else LastNonBlank(entries[..|entries| - 1], key)
  }

  /** The submitted object maps each key to the value of its last non-blank entry. */
  lemma {:induction false} CrudValuesLookup(entries: seq<(string, string)>, key: string)
    ensures Lookup(CrudValues(entries), key) == LastNonBlank(entries, key)
  {
    if entries != [] {
      var n := |entries| - 1;
      CrudValuesLookup(entries[..n], key);
      var e := entries[n];
      if !Blank(e.1) {
        LookupPut(CrudValues(entries[..n]), e.0, e.1, key);
      }
    }
  }

  predicate AllBlankFor(entries: seq<(string, string)>, key: string) {
    forall i :: 0 <= i < |entries| && entries[i].0 == key ==> Blank(entries[i].1)
  }

  lemma {:induction false} AllBlankForLast(entries: seq<(string, string)>, key: string)
    requires entries != []
    ensures var n := |entries| - 1;
      AllBlankFor(entries, key) <==> AllBlankFor(entries[..n], key) && (entries[n].0 == key ==> Blank(entries[n].1))
  {
    var n := |entries| - 1;
    assert forall i :: 0 <= i < n ==> entries[..n][i] == entries[i];
  }

  /** A key is left out exactly when every entry for it is blank. */
  lemma {:induction false} LastNonBlankNone(entries: seq<(string, string)>, key: string)
    ensures LastNonBlank(entries, key).None? <==> AllBlankFor(entries, key)
  {
    if entries != [] {
      LastNonBlankNone(entries[..|entries| - 1], key);
      AllBlankForLast(entries, key);
    }
  }

  /** The loop of `handleCrudRecordSubmit` over the form's entries. */
  method CollectCrudValues(entries: seq<(string, string)>) returns (values: seq<(string, string)>)
    ensures values == CrudValues(entries)
  {
    values := [];
    var i := 0;
    while i < |entries|
      invariant 0 <= i <= |entries|
      invariant values == CrudValues(entries[..i])
    {
      var (key, value) := entries[i];
      assert entries[..i + 1][..i] == entries[..i];
      if JsTrim(value) != [] {
        values := Put(values, key, value);
      }
      i := i + 1;
    }
    assert entries[..i] == entries;
  }

  // ----- the renderer's state -----

  /** The `execute-query` request body. */
  datatype QueryRequest = QueryRequest(connectionId: string, query: string, queryType: string)

  /** The `create-connection` reply. */
  datatype CreateReply = Created(connectionId: string) | NotCreated(error: string)

  /** The early exits of `executeQuery`: no session, no editor, or a blank query send nothing. */
  function PrepareQuery(session: Option<Session>, editorText: Option<string>): (r: Option<QueryRequest>)
    ensures r.None? <==> session.None? || editorText.None? || JsTrim(editorText.value) == []
    ensures r.Some? ==> r.value == QueryRequest(session.value.connectionId, JsTrim(editorText.value), "auto")
    ensures r.Some? ==> r.value.query != [] && JsTrim(r.value.query) == r.value.query
  {
    if session.None? || editorText.None? then None
    else
      var query := JsTrim(editorText.value);
      if query == [] then None
      else
        TrimIdempotent(editorText.value, IsJsWhitespace);
        Some(QueryRequest(session.value.connectionId, query, "auto"))
  }

  /** The history entry `addToHistory` builds from a successful reply. */
  function HistoryEntryOf(now: int, query: string, timestamp: string, reply: QueryReply): HistoryEntry
    requires reply.QueryOk?
  {
    HistoryEntry(now, query, timestamp, true, RowCount(reply.rowCount, reply.affectedRows),
                 reply.executionTime.GetOr(0.0))
  }

  class AppState {
    var currentConnection: Option<Session>
    var connections: seq<ConnectionProfile>
    var queryHistory: seq<HistoryEntry>

    /** The history stays within its limit and the session's profile is a saved one. */
    ghost predicate Valid()
      reads this
    {
      |queryHistory| <= HistoryLimit
      && (currentConnection.Some? ==> currentConnection.value.profile in connections)
    }

    /** The state after `loadConnections` has read the saved profiles. */
    constructor (saved: seq<ConnectionProfile>)
      ensures Valid()
      ensures currentConnection == None && connections == saved && queryHistory == []
    {
      currentConnection := None;
      connections := saved;
      queryHistory := [];
    }

    /** `addToHistory` */
    method AddToHistory(item: HistoryEntry)
      requires Valid()
      modifies this
      ensures Valid()
      ensures queryHistory == Recent(item, old(queryHistory))
      ensures currentConnection == old(currentConnection) && connections == old(connections)
    {
      queryHistory := [item] + queryHistory;
      if |queryHistory| > HistoryLimit {
        queryHistory := queryHistory[..HistoryLimit];
      }
    }

    /** `executeQuery`, with the backend's reply to the request it sends as an input. Only a
        successful reply is recorded. */
    method ExecuteQuery(editorText: Option<string>, reply: QueryReply, now: int, timestamp: string)
      returns (request: Option<QueryRequest>)
      requires Valid()
      modifies this
      ensures Valid()
      ensures request == PrepareQuery(old(currentConnection), editorText)
      ensures currentConnection == old(currentConnection) && connections == old(connections)
      ensures request.None? || reply.QueryFailed? ==> queryHistory == old(queryHistory)
      ensures request.Some? && reply.QueryOk? ==>
        queryHistory == Recent(HistoryEntryOf(now, request.value.query, timestamp, reply), old(queryHistory))
    {
      request := PrepareQuery(currentConnection, editorText);
      if request.Some? && reply.QueryOk? {
        AddToHistory(HistoryEntryOf(now, request.value.query, timestamp, reply));
      }
    }

    /** `connectToDatabase`: an unknown id sends nothing; a successful reply replaces the
        session, a failed one leaves it as it was. */
    method ConnectToDatabase(id: string, reply: CreateReply) returns (request: Option<ConnectionProfile>)
      requires Valid()
      modifies this
      ensures Valid()
      ensures request == FindProfile(old(connections), id)
      ensures connections == old(connections) && queryHistory == old(queryHistory)
      ensures request.Some? && reply.Created? ==> currentConnection == Some(Session(request.value, reply.connectionId))
      ensures request.None? || reply.NotCreated? ==> currentConnection == old(currentConnection)
    {
      request := FindProfile(connections, id);
      if request.Some? && reply.Created? {
        currentConnection := Some(Session(request.value, reply.connectionId));
      }
    }

    /** `deleteConnection`; `confirmed` is the answer to the confirmation dialog. */
    method DeleteConnection(id: string, confirmed: bool)
      requires Valid()
      modifies this
      ensures Valid()
      ensures queryHistory == old(queryHistory)
      ensures !confirmed ==> connections == old(connections) && currentConnection == old(currentConnection)
      ensures confirmed ==> connections == Without(old(connections), id)
      ensures confirmed && old(currentConnection).Some? && old(currentConnection).value.profile.id == id ==>
        currentConnection == None
      ensures confirmed && (old(currentConnection).None? || old(currentConnection).value.profile.id != id) ==>
        currentConnection == old(currentConnection)
    {
      if confirmed {
        WithoutMembers(connections, id);
        connections := Without(connections, id);
        if currentConnection.Some? && currentConnection.value.profile.id == id {
          currentConnection := None;
        }
      }
    }
  }
}
