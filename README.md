# Database client core: renderer state and backend registry

This project is a Dafny model of the two sequential cores of a desktop database client. One
core is the Electron renderer (`renderer.js`). The other is the Flask backend it talks to
(`backend/app.py`).

- **Renderer (`renderer.dfy`, module `Renderer`).** The class `AppState` holds the client's
  three state variables: the saved connection profiles, the active session and the query
  history. Its methods are the transitions the source makes on them:
  - loading the saved profiles;
  - `addToHistory`;
  - the `executeQuery` guard and its history update;
  - the session slot of `connectToDatabase`;
  - `deleteConnection`.

  Beside the class sit:
  - the connection-form validation `getConnectionFormData`, with JavaScript `parseInt` as the
    form uses it for the port;
  - `getDatabaseIcon`;
  - the loop of `handleCrudRecordSubmit` that drops blank values.
- **Backend (`backend.dfy`, module `Backend`).** The class `DatabaseManager` holds the registry
  `connections`, a map from connection id to `DatabaseConnection`.
  - `CreateConnection` and `CloseConnection` change the registry.
  - Every other operation is guarded by "Connection not found" and then dispatched on the
    stored database type.
  - The type switch shared by `test_connection` and `create_connection` resolves a profile to
    a driver call, with the per-type default ports.
  - `_detect_query_type` is modelled as written, and the registry uses it. A corrected form
    that skips leading comment lines appears only in the lemmas of the Findings.
  - The registry stores the type as the profile sent it, as the source does. The corrected
    lower-cased form appears only in the lemmas of the Findings.
- **SQLite statement builders (`sqlite_sql.dfy`, module `SqliteSql`).** These build the SQL
  text and the ordered parameter list of `_insert/_update/_delete/_select_sqlite_record(s)`.
  The lemmas count the `?` placeholders against the parameters.
- **Wire (`wire.dfy`, module `Wire`).** This module states how a profile produced by the form
  reaches the backend. It shows that such a profile never fails the backend's key lookups. It
  also shows that the two sides' default ports agree.
- **Shared modules.**
  - `text.dfy` (module `Text`) defines JavaScript `trim`, Python `strip`, ASCII `upper`/`lower`,
    `startswith`, `join` and character counting.
  - `wrappers.dfy` (module `Wrappers`) defines `Option` and `Result`.

Inputs replace what the model cannot see:
- The database drivers (`connect_sqlite`, `connect_mysql`, ...) are a function parameter
  `connect: DriverCall -> DriverResult`.
- `uuid.uuid4()` is the parameter `uuid`.
- The exception a driver's `close()` may raise is the input `closeError`.
- The replies the renderer receives from the backend are input values (`QueryReply`,
  `CreateReply`).
- `Date.now()`, the ISO timestamp and the answer to the confirmation dialog are input values.

Only a query whose reply reports success is recorded in the history (renderer.js:457-466);
a failed query leaves the history unchanged, and so does `Renderer.AppState.ExecuteQuery`.

## Model

| member | source | states |
|---|---|---|
| Renderer.AppState.constructor | renderer.js:99-107 | After the saved profiles are loaded there is no session, the history is empty and the profiles are exactly the saved ones. |
| Renderer.AppState.AddToHistory | renderer.js:526-542 | The new entry is at index 0 and the previous entries follow in their old order, cut so that at most 100 remain. The session and the profiles are unchanged. |
| Renderer.Recent | renderer.js:536-539 | The length grows by one up to the cap of 100. The first entry is the new one and the rest is the old history's prefix. |
| Renderer.RecentAllIsNewestFirst | renderer.js:536-539 | Adding entries one after another leaves the newest 100 of them followed by the old history, newest first. |
| Renderer.RowCount | renderer.js:532 | `rowCount` is `row_count` when it is non-zero, else `affected_rows` when non-zero, else 0. The result is 0 exactly when both are absent or zero. |
| Renderer.PrepareQuery | renderer.js:439-446 | No request is sent exactly when there is no session, no editor, or the trimmed query is empty. Otherwise the request carries the session's backend id, the trimmed query and `auto`. |
| Renderer.AppState.ExecuteQuery | renderer.js:439-470 | The request sent is the one `PrepareQuery` gives. The history gains an entry only for a sent request with a successful reply, and is otherwise unchanged. The session and the profiles never change. |
| Renderer.AppState.ConnectToDatabase | renderer.js:177-215 | The profile posted is the first saved one with the id, if any. A successful reply makes the session that profile plus the reply's `connection_id`. An unknown id or a failed reply leaves the session as it was. |
| Renderer.AppState.DeleteConnection | renderer.js:931-946 | Unconfirmed, nothing changes. Confirmed, the profiles become exactly those with a different id, in their original order. The session is cleared only when it was the deleted profile. |
| Renderer.FindProfile | renderer.js:181 | Like `find`, the result is absent exactly when no profile has the id. Otherwise it is the first profile with that id. |
| Renderer.WithoutMembers | renderer.js:933 | A profile is kept by `filter` exactly when it was present and its id differs. |
| Renderer.WithoutConcat | renderer.js:933 | Filtering works piecewise, so the kept profiles keep their relative order. |
| Renderer.WithoutIdle | renderer.js:933 | Filtering an absent id removes nothing, and filtering twice equals filtering once. |
| Renderer.ConnectionDataOf | renderer.js:737-779 | The result is null exactly when the trimmed name or the type is empty, or a required field of the chosen branch is blank after trimming. A sqlite result has only name, type, colour and the trimmed path. A server result has the trimmed host, username, password and database, and the port parsed or defaulted. |
| Renderer.GetConnectionFormData | renderer.js:737-779 | The step-by-step construction returns exactly `ConnectionDataOf` of the form. |
| Renderer.PortOrDefault | renderer.js:772 | `parseInt(port) \|\| default` is never 0, because NaN and 0 both fall back to the default. |
| Renderer.PortOrDefaultCases | renderer.js:772 | A typed positive decimal port is kept. An empty port and `0` both give 3306 for mysql, 5432 for postgresql and 1433 otherwise. |
| Renderer.ParseIntDecimal | renderer.js:772 | `parseInt` reads every decimal numeral back as its number. |
| Renderer.ParseIntDigits | renderer.js:772 | A run of decimal digits is read in radix 10. |
| Renderer.ParseIntMinus | renderer.js:772 | A leading `-` negates what follows, so such a port is kept as a negative number. |
| Renderer.ParseIntNaN | renderer.js:772 | Text that is empty, or opens with a character that is no decimal digit, sign or whitespace, is NaN. |
| Renderer.DatabaseIconIff | renderer.js:167-175 | The icon is the file icon exactly for `sqlite`, and the plain database icon for every other type. |
| Renderer.CollectCrudValues | renderer.js:1184-1188 | The loop over the form entries builds exactly `CrudValues` of them. |
| Renderer.CrudValuesLookup | renderer.js:1184-1188 | In the submitted object each key maps to the value of its last non-blank entry, untrimmed. |
| Renderer.LastNonBlankNone | renderer.js:1184-1188 | A key is left out exactly when every entry for it is blank after trimming. |
| Renderer.LookupPut | renderer.js:1186 | Property assignment sets the key's value and leaves every other key's value unchanged. |
| Backend.ResolveSelectsByLowerCaseType | backend/app.py:149-161 | A resolved call goes to the driver named by the lower-cased type, which is one of the four supported types. A server call gets the profile's port, or 3306/5432/1433 when it has none. |
| Backend.ResolveIgnoresCase | backend/app.py:149 | The type is matched without regard to ASCII case. |
| Backend.ResolveUnsupportedIff | backend/app.py:162-163 | The "Unsupported database type" reply comes exactly for a present type whose lower-case form is not supported. |
| Backend.TestConnection | backend/app.py:147-181 | A lookup error is the reply. Success happens exactly when the call resolves and the driver connects. Then the reported type is the lower-cased one. |
| Backend.CreateAgreesWithTest | backend/app.py:183-236 | For a named profile and the same driver outcome, `create_connection` succeeds exactly when `test_connection` does, and fails with the same error when it does not. A success carries the new id, the profile's name, and its colour or `#007bff`. |
| Backend.DatabaseConnection.constructor | backend/app.py:42-49 | A new entry keeps its id, its connection info and its type, and starts active. |
| Backend.DatabaseManager.constructor | backend/app.py:52-53 | The registry starts empty. |
| Backend.DatabaseManager.CreateConnection | backend/app.py:183-236 | Any failure leaves the registry unchanged. A success files one new entry under the returned id, stores the type exactly as the profile sent it, and leaves every other entry as it was. With a fresh id the key set grows by exactly that id. |
| Backend.DatabaseManager.CloseConnection | backend/app.py:700-717 | An unknown id replies "Connection not found" and changes nothing. A `close()` that raises leaves the entry registered. Otherwise the entry is marked inactive and removed, and the other entries are untouched. |
| Backend.DatabaseManager.Route | backend/app.py:355-358 | An unknown id replies "Connection not found". A known one is dispatched on its stored type. |
| Backend.DatabaseManager.ExecuteQuery | backend/app.py:238-274 | An unknown id replies "Connection not found". Otherwise `auto` is replaced by the class `_detect_query_type` gives, and the query goes to the type's handler. |
| Backend.DatabaseManager.InsertRecord | backend/app.py:720-743 | An unknown id replies "Connection not found". A sqlite connection runs the insert statement. Other types get the dispatch error. |
| Backend.DatabaseManager.UpdateRecord | backend/app.py:745-768 | The same guard and dispatch, with the update statement. |
| Backend.DatabaseManager.DeleteRecord | backend/app.py:770-793 | The same guard and dispatch, with the delete statement. |
| Backend.DatabaseManager.SelectRecords | backend/app.py:795-818 | The same guard and dispatch, with the select statement. |
| Backend.DispatchCoverage | backend/app.py:408-431 | Queries and database info reach a handler for every supported type. Table schemas reach one for sqlite and mysql. Record operations and table data reach one only for sqlite. |
| Backend.ClassifyIff | backend/app.py:278-290 | Each class is returned exactly when the stripped, upper-cased query opens with one of its keywords, and 'other' when it opens with none. |
| Backend.DetectIgnoresPadding | backend/app.py:277 | Surrounding whitespace does not change the class. |
| Backend.DetectIgnoresCase | backend/app.py:277 | ASCII letter case does not change the class. |
| Backend.DetectStableUnderExtension | backend/app.py:279-288 | Appending text to a classified query keeps its class. |
| Backend.SeededQueryAsWritten | backend/app.py:276-290 | The renderer's seeded editor text is classified 'other'. |
| Backend.AfterCommentsAgrees | backend/app.py:276-290 | Without a leading comment, the corrected classifier agrees with the original. |
| Backend.AfterCommentsSkipsLine | backend/app.py:276-290 | In the corrected classifier, a leading `--` comment line does not change the class. |
| Backend.SeededQueryAfterComments | backend/app.py:276-290 | The corrected classifier reads the seeded editor text as a select. |
| Backend.MixedCaseTypeAsWritten | backend/app.py:223 | As written, a profile typed `SQLite` connects, and every operation that checks the stored type refuses it as unsupported. |
| Backend.MixedCaseRegistryAsWritten | backend/app.py:183-236 | Creating a connection for a `SQLite` profile succeeds, and routing any type-checked operation to it then replies "Unsupported database type: SQLite". |
| Backend.StoredTypeDispatches | backend/app.py:223 | With the lower-cased type stored, every accepted connection can execute queries and describe its database, and a sqlite one reaches every operation. |
| SqliteSql.InsertSql | backend/app.py:479-493 | The values are bound in column order. The `?` count is one per value, plus any `?` inside the names. |
| SqliteSql.UpdateSql | backend/app.py:495-510 | The SET values are bound first, then the WHERE values, with one `?` per parameter. |
| SqliteSql.DeleteSql | backend/app.py:512-525 | Only the WHERE values are bound, each with one `?`. |
| SqliteSql.SelectSql | backend/app.py:527-550 | The WHERE values are bound, then the limit, then the offset as the last two parameters, with one `?` per parameter. |
| SqliteSql.SelectListStar | backend/app.py:531 | The column list is `*` exactly when the columns are exactly `['*']`. |
| SqliteSql.SelectShape | backend/app.py:531-541 | The statement opens with `SELECT <columns> FROM <table>` and ends with ` LIMIT ? OFFSET ?`. |
| SqliteSql.SelectWithoutConditions | backend/app.py:535-541 | Without conditions there is no WHERE clause, and only the limit and offset are bound. |
| SqliteSql.SelectWithConditions | backend/app.py:535-539 | With conditions the WHERE clause follows the head. |
| SqliteSql.PlaceholdersMatchParams | backend/app.py:479-550 | For column names without `?`, every builder's `?` count equals its parameter count. |
| Wire.ToProfile | renderer.js:189 | The posted profile carries exactly the form's fields. A sqlite profile has no host, port, username or password. |
| Wire.FormProfileResolves | backend/app.py:149-163 | A profile from the form resolves exactly when its type is supported, to the driver call holding the form's values. |
| Wire.BlankPortMatchesBackendDefault | renderer.js:772 | A blank port field connects to the port the backend would use for a profile without one. |
| Wire.DefaultPortsAgree | backend/app.py:154-160 | The renderer's default port for each server type equals the backend's. |

## Left out

- DOM rendering, notifications, modals, tabs, the schema tree and the Monaco editor are left out. They are user interface; the editor is modelled only as its text, or `None` when it is missing.
- `formatQuery` is left out: its regular-expression rewriting is cosmetic.
- The CRUD network requests (renderer.js:1007, 1126, 1195) are left out. They pass the body as the HTTP method argument, so no body is ever sent. Only the value filtering before them is modelled.
- `handleConnectionSubmit`, the `testConnection` button, `editConnection`, persistence through `setStoreValue`, and `loadDatabaseSchema` are left out. They are I/O on top of the modelled state.
- The Flask routes and JSON handling are left out. A JSON `null` and an absent key are both `None` here, although Python treats them differently (`profile['type']` of `null` raises on `.lower()`).
- The driver routines are left out: connecting, cursors, commits and the rows they return. They are the function parameter `connect`, and the record handlers' result is the SQL statement they would run.
- The per-type handlers of `execute_query`, `get_database_info` and `get_table_schema` for MySQL, PostgreSQL and SQL Server are left out. They are driver work; only which handler is reached is modelled.
- The `created_at`/`last_used` timestamps, the execution-time arithmetic (float milliseconds), and the traceback field of an error reply are left out.
- Renderer.ParseInt: JavaScript's float rounding of very long numerals is not modelled; the value is the exact integer.
- Text.Upper, Text.Lower: only ASCII letters change case, whereas Python and JavaScript map all of Unicode.
- Renderer.DatabaseIcon: a type named like an `Object.prototype` property, such as `toString`, is treated like any unknown type, unlike the source's object lookup.
- Renderer.Put: the key order of a JavaScript object with integer-like keys (which come first) is not modelled; keys keep their insertion order.
- Renderer.AppState.ConnectToDatabase, Renderer.AppState.ExecuteQuery: each is one atomic step here, while in the source other handlers can run during their awaits (renderer.js:187, 451). For example, deleting profile A while `connectToDatabase(A)` waits still leaves A as the session afterwards. So `Valid()`'s "the session's profile is saved" holds only for this sequential model.
- Backend.DatabaseManager.CreateConnection: a `uuid` already in the registry is overwritten, as the source would do. The source's collision-free `uuid4()` is stated only as the conditional key-set ensures.

## Findings

| source | as written | input that shows it | evidently intended | confidence | as-written member | corrected member |
|---|---|---|---|---|---|---|
| backend/app.py:276-290 | `_detect_query_type` looks only at the first keyword of the stripped text, so a query opening with a `--` comment line is 'other' | the renderer's own seeded editor text `-- Enter your SQL query here\nSELECT * FROM your_table LIMIT 10;` (renderer.js:835) is classified 'other', so it runs as a non-select and its rows are not fetched | leading comment lines skipped before classifying, so the seeded text is a select | not executed | Backend.SeededQueryAsWritten | Backend.SeededQueryAfterComments |
| backend/app.py:223 | `create_connection` stores `db_type=profile['type']` as sent, while it chose the driver by `profile['type'].lower()` | a profile with type `SQLite` connects, and then every operation that checks the type replies "Unsupported database type: SQLite" (only `close_connection` still works) | the lower-cased type stored, as used to select the driver | not executed | Backend.MixedCaseRegistryAsWritten | Backend.StoredTypeDispatches |
