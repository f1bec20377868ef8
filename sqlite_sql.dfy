/** The SQL text the backend builds for its SQLite CRUD operations
    (`_insert_sqlite_record`, `_update_sqlite_record`, `_delete_sqlite_record`,
    `_select_sqlite_records` in backend/app.py). Each builder yields the statement text with
    `?` placeholders and the ordered parameter list handed to `cursor.execute`; running the
    statement is the driver's business and is not modelled. Table and column names are pasted
    into the text unquoted, as the source does, so a name holding `?` adds a placeholder of its
    own: every count below says so. */
module SqliteSql {
  import opened Text

  /** A JSON scalar as it arrives in a request body and is bound to a placeholder. */
  datatype Param = Str(s: string) | Num(n: int) | Bool(b: bool) | Null

  /** A Python dict from column name to value, in insertion order. */
  type Dict = seq<(string, Param)>

  datatype Statement = Statement(sql: string, params: seq<Param>)

  /** `list(d.keys())` */
  function Keys(d: Dict): (r: seq<string>)
    ensures |r| == |d| && forall i :: 0 <= i < |d| ==> r[i] == d[i].0
  {
    seq(|d|, i requires 0 <= i < |d| => d[i].0)
  }

  /** `list(d.values())` */
  function Values(d: Dict): (r: seq<Param>)
    ensures |r| == |d| && forall i :: 0 <= i < |d| ==> r[i] == d[i].1
  {
    seq(|d|, i requires 0 <= i < |d| => d[i].1)
  }

  /** `['?' for _ in columns]` */
  function Placeholders(columns: seq<string>): (r: seq<string>)
    ensures |r| == |columns| && forall i :: 0 <= i < |r| ==> r[i] == "?"
  {
    seq(|columns|, i requires 0 <= i < |columns| => "?")
  }

  /** `[f"{col} = ?" for col in columns]` */
  function Assignments(columns: seq<string>): (r: seq<string>)
    ensures |r| == |columns| && forall i :: 0 <= i < |r| ==> r[i] == columns[i] + " = ?"
  {
    seq(|columns|, i requires 0 <= i < |columns| => columns[i] + " = ?")
  }

  /** Number of `?` written into the text by the identifiers of a statement. */
  function NameMarks(names: seq<string>): nat {
    OccurrencesIn(names, '?')
  }

  lemma {:induction false} PlaceholdersMarks(columns: seq<string>)
    ensures OccurrencesIn(Placeholders(columns), '?') == |columns|
  {
    if columns != [] {
      assert Placeholders(columns)[1..] == Placeholders(columns[1..]);
      PlaceholdersMarks(columns[1..]);
    }
  }

  lemma {:induction false} AssignmentsMarks(columns: seq<string>)
    ensures OccurrencesIn(Assignments(columns), '?') == NameMarks(columns) + |columns|
  {
    if columns != [] {
      assert Assignments(columns)[1..] == Assignments(columns[1..]);
      AssignmentsMarks(columns[1..]);
      OccurrencesConcat(columns[0], " = ?", '?');
    }
  }

  /** `' AND '.join(f"{col} = ?" for col in columns)` with its `?` count. */
  function Conjunction(columns: seq<string>): (r: string)
    ensures Occurrences(r, '?') == NameMarks(columns) + |columns|
  {
    OccurrencesJoin(" AND ", Assignments(columns), '?');
    AssignmentsMarks(columns);
    Join(" AND ", Assignments(columns))
  }

  /** The INSERT text: `INSERT INTO t (c1, c2) VALUES (?, ?)`. */
  function InsertText(table: string, columns: seq<string>): string {
    "INSERT INTO " + table + " (" + Join(", ", columns) + ") VALUES (" + Join(", ", Placeholders(columns)) + ")"
  }

  lemma {:induction false} InsertKeywordsMarks()
    ensures Occurrences("INSERT INTO ", '?') == Occurrences(" (", '?') == 0
    ensures Occurrences(") VALUES (", '?') == Occurrences(")", '?') == 0
  {
    InsertIntoMarks();
    ValuesKeywordMarks();
  }

  lemma {:induction false} InsertIntoMarks()
    ensures Occurrences("INSERT INTO ", '?') == Occurrences(" (", '?') == 0
  {
    InsertKeywordMarks();
    OccurrencesAbsent(" (", '?');
  }

  lemma {:induction false} InsertKeywordMarks()
    ensures Occurrences("INSERT INTO ", '?') == 0
  {
    OccurrencesAbsent("INSERT INTO ", '?');
  }

  lemma {:induction false} ValuesKeywordMarks()
    ensures Occurrences(") VALUES (", '?') == Occurrences(")", '?') == 0
  {
    OccurrencesAbsent(") VALUES (", '?');
    OccurrencesAbsent(")", '?');
  }

  lemma {:induction false} InsertTextMarks(table: string, columns: seq<string>)
    ensures Occurrences(InsertText(table, columns), '?') == |columns| + Occurrences(table, '?') + NameMarks(columns)
  {
    var names := Join(", ", columns);
    var marks := Join(", ", Placeholders(columns));
    OccurrencesAbsent(", ", '?');
    OccurrencesJoin(", ", columns, '?');
    OccurrencesJoin(", ", Placeholders(columns), '?');
    PlaceholdersMarks(columns);
    InsertKeywordsMarks();
    var s1 := "INSERT INTO " + table;
    var s2 := s1 + " (";
    var s3 := s2 + names;
    var s4 := s3 + ") VALUES (";
    var s5 := s4 + marks;
    OccurrencesConcat("INSERT INTO ", table, '?');
    OccurrencesConcat(s1, " (", '?');
    OccurrencesConcat(s2, names, '?');
    OccurrencesConcat(s3, ") VALUES (", '?');
    OccurrencesConcat(s4, marks, '?');
    OccurrencesConcat(s5, ")", '?');
  }

  /** `_insert_sqlite_record`: the values are bound in column order, one `?` per column. */
  function InsertSql(table: string, values: Dict): (r: Statement)
    ensures r.params == Values(values)
    ensures Occurrences(r.sql, '?') == |r.params| + Occurrences(table, '?') + NameMarks(Keys(values))
  {
    InsertTextMarks(table, Keys(values));
    Statement(InsertText(table, Keys(values)), Values(values))
  }

  /** The UPDATE text: `UPDATE t SET a = ?, b = ? WHERE k = ? AND ...`. */
  function UpdateText(table: string, columns: seq<string>, whereColumns: seq<string>): string {
    "UPDATE " + table + " SET " + Join(", ", Assignments(columns)) + " WHERE " + Conjunction(whereColumns)
  }

  lemma {:induction false} UpdateKeywordsMarks()
    ensures Occurrences("UPDATE ", '?') == Occurrences(" SET ", '?') == Occurrences(" WHERE ", '?') == 0
  {
    UpdateKeywordMarks();
    OccurrencesAbsent(" SET ", '?');
    WhereKeywordMarks();
  }

  lemma {:induction false} UpdateKeywordMarks()
    ensures Occurrences("UPDATE ", '?') == 0
  {
    OccurrencesAbsent("UPDATE ", '?');
  }

  lemma {:induction false} UpdateTextMarks(table: string, columns: seq<string>, whereColumns: seq<string>)
    ensures Occurrences(UpdateText(table, columns, whereColumns), '?')
         == |columns| + |whereColumns| + Occurrences(table, '?') + NameMarks(columns) + NameMarks(whereColumns)
  {
    var setClause := Join(", ", Assignments(columns));
    OccurrencesAbsent(", ", '?');
    OccurrencesJoin(", ", Assignments(columns), '?');
    AssignmentsMarks(columns);
    var whereClause := Conjunction(whereColumns);
    UpdateKeywordsMarks();
    var s1 := "UPDATE " + table;
    var s2 := s1 + " SET ";
    var s3 := s2 + setClause;
    var s4 := s3 + " WHERE ";
    OccurrencesConcat("UPDATE ", table, '?');
    OccurrencesConcat(s1, " SET ", '?');
    OccurrencesConcat(s2, setClause, '?');
    OccurrencesConcat(s3, " WHERE ", '?');
    OccurrencesConcat(s4, whereClause, '?');
  }

  /** `_update_sqlite_record`: the SET values are bound first, then the WHERE values. */
  function UpdateSql(table: string, values: Dict, whereConditions: Dict): (r: Statement)
    ensures r.params == Values(values) + Values(whereConditions)
    ensures r.params[..|values|] == Values(values) && r.params[|values|..] == Values(whereConditions)
    ensures Occurrences(r.sql, '?')
         == |r.params| + Occurrences(table, '?') + NameMarks(Keys(values)) + NameMarks(Keys(whereConditions))
  {
    UpdateTextMarks(table, Keys(values), Keys(whereConditions));
    Statement(UpdateText(table, Keys(values), Keys(whereConditions)), Values(values) + Values(whereConditions))
  }

  /** The DELETE text: `DELETE FROM t WHERE k = ? AND ...`. */
  function DeleteText(table: string, whereColumns: seq<string>): string {
    "DELETE FROM " + table + " WHERE " + Conjunction(whereColumns)
  }

  lemma {:induction false} DeleteKeywordsMarks()
    ensures Occurrences("DELETE FROM ", '?') == Occurrences(" WHERE ", '?') == 0
  {
    DeleteFromMarks();
    WhereKeywordMarks();
  }

  lemma {:induction false} DeleteFromMarks()
    ensures Occurrences("DELETE FROM ", '?') == 0
  {
    OccurrencesAbsent("DELETE FROM ", '?');
  }

  lemma {:induction false} WhereKeywordMarks()
    ensures Occurrences(" WHERE ", '?') == 0
  {
    OccurrencesAbsent(" WHERE ", '?');
  }

  lemma {:induction false} DeleteTextMarks(table: string, whereColumns: seq<string>)
    ensures Occurrences(DeleteText(table, whereColumns), '?')
         == |whereColumns| + Occurrences(table, '?') + NameMarks(whereColumns)
  {
    var whereClause := Conjunction(whereColumns);
    DeleteKeywordsMarks();
    var s1 := "DELETE FROM " + table;
    var s2 := s1 + " WHERE ";
    OccurrencesConcat("DELETE FROM ", table, '?');
    OccurrencesConcat(s1, " WHERE ", '?');
    OccurrencesConcat(s2, whereClause, '?');
  }

  /** `_delete_sqlite_record`: only the WHERE values are bound. */
  function DeleteSql(table: string, whereConditions: Dict): (r: Statement)
    ensures r.params == Values(whereConditions)
    ensures Occurrences(r.sql, '?') == |r.params| + Occurrences(table, '?') + NameMarks(Keys(whereConditions))
  {
    DeleteTextMarks(table, Keys(whereConditions));
    Statement(DeleteText(table, Keys(whereConditions)), Values(whereConditions))
  }

  /** The select list: `', '.join(columns) if columns != ['*'] else '*'`. */
  function SelectList(columns: seq<string>): string {
    if columns != ["*"] then Join(", ", columns) else "*"
  }

  /** The select list is the bare `*` exactly when the columns are exactly `['*']`. */
  lemma {:induction false} SelectListStar(columns: seq<string>)
    ensures SelectList(columns) == "*" <==> columns == ["*"]
  {
    if |columns| >= 2 {
      JoinLength(", ", columns);
    }
  }

  lemma {:induction false} SelectListMarks(columns: seq<string>)
    ensures Occurrences(SelectList(columns), '?') == NameMarks(columns)
  {
    OccurrencesAbsent(", ", '?');
    OccurrencesJoin(", ", columns, '?');
    if columns == ["*"] {
      assert columns[1..] == [];
    }
  }

  /** `f"WHERE {...}"` when there are conditions (a non-empty dict is truthy), else ''. */
  function WhereClause(whereConditions: Dict): string {
    if |whereConditions| > 0 then "WHERE " + Conjunction(Keys(whereConditions)) else ""
  }

  lemma {:induction false} WhereClauseMarks(whereConditions: Dict)
    ensures Occurrences(WhereClause(whereConditions), '?') == NameMarks(Keys(whereConditions)) + |whereConditions|
  {
    if |whereConditions| > 0 {
      OccurrencesAbsent("WHERE ", '?');
      OccurrencesConcat("WHERE ", Conjunction(Keys(whereConditions)), '?');
    } else {
      assert Keys(whereConditions) == [];
    }
  }

  /** The SELECT text up to and including the space after the table name. */
  function SelectHead(table: string, columns: seq<string>): string {
    "SELECT " + SelectList(columns) + " FROM " + table + " "
  }

  /** The closing clause; its two placeholders take the limit and the offset. */
  const LimitOffset := " LIMIT " + "?" + " OFFSET " + "?"

  lemma {:induction false} LimitOffsetMarks()
    ensures |LimitOffset| == 17 && Occurrences(LimitOffset, '?') == 2
  {
    OccurrencesAbsent(" LIMIT ", '?');
    OccurrencesAbsent(" OFFSET ", '?');
    OccurrencesConcat(" LIMIT ", "?", '?');
    OccurrencesConcat(" LIMIT " + "?", " OFFSET ", '?');
    OccurrencesConcat(" LIMIT " + "?" + " OFFSET ", "?", '?');
  }

  function SelectText(table: string, columns: seq<string>, whereConditions: Dict): string {
    SelectHead(table, columns) + WhereClause(whereConditions) + LimitOffset
  }

  lemma {:induction false} SelectTextMarks(table: string, columns: seq<string>, whereConditions: Dict)
    ensures Occurrences(SelectText(table, columns, whereConditions), '?')
         == |whereConditions| + 2 + Occurrences(table, '?') + NameMarks(columns) + NameMarks(Keys(whereConditions))
  {
    var list := SelectList(columns);
    var whereClause := WhereClause(whereConditions);
    SelectListMarks(columns);
    WhereClauseMarks(whereConditions);
    LimitOffsetMarks();
    OccurrencesAbsent("SELECT ", '?');
    OccurrencesAbsent(" FROM ", '?');
    OccurrencesAbsent(" ", '?');
    var s1 := "SELECT " + list;
    var s2 := s1 + " FROM ";
    var s3 := s2 + table;
    var s4 := s3 + " ";
    var s5 := s4 + whereClause;
    OccurrencesConcat("SELECT ", list, '?');
    OccurrencesConcat(s1, " FROM ", '?');
    OccurrencesConcat(s2, table, '?');
    OccurrencesConcat(s3, " ", '?');
    OccurrencesConcat(s4, whereClause, '?');
    OccurrencesConcat(s5, LimitOffset, '?');
  }

  /** `_select_sqlite_records`: the WHERE values are bound first and `limit`, `offset` are
      always the last two parameters. */
  function SelectSql(table: string, columns: seq<string>, whereConditions: Dict, limit: Param, offset: Param)
    : (r: Statement)
    ensures r.params == Values(whereConditions) + [limit, offset]
    ensures |r.params| >= 2 && r.params[|r.params| - 2] == limit && r.params[|r.params| - 1] == offset
    ensures Occurrences(r.sql, '?')
         == |r.params| + Occurrences(table, '?') + NameMarks(columns) + NameMarks(Keys(whereConditions))
  {
    SelectTextMarks(table, columns, whereConditions);
    Statement(SelectText(table, columns, whereConditions), Values(whereConditions) + [limit, offset])
  }

  /** The statement opens with the select list and the table and closes with the
      `LIMIT ? OFFSET ?` clause whose placeholders are the last two parameters. */
  lemma {:induction false} SelectShape(table: string, columns: seq<string>, whereConditions: Dict, limit: Param, offset: Param)
    ensures StartsWith(SelectSql(table, columns, whereConditions, limit, offset).sql, SelectHead(table, columns))
    ensures var sql := SelectSql(table, columns, whereConditions, limit, offset).sql;
      |sql| >= |LimitOffset| && sql[|sql| - |LimitOffset|..] == LimitOffset
  {
    var head := SelectHead(table, columns);
    var rest := WhereClause(whereConditions);
    var sql := head + rest + LimitOffset;
    StartsWithConcat(head, rest);
    StartsWithConcat(head + rest, LimitOffset);
    StartsWithTransitive(sql, head + rest, head);
    assert sql[|head + rest|..] == LimitOffset;
  }

  /** Without conditions the statement carries no WHERE clause at all and binds only the
      limit and the offset. */
  lemma {:induction false} SelectWithoutConditions(table: string, columns: seq<string>, limit: Param, offset: Param)
    ensures SelectSql(table, columns, [], limit, offset).params == [limit, offset]
    ensures SelectSql(table, columns, [], limit, offset).sql == SelectHead(table, columns) + LimitOffset
  {
    var head := SelectHead(table, columns);
    assert head + "" == head;
  }

  /** With conditions the text right after the head is `WHERE ` followed by the conditions,
      one `col = ?` per key. */
  lemma {:induction false} SelectWithConditions(table: string, columns: seq<string>, whereConditions: Dict, limit: Param, offset: Param)
    requires |whereConditions| > 0
    ensures StartsWith(SelectSql(table, columns, whereConditions, limit, offset).sql,
                       SelectHead(table, columns) + "WHERE " + Conjunction(Keys(whereConditions)))
  {
    var head := SelectHead(table, columns);
    var rest := "WHERE " + Conjunction(Keys(whereConditions));
    assert head + rest == head + "WHERE " + Conjunction(Keys(whereConditions));
    StartsWithConcat(head + rest, LimitOffset);
  }

  /** When no identifier contains `?`, every statement has exactly one placeholder per
      parameter. */
  lemma {:induction false} PlaceholdersMatchParams(table: string, columns: seq<string>, values: Dict, whereConditions: Dict, limit: Param, offset: Param)
    requires Occurrences(table, '?') == 0
    requires NameMarks(columns) == 0 && NameMarks(Keys(values)) == 0 && NameMarks(Keys(whereConditions)) == 0
    ensures Occurrences(InsertSql(table, values).sql, '?') == |InsertSql(table, values).params| == |values|
    ensures Occurrences(UpdateSql(table, values, whereConditions).sql, '?')
         == |UpdateSql(table, values, whereConditions).params| == |values| + |whereConditions|
    ensures Occurrences(DeleteSql(table, whereConditions).sql, '?')
         == |DeleteSql(table, whereConditions).params| == |whereConditions|
    ensures Occurrences(SelectSql(table, columns, whereConditions, limit, offset).sql, '?')
         == |SelectSql(table, columns, whereConditions, limit, offset).params| == |whereConditions| + 2
  {
    var ins := InsertSql(table, values);
    var upd := UpdateSql(table, values, whereConditions);
    var del := DeleteSql(table, whereConditions);
    var sel := SelectSql(table, columns, whereConditions, limit, offset);
  }
}
