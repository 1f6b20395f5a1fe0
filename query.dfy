/**
 * Running the generated query (`execute_sql_query`) and deciding what the results area shows.
 *
 * The cursor is not modelled: `CursorRun` is how `conn.cursor()`, `cursor.execute(sql)`,
 * `cursor.description` and `cursor.fetchall()` turn out for one statement on one connection,
 * and a `Runner` gives that outcome for the connection opened and the sanitised SQL.
 */
module Query {
  import opened Wrappers
  import opened Connection
  import opened Sanitiser

  /** A value in a fetched row. */
  datatype Value = NullValue | IntValue(i: int) | TextValue(s: string) | OtherValue(repr: string)

  type Row = seq<Value>

  /** One entry of `cursor.description`: the column name first, then six further fields
      (type code, display size, ...), which the app never reads. */
  datatype ColumnDescription = ColumnDescription(name: string, details: seq<Value>)

  /** How the cursor steps turn out. `fetched` is what `fetchall()` gives if it is called. */
  datatype CursorRun =
    | CursorFailed(message: string)                  // `conn.cursor()` raised
    | ExecuteFailed(message: string)                 // `cursor.execute(sql)` raised
    | Executed(description: Option<seq<ColumnDescription>>, fetched: Result<seq<Row>, string>)

  /** The cursor, as a function of the open connection and the statement executed on it. */
  type Runner = (Attempt, string) -> CursorRun

  /** What `execute_sql_query` returns, with the error lines it shows on the way. `Halted` is
      the run ended by `st.stop()` inside `get_db_connection`. */
  datatype QueryOutcome =
    | Halted(message: string)
    | Returned(columns: Option<seq<string>>, rows: Option<seq<Row>>, errors: seq<string>)

  /** `[col[0] for col in cursor.description]` */
  function ColumnNames(description: seq<ColumnDescription>): (names: seq<string>)
    ensures |names| == |description|
    ensures forall k :: 0 <= k < |description| ==> names[k] == description[k].name
  {
    if description == [] then [] else [description[0].name] + ColumnNames(description[1..])
  }

  const SqlErrorHint := "Please check your SQL query syntax and table structure."

  /** What `execute_sql_query` returns, stated as a function of its inputs. */
  function QueryResult(sqlQuery: string, p: ConnParams, b: Backend, run: Runner): (out: QueryOutcome)
    ensures out.Halted? <==> GetConnection(p, b).Failure?
    ensures out.Halted? ==> out.message == GetConnection(p, b).error
    ensures out.Returned? ==> (out.columns.Some? <==> out.rows.Some?)
    ensures out.Returned? && out.columns.Some? ==> out.errors == []
    ensures GetConnection(p, b).Success? ==>
      var cursor := run(GetConnection(p, b).value, Sanitise(sqlQuery));
      && (out.columns.Some? <==>
            cursor.Executed? && cursor.description.Some? && cursor.description.value != []
            && cursor.fetched.Success?)
      && (out.columns.Some? ==>
            out.columns.value == ColumnNames(cursor.description.value)
            && out.rows.value == cursor.fetched.value)
      && (cursor.Executed? && (cursor.description.None? || cursor.description.value == []) ==>
            out == Returned(None, None, []))
      && (cursor.ExecuteFailed? ==>
            out == Returned(None, None, [FailureText("SQL Query Error: " + cursor.message), SqlErrorHint]))
      && (cursor.CursorFailed? ==>
            out == Returned(None, None, [FailureText("Database Error: " + cursor.message)]))
      && (cursor.Executed? && cursor.description.Some? && cursor.description.value != []
          && cursor.fetched.Failure? ==>
            out == Returned(None, None, [FailureText("Database Error: " + cursor.fetched.error)]))
  {
    var sql := Sanitise(sqlQuery);
    match GetConnection(p, b)
    case Failure(message) => Halted(message)
    case Success(conn) =>
      match run(conn, sql)
      case CursorFailed(message) => Returned(None, None, [FailureText("Database Error: " + message)])
      case ExecuteFailed(message) =>
        Returned(None, None, [FailureText("SQL Query Error: " + message), SqlErrorHint])
      case Executed(description, fetched) =>
        if description.None? || description.value == [] then Returned(None, None, [])
        else if fetched.Failure? then Returned(None, None, [FailureText("Database Error: " + fetched.error)])
        else Returned(Some(ColumnNames(description.value)), Some(fetched.value), [])
  }

  /** `execute_sql_query`, step by step with its early returns. */
  method ExecuteSqlQuery(sqlQuery: string, p: ConnParams, b: Backend, run: Runner) returns (out: QueryOutcome)
    ensures out == QueryResult(sqlQuery, p, b, run)
  {
    var sql := Sanitise(sqlQuery);
    var conn := GetConnection(p, b);
    if conn.Failure? {
      return Halted(conn.error);
    }
    var cursor := run(conn.value, sql);
    if cursor.CursorFailed? {
      return Returned(None, None, [FailureText("Database Error: " + cursor.message)]);
    }
    if cursor.ExecuteFailed? {
      return Returned(None, None, [FailureText("SQL Query Error: " + cursor.message), SqlErrorHint]);
    }
    if cursor.description.Some? && cursor.description.value != [] {
      var columns := ColumnNames(cursor.description.value);
      if cursor.fetched.Failure? {
        return Returned(None, None, [FailureText("Database Error: " + cursor.fetched.error)]);
      }
      return Returned(Some(columns), Some(cursor.fetched.value), []);
    }
    return Returned(None, None, []);
  }

  /** What the results area shows. */
  datatype Display =
    | ResultsTable(columns: seq<string>, rows: seq<Row>, lineChart: bool)
    | NoResults

  /** `if columns and data: ... else: st.info(...)`. `hasNumericColumn` stands for pandas finding
      a numeric column in the frame; a line chart is offered only then. */
  function Present(columns: Option<seq<string>>, rows: Option<seq<Row>>, hasNumericColumn: bool): (d: Display)
    ensures d.ResultsTable? <==> columns.Some? && columns.value != [] && rows.Some? && rows.value != []
    ensures d.ResultsTable? ==> d.columns == columns.value && d.rows == rows.value
    ensures d.ResultsTable? ==> (d.lineChart <==> hasNumericColumn)
  {
    if columns.Some? && columns.value != [] && rows.Some? && rows.value != [] then
      // `len(df) > 0`: the frame has one row per fetched row
      ResultsTable(columns.value, rows.value, |rows.value| > 0 && hasNumericColumn)
    else
      NoResults
  }

  /** A table is shown only for a statement that returned a described, non-empty result set;
      every error, and every statement without a description, ends in "No results". */
  lemma TableOnlyForResultSets(sqlQuery: string, p: ConnParams, b: Backend, run: Runner, hasNumericColumn: bool)
    requires QueryResult(sqlQuery, p, b, run).Returned?
    ensures var out := QueryResult(sqlQuery, p, b, run);
      var conn := GetConnection(p, b).value;
      var cursor := run(conn, Sanitise(sqlQuery));
      Present(out.columns, out.rows, hasNumericColumn).ResultsTable? <==>
        && cursor.Executed? && cursor.description.Some? && cursor.description.value != []
        && cursor.fetched.Success? && cursor.fetched.value != []
    ensures var out := QueryResult(sqlQuery, p, b, run);
      out.errors != [] ==> Present(out.columns, out.rows, hasNumericColumn) == NoResults
  {
  }
}
