/**
 * Opening a database: `test_db_connection` (the check run when the user presses "Connect")
 * and `get_db_connection` (the connection each query opens).
 *
 * The drivers and `os.path.exists` are not modelled; they are a `Backend` parameter:
 * `connect` says how the driver call for a given attempt ends, `close` how closing the
 * connection it opened ends, and `pathExists` whether a file path exists. The arguments
 * passed to a driver are part of the attempt, so the default ports can be seen.
 */
module Connection {
  import opened Wrappers

  /** The two server databases; SQLite is opened from a file. */
  datatype ServerKind = MySQL | PostgreSQL

  /** The `db_type` string that selects a server kind. */
  function KindName(kind: ServerKind): string {
    match kind
    case MySQL => "MySQL"
    case PostgreSQL => "PostgreSQL"
  }

  const SqliteName := "SQLite"

  /** Every message that reports a failure starts with this mark, every success with `SuccessMark`. */
  const FailureMark := "❌ "
  const SuccessMark := "✅ "

  /** A failure message: the mark, then the detail. */
  function FailureText(detail: string): (m: string)
    ensures FailureMark <= m && !(SuccessMark <= m)
    ensures m[|FailureMark|..] == detail
  {
    assert (FailureMark + detail)[0] == '❌';
    FailureMark + detail
  }

  /** A success message: the mark, then the detail. */
  function SuccessText(detail: string): (m: string)
    ensures SuccessMark <= m && !(FailureMark <= m)
    ensures m[|SuccessMark|..] == detail
  {
    assert (SuccessMark + detail)[0] == '✅';
    SuccessMark + detail
  }

  /** The port a driver falls back to: `port or 3306` for MySQL, `port or 5432` for PostgreSQL. */
  function DriverDefaultPort(kind: ServerKind): nat {
    match kind
    case MySQL => 3306
    case PostgreSQL => 5432
  }

  /** Python's `port or fallback`: a missing port and the port 0 are both falsy. */
  function PortOr(port: Option<int>, fallback: int): (p: int)
    ensures p == fallback <==> port == None || port == Some(0) || port == Some(fallback)
    ensures p != fallback ==> port == Some(p)
  {
    if port == None || port == Some(0) then fallback else port.value
  }

  /** One driver call: the keyword arguments of `mysql.connector.connect` / `psycopg2.connect`,
      or the path given to `sqlite3.connect`. */
  datatype Attempt =
    | ServerAttempt(kind: ServerKind, host: Option<string>, user: Option<string>,
                    password: Option<string>, database: string, port: int)
    | FileAttempt(path: string)

  /** How a driver call ends, named after what it raises. */
  datatype DriverOutcome =
    | NoError                             // the call returned normally
    | MySqlAccessDenied                   // mysql.connector.Error, errno ER_ACCESS_DENIED_ERROR
    | MySqlBadDatabase                    // mysql.connector.Error, errno ER_BAD_DB_ERROR
    | MySqlFailure(message: string)       // any other mysql.connector.Error
    | PostgresFailure(message: string)    // psycopg2.Error
    | SqliteFailure(message: string)      // sqlite3.Error
    | OtherFailure(message: string)       // any other Exception

  /** The outside world the two functions consult. */
  datatype Backend = Backend(connect: Attempt -> DriverOutcome, close: Attempt -> DriverOutcome,
                             pathExists: string -> bool)

  /** `s` ends with `e`. */
  predicate EndsWith(s: string, e: string) {
    |e| <= |s| && s[|s| - |e|..] == e
  }

  /** The outcomes that carry the driver's own error text, `str(err)`. */
  predicate CarriesText(outcome: DriverOutcome) {
    outcome.MySqlFailure? || outcome.PostgresFailure? || outcome.SqliteFailure? || outcome.OtherFailure?
  }

  /** The arguments `db_type, host, user, password, database, port` of both functions. */
  datatype ConnParams = ConnParams(dbType: string, host: Option<string>, user: Option<string>,
                                   password: Option<string>, database: string, port: Option<int>)

  /** The driver call the dispatch on `db_type` makes, or `None` for an unsupported type.
      For SQLite the call is only made when the file exists. */
  function RequestedAttempt(p: ConnParams): (a: Option<Attempt>)
    ensures a.None? <==> p.dbType != "MySQL" && p.dbType != "PostgreSQL" && p.dbType != SqliteName
    ensures a.Some? && a.value.FileAttempt? <==> p.dbType == SqliteName
    ensures a.Some? && a.value.FileAttempt? ==> a.value.path == p.database
    ensures a.Some? && a.value.ServerAttempt? ==>
      && KindName(a.value.kind) == p.dbType
      && a.value.host == p.host && a.value.user == p.user && a.value.password == p.password
      && a.value.database == p.database
      && (p.port == None || p.port == Some(0) ==> a.value.port == DriverDefaultPort(a.value.kind))
      && (p.port.Some? && p.port.value != 0 ==> a.value.port == p.port.value)
  {
    if p.dbType == "MySQL" then
      Some(ServerAttempt(MySQL, p.host, p.user, p.password, p.database, PortOr(p.port, 3306)))
    else if p.dbType == "PostgreSQL" then
      Some(ServerAttempt(PostgreSQL, p.host, p.user, p.password, p.database, PortOr(p.port, 5432)))
    else if p.dbType == SqliteName then
      Some(FileAttempt(p.database))
    else
      None
  }

  /** The `(success, message)` pair `test_db_connection` returns. */
  datatype TestResult = TestResult(success: bool, message: string)

  /** The message `test_db_connection` returns when a driver call raised. */
  function TestFailureMessage(outcome: DriverOutcome, database: string): (m: string)
    requires outcome != NoError
    ensures FailureMark <= m
    ensures CarriesText(outcome) ==> EndsWith(m, outcome.message)
  {
    match outcome
    case MySqlAccessDenied => FailureText("Access denied. Please check your username and password")
    case MySqlBadDatabase => FailureText("Database '" + database + "' does not exist")
    case MySqlFailure(e) => FailureText("MySQL Error: " + e)
    case PostgresFailure(e) => FailureText("PostgreSQL Error: " + e)
    case SqliteFailure(e) => FailureText("SQLite Error: " + e)
    case OtherFailure(e) => FailureText("Unexpected error: " + e)
  }

  /** The SQLite file is there, or the type is not SQLite: the driver call is made. */
  predicate FileFound(p: ConnParams, b: Backend) {
    p.dbType == SqliteName ==> b.pathExists(p.database)
  }

  /** `test_db_connection`: open and close a connection, and say how it went. */
  function TestConnection(p: ConnParams, b: Backend): (r: TestResult)
    ensures r.success <==>
      && RequestedAttempt(p).Some?
      && FileFound(p, b)
      && b.connect(RequestedAttempt(p).value) == NoError
      && b.close(RequestedAttempt(p).value) == NoError
    ensures r.success <==> SuccessMark <= r.message
    ensures RequestedAttempt(p).None? ==> r == TestResult(false, FailureText("Unsupported database type: " + p.dbType))
    ensures !FileFound(p, b) ==> r == TestResult(false, FailureText("SQLite database file not found"))
    ensures RequestedAttempt(p).Some? && FileFound(p, b) ==>
      var a := RequestedAttempt(p).value;
      && (b.connect(a) != NoError ==> r == TestResult(false, TestFailureMessage(b.connect(a), p.database)))
      && (b.connect(a) == NoError && b.close(a) != NoError ==>
            r == TestResult(false, TestFailureMessage(b.close(a), p.database)))
    ensures r.success ==> r.message == SuccessText("Successfully connected to " + p.dbType + " database")
  {
    match RequestedAttempt(p)
    case None => TestResult(false, FailureText("Unsupported database type: " + p.dbType))
    case Some(attempt) =>
      if attempt.FileAttempt? && !b.pathExists(attempt.path) then
        TestResult(false, FailureText("SQLite database file not found"))
      else
        var connected := b.connect(attempt);
        if connected != NoError then
          TestResult(false, TestFailureMessage(connected, p.database))
        else
          var closed := b.close(attempt);
          if closed != NoError then
            TestResult(false, TestFailureMessage(closed, p.database))
          else
            TestResult(true, SuccessText("Successfully connected to " + p.dbType + " database"))
  }

  /** The message `get_db_connection` shows, just before `st.stop()`, when it cannot connect. */
  function OpenFailureMessage(outcome: DriverOutcome, database: string): (m: string)
    requires outcome != NoError
    ensures FailureMark <= m
    ensures CarriesText(outcome) ==> EndsWith(m, outcome.message)
  {
    match outcome
    case MySqlAccessDenied => FailureText("Database access denied. Please check your username and password.")
    case MySqlBadDatabase => FailureText("Database '" + database + "' does not exist.")
    case MySqlFailure(e) => FailureText("MySQL Error: " + e)
    case PostgresFailure(e) => FailureText("PostgreSQL Error: " + e)
    case SqliteFailure(e) => FailureText("SQLite Error: " + e)
    case OtherFailure(e) => UnexpectedOpenError(e)
  }

  /** The `except Exception` branch of `get_db_connection`, which also catches its own
      `FileNotFoundError` and `ValueError`. */
  function UnexpectedOpenError(e: string): string {
    FailureText("Unexpected error during database connection: " + e)
  }

  /** `get_db_connection`: the open connection (named by the driver call that produced it), or
      the error message shown before the script is stopped. */
  function GetConnection(p: ConnParams, b: Backend): (r: Result<Attempt, string>)
    ensures r.Success? ==> Some(r.value) == RequestedAttempt(p) && b.connect(r.value) == NoError
    ensures RequestedAttempt(p).None? ==>
      r == Failure(UnexpectedOpenError("Unsupported database type: " + p.dbType))
    ensures !FileFound(p, b) ==>
      r == Failure(UnexpectedOpenError("SQLite database file not found: " + p.database))
    ensures RequestedAttempt(p).Some? && FileFound(p, b) ==>
      var a := RequestedAttempt(p).value;
      && (b.connect(a) == NoError ==> r == Success(a))
      && (b.connect(a) != NoError ==> r == Failure(OpenFailureMessage(b.connect(a), p.database)))
    ensures r.Failure? ==> FailureMark <= r.error
  {
    match RequestedAttempt(p)
    case None => Failure(UnexpectedOpenError("Unsupported database type: " + p.dbType))
    case Some(attempt) =>
      if attempt.FileAttempt? && !b.pathExists(attempt.path) then
        Failure(UnexpectedOpenError("SQLite database file not found: " + p.database))
      else
        var outcome := b.connect(attempt);
        if outcome == NoError then Success(attempt) else Failure(OpenFailureMessage(outcome, p.database))
  }

  /** The test run at "Connect" succeeds exactly when a query's own connection would open, for
      the same parameters and the same driver behaviour, and closing it afterwards raises
      nothing. A test can therefore fail, on `close()`, for settings a query connects with. */
  lemma TestPredictsConnection(p: ConnParams, b: Backend)
    ensures TestConnection(p, b).success <==>
      GetConnection(p, b).Success? && b.close(GetConnection(p, b).value) == NoError
  {
  }
}
