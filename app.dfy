/**
 * The page's connection form, its session state and the "Analyze Data" handler (`main`).
 *
 * Only what the handlers decide is modelled: which form submissions are rejected, what the
 * session stores after a connection test, and what the page shows for a question. Widgets,
 * spinners and the sidebar text are not.
 */
module App {
  import opened Wrappers
  import opened Connection
  import opened Query

  /** A port accepted by `st.number_input(min_value=1, max_value=65535)`. */
  type FormPort = p: int | 1 <= p <= 65535 witness 3306

  /** The initial value of the port field (lines 183-184). */
  function FormDefaultPort(kind: ServerKind): (p: FormPort)
    ensures p == DriverDefaultPort(kind)
  {
    if kind == MySQL then 3306 else 5432
  }

  /** The form as submitted: a file path for SQLite, or the five server fields. */
  datatype ConnectForm =
    | SqliteForm(path: string)
    | ServerForm(kind: ServerKind, host: string, user: string, password: string, port: FormPort, name: string)

  /** The database type selected in the form (`db_type`). */
  function FormType(form: ConnectForm): string {
    match form
    case SqliteForm(_) => SqliteName
    case ServerForm(kind, _, _, _, _, _) => KindName(kind)
  }

  /** A value stored in `db_config`. */
  datatype ConfigValue = Text(text: string) | Number(n: int)

  /** The arguments the "Connect" handler passes to `test_db_connection`. */
  function TestParams(form: ConnectForm): ConnParams {
    match form
    case SqliteForm(path) => ConnParams(FormType(form), None, None, None, path, None)
    case ServerForm(_, host, user, password, port, name) =>
      ConnParams(FormType(form), Some(host), Some(user), Some(password), name, Some(port))
  }

  /** `db_config` after a successful test. */
  function ConfigFor(form: ConnectForm): (cfg: map<string, ConfigValue>)
    ensures form.SqliteForm? ==> cfg.Keys == {"type", "path"}
    ensures form.ServerForm? ==> cfg.Keys == {"type", "host", "user", "password", "database", "port"}
  {
    match form
    case SqliteForm(path) => map["type" := Text(FormType(form)), "path" := Text(path)]
    case ServerForm(_, host, user, password, port, name) =>
      map["type" := Text(FormType(form)), "host" := Text(host), "user" := Text(user),
          "password" := Text(password), "database" := Text(name), "port" := Number(port)]
  }

  /** A `db_config` that a successful connection can have left: exactly the keys for its type. */
  ghost predicate WellFormedConfig(cfg: map<string, ConfigValue>) {
    exists form: ConnectForm :: cfg == ConfigFor(form)
  }

  /** A well-formed configuration holds exactly the SQLite keys or exactly the server keys,
      tagged with the matching type. */
  lemma WellFormedConfigKeys(cfg: map<string, ConfigValue>)
    requires WellFormedConfig(cfg)
    ensures "type" in cfg && cfg["type"].Text?
    ensures cfg["type"] == Text(SqliteName) ==> cfg.Keys == {"type", "path"}
    ensures cfg["type"] != Text(SqliteName) ==>
      cfg.Keys == {"type", "host", "user", "password", "database", "port"}
      && cfg["type"].text in {"MySQL", "PostgreSQL"}
      && cfg["port"].Number? && 1 <= cfg["port"].n <= 65535
  {
    var form: ConnectForm :| cfg == ConfigFor(form);
    if form.ServerForm? {
      assert KindName(form.kind) != SqliteName;
    }
  }

  /** What pressing "Connect to Database" leads to. */
  datatype ConnectStep =
    | Rejected(message: string)                                    // a required field is empty
    | TestFailed(message: string)                                  // `test_db_connection` failed
    | Connected(message: string, config: map<string, ConfigValue>) // `db_config` to store

  const PathRequired := "❌ Database file path is required"
  const FieldsRequired := "❌ All fields are required"

  /** A required field of the form is empty (`not db_path`, `not all([...])`). */
  predicate MissingField(form: ConnectForm) {
    match form
    case SqliteForm(path) => path == ""
    case ServerForm(_, host, user, password, _, name) => host == "" || user == "" || password == "" || name == ""
  }

  /** The "Connect to Database" handler, as a function of the form and the backend. */
  function ConnectOutcome(form: ConnectForm, b: Backend): (r: ConnectStep)
    ensures r.Rejected? <==> MissingField(form)
    ensures r.Rejected? ==> r.message == (if form.SqliteForm? then PathRequired else FieldsRequired)
    ensures !r.Rejected? ==>
      (r.Connected? <==> TestConnection(TestParams(form), b).success)
      && r.message == TestConnection(TestParams(form), b).message
    ensures r.Connected? ==> r.config == ConfigFor(form) && WellFormedConfig(r.config)
  {
    if MissingField(form) then
      Rejected(if form.SqliteForm? then PathRequired else FieldsRequired)
    else
      var test := TestConnection(TestParams(form), b);
      if test.success then Connected(test.message, ConfigFor(form)) else TestFailed(test.message)
  }

  /** A rejected form runs no connection test: the outcome does not depend on the backend. */
  lemma RejectionRunsNoTest(form: ConnectForm, b1: Backend, b2: Backend)
    requires MissingField(form)
    ensures ConnectOutcome(form, b1) == ConnectOutcome(form, b2)
  {
  }

  /** The arguments `main` passes to `execute_sql_query`, read back from `db_config`. */
  function QueryParams(cfg: map<string, ConfigValue>): ConnParams
    requires WellFormedConfig(cfg)
  {
    if cfg["type"] == Text(SqliteName) then
      ConnParams(SqliteName, None, None, None, cfg["path"].text, None)
    else
      ConnParams(cfg["type"].text, Some(cfg["host"].text), Some(cfg["user"].text),
                 Some(cfg["password"].text), cfg["database"].text, Some(cfg["port"].n))
  }

  /** Each query connects with exactly the parameters that passed the connection test. */
  lemma QueryUsesTestedParams(form: ConnectForm)
    ensures WellFormedConfig(ConfigFor(form))
    ensures QueryParams(ConfigFor(form)) == TestParams(form)
  {
    match form
    case SqliteForm(_) =>
    case ServerForm(kind, _, _, _, _, _) =>
      assert KindName(kind) != SqliteName;
  }

  const ApiKeyHint := "Please check if your Google API key is valid and has sufficient quota."

  /** The SQL text `get_gemini_response` hands back, or the two error lines it shows before
      `st.stop()`. `reply` is what the model call gave: its text, or the message of the
      exception it raised. An empty text raises "Empty response from AI model" inside the
      same `try`. */
  function GeneratedSql(reply: Result<string, string>): (r: Result<string, seq<string>>)
    ensures r.Success? <==> reply.Success? && reply.value != ""
    ensures r.Success? ==> r.value == reply.value
    ensures reply.Failure? ==> r == Failure([FailureText("AI Error: " + reply.error), ApiKeyHint])
    ensures reply == Success("") ==>
      r == Failure([FailureText("AI Error: Empty response from AI model"), ApiKeyHint])
  {
    match reply
    case Success(text) =>
      if text == "" then
        assert "AI Error: " + "Empty response from AI model" == "AI Error: Empty response from AI model";
        AiError("Empty response from AI model")
      else
        Success(text)
    case Failure(message) => AiError(message)
  }

  function AiError(message: string): Result<string, seq<string>> {
    Failure([FailureText("AI Error: " + message), ApiKeyHint])
  }

  /** What the main area shows after "Analyze Data". */
  datatype Screen =
    | ConnectFirst                      // "Please configure and connect to your database first"
    | AskForQuestion                    // "Please enter a question"
    | Stopped(errors: seq<string>)      // `st.stop()` ended the run
    | Answered(sql: string, errors: seq<string>, display: Display)

  /** `st.session_state`: whether a connection was tested, and the configuration it used. */
  class Session {
    var dbConnected: bool
    var dbConfig: map<string, ConfigValue>

    /** `db_config` is empty until a test succeeds, and then holds exactly the keys of its type. */
    ghost predicate Valid()
      reads this
    {
      (dbConnected ==> WellFormedConfig(dbConfig)) && (!dbConnected ==> dbConfig == map[])
    }

    /** Lines 163-166: a fresh session is not connected and has an empty configuration. */
    constructor ()
      ensures Valid() && !dbConnected && dbConfig == map[]
    {
      dbConnected := false;
      dbConfig := map[];
    }

    /** Pressing "Connect to Database": validate the form, test the connection, and on success
        store the configuration. Returns the banner shown, as (is it an error, its text). */
    method Connect(form: ConnectForm, b: Backend) returns (isError: bool, banner: string)
      requires Valid()
      modifies this
      ensures Valid()
      ensures var step := ConnectOutcome(form, b);
        && (step.Connected? ==> dbConnected && dbConfig == step.config)
        && (!step.Connected? ==> dbConnected == old(dbConnected) && dbConfig == old(dbConfig))
        && isError == !step.Connected?
        && banner == step.message
    {
      if form.SqliteForm? {
        if form.path == "" {
          return true, PathRequired;
        }
        var test := TestConnection(TestParams(form), b);
        if test.success {
          dbConfig := map["type" := Text(SqliteName), "path" := Text(form.path)];
          assert dbConfig == ConfigFor(form);
          dbConnected := true;
        }
        return !test.success, test.message;
      } else {
        if form.host == "" || form.user == "" || form.password == "" || form.name == "" {
          return true, FieldsRequired;
        }
        var test := TestConnection(TestParams(form), b);
        if test.success {
          dbConfig := map["type" := Text(KindName(form.kind)), "host" := Text(form.host),
                          "user" := Text(form.user), "password" := Text(form.password),
                          "database" := Text(form.name), "port" := Number(form.port)];
          assert dbConfig == ConfigFor(form);
          dbConnected := true;
        }
        return !test.success, test.message;
      }
    }

    /** Pressing "Analyze Data" with `question` in the text area: the model's reply is
        sanitised and executed on the stored connection, and the outcome is displayed. */
    method Analyze(question: string, reply: Result<string, string>, b: Backend, run: Runner,
                   hasNumericColumn: bool) returns (screen: Screen)
      requires Valid()
      ensures !dbConnected ==> screen == ConnectFirst
      ensures dbConnected && question == "" ==> screen == AskForQuestion
      ensures dbConnected && question != "" && GeneratedSql(reply).Failure? ==>
        screen == Stopped(GeneratedSql(reply).error)
      ensures dbConnected && question != "" && GeneratedSql(reply).Success? ==>
        var out := QueryResult(reply.value, QueryParams(dbConfig), b, run);
        && (out.Halted? ==> screen == Stopped([out.message]))
        && (out.Returned? ==>
              screen == Answered(reply.value, out.errors, Present(out.columns, out.rows, hasNumericColumn)))
      ensures screen.Answered? ==> dbConnected && question != "" && screen.sql == reply.value
    {
      if !dbConnected {
        return ConnectFirst;
      }
      if question == "" {
        return AskForQuestion;
      }
      var sql := GeneratedSql(reply);
      if sql.Failure? {
        return Stopped(sql.error);
      }
      var out := ExecuteSqlQuery(sql.value, QueryParams(dbConfig), b, run);
      if out.Halted? {
        return Stopped([out.message]);
      }
      return Answered(sql.value, out.errors, Present(out.columns, out.rows, hasNumericColumn));
    }
  }
}
