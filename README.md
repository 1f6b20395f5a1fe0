# Text-to-SQL Query Tool: a model of its query pipeline

The tool is a Streamlit page (`app.py`). A user connects to a MySQL, PostgreSQL or SQLite
database. They then ask a question in natural language. A hosted language model writes a SQL
query, which the page cleans up, runs, and shows as a table.
This project models the logic between the UI and the outside services:

- **Sanitiser**: `sql_query.strip().strip("```sql").strip("```")`, with Python's
  `str.strip` semantics written out (module `PyStrip`). The argument of `strip` is read as a
  set of characters. So the second call removes any run of '`', 's', 'q', 'l' at either end,
  not the substring "```sql". The model proves what this really does:
  - the result is a contiguous slice of the reply;
  - a non-empty result never starts or ends with one of those four characters, so the last
    call never changes anything;
  - a fenced reply keeps its inner newlines;
  - `... FROM tbl` loses its final `l`, and an unfenced `select 1` loses its first `s`;
  - a second pass changes the result exactly when the result starts or ends with whitespace.
- **Connection dispatch** (`test_db_connection`, `get_db_connection`): dispatch on the database
  type, default ports, and the mapping from driver errors to messages. The drivers, the
  `close()` that `test_db_connection` calls inside its `try`, and `os.path.exists` are the
  parameter `Backend`. The arguments handed to a driver are an
  `Attempt` value, so the port defaults are part of what is proved.
- **Connect form and session state** (`main`): which submissions are rejected before any
  test, and what `db_connected` and `db_config` hold afterwards. The class `App.Session`
  holds these two fields. Its invariant says that `db_config` is empty until a test
  succeeds, and from then on it holds exactly the keys for its type. So later reads of
  `db_config[...]` always find their key.
- **Query execution and display** (`execute_sql_query`, the results branch of `main`):
  - column names come from the cursor description;
  - `(None, None)` is returned on a cursor, execute or fetch error and for a statement
    without a description; a connection error stops the run instead (`st.stop()`);
  - a table is shown only when both columns and rows are non-empty.

Module layout: `Wrappers` (Option, Result), `PyStrip`, `Sanitiser`, `Connection`, `Query`,
`App`.

## Behaviour worth knowing

- Sanitising is not idempotent. "```sql\nSELECT 1\n```" sanitises to "\nSELECT 1\n", and
  only a second pass gives "SELECT 1" (`Sanitiser.FencedReplyKeepsNewlines`,
  `Sanitiser.SanitiseNotIdempotent`).
- There is no affected-row count, no MSSQL support and no schema introspection. A statement
  without a result set gives `(None, None)`, and the page shows "No results found".
- A server port is kept in [1, 65535] only by the number widget, so the model takes it as
  the type `App.FormPort`. The SQLite path is checked for being non-empty in the form, and
  for existing only inside `test_db_connection` and `get_db_connection`.
- The app's own code does not check that every row has as many values as there are
  columns. `execute_sql_query` passes on whatever `fetchall()` returns. Rows whose width
  does not fit the columns can make `pd.DataFrame(data, columns=columns)` raise, and the
  page then shows the "Error processing request" handler (app.py:302-305). That handler is
  not modelled.
- A test can fail for settings that a query then connects with: `test_db_connection` also
  reports an exception raised by `conn.close()` (`Connection.TestPredictsConnection`).

## Model

| member | source | states |
|---|---|---|
| `PyStrip.LeadingRun` | app.py:127 | the length of the longest prefix made of characters of the set: all of them in the set, the next one not |
| `PyStrip.TrailingRun` | app.py:127 | the same for the longest suffix |
| `PyStrip.Strip` | app.py:127 | `s.strip(chars)` is a slice `s[i..j]`; only set characters are dropped; a non-empty result starts and ends outside the set |
| `PyStrip.StripUnique` | app.py:127 | any slice with those properties equals `Strip`, so the reference definition determines the result |
| `PyStrip.StripClean` | app.py:127 | a string that is empty or starts and ends outside the set is returned unchanged |
| `PyStrip.StripIsTrim` | app.py:127 | `strip` removes set characters at the two ends only |
| `PyStrip.TrimCompose` | app.py:127 | trimming by one set and then another is trimming by their union |
| `Sanitiser.FenceArgumentsAsSets` | app.py:127 | `strip("```sql")` removes exactly '`', 's', 'q', 'l'; `strip("```")` removes only '`', a subset |
| `Sanitiser.Sanitise` | app.py:127 | a non-empty sanitised query neither starts nor ends with '`', 's', 'q' or 'l', and is never longer than the reply |
| `Sanitiser.SanitiseIsSlice` | app.py:127 | the sanitised query is a contiguous slice of the reply; every removed character is whitespace or a fence character |
| `Sanitiser.FinalStripIsNoOp` | app.py:127 | the final `.strip("```")` never changes the string |
| `Sanitiser.SanitiseKeepsCleanQuery` | app.py:127 | a reply whose first and last characters are neither whitespace nor fence characters is returned unchanged |
| `Sanitiser.SanitiseIdempotentExactly` | app.py:127 | sanitising twice equals sanitising once iff the result is empty or starts and ends outside whitespace |
| `Sanitiser.SanitiseAfterSpace` | app.py:127 | when the whitespace strip keeps a slice that starts and ends outside the fence characters, sanitising yields exactly that slice |
| `Sanitiser.FencedReplyGivesBody` | app.py:127 | "```sql" + body + "```" sanitises to the body, including whitespace inside the fence, when the body starts and ends outside the fence characters |
| `Sanitiser.NewlineWrappedGivesBody` | app.py:127 | "\n" + body + "\n" sanitises to the body when the body starts and ends outside whitespace and the fence characters |
| `Sanitiser.TrailingFenceLettersLost` | app.py:127 | a query that starts outside whitespace and the fence characters and ends outside the fence characters, followed by any non-empty run of '`', 's', 'q', 'l', sanitises to the query without that run |
| `Sanitiser.FencedReplyKeepsNewlines` | app.py:127 | "```sql\nSELECT 1\n```" sanitises to "\nSELECT 1\n": the newlines stay |
| `Sanitiser.SecondPassTrimsNewlines` | app.py:127 | "\nSELECT 1\n" sanitises to "SELECT 1" |
| `Sanitiser.SanitiseNotIdempotent` | app.py:127 | sanitising the fenced example twice gives "SELECT 1", which differs from one pass |
| `Sanitiser.TrailingLetterIsLost` | app.py:127 | "SELECT * FROM tbl" sanitises to "SELECT * FROM tb" |
| `Sanitiser.LeadingFenceLettersLost` | app.py:127 | any non-empty run of '`', 's', 'q', 'l' in front of a query that starts outside the fence characters and ends outside whitespace and the fence characters is removed, and the query kept |
| `Sanitiser.LeadingLetterIsLost` | app.py:127 | the unfenced query "select 1" sanitises to "elect 1" |
| `Connection.PortOr` | app.py:33 | `port or fallback`: the fallback exactly when the port is missing, 0, or the fallback itself; otherwise the given port |
| `Connection.RequestedAttempt` | app.py:27-54 | unsupported type gives no driver call; SQLite opens the path; a server call passes host, user, password and database on, with a falsy port replaced by 3306 (MySQL) or 5432 (PostgreSQL) |
| `Connection.TestFailureMessage` | app.py:55-67 | every driver error gives a failure message: it starts with "❌ " and never with "✅ ", and it ends with the driver's own error text for the errors that carry one |
| `Connection.TestConnection` | app.py:25-67 | success iff the type is supported, the SQLite file exists, and both the driver call and `close()` return normally. An unsupported type and a missing SQLite file give their fixed messages. An error raised by the driver call, or else by `close()`, gives `TestFailureMessage` of that error. A message starts with the success mark iff the test succeeded |
| `Connection.OpenFailureMessage` | app.py:94-110 | the same for the message `get_db_connection` shows before stopping: a failure message that ends with the driver's own error text when there is one |
| `Connection.GetConnection` | app.py:70-110 | the requested attempt is returned iff its driver call returns normally; a driver error gives `OpenFailureMessage` of that error. An unsupported type and a missing file go through the generic `except` branch with their own texts. Every error is a failure message |
| `Connection.TestPredictsConnection` | app.py:25-110 | the connection test succeeds iff a query's own connection opens for the same parameters and backend and closing it raises nothing |
| `Query.ColumnNames` | app.py:141 | one name per description entry, in order, each the entry's first component |
| `Query.QueryResult` | app.py:126-148 | the run halts iff the connection fails, with its message. Otherwise columns and rows are both present or both absent, and present iff the sanitised statement ran, has a non-empty description and fetched. Columns are then the description's names and rows the fetched rows. No description gives `(None, None)` without an error. A failed execute shows the two SQL error lines. A failed `cursor()` or `fetchall()` shows one "❌ Database Error: " line with its message |
| `Query.ExecuteSqlQuery` | app.py:126-148 | the step-by-step method returns exactly `QueryResult` |
| `Query.Present` | app.py:288-300 | a table iff columns and rows are both non-empty, showing exactly those; a line chart iff a numeric column exists; otherwise "No results" |
| `Query.TableOnlyForResultSets` | app.py:288-300 | a table is shown iff the sanitised statement produced a described result set with at least one fetched row; once the connection has opened, every error ends in "No results" |
| `App.FormDefaultPort` | app.py:183-184 | the form's initial port is in [1, 65535] and equals the driver's fallback: 3306 for MySQL, 5432 for PostgreSQL |
| `App.ConfigFor` | app.py:199-224 | the stored configuration holds exactly {type, path} for SQLite and exactly {type, host, user, password, database, port} otherwise |
| `App.WellFormedConfigKeys` | app.py:199-224 | every configuration a successful connection can store has a text type, and exactly the keys of that type; a server port lies in [1, 65535] |
| `App.ConnectOutcome` | app.py:192-227 | a submission is rejected iff a required field is empty, with "Database file path is required" for SQLite and "All fields are required" otherwise; otherwise it connects iff the test succeeds, reports the test's message, and stores `ConfigFor(form)` |
| `App.RejectionRunsNoTest` | app.py:193-211 | a rejected submission does not depend on the backend: no connection test runs |
| `App.QueryUsesTestedParams` | app.py:270-282 | the parameters read back from `db_config` for a query are exactly those the connection test used |
| `App.GeneratedSql` | app.py:117-123 | the model's reply is used iff it is a non-empty text. A raised error shows "❌ AI Error: " with its message, and an empty text shows "❌ AI Error: Empty response from AI model". Both are followed by the API-key hint, and the run stops |
| `App.Session.constructor` | app.py:163-166 | a new session is not connected and has an empty configuration |
| `App.Session.Connect` | app.py:192-227 | keeps the session invariant. A successful test sets `db_connected` and stores the form's configuration; a rejection or a failed test leaves both fields unchanged. The banner is an error iff the session did not connect |
| `App.Session.Analyze` | app.py:233-300 | not connected: asks to connect; empty question: asks for one. A failed reply or connection stops the run. Otherwise the raw reply is shown, with the query's error lines and `Present` of its result |

## Left out

- Streamlit rendering (page setup, sidebar, widgets, spinners, `st.code`, the sample
  questions): UI only. Each banner is modelled as its text.
- The Gemini call and API-key loading (`get_gemini_response` up to line 116, lines 13-22):
  network service and environment. The reply is an input (`App.GeneratedSql`).
- The drivers, `sqlalchemy` and `os.path.exists`: foreign I/O. Their outcomes are the
  function-typed fields of `Connection.Backend` and the `Query.Runner` parameter. Driver
  exception texts (`str(err)`) are given strings.
- Closing the cursor and connection in the `finally` block (lines 149-155), including its
  warning: resource plumbing around driver objects.
- `st.stop()` is modelled as ending the run (`Query.QueryOutcome.Halted`,
  `App.Screen.Stopped`). It raises an exception that `except Exception` does not catch.
- pandas: building the frame and detecting numeric dtypes is library behaviour. "The frame
  has a numeric column" is a boolean input. The choice of which column to chart is UI.
- The outer `except Exception` handlers of `main` (lines 228-230, 302-309). Under the session
  invariant no `db_config` lookup can fail, and pandas errors are not modelled.
- The fixed healthcare prompt text (lines 237-252): a constant with nothing to decide.
- `PyStrip.Whitespace` fixes Python's `str.isspace` to its 29 code points as of current
  Unicode versions. A Python built on a different Unicode database could differ.
- Integer widths do not arise: ports are bounded by the form widget, and no arithmetic is
  done on them.
