/**
 * sql/sql_agent.py: the database agent. The connection and the driver are
 * outside the model; each call is given what the driver did (the rows it
 * fetched, or the error it raised), and the model keeps the agent's own
 * logic: the schema cache, the grouping of schema rows, and the way errors
 * are wrapped.
 */
module Sql {
  import opened Wrappers
  import SqlUtils

  /** One result row of a `RealDictCursor`: column name to value. */
  type Row = map<string, string>

  /** A table name to its column descriptors, in ordinal order. */
  type Schema = map<string, seq<string>>

  /** An exception the driver raised, as `str(e)` shows it. */
  datatype Failure =
    | DriverError(message: string)   // a psycopg2.Error
    | OtherError(message: string)    // any other exception

  /** What happened when the agent asked the database to run a statement. */
  datatype Execution =
    | ConnectFailed(failure: Failure)   // get_connection() raised
    | QueryFailed(failure: Failure)     // execute or fetchall raised
    | Fetched(rows: seq<Row>)

  /** The exception `execute_query` lets escape. */
  datatype Raised =
    | RuntimeError(message: string)
    | UnboundLocalError   // `conn.rollback()` reached with `conn` never bound

  /** The descriptor `f"{column} ({dtype})"` of one schema row. */
  function Describe(column: string, dtype: string): string {
    column + " (" + dtype + ")"
  }

  /** The `(table, descriptor)` pairs of `(table, column, dtype)` rows, in row order. */
  function Described(rows: seq<(string, string, string)>): (ds: seq<(string, string)>)
    ensures |ds| == |rows|
    ensures forall i :: 0 <= i < |rows| ==> ds[i] == (rows[i].0, Describe(rows[i].1, rows[i].2))
  {
    if rows == [] then []
    else Described(rows[..|rows| - 1]) + [(rows[|rows| - 1].0, Describe(rows[|rows| - 1].1, rows[|rows| - 1].2))]
  }

  /** Python truthiness of the cache: None and the empty dict are both falsy. */
  predicate CacheHit(cache: Option<Schema>) {
    cache.Some? && cache.value != map[]
  }

  class SqlAgent {
    const database: string
    const name: string
    /** `_schema`: None until a fetch succeeds, then the last schema fetched. */
    var cache: Option<Schema>

    /**
     * `SQLAgent(db_config, name)`: remembers the configuration and starts with
     * no cached schema.
     */
    constructor (dbConfig: map<string, string>, name: string)
      requires "database" in dbConfig
      ensures cache == None
      ensures this.database == dbConfig["database"] && this.name == name
    {
      database := dbConfig["database"];
      this.name := name;
      cache := None;
    }

    /**
     * get_schema: a truthy cached schema is returned without touching the
     * database. Otherwise the `(table, column, dtype)` rows are grouped by
     * table, each column rendered as "column (dtype)", the result cached and
     * returned; a failed fetch is re-raised and leaves the cache as it was.
     * `queried` tells whether the database was asked.
     */
    method GetSchema(fetched: Result<seq<(string, string, string)>, Failure>) returns (r: Result<Schema, Failure>, queried: bool)
      modifies this
      ensures queried == !CacheHit(old(cache))
      ensures !queried ==> r == Ok(old(cache).value) && cache == old(cache)
      ensures queried && fetched.Err? ==> r == Err(fetched.error) && cache == old(cache)
      ensures queried && fetched.Ok? ==> r.Ok? && cache == Some(r.value)
      ensures queried && fetched.Ok? ==> r.value.Keys == SqlUtils.TablesOf(Described(fetched.value))
      ensures queried && fetched.Ok? ==>
                forall t :: t in r.value ==> r.value[t] == SqlUtils.ColumnsOf(Described(fetched.value), t)
    {
      if CacheHit(cache) {
        return Ok(cache.value), false;
      }
      queried := true;
      if fetched.Err? {
        return Err(fetched.error), queried;
      }
      var rows := fetched.value;
      ghost var described := Described(rows);
      var schema: Schema := map[];
      for i := 0 to |rows|
        invariant schema.Keys == SqlUtils.TablesOf(described[..i])
        invariant forall t :: t in schema ==> schema[t] == SqlUtils.ColumnsOf(described[..i], t)
      {
        var (table, column, dtype) := rows[i];
        assert described[..i + 1][..i] == described[..i];
        assert described[..i + 1] == described[..i] + [(table, Describe(column, dtype))];
        assert SqlUtils.TablesOf(described[..i + 1]) == SqlUtils.TablesOf(described[..i]) + {table};
        if table !in schema {
          SqlUtils.ColumnsOfNonEmptyIff(described[..i], table);
          schema := schema[table := []];
        }
        schema := schema[table := schema[table] + [Describe(column, dtype)]];
      }
      assert described[..|rows|] == described;
      cache := Some(schema);
      r := Ok(schema);
    }
  }

  /**
   * execute_query as intended: rows on success; a driver error becomes
   * RuntimeError("SQL Error: …") and any other failure RuntimeError("Execution
   * error: …"), wherever it happened.
   */
  function ExecuteQuery(execution: Execution): (r: Result<seq<Row>, Raised>)
    ensures execution.Fetched? <==> r.Ok?
    ensures execution.Fetched? ==> r.value == execution.rows
    ensures r.Err? ==> r.error.RuntimeError?
  {
    match execution
    case Fetched(rows) => Ok(rows)
    case ConnectFailed(f) => Err(Wrap(f))
    case QueryFailed(f) => Err(Wrap(f))
  }

  /** The RuntimeError execute_query raises for a failure. */
  function Wrap(f: Failure): Raised {
    match f
    case DriverError(m) => RuntimeError("SQL Error: " + m)
    case OtherError(m) => RuntimeError("Execution error: " + m)
  }

  /**
   * execute_query as written: the `psycopg2.Error` handler calls
   * `conn.rollback()`, but when the error came from get_connection() the
   * `with ... as conn` never bound `conn`, so the handler itself raises.
   */
  function ExecuteQueryAsWritten(execution: Execution): (r: Result<seq<Row>, Raised>)
    ensures execution.Fetched? <==> r.Ok?
    ensures r.Err? ==> (r.error.UnboundLocalError? <==> execution.ConnectFailed? && execution.failure.DriverError?)
  {
    match execution
    case Fetched(rows) => Ok(rows)
    case ConnectFailed(DriverError(_)) => Err(UnboundLocalError)
    case ConnectFailed(f) => Err(Wrap(f))
    case QueryFailed(f) => Err(Wrap(f))
  }

  /** The two agree everywhere except on a driver error while connecting. */
  lemma AsWrittenDiffersOnlyOnConnectError(execution: Execution)
    ensures (ExecuteQueryAsWritten(execution) != ExecuteQuery(execution))
            <==> (execution.ConnectFailed? && execution.failure.DriverError?)
  {
  }

  /** A refused connection (a psycopg2.OperationalError) escapes as UnboundLocalError, not as "SQL Error: …". */
  lemma ConnectErrorEscapesUnwrapped(message: string)
    ensures ExecuteQueryAsWritten(ConnectFailed(DriverError(message))) == Err(UnboundLocalError)
    ensures ExecuteQuery(ConnectFailed(DriverError(message))) == Err(RuntimeError("SQL Error: " + message))
  {
  }

  /** Every failure execute_query reports names its kind in a fixed prefix followed by the driver's message. */
  lemma ExecuteQueryErrorsAreWrapped(execution: Execution)
    requires !execution.Fetched?
    ensures ExecuteQuery(execution).Err?
    ensures ExecuteQuery(execution).error.message
              == (if execution.failure.DriverError? then "SQL Error: " else "Execution error: ") + execution.failure.message
  {
  }

  /** What running `EXPLAIN <query>` did. */
  datatype Explained = ExplainRan | ExplainRaised(failure: Failure)

  /** validate_query: True when EXPLAIN ran; any exception, wherever raised, gives False instead of escaping. */
  function ValidateQuery(explained: Explained): (valid: bool)
    ensures valid <==> explained == ExplainRan
  {
    match explained
    case ExplainRan => true
    case ExplainRaised(_) => false
  }
}
