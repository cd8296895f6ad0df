/**
 * load_weather_to_postgres (dags/weatherstack_etl_v2.py:93-117): an empty
 * guard, then connect, create the table, bulk insert inside try, commit or
 * roll back, and close in finally.
 *
 * The database reached through PostgresClient is the class `Database`: it
 * records every call made on it in a ghost event log, keeps the committed rows
 * and the rows of the open transaction, and raises on the calls named in
 * `failing` (an input: which calls fail is decided outside the task).
 */
module Load {
  import opened Wrappers
  import opened WeatherRecord

  datatype ConnParams = ConnParams(host: string, dbname: string, username: string, password: string)

  /** The client calls the task makes. */
  datatype Call = ConnectCall | ExecuteCall | ExecuteManyCall | CommitCall | RollbackCall | CloseCall

  /** One call as observed by the database, in the order made (a call that raised is still made). */
  datatype Event =
    | Connect(params: ConnParams)
    | Execute(query: string)
    | ExecuteMany(query: string, rows: seq<Row>)
    | Commit
    | Rollback
    | Close

  /** How the task ends: it returns, or the exception of the named call escapes it. */
  datatype LoadOutcome = Returned | Raised(call: Call)

  class Database {
    /** The calls that raise in this run. */
    const failing: set<Call>
    /** Every call made, oldest first. */
    ghost var log: seq<Event>
    /** The committed contents of the destination table. */
    var table: seq<Row>
    /** Rows inserted in the open, uncommitted transaction. */
    var pending: seq<Row>
    /** Whether a connection is open. */
    var open: bool

    /** Without a connection there is no transaction. */
    ghost predicate Valid()
      reads this
    {
      !open ==> pending == []
    }

    constructor (failing: set<Call>, table: seq<Row>)
      ensures Valid()
      ensures this.failing == failing && this.table == table
      ensures log == [] && pending == [] && !open
    {
      this.failing := failing;
      this.table := table;
      log := [];
      pending := [];
      open := false;
    }

    /** `PostgresClient(HOST, DBNAME, USERNAME, PASSWORD)`. */
    method Connect(params: ConnParams) returns (ok: bool)
      requires Valid() && !open
      modifies this`log, this`open
      ensures Valid()
      ensures log == old(log) + [Event.Connect(params)]
      ensures ok == (ConnectCall !in failing) && open == ok
    {
      log := log + [Event.Connect(params)];
      ok := ConnectCall !in failing;
      open := ok;
    }

    /** `client.execute_query(query)`, a statement that writes no rows. */
    method Execute(query: string) returns (ok: bool)
      requires Valid() && open
      modifies this`log
      ensures Valid()
      ensures log == old(log) + [Event.Execute(query)]
      ensures ok == (ExecuteCall !in failing)
    {
      log := log + [Event.Execute(query)];
      ok := ExecuteCall !in failing;
    }

    /** `client.cur.executemany(query, rows)`: all the rows enter the transaction, or none do. */
    method ExecuteMany(query: string, rows: seq<Row>) returns (ok: bool)
      requires Valid() && open
      modifies this`log, this`pending
      ensures Valid()
      ensures log == old(log) + [Event.ExecuteMany(query, rows)]
      ensures ok == (ExecuteManyCall !in failing)
      ensures pending == if ok then old(pending) + rows else old(pending)
    {
      log := log + [Event.ExecuteMany(query, rows)];
      ok := ExecuteManyCall !in failing;
      if ok {
        pending := pending + rows;
      }
    }

    /** `client.conn.commit()`: the transaction's rows become part of the table. */
    method Commit() returns (ok: bool)
      requires Valid() && open
      modifies this`log, this`pending, this`table
      ensures Valid()
      ensures log == old(log) + [Event.Commit]
      ensures ok == (CommitCall !in failing)
      ensures table == if ok then old(table) + old(pending) else old(table)
      ensures pending == if ok then [] else old(pending)
    {
      log := log + [Event.Commit];
      ok := CommitCall !in failing;
      if ok {
        table := table + pending;
        pending := [];
      }
    }

    /** `client.conn.rollback()`: the transaction's rows are discarded. */
    method Rollback() returns (ok: bool)
      requires Valid() && open
      modifies this`log, this`pending
      ensures Valid()
      ensures log == old(log) + [Event.Rollback]
      ensures ok == (RollbackCall !in failing)
      ensures pending == if ok then [] else old(pending)
    {
      log := log + [Event.Rollback];
      ok := RollbackCall !in failing;
      if ok {
        pending := [];
      }
    }

    /** `client.connection_close()`: closing discards whatever was not committed. */
    method Close() returns (ok: bool)
      requires Valid() && open
      modifies this`log, this`pending, this`open
      ensures Valid()
      ensures log == old(log) + [Event.Close]
      ensures ok == (CloseCall !in failing)
      ensures open == !ok
      ensures pending == if ok then [] else old(pending)
    {
      log := log + [Event.Close];
      ok := CloseCall !in failing;
      if ok {
        open := false;
        pending := [];
      }
    }
  }

  /** Everything one call of the task does to the database, and how the call ends. */
  datatype Trace = Trace(
    events: seq<Event>,
    outcome: LoadOutcome,
    commits: bool,
    leftOpen: bool,
    leftPending: seq<Row>)

  /** How the task ends after `finally`: a raising close wins over a raising rollback. */
  function Finish(failing: set<Call>, rolledBack: bool): LoadOutcome {
    if CloseCall in failing then Raised(CloseCall)
    else if rolledBack && RollbackCall in failing then Raised(RollbackCall)
    else Returned
  }

  /**
   * The `try`/`except`/`finally` block of lines 109-117 on an open connection
   * with an empty transaction, one case per path through it.
   */
  function TryTrace(rows: seq<Row>, insertQuery: string, failing: set<Call>): Trace {
    var stillOpen := CloseCall in failing;
    if ExecuteManyCall in failing then
      Trace([ExecuteMany(insertQuery, rows), Rollback, Close], Finish(failing, true), false, stillOpen, [])
    else if CommitCall in failing then
      Trace([ExecuteMany(insertQuery, rows), Commit, Rollback, Close], Finish(failing, true), false, stillOpen,
            if stillOpen && RollbackCall in failing then rows else [])
    else
      Trace([ExecuteMany(insertQuery, rows), Commit, Close], Finish(failing, false), true, stillOpen, [])
  }

  /** The effect of the task on a database whose failing calls are `failing`. */
  function LoadTrace(records: seq<Record>, conn: ConnParams, createQuery: string, insertQuery: string,
                     failing: set<Call>): Trace
  {
    if records == [] then Trace([], Returned, false, false, [])
    else if ConnectCall in failing then Trace([Connect(conn)], Raised(ConnectCall), false, false, [])
    else if ExecuteCall in failing then
      Trace([Connect(conn), Execute(createQuery)], Raised(ExecuteCall), false, true, [])
    else
      var t := TryTrace(Rows(records), insertQuery, failing);
      t.(events := [Connect(conn), Execute(createQuery)] + t.events)
  }

  /** How many times `e` occurs in `events`. */
  function Occurrences(events: seq<Event>, e: Event): nat {
    if events == [] then 0
    else Occurrences(events[..|events| - 1], e) + (if events[|events| - 1] == e then 1 else 0)
  }

  /** Whether the task reaches its `try` statement: the batch is non-empty and connecting and creating the table did not raise. */
  predicate EntersTry(records: seq<Record>, failing: set<Call>) {
    records != [] && ConnectCall !in failing && ExecuteCall !in failing
  }

  /** The database is touched exactly when there is something to insert; an empty batch returns normally. */
  lemma EmptyBatchTouchesNothing(records: seq<Record>, conn: ConnParams, createQuery: string, insertQuery: string,
                                 failing: set<Call>)
    ensures var t := LoadTrace(records, conn, createQuery, insertQuery, failing);
            (t.events == [] <==> records == []) &&
            (records == [] ==> t.outcome == Returned && !t.commits && !t.leftOpen)
    ensures records != [] ==> LoadTrace(records, conn, createQuery, insertQuery, failing).events[0] == Connect(conn)
  {
  }

  /**
   * Once the `try` is reached the connection is closed exactly once, as the last
   * call; a failure while connecting or creating the table escapes before the
   * `try`, and then `close` is never called.
   */
  lemma CloseExactlyOnceAfterTry(records: seq<Record>, conn: ConnParams, createQuery: string, insertQuery: string,
                                 failing: set<Call>)
    ensures var t := LoadTrace(records, conn, createQuery, insertQuery, failing);
            Occurrences(t.events, Close) == (if EntersTry(records, failing) then 1 else 0)
    ensures var t := LoadTrace(records, conn, createQuery, insertQuery, failing);
            EntersTry(records, failing) ==> t.events[|t.events| - 1] == Close
    ensures var t := LoadTrace(records, conn, createQuery, insertQuery, failing);
            records != [] && ConnectCall !in failing && ExecuteCall in failing ==>
              Close !in t.events && t.leftOpen && t.outcome == Raised(ExecuteCall)
  {
    var t := LoadTrace(records, conn, createQuery, insertQuery, failing);
    if EntersTry(records, failing) {
      var n := |t.events|;
      assert Close !in t.events[..n - 1];
      OccurrencesAbsent(t.events[..n - 1], Close);
    } else {
      OccurrencesAbsent(t.events, Close);
    }
  }

  /** An event that does not occur is counted zero times. */
  lemma {:induction false} OccurrencesAbsent(events: seq<Event>, e: Event)
    requires e !in events
    ensures Occurrences(events, e) == 0
    decreases |events|
  {
    if events != [] {
      OccurrencesAbsent(events[..|events| - 1], e);
    }
  }

  /** The create-table statement always runs before the bulk insert. */
  lemma CreateBeforeInsert(records: seq<Record>, conn: ConnParams, createQuery: string, insertQuery: string,
                           failing: set<Call>)
    ensures var t := LoadTrace(records, conn, createQuery, insertQuery, failing);
            forall i :: 0 <= i < |t.events| && t.events[i].ExecuteMany? ==>
              exists j :: 0 <= j < i && t.events[j] == Execute(createQuery)
  {
    var t := LoadTrace(records, conn, createQuery, insertQuery, failing);
    forall i | 0 <= i < |t.events| && t.events[i].ExecuteMany?
      ensures exists j :: 0 <= j < i && t.events[j] == Execute(createQuery)
    {
      assert t.events[1] == Execute(createQuery);
    }
  }

  /**
   * After the bulk insert exactly one of a successful commit and a rollback
   * happens; an insert or commit that raises leads to a rollback. Without the
   * `try` neither is called.
   */
  lemma CommitOrRollback(records: seq<Record>, conn: ConnParams, createQuery: string, insertQuery: string,
                         failing: set<Call>)
    ensures var t := LoadTrace(records, conn, createQuery, insertQuery, failing);
            EntersTry(records, failing) ==> (t.commits <==> Rollback !in t.events) && (t.commits ==> Commit in t.events)
    ensures var t := LoadTrace(records, conn, createQuery, insertQuery, failing);
            t.commits <==> EntersTry(records, failing) && ExecuteManyCall !in failing && CommitCall !in failing
    ensures var t := LoadTrace(records, conn, createQuery, insertQuery, failing);
            !EntersTry(records, failing) ==> Commit !in t.events && Rollback !in t.events
  {
  }

  /**
   * A failing insert or commit is reported and swallowed: once inside the `try`,
   * the task returns normally unless the rollback or the close itself raises.
   */
  lemma InsertFailureNotReraised(records: seq<Record>, conn: ConnParams, createQuery: string, insertQuery: string,
                                 failing: set<Call>)
    requires EntersTry(records, failing)
    ensures var t := LoadTrace(records, conn, createQuery, insertQuery, failing);
            t.outcome == Returned <==> CloseCall !in failing && (t.commits || RollbackCall !in failing)
  {
  }

  /**
   * The one bulk insert carries the configured statement and one 19-value row per
   * record, in record order, from which each record can be read back.
   */
  lemma InsertedRowsMatchRecords(records: seq<Record>, conn: ConnParams, createQuery: string, insertQuery: string,
                                 failing: set<Call>)
    ensures var t := LoadTrace(records, conn, createQuery, insertQuery, failing);
            forall e :: e in t.events && e.ExecuteMany? ==>
              e.query == insertQuery && |e.rows| == |records| &&
              forall k :: 0 <= k < |records| ==> |e.rows[k]| == 19 && FromRow(e.rows[k]) == Some(records[k])
    ensures var t := LoadTrace(records, conn, createQuery, insertQuery, failing);
            (exists e :: e in t.events && e.ExecuteMany?) <==> EntersTry(records, failing)
  {
    var t := LoadTrace(records, conn, createQuery, insertQuery, failing);
    if EntersTry(records, failing) {
      var insert := ExecuteMany(insertQuery, Rows(records));
      assert t.events[2] == insert;
      forall e | e in t.events && e.ExecuteMany? ensures e == insert { }
      forall k | 0 <= k < |records| ensures FromRow(Rows(records)[k]) == Some(records[k]) {
        RowRoundTrip(records[k]);
      }
    }
  }

  /** Lines 109-117: the bulk insert, commit or rollback, and the close in `finally`. */
  method InsertBatch(db: Database, rows: seq<Row>, insertQuery: string) returns (outcome: LoadOutcome)
    requires db.Valid() && db.open && db.pending == []
    modifies db
    ensures db.Valid()
    ensures var t := TryTrace(rows, insertQuery, db.failing);
            && db.log == old(db.log) + t.events
            && outcome == t.outcome
            && db.table == (if t.commits then old(db.table) + rows else old(db.table))
            && db.open == t.leftOpen
            && db.pending == t.leftPending
  {
    var committed := false;
    var rolledBack := true;
    var inserted := db.ExecuteMany(insertQuery, rows);
    if inserted {
      committed := db.Commit();
    }
    if !committed {
      rolledBack := db.Rollback();
    }
    var closed := db.Close();
    outcome := if !closed then Raised(CloseCall) else if !rolledBack then Raised(RollbackCall) else Returned;
  }

  /** The task body. */
  method LoadWeatherToPostgres(db: Database, records: seq<Record>, conn: ConnParams,
                               createQuery: string, insertQuery: string) returns (outcome: LoadOutcome)
    requires db.Valid() && !db.open
    modifies db
    ensures db.Valid()
    ensures var t := LoadTrace(records, conn, createQuery, insertQuery, db.failing);
            && db.log == old(db.log) + t.events
            && outcome == t.outcome
            && db.table == (if t.commits then old(db.table) + Rows(records) else old(db.table))
            && db.open == t.leftOpen
            && db.pending == t.leftPending
  {
    if records == [] {
      return Returned;
    }
    var ok := db.Connect(conn);
    if !ok {
      return Raised(ConnectCall);
    }
    ok := db.Execute(createQuery);
    if !ok {
      return Raised(ExecuteCall);
    }
    var rows := Rows(records);
    outcome := InsertBatch(db, rows, insertQuery);
    assert db.log == old(db.log) + [Connect(conn), Execute(createQuery)] + TryTrace(rows, insertQuery, db.failing).events;
  }
}
