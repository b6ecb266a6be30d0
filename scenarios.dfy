/** Client code over the model: the flows the integration tests in
    test/index.ts walk through, with the library's answers fixed, and what the
    model proves about them. */
module Scenarios {
  import opened Wrappers
  import opened Errors
  import opened Mysql
  import opened Logging
  import opened Drivers
  import opened Options
  import opened QueryRunners
  import opened RunnerFactory
  import opened Connections
  import opened Sql
  import opened Registry
  import opened Index
  import ConsoleLogging
  import Loggers

  /** A statement that takes 50 ms on a connection whose threshold is 10 ms is
      logged once before it is sent and once, as slow, with the elapsed time. */
  method SlowQueryIsLoggedOnce(name: string, pool: Pool, answer: Answer)
    returns (r: Result<Answer, Error>, effects: seq<Effect>)
    ensures r == Success(answer)
    ensures effects == [Logged(LogQuery("SELECT SLEEP(0.05)", None)),
                        Called(PoolQueryCall(pool, Some("SELECT SLEEP(0.05)"), None)),
                        Logged(LogQuerySlow(50, "SELECT SLEEP(0.05)", None))]
  {
    var info := ConnectionInfo(name, Loggers.Console(None), 10);
    var runner := QueryRunnerFactory(info, PoolIssuer(Some(pool)), None);
    r, effects := Query(runner, "SELECT SLEEP(0.05)", None, Success(answer), 1000, 1050);
  }

  /** With logging options `false`, a console logger prints nothing for a
      statement, except the two warnings when it is slow. */
  method SilentLoggerStillWarnsWhenSlow(name: string, pool: Pool, answer: Answer, elapsed: int)
    returns (lines: seq<ConsoleLine>)
    ensures elapsed > 10 ==>
      lines == [ConsoleLine(WarnChannel, [Text("query is slow:"), Text("SELECT 1 + 1 AS solution")]),
                ConsoleLine(WarnChannel, [Text("execution time:"), Number(elapsed)])]
    ensures elapsed <= 10 ==> lines == []
  {
    var options := Some(ConsoleLogging.Flag(false));
    var info := ConnectionInfo(name, Loggers.Console(options), 10);
    var runner := QueryRunnerFactory(info, PoolIssuer(Some(pool)), None);
    var r, effects := Query(runner, "SELECT 1 + 1 AS solution", None, Success(answer), 0, elapsed);
    var calls := LoggerCalls(effects);
    lines := ConsoleLogging.Output(options, calls);
    var query := "SELECT 1 + 1 AS solution";
    assert effects[..2] == [Logged(LogQuery(query, None)), Called(PoolQueryCall(pool, Some(query), None))];
    if elapsed > 10 {
      var slow := LogQuerySlow(elapsed, query, None);
      assert effects == effects[..2] + [Logged(slow)];
      assert effects[1..][1..] == [Logged(slow)];
      assert LoggerCalls(effects[1..][1..]) == [slow] by {
        assert effects[1..][1..][1..] == [];
      }
      assert LoggerCalls(effects[1..]) == [slow];
      assert calls == [LogQuery(query, None), slow];
      assert calls[1..] == [slow];
      assert ConsoleLogging.Output(options, calls[1..]) == ConsoleLogging.Render(options, slow) by {
        assert calls[1..][1..] == [];
      }
    } else {
      assert effects == effects[..2];
      assert effects[1..][1..] == [];
      assert LoggerCalls(effects[1..]) == [];
      assert calls == [LogQuery(query, None)];
      assert calls[1..] == [];
      assert ConsoleLogging.Output(options, calls[1..]) == [];
    }
  }

  /** The rollback flow: start with no isolation level, run a statement,
      roll back. The undefined isolation level is itself sent as a statement,
      no COMMIT is ever sent, and the connection is released exactly once. */
  method RollbackFlowReleasesOnce(info: ConnectionInfo, connection: PoolConnection, answer: Answer)
    returns (effects: seq<Effect>)
    ensures ReleaseCount(effects) == 1
    ensures forall e | e in effects && e.Called? && e.called.ConnectionQueryCall? ::
              e.called.connection == connection && e.called.sql != Some("COMMIT")
    ensures effects[0] == Called(ConnectionQueryCall(connection, None, None))
  {
    var runner := QueryRunnerFactory(info, DedicatedIssuer(connection), Some(true));
    var started, e1 := StartTransaction(runner, None, Pass);
    var result, e2 := Query(runner, "select ? + ? AS solution", Some(["1", "1"]), Success(answer), 0, 0);
    var ended, e3 := RollbackTransaction(runner, Pass);
    effects := e1 + e2 + e3;
    EndTransactionReleasesOnce(runner.driverQueryRunner, "ROLLBACK", Pass, ended, e3);
    assert e1 == [Called(ConnectionQueryCall(connection, None, None))];
    ReleaseCountZero(e1);
    ReleaseCountZero(e2);
    ReleaseCountAppend(e1, e2);
    assert forall e | e in effects :: e in e1 || e in e2 || e in e3;
    ReleaseCountAppend(e1 + e2, e3);
  }

  /** Nothing guards the transaction state: committing twice sends COMMIT twice
      and releases the connection twice. */
  method RepeatedCommitReleasesTwice(info: ConnectionInfo, connection: PoolConnection)
    returns (effects: seq<Effect>)
    ensures effects == [Called(ConnectionQueryCall(connection, Some("COMMIT"), None)),
                        Called(ReleaseCall(connection)),
                        Called(ConnectionQueryCall(connection, Some("COMMIT"), None)),
                        Called(ReleaseCall(connection))]
  {
    var runner := QueryRunnerFactory(info, DedicatedIssuer(connection), Some(true));
    var first, e1 := CommitTransaction(runner, Pass);
    var second, e2 := CommitTransaction(runner, Pass);
    effects := e1 + e2;
  }

  /** A connection opens, refuses a second open, closes, refuses a second
      close, and can be opened again on a new pool. */
  method OpenCloseCycle(config: PoolConfig, pool: Pool, trial: PoolConnection,
                        pool': Pool, trial': PoolConnection)
    returns (outcomes: seq<Outcome<Error>>)
    ensures outcomes == [Pass, Fail(Thrown("default")), Pass, Fail(Thrown("default")), Pass]
  {
    var options := ConnectionOptions(DriverOptions("mysql", config), None, None, None, None);
    var made := Connection.New(options);
    var connection := made.value;
    var o1, c1 := connection.Open(pool, Success(trial));
    var o2, c2 := connection.Open(pool, Success(trial));
    var o3, c3 := connection.Close(None);
    var o4, c4 := connection.Close(None);
    var o5, c5 := connection.Open(pool', Success(trial'));
    outcomes := [o1, o2, o3, o4, o5];
  }

  /** What `lib/index.ts` hands out cannot run a statement: the runner from
      `getQueryRunner` holds the connection where the issuer belongs, so its
      `query` fails before logging or sending anything. */
  method IndexRunnerCannotQuery(facade: Facade, connectionName: Option<string>, sql: string,
                                values: Values, reply: Result<Answer, DbError>,
                                startTime: int, endTime: int)
    returns (r: Result<Answer, Error>, effects: seq<Effect>)
    ensures var found := facade.manager.Get(Some(NameArgument(connectionName)));
            found.Success? && found.value.driver.MysqlDriverRef? ==>
              r == Failure(TypeError) && effects == []
    ensures effects == []
  {
    var runner := facade.GetQueryRunner(connectionName);
    if runner.Failure? {
      return Failure(runner.error), [];
    }
    r, effects := Query(runner.value, sql, values, reply, startTime, endTime);
  }

  /** A transaction through `lib/index.ts` checks a connection out of the pool
      and never gives it back: the runner cannot send COMMIT, so it never
      reaches the release. */
  method IndexTransactionNeverReleases(facade: Facade, connectionName: Option<string>,
                                       checkedOut: PoolConnection, reply: Outcome<DbError>)
    returns (calls: seq<LibraryCall>, r: Outcome<Error>, effects: seq<Effect>)
    ensures ReleaseCount(effects) == 0 && r.Fail?
    ensures var found := facade.manager.Get(Some(NameArgument(connectionName)));
            found.Success? && found.value.driver.MysqlDriverRef? &&
            found.value.driver.mysql.pool.Some? ==>
              calls == [GetConnectionCall(found.value.driver.mysql.pool.value)] &&
              r == Fail(TypeError) && effects == []
  {
    var runner;
    runner, calls := facade.GetTransactionQueryRunner(connectionName, Success(checkedOut));
    if runner.Failure? {
      return calls, Fail(runner.error), [];
    }
    r, effects := CommitTransaction(runner.value, reply);
  }

  /** `createConnection` with a MySQL driver and a 5000 ms threshold: a
      connection it returns has that threshold and a console logger, and its
      pool was made, tried and kept. */
  method CreateMysqlConnection(facade: Facade, config: PoolConfig, created: Pool,
                               trial: Result<PoolConnection, DbError>)
    returns (r: Result<Connection, Error>, calls: seq<LibraryCall>)
    requires facade.Valid()
    modifies facade.manager
    ensures r.Success? ==>
      r.value.name == "default" && r.value.maxQueryExecutionTime == 5000 &&
      r.value.logger == Loggers.Console(None) && r.value.isDriverConnected &&
      r.value.driver.MysqlDriverRef? && r.value.driver.mysql.pool == Some(created) &&
      trial.Success? &&
      calls == [CreatePoolCall(config), GetConnectionCall(created), ReleaseCall(trial.value)]
    ensures r.Failure? && trial.Success? ==> r == Failure(Thrown("default")) && calls == []
  {
    var options := ConnectionOptions(DriverOptions("mysql", config), None, None, None, Some(5000));
    r, calls := facade.CreateConnection(options, created, trial);
  }

  /** `createConnection` with the Mongo driver never succeeds: a refused name
      throws the name, otherwise the new connection's `open` throws and it stays
      registered and disconnected. No library call is made either way. */
  method CreateMongoConnection(facade: Facade, name: string, created: Pool,
                               trial: Result<PoolConnection, DbError>)
    returns (r: Result<Connection, Error>, calls: seq<LibraryCall>)
    requires facade.Valid()
    modifies facade.manager
    ensures r.Failure? && calls == []
    ensures r.error == Thrown(ConnectionName(Some(name))) || r.error == Thrown(MethodNotImplemented)
  {
    var options := ConnectionOptions(DriverOptions("mongodb", map[]), Some(name), None, None, None);
    r, calls := facade.CreateConnection(options, created, trial);
  }

  /** The integration test's flow end to end: `createConnection` with a MySQL
      driver, then `getTransactionQueryRunner` for the default name, then
      commit. The checkout takes a connection from the pool the connection
      created, and commit, failing as written, never gives it back. */
  method CreatedTransactionNeverReleases(facade: Facade, config: PoolConfig, created: Pool,
                                         trial: Result<PoolConnection, DbError>,
                                         checkedOut: PoolConnection, reply: Outcome<DbError>)
    returns (calls: seq<LibraryCall>, r: Outcome<Error>, effects: seq<Effect>)
    requires facade.Valid()
    modifies facade.manager
    ensures ReleaseCount(effects) == 0 && r.Fail?
    ensures trial.Success? && calls != [] ==>
      calls == [CreatePoolCall(config), GetConnectionCall(created), ReleaseCall(trial.value),
                GetConnectionCall(created)] &&
      r == Fail(TypeError) && effects == []
  {
    var options := ConnectionOptions(DriverOptions("mysql", config), None, None, None, None);
    var made, setup := facade.CreateConnection(options, created, trial);
    if made.Failure? {
      return setup, Fail(made.error), [];
    }
    var runner, checkout := facade.GetTransactionQueryRunner(None, Success(checkedOut));
    calls := setup + checkout;
    // A created MySQL connection has a pool, and the checkout is good.
    if runner.Failure? {
      assert false;
    }
    r, effects := CommitTransaction(runner.value, reply);
  }
}
