/** The query runners of lib/query-runner/implements/: `BaseQueryRunner.query`
    (shared by `PoolQueryRunner`, which adds nothing to it) and the transaction
    statements of `TransactionQueryRunner`. A runner changes nothing of its own;
    each operation is the ordered list of effects it has on the connection's
    logger and on the library handle it wraps. */
module QueryRunners {
  import opened Wrappers
  import opened Errors
  import opened Sql
  import opened Mysql
  import opened Logging
  import opened Options

  /** What a driver hands a runner to send statements through: the driver's
      pool field, which may be unset, or a connection checked out for a
      transaction. */
  datatype Issuer = PoolIssuer(pool: Option<Pool>) | DedicatedIssuer(connection: PoolConnection)

  /** What a runner's untyped constructor arguments can hold. */
  datatype Handle = ConnectionHandle(info: ConnectionInfo) | IssuerHandle(issuer: Issuer)

  /** A runner is its two constructor arguments, `driverQueryRunner` and
      `connection`, in that order. */
  datatype QueryRunner =
    | PoolQueryRunner(driverQueryRunner: Handle, connection: Handle)
    | TransactionQueryRunner(driverQueryRunner: Handle, connection: Handle)

  /** One effect of a runner operation: a call on the connection's logger or a
      call into the client library. */
  datatype Effect = Logged(logged: LoggerCall) | Called(called: LibraryCall)

  /** Whether `handle.query` exists: only a pool that is set and a checked-out
      connection have it. */
  predicate CanQuery(handle: Handle) {
    handle.IssuerHandle? && (handle.issuer.DedicatedIssuer? || handle.issuer.pool.Some?)
  }

  /** The library call `handle.query(sql, values)` makes. */
  function QueryCall(handle: Handle, sql: Option<string>, values: Values): LibraryCall
    requires CanQuery(handle)
  {
    match handle.issuer
    case PoolIssuer(pool) => PoolQueryCall(pool.value, sql, values)
    case DedicatedIssuer(connection) => ConnectionQueryCall(connection, sql, values)
  }

  /** Whether `query` reaches the database: the `connection` argument must be
      a connection (so that it has a logger) and the `driverQueryRunner`
      argument must have a `query` method. */
  predicate CanRun(runner: QueryRunner) {
    runner.connection.ConnectionHandle? && CanQuery(runner.driverQueryRunner)
  }

  /** The logger calls among a list of effects, in order. */
  function LoggerCalls(effects: seq<Effect>): seq<LoggerCall> {
    if effects == [] then []
    else (if effects[0].Logged? then [effects[0].logged] else []) + LoggerCalls(effects[1..])
  }

  ghost predicate SlowLogged(effects: seq<Effect>) {
    exists e :: e in effects && e.Logged? && e.logged.LogQuerySlow?
  }

  /** `BaseQueryRunner.query`: log the statement, send it, time it, and log it
      as slow when it took strictly longer than the connection's threshold.
      `reply` is the library's answer and `startTime`, `endTime` the clock
      readings before and after it. */
  method Query(runner: QueryRunner, sql: string, values: Values, reply: Result<Answer, DbError>,
               startTime: int, endTime: int)
    returns (r: Result<Answer, Error>, effects: seq<Effect>)
    ensures runner.connection.IssuerHandle? ==> r == Failure(TypeError) && effects == []
    ensures runner.connection.ConnectionHandle? ==>
      1 <= |effects| <= 3 && effects[0] == Logged(LogQuery(sql, values))
    ensures runner.connection.ConnectionHandle? && !CanQuery(runner.driverQueryRunner) ==>
      r == Failure(TypeError) && |effects| == 1
    ensures CanRun(runner) ==>
      |effects| >= 2 && effects[1] == Called(QueryCall(runner.driverQueryRunner, Some(sql), values))
    ensures CanRun(runner) && reply.Success? ==> r == Success(reply.value)
    ensures CanRun(runner) && reply.Failure? ==> r == Failure(Database(reply.error))
    ensures SlowLogged(effects) <==>
      CanRun(runner) && reply.Success? &&
      endTime - startTime > runner.connection.info.maxQueryExecutionTime
    ensures CanRun(runner) && !SlowLogged(effects) ==> |effects| == 2
    ensures SlowLogged(effects) ==>
      |effects| == 3 && effects[2] == Logged(LogQuerySlow(endTime - startTime, sql, values))
    ensures forall e | e in effects :: !(e.Logged? && e.logged.LogQueryError?)
    ensures forall e | e in effects && e.Called? ::
      CanQuery(runner.driverQueryRunner) && e.called == QueryCall(runner.driverQueryRunner, Some(sql), values)
  {
    if runner.connection.IssuerHandle? {
      // `this.connection.logger` is not a logger, so calling `logQuery` on it throws
      return Failure(TypeError), [];
    }
    var info := runner.connection.info;
    effects := [Logged(LogQuery(sql, values))];
    if !CanQuery(runner.driverQueryRunner) {
      return Failure(TypeError), effects;
    }
    effects := effects + [Called(QueryCall(runner.driverQueryRunner, Some(sql), values))];
    if reply.Failure? {
      return Failure(Database(reply.error)), effects;
    }
    var queryTime := endTime - startTime;
    if queryTime > info.maxQueryExecutionTime {
      effects := effects + [Logged(LogQuerySlow(queryTime, sql, values))];
    }
    r := Success(reply.value);
  }

  /** `startTransaction(isolationLevel)`: the isolation level itself, possibly
      undefined, is sent as the only statement; nothing is logged or timed. */
  method StartTransaction(runner: QueryRunner, isolationLevel: Option<string>, reply: Outcome<DbError>)
    returns (r: Outcome<Error>, effects: seq<Effect>)
    requires runner.TransactionQueryRunner?
    ensures !CanQuery(runner.driverQueryRunner) ==> r == Fail(TypeError) && effects == []
    ensures CanQuery(runner.driverQueryRunner) ==>
      effects == [Called(QueryCall(runner.driverQueryRunner, isolationLevel, None))]
    ensures CanQuery(runner.driverQueryRunner) ==> (r.Pass? <==> reply.Pass?)
    ensures r.Fail? && reply.Fail? && CanQuery(runner.driverQueryRunner) ==> r.error == Database(reply.error)
  {
    if !CanQuery(runner.driverQueryRunner) {
      return Fail(TypeError), [];
    }
    effects := [Called(QueryCall(runner.driverQueryRunner, isolationLevel, None))];
    r := if reply.Pass? then Pass else Fail(Database(reply.error));
  }

  /** Whether `handle.release` exists: only a checked-out connection has it. */
  predicate CanRelease(handle: Handle) {
    handle.IssuerHandle? && handle.issuer.DedicatedIssuer?
  }

  /** `releaseConnection`: give the checked-out connection back. */
  method ReleaseConnection(runner: QueryRunner) returns (r: Outcome<Error>, effects: seq<Effect>)
    requires runner.TransactionQueryRunner?
    ensures CanRelease(runner.driverQueryRunner) ==>
      r == Pass && effects == [Called(ReleaseCall(runner.driverQueryRunner.issuer.connection))]
    ensures !CanRelease(runner.driverQueryRunner) ==> r == Fail(TypeError) && effects == []
  {
    if !CanRelease(runner.driverQueryRunner) {
      return Fail(TypeError), [];
    }
    r, effects := Pass, [Called(ReleaseCall(runner.driverQueryRunner.issuer.connection))];
  }

  /** The effects of sending a control statement straight to `handle` and
      then releasing it, as commit and rollback do: release happens only after
      the statement succeeded, and nothing is logged. */
  ghost predicate EndsTransaction(handle: Handle, statement: string, reply: Outcome<DbError>,
                                  r: Outcome<Error>, effects: seq<Effect>) {
    if !CanQuery(handle) then
      r == Fail(TypeError) && effects == []
    else
      var issue := Called(QueryCall(handle, Some(statement), None));
      if reply.Fail? then
        r == Fail(Database(reply.error)) && effects == [issue]
      else if !CanRelease(handle) then
        r == Fail(TypeError) && effects == [issue]
      else
        r == Pass && effects == [issue, Called(ReleaseCall(handle.issuer.connection))]
  }

  method EndTransaction(runner: QueryRunner, statement: string, reply: Outcome<DbError>)
    returns (r: Outcome<Error>, effects: seq<Effect>)
    requires runner.TransactionQueryRunner?
    ensures EndsTransaction(runner.driverQueryRunner, statement, reply, r, effects)
  {
    if !CanQuery(runner.driverQueryRunner) {
      return Fail(TypeError), [];
    }
    effects := [Called(QueryCall(runner.driverQueryRunner, Some(statement), None))];
    if reply.Fail? {
      return Fail(Database(reply.error)), effects;
    }
    var released;
    r, released := ReleaseConnection(runner);
    effects := effects + released;
  }

  /** `commitTransaction`: send "COMMIT", then release the connection. */
  method CommitTransaction(runner: QueryRunner, reply: Outcome<DbError>)
    returns (r: Outcome<Error>, effects: seq<Effect>)
    requires runner.TransactionQueryRunner?
    ensures EndsTransaction(runner.driverQueryRunner, "COMMIT", reply, r, effects)
  {
    r, effects := EndTransaction(runner, "COMMIT", reply);
  }

  /** `rollbackTransaction`: send "ROLLBACK", then release the connection. */
  method RollbackTransaction(runner: QueryRunner, reply: Outcome<DbError>)
    returns (r: Outcome<Error>, effects: seq<Effect>)
    requires runner.TransactionQueryRunner?
    ensures EndsTransaction(runner.driverQueryRunner, "ROLLBACK", reply, r, effects)
  {
    r, effects := EndTransaction(runner, "ROLLBACK", reply);
  }

  /** How many times a list of effects gives a connection back. */
  function ReleaseCount(effects: seq<Effect>): nat {
    if effects == [] then 0
    else (if effects[0].Called? && effects[0].called.ReleaseCall? then 1 else 0) + ReleaseCount(effects[1..])
  }

  /** The count is zero exactly when no effect is a release. */
  lemma {:induction false} ReleaseCountZero(effects: seq<Effect>)
    ensures ReleaseCount(effects) == 0 <==>
      forall e | e in effects :: !(e.Called? && e.called.ReleaseCall?)
  {
    if effects != [] {
      ReleaseCountZero(effects[1..]);
      assert forall e | e in effects :: e == effects[0] || e in effects[1..];
    }
  }

  /** Ending a transaction releases the connection at most once, exactly when
      it succeeds, and only after its statement was sent; none of it is logged. */
  lemma {:induction false} EndTransactionReleasesOnce(handle: Handle, statement: string,
                                                      reply: Outcome<DbError>,
                                                      r: Outcome<Error>, effects: seq<Effect>)
    requires EndsTransaction(handle, statement, reply, r, effects)
    ensures ReleaseCount(effects) <= 1
    ensures ReleaseCount(effects) == 1 <==> r.Pass?
    ensures r.Pass? ==> reply.Pass? && |effects| == 2 && effects[0].called.sql == Some(statement)
    ensures forall e | e in effects :: e.Called?
  {
    if CanQuery(handle) {
      var issue := Called(QueryCall(handle, Some(statement), None));
      assert ReleaseCount([issue]) == 0 by {
        assert [issue][1..] == [];
      }
      if r.Pass? {
        var release := Called(ReleaseCall(handle.issuer.connection));
        assert effects[1..] == [release];
        assert ReleaseCount([release]) == 1 by {
          assert [release][1..] == [];
        }
      }
    }
  }

  /** Release counts add up over consecutive operations. */
  lemma {:induction false} ReleaseCountAppend(a: seq<Effect>, b: seq<Effect>)
    ensures ReleaseCount(a + b) == ReleaseCount(a) + ReleaseCount(b)
  {
    if a != [] {
      assert (a + b)[1..] == a[1..] + b;
      ReleaseCountAppend(a[1..], b);
    } else {
      assert a + b == b;
    }
  }
}
