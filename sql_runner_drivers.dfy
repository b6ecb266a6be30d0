/** The `MysqlDriver` of lib/driver/implement/MysqlDriver.ts, the newer driver
    that hands out SQL runners (lib/driver/IDriver.ts) instead of query runners.
    Its runners are closures: the pooled one reads the driver's pool field each
    time it runs, the transaction one holds the connection it checked out. */
module SqlRunnerDrivers {
  import opened Wrappers
  import opened Errors
  import opened Sql
  import opened Mysql
  import opened Drivers
  import PoolLifecycle

  /** What `run` resolves to. */
  datatype SqlResult = SqlResult(fieldsInfo: seq<string>, results: seq<string>)

  /** The `{ run }` object of `getPoolSqlRunner`, which captures the driver. */
  datatype PoolSqlRunner = PoolSqlRunner(driver: MysqlDriver)

  /** The `{ release, run }` object of `getTransactionSqlRunner`, which
      captures one checked-out connection. */
  datatype TransactionSqlRunner = TransactionSqlRunner(connection: PoolConnection)

  /** How a `run` promise settles on the library's answer: the results and
      field information reshaped into `{ fieldsInfo, results }`, or the
      library's error. */
  function Settle(reply: Result<Answer, DbError>): (r: Result<SqlResult, Error>)
    ensures r.Success? <==> reply.Success?
    ensures r.Success? ==>
      r.value.results == reply.value.results && r.value.fieldsInfo == reply.value.fieldsInfo
    ensures r.Failure? ==> r.error == Database(reply.error)
  {
    match reply
    case Success(Answer(results, fieldsInfo)) => Success(SqlResult(fieldsInfo, results))
    case Failure(error) => Failure(Database(error))
  }

  class MysqlDriver {
    const options: DriverOptions
    var pool: Option<Pool>

    constructor (options: DriverOptions)
      ensures this.options == options && pool.None?
    {
      this.options := options;
      pool := None;
    }

    /** `getPoolSqlRunner`: a runner bound to this driver, whatever its state. */
    method GetPoolSqlRunner() returns (runner: PoolSqlRunner)
      ensures runner.driver == this
    {
      runner := PoolSqlRunner(this);
    }

    /** `getTransactionSqlRunner`: check a connection out, failing as
        `getConnection` does when there is no pool or the checkout fails. */
    method GetTransactionSqlRunner(checkout: Result<PoolConnection, DbError>)
      returns (r: Result<TransactionSqlRunner, Error>, calls: seq<LibraryCall>)
      ensures var (got, made) := PoolLifecycle.GetConnection(pool, checkout);
              calls == made && (r.Success? <==> got.Success?) &&
              (r.Success? ==> r.value == TransactionSqlRunner(got.value)) &&
              (r.Failure? ==> r.error == got.error)
      ensures pool.None? ==> r == Failure(Rejected(PoolLifecycle.NoPoolMessage))
    {
      var got;
      got, calls := GetConnection(checkout);
      if got.Failure? {
        return Failure(got.error), calls;
      }
      r := Success(TransactionSqlRunner(got.value));
    }

    /** `connect`, that is `createPool(this.options)`. */
    method Connect(created: Pool, trial: Result<PoolConnection, DbError>)
      returns (r: Outcome<Error>, calls: seq<LibraryCall>)
      modifies this
      ensures var t := PoolLifecycle.CreatePool(old(pool), options.config, created, trial);
              pool == t.pool && r == t.outcome && calls == t.calls
    {
      if pool.Some? {
        return Pass, [];
      }
      calls := [CreatePoolCall(options.config), GetConnectionCall(created)];
      if trial.Failure? {
        return Fail(Database(trial.error)), calls + [EndCall(created)];
      }
      calls := calls + [ReleaseCall(trial.value)];
      pool := Some(created);
      r := Pass;
    }

    /** `disconnect`, that is `closePool()`. */
    method Disconnect(endError: Option<DbError>) returns (r: Outcome<Error>, calls: seq<LibraryCall>)
      modifies this
      ensures var t := PoolLifecycle.ClosePool(old(pool), endError);
              pool == t.pool && r == t.outcome && calls == t.calls
    {
      if pool.None? {
        return Pass, [];
      }
      calls := [EndCall(pool.value)];
      if endError.Some? {
        return Fail(Database(endError.value)), calls;
      }
      pool := None;
      r := Pass;
    }

    /** `getConnection`. */
    method GetConnection(checkout: Result<PoolConnection, DbError>)
      returns (r: Result<PoolConnection, Error>, calls: seq<LibraryCall>)
      ensures (r, calls) == PoolLifecycle.GetConnection(pool, checkout)
    {
      if pool.None? {
        return Failure(Rejected(PoolLifecycle.NoPoolMessage)), [];
      }
      calls := [GetConnectionCall(pool.value)];
      r := if checkout.Failure? then Failure(Database(checkout.error)) else Success(checkout.value);
    }
  }

  /** The pooled `run`: `this.pool!.query(sql, values)`, read when it runs. With
      no pool the lookup of `query` on `undefined` throws. */
  method RunPooled(runner: PoolSqlRunner, sql: string, values: Values, reply: Result<Answer, DbError>)
    returns (r: Result<SqlResult, Error>, calls: seq<LibraryCall>)
    ensures runner.driver.pool.None? ==> r == Failure(TypeError) && calls == []
    ensures runner.driver.pool.Some? ==>
      calls == [PoolQueryCall(runner.driver.pool.value, Some(sql), values)] && r == Settle(reply)
  {
    var pool := runner.driver.pool;
    if pool.None? {
      return Failure(TypeError), [];
    }
    calls := [PoolQueryCall(pool.value, Some(sql), values)];
    r := Settle(reply);
  }

  /** The transaction `run`: the statement goes through the captured
      connection, with sql and values unchanged. */
  method RunInTransaction(runner: TransactionSqlRunner, sql: string, values: Values,
                          reply: Result<Answer, DbError>)
    returns (r: Result<SqlResult, Error>, calls: seq<LibraryCall>)
    ensures calls == [ConnectionQueryCall(runner.connection, Some(sql), values)]
    ensures r == Settle(reply)
  {
    calls := [ConnectionQueryCall(runner.connection, Some(sql), values)];
    r := Settle(reply);
  }

  /** The transaction `release`: return the captured connection; it always
      resolves. */
  method Release(runner: TransactionSqlRunner) returns (r: Outcome<Error>, calls: seq<LibraryCall>)
    ensures r == Pass && calls == [ReleaseCall(runner.connection)]
  {
    r, calls := Pass, [ReleaseCall(runner.connection)];
  }
}
