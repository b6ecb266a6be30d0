/** The `MysqlDriver` of lib/driver/implement/mysql-driver.ts, the driver the
    connection uses: it keeps an optional pool and builds query runners. */
module MysqlDrivers {
  import opened Wrappers
  import opened Errors
  import opened Mysql
  import opened Drivers
  import opened Options
  import opened QueryRunners
  import opened RunnerFactory
  import PoolLifecycle

  class MysqlDriver {
    const options: DriverOptions
    var pool: Option<Pool>

    constructor (options: DriverOptions)
      ensures this.options == options && pool.None?
    {
      this.options := options;
      pool := None;
    }

    /** `createQueryRunner(isTransaction)`: a truthy flag checks out a dedicated
        connection first, and fails when that does; otherwise the pool field,
        unchecked and possibly unset, becomes the issuer. The runner comes from
        `queryRunnerFactory` as written, which swaps the issuer and the
        connection. `connection` is the connection that owns this driver;
        `checkout` is the library's answer to a checkout, consulted only for a
        transaction. */
    method CreateQueryRunner(connection: ConnectionInfo, isTransaction: Option<bool>,
                             checkout: Result<PoolConnection, DbError>)
      returns (r: Result<QueryRunner, Error>, calls: seq<LibraryCall>)
      ensures !Truthy(isTransaction) ==>
        r == Success(QueryRunnerFactoryAsWritten(connection, PoolIssuer(pool), isTransaction)) && calls == []
      ensures Truthy(isTransaction) ==>
        var (got, made) := PoolLifecycle.GetConnection(pool, checkout);
        calls == made && (r.Success? <==> got.Success?) &&
        (r.Success? ==> r.value == QueryRunnerFactoryAsWritten(connection, DedicatedIssuer(got.value), isTransaction)) &&
        (r.Failure? ==> r.error == got.error)
      ensures r.Success? ==> r.value.connection.IssuerHandle?
    {
      if !Truthy(isTransaction) {
        return Success(QueryRunnerFactoryAsWritten(connection, PoolIssuer(pool), isTransaction)), [];
      }
      var got;
      got, calls := GetConnection(checkout);
      if got.Failure? {
        return Failure(got.error), calls;
      }
      r := Success(QueryRunnerFactoryAsWritten(connection, DedicatedIssuer(got.value), isTransaction));
    }

    /** `connect`, that is `createPool(this.options)`. `created` is the pool the
        library makes and `trial` its answer to the trial checkout. */
    method Connect(created: Pool, trial: Result<PoolConnection, DbError>)
      returns (r: Outcome<Error>, calls: seq<LibraryCall>)
      modifies this
      ensures var t := PoolLifecycle.CreatePool(old(pool), options.config, created, trial);
              pool == t.pool && r == t.outcome && calls == t.calls
    {
      if pool.Some? {
        return Pass, [];
      }
      calls := [CreatePoolCall(options.config), GetConnectionCall(created)];
      if trial.Failure? {
        // the new pool is ended and the trial's error reported
        return Fail(Database(trial.error)), calls + [EndCall(created)];
      }
      calls := calls + [ReleaseCall(trial.value)];
      pool := Some(created);
      r := Pass;
    }

    /** `disconnect`. `endError` is the error `pool.end` reports, if any. */
    method Disconnect(endError: Option<DbError>) returns (r: Outcome<Error>, calls: seq<LibraryCall>)
      modifies this
      ensures var t := PoolLifecycle.ClosePool(old(pool), endError);
              pool == t.pool && r == t.outcome && calls == t.calls
    {
      if pool.None? {
        return Pass, [];
      }
      calls := [EndCall(pool.value)];
      if endError.Some? {
        return Fail(Database(endError.value)), calls;
      }
      pool := None;
      r := Pass;
    }

    /** `getConnection`. `checkout` is the library's answer to the checkout. */
    method GetConnection(checkout: Result<PoolConnection, DbError>)
      returns (r: Result<PoolConnection, Error>, calls: seq<LibraryCall>)
      ensures (r, calls) == PoolLifecycle.GetConnection(pool, checkout)
    {
      if pool.None? {
        return Failure(Rejected(PoolLifecycle.NoPoolMessage)), [];
      }
      calls := [GetConnectionCall(pool.value)];
      r := if checkout.Failure? then Failure(Database(checkout.error)) else Success(checkout.value);
    }
  }
}
