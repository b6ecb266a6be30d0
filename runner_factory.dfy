/** `queryRunnerFactory` of lib/query-runner/query-runner-factory.ts. The
    source passes `(connection, queryIssuer)` to constructors that take
    `(driverQueryRunner, connection)`. `QueryRunnerFactoryAsWritten` keeps that
    order, and the MySQL driver uses it, as mysql-driver.ts:17 does.
    `QueryRunnerFactory` is the corrected order, used only by the scenarios
    that show what a runner is meant to do. */
module RunnerFactory {
  import opened Wrappers
  import opened Errors
  import opened Sql
  import opened Mysql
  import opened Options
  import opened QueryRunners
  import Logging

  /** `if (isTransaction)` on an optional boolean. */
  predicate Truthy(flag: Option<bool>) {
    flag == Some(true)
  }

  /** The factory as written: a truthy flag picks a transaction runner, and
      each constructor receives the connection where it expects the issuer and
      the issuer where it expects the connection. */
  function QueryRunnerFactoryAsWritten(connection: ConnectionInfo, queryIssuer: Issuer,
                                       isTransaction: Option<bool>): (r: QueryRunner)
    ensures r.TransactionQueryRunner? <==> Truthy(isTransaction)
    ensures r.driverQueryRunner == ConnectionHandle(connection)
    ensures r.connection == IssuerHandle(queryIssuer)
  {
    if Truthy(isTransaction) then
      TransactionQueryRunner(ConnectionHandle(connection), IssuerHandle(queryIssuer))
    else
      PoolQueryRunner(ConnectionHandle(connection), IssuerHandle(queryIssuer))
  }

  /** The factory with the arguments in the constructors' order: the runner
      sends statements through the issuer and logs through the connection. */
  function QueryRunnerFactory(connection: ConnectionInfo, queryIssuer: Issuer,
                              isTransaction: Option<bool>): (r: QueryRunner)
    ensures r.TransactionQueryRunner? <==> Truthy(isTransaction)
    ensures r.driverQueryRunner == IssuerHandle(queryIssuer)
    ensures r.connection == ConnectionHandle(connection)
    ensures CanQuery(IssuerHandle(queryIssuer)) ==> CanRun(r)
  {
    if Truthy(isTransaction) then
      TransactionQueryRunner(IssuerHandle(queryIssuer), ConnectionHandle(connection))
    else
      PoolQueryRunner(IssuerHandle(queryIssuer), ConnectionHandle(connection))
  }

  /** With the swapped arguments, `query` fails on every runner the factory
      builds, before logging or sending anything. */
  method AsWrittenRunnerCannotQuery(connection: ConnectionInfo, queryIssuer: Issuer,
                                    isTransaction: Option<bool>, sql: string, values: Values,
                                    reply: Result<Answer, DbError>, startTime: int, endTime: int)
    returns (r: Result<Answer, Error>, effects: seq<Effect>)
    ensures r == Failure(TypeError) && effects == []
  {
    var runner := QueryRunnerFactoryAsWritten(connection, queryIssuer, isTransaction);
    r, effects := Query(runner, sql, values, reply, startTime, endTime);
  }

  /** With the swapped arguments, the transaction statements fail too: the
      connection has no `query` method. */
  method AsWrittenRunnerCannotCommit(connection: ConnectionInfo, queryIssuer: Issuer,
                                     reply: Outcome<DbError>)
    returns (r: Outcome<Error>, effects: seq<Effect>)
    ensures r == Fail(TypeError) && effects == []
  {
    var runner := QueryRunnerFactoryAsWritten(connection, queryIssuer, Some(true));
    r, effects := CommitTransaction(runner, reply);
  }

  /** With the corrected order, a runner over a checked-out connection logs the
      statement, then sends it through that very connection. */
  method CorrectedRunnerQueries(connection: ConnectionInfo, checkedOut: PoolConnection,
                                sql: string, values: Values, answer: Answer,
                                startTime: int, endTime: int)
    returns (r: Result<Answer, Error>, effects: seq<Effect>)
    ensures r == Success(answer)
    ensures |effects| >= 2 && effects[..2] == [Logged(Logging.LogQuery(sql, values)),
                             Called(ConnectionQueryCall(checkedOut, Some(sql), values))]
  {
    var runner := QueryRunnerFactory(connection, DedicatedIssuer(checkedOut), Some(true));
    r, effects := Query(runner, sql, values, Success(answer), startTime, endTime);
  }
}
