# db-query, modelled in Dafny

db-query is a small TypeScript data-access layer over the `mysql` client
library. A `ConnectionManager` keeps named `Connection`s. Each connection
owns a logger, chosen by `loggerFactory`, and a driver, chosen by
`driverFactory`. The MySQL driver keeps an optional connection pool and
builds query runners. A runner logs each statement, sends it through the
pool or through a connection checked out for a transaction, and logs it as
slow when it took longer than the connection's threshold. A newer driver
hands out SQL runners instead (`{ run }` and `{ run, release }`). A second
console logger implements the newer query-hook interface. `lib/index.ts`
exposes one module-level manager through a few functions.

The model follows the code:

- Objects whose fields the code updates in place are classes:
  - `Connection`, whose `isDriverConnected` flag changes;
  - both `MysqlDriver`s, whose `pool` field changes;
  - `ConnectionManager`, whose `connections` list changes;
  - the `lib/index.ts` facade, which holds the one manager.
- Values are datatypes: options, loggers, runners, library handles and
  errors.
- Everything the `mysql` library decides is a parameter of the operation
  that consults it:
  - the pool `createPool` makes;
  - the answer to a checkout;
  - the error `pool.end` reports;
  - the reply to a statement.
- Every operation returns the ordered list of library calls it made, so
  "which calls, in what order" is part of each contract.
- Query runners also return the calls made on the connection's logger, as
  `Effect`s.
- A console logger method is the list of console lines it prints.
- The MySQL driver of lib/driver/implement/mysql-driver.ts, the one
  `driverFactory` builds, makes its runners with `queryRunnerFactory` as
  written (mysql-driver.ts:17), which swaps its two arguments (see
  "## Findings"). The newer driver of MysqlDriver.ts builds its `run`
  closures without the factory, and the Mongo driver builds nothing. So the connections and
  `lib/index.ts` hand out runners that cannot run a statement, as in the
  code. The corrected factory, `RunnerFactory.QueryRunnerFactory`, is a
  separate member. The scenarios that show what a runner is meant to do
  build their runners with it.
- Thrown errors and rejected promises are `Failure`/`Fail` values:
  - `Thrown(message)` for `throw new Error(message)`;
  - `Rejected(reason)` for a rejection with a plain string;
  - `Database(cause)` for an error the library reports;
  - `TypeError` for calling a method that does not exist.

Modules: `Wrappers`, `Errors`, `Sql` and `Mysql` (vocabulary),
`PoolLifecycle` (the pool field's state machine, shared by both drivers),
`Logging`, `ConsoleLogging`, `HookLogging`, `Loggers`, `Drivers`,
`Options`, `QueryRunners`, `RunnerFactory`, `MysqlDrivers`,
`SqlRunnerDrivers`, `Connections`, `Registry`, `Index` and `Scenarios`
(client flows like those of `test/index.ts`).

Behaviour a reader might expect that the code does not have (the model
follows the code):

- A transaction state machine that refuses a second commit or a statement
  after rollback. transaction-query-runner.ts:6-24 has no such guard.
  `Scenarios.RepeatedCommitReleasesTwice` shows that committing twice
  sends COMMIT twice and releases twice.
- A list of query hooks on the connection. The connection takes no `hooks`
  option: it is commented out in `test/index.ts:18`, and
  `IConnectionOptions` has none. Hooks reach the model only as the
  `HookLogging` console logger.
- Logging a failed statement through the logger's `logQueryError` before
  the error propagates. No runner ever calls `logQueryError`:
  a failed statement is returned unlogged. `QueryRunners.Query` states that
  no effect it produces is a query-error log.
- The two console loggers read an array of levels in opposite ways. The
  `ILogger` console logger prints a kind when the array does NOT list it
  (`!this.options.includes(...)`). The query-hook console logger prints it
  when the array lists it. `HookLogging.ArrayBranchesDisagree` states both
  readings.

## Model

| member | source | states |
|---|---|---|
| PoolLifecycle.CreatePool | lib/driver/implement/mysql-driver.ts:53-76 | with a pool nothing happens; otherwise create, trial checkout, then end the pool and reject on a failed trial, or release the trial connection and keep the pool; succeeds iff a pool is kept |
| PoolLifecycle.ClosePool | lib/driver/implement/MysqlDriver.ts:105-119 | without a pool it resolves and makes no call; otherwise it ends the pool; it succeeds iff the pool is forgotten; with a pool, an end error rejects with that error and keeps the pool, and a failure happens only then |
| PoolLifecycle.GetConnection | lib/driver/implement/mysql-driver.ts:78-92 | rejects with "Database connection pool does not exist." and makes no call without a pool; otherwise one checkout, which succeeds iff the library's answer does, with that connection |
| PoolLifecycle.CreatePoolIsIdempotent | lib/driver/implement/mysql-driver.ts:56-58 | after a successful createPool, a second one keeps the same pool and makes no library call |
| PoolLifecycle.CloseAfterCreateForgetsPool | lib/driver/implement/mysql-driver.ts:30-44 | create then close ends exactly that pool and forgets it, so the next connect creates a new pool |
| Logging.StringifyParams | lib/logger/stringfy-params.ts:5-12 | the parameters' JSON text is a bracketed array |
| Logging.SqlText | lib/logger/implement/console-logger.ts:20-21 | the printed statement starts with the query; it equals the query iff no non-empty parameter array is given; otherwise " -- PARAMETERS: " and the JSON follow |
| ConsoleLogging.LogQueryLines | lib/logger/implement/console-logger.ts:14-25 | prints iff options are "all", true, or an array NOT listing "query"; then exactly one console.log line "query:" with the statement |
| ConsoleLogging.LogQueryErrorLines | lib/logger/implement/console-logger.ts:30-42 | prints iff the "error" gate is open; then the statement line and the error line, both on console.error |
| ConsoleLogging.Passes | lib/logger/implement/console-logger.ts:15-19 | the gate is open for "all" and true, closed for missing options and false, and for an array open exactly when the array does NOT list the key |
| ConsoleLogging.LogQuerySlowLines | lib/logger/implement/console-logger.ts:47-52 | always two console.warn lines, with no gate: "query is slow:" with the statement, then "execution time:" with the time |
| ConsoleLogging.LogMigrationLines | lib/logger/implement/console-logger.ts:57-59 | the message alone on console.log, with no gate |
| ConsoleLogging.Render | lib/logger/implement/console-logger.ts:14-59 | with no options or `false`, only slow-query warnings and migration messages are printed |
| ConsoleLogging.ListingAKindSilencesIt | lib/logger/implement/console-logger.ts:18 | `["query"]` silences logQuery while `["error"]` and `[]` do not; `["query","error"]` silences logQueryError |
| HookLogging.Enabled | lib/logger/ConsoleLogger.ts:21 | a kind is enabled for "all" and true, disabled for false, and for an array exactly when the array lists it |
| HookLogging.NewConsoleLogger | lib/logger/ConsoleLogger.ts:62-66 | given options are kept; the default options enable every hook |
| HookLogging.OnQuery | lib/logger/ConsoleLogger.ts:18-28 | prints iff level is "all", true, or an array listing "query"; then one console.log line with the statement |
| HookLogging.OnError | lib/logger/ConsoleLogger.ts:33-44 | prints iff "error" is enabled; then the statement and error lines on console.error |
| HookLogging.OnSlow | lib/logger/ConsoleLogger.ts:49-60 | prints iff "slow" is enabled; then the statement and execution time lines on console.warn |
| HookLogging.SlowOnlyLevel | lib/logger/ConsoleLogger.ts:52 | level `["slow"]` silences onQuery and onError but not onSlow |
| HookLogging.ArrayBranchesDisagree | lib/logger/ConsoleLogger.ts:21 | the same array makes the hook logger print and the ILogger console logger stay silent, and the empty array does the reverse |
| Loggers.LoggerFactory | lib/logger/logger-factory.ts:17-39 | a logger object is returned as given; the four named kinds throw "Not implement!"; anything else yields a console logger with the options |
| Drivers.DriverFactory | lib/driver/driver-factory.ts:9-19 | "mysql" and "mongodb" build their driver with the options unchanged; any other type throws an error with no message |
| Options.ConnectionName | lib/connection/connection.ts:108 | a missing or empty name becomes "default"; a resolved name is never empty |
| Options.NameArgument | lib/connection/connection-manager.ts:25 | only a missing argument defaults to "default"; an empty one is kept |
| Options.MaxQueryExecutionTime | lib/connection/connection.ts:110 | a missing or zero threshold becomes 60000 ms; a resolved threshold is never zero |
| QueryRunners.Query | lib/query-runner/implements/base-query-runner.ts:4-18 | logs the statement before sending it; sends it once through the issuer; returns the reply; logs it as slow, third, iff the reply succeeded and elapsed time is strictly above the threshold; never logs a query error; a runner without a logger or without a query method fails with TypeError |
| QueryRunners.StartTransaction | lib/query-runner/implements/transaction-query-runner.ts:6-8 | the isolation level itself, possibly undefined, is the only statement sent; nothing is logged |
| QueryRunners.ReleaseConnection | lib/query-runner/implements/transaction-query-runner.ts:22-24 | one release of the checked-out connection, or TypeError when the issuer has no release |
| QueryRunners.CommitTransaction | lib/query-runner/implements/transaction-query-runner.ts:9-12 | sends COMMIT and releases only after it succeeded; nothing logged |
| QueryRunners.RollbackTransaction | lib/query-runner/implements/transaction-query-runner.ts:13-16 | sends ROLLBACK and releases only after it succeeded; nothing logged |
| QueryRunners.EndTransaction | lib/query-runner/implements/transaction-query-runner.ts:9-16 | the shared shape of commit and rollback: statement, then release on success |
| QueryRunners.EndTransactionReleasesOnce | lib/query-runner/implements/transaction-query-runner.ts:9-16 | ending a transaction releases at most once, exactly when it succeeds, after its statement, and logs nothing |
| RunnerFactory.QueryRunnerFactoryAsWritten | lib/query-runner/query-runner-factory.ts:5-11 | a truthy flag picks the transaction runner; the connection lands in the issuer slot and the issuer in the connection slot |
| RunnerFactory.AsWrittenRunnerCannotQuery | lib/query-runner/query-runner-factory.ts:7-9 | every runner the factory as written builds fails query with TypeError and no effect |
| RunnerFactory.AsWrittenRunnerCannotCommit | lib/query-runner/query-runner-factory.ts:7 | a transaction runner built as written fails commit with TypeError and no effect |
| RunnerFactory.QueryRunnerFactory | lib/query-runner/implements/pool-query-runner.ts:6-8 | with arguments in constructor order, the runner sends through the issuer and logs through the connection, and can run whenever the issuer can query |
| RunnerFactory.CorrectedRunnerQueries | lib/query-runner/implements/base-query-runner.ts:7-9 | a corrected transaction runner logs a statement and then sends it on its own checked-out connection |
| MysqlDrivers.MysqlDriver.constructor | lib/driver/implement/mysql-driver.ts:46-48 | a driver keeps its options and starts without a pool |
| MysqlDrivers.MysqlDriver.CreateQueryRunner | lib/driver/implement/mysql-driver.ts:14-18 | a truthy flag checks a connection out, failing as getConnection does, and builds a transaction runner on it; otherwise a runner over the pool field, set or not, with no library call; either runner comes from the factory as written, with the connection in the issuer slot |
| MysqlDrivers.MysqlDriver.Connect | lib/driver/implement/mysql-driver.ts:23-25 | follows PoolLifecycle.CreatePool on the driver's own options |
| MysqlDrivers.MysqlDriver.Disconnect | lib/driver/implement/mysql-driver.ts:30-44 | follows PoolLifecycle.ClosePool |
| MysqlDrivers.MysqlDriver.GetConnection | lib/driver/implement/mysql-driver.ts:78-92 | equals PoolLifecycle.GetConnection on the current pool |
| SqlRunnerDrivers.Settle | lib/driver/implement/MysqlDriver.ts:15-23 | resolves iff the library replies without error, with its results and field information; otherwise rejects with the library's error |
| SqlRunnerDrivers.MysqlDriver.constructor | lib/driver/implement/MysqlDriver.ts:73-75 | a driver keeps its options and starts without a pool |
| SqlRunnerDrivers.MysqlDriver.GetPoolSqlRunner | lib/driver/implement/MysqlDriver.ts:12-29 | the runner is bound to this driver, whatever its state |
| SqlRunnerDrivers.MysqlDriver.GetTransactionSqlRunner | lib/driver/implement/MysqlDriver.ts:31-57 | checks a connection out, failing as getConnection does (rejecting with the fixed message without a pool), and binds the runner to it |
| SqlRunnerDrivers.MysqlDriver.Connect | lib/driver/implement/MysqlDriver.ts:62-64 | follows PoolLifecycle.CreatePool |
| SqlRunnerDrivers.MysqlDriver.Disconnect | lib/driver/implement/MysqlDriver.ts:69-71 | follows PoolLifecycle.ClosePool |
| SqlRunnerDrivers.MysqlDriver.GetConnection | lib/driver/implement/MysqlDriver.ts:121-135 | equals PoolLifecycle.GetConnection on the current pool |
| SqlRunnerDrivers.RunPooled | lib/driver/implement/MysqlDriver.ts:13-26 | reads the pool when it runs: TypeError and no call without one, else one pool query with sql and values unchanged, settled as the reply |
| SqlRunnerDrivers.RunInTransaction | lib/driver/implement/MysqlDriver.ts:34-47 | one query on the captured connection with sql and values unchanged, settled as the reply |
| SqlRunnerDrivers.Release | lib/driver/implement/MysqlDriver.ts:49-54 | always resolves after one release of the captured connection |
| Connections.ConstructionError | lib/connection/connection.ts:107-113 | construction fails iff the logger factory or the driver factory throws, the logger factory's error taking precedence |
| Connections.Connection.constructor | lib/connection/connection.ts:115-118 | a connection keeps the fields it is given and starts disconnected |
| Connections.Connection.IsConnected | lib/connection/connection.ts:61-63 | the getter is the private connected flag, which Open sets and Close clears |
| Connections.Connection.New | lib/connection/connection.ts:107-113 | fails with the construction error; otherwise a fresh, disconnected connection with the resolved name and threshold, the factory's logger and an idle driver of the factory's kind |
| Connections.Connection.Open | lib/connection/connection.ts:71-83 | refused with the name, touching nothing, when connected; otherwise follows the driver's connect, and is connected afterwards iff it was or the connect succeeded |
| Connections.Connection.Close | lib/connection/connection.ts:89-97 | refused with the name, touching nothing, when not connected; otherwise follows the driver's disconnect, and stays connected iff the disconnect failed |
| Connections.Connection.GetQueryRunner | lib/connection/connection.ts:99-101 | the as-written factory's pooled runner over the driver's pool field as it is, connected or not; the Mongo driver throws "Method not implemented." |
| Connections.Connection.GetTransactionQueryRunner | lib/connection/connection.ts:103-105 | the as-written factory's transaction runner over a freshly checked-out connection, failing as the checkout does; the Mongo driver throws |
| Registry.IndexOfName | lib/connection/connection-manager.ts:26 | `find` by name: the first matching position, or none when no entry has the name |
| Registry.Without | lib/connection/connection-manager.ts:48 | `splice(k, 1)` drops the entry at k and keeps the others in order |
| Registry.Evicted | lib/connection/connection-manager.ts:40-49 | the list after create drops the entry found under the name: unchanged when there is none, one shorter otherwise, only old entries, and with distinct names no entry left carries the name |
| Registry.Refuses | lib/connection/connection-manager.ts:40-45 | create refuses iff the first entry with the name is connected |
| Registry.CreateKeepsNamesDistinct | lib/connection/connection-manager.ts:38-55 | dropping the entry with the new connection's name and appending it keeps names distinct, makes it the entry found under its name, and grows the list iff the name was new |
| Registry.ConnectionManager.constructor | lib/connection/connection-manager.ts:11 | a manager starts with no connections |
| Registry.ConnectionManager.Has | lib/connection/connection-manager.ts:16-18 | true iff some registered connection has the name |
| Registry.ConnectionManager.Get | lib/connection/connection-manager.ts:25-32 | the first connection with the name (defaulting to "default"), connected or not; otherwise throws with the name |
| Registry.ConnectionManager.Create | lib/connection/connection-manager.ts:38-55 | refuses a name whose entry is connected, changing nothing; otherwise drops that entry, and either reports the construction error or appends the new disconnected connection built from the options (resolved name and threshold, the factory's logger, an idle driver of the factory's kind), which get then finds; names stay distinct and non-empty |
| Index.Facade.constructor | lib/index.ts:8 | loading the module creates one manager, empty |
| Index.Facade.GetConnectionManager | lib/index.ts:10-12 | always the one module-level manager |
| Index.Facade.GetConnection | lib/index.ts:14-16 | the manager's get with the "default" argument |
| Index.Facade.GetQueryRunner | lib/index.ts:18-20 | an unknown name throws with the name; otherwise the found connection's pooled runner from the factory as written, or "Method not implemented." for a Mongo connection |
| Index.Facade.GetTransactionQueryRunner | lib/index.ts:22-24 | an unknown name throws with no library call; otherwise the as-written factory's transaction runner over a checked-out connection, failing with the checkout's error, or "Method not implemented." for a Mongo connection |
| Index.Facade.CreateConnection | lib/index.ts:26-32 | register, then open: refusals and construction errors make no library call; the new connection is built from the options as `Create` states; a MySQL connection's open makes the pool calls of createPool, leaves the driver's pool as createPool does, and succeeds iff the trial does; a Mongo connection's open always throws "Method not implemented." with no call; a failed open leaves the new connection registered and disconnected; success returns the registered, connected connection |
| Scenarios.SlowQueryIsLoggedOnce | lib/query-runner/implements/base-query-runner.ts:11-15 | on a corrected runner, a 50 ms statement under a 10 ms threshold is logged, sent, then logged slow with 50 |
| Scenarios.SilentLoggerStillWarnsWhenSlow | lib/logger/implement/console-logger.ts:47-52 | on a corrected runner with logging `false`, a statement prints the two warnings iff it is slow and nothing otherwise |
| Scenarios.RollbackFlowReleasesOnce | test/index.ts:55-63 | the rollback test's flow on a corrected runner: start with no isolation level, query, roll back; undefined is sent as a statement, COMMIT never is, and the connection is released once. The test's `run` (line 58) is this runner's `query`, and its `release()` (line 60) has no counterpart on this runner and is left out |
| Scenarios.RepeatedCommitReleasesTwice | lib/query-runner/implements/transaction-query-runner.ts:9-12 | on a corrected runner, nothing guards a second commit: COMMIT and release are sent twice |
| Scenarios.IndexRunnerCannotQuery | lib/index.ts:18-20 | a runner handed out by getQueryRunner fails query with TypeError and has no effect |
| Scenarios.IndexTransactionNeverReleases | lib/index.ts:22-24 | a transaction through lib/index.ts checks one connection out of the pool and never releases it: commit fails with TypeError before its release |
| Scenarios.CreateMysqlConnection | lib/index.ts:26-32 | a MySQL connection created with a 5000 ms threshold has that threshold, a console logger and the pool `createPool` made, which was tried and the trial connection released; with a good trial it fails only when the name is refused |
| Scenarios.CreatedTransactionNeverReleases | lib/index.ts:22-32 | the setup and commit steps of test/index.ts:7-19 and 45-49 through lib/index.ts: createConnection with a MySQL driver, then getTransactionQueryRunner and commit (the test's startTransaction and `run` are left out): the checkout is taken from the pool createConnection made, commit fails with TypeError, and the checked-out connection is never released |
| Scenarios.CreateMongoConnection | lib/index.ts:26-32 | creating a Mongo connection never succeeds and makes no library call: either the name is refused or open throws "Method not implemented." |
| Scenarios.OpenCloseCycle | lib/connection/connection.ts:71-97 | open, open again (refused with "default"), close, close again (refused), reopen |

## Left out

- Promises, `async`/`await` and concurrency: each operation runs to completion. Interleaved operations, such as two `open`s racing before the flag is set, are not modelled.
- `Date.now()`: the two clock readings are parameters of `QueryRunners.Query`.
- The `mysql` library itself: its answers are parameters, and its calls are returned as values.
- `console`: output is returned as lines and not printed.
- Logging.StringifyParams: each parameter is taken to be its own JSON text. The fallback for circular parameters, which returns the array itself, is not modelled because a parameter list of strings cannot be circular.
- `BaseLogger` (lib/logger/implement/base-logger.ts) is not part of this model. The console logger's `stringifyParams` is taken to be the JSON text of `lib/logger/stringfy-params.ts`.
- A custom logger object's own behaviour: the model records the calls it receives, not what it prints.
- The Mongo driver is modelled only by what every one of its operations throws. The PostgreSQL drivers are not wired into any factory and are not modelled.
- The interfaces in lib/driver/IDriver.ts, lib/driver/driver.ts, lib/logger/logger.ts, lib/IQueryHook.ts and lib/query-runner/query-runner.ts are types only and have no behaviour to model.
- `example/` is application code and is not modelled.
- The runners' back-reference to their `Connection`: a runner holds the read-only part it uses (`ConnectionInfo`: name, logger, threshold), because those fields are `readonly` in the source.
- The driver's back-reference to its connection is passed to `MysqlDrivers.MysqlDriver.CreateQueryRunner` as a parameter rather than stored.
- `connections` is `readonly` but publicly mutable in the source. Only the manager's own methods change it here, and `Registry.ConnectionManager.Create` requires the invariant those methods keep.
- The second `defaultConnectionManager` exported by connection-manager.ts:58 is not modelled. `Index.Facade` models the one lib/index.ts:8 creates.
- Index.Facade, Scenarios.IndexRunnerCannotQuery, Scenarios.IndexTransactionNeverReleases, Scenarios.CreateMysqlConnection, Scenarios.CreateMongoConnection and Scenarios.CreatedTransactionNeverReleases assume that lib/index.ts uses the `ConnectionManager` of connection-manager.ts and the `Connection` of connection.ts. Its imports name `./connection/Connection` and `./connection/ConnectionManager` (lib/index.ts:1-2), and a `ConnectionManager` module under that name is not part of this model. test/index.ts calls `run` and `release()` on what lib/index.ts hands out (lines 28, 48, 50), which the modelled query runners do not have; those test calls are not modelled.
- HookLogging.NewConsoleLogger: an options object whose `level` is missing (which enables nothing) is not representable, because `LoggerOptions` always holds a level.
- Connections.Connection.GetQueryRunner: the checkout answer it passes to the driver is never consulted, because the flag is not truthy.
- Non-boolean truthy values of `isTransaction` are not modelled: the flag is an optional boolean.
- QueryRunners.Query: the `mysql` library's `query` answers only through a callback (lib/driver/implement/MysqlDriver.ts:15,36), but base-query-runner.ts:9 awaits it without one. As written, the await returns at once with the library's query object, so no real reply is awaited or timed. The model passes on the library's eventual reply and times the statement, which is the evidently intended reading. It does not capture the immediate return or an error raised only as an event.
- QueryRunners.StartTransaction: the same awaited call without a callback (transaction-query-runner.ts:7); the model settles on the library's reply.
- QueryRunners.EndTransaction: the same at transaction-query-runner.ts:10 and :14. As written, the release would follow COMMIT or ROLLBACK without waiting for it, even when it fails. The model releases only after a successful reply.
- Options.MaxQueryExecutionTime: the threshold is a JavaScript number modelled as an integer. NaN, which `||` replaces with 60000, and fractional thresholds such as 0.5, which are kept as they are, cannot be represented.
- Parameter values are opaque strings; the SQL placeholder substitution done by the library is not modelled.

## Findings

| source | as written | input that shows it | evidently intended | confidence | as-written member | corrected member |
|---|---|---|---|---|---|---|
| lib/query-runner/query-runner-factory.ts:7-9 | `new TransactionQueryRunner(connection, queryIssuer)` and `new PoolQueryRunner(connection, queryIssuer)`, while both constructors take `(driverQueryRunner, connection)` | any call of `query` on a runner from `getQueryRunner()`: `this.connection.logger` is read from the pool or checked-out connection, so `logger.logQuery` throws a TypeError before anything is sent. A runner from `getTransactionQueryRunner()` has also checked a connection out, which `commitTransaction` never releases | pass `(queryIssuer, connection)`, so that statements go through the issuer and are logged through the connection | high, not executed | RunnerFactory.AsWrittenRunnerCannotQuery | RunnerFactory.QueryRunnerFactory |
