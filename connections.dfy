/** `Connection` of lib/connection/connection.ts: a named connection that owns
    one driver and tracks whether it is connected. */
module Connections {
  import opened Wrappers
  import opened Errors
  import opened Mysql
  import opened Drivers
  import opened Loggers
  import opened Options
  import opened QueryRunners
  import opened RunnerFactory
  import PoolLifecycle
  import MysqlDrivers

  /** What every operation of lib/driver/implement/mongo-driver.ts throws. */
  const MethodNotImplemented := "Method not implemented."

  /** The driver a connection owns: a MySQL driver object, or the Mongo driver,
      whose every operation throws. */
  datatype Driver = MysqlDriverRef(mysql: MysqlDrivers.MysqlDriver) | MongoDriverStub(options: DriverOptions) {
    function Footprint(): set<object> {
      if MysqlDriverRef? then {mysql} else {}
    }

    /** A driver that has not connected yet. */
    predicate Idle()
      reads Footprint()
    {
      MysqlDriverRef? ==> mysql.pool.None?
    }

    /** The driver is the one `build` describes. */
    predicate BuiltBy(build: DriverBuild) {
      match build
      case BuildMysqlDriver(options) => MysqlDriverRef? && mysql.options == options
      case BuildMongoDriver(options) => this == MongoDriverStub(options)
    }
  }

  /** The error the constructor throws, if any: the logger factory runs first,
      then the driver factory. */
  function ConstructionError(options: ConnectionOptions): (e: Option<Error>)
    ensures e.None? <==>
      LoggerFactory(options.loggerType, options.logOptions).Success? &&
      DriverFactory(options.driver).Success?
    ensures LoggerFactory(options.loggerType, options.logOptions).Failure? ==>
      e == Some(LoggerFactory(options.loggerType, options.logOptions).error)
    ensures e.Some? && LoggerFactory(options.loggerType, options.logOptions).Success? ==>
      e == Some(DriverFactory(options.driver).error)
  {
    var logger := LoggerFactory(options.loggerType, options.logOptions);
    var driver := DriverFactory(options.driver);
    if logger.Failure? then Some(logger.error)
    else if driver.Failure? then Some(driver.error)
    else None
  }

  class Connection {
    const name: string
    const maxQueryExecutionTime: int
    const logger: Logger
    const driver: Driver
    var isDriverConnected: bool

    /** The getter `isConnected`: the private flag, read without change. */
    predicate IsConnected(): (r: bool)
      reads this
      ensures r <==> isDriverConnected
    {
      isDriverConnected
    }

    /** What a query runner reads of this connection. */
    function Info(): ConnectionInfo {
      ConnectionInfo(name, logger, maxQueryExecutionTime)
    }

    constructor (name: string, maxQueryExecutionTime: int, logger: Logger, driver: Driver)
      ensures this.name == name && this.maxQueryExecutionTime == maxQueryExecutionTime
      ensures this.logger == logger && this.driver == driver
      ensures !isDriverConnected
    {
      this.name := name;
      this.maxQueryExecutionTime := maxQueryExecutionTime;
      this.logger := logger;
      this.driver := driver;
      isDriverConnected := false;
    }

    /** `new Connection(options)`: default the name and the threshold, get a
        logger and a driver from their factories (either may throw), and start
        disconnected. */
    static method New(options: ConnectionOptions) returns (r: Result<Connection, Error>)
      ensures r.Failure? <==> ConstructionError(options).Some?
      ensures r.Failure? ==> r.error == ConstructionError(options).value
      ensures r.Success? ==>
        fresh(r.value) && fresh(r.value.driver.Footprint()) &&
        r.value.name == ConnectionName(options.name) &&
        r.value.maxQueryExecutionTime == MaxQueryExecutionTime(options.maxQueryExecutionTime) &&
        r.value.logger == LoggerFactory(options.loggerType, options.logOptions).value &&
        r.value.driver.BuiltBy(DriverFactory(options.driver).value) &&
        r.value.driver.Idle() && !r.value.isDriverConnected
    {
      var logger := LoggerFactory(options.loggerType, options.logOptions);
      if logger.Failure? {
        return Failure(logger.error);
      }
      var build := DriverFactory(options.driver);
      if build.Failure? {
        return Failure(build.error);
      }
      var driver;
      match build.value {
        case BuildMysqlDriver(driverOptions) =>
          var mysql := new MysqlDrivers.MysqlDriver(driverOptions);
          driver := MysqlDriverRef(mysql);
        case BuildMongoDriver(driverOptions) =>
          driver := MongoDriverStub(driverOptions);
      }
      var connection := new Connection(ConnectionName(options.name),
                                       MaxQueryExecutionTime(options.maxQueryExecutionTime),
                                       logger.value, driver);
      r := Success(connection);
    }

    /** `open`: refused, with the name as message and without touching the
        driver, when already connected; otherwise connect the driver once and
        become connected only if that succeeds. `created` and `trial` are the
        library's answers to the driver's `createPool`. */
    method Open(created: Pool, trial: Result<PoolConnection, DbError>)
      returns (r: Outcome<Error>, calls: seq<LibraryCall>)
      modifies this, driver.Footprint()
      ensures old(isDriverConnected) ==>
        r == Fail(Thrown(name)) && calls == [] && unchanged(driver.Footprint())
      ensures !old(isDriverConnected) && driver.MysqlDriverRef? ==>
        var t := PoolLifecycle.CreatePool(old(driver.mysql.pool), driver.mysql.options.config, created, trial);
        r == t.outcome && calls == t.calls && driver.mysql.pool == t.pool
      ensures !old(isDriverConnected) && driver.MongoDriverStub? ==>
        r == Fail(Thrown(MethodNotImplemented)) && calls == []
      ensures isDriverConnected == (old(isDriverConnected) || r.Pass?)
    {
      if isDriverConnected {
        return Fail(Thrown(name)), [];
      }
      match driver {
        case MysqlDriverRef(mysql) =>
          r, calls := mysql.Connect(created, trial);
        case MongoDriverStub(_) =>
          r, calls := Fail(Thrown(MethodNotImplemented)), [];
      }
      if r.Pass? {
        isDriverConnected := true;
      }
    }

    /** `close`: refused, with the name as message and without touching the
        driver, when not connected; otherwise disconnect the driver and become
        disconnected only if that succeeds. `endError` is what `pool.end`
        reports. */
    method Close(endError: Option<DbError>) returns (r: Outcome<Error>, calls: seq<LibraryCall>)
      modifies this, driver.Footprint()
      ensures !old(isDriverConnected) ==>
        r == Fail(Thrown(name)) && calls == [] && unchanged(driver.Footprint())
      ensures old(isDriverConnected) && driver.MysqlDriverRef? ==>
        var t := PoolLifecycle.ClosePool(old(driver.mysql.pool), endError);
        r == t.outcome && calls == t.calls && driver.mysql.pool == t.pool
      ensures old(isDriverConnected) && driver.MongoDriverStub? ==>
        r == Fail(Thrown(MethodNotImplemented)) && calls == []
      ensures isDriverConnected == (old(isDriverConnected) && r.Fail?)
    {
      if !isDriverConnected {
        return Fail(Thrown(name)), [];
      }
      match driver {
        case MysqlDriverRef(mysql) =>
          r, calls := mysql.Disconnect(endError);
        case MongoDriverStub(_) =>
          r, calls := Fail(Thrown(MethodNotImplemented)), [];
      }
      if r.Pass? {
        isDriverConnected := false;
      }
    }

    /** `getQueryRunner`: the driver's pooled runner over its pool field, as it
        is at the time, built by the factory as written; the connected flag is
        not consulted. */
    method GetQueryRunner() returns (r: Result<QueryRunner, Error>)
      ensures driver.MysqlDriverRef? ==>
        r == Success(QueryRunnerFactoryAsWritten(Info(), PoolIssuer(driver.mysql.pool), None))
      ensures driver.MongoDriverStub? ==> r == Failure(Thrown(MethodNotImplemented))
    {
      match driver {
        case MysqlDriverRef(mysql) =>
          // the checkout answer is never consulted without a transaction flag
          var unused := Failure(DbError(""));
          var calls;
          r, calls := mysql.CreateQueryRunner(Info(), None, unused);
        case MongoDriverStub(_) =>
          r := Failure(Thrown(MethodNotImplemented));
      }
    }

    /** `getTransactionQueryRunner`: the driver's transaction runner over a
        freshly checked-out connection, built by the factory as written; the
        connected flag is not consulted, but without a pool the checkout is
        refused. */
    method GetTransactionQueryRunner(checkout: Result<PoolConnection, DbError>)
      returns (r: Result<QueryRunner, Error>, calls: seq<LibraryCall>)
      ensures driver.MysqlDriverRef? ==>
        var (got, made) := PoolLifecycle.GetConnection(driver.mysql.pool, checkout);
        calls == made && (r.Success? <==> got.Success?) &&
        (r.Success? ==> r.value == QueryRunnerFactoryAsWritten(Info(), DedicatedIssuer(got.value), Some(true))) &&
        (r.Failure? ==> r.error == got.error)
      ensures driver.MongoDriverStub? ==> r == Failure(Thrown(MethodNotImplemented)) && calls == []
    {
      match driver {
        case MysqlDriverRef(mysql) =>
          r, calls := mysql.CreateQueryRunner(Info(), Some(true), checkout);
        case MongoDriverStub(_) =>
          r, calls := Failure(Thrown(MethodNotImplemented)), [];
      }
    }
  }
}
