/** The public functions of lib/index.ts, all acting on one module-level
    `ConnectionManager`, modelled as the single `manager` of a `Facade`. */
module Index {
  import opened Wrappers
  import opened Errors
  import opened Mysql
  import opened Options
  import opened QueryRunners
  import opened RunnerFactory
  import opened Loggers
  import opened Drivers
  import opened Connections
  import opened Registry
  import PoolLifecycle

  class Facade {
    const manager: ConnectionManager

    ghost predicate Valid()
      reads this, manager
    {
      manager.Valid()
    }

    /** Loading the module creates the one manager, empty. */
    constructor ()
      ensures Valid() && fresh(manager) && manager.connections == []
    {
      manager := new ConnectionManager();
    }

    /** `getConnectionManager`: always the same manager. */
    method GetConnectionManager() returns (m: ConnectionManager)
      ensures m == manager
    {
      m := manager;
    }

    /** `getConnection(connectionName = "default")`: the manager's `get`. */
    method GetConnection(connectionName: Option<string>) returns (r: Result<Connection, Error>)
      ensures r == manager.Get(Some(NameArgument(connectionName)))
      ensures r.Failure? ==> r.error == Thrown(NameArgument(connectionName))
      ensures r.Success? ==> r.value in manager.connections && r.value.name == NameArgument(connectionName)
    {
      r := manager.Get(Some(NameArgument(connectionName)));
    }

    /** `getQueryRunner(connectionName = "default")`: look the connection up,
        throwing when it is not registered, and ask it for a pooled runner,
        which the factory as written builds. */
    method GetQueryRunner(connectionName: Option<string>) returns (r: Result<QueryRunner, Error>)
      ensures var found := manager.Get(Some(NameArgument(connectionName)));
              found.Failure? ==> r == Failure(found.error)
      ensures var found := manager.Get(Some(NameArgument(connectionName)));
              found.Success? && found.value.driver.MysqlDriverRef? ==>
                r == Success(QueryRunnerFactoryAsWritten(found.value.Info(),
                                                         PoolIssuer(found.value.driver.mysql.pool), None))
      ensures var found := manager.Get(Some(NameArgument(connectionName)));
              found.Success? && found.value.driver.MongoDriverStub? ==>
                r == Failure(Thrown(MethodNotImplemented))
    {
      var found := manager.Get(Some(NameArgument(connectionName)));
      if found.Failure? {
        return Failure(found.error);
      }
      r := found.value.GetQueryRunner();
    }

    /** `getTransactionQueryRunner(connectionName = "default")`: look the
        connection up and ask it for a runner over a checked-out connection,
        which the factory as written builds. */
    method GetTransactionQueryRunner(connectionName: Option<string>,
                                     checkout: Result<PoolConnection, DbError>)
      returns (r: Result<QueryRunner, Error>, calls: seq<LibraryCall>)
      ensures var found := manager.Get(Some(NameArgument(connectionName)));
              found.Failure? ==> r == Failure(found.error) && calls == []
      ensures var found := manager.Get(Some(NameArgument(connectionName)));
              found.Success? && found.value.driver.MysqlDriverRef? ==>
                var (got, made) := PoolLifecycle.GetConnection(found.value.driver.mysql.pool, checkout);
                calls == made && (r.Success? <==> got.Success?) &&
                (r.Success? ==> r.value == QueryRunnerFactoryAsWritten(found.value.Info(),
                                                                       DedicatedIssuer(got.value), Some(true))) &&
                (r.Failure? ==> r.error == got.error)
      ensures var found := manager.Get(Some(NameArgument(connectionName)));
              found.Success? && found.value.driver.MongoDriverStub? ==>
                r == Failure(Thrown(MethodNotImplemented)) && calls == []
    {
      var found := manager.Get(Some(NameArgument(connectionName)));
      if found.Failure? {
        return Failure(found.error), [];
      }
      r, calls := found.value.GetTransactionQueryRunner(checkout);
    }

    /** `createConnection(options)`: register first, then open. A refused or
        failed registration makes no library call; a failed `open` leaves the
        new connection registered and disconnected; on success it is the
        registered connection and connected. */
    method CreateConnection(options: ConnectionOptions, created: Pool,
                            trial: Result<PoolConnection, DbError>)
      returns (r: Result<Connection, Error>, calls: seq<LibraryCall>)
      requires Valid()
      modifies manager
      ensures Valid()
      ensures var name := ConnectionName(options.name);
              old(Refuses(manager.connections, name)) ==>
                r == Failure(Thrown(name)) && calls == [] &&
                manager.connections == old(manager.connections)
      ensures var name := ConnectionName(options.name);
              !old(Refuses(manager.connections, name)) && ConstructionError(options).Some? ==>
                r == Failure(ConstructionError(options).value) && calls == [] &&
                manager.connections == Evicted(old(manager.connections), name)
      ensures var name := ConnectionName(options.name);
              var kept := Evicted(old(manager.connections), name);
              !old(Refuses(manager.connections, name)) && ConstructionError(options).None? ==>
                |manager.connections| == |kept| + 1 && manager.connections[..|kept|] == kept &&
                var c := manager.connections[|kept|];
                fresh(c) && c.name == name && manager.Get(Some(name)) == Success(c) &&
                c.maxQueryExecutionTime == MaxQueryExecutionTime(options.maxQueryExecutionTime) &&
                c.logger == LoggerFactory(options.loggerType, options.logOptions).value &&
                c.driver.BuiltBy(DriverFactory(options.driver).value) &&
                (c.driver.MongoDriverStub? ==>
                   r == Failure(Thrown(MethodNotImplemented)) && calls == [] && !c.isDriverConnected) &&
                (r.Success? <==> c.isDriverConnected) && (r.Success? ==> r.value == c) &&
                (c.driver.MysqlDriverRef? ==>
                   var t := PoolLifecycle.CreatePool(None, c.driver.mysql.options.config, created, trial);
                   calls == t.calls && c.driver.mysql.pool == t.pool &&
                   (r.Success? <==> trial.Success?) &&
                   (r.Failure? ==> r.error == t.outcome.error))
    {
      var made := manager.Create(options);
      if made.Failure? {
        return Failure(made.error), [];
      }
      var connection := made.value;
      var outcome;
      outcome, calls := connection.Open(created, trial);
      if outcome.Fail? {
        return Failure(outcome.error), calls;
      }
      r := Success(connection);
    }
  }
}
