/** `driverFactory` of lib/driver/driver-factory.ts: which driver a
    connection gets. */
module Drivers {
  import opened Wrappers
  import opened Errors
  import opened Mysql

  /** The driver options: the `type` tag and the pool configuration. */
  datatype DriverOptions = DriverOptions(kind: string, config: PoolConfig)

  /** The constructor the factory calls, with the options it passes on. */
  datatype DriverBuild = BuildMysqlDriver(options: DriverOptions) | BuildMongoDriver(options: DriverOptions)

  /** `"mysql"` builds a MySQL driver, `"mongodb"` a Mongo driver, any other
      tag throws an error without a message; the options go through unchanged. */
  function DriverFactory(options: DriverOptions): (r: Result<DriverBuild, Error>)
    ensures r.Success? <==> options.kind == "mysql" || options.kind == "mongodb"
    ensures r.Success? ==> r.value.options == options
    ensures r.Success? ==> (r.value.BuildMysqlDriver? <==> options.kind == "mysql")
    ensures r.Failure? ==> r.error == Thrown("")
  {
    match options.kind
    case "mysql" => Success(BuildMysqlDriver(options))
    case "mongodb" => Success(BuildMongoDriver(options))
    case _ => Failure(Thrown(""))
  }
}
