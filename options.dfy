/** `IConnectionOptions` of lib/connection/connection.ts and the defaults the
    `Connection` constructor fills in. */
module Options {
  import opened Wrappers
  import Drivers
  import ConsoleLogging
  import Loggers

  const DefaultName := "default"

  /** `60 * 1000` milliseconds. */
  const DefaultMaxQueryExecutionTime := 60 * 1000

  datatype ConnectionOptions = ConnectionOptions(
    driver: Drivers.DriverOptions,
    name: Option<string>,
    logOptions: Option<ConsoleLogging.LoggerOptions>,
    loggerType: Option<Loggers.LoggerType>,
    maxQueryExecutionTime: Option<int>)

  /** `options.name || "default"`: a missing or empty name becomes "default",
      so a resolved name is never empty. */
  function ConnectionName(name: Option<string>): (r: string)
    ensures r != ""
    ensures name.Some? && name.value != "" ==> r == name.value
    ensures name.None? || name.value == "" ==> r == DefaultName
  {
    if name.Some? && name.value != "" then name.value else DefaultName
  }

  /** A `name = "default"` parameter: only a missing argument is replaced, an
      empty one is kept. */
  function NameArgument(name: Option<string>): (r: string)
    ensures name.Some? ==> r == name.value
    ensures name.None? ==> r == DefaultName
  {
    if name.Some? then name.value else DefaultName
  }

  /** `options.maxQueryExecutionTime || 60000`: a missing or zero threshold
      becomes 60000, so a resolved threshold is never zero. */
  function MaxQueryExecutionTime(time: Option<int>): (r: int)
    ensures r != 0
    ensures time.Some? && time.value != 0 ==> r == time.value
    ensures time.None? || time.value == 0 ==> r == DefaultMaxQueryExecutionTime
  {
    if time.Some? && time.value != 0 then time.value else DefaultMaxQueryExecutionTime
  }

  /** The read-only part of a `Connection` that a query runner uses. */
  datatype ConnectionInfo = ConnectionInfo(name: string, logger: Loggers.Logger, maxQueryExecutionTime: int)
}
