/** `loggerFactory` of lib/logger/logger-factory.ts: which logger a connection
    gets. */
module Loggers {
  import opened Wrappers
  import opened Errors
  import opened ConsoleLogging

  /** `LoggerType`: one of the named kinds (any string at run time) or a logger
      object, by identity. */
  datatype LoggerType = Named(name: string) | Instance(id: nat)

  /** The logger a connection holds: a console logger of console-logger.ts
      built with the given options, or an object the caller supplied. */
  datatype Logger = Console(options: Option<LoggerOptions>) | Custom(id: nat)

  const NotImplemented := "Not implement!"

  /** The named kinds the factory refuses. */
  predicate Unimplemented(name: string) {
    name == "simple-console" || name == "file" || name == "advanced-console" || name == "debug"
  }

  /** A logger object is returned as it is and the options ignored; the four
      named kinds throw; anything else (no logger, an empty or unknown name)
      yields a console logger with the options. */
  function LoggerFactory(logger: Option<LoggerType>, options: Option<LoggerOptions>)
    : (r: Result<Logger, Error>)
    ensures logger.Some? && logger.value.Instance? ==> r == Success(Custom(logger.value.id))
    ensures r.Failure? <==> logger.Some? && logger.value.Named? && Unimplemented(logger.value.name)
    ensures r.Failure? ==> r.error == Thrown(NotImplemented)
    ensures r.Success? ==>
      r.value == Console(options) || (logger.Some? && logger.value.Instance? && r.value == Custom(logger.value.id))
    ensures logger.None? ==> r == Success(Console(options))
  {
    match logger
    case Some(Instance(id)) => Success(Custom(id))
    case Some(Named(name)) =>
      if Unimplemented(name) then Failure(Thrown(NotImplemented)) else Success(Console(options))
    case None => Success(Console(options))
  }
}
