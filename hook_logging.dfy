/** The `ConsoleLogger` of lib/logger/ConsoleLogger.ts, which implements
    `IQueryHook`. Each hook is the list of console lines the call prints. */
module HookLogging {
  import opened Wrappers
  import opened Sql
  import opened Logging
  import ConsoleLogging

  /** `"query" | "error" | "slow"`. */
  datatype LogLevel = QueryKind | ErrorKind | SlowKind

  /** `boolean | "all" | LogLevel[]`. */
  datatype Level = Flag(on: bool) | All | Kinds(kinds: seq<LogLevel>)

  datatype LoggerOptions = LoggerOptions(level: Level)

  /** The constructor's default options, `{ level: true }`. */
  const DefaultOptions := LoggerOptions(Flag(true))

  datatype ConsoleLogger = ConsoleLogger(options: LoggerOptions)

  /** A hook kind is enabled when the level is `"all"` or `true`, or is an
      array that lists the kind. */
  predicate Enabled(level: Level, kind: LogLevel): (r: bool)
    ensures level == All || level == Flag(true) ==> r
    ensures level == Flag(false) ==> !r
    ensures level.Kinds? ==> (r <==> kind in level.kinds)
  {
    match level
    case All => true
    case Flag(on) => on
    case Kinds(kinds) => kind in kinds
  }

  /** `new ConsoleLogger(options)`, where leaving the options out enables
      every hook. */
  function NewConsoleLogger(options: Option<LoggerOptions>): (logger: ConsoleLogger)
    ensures options.Some? ==> logger.options == options.value
    ensures options.None? ==> forall kind :: Enabled(logger.options.level, kind)
  {
    ConsoleLogger(if options.Some? then options.value else DefaultOptions)
  }

  /** `onQuery`: one `console.log` line when "query" is enabled. */
  function OnQuery(logger: ConsoleLogger, query: string, parameters: Values): (lines: seq<ConsoleLine>)
    ensures lines != [] <==> Enabled(logger.options.level, QueryKind)
    ensures lines != [] ==>
      lines == [ConsoleLine(LogChannel, [Text("query:"), Text(SqlText(query, parameters))])]
  {
    if Enabled(logger.options.level, QueryKind) then
      [ConsoleLine(LogChannel, [Text("query:"), Text(SqlText(query, parameters))])]
    else []
  }

  /** `onError`: the statement line then the error line on `console.error`
      when "error" is enabled. */
  function OnError(logger: ConsoleLogger, error: string, query: string, parameters: Values)
    : (lines: seq<ConsoleLine>)
    ensures lines != [] <==> Enabled(logger.options.level, ErrorKind)
    ensures lines != [] ==>
      |lines| == 2 &&
      lines[0] == ConsoleLine(ErrorChannel, [Text("query failed:"), Text(SqlText(query, parameters))]) &&
      lines[1] == ConsoleLine(ErrorChannel, [Text("error:"), Text(error)])
  {
    if Enabled(logger.options.level, ErrorKind) then
      [ConsoleLine(ErrorChannel, [Text("query failed:"), Text(SqlText(query, parameters))]),
       ConsoleLine(ErrorChannel, [Text("error:"), Text(error)])]
    else []
  }

  /** `onSlow`: the statement line then the execution time on `console.warn`
      when "slow" is enabled. */
  function OnSlow(logger: ConsoleLogger, executionTime: int, query: string, parameters: Values)
    : (lines: seq<ConsoleLine>)
    ensures lines != [] <==> Enabled(logger.options.level, SlowKind)
    ensures lines != [] ==>
      |lines| == 2 &&
      lines[0] == ConsoleLine(WarnChannel, [Text("query is slow:"), Text(SqlText(query, parameters))]) &&
      lines[1] == ConsoleLine(WarnChannel, [Text("execution time:"), Number(executionTime)])
  {
    if Enabled(logger.options.level, SlowKind) then
      [ConsoleLine(WarnChannel, [Text("query is slow:"), Text(SqlText(query, parameters))]),
       ConsoleLine(WarnChannel, [Text("execution time:"), Number(executionTime)])]
    else []
  }

  /** Level `["slow"]` silences `onQuery` and `onError` but not `onSlow`. */
  lemma SlowOnlyLevel(error: string, time: int, query: string, parameters: Values)
    ensures var logger := ConsoleLogger(LoggerOptions(Kinds([SlowKind])));
            OnQuery(logger, query, parameters) == [] &&
            OnError(logger, error, query, parameters) == [] &&
            |OnSlow(logger, time, query, parameters)| == 2
  {
  }

  /** The two console loggers read an array of kinds in opposite ways: the same
      array `["query"]` makes this one print queries and the `ILogger` one
      stay silent, while an empty array does the reverse. */
  lemma ArrayBranchesDisagree(query: string, parameters: Values)
    ensures OnQuery(ConsoleLogger(LoggerOptions(Kinds([QueryKind]))), query, parameters) != []
    ensures ConsoleLogging.LogQueryLines(
              Some(ConsoleLogging.Levels([ConsoleLogging.QueryLevel])), query, parameters) == []
    ensures OnQuery(ConsoleLogger(LoggerOptions(Kinds([]))), query, parameters) == []
    ensures ConsoleLogging.LogQueryLines(Some(ConsoleLogging.Levels([])), query, parameters) != []
  {
  }
}
