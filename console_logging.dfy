/** The `ConsoleLogger` of lib/logger/implement/console-logger.ts, which
    implements `ILogger`. Each of its methods is the list of console lines the
    call prints. */
module ConsoleLogging {
  import opened Wrappers
  import opened Sql
  import opened Logging

  /** The strings a `LoggerOptions` array may hold. */
  datatype LoggerLevel =
    | QueryLevel | SchemaLevel | ErrorLevel | WarnLevel | InfoLevel | LogLevel | MigrationLevel

  /** `boolean | "all" | LoggerLevel[]`. */
  datatype LoggerOptions = Flag(on: bool) | All | Levels(levels: seq<LoggerLevel>)

  /** The gate of `logQuery` (keyed by "query") and of `logQueryError` (keyed by
      "error"): options `"all"` or `true`, or an array that does NOT list the
      key. Missing options or `false` close it. */
  predicate Passes(options: Option<LoggerOptions>, level: LoggerLevel): (r: bool)
    ensures options == Some(All) || options == Some(Flag(true)) ==> r
    ensures options.None? || options == Some(Flag(false)) ==> !r
    ensures options.Some? && options.value.Levels? ==> (r <==> level !in options.value.levels)
  {
    match options
    case None => false
    case Some(All) => true
    case Some(Flag(on)) => on
    case Some(Levels(levels)) => level !in levels
  }

  /** `logQuery`: one `console.log` line when the gate for "query" is open. */
  function LogQueryLines(options: Option<LoggerOptions>, query: string, parameters: Values)
    : (lines: seq<ConsoleLine>)
    ensures lines != [] <==> Passes(options, QueryLevel)
    ensures lines != [] ==>
      lines == [ConsoleLine(LogChannel, [Text("query:"), Text(SqlText(query, parameters))])]
  {
    if Passes(options, QueryLevel) then
      [ConsoleLine(LogChannel, [Text("query:"), Text(SqlText(query, parameters))])]
    else []
  }

  /** `logQueryError`: the statement line then the error line, both on
      `console.error`, when the gate for "error" is open. */
  function LogQueryErrorLines(options: Option<LoggerOptions>, error: string, query: string,
                              parameters: Values): (lines: seq<ConsoleLine>)
    ensures lines != [] <==> Passes(options, ErrorLevel)
    ensures lines != [] ==>
      |lines| == 2 &&
      lines[0] == ConsoleLine(ErrorChannel, [Text("query failed:"), Text(SqlText(query, parameters))]) &&
      lines[1] == ConsoleLine(ErrorChannel, [Text("error:"), Text(error)])
  {
    if Passes(options, ErrorLevel) then
      [ConsoleLine(ErrorChannel, [Text("query failed:"), Text(SqlText(query, parameters))]),
       ConsoleLine(ErrorChannel, [Text("error:"), Text(error)])]
    else []
  }

  /** `logQuerySlow`: the statement line then the execution time, both on
      `console.warn`. It has no gate. */
  function LogQuerySlowLines(time: int, query: string, parameters: Values): (lines: seq<ConsoleLine>)
    ensures |lines| == 2 && forall k :: 0 <= k < 2 ==> lines[k].channel == WarnChannel
    ensures lines[0].args == [Text("query is slow:"), Text(SqlText(query, parameters))]
    ensures lines[1].args == [Text("execution time:"), Number(time)]
  {
    [ConsoleLine(WarnChannel, [Text("query is slow:"), Text(SqlText(query, parameters))]),
     ConsoleLine(WarnChannel, [Text("execution time:"), Number(time)])]
  }

  /** `logMigration`: the message alone on `console.log`. It has no gate. */
  function LogMigrationLines(message: string): (lines: seq<ConsoleLine>)
    ensures lines == [ConsoleLine(LogChannel, [Text(message)])]
  {
    [ConsoleLine(LogChannel, [Text(message)])]
  }

  /** What a console logger built with `options` prints for one `ILogger` call. */
  function Render(options: Option<LoggerOptions>, call: LoggerCall): (lines: seq<ConsoleLine>)
    ensures call.LogQuerySlow? || call.LogMigration? ==> lines != []
    ensures (options.None? || options == Some(Flag(false))) ==>
      (lines != [] <==> call.LogQuerySlow? || call.LogMigration?)
  {
    match call
    case LogQuery(query, parameters) => LogQueryLines(options, query, parameters)
    case LogQueryError(error, query, parameters) => LogQueryErrorLines(options, error, query, parameters)
    case LogQuerySlow(time, query, parameters) => LogQuerySlowLines(time, query, parameters)
    case LogMigration(message) => LogMigrationLines(message)
  }

  /** Everything a console logger built with `options` prints for a list of calls. */
  function Output(options: Option<LoggerOptions>, calls: seq<LoggerCall>): seq<ConsoleLine> {
    if calls == [] then [] else Render(options, calls[0]) + Output(options, calls[1..])
  }

  /** The array branch lets a kind through exactly when the array does NOT
      list it: `["query"]` silences `logQuery`, while `["error"]` and `[]`
      leave it printing. */
  lemma ListingAKindSilencesIt(query: string, parameters: Values)
    ensures LogQueryLines(Some(Levels([QueryLevel])), query, parameters) == []
    ensures LogQueryLines(Some(Levels([ErrorLevel])), query, parameters) != []
    ensures LogQueryLines(Some(Levels([])), query, parameters) != []
    ensures LogQueryErrorLines(Some(Levels([QueryLevel, ErrorLevel])), "e", query, parameters) == []
  {
  }
}
