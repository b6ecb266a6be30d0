/** What both console loggers share: the console output they produce, the calls
    an `ILogger` receives, and the SQL text they print (lib/logger/logger.ts,
    lib/logger/stringfy-params.ts). */
module Logging {
  import opened Wrappers
  import opened Sql

  /** `console.log`, `console.error` and `console.warn`. */
  datatype Channel = LogChannel | ErrorChannel | WarnChannel

  /** One argument of a console call. */
  datatype Arg = Text(text: string) | Number(n: int)

  /** One console call, which prints one line. */
  datatype ConsoleLine = ConsoleLine(channel: Channel, args: seq<Arg>)

  /** One call on an `ILogger`. */
  datatype LoggerCall =
    | LogQuery(query: string, parameters: Values)
    | LogQueryError(error: string, query: string, parameters: Values)
    | LogQuerySlow(time: int, query: string, parameters: Values)
    | LogMigration(message: string)

  const ParametersMarker := " -- PARAMETERS: "

  /** The elements separated by commas, as `JSON.stringify` writes an array. */
  function Join(params: seq<Param>): string {
    if |params| == 0 then ""
    else if |params| == 1 then params[0]
    else params[0] + "," + Join(params[1..])
  }

  /** `stringifyParams`: the JSON text of the parameter array. Each parameter
      is already its own JSON text, so this only brackets and joins them. */
  function StringifyParams(params: seq<Param>): (s: string)
    ensures |s| >= 2 && s[0] == '[' && s[|s| - 1] == ']'
  {
    "[" + Join(params) + "]"
  }

  /** The statement as both loggers print it: the query, followed by the
      parameters only when an array with at least one element is given. */
  function SqlText(query: string, parameters: Values): (s: string)
    ensures |s| >= |query| && s[..|query|] == query
    ensures s == query <==> !HasParams(parameters)
    ensures HasParams(parameters) ==>
      s[|query|..] == ParametersMarker + StringifyParams(parameters.value)
  {
    if HasParams(parameters) then query + ParametersMarker + StringifyParams(parameters.value)
    else query
  }
}
