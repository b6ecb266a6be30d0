/** The `mysql` client library, seen only through the calls made into it.
    Every answer it gives (a trial connection, a checkout, a query reply, the
    result of ending a pool) is an input to the operation that asks for it. */
module Mysql {
  import opened Wrappers
  import opened Sql

  /** The pool configuration handed to `mysql.createPool` (opaque). */
  type PoolConfig = map<string, string>

  /** A pool made by `mysql.createPool`, by identity. */
  datatype Pool = Pool(id: nat)

  /** A connection checked out of a pool, by identity. */
  datatype PoolConnection = PoolConnection(id: nat)

  /** What a successful `query` call hands to its callback. */
  datatype Answer = Answer(results: seq<string>, fieldsInfo: seq<string>)

  /** One call into the library. `sql` is optional because the source can
      pass `undefined` as the statement. */
  datatype LibraryCall =
    | CreatePoolCall(config: PoolConfig)
    | GetConnectionCall(pool: Pool)
    | ReleaseCall(connection: PoolConnection)
    | EndCall(pool: Pool)
    | PoolQueryCall(pool: Pool, sql: Option<string>, values: Values)
    | ConnectionQueryCall(connection: PoolConnection, sql: Option<string>, values: Values)
}
