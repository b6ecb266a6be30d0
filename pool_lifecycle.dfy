/** The state machine of the optional `pool` field that both MySQL drivers keep:
    what `createPool`, `closePool`/`disconnect` and `getConnection` do to it,
    which library calls they make and how they settle. Both driver classes are
    proved to follow these functions. */
module PoolLifecycle {
  import opened Wrappers
  import opened Errors
  import opened Mysql

  const NoPoolMessage := "Database connection pool does not exist."

  /** The pool after an operation, how the operation settled and the library
      calls it made, in order. */
  datatype Transition = Transition(pool: Option<Pool>, outcome: Outcome<Error>, calls: seq<LibraryCall>)

  /** `createPool`: nothing happens when a pool exists; otherwise a pool is made
      and a trial connection checked out of it. A failed trial ends the new pool
      and rejects with the trial's error; a good trial connection is released and
      the pool kept. `created` is the pool the library makes, `trial` its answer
      to the trial checkout. */
  function CreatePool(pool: Option<Pool>, config: PoolConfig, created: Pool,
                      trial: Result<PoolConnection, DbError>): (t: Transition)
    ensures pool.Some? ==> t.pool == pool && t.outcome == Pass && t.calls == []
    ensures t.outcome.Pass? <==> t.pool.Some?
    ensures t.pool.Some? <==> pool.Some? || trial.Success?
    ensures pool.None? ==>
      |t.calls| == 3 && t.calls[0] == CreatePoolCall(config) && t.calls[1] == GetConnectionCall(created)
    ensures pool.None? && trial.Failure? ==>
      t.outcome == Fail(Database(trial.error)) && t.calls[2] == EndCall(created)
    ensures pool.None? && trial.Success? ==>
      t.pool == Some(created) && t.calls[2] == ReleaseCall(trial.value)
  {
    if pool.Some? then
      Transition(pool, Pass, [])
    else if trial.Failure? then
      Transition(None, Fail(Database(trial.error)),
                 [CreatePoolCall(config), GetConnectionCall(created), EndCall(created)])
    else
      Transition(Some(created), Pass,
                 [CreatePoolCall(config), GetConnectionCall(created), ReleaseCall(trial.value)])
  }

  /** `closePool` / `disconnect`: nothing happens without a pool; otherwise the
      pool is ended, and it is forgotten only when ending succeeds. `endError`
      is the error `pool.end` reports, if any. */
  function ClosePool(pool: Option<Pool>, endError: Option<DbError>): (t: Transition)
    ensures pool.None? ==> t == Transition(None, Pass, [])
    ensures pool.Some? ==> t.calls == [EndCall(pool.value)]
    ensures t.outcome.Pass? <==> t.pool.None?
    ensures t.outcome.Fail? ==>
      t.pool == pool && endError.Some? && t.outcome.error == Database(endError.value)
    ensures pool.Some? && endError.Some? ==>
      t == Transition(pool, Fail(Database(endError.value)), [EndCall(pool.value)])
  {
    if pool.None? then
      Transition(None, Pass, [])
    else if endError.Some? then
      Transition(pool, Fail(Database(endError.value)), [EndCall(pool.value)])
    else
      Transition(None, Pass, [EndCall(pool.value)])
  }

  /** `getConnection`: rejects with a fixed message when there is no pool,
      otherwise checks a connection out of it. `checkout` is the library's answer. */
  function GetConnection(pool: Option<Pool>, checkout: Result<PoolConnection, DbError>)
    : (r: (Result<PoolConnection, Error>, seq<LibraryCall>))
    ensures pool.None? ==> r.0 == Failure(Rejected(NoPoolMessage)) && r.1 == []
    ensures pool.Some? ==> r.1 == [GetConnectionCall(pool.value)]
    ensures r.0.Success? <==> pool.Some? && checkout.Success?
    ensures r.0.Success? ==> r.0.value == checkout.value
    ensures pool.Some? && checkout.Failure? ==> r.0 == Failure(Database(checkout.error))
  {
    if pool.None? then
      (Failure(Rejected(NoPoolMessage)), [])
    else if checkout.Failure? then
      (Failure(Database(checkout.error)), [GetConnectionCall(pool.value)])
    else
      (Success(checkout.value), [GetConnectionCall(pool.value)])
  }

  /** Connecting twice is connecting once: after a successful `createPool`, a
      second one makes no library call and keeps the same pool. */
  lemma CreatePoolIsIdempotent(pool: Option<Pool>, config: PoolConfig,
                               created: Pool, trial: Result<PoolConnection, DbError>,
                               created': Pool, trial': Result<PoolConnection, DbError>)
    requires CreatePool(pool, config, created, trial).outcome.Pass?
    ensures var first := CreatePool(pool, config, created, trial);
            CreatePool(first.pool, config, created', trial') == Transition(first.pool, Pass, [])
  {
  }

  /** A pool made by a successful `createPool` is gone after a successful
      `closePool`, and the next `createPool` makes a fresh one. */
  lemma CloseAfterCreateForgetsPool(config: PoolConfig, created: Pool, connection: PoolConnection,
                                    created': Pool, trial': Result<PoolConnection, DbError>)
    ensures var made := CreatePool(None, config, created, Success(connection));
            var closed := ClosePool(made.pool, None);
            closed == Transition(None, Pass, [EndCall(created)]) &&
            CreatePool(closed.pool, config, created', trial').calls[0] == CreatePoolCall(config)
  {
  }
}
