/** What an operation of the library throws or rejects with. */
module Errors {
  /** An error object produced by the MySQL client library (opaque). */
  datatype DbError = DbError(code: string)

  datatype Error =
    | Thrown(message: string)     // `throw new Error(message)`
    | Rejected(reason: string)    // a promise rejected with a bare string
    | Database(cause: DbError)    // a client-library error passed on unchanged
    | TypeError                   // a property or method looked up on the wrong object
}
