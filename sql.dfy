/** Statement parameters as the library receives them. */
module Sql {
  import opened Wrappers

  /** One bound value, represented by its JSON text. */
  type Param = string

  /** The optional `values?: any[]` argument of a query. */
  type Values = Option<seq<Param>>

  /** `parameters && parameters.length`: a present, non-empty array. */
  predicate HasParams(values: Values) {
    values.Some? && |values.value| > 0
  }
}
