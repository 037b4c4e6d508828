/** The outcome of an operation that reads columns of a table. A table built from an empty
    list of records has no columns at all, so reading one raises pandas' `KeyError`. */
module Errors {
  datatype Result<T> = Ok(value: T) | KeyError(column: string)
}
