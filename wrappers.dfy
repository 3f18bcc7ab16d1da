/** Present-or-absent values (SQL NULL, Python None) and outcomes that may fail (Python exceptions). */
module Wrappers {

  datatype Option<T> = None | Some(value: T)

  datatype Result<T, E> = Success(value: T) | Failure(error: E)
}
