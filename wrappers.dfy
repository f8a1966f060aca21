/** Option and Result, the error-carrying values every discovery and scaling step returns. */
module Wrappers {

  datatype Option<+T> = None | Some(value: T)

  datatype Result<+R, +E> = Success(value: R) | Failure(error: E)

  /** The value of `m` at `k`, or `d` when `k` is absent (Go's zero value on a map miss). */
  function GetOr<K, V>(m: map<K, V>, k: K, d: V): V
  {
    if k in m then m[k] else d
  }
}
