/** Optional values and error returns, standing in for Go's nil pointers and `error` results. */
module Wrappers {

  /** A value that may be absent: a nil pointer, a missing page token. */
  datatype Option<+T> = None | Some(value: T)

  /** A value or the error message Go would have returned beside it. */
  datatype Result<+R> = Success(value: R) | Failure(error: string)

  /** A Go map read: the entry, or the zero value on a miss. */
  function Lookup<V>(m: map<string, V>, k: string, zero: V): (v: V)
    ensures k in m ==> v == m[k]
    ensures k !in m ==> v == zero
  {
    if k in m then m[k] else zero
  }
}
