/** Option and Result, the failure-carrying datatypes used throughout the model.
    `None` stands for Go's nil pointer; `Failure` for a returned non-nil `error`. */
module Wrappers {

  datatype Option<+T> = None | Some(value: T)

  datatype Result<+R, +E> = Success(value: R) | Failure(error: E) {
    predicate IsFailure() {
      Failure?
    }

    function PropagateFailure<U>(): Result<U, E>
      requires Failure?
    {
      Failure(error)
    }

    function Extract(): R
      requires Success?
    {
      value
    }
  }

  /** A call that returns only an `error` (nil on success). */
  datatype Outcome<+E> = Pass | Fail(error: E)

  /** Go's comma-ok map read `v, ok := m[k]`, as one value. */
  function Lookup<K, V>(m: map<K, V>, k: K): (r: Option<V>)
    ensures r.Some? <==> k in m
    ensures r.Some? ==> r.value == m[k]
  {
    if k in m then Some(m[k]) else None
  }
}
