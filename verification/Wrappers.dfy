/** Option and result types shared by the modules of this model. */
module Wrappers {

  /** A value that may be absent; `None` plays the part of Java's `null`. */
  datatype Option<+T> = None | Some(value: T)

  /** The outcome of an operation that may throw; `Failure` carries the exception's message. */
  datatype Result<+T> = Success(value: T) | Failure(message: string)

  /** Java's `Map.get`: the entry under `k`, or `null` when there is none. */
  function Get<K, V>(m: map<K, V>, k: K): (r: Option<V>)
    ensures r.Some? <==> k in m
    ensures r.Some? ==> m[k] == r.value
  {
    if k in m then Some(m[k]) else None
  }
}
