/** Rust's `Option` and `Result`, as used by the modelled code. */
module Wrappers {

  /** `Option<T>`: `None` or `Some(value)`. */
  datatype Option<+T> = None | Some(value: T)

  /** `Result<R, E>`: `Success` is Rust's `Ok`, `Failure` is Rust's `Err`. */
  datatype Result<+R, +E> = Success(value: R) | Failure(error: E)

  /** `HashMap::get` followed by a clone of the value found: the entry at `k`, if any. */
  function Get<K, V>(m: map<K, V>, k: K): Option<V>
  {
    if k in m then Some(m[k]) else None
  }
}
