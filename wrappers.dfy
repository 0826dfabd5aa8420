/** Option and Result types shared by every module of the model. */
module Wrappers {

  /** A value that may be absent: a missing row, a missing setting, a nil pointer. */
  datatype Option<+T> = None | Some(value: T) {
    function GetOr(default: T): (r: T)
      ensures Some? ==> r == value
      ensures None? ==> r == default
    {
      match this
      case Some(v) => v
      case None => default
    }
  }

  /**
   * Reading a key of a key-value store: a settings row by key, or
   * `localStorage.getItem(key)`; None (no row, null) when the key is absent.
   */
  function Get<K, V>(m: map<K, V>, key: K): (r: Option<V>)
    ensures r.Some? <==> key in m
    ensures r.Some? ==> r.value == m[key]
  {
    if key in m then Some(m[key]) else None
  }

  /** The outcome of an operation that can fail with an error value. */
  datatype Result<+T, +E> = Ok(value: T) | Err(error: E)
}
