/** Shared option type. */
module Wrappers {
  datatype Option<+T> = None | Some(value: T)

  /** The value a map holds at a key, if any. */
  function At<K, V>(m: map<K, V>, k: K): Option<V> {
    if k in m then Some(m[k]) else None
  }

  /** The map with one key set, or removed when there is no value. */
  function Put<K, V>(m: map<K, V>, k: K, v: Option<V>): map<K, V> {
    match v
    case None => m - {k}
    case Some(x) => m[k := x]
  }
}
