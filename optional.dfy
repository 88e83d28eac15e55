/** An element, parameter or value that may be missing (`null`/`undefined`). */
module Optional {

  datatype Option<+T> = None | Some(value: T)

  /** The value stored under `key`, or None; what a `find(...).val()` on a missing field yields. */
  function Lookup<K, V>(m: map<K, V>, key: K): (r: Option<V>)
    ensures r.Some? <==> key in m
    ensures r.Some? ==> r.value == m[key]
  {
    if key in m then Some(m[key]) else None
  }
}
