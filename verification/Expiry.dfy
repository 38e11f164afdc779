/** Redis keys with a time to live, in milliseconds of the server's clock. */
module Expiry {
  import opened Common

  /** A stored value and the instant at which the key is gone. */
  datatype Entry<+V> = Entry(value: V, expires: int)

  /** What GET finds. */
  function Get<V>(key: Option<Entry<V>>, now: int): Option<V> {
    if key.Some? && now < key.value.expires then Some(key.value.value) else None
  }

  /** INCR, then EXPIRE if this created the counter: a fixed window from the first hit. */
  function Hit(key: Option<Entry<nat>>, now: int, window: int): Entry<nat> {
    if Get(key, now).Some? then Entry(key.value.value + 1, key.value.expires) else Entry(1, now + window)
  }

  function Find<K, V>(keys: map<K, Entry<V>>, k: K): Option<Entry<V>> {
    if k in keys then Some(keys[k]) else None
  }
}
