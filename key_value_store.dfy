/**
 * The persisted key-value store both components share, as a map from key to
 * value.  A read of a missing key gives None, the model's null.
 */
module KeyValueStore {
  import opened Wrappers

  type Store = map<string, string>

  /** The value stored under `key`, or None when nothing is. */
  function Get(store: Store, key: string): (v: Option<string>)
    ensures v.Some? <==> key in store
    ensures v.Some? ==> v.value == store[key]
  {
    if key in store then Some(store[key]) else None
  }

  /** The store after writing `value` under `key`, overwriting any earlier value. */
  function Put(store: Store, key: string, value: string): (r: Store)
    ensures Get(r, key) == Some(value)
    ensures forall k :: k != key ==> Get(r, k) == Get(store, k)
    ensures r.Keys == store.Keys + {key}
  {
    store[key := value]
  }
}
