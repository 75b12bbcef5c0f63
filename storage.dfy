/** The browser's `localStorage`, as a value: a finite map from keys to stored strings. */
module Storage {
  import opened Wrappers

  type Store = map<string, string>

  /** `localStorage.getItem(key)`: the stored string, or `null` when nothing is stored. */
  function GetItem(store: Store, key: string): Option<string>
  {
    if key in store then Some(store[key]) else None
  }

  /** `localStorage.setItem(key, value)`. */
  function SetItem(store: Store, key: string, value: string): (r: Store)
    ensures GetItem(r, key) == Some(value)
    ensures forall k :: k != key ==> GetItem(r, k) == GetItem(store, k)
  {
    store[key := value]
  }
}
