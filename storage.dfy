/** The storage contract and its in-memory backend (services/geo-location/storage.js). */
module Storage {
  import opened Wrappers
  import opened Values

  /**
   * The words of the TypeError a decorator raises when the object it was given
   * as storage has no `get` or `set` method (`undefined`, say).
   */
  const NotAStorageMessage := "storage.get is not a function"

  /** The reference backend: an in-process map from keys to stored values. */
  class InMemoryStorage {
    var entries: map<string, StoredValue>

    constructor ()
      ensures entries == map[]
      ensures forall key :: Get(key) == None
    {
      entries := map[];
    }

    /** `get(key)`: the stored value, or `None` for `undefined`. */
    function Get(key: string): (r: Option<StoredValue>)
      reads this
      ensures r.Some? <==> key in entries
      ensures r.Some? ==> r.value == entries[key]
    {
      if key in entries then Some(entries[key]) else None
    }

    /** `set(key, value)`: overwrites the value under `key` and nothing else. */
    method Set(key: string, value: StoredValue)
      modifies this
      ensures entries == old(entries)[key := value]
      ensures Get(key) == Some(value)
      ensures forall k :: k != key ==> Get(k) == old(Get(k))
    {
      entries := entries[key := value];
    }
  }
}
