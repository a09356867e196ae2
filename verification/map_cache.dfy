/** `MapCache`, the in-memory cache adapter: a JavaScript `Map` from string
    keys to arbitrary values. */
module MemoryCache {
  import opened JsValues

  /** What `Map.prototype.get` yields: the stored value, or `undefined`. */
  function Lookup(m: map<string, Value>, key: string): Value
  {
    if key in m then m[key] else Undefined
  }

  class MapCache {
    var entries: map<string, Value>

    /** `new MapCache()`: an empty map. */
    constructor ()
      ensures entries == map[]
    {
      entries := map[];
    }

    /** `get(key)`: resolves to the stored value, `undefined` for a key never
        set or since removed. */
    method Get(key: string) returns (v: Value)
      ensures key in entries ==> v == entries[key]
      ensures key !in entries ==> v == Undefined
    {
      v := Lookup(entries, key);
    }

    /** `set(key, value)`: stores or overwrites one entry. */
    method Set(key: string, value: Value)
      modifies this
      ensures entries == old(entries)[key := value]
      ensures key in entries && entries[key] == value
      ensures forall k :: k != key ==> Lookup(entries, k) == Lookup(old(entries), k)
    {
      entries := entries[key := value];
    }

    /** `remove(key)`: `Map.prototype.delete`, true exactly when the key was present. */
    method Remove(key: string) returns (removed: bool)
      modifies this
      ensures removed <==> key in old(entries)
      ensures entries == old(entries) - {key}
      ensures key !in entries
      ensures forall k :: k != key ==> Lookup(entries, k) == Lookup(old(entries), k)
    {
      removed := key in entries;
      entries := entries - {key};
    }

    /** `close()`: nothing to release. */
    method Close()
      ensures unchanged(this)
    {
    }
  }
}
