/** `RedisCache`, the cache adapter over a `cache-manager` store: every key is
    put under the `nest-wechat:` namespace, empty keys are refused, a missing
    TTL becomes 0 and a missing or falsy value reads as `{}`. */
module RedisAdapter {
  import opened Wrappers
  import opened JsValues
  import MemoryCache

  const NAMESPACE: string := "nest-wechat:"

  datatype CacheError = EmptyKey | StoreFailure

  /** The backing `cache-manager` store, seen as a map from keys to values and
      TTLs. `online` says whether the server behind it answers; when it does
      not, reads and writes are rejected. */
  class Store {
    var entries: map<string, Value>
    var ttls: map<string, int>
    var online: bool

    constructor (online: bool)
      ensures entries == map[] && ttls == map[] && this.online == online
    {
      entries, ttls, this.online := map[], map[], online;
    }

    /** `cache.get(key)`. */
    method Get(key: string) returns (r: Result<Value, CacheError>)
      ensures online ==> r == Ok(MemoryCache.Lookup(entries, key))
      ensures !online ==> r == Err(StoreFailure)
    {
      if online {
        r := Ok(MemoryCache.Lookup(entries, key));
      } else {
        r := Err(StoreFailure);
      }
    }

    /** `cache.set(key, value, { ttl })`. */
    method Set(key: string, value: Value, ttl: int) returns (r: Result<(), CacheError>)
      modifies this
      ensures online == old(online)
      ensures online ==> r == Ok(()) && entries == old(entries)[key := value] && ttls == old(ttls)[key := ttl]
      ensures !online ==> r == Err(StoreFailure) && unchanged(this)
    {
      if online {
        entries := entries[key := value];
        ttls := ttls[key := ttl];
        r := Ok(());
      } else {
        r := Err(StoreFailure);
      }
    }

    /** `cache.del(key)`. */
    method Del(key: string)
      modifies this
      ensures online == old(online)
      ensures online ==> entries == old(entries) - {key} && ttls == old(ttls) - {key}
      ensures !online ==> unchanged(this)
    {
      if online {
        entries := entries - {key};
        ttls := ttls - {key};
      }
    }
  }

  /** The store key for a caller's key. */
  function Namespaced(key: string): (k: string)
    ensures |k| == |NAMESPACE| + |key| && k[..|NAMESPACE|] == NAMESPACE && k[|NAMESPACE|..] == key
  {
    NAMESPACE + key
  }

  /** Distinct caller keys never share a store key. */
  lemma NamespacedInjective(k1: string, k2: string)
    requires Namespaced(k1) == Namespaced(k2)
    ensures k1 == k2
  {
    assert k1 == Namespaced(k1)[|NAMESPACE|..];
  }

  /** The TTL passed to the store: a missing or zero TTL becomes 0, any other
      is passed on as given. */
  function EffectiveTtl(ttl: Option<int>): (t: int)
    ensures ttl.None? ==> t == 0
    ensures ttl.Some? ==> t == ttl.value
  {
    if ttl.Some? && ttl.value != 0 then ttl.value else 0
  }

  /** What `get` resolves to for a stored entry: the value when it is truthy,
      `{}` when it is missing or falsy or the store cannot be read. */
  function ReadThrough(entries: map<string, Value>, online: bool, storeKey: string): (v: Value)
    ensures Truthy(v)
    ensures v != EmptyObject ==> online && storeKey in entries && entries[storeKey] == v
    ensures online && storeKey in entries && Truthy(entries[storeKey]) ==> v == entries[storeKey]
  {
    if !online then EmptyObject
    else
      var v := MemoryCache.Lookup(entries, storeKey);
      if Truthy(v) then v else EmptyObject
  }

  /** With the store reachable, a truthy value written under a non-empty key
      is what a later read of that key yields; a falsy one reads back as `{}`. */
  lemma ReadAfterWrite(entries: map<string, Value>, key: string, v: Value)
    ensures Truthy(v) ==> ReadThrough(entries[Namespaced(key) := v], true, Namespaced(key)) == v
    ensures !Truthy(v) ==> ReadThrough(entries[Namespaced(key) := v], true, Namespaced(key)) == EmptyObject
  {
  }

  class RedisCache {
    const store: Store
    const namespace: string := NAMESPACE

    /** `new RedisCache(cache)`. */
    constructor (cache: Store)
      ensures store == cache
    {
      store := cache;
    }

    /** `get(key)`: rejects an empty key; otherwise reads the namespaced key,
        falling back to `{}`. */
    method Get(key: string) returns (r: Result<Value, CacheError>)
      ensures key == "" ==> r == Err(EmptyKey)
      ensures key != "" ==> r == Ok(ReadThrough(store.entries, store.online, Namespaced(key)))
    {
      if key == "" {
        return Err(EmptyKey);
      }
      var storeKey := namespace + key;
      var value := EmptyObject;
      var got := store.Get(storeKey);
      match got {
        case Ok(v) =>
          value := v;
          if !Truthy(value) {
            value := EmptyObject;
          }
        case Err(_) =>
          value := EmptyObject;
      }
      r := Ok(value);
    }

    /** `set(key, value, ttl)`: rejects an empty key without touching the
        store; otherwise stores under the namespaced key with the effective TTL. */
    method Set(key: string, value: Value, ttl: Option<int>) returns (r: Result<(), CacheError>)
      modifies store
      ensures store.online == old(store.online)
      ensures key == "" ==> r == Err(EmptyKey) && unchanged(store)
      ensures key != "" && store.online ==>
        r == Ok(()) &&
        store.entries == old(store.entries)[Namespaced(key) := value] &&
        store.ttls == old(store.ttls)[Namespaced(key) := EffectiveTtl(ttl)]
      ensures key != "" && !store.online ==> r == Err(StoreFailure) && unchanged(store)
    {
      if key == "" {
        return Err(EmptyKey);
      }
      var storeKey := namespace + key;
      r := store.Set(storeKey, value, EffectiveTtl(ttl));
    }

    /** `remove(key)`: false for an empty key; otherwise asks the store to
        delete the namespaced key without waiting and reports true. */
    method Remove(key: string) returns (removed: bool)
      modifies store
      ensures removed <==> key != ""
      ensures store.online == old(store.online)
      ensures key == "" || !store.online ==> unchanged(store)
      ensures key != "" && store.online ==>
        store.entries == old(store.entries) - {Namespaced(key)} &&
        store.ttls == old(store.ttls) - {Namespaced(key)}
    {
      if key == "" {
        return false;
      }
      var storeKey := namespace + key;
      store.Del(storeKey);
      removed := true;
    }
  }
}
