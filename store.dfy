/**
 * gee-cache/day5/geecache/cache.go: the mutex-guarded wrapper that builds its
 * LRU lazily on the first write. The LRU itself (lru.go) is not part of this
 * model; it is an abstract key -> bytes store without eviction.
 */
module Store {
  import opened Types

  /** lru.Cache, abstracted: its capacity, whether an eviction hook was given, and its entries. */
  datatype Lru = Lru(maxBytes: int, hasEvictionHook: bool, entries: map<string, ByteView>)
  {
    /** lru.Cache.Add, without eviction: the entry is stored and the other entries are kept. */
    function Add(key: string, value: ByteView): (r: Lru)
      ensures key in r.entries && r.entries[key] == value
      ensures forall k | k in entries && k != key :: k in r.entries && r.entries[k] == entries[k]
      ensures r.entries.Keys == entries.Keys + {key}
      ensures r.maxBytes == maxBytes && r.hasEvictionHook == hasEvictionHook
    {
      this.(entries := entries[key := value])
    }
  }

  class Cache {
    const cacheBytes: int
    /** `lru *lru.Cache`: None until the first `add`. */
    var lru: Option<Lru>

    constructor (cacheBytes: int)
      ensures this.cacheBytes == cacheBytes && lru == None
    {
      this.cacheBytes := cacheBytes;
      lru := None;
    }

    /** The entries the cache holds; a cache whose LRU was never built holds none. */
    function Contents(): map<string, ByteView>
      reads this
    {
      if lru.None? then map[] else lru.value.entries
    }

    /** cache.add: build the LRU on first use, then insert into it. */
    method Add(key: string, value: ByteView)
      modifies this
      ensures lru.Some?
      ensures old(lru).None? ==> lru.value.maxBytes == cacheBytes && !lru.value.hasEvictionHook
      ensures old(lru).Some? ==>
        lru.value.maxBytes == old(lru).value.maxBytes &&
        lru.value.hasEvictionHook == old(lru).value.hasEvictionHook
      ensures Contents() == old(Contents())[key := value]
    {
      if lru.None? {
        lru := Some(Lru(cacheBytes, false, map[]));
      }
      lru := Some(lru.value.Add(key, value));
    }

    /** cache.get: (value, true) exactly when the LRU holds `key`; the zero view otherwise. */
    function Get(key: string): (r: (ByteView, bool))
      reads this
      ensures lru.None? ==> r == ([], false)
      ensures r.1 <==> key in Contents()
      ensures r.1 ==> r.0 == Contents()[key]
      ensures !r.1 ==> r.0 == []
    {
      if lru.None? then ([], false)
      else if key in lru.value.entries then (lru.value.entries[key], true)
      else ([], false)
    }
  }
}
