/**
 * gee-cache/day2/geecache/geecache.go: the local-only cache namespace.
 * The package-level `groups` map is the field of an explicit Registry object.
 */
module GroupDay2 {
  import opened Types
  import opened Capabilities
  import opened Store
  import opened Lookup

  /**
   * Group.Get as a function of the store's entries: the empty key is refused,
   * a hit is returned as stored, a miss goes to the loader.
   */
  function GetOutcome(store: map<string, ByteView>, getter: Getter, key: string): (o: Outcome)
    ensures key == "" ==> o == Outcome(Err(KeyRequired), store)
    ensures key != "" && key in store ==> o == Outcome(Ok(store[key]), store)
    ensures key != "" && key !in store ==> o == LocalOutcome(store, getter, key)
    ensures key != "" && key !in store ==> o.result == getter(key)
    ensures key != "" && key !in store && getter(key).Ok? ==> o.store == store[key := getter(key).value]
    ensures o.result.Err? ==> o.store == store
    ensures o.store != store ==> key !in store && o.result.Ok? && o.store == store[key := o.result.value]
  {
    if key == "" then Outcome(Err(KeyRequired), store)
    else if key in store then Outcome(Ok(store[key]), store)
    else LocalOutcome(store, getter, key)
  }

  /** A successful lookup makes the next lookup of the same key a hit that returns the same view. */
  lemma GetThenHit(store: map<string, ByteView>, getter: Getter, getter': Getter, key: string)
    requires GetOutcome(store, getter, key).result.Ok?
    ensures var o := GetOutcome(store, getter, key);
      GetOutcome(o.store, getter', key) == o
  {
  }

  class Group {
    const name: string
    const getter: Getter
    const mainCache: Cache

    constructor (name: string, cacheBytes: int, getter: Getter)
      ensures this.name == name && this.getter == getter
      ensures fresh(mainCache) && mainCache.cacheBytes == cacheBytes && mainCache.lru.None?
    {
      this.name := name;
      this.getter := getter;
      mainCache := new Cache(cacheBytes);
    }

    /** Group.Get */
    method Get(key: string) returns (r: Result<ByteView>)
      modifies mainCache
      ensures Outcome(r, mainCache.Contents()) == GetOutcome(old(mainCache.Contents()), getter, key)
    {
      if key == "" {
        return Err(KeyRequired);
      }
      var hit := mainCache.Get(key);
      if hit.1 {
        return Ok(hit.0);
      }
      r := Load(key);
    }

    /** Group.load: always the local branch. */
    method Load(key: string) returns (r: Result<ByteView>)
      modifies mainCache
      ensures Outcome(r, mainCache.Contents()) == LocalOutcome(old(mainCache.Contents()), getter, key)
    {
      r := GetLocally(key);
    }

    /** Group.getLocally */
    method GetLocally(key: string) returns (r: Result<ByteView>)
      modifies mainCache
      ensures Outcome(r, mainCache.Contents()) == LocalOutcome(old(mainCache.Contents()), getter, key)
    {
      var loaded := getter(key);
      if loaded.Err? {
        return Err(loaded.msg);
      }
      var value := loaded.value;  // cloneBytes: a Dafny sequence is already a copy
      PopulateCache(key, value);
      r := Ok(value);
    }

    /** Group.populateCache */
    method PopulateCache(key: string, value: ByteView)
      modifies mainCache
      ensures mainCache.Contents() == old(mainCache.Contents())[key := value]
    {
      mainCache.Add(key, value);
    }
  }

  class Registry {
    /** `groups = make(map[string]*Group)` */
    var groups: map<string, Group>

    /** Every group sits under its own name, and no two entries share a store. */
    ghost predicate Valid()
      reads this
    {
      && (forall n | n in groups :: groups[n].name == n)
      && (forall a, b | a in groups && b in groups && a != b :: groups[a].mainCache != groups[b].mainCache)
    }

    constructor ()
      ensures Valid() && groups == map[]
    {
      groups := map[];
    }

    /** NewGroup: None stands for the "nil Getter" panic. */
    method NewGroup(name: string, cacheBytes: int, getter: Option<Getter>) returns (g: Option<Group>)
      requires Valid()
      modifies this
      ensures Valid()
      ensures getter.None? ==> g.None? && groups == old(groups)
      ensures getter.Some? ==>
        && g.Some? && fresh(g.value) && fresh(g.value.mainCache)
        && groups == old(groups)[name := g.value]
        && g.value.name == name && g.value.getter == getter.value
        && g.value.mainCache.cacheBytes == cacheBytes && g.value.mainCache.Contents() == map[]
    {
      if getter.None? {
        return None;
      }
      var group := new Group(name, cacheBytes, getter.value);
      groups := groups[name := group];
      g := Some(group);
    }

    /** GetGroup: the group registered under `name`, or null. */
    function GetGroup(name: string): (g: Group?)
      reads this
      ensures g != null <==> name in groups
      ensures g != null ==> g == groups[name]
    {
      if name in groups then groups[name] else null
    }
  }
}
