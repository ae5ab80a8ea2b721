/**
 * gee-cache/day5/geecache/geecache.go: the cache namespace with peers.
 * A miss asks the registered PeerPicker for a remote owner first and falls
 * back to the local loader when there is none or its fetch fails.
 */
module GroupDay5 {
  import opened Types
  import opened Capabilities
  import opened Store
  import opened Lookup

  /** Group.Get as a function of the store's entries, the picker and the loader. */
  function GetOutcome(store: map<string, ByteView>, peers: Option<PeerPicker>, getter: Getter,
                      name: string, key: string): (o: Outcome)
    ensures key == "" ==> o == Outcome(Err(KeyRequired), store)
    ensures key != "" && key in store ==> o == Outcome(Ok(store[key]), store)
    ensures key != "" && key !in store && PeerHit(peers, name, key) ==>
      o == Outcome(PeerFetch(peers, name, key).value, store)
    ensures key != "" && key !in store ==> o == LoadOutcome(store, peers, getter, name, key)
    ensures key != "" && key !in store && !PeerHit(peers, name, key) ==> o.result == getter(key)
    ensures key != "" && key !in store && !PeerHit(peers, name, key) && getter(key).Ok? ==>
      o.store == store[key := getter(key).value]
    ensures o.result.Err? ==> o.store == store
    ensures o.store != store ==>
      key !in store && !PeerHit(peers, name, key) && o.result.Ok? && o.store == store[key := o.result.value]
  {
    if key == "" then Outcome(Err(KeyRequired), store)
    else if key in store then Outcome(Ok(store[key]), store)
    else LoadOutcome(store, peers, getter, name, key)
  }

  /** The empty key and a hit never reach the picker or the loader: swapping both changes nothing. */
  lemma HitIgnoresPeersAndLoader(store: map<string, ByteView>, peers: Option<PeerPicker>, peers': Option<PeerPicker>,
                                 getter: Getter, getter': Getter, name: string, key: string)
    requires key == "" || key in store
    ensures GetOutcome(store, peers, getter, name, key) == GetOutcome(store, peers', getter', name, key)
  {
  }

  /**
   * Remote first, local fallback: when the owning peer fails, the loader's
   * value is stored, and the next lookup of the key is a local hit that no
   * longer depends on any peer.
   */
  lemma FallbackThenLocalHit(store: map<string, ByteView>, peers: Option<PeerPicker>, peers': Option<PeerPicker>,
                             getter: Getter, name: string, key: string)
    requires key != "" && key !in store
    requires PeerFetch(peers, name, key).Some? && PeerFetch(peers, name, key).value.Err?
    requires getter(key).Ok?
    ensures var o := GetOutcome(store, peers, getter, name, key);
      o.result == getter(key) && GetOutcome(o.store, peers', getter, name, key) == o
  {
  }

  class Group {
    const name: string
    const getter: Getter
    const mainCache: Cache
    /** `peers PeerPicker`: None until RegisterPeers. */
    var peers: Option<PeerPicker>

    constructor (name: string, cacheBytes: int, getter: Getter)
      ensures this.name == name && this.getter == getter && peers.None?
      ensures fresh(mainCache) && mainCache.cacheBytes == cacheBytes && mainCache.lru.None?
    {
      this.name := name;
      this.getter := getter;
      mainCache := new Cache(cacheBytes);
      peers := None;
    }

    /** Group.Get */
    method Get(key: string) returns (r: Result<ByteView>)
      modifies mainCache
      ensures Outcome(r, mainCache.Contents()) == GetOutcome(old(mainCache.Contents()), peers, getter, name, key)
    {
      if key == "" {
        return Err(KeyRequired);
      }
      var hit := mainCache.Get(key);
      if hit.1 {
        return Ok(hit.0);
      }
      r := Load(key);
    }

    /** Group.RegisterPeers: `panicked` stands for the "called more than once" panic. */
    method RegisterPeers(picker: PeerPicker) returns (panicked: bool)
      modifies this
      ensures panicked <==> old(peers).Some?
      ensures peers == if panicked then old(peers) else Some(picker)
    {
      if peers.Some? {
        return true;
      }
      peers := Some(picker);
      panicked := false;
    }

    /** Group.load */
    method Load(key: string) returns (r: Result<ByteView>)
      modifies mainCache
      ensures Outcome(r, mainCache.Contents()) == LoadOutcome(old(mainCache.Contents()), peers, getter, name, key)
    {
      if peers.Some? {
        var peer := peers.value.pick(key);
        if peer.Some? {
          var fetched := GetFromPeer(peer.value, key);
          if fetched.Ok? {
            return fetched;
          }
          // the failure is logged and the local branch follows
        }
      }
      r := GetLocally(key);
    }

    /** Group.getLocally */
    method GetLocally(key: string) returns (r: Result<ByteView>)
      modifies mainCache
      ensures Outcome(r, mainCache.Contents()) == LocalOutcome(old(mainCache.Contents()), getter, key)
    {
      var loaded := getter(key);
      if loaded.Err? {
        return Err(loaded.msg);
      }
      var value := loaded.value;  // cloneBytes: a Dafny sequence is already a copy
      PopulateCache(key, value);
      r := Ok(value);
    }

    /** Group.populateCache */
    method PopulateCache(key: string, value: ByteView)
      modifies mainCache
      ensures mainCache.Contents() == old(mainCache.Contents())[key := value]
    {
      mainCache.Add(key, value);
    }

    /**
     * Group.getFromPeer: the peer's bytes as a view, or its error. It is the
     * peer branch of the load for any picker that names this peer.
     */
    function GetFromPeer(peer: PeerGetter, key: string): (r: Result<ByteView>)
      ensures forall picker: PeerPicker | picker.pick(key) == Some(peer) ::
        PeerFetch(Some(picker), name, key) == Some(r)
    {
      peer.get(name, key)
    }
  }

  class Registry {
    /** `groups = make(map[string]*Group)` */
    var groups: map<string, Group>

    /** Every group sits under its own name, and no two entries share a store. */
    ghost predicate Valid()
      reads this
    {
      && (forall n | n in groups :: groups[n].name == n)
      && (forall a, b | a in groups && b in groups && a != b :: groups[a].mainCache != groups[b].mainCache)
    }

    constructor ()
      ensures Valid() && groups == map[]
    {
      groups := map[];
    }

    /** NewGroup: None stands for the "nil Getter" panic. */
    method NewGroup(name: string, cacheBytes: int, getter: Option<Getter>) returns (g: Option<Group>)
      requires Valid()
      modifies this
      ensures Valid()
      ensures getter.None? ==> g.None? && groups == old(groups)
      ensures getter.Some? ==>
        && g.Some? && fresh(g.value) && fresh(g.value.mainCache)
        && groups == old(groups)[name := g.value]
        && g.value.name == name && g.value.getter == getter.value && g.value.peers.None?
        && g.value.mainCache.cacheBytes == cacheBytes && g.value.mainCache.Contents() == map[]
    {
      if getter.None? {
        return None;
      }
      var group := new Group(name, cacheBytes, getter.value);
      groups := groups[name := group];
      g := Some(group);
    }

    /** GetGroup: the group registered under `name`, or null. */
    function GetGroup(name: string): (g: Group?)
      reads this
      ensures g != null <==> name in groups
      ensures g != null ==> g == groups[name]
    {
      if name in groups then groups[name] else null
    }
  }
}
