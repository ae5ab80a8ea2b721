/**
 * gee-cache/day6/geecache/geecache.go: the namespace with peers whose `load`
 * runs through a request coalescer (singleflight). In a sequential model
 * `Do(key, fn)` records the key, runs `fn` once and forgets the key again.
 *
 * `load` is modelled as written: the closure assigns the named results
 * `value, err`, the result of `Do` is assigned to `viewi, err`, the check
 * after it is inverted, and the closing bare `return` returns the named
 * `value`, which only the peer branch ever sets to something non-empty.
 * Group.Load is that code; Group.LoadFixed is the evident intent, and
 * Group.Get (with everything built on it) uses LoadFixed.
 */
module GroupDay6 {
  import opened Types
  import opened Capabilities
  import opened Store
  import opened Lookup
  import GroupDay5

  /**
   * `load` as written: the peer's value when a remote peer answered;
   * otherwise the local branch still runs (and may populate the store), but
   * the caller gets the empty view and no error.
   */
  function LoadAsWritten(store: map<string, ByteView>, peers: Option<PeerPicker>, getter: Getter,
                         name: string, key: string): (o: Outcome)
    ensures PeerHit(peers, name, key) ==>
      o.result == PeerFetch(peers, name, key).value && o.store == store
    ensures !PeerHit(peers, name, key) ==>
      o.result == Ok([]) && o.store == LocalOutcome(store, getter, key).store
    ensures o.result.Ok?
  {
    if PeerHit(peers, name, key) then Outcome(PeerFetch(peers, name, key).value, store)
    else Outcome(Ok([]), LocalOutcome(store, getter, key).store)
  }

  /** Group.Get as a function of the store's entries, with `load` as written. */
  function GetOutcomeAsWritten(store: map<string, ByteView>, peers: Option<PeerPicker>, getter: Getter,
                      name: string, key: string): (o: Outcome)
    ensures key == "" ==> o == Outcome(Err(KeyRequired), store)
    ensures key != "" && key in store ==> o == Outcome(Ok(store[key]), store)
    ensures key != "" && key !in store ==> o == LoadAsWritten(store, peers, getter, name, key)
    ensures o.result.Err? <==> key == ""
  {
    if key == "" then Outcome(Err(KeyRequired), store)
    else if key in store then Outcome(Ok(store[key]), store)
    else LoadAsWritten(store, peers, getter, name, key)
  }

  /**
   * The two loads agree on the store in every case, and on the result
   * exactly when a remote peer answered or the correct result is the empty
   * view: day6 differs from the intended `load` only in what it returns.
   */
  lemma AsWrittenDiffersOnlyInResult(store: map<string, ByteView>, peers: Option<PeerPicker>, getter: Getter,
                                     name: string, key: string)
    ensures LoadAsWritten(store, peers, getter, name, key).store == LoadOutcome(store, peers, getter, name, key).store
    ensures LoadAsWritten(store, peers, getter, name, key).result == LoadOutcome(store, peers, getter, name, key).result
      <==> PeerHit(peers, name, key) || getter(key) == Ok([])
  {
  }

  /** Lines 109-111: a loader error reaches the caller as the empty view with no error. */
  lemma LoaderErrorSwallowed(store: map<string, ByteView>, peers: Option<PeerPicker>, getter: Getter,
                             name: string, key: string)
    requires key != "" && key !in store && !PeerHit(peers, name, key) && getter(key).Err?
    ensures GetOutcomeAsWritten(store, peers, getter, name, key) == Outcome(Ok([]), store)
    ensures LoadOutcome(store, peers, getter, name, key).result == getter(key)
  {
  }

  /**
   * Line 112: a value loaded locally is stored but the caller gets the
   * empty view; the next lookup of the key is a hit that does return it.
   */
  lemma LocalValueDropped(store: map<string, ByteView>, peers: Option<PeerPicker>, getter: Getter,
                          name: string, key: string)
    requires key != "" && key !in store && !PeerHit(peers, name, key)
    requires getter(key).Ok? && getter(key).value != []
    ensures var o := GetOutcomeAsWritten(store, peers, getter, name, key);
      && o.result == Ok([])
      && o.store == store[key := getter(key).value]
      && GetOutcomeAsWritten(o.store, peers, getter, name, key).result == getter(key)
  {
  }

  /** singleflight.Group, sequentially: the keys whose computation is in progress. */
  class Coalescer {
    var inFlight: set<string>

    constructor ()
      ensures inFlight == {}
    {
      inFlight := {};
    }
  }

  class Group {
    const name: string
    const getter: Getter
    const mainCache: Cache
    /** `loader *singleflight.Group` */
    const loader: Coalescer
    var peers: Option<PeerPicker>

    /** Between calls nothing is in flight. */
    ghost predicate Valid()
      reads loader
    {
      loader.inFlight == {}
    }

    constructor (name: string, cacheBytes: int, getter: Getter)
      ensures Valid()
      ensures this.name == name && this.getter == getter && peers.None?
      ensures fresh(mainCache) && mainCache.cacheBytes == cacheBytes && mainCache.lru.None?
      ensures fresh(loader)
    {
      this.name := name;
      this.getter := getter;
      mainCache := new Cache(cacheBytes);
      loader := new Coalescer();
      peers := None;
    }

    /**
     * Group.Get, with the corrected load: the same function of the store,
     * the picker and the loader as day5's Get.
     */
    method Get(key: string) returns (r: Result<ByteView>)
      requires Valid()
      modifies mainCache, loader
      ensures Valid()
      ensures Outcome(r, mainCache.Contents()) == GroupDay5.GetOutcome(old(mainCache.Contents()), peers, getter, name, key)
    {
      if key == "" {
        return Err(KeyRequired);
      }
      var hit := mainCache.Get(key);
      if hit.1 {
        return Ok(hit.0);
      }
      r := LoadFixed(key);
    }

    /** Group.RegisterPeers: `panicked` stands for the "called more than once" panic. */
    method RegisterPeers(picker: PeerPicker) returns (panicked: bool)
      modifies this
      ensures panicked <==> old(peers).Some?
      ensures peers == if panicked then old(peers) else Some(picker)
    {
      if peers.Some? {
        return true;
      }
      peers := Some(picker);
      panicked := false;
    }

    /** Group.load, as written. */
    method Load(key: string) returns (r: Result<ByteView>)
      requires Valid()
      modifies mainCache, loader
      ensures Valid()
      ensures Outcome(r, mainCache.Contents()) == LoadAsWritten(old(mainCache.Contents()), peers, getter, name, key)
    {
      var value: ByteView := [];         // the named result `value`
      var err: Option<string> := None;   // the named result `err`
      var fnValue: ByteView, fnErr: Option<string>;
      loader.inFlight := loader.inFlight + {key};
      // the closure passed to Do; it assigns the named results
      var answered := false;
      if peers.Some? {
        var peer := peers.value.pick(key);
        if peer.Some? {
          var fetched := GetFromPeer(peer.value, key);
          if fetched.Ok? {
            value, err := fetched.value, None;
            fnValue, fnErr, answered := value, None, true;
          } else {
            value, err := [], Some(fetched.msg);
          }
        }
      }
      if !answered {
        var local := GetLocally(key);
        if local.Ok? {
          fnValue, fnErr := local.value, None;
        } else {
          fnValue, fnErr := [], Some(local.msg);
        }
      }
      loader.inFlight := loader.inFlight - {key};
      var viewi := fnValue;
      err := fnErr;
      if err.Some? {
        return Ok(viewi);  // `return viewi.(ByteView), nil`
      }
      // the bare `return` hands back the named results; err is nil here
      r := Ok(value);
    }

    /** The evident intent of `load`: return what Do returned, error included. */
    method LoadFixed(key: string) returns (r: Result<ByteView>)
      requires Valid()
      modifies mainCache, loader
      ensures Valid()
      ensures Outcome(r, mainCache.Contents()) == LoadOutcome(old(mainCache.Contents()), peers, getter, name, key)
    {
      loader.inFlight := loader.inFlight + {key};
      var answered := false;
      if peers.Some? {
        var peer := peers.value.pick(key);
        if peer.Some? {
          var fetched := GetFromPeer(peer.value, key);
          if fetched.Ok? {
            r, answered := fetched, true;
          }
        }
      }
      if !answered {
        r := GetLocally(key);
      }
      loader.inFlight := loader.inFlight - {key};
    }

    /** Group.getLocally (its one-second sleep is left out). */
    method GetLocally(key: string) returns (r: Result<ByteView>)
      modifies mainCache
      ensures Outcome(r, mainCache.Contents()) == LocalOutcome(old(mainCache.Contents()), getter, key)
    {
      var loaded := getter(key);
      if loaded.Err? {
        return Err(loaded.msg);
      }
      var value := loaded.value;  // cloneBytes: a Dafny sequence is already a copy
      PopulateCache(key, value);
      r := Ok(value);
    }

    /** Group.populateCache */
    method PopulateCache(key: string, value: ByteView)
      modifies mainCache
      ensures mainCache.Contents() == old(mainCache.Contents())[key := value]
    {
      mainCache.Add(key, value);
    }

    /**
     * Group.getFromPeer: the peer's bytes as a view, or its error. It is the
     * peer branch of the load for any picker that names this peer.
     */
    function GetFromPeer(peer: PeerGetter, key: string): (r: Result<ByteView>)
      ensures forall picker: PeerPicker | picker.pick(key) == Some(peer) ::
        PeerFetch(Some(picker), name, key) == Some(r)
    {
      peer.get(name, key)
    }
  }

  class Registry {
    /** `groups = make(map[string]*Group)` */
    var groups: map<string, Group>

    /**
     * Every group sits under its own name, is between calls, and no two
     * entries share a store or a coalescer.
     */
    ghost predicate Valid()
      reads this, set n | n in groups :: groups[n].loader
    {
      && (forall n | n in groups :: groups[n].name == n && groups[n].Valid())
      && (forall a, b | a in groups && b in groups && a != b ::
            groups[a].mainCache != groups[b].mainCache && groups[a].loader != groups[b].loader)
    }

    constructor ()
      ensures Valid() && groups == map[]
    {
      groups := map[];
    }

    /** NewGroup: None stands for the "nil Getter" panic; each group gets its own coalescer. */
    method NewGroup(name: string, cacheBytes: int, getter: Option<Getter>) returns (g: Option<Group>)
      requires Valid()
      modifies this
      ensures Valid()
      ensures getter.None? ==> g.None? && groups == old(groups)
      ensures getter.Some? ==>
        && g.Some? && fresh(g.value) && fresh(g.value.mainCache) && fresh(g.value.loader)
        && groups == old(groups)[name := g.value]
        && g.value.name == name && g.value.getter == getter.value && g.value.peers.None?
        && g.value.mainCache.cacheBytes == cacheBytes && g.value.mainCache.Contents() == map[]
        && g.value.loader.inFlight == {}
    {
      if getter.None? {
        return None;
      }
      var group := new Group(name, cacheBytes, getter.value);
      groups := groups[name := group];
      g := Some(group);
    }

    /** GetGroup: the group registered under `name`, or null. */
    function GetGroup(name: string): (g: Group?)
      reads this
      ensures g != null <==> name in groups
      ensures g != null ==> g == groups[name]
    {
      if name in groups then groups[name] else null
    }
  }
}
