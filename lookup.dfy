/**
 * The branches of `Group.load` shared by the snapshots, as functions of the
 * store's entries: the peer branch (getFromPeer) and the local branch
 * (getLocally followed by populateCache).
 */
module Lookup {
  import opened Types
  import opened Capabilities

  const KeyRequired := "key is required"

  /**
   * The peer branch: None when no picker is registered or it names no remote
   * peer, otherwise what that peer answered for (group, key).
   */
  function PeerFetch(peers: Option<PeerPicker>, name: string, key: string): Option<Result<ByteView>>
  {
    if peers.Some? && peers.value.pick(key).Some? then
      Some(peers.value.pick(key).value.get(name, key))
    else None
  }

  /** True when the peer branch produced a value. */
  predicate PeerHit(peers: Option<PeerPicker>, name: string, key: string)
  {
    PeerFetch(peers, name, key).Some? && PeerFetch(peers, name, key).value.Ok?
  }

  /** getLocally: ask the loader; on success store a copy under `key` and return it. */
  function LocalOutcome(store: map<string, ByteView>, getter: Getter, key: string): (o: Outcome)
    ensures o.result == getter(key)
    ensures o.result.Err? ==> o.store == store
    ensures o.result.Ok? ==> o.store == store[key := o.result.value]
  {
    match getter(key)
    case Err(e) => Outcome(Err(e), store)
    case Ok(bytes) => Outcome(Ok(bytes), store[key := bytes])
  }

  /**
   * `load` as day5 writes it (and as day6 evidently intends it): a remote
   * peer's value is returned unchanged and not stored; otherwise the loader
   * is asked, its answer (error or value) is returned, and only a value
   * changes the store, by being stored under `key`.
   */
  function LoadOutcome(store: map<string, ByteView>, peers: Option<PeerPicker>, getter: Getter,
                       name: string, key: string): (o: Outcome)
    ensures PeerHit(peers, name, key) ==>
      o.result == PeerFetch(peers, name, key).value && o.store == store
    ensures !PeerHit(peers, name, key) ==> o == LocalOutcome(store, getter, key)
    ensures !PeerHit(peers, name, key) ==> o.result == getter(key)
    ensures !PeerHit(peers, name, key) && getter(key).Ok? ==> o.store == store[key := getter(key).value]
    ensures o.result.Err? ==> o.store == store
    ensures o.store != store ==> o.result.Ok? && o.store == store[key := o.result.value]
  {
    if PeerHit(peers, name, key) then Outcome(PeerFetch(peers, name, key).value, store)
    else LocalOutcome(store, getter, key)
  }
}
