/**
 * gee-cache/day6/geecache/http.go: the same pool, path handling and client
 * as day5 (HttpDay5), serving the day6 namespaces.
 */
module HttpDay6 {
  import opened Types
  import opened Strs
  import opened HttpDay5
  import Capabilities
  import Lookup
  import GroupDay5
  import GroupDay6

  /** HTTPPool.ServeHTTP against the day6 registry, whose groups load as corrected. */
  method ServeHTTP(pool: HTTPPool, reg: GroupDay6.Registry, path: string) returns (s: Served)
    requires reg.Valid()
    modifies set n | n in reg.groups :: reg.groups[n].mainCache
    modifies set n | n in reg.groups :: reg.groups[n].loader
    ensures reg.Valid()
    ensures match ParsePath(pool.basePath, path)
      case BadPrefix => s == Panic("HTTPPool serving unexpected path: " + path)
      case BadRequest => s == Served(HttpError(StatusBadRequest, "bad request"))
      case Request(group, key) =>
        if group !in reg.groups then s == Served(HttpError(StatusNotFound, "no such group: " + group))
        else
          var g := reg.groups[group];
          var o := GroupDay5.GetOutcome(old(g.mainCache.Contents()), g.peers, g.getter, g.name, key);
          s == Served(ReplyFor(o.result)) && g.mainCache.Contents() == o.store
    ensures forall n | n in reg.groups && !(ParsePath(pool.basePath, path).Request? && ParsePath(pool.basePath, path).group == n) ::
      reg.groups[n].mainCache.Contents() == old(reg.groups[n].mainCache.Contents())
  {
    var parsed := ParsePath(pool.basePath, path);
    if parsed.BadPrefix? {
      return Panic("HTTPPool serving unexpected path: " + path);
    }
    if parsed.BadRequest? {
      return Served(HttpError(StatusBadRequest, "bad request"));
    }
    var group := reg.GetGroup(parsed.group);
    if group == null {
      return Served(HttpError(StatusNotFound, "no such group: " + parsed.group));
    }
    var view := group.Get(parsed.key);
    s := Served(ReplyFor(view));
  }

  /**
   * A path that ends right after "<group>/" names the empty key, which
   * Group.Get refuses before it loads, so a known group answers 500
   * "key is required" and its store is left as it was, with the load as
   * written as with the corrected one.
   */
  lemma TrailingSlashIs500(basePath: string, group: string, store: map<string, ByteView>,
                           peers: Option<Capabilities.PeerPicker>, getter: Capabilities.Getter, name: string)
    requires '/' !in group
    ensures ParsePath(basePath, basePath + group + "/") == Request(group, "")
    ensures var o := GroupDay5.GetOutcome(store, peers, getter, name, ParsePath(basePath, basePath + group + "/").key);
      ReplyFor(o.result) == HttpError(StatusInternalServerError, "key is required") && o.store == store
    ensures var o := GroupDay6.GetOutcomeAsWritten(store, peers, getter, name, ParsePath(basePath, basePath + group + "/").key);
      ReplyFor(o.result) == HttpError(StatusInternalServerError, "key is required") && o.store == store
  {
    PathRoundTrip("", basePath, group, "");
    assert basePath + group + "/" + "" == basePath + group + "/";
  }

  /**
   * What the day6 server answers when the group's load runs locally: with
   * the load as written the reply is always an empty 200 body, even for a
   * loader error; with the corrected load it is the loader's error as a 500
   * or the loaded bytes.
   */
  lemma LocalLoadReply(store: map<string, ByteView>, peers: Option<Capabilities.PeerPicker>,
                       getter: Capabilities.Getter, name: string, key: string)
    requires key != "" && key !in store && !Lookup.PeerHit(peers, name, key)
    ensures ReplyFor(GroupDay6.GetOutcomeAsWritten(store, peers, getter, name, key).result) == Body(OctetStream, [])
    ensures getter(key).Err? ==>
      ReplyFor(GroupDay5.GetOutcome(store, peers, getter, name, key).result)
        == HttpError(StatusInternalServerError, getter(key).msg)
    ensures getter(key).Ok? ==>
      ReplyFor(GroupDay5.GetOutcome(store, peers, getter, name, key).result) == Body(OctetStream, getter(key).value)
  {
  }
}
