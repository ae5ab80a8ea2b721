/**
 * gee-cache/day5/geecache/http.go: the peer pool (ring + per-peer clients),
 * the server side of the peer protocol, and the plain-bytes client.
 * day6/geecache/http.go repeats Set, PeerPick, the path handling and
 * HTTPGetter.Get unchanged apart from its log calls; day7 repeats Set and
 * PeerPick. The consistent-hash ring (consistenthash.go) is not part of this
 * model: it is the opaque function `route`.
 */
module HttpDay5 {
  import opened Types
  import opened Strs
  import opened Capabilities
  import GroupDay5

  const DefaultBasePath := "/_geecache/"

  /** Status codes of section 15 of RFC 9110 that the endpoint uses. */
  const StatusOK := 200
  const StatusBadRequest := 400
  const StatusNotFound := 404
  const StatusInternalServerError := 500

  const OctetStream := "application/octet-stream"

  /**
   * consistenthash.Map.Get over the nodes given to Add: it names one of
   * those nodes, or "" (which is what an empty ring answers).
   */
  type RouteFn = f: (seq<string>, string) -> string | forall nodes: seq<string>, key: string :: f(nodes, key) == "" || f(nodes, key) in nodes
    witness (nodes: seq<string>, key: string) => ""

  /** HTTPGetter: the client for one peer. */
  datatype HTTPGetter = HTTPGetter(baseURL: string)

  /** What `http.Get` and reading the body produce: a transport error, or a status and a body. */
  datatype HttpResult = TransportError(err: string) | Reply(statusCode: int, status: string, body: Result<seq<byte>>)

  /** `http.Get` on a fully formed URL; an injected function. */
  type Transport = string -> HttpResult

  /** What ServeHTTP writes: `http.Error(w, text, status)` or a 200 body with its content type. */
  datatype Response = HttpError(status: int, text: string) | Body(contentType: string, bytes: seq<byte>)

  /** A handled request, or the "unexpected path" panic. */
  datatype Served = Panic(msg: string) | Served(response: Response)

  /** The request path after the fixed prefix check and the split into group and key. */
  datatype PathParse = BadPrefix | BadRequest | Request(group: string, key: string)

  /**
   * ServeHTTP's path handling: the prefix must be there; the rest is split
   * at its first "/" only, so the key keeps any further slashes.
   */
  function ParsePath(basePath: string, path: string): (p: PathParse)
    ensures p == BadPrefix <==> !HasPrefix(path, basePath)
    ensures p == BadRequest <==> HasPrefix(path, basePath) && '/' !in path[|basePath|..]
    ensures p.Request? ==> path == basePath + p.group + "/" + p.key && '/' !in p.group
  {
    if !HasPrefix(path, basePath) then BadPrefix
    else
      var parts := SplitFirst(path[|basePath|..], '/');
      if |parts| != 2 then BadRequest else Request(parts[0], parts[1])
  }

  /**
   * HTTPGetter.Get's URL: `baseURL + group + "/" + key`, nothing escaped.
   * After the base URL, a group without "/" and the key split apart again.
   */
  function PlainURL(baseURL: string, group: string, key: string): (url: string)
    ensures HasPrefix(url, baseURL)
    ensures '/' !in group ==> SplitFirst(url[|baseURL|..], '/') == [group, key]
  {
    var url := baseURL + group + "/" + key;
    assert url[..|baseURL|] == baseURL;
    assert url[|baseURL|..] == group + ['/'] + key;
    if '/' in group then url else SplitFirstJoin(group, '/', key); url
  }

  /**
   * The round trip of the plain protocol: the path of the URL a client builds
   * for peer `peer` parses back into the same group and key exactly when the
   * group has no "/".
   */
  lemma PathRoundTrip(peer: string, basePath: string, group: string, key: string)
    ensures PlainURL(HTTPGetter(peer + basePath).baseURL, group, key) == peer + (basePath + group + "/" + key)
    ensures ParsePath(basePath, basePath + group + "/" + key) == Request(group, key) <==> '/' !in group
  {
    var path := basePath + group + "/" + key;
    assert path[..|basePath|] == basePath;
    assert path[|basePath|..] == group + ['/'] + key;
    if '/' !in group {
      SplitFirstJoin(group, '/', key);
    }
  }

  /**
   * HTTPGetter.Get: a transport error, a status other than 200 and a body
   * read error each give an error; otherwise the body's bytes.
   */
  function FetchPlain(transport: Transport, getter: HTTPGetter, group: string, key: string): (r: Result<seq<byte>>)
    ensures var res := transport(PlainURL(getter.baseURL, group, key));
      && (r.Ok? <==> res.Reply? && res.statusCode == StatusOK && res.body.Ok?)
      && (r.Ok? ==> r.value == res.body.value)
      && (res.TransportError? ==> r == Err(res.err))
      && (res.Reply? && res.statusCode != StatusOK ==> r == Err("server returned=" + res.status))
  {
    match transport(PlainURL(getter.baseURL, group, key))
    case TransportError(e) => Err(e)
    case Reply(code, status, body) =>
      if code != StatusOK then Err("server returned=" + status)
      else if body.Err? then Err("read response body error=" + body.msg)
      else Ok(body.value)
  }

  /** How a group's answer is written: an error is a 500 with its text, a view is its raw bytes. */
  function ReplyFor(r: Result<ByteView>): (resp: Response)
    ensures r.Err? <==> resp.HttpError?
    ensures r.Err? ==> resp.status == StatusInternalServerError && resp.text == r.msg
    ensures r.Ok? ==> resp.contentType == OctetStream && resp.bytes == r.value
  {
    match r
    case Err(e) => HttpError(StatusInternalServerError, e)
    case Ok(v) => Body(OctetStream, v)
  }

  class HTTPPool {
    const self: string
    const basePath: string
    const route: RouteFn
    /** `peers *consistenthash.Map`: the nodes of the ring, None until the first Set. */
    var ring: Option<seq<string>>
    var httpGetters: map<string, HTTPGetter>

    /** The getter table has one client per ring node, each pointing at that node's base path. */
    ghost predicate Valid()
      reads this
    {
      && (ring.None? ==> httpGetters == map[])
      && (ring.Some? ==> httpGetters.Keys == set p | p in ring.value)
      && (forall p | p in httpGetters :: httpGetters[p] == HTTPGetter(p + basePath))
    }

    /** NewHTTPPool */
    constructor (self: string, route: RouteFn)
      ensures Valid()
      ensures this.self == self && basePath == DefaultBasePath && this.route == route
      ensures ring.None? && httpGetters == map[]
    {
      this.self := self;
      basePath := DefaultBasePath;
      this.route := route;
      ring := None;
      httpGetters := map[];
    }

    /** HTTPPool.Set: rebuild the ring and the getter table from scratch. */
    method Set(peers: seq<string>)
      modifies this
      ensures Valid()
      ensures ring == Some(peers)
      ensures httpGetters.Keys == set p | p in peers
      ensures forall p | p in peers :: httpGetters[p].baseURL == p + basePath
    {
      ring := Some(peers);
      httpGetters := map[];
      for i := 0 to |peers|
        invariant ring == Some(peers)
        invariant httpGetters.Keys == set j | 0 <= j < i :: peers[j]
        invariant forall p | p in httpGetters :: httpGetters[p] == HTTPGetter(p + basePath)
      {
        httpGetters := httpGetters[peers[i] := HTTPGetter(peers[i] + basePath)];
      }
      assert (set j | 0 <= j < |peers| :: peers[j]) == set p | p in peers;
    }

    /**
     * HTTPPool.PeerPick: the client of the node the ring names, when that
     * node is neither "" nor this node. The ring exists only after Set.
     */
    function PeerPick(key: string): (r: Option<HTTPGetter>)
      reads this
      requires Valid() && ring.Some?
      ensures r.Some? <==> route(ring.value, key) != "" && route(ring.value, key) != self
      ensures r.Some? ==> r.value.baseURL == route(ring.value, key) + basePath
    {
      var peer := route(ring.value, key);
      if peer != "" && peer != self then Some(httpGetters[peer]) else None
    }

    /** The pool as the PeerPicker a group is given: PeerPick, with fetches through FetchPlain. */
    function AsPicker(transport: Transport): (p: PeerPicker)
      reads this
      requires Valid() && ring.Some?
      ensures forall key :: p.pick(key).Some? <==> PeerPick(key).Some?
      ensures forall key, group, k :: p.pick(key).Some? ==>
        p.pick(key).value.get(group, k) == FetchPlain(transport, PeerPick(key).value, group, k)
    {
      var nodes, me, getters, rt := ring.value, self, httpGetters, route;
      PeerPicker(key =>
        var peer := rt(nodes, key);
        if peer != "" && peer != me && peer in getters then
          var client := getters[peer];
          Some(PeerGetter((group, k) => FetchPlain(transport, client, group, k)))
        else None)
    }
  }

  /**
   * HTTPPool.ServeHTTP against the day5 registry: panic on a foreign path,
   * 400 without a "/", 404 for an unknown group, otherwise that group's Get,
   * whose effect on its store is Get's own. No other group's store changes.
   */
  method ServeHTTP(pool: HTTPPool, reg: GroupDay5.Registry, path: string) returns (s: Served)
    requires reg.Valid()
    modifies set n | n in reg.groups :: reg.groups[n].mainCache
    ensures match ParsePath(pool.basePath, path)
      case BadPrefix => s == Panic("HTTPPool serving unexpected path: " + path)
      case BadRequest => s == Served(HttpError(StatusBadRequest, "bad request"))
      case Request(group, key) =>
        if group !in reg.groups then s == Served(HttpError(StatusNotFound, "no such group: " + group))
        else
          var g := reg.groups[group];
          var o := GroupDay5.GetOutcome(old(g.mainCache.Contents()), g.peers, g.getter, g.name, key);
          s == Served(ReplyFor(o.result)) && g.mainCache.Contents() == o.store
    ensures forall n | n in reg.groups && !(ParsePath(pool.basePath, path).Request? && ParsePath(pool.basePath, path).group == n) ::
      reg.groups[n].mainCache.Contents() == old(reg.groups[n].mainCache.Contents())
  {
    var parsed := ParsePath(pool.basePath, path);
    if parsed.BadPrefix? {
      return Panic("HTTPPool serving unexpected path: " + path);
    }
    if parsed.BadRequest? {
      return Served(HttpError(StatusBadRequest, "bad request"));
    }
    var group := reg.GetGroup(parsed.group);
    if group == null {
      return Served(HttpError(StatusNotFound, "no such group: " + parsed.group));
    }
    var view := group.Get(parsed.key);
    s := Served(ReplyFor(view));
  }
}
