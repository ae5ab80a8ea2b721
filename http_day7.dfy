/**
 * gee-cache/day7/geecache/http.go: the protobuf-framed protocol. Set and
 * PeerPick are day5's (HttpDay5.HTTPPool). New here: the served value is the
 * encoding of `Response{Value}`, and the client escapes group and key and
 * decodes the reply into its `out` argument. `url.QueryEscape`,
 * `proto.Marshal` and `proto.Unmarshal` are injected functions; the Group of
 * day7 (its geecache.go) is not part of this model, so the server takes its
 * answers as functions too.
 */
module HttpDay7 {
  import opened Types
  import opened HttpDay5
  import opened Strs

  /** pb.Request */
  datatype PbRequest = PbRequest(group: string, key: string)

  /** pb.Response, filled in place by the client. */
  class PbResponse {
    var value: seq<byte>

    constructor ()
      ensures value == []
    {
      value := [];
    }
  }

  /** proto.Marshal(&pb.Response{Value: v}) */
  type Marshal = seq<byte> -> Result<seq<byte>>
  /** proto.Unmarshal into a pb.Response: its Value field */
  type Unmarshal = seq<byte> -> Result<seq<byte>>
  /** url.QueryEscape */
  type Escape = string -> string

  /**
   * The client URL: `baseURL + QueryEscape(group) + "/" + QueryEscape(key)`.
   * After the base URL, an escaped group without "/" and the escaped key
   * split apart again.
   */
  function EscapedURL(escape: Escape, baseURL: string, req: PbRequest): (url: string)
    ensures HasPrefix(url, baseURL)
    ensures '/' !in escape(req.group) ==>
      SplitFirst(url[|baseURL|..], '/') == [escape(req.group), escape(req.key)]
  {
    var group, key := escape(req.group), escape(req.key);
    var url := baseURL + group + "/" + key;
    assert url[..|baseURL|] == baseURL;
    assert url[|baseURL|..] == group + ['/'] + key;
    if '/' in group then url else SplitFirstJoin(group, '/', key); url
  }

  /**
   * The round trip of the escaped protocol: after the peer's address, the
   * URL a client builds is a path that parses into the escaped group and
   * key, whenever the escaped group has no "/".
   */
  lemma EscapedPathParses(escape: Escape, peer: string, basePath: string, req: PbRequest)
    requires '/' !in escape(req.group)
    ensures |peer| <= |EscapedURL(escape, peer + basePath, req)|
    ensures ParsePath(basePath, EscapedURL(escape, peer + basePath, req)[|peer|..])
            == Request(escape(req.group), escape(req.key))
  {
    PathRoundTrip(peer, basePath, escape(req.group), escape(req.key));
  }

  /**
   * With url.QueryEscape, which writes a space as "+", a key with a space
   * reaches the server as a different key: the path the server splits keeps
   * the "+", so "a b" is looked up as "a+b".
   */
  lemma SpaceKeyArrivesAsPlus(escape: Escape, peer: string, basePath: string, group: string)
    requires escape("a b") == "a+b" && '/' !in escape(group)
    ensures |peer| <= |EscapedURL(escape, peer + basePath, PbRequest(group, "a b"))|
    ensures var parsed := ParsePath(basePath, EscapedURL(escape, peer + basePath, PbRequest(group, "a b"))[|peer|..]);
      parsed.Request? && parsed.key == "a+b" && parsed.key != "a b"
  {
    EscapedPathParses(escape, peer, basePath, PbRequest(group, "a b"));
    assert "a+b"[1] != "a b"[1];
  }

  /**
   * HTTPPool.ServeHTTP: the path checks of day5; a known group's answer is
   * marshalled, and a marshalling error is a 500 too.
   */
  function ServeProto(basePath: string, path: string, hasGroup: string -> bool,
                      get: (string, string) -> Result<ByteView>, marshal: Marshal): (s: Served)
    ensures ParsePath(basePath, path) == BadPrefix <==> s.Panic?
    ensures ParsePath(basePath, path) == BadPrefix ==> s == Panic("HTTPPool serving unexpected path: " + path)
    ensures ParsePath(basePath, path) == BadRequest <==> s == Served(HttpError(StatusBadRequest, "bad request"))
    ensures ParsePath(basePath, path).Request? ==>
      var group, key := ParsePath(basePath, path).group, ParsePath(basePath, path).key;
      && (!hasGroup(group) ==> s == Served(HttpError(StatusNotFound, "no such group: " + group)))
      && (hasGroup(group) && get(group, key).Err? ==>
            s == Served(HttpError(StatusInternalServerError, get(group, key).msg)))
      && (hasGroup(group) && get(group, key).Ok? && marshal(get(group, key).value).Err? ==>
            s == Served(HttpError(StatusInternalServerError, marshal(get(group, key).value).msg)))
      && (s.Served? && s.response.Body? <==>
            hasGroup(group) && get(group, key).Ok? && marshal(get(group, key).value).Ok?)
      && (s.Served? && s.response.Body? ==>
            s.response == Body(OctetStream, marshal(get(group, key).value).value))
  {
    match ParsePath(basePath, path)
    case BadPrefix => Panic("HTTPPool serving unexpected path: " + path)
    case BadRequest => Served(HttpError(StatusBadRequest, "bad request"))
    case Request(group, key) =>
      if !hasGroup(group) then Served(HttpError(StatusNotFound, "no such group: " + group))
      else match get(group, key)
        case Err(e) => Served(HttpError(StatusInternalServerError, e))
        case Ok(view) =>
          match marshal(view)
          case Err(e) => Served(HttpError(StatusInternalServerError, e))
          case Ok(body) => Served(Body(OctetStream, body))
  }

  /**
   * HTTPGetter.Get(in, out): every failure (transport, status, body read,
   * decoding) is an error; only full success returns no error, with `out`
   * holding the decoded value. Failures before decoding leave `out` alone;
   * what a failed proto.Unmarshal leaves in it is not modelled.
   */
  method Fetch(getter: HTTPGetter, transport: Transport, escape: Escape, unmarshal: Unmarshal,
               req: PbRequest, out: PbResponse) returns (err: Option<string>)
    modifies out
    ensures var res := transport(EscapedURL(escape, getter.baseURL, req));
      && (err.None? <==>
            res.Reply? && res.statusCode == StatusOK && res.body.Ok? && unmarshal(res.body.value).Ok?)
      && (err.None? ==> out.value == unmarshal(res.body.value).value)
      && (res.TransportError? ==> err == Some(res.err) && out.value == old(out.value))
      && (res.Reply? && res.statusCode != StatusOK ==>
            err == Some("server returned=" + res.status) && out.value == old(out.value))
      && (res.Reply? && res.statusCode == StatusOK && res.body.Err? ==>
            err == Some("read response body error=" + res.body.msg) && out.value == old(out.value))
      && (res.Reply? && res.statusCode == StatusOK && res.body.Ok? && unmarshal(res.body.value).Err? ==>
            err == Some("decoding response body: " + unmarshal(res.body.value).msg))
  {
    var url := EscapedURL(escape, getter.baseURL, req);
    var res := transport(url);
    if res.TransportError? {
      return Some(res.err);
    }
    if res.statusCode != StatusOK {
      return Some("server returned=" + res.status);
    }
    if res.body.Err? {
      return Some("read response body error=" + res.body.msg);
    }
    var decoded := unmarshal(res.body.value);
    if decoded.Err? {
      return Some("decoding response body: " + decoded.msg);
    }
    out.value := decoded.value;
    err := None;
  }

  /**
   * End to end: a server receives the percent-decoded path, which is the
   * URL's own text for a group and key that QueryEscape leaves as they are.
   * For such a request, with no "/" in the group, a known group's successful
   * answer is served with a body that, when the framing round-trips,
   * decodes to exactly that view.
   */
  lemma ProtoRoundTrip(basePath: string, escape: Escape, req: PbRequest, hasGroup: string -> bool,
                       get: (string, string) -> Result<ByteView>, marshal: Marshal, unmarshal: Unmarshal)
    requires escape(req.group) == req.group && escape(req.key) == req.key && '/' !in req.group
    requires hasGroup(req.group) && get(req.group, req.key).Ok?
    requires marshal(get(req.group, req.key).value).Ok?
    requires forall v :: marshal(v).Ok? ==> unmarshal(marshal(v).value) == Ok(v)
    ensures EscapedURL(escape, basePath, req) == basePath + req.group + "/" + req.key
    ensures var s := ServeProto(basePath, basePath + req.group + "/" + req.key, hasGroup, get, marshal);
      && s.Served? && s.response.Body?
      && unmarshal(s.response.bytes) == get(req.group, req.key)
  {
    PathRoundTrip("", basePath, req.group, req.key);
  }
}
