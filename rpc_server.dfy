/**
 * geerpc/server/server.go: the service registry of an RPC server, the
 * lookup of a "Service.Method" name, and the option handshake that opens
 * every connection. Reflection over the receiver (service.NewService) is
 * replaced by a ready-made Service value.
 */
module RpcServer {
  import opened Types
  import opened Strs

  /** Marks a geerpc connection; the first thing a client sends. */
  const MagicNumber := 0x3bef5c

  /** codec.Type */
  type CodecType = string
  const GobType: CodecType := "application/gob"
  const JsonType: CodecType := "application/json"

  /** The keys of codec.NewCodecFuncMap once codec's init has run: only gob has a factory. */
  predicate HasCodecFactory(t: CodecType)
  {
    t == GobType
  }

  /** server.Option */
  datatype Opt = Opt(magicNumber: int, codecType: CodecType)

  const DefaultOption := Opt(MagicNumber, GobType)

  /** The zero Option, which is what ServeConn holds when its JSON decode fails. */
  const ZeroOption := Opt(0, "")

  /** service.MethodType, by the names of its argument and reply types. */
  datatype MethodType = MethodType(argType: string, replyType: string)

  /** service.Service: a name and its exported methods. */
  datatype Service = Service(name: string, methods: map<string, MethodType>)

  /** What findService hands back on success. */
  datatype Found = Found(svc: Service, mType: MethodType)

  /** The split of findService: service name before the last '.', method name after it. */
  function SplitServiceMethod(serviceMethod: string): (r: Option<(string, string)>)
    ensures r.None? <==> '.' !in serviceMethod
    ensures r.Some? ==> serviceMethod == r.value.0 + "." + r.value.1 && '.' !in r.value.1
  {
    var dot := LastIndexOf(serviceMethod, '.');
    if dot == -1 then None
    else
      assert serviceMethod == serviceMethod[..dot] + "." + serviceMethod[dot + 1..];
      Some((serviceMethod[..dot], serviceMethod[dot + 1..]))
  }

  /** Joining a service and a dot-free method name and splitting again gives both back. */
  lemma SplitJoin(serviceName: string, methodName: string)
    requires '.' !in methodName
    ensures SplitServiceMethod(serviceName + "." + methodName) == Some((serviceName, methodName))
  {
    var s := serviceName + "." + methodName;
    assert s == serviceName + ['.'] + methodName;
    LastIndexOfJoin(serviceName, '.', methodName);
    assert s[..|serviceName|] == serviceName;
    assert s[|serviceName| + 1..] == methodName;
  }

  /** A dotted service name keeps its dots: "A.B.C" is method "C" of service "A.B". */
  lemma SplitAtLastDot()
    ensures SplitServiceMethod("A.B.C") == Some(("A.B", "C"))
  {
    SplitJoin("A.B", "C");
    assert "A.B" + "." + "C" == "A.B.C";
  }

  /** The outcome of ServeConn's option checks. */
  datatype Handshake =
    | InvalidMagic(magicNumber: int)
    | InvalidCodec(codecType: CodecType)
    | ServeCodec(codecType: CodecType)

  /**
   * ServeConn's checks on the decoded option; None is a decode failure,
   * after which the zero option is checked and its magic number rejected.
   */
  function CheckOption(decoded: Option<Opt>): (h: Handshake)
    ensures decoded.None? ==> h == InvalidMagic(0)
    ensures decoded.Some? && decoded.value.magicNumber != MagicNumber ==> h == InvalidMagic(decoded.value.magicNumber)
    ensures h.InvalidCodec? ==> decoded.Some? && decoded.value.magicNumber == MagicNumber
                                && h.codecType == decoded.value.codecType && !HasCodecFactory(h.codecType)
    ensures h.ServeCodec? <==> decoded.Some? && decoded.value.magicNumber == MagicNumber && HasCodecFactory(decoded.value.codecType)
    ensures h.ServeCodec? ==> h.codecType == GobType
  {
    var opt := if decoded.Some? then decoded.value else ZeroOption;
    if opt.magicNumber != MagicNumber then InvalidMagic(opt.magicNumber)
    else if !HasCodecFactory(opt.codecType) then InvalidCodec(opt.codecType)
    else ServeCodec(opt.codecType)
  }

  /** The default option opens a gob connection; a JSON body codec has no factory and is refused. */
  lemma DefaultOptionServes()
    ensures CheckOption(Some(DefaultOption)) == ServeCodec(GobType)
    ensures CheckOption(Some(Opt(MagicNumber, JsonType))) == InvalidCodec(JsonType)
  {
    assert JsonType != GobType by { assert JsonType[12] != GobType[12]; }
  }

  class Server {
    /** serviceMap, by service name */
    var serviceMap: map<string, Service>

    /** NewServer */
    constructor ()
      ensures serviceMap == map[]
    {
      serviceMap := map[];
    }

    /** Server.Register: LoadOrStore, so the first service of a name stays. */
    method Register(s: Service) returns (err: Option<string>)
      modifies this
      ensures s.name in old(serviceMap) ==>
        err == Some("rpc: service already defined: " + s.name) && serviceMap == old(serviceMap)
      ensures s.name !in old(serviceMap) ==> err.None? && serviceMap == old(serviceMap)[s.name := s]
    {
      if s.name in serviceMap {
        return Some("rpc: service already defined: " + s.name);
      }
      serviceMap := serviceMap[s.name := s];
      return None;
    }

    /** Server.findService */
    function FindService(serviceMethod: string): (r: Result<Found>)
      reads this
      ensures '.' !in serviceMethod ==> r == Err("rpc server: service/method request ill-formed: " + serviceMethod)
      ensures '.' in serviceMethod ==>
        var (serviceName, methodName) := SplitServiceMethod(serviceMethod).value;
        && (serviceName !in serviceMap ==> r == Err("rpc server: service[" + serviceName + "] is not found"))
        && (serviceName in serviceMap && methodName !in serviceMap[serviceName].methods ==>
              r == Err("rpc server: method[" + methodName + "] is not found"))
        && (r.Ok? <==> serviceName in serviceMap && methodName in serviceMap[serviceName].methods)
        && (r.Ok? ==> r.value == Found(serviceMap[serviceName], serviceMap[serviceName].methods[methodName]))
    {
      match SplitServiceMethod(serviceMethod)
      case None => Err("rpc server: service/method request ill-formed: " + serviceMethod)
      case Some((serviceName, methodName)) =>
        if serviceName !in serviceMap then
          Err("rpc server: service[" + serviceName + "] is not found")
        else
          var svc := serviceMap[serviceName];
          if methodName !in svc.methods then
            Err("rpc server: method[" + methodName + "] is not found")
          else
            Ok(Found(svc, svc.methods[methodName]))
    }
  }

  /**
   * findService on a well-formed name: the registered service and method
   * are found, and otherwise the missing service or the missing method is
   * named in the error.
   */
  lemma FindServiceJoin(server: Server, serviceName: string, methodName: string)
    requires '.' !in methodName
    ensures serviceName !in server.serviceMap ==>
      server.FindService(serviceName + "." + methodName) == Err("rpc server: service[" + serviceName + "] is not found")
    ensures serviceName in server.serviceMap && methodName !in server.serviceMap[serviceName].methods ==>
      server.FindService(serviceName + "." + methodName) == Err("rpc server: method[" + methodName + "] is not found")
    ensures server.FindService(serviceName + "." + methodName).Ok? <==>
      serviceName in server.serviceMap && methodName in server.serviceMap[serviceName].methods
    ensures serviceName in server.serviceMap && methodName in server.serviceMap[serviceName].methods ==>
      server.FindService(serviceName + "." + methodName)
        == Ok(Found(server.serviceMap[serviceName], server.serviceMap[serviceName].methods[methodName]))
  {
    SplitJoin(serviceName, methodName);
  }

  /** A service Register stored is found again under each of its methods. */
  lemma RegisteredIsFound(server: Server, s: Service, methodName: string)
    requires '.' !in methodName && methodName in s.methods
    requires s.name in server.serviceMap && server.serviceMap[s.name] == s
    ensures server.FindService(s.name + "." + methodName) == Ok(Found(s, s.methods[methodName]))
  {
    FindServiceJoin(server, s.name, methodName);
  }
}
