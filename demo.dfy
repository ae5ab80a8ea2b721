/**
 * gee-cache/day5/main.go: the "score" namespace over a three-entry database,
 * the node addresses, and the wiring of a cache server. Flag parsing and the
 * listeners are not part of this model.
 */
module Demo {
  import opened Types
  import opened Capabilities
  import opened HttpDay5
  import GroupDay5
  import Maps

  /** The slow database. */
  const Db: map<string, string> := map["Tom" := "630", "Jack" := "589", "Sam" := "567"]

  /** `2<<10` */
  const ScoreCacheBytes := 2048

  /** The cache servers, by port. */
  const AddrMap: map<int, string> := map[
    8001 := "http://localhost:8001",
    8002 := "http://localhost:8002",
    8003 := "http://localhost:8003"]

  /** `[]byte(s)` for a string of ASCII characters, whose UTF-8 encoding is one byte per character. */
  function AsciiBytes(s: string): (b: seq<byte>)
    requires forall i | 0 <= i < |s| :: s[i] as int < 128
    ensures |b| == |s| && forall i | 0 <= i < |s| :: b[i] as int == s[i] as int
  {
    if s == [] then [] else [s[0] as int as byte] + AsciiBytes(s[1..])
  }

  /** getterFunc: the stored score's bytes, or "<key> not exist". */
  function ScoreLoader(key: string): (r: Result<seq<byte>>)
    ensures key == "Tom" ==> r == Ok([54, 51, 48])
    ensures key == "Jack" ==> r == Ok([53, 56, 57])
    ensures key == "Sam" ==> r == Ok([53, 54, 55])
    ensures key != "Tom" && key != "Jack" && key != "Sam" ==> r == Err(key + " not exist")
  {
    if key in Db then
      assert forall k | k in Db :: |Db[k]| == 3 && forall i | 0 <= i < 3 :: '0' <= Db[k][i] <= '9';
      var b := AsciiBytes(Db[key]);
      assert b == [b[0], b[1], b[2]];
      Ok(b)
    else Err(key + " not exist")
  }

  /** createGroup */
  method CreateGroup(reg: GroupDay5.Registry) returns (g: GroupDay5.Group)
    requires reg.Valid()
    modifies reg
    ensures reg.Valid() && fresh(g) && fresh(g.mainCache)
    ensures reg.groups == old(reg.groups)["score" := g]
    ensures g.name == "score" && g.mainCache.cacheBytes == ScoreCacheBytes && g.getter == ScoreLoader
    ensures g.peers.None? && g.mainCache.Contents() == map[]
  {
    var created := reg.NewGroup("score", ScoreCacheBytes, Some(ScoreLoader));
    g := created.value;
  }

  /** main's loop over addrMap: every address once, in the map's (unspecified) order. */
  method CollectAddrs(addrMap: map<int, string>) returns (addrs: seq<string>)
    ensures |addrs| == |addrMap|
    ensures forall a :: a in addrs <==> a in addrMap.Values
  {
    addrs := [];
    var rest := addrMap.Keys;
    while rest != {}
      invariant rest <= addrMap.Keys
      invariant |addrs| + |rest| == |addrMap.Keys|
      invariant forall a :: a in addrs ==> a in addrMap.Values
      invariant forall k | k in addrMap && k !in rest :: addrMap[k] in addrs
      decreases |rest|
    {
      var k := Maps.PickKey(rest);
      addrs := addrs + [addrMap[k]];
      rest := rest - {k};
    }
    forall a | a in addrMap.Values
      ensures a in addrs
    {
      var k := Maps.ValueHasKey(addrMap, a);
      assert k !in rest;
    }
  }

  /** main's addrs: the three cache servers, each listed once. */
  method NodeAddrs() returns (addrs: seq<string>)
    ensures |addrs| == 3
    ensures forall a :: a in addrs <==>
      a == "http://localhost:8001" || a == "http://localhost:8002" || a == "http://localhost:8003"
  {
    assert AddrMap.Values == {"http://localhost:8001", "http://localhost:8002", "http://localhost:8003"} by {
      assert AddrMap[8001] == "http://localhost:8001";
      assert AddrMap[8002] == "http://localhost:8002";
      assert AddrMap[8003] == "http://localhost:8003";
    }
    addrs := CollectAddrs(AddrMap);
  }

  /**
   * startCacheServer without its listener: the pool of this node knows every
   * address, this node's own included, and is registered on the group once.
   */
  method StartCacheServer(addr: string, addrs: seq<string>, gee: GroupDay5.Group,
                          route: RouteFn, transport: Transport) returns (pool: HTTPPool, panicked: bool)
    modifies gee
    ensures fresh(pool) && pool.Valid() && pool.self == addr && pool.ring == Some(addrs)
    ensures pool.httpGetters.Keys == set a | a in addrs
    ensures panicked <==> old(gee.peers).Some?
    ensures gee.peers == if panicked then old(gee.peers) else Some(pool.AsPicker(transport))
  {
    pool := new HTTPPool(addr, route);
    pool.Set(addrs);
    panicked := gee.RegisterPeers(pool.AsPicker(transport));
  }

  /**
   * The scenario of the demo's comments: Tom's score is loaded and then
   * served from the cache, an unknown key reports the loader's error, and
   * the empty key is refused before the loader is asked.
   */
  method ScoreScenario() returns (tom: Result<ByteView>, tomAgain: Result<ByteView>,
                                  unknown: Result<ByteView>, empty: Result<ByteView>, cached: map<string, ByteView>)
    ensures tom == Ok([54, 51, 48]) && tomAgain == tom
    ensures unknown == Err("kkk not exist")
    ensures empty == Err("key is required")
    ensures cached == map["Tom" := [54, 51, 48]]
  {
    var reg := new GroupDay5.Registry();
    var g := CreateGroup(reg);
    assert ScoreLoader("Tom") == Ok([54, 51, 48]);
    tom := g.Get("Tom");
    assert g.mainCache.Contents() == map["Tom" := [54, 51, 48]];
    tomAgain := g.Get("Tom");
    assert ScoreLoader("kkk") == Err("kkk not exist");
    unknown := g.Get("kkk");
    empty := g.Get("");
    cached := g.mainCache.Contents();
  }
}
