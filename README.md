# Gee: cache namespaces, peer protocol, RPC lookup, router and log levels

This project models the core of the Gee tutorial repository in Dafny.

- **gee-cache, three snapshots.** A `Group` is a named cache namespace. `Get` refuses the empty key and answers hits from its store. On a miss it asks the owning remote peer (day5 and later) and falls back to the user's loader, storing what the loader returns. Day6 routes the load through a request coalescer (singleflight).
- **gee-cache store.** The `cache` wrapper builds its LRU on the first write.
- **gee-cache HTTP pool.** The pool keeps a ring of peers and one client per peer. It serves `<basePath><group>/<key>` and fetches from peers, with raw bytes in day5 and day6 and protobuf framing in day7.
- **gee-cache demo.** day5's `main.go` provides a three-entry score database and the wiring of a cache server.
- **geerpc.** The server keeps a registry of services that rejects duplicates. It looks up "Service.Method" by splitting at the last dot, and checks the option handshake at the start of a connection.
- **gee-web.** A router maps `method + "-" + path` to one handler.
- **gee-orm.** The log level switch turns the error and info loggers off.

Shared pieces:

- Go values become Dafny values: a view is `seq<byte>`, a result with an error is `Result`, and a panic is a result variant.
- Objects whose fields change become classes: `Group`, `Registry` (the package-level `groups` map), `Cache`, `HTTPPool`, `Server`, `Engine`, `Loggers`.
- Each method that changes state is tied to a pure function of the old state. `GetOutcome`, `LoadOutcome` and `LocalOutcome` give the result and the new store contents, and the lemmas are stated about those functions.
- Injected functions stand in for the user's loader (`Getter`), the peer picker, a peer client, the consistent-hash ring (`RouteFn`: it names one of the nodes it was given, or ""), `http.Get` (`Transport`), `url.QueryEscape`, and `proto.Marshal`/`proto.Unmarshal`.

## Model

| member | source | states |
|---|---|---|
| Strs.IndexOf | gee-cache/day5/geecache/http.go:69 | the first position of the separator, or -1 exactly when it does not occur |
| Strs.SplitFirst | gee-cache/day5/geecache/http.go:69 | SplitN(s, "/", 2): one part exactly when there is no separator; otherwise the parts rejoin to `s` and the first has no separator |
| Strs.SplitFirstJoin | gee-cache/day5/geecache/http.go:69-76 | splitting `a + "/" + b` gives `[a, b]` whenever `a` has no "/" |
| Strs.LastIndexOf | geerpc/server/server.go:80 | the last position of the character, or -1 exactly when it does not occur |
| Strs.LastIndexOfJoin | geerpc/server/server.go:80-85 | the last "." of `a + "." + b` is at `|a|` whenever `b` has no "." |
| Strs.HasPrefix | gee-cache/day5/geecache/http.go:65 | `s` starts with `p` exactly when `p` is no longer than `s` and `s` is `p` followed by the rest of `s` |
| Store.Cache.constructor | gee-cache/day5/geecache/geecache.go:53 | a new cache has its capacity and no LRU yet |
| Store.Lru.Add | gee-cache/day5/geecache/cache.go:22 | the key then holds the value, every other entry is kept, no other key appears, and capacity and eviction hook are unchanged |
| Store.Cache.Add | gee-cache/day5/geecache/cache.go:16-23 | the first add builds the LRU with `cacheBytes` and no eviction hook; later adds keep the LRU's capacity and hook; the entries gain `key := value` |
| Store.Cache.Get | gee-cache/day5/geecache/cache.go:25-35 | before any add: (zero view, false); `ok` exactly when the key is held, with its value; the zero view on a miss |
| Lookup.LocalOutcome | gee-cache/day5/geecache/geecache.go:99-111 | the loader's answer is returned; an error leaves the store alone; a value is stored under the key |
| Lookup.LoadOutcome | gee-cache/day5/geecache/geecache.go:87-97 | a remote peer's value is returned unchanged and not stored; otherwise the loader's answer, error or value, is returned, and a loader value is stored under the key; an error leaves the store unchanged |
| GroupDay2.GetOutcome | gee-cache/day2/geecache/geecache.go:63-72 | the empty key gives "key is required" with the store unchanged; a hit returns the stored view; a miss returns the loader's answer and stores its value under the key; errors never change the store |
| GroupDay2.GetThenHit | gee-cache/day2/geecache/geecache.go:63-90 | after a successful Get, the same Get is a hit that returns the same view whatever the loader now does |
| GroupDay2.Group.constructor | gee-cache/day2/geecache/geecache.go:47-51 | a group with its name, its loader and a fresh, empty cache of the given capacity |
| GroupDay2.Group.Get | gee-cache/day2/geecache/geecache.go:63-72 | result and new store are those of GetOutcome on the old store |
| GroupDay2.Group.Load | gee-cache/day2/geecache/geecache.go:74-76 | always the local branch: LocalOutcome |
| GroupDay2.Group.GetLocally | gee-cache/day2/geecache/geecache.go:78-86 | result and new store are those of LocalOutcome |
| GroupDay2.Group.PopulateCache | gee-cache/day2/geecache/geecache.go:88-90 | the store gains `key := value` |
| GroupDay2.Registry.constructor | gee-cache/day2/geecache/geecache.go:36-39 | the registry starts empty and valid |
| GroupDay2.Registry.NewGroup | gee-cache/day2/geecache/geecache.go:41-54 | a missing loader is the "nil Getter" panic and registers nothing; otherwise a fresh group with an empty store replaces any group of that name |
| GroupDay2.Registry.GetGroup | gee-cache/day2/geecache/geecache.go:56-61 | the group under the name, or null exactly when there is none |
| GroupDay5.GetOutcome | gee-cache/day5/geecache/geecache.go:66-76 | the empty key is refused and a hit answered before the peer or the loader is consulted; a miss is LoadOutcome: a remote peer's answer when it succeeds, otherwise the loader's answer, whose value is stored under the key; only a loader value changes the store |
| GroupDay5.HitIgnoresPeersAndLoader | gee-cache/day5/geecache/geecache.go:66-75 | for the empty key or a hit, replacing the picker and the loader changes nothing |
| GroupDay5.FallbackThenLocalHit | gee-cache/day5/geecache/geecache.go:87-107 | when the owning peer fails, the loader's value is returned and stored, and the next Get is a hit that no longer depends on any peer |
| GroupDay5.Group.constructor | gee-cache/day5/geecache/geecache.go:50-54 | a group without peers, with a fresh, empty cache |
| GroupDay5.Group.Get | gee-cache/day5/geecache/geecache.go:66-76 | result and new store are those of GetOutcome |
| GroupDay5.Group.RegisterPeers | gee-cache/day5/geecache/geecache.go:79-84 | the first call sets the picker; a second is the panic and keeps the first picker |
| GroupDay5.Group.Load | gee-cache/day5/geecache/geecache.go:87-97 | result and new store are those of LoadOutcome |
| GroupDay5.Group.GetLocally | gee-cache/day5/geecache/geecache.go:99-107 | result and new store are those of LocalOutcome |
| GroupDay5.Group.PopulateCache | gee-cache/day5/geecache/geecache.go:109-111 | the store gains `key := value` |
| GroupDay5.Group.GetFromPeer | gee-cache/day5/geecache/geecache.go:113-119 | the peer's bytes or its error, which is exactly the peer branch of the load for any picker that picks this peer |
| GroupDay5.Registry.constructor | gee-cache/day5/geecache/geecache.go:29-32 | the registry starts empty and valid |
| GroupDay5.Registry.NewGroup | gee-cache/day5/geecache/geecache.go:44-57 | the "nil Getter" panic registers nothing; otherwise a fresh group without peers replaces any group of that name |
| GroupDay5.Registry.GetGroup | gee-cache/day5/geecache/geecache.go:59-64 | the group under the name, or null exactly when there is none |
| GroupDay6.LoadAsWritten | gee-cache/day6/geecache/geecache.go:95-113 | `load` as written: a remote peer's value is returned; in every other case the local branch runs and may store a value, but the caller gets the empty view and no error |
| GroupDay6.GetOutcomeAsWritten | gee-cache/day6/geecache/geecache.go:74-85 | Get over the as-written load: an error is returned exactly for the empty key |
| GroupDay6.AsWrittenDiffersOnlyInResult | gee-cache/day6/geecache/geecache.go:95-113 | the as-written and the corrected load always leave the same store, and return the same result exactly when a remote peer answered or the loader's value is empty |
| GroupDay6.LoaderErrorSwallowed | gee-cache/day6/geecache/geecache.go:109-111 | a loader error reaches the caller of Get as the empty view with no error, where the corrected load returns the error |
| GroupDay6.LocalValueDropped | gee-cache/day6/geecache/geecache.go:107-112 | a locally loaded value is stored but Get returns the empty view; the next Get is a hit that returns the value |
| GroupDay6.Coalescer.constructor | gee-cache/day6/geecache/geecache.go:58 | a new coalescer has nothing in flight |
| GroupDay6.Group.constructor | gee-cache/day6/geecache/geecache.go:54-59 | a valid group with a fresh cache and a fresh coalescer of its own |
| GroupDay6.Group.Get | gee-cache/day6/geecache/geecache.go:74-85 | with the corrected load, result and new store are those of GroupDay5.GetOutcome; nothing is left in flight |
| GroupDay6.Group.RegisterPeers | gee-cache/day6/geecache/geecache.go:88-93 | the first call sets the picker; a second is the panic and keeps the first picker |
| GroupDay6.Group.Load | gee-cache/day6/geecache/geecache.go:95-113 | the code as written, through Do's closure and the named results: result and new store are those of LoadAsWritten |
| GroupDay6.Group.LoadFixed | gee-cache/day6/geecache/geecache.go:95-113 | the corrected load: result and new store are those of LoadOutcome; nothing is left in flight |
| GroupDay6.Group.GetLocally | gee-cache/day6/geecache/geecache.go:115-126 | result and new store are those of LocalOutcome |
| GroupDay6.Group.PopulateCache | gee-cache/day6/geecache/geecache.go:128-130 | the store gains `key := value` |
| GroupDay6.Group.GetFromPeer | gee-cache/day6/geecache/geecache.go:132-138 | the peer's bytes or its error, which is exactly the peer branch of the load for any picker that picks this peer |
| GroupDay6.Registry.constructor | gee-cache/day6/geecache/geecache.go:33-36 | the registry starts empty and valid |
| GroupDay6.Registry.NewGroup | gee-cache/day6/geecache/geecache.go:48-62 | the "nil Getter" panic registers nothing; otherwise a fresh group with its own fresh, idle coalescer replaces any group of that name |
| GroupDay6.Registry.GetGroup | gee-cache/day6/geecache/geecache.go:64-69 | the group under the name, or null exactly when there is none |
| HttpDay5.ParsePath | gee-cache/day5/geecache/http.go:65-76 | a foreign prefix exactly when the path lacks basePath; a bad request exactly when the rest has no "/"; otherwise group and key rejoin to the path and the group has no "/" |
| HttpDay5.ReplyFor | gee-cache/day5/geecache/http.go:83-89 | an error exactly when Get failed, as a 500 with the error text; otherwise the view's bytes as application/octet-stream |
| HttpDay5.PathRoundTrip | gee-cache/day5/geecache/http.go:97-101 | a client URL is the peer followed by `basePath + group + "/" + key`, and that path parses back to (group, key) exactly when the group has no "/" |
| HttpDay5.PlainURL | gee-cache/day5/geecache/http.go:97-101 | the URL starts with the base URL, and after it splits at the first "/" into the group and the key whenever the group has no "/" |
| HttpDay5.FetchPlain | gee-cache/day5/geecache/http.go:96-115 | success exactly for a 200 with a readable body, returning its bytes; a transport error is passed on; another status gives "server returned=<status>"; day6's client (gee-cache/day6/geecache/http.go:94-113) is the same |
| HttpDay5.HTTPPool.constructor | gee-cache/day5/geecache/http.go:27-32 | a pool for this node with the default base path and no ring |
| HttpDay5.HTTPPool.Set | gee-cache/day5/geecache/http.go:36-45 | the ring becomes the given peers, and the client table holds exactly one client per peer with baseURL `peer + basePath`; day6 (http.go:37-46) and day7 (http.go:40-49) repeat it |
| HttpDay5.HTTPPool.PeerPick | gee-cache/day5/geecache/http.go:49-57 | a client exactly when the ring names a node that is neither "" nor this node, and it is that node's client; day6 (http.go:50-59) and day7 (http.go:53-62) repeat it |
| HttpDay5.HTTPPool.AsPicker | gee-cache/day5/geecache/http.go:49-57 | the pool as a group's picker picks exactly when PeerPick does, and its client fetches as FetchPlain over PeerPick's client |
| HttpDay5.ServeHTTP | gee-cache/day5/geecache/http.go:64-90 | panic on a foreign path; 400 "bad request"; 404 "no such group: <name>"; otherwise the group's GetOutcome, as a 500 with the error text or the raw bytes as application/octet-stream; no other group's store changes |
| HttpDay6.ServeHTTP | gee-cache/day6/geecache/http.go:62-88 | the same outcomes against the day6 registry, which stays valid, with the group's Get over the corrected load (GroupDay5.GetOutcome) |
| HttpDay6.LocalLoadReply | gee-cache/day6/geecache/http.go:81-87 | for a load that runs locally, the as-written Get makes the server reply with an empty 200 body even for a loader error; the corrected load gives a 500 with the loader's error or the loaded bytes |
| HttpDay6.TrailingSlashIs500 | gee-cache/day6/geecache/http.go:67-84 | a path ending in "<group>/" names the empty key, and a known group answers 500 "key is required" without touching its store, with either load |
| HttpDay7.EscapedURL | gee-cache/day7/geecache/http.go:102-107 | the URL starts with the base URL, and after it splits at the first "/" into the escaped group and the escaped key whenever the escaped group has no "/" |
| HttpDay7.SpaceKeyArrivesAsPlus | gee-cache/day7/geecache/http.go:102-107 | for an escape that writes "a b" as "a+b", as url.QueryEscape does, the server parses the client's key "a b" as the different key "a+b" |
| HttpDay7.EscapedPathParses | gee-cache/day7/geecache/http.go:102-107 | after the peer's address, the client URL is a path that the server parses into the escaped group and key, whenever the escaped group has no "/" |
| HttpDay7.ServeProto | gee-cache/day7/geecache/http.go:65-95 | day5's panic with its message, 400, 404 and 500 cases; a marshal failure is a 500 with the marshal error; a body exactly when the group answered and its answer was marshalled, and then it is the marshalled bytes |
| HttpDay7.Fetch | gee-cache/day7/geecache/http.go:101-124 | no error exactly when the reply is a 200 with a readable body that decodes, and then `out` holds the decoded value; transport, status and read failures give their errors and leave `out` alone; a decode failure gives "decoding response body: <err>" |
| HttpDay7.ProtoRoundTrip | gee-cache/day7/geecache/http.go:88-107 | for a group and key that escaping leaves unchanged, a successful answer a server marshals decodes back to the same view |
| Demo.AsciiBytes | gee-cache/day5/main.go:59 | `[]byte(s)` of an ASCII string: one byte per character with its code |
| Demo.ScoreLoader | gee-cache/day5/main.go:56-62 | Tom, Jack and Sam give the bytes of "630", "589" and "567"; any other key gives "<key> not exist" |
| Demo.CreateGroup | gee-cache/day5/main.go:64-68 | registers a fresh group "score" with 2048 bytes and ScoreLoader as loader, and no peers |
| Demo.CollectAddrs | gee-cache/day5/main.go:42-45 | one address per map entry, and exactly the map's addresses |
| Demo.NodeAddrs | gee-cache/day5/main.go:37-45 | main's address list holds the three cache servers 8001, 8002 and 8003, each once |
| Demo.StartCacheServer | gee-cache/day5/main.go:88-91 | the pool of this node has every address in its ring and one client each, and is registered on the group unless peers were already set |
| Demo.ScoreScenario | gee-cache/day5/main.go:56-68 | Tom loads as "630" and is then cached; "kkk" reports "kkk not exist"; the empty key is refused; only Tom is stored |
| RpcServer.SplitServiceMethod | geerpc/server/server.go:80-85 | none exactly when there is no "."; otherwise the service and method rejoin with "." and the method has no "." |
| RpcServer.SplitJoin | geerpc/server/server.go:80-85 | splitting `service + "." + method` gives both back when the method has no "." |
| RpcServer.SplitAtLastDot | geerpc/server/server.go:80-85 | "A.B.C" is method "C" of service "A.B" |
| RpcServer.CheckOption | geerpc/server/server.go:112-131 | a decode failure is checked as the zero option and fails the magic test; a wrong magic number stops first; the connection is served exactly for the magic number with a codec that has a factory, which is gob only |
| RpcServer.DefaultOptionServes | geerpc/server/server.go:35-38 | the default option is served with gob; the magic number with the JSON codec type is refused for lack of a factory |
| RpcServer.Server.constructor | geerpc/server/server.go:58-60 | a server with no services |
| RpcServer.Server.Register | geerpc/server/server.go:66-72 | a new name is stored; a taken name gives "rpc: service already defined: <name>" and keeps the first service |
| RpcServer.Server.FindService | geerpc/server/server.go:78-97 | no "." gives the ill-formed error; an unknown service and an unknown method give their "not found" errors; success exactly when both exist, with the registered service and method |
| RpcServer.FindServiceJoin | geerpc/server/server.go:78-97 | the same outcomes stated for `service + "." + method` directly |
| RpcServer.RegisteredIsFound | geerpc/server/server.go:66-97 | a registered service is found under each of its methods |
| WebRouter.Route | gee-web/day1/base3/gee/gee.go:35-41 | a handler exactly when `method + "-" + path` is routed, and it is that handler; otherwise the body "404 NOT FOUND: <url>\n" |
| WebRouter.RouteKeyInjective | gee-web/day1/base3/gee/gee.go:18-21 | for methods without "-", two keys are equal exactly when method and pattern are |
| WebRouter.AddRouteDispatch | gee-web/day1/base3/gee/gee.go:18-41 | for methods without "-", after an added route, its method and path reach the new handler and every other request routes as before |
| WebRouter.PostMissesGetRoute | gee-web/day1/base3/gee/gee.go:23-41 | a path routed for GET only gives the 404 body to a POST |
| WebRouter.Engine.constructor | gee-web/day1/base3/gee/gee.go:14-16 | the route table starts empty |
| WebRouter.Engine.AddRoute | gee-web/day1/base3/gee/gee.go:18-21 | the table gains `method + "-" + pattern := handler`, replacing an earlier one |
| WebRouter.Engine.Get | gee-web/day1/base3/gee/gee.go:23-25 | addRoute with "GET" |
| WebRouter.Engine.Post | gee-web/day1/base3/gee/gee.go:27-29 | addRoute with "POST" |
| WebRouter.Engine.ServeHTTP | gee-web/day1/base3/gee/gee.go:35-41 | a request calls a handler exactly when its method and path are routed, and then that handler; otherwise the body "404 NOT FOUND: <url>\n" |
| OrmLog.Logger.constructor | gee-orm/log/log.go:16-17 | a logger starts on stdout |
| OrmLog.Outputs | gee-orm/log/log.go:29-46 | info and below: both on stdout; error: info discarded; disabled and above: both discarded |
| OrmLog.OutputsMonotone | gee-orm/log/log.go:29-46 | silencing the error logger silences the info logger, and a higher level never re-enables either |
| OrmLog.Loggers.constructor | gee-orm/log/log.go:15-20 | the two distinct loggers, both on stdout, and the list of them |
| OrmLog.Loggers.SerLevel | gee-orm/log/log.go:35-47 | the outputs afterwards are Outputs(level), whatever they were before |

## Left out

- The LRU (lru.go) is not part of this model: it is an unbounded key-to-bytes store, so eviction, recency and capacity accounting are not modelled.
- GroupDay2.GetThenHit, GroupDay5.FallbackThenLocalHit, GroupDay6.LocalValueDropped and the second lookup of Tom in Demo.ScoreScenario hold only because the model's LRU never evicts; with a real LRU, an entry larger than the capacity, or one pushed out by later adds, would be a miss again.
- The consistent-hash ring (consistenthash.go) is not part of this model: its replicas and hashing are hidden behind `RouteFn`.
- Locks (the group registry's RWMutex, the cache's and the pool's mutexes, log.go's mutex) are left out, because the model is sequential.
- singleflight's waiting and sharing of concurrent calls is left out. Sequentially, `Do` runs its function once with the in-flight set empty before and after.
- Logging (log, logrus), day6's one-second sleep in getLocally, and the listeners, `http.ListenAndServe` and flag parsing in main.go are I/O and are left out.
- `startAPIServer` in main.go is left out; it is not part of the namespace logic.
- The day2 and day6 `cache.go` files are not part of this model; day5's `Cache` is used for every snapshot.
- The day7 `geecache.go` is not part of this model. HttpDay7.ServeProto takes the group lookup and its `Get` as functions.
- net/http, url.QueryEscape, proto.Marshal and proto.Unmarshal are injected functions.
- The server's percent-decoding of the request path is left out; HttpDay7.ProtoRoundTrip is stated only for a group and key that escaping leaves unchanged.
- url.QueryEscape turns a space into "+", and the server's path keeps the "+", so a key "a b" is served as key "a+b" (gee-cache/day7/geecache/http.go:69,105-106). HttpDay7.SpaceKeyArrivesAsPlus shows this for any escape that writes "a b" as "a+b". The intended escaping is not modelled, as an escape for path segments and the server's percent-decoding together, so this is not listed under Findings.
- HttpDay7.Fetch: does not state what a failed proto.Unmarshal leaves in `out`, because that depends on the protobuf library.
- HttpDay6.ServeHTTP: is stated over the corrected load that GroupDay6.Group.Get uses. The server as written, over GroupDay6.GetOutcomeAsWritten, answers a loader error and a first local load with an empty 200 body; HttpDay6.LocalLoadReply states that reply.
- HttpDay5.HTTPPool.PeerPick: requires that Set has run, because PeerPick before Set dereferences the nil ring and crashes, which is not modelled as a result.
- HttpDay5.HTTPPool.AsPicker: takes a snapshot of the ring and clients, so a later Set on the same pool is not seen by a picker already handed to a group.
- Demo.AsciiBytes: covers ASCII strings only, which all of the database's values are; UTF-8 encoding of other characters is not modelled.
- Go's map iteration order is unspecified. Demo.CollectAddrs picks keys in an arbitrary order and states only what every order gives.
- RpcServer.Server.FindService: on a method miss the Go code also returns the service it found next to the error; the model returns only the error.
- service.NewService (reflection over the receiver and its method set) is not part of this model; Register takes a ready `Service` value.
- `Accept`, `serveCodec`, `readRequest`, `handleRequest` and `sendResponse` in geerpc/server/server.go are socket I/O, goroutines and reflection, and are left out. So are the whole of geerpc/server.go and geerpc/service/method.go.
- RpcServer.CheckOption: takes the decode result as given, so an undecodable option is the zero option; the partial filling of a struct by a JSON decoder that fails halfway is not modelled.
- gee-web's `Run` (ListenAndServe) and what a handler writes are left out; a handler is an opaque value.
- The loggers' prefixes, flags and line formatting in log.go are left out; only each logger's output is modelled.

## Findings

| source | as written | input that shows it | evidently intended | confidence | as-written member | corrected member |
|---|---|---|---|---|---|---|
| gee-cache/day6/geecache/geecache.go:109-111 | the test after `Do` is inverted: when `Do` reports an error, `load` returns the empty view with a nil error | a key that is neither stored nor owned by a remote peer, whose loader answers "kkk not exist": Get returns the empty view and no error | return the loader's error, as day5 does | not executed | GroupDay6.LoaderErrorSwallowed | Lookup.LoadOutcome |
| gee-cache/day6/geecache/geecache.go:112 | the bare return hands back the named result `value`, which only the peer branch assigns | key "Tom", no picker, loader answering the bytes of "630": the bytes are stored but Get returns the empty view; the next Get returns "630" | return the value `Do` produced | not executed | GroupDay6.LocalValueDropped | GroupDay6.Group.LoadFixed |
