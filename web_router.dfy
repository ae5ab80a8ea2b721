/**
 * gee-web/day1/base3/gee/gee.go: a router that maps a request method and
 * an exact path to one handler. Handlers are opaque values; what a handler
 * does with the response writer is not part of this model.
 */
module WebRouter {
  import opened Strs

  /** The router's key for a method and a path pattern. */
  function RouteKey(verb: string, pattern: string): string
  {
    verb + "-" + pattern
  }

  /** What ServeHTTP does with a request: call one handler, or write the 404 body. */
  datatype Dispatch<H> = Invoke(handler: H) | NotFound(body: string)

  /** The 404 body written for a request URL that has no route. */
  function NotFoundBody(url: string): string
  {
    "404 NOT FOUND: " + url + "\n"
  }

  /** Engine.ServeHTTP as a function of the route table and the request. */
  function Route<H>(router: map<string, H>, verb: string, path: string, url: string): (d: Dispatch<H>)
    ensures d.Invoke? <==> RouteKey(verb, path) in router
    ensures d.Invoke? ==> d.handler == router[RouteKey(verb, path)]
    ensures d.NotFound? ==> d.body == NotFoundBody(url)
  {
    var key := RouteKey(verb, path);
    if key in router then Invoke(router[key]) else NotFound(NotFoundBody(url))
  }

  /** Two route keys are equal exactly when their methods and patterns are, for methods without a '-'. */
  lemma RouteKeyInjective(m1: string, p1: string, m2: string, p2: string)
    requires '-' !in m1 && '-' !in m2
    ensures RouteKey(m1, p1) == RouteKey(m2, p2) <==> m1 == m2 && p1 == p2
  {
    assert RouteKey(m1, p1) == m1 + ['-'] + p1;
    assert RouteKey(m2, p2) == m2 + ['-'] + p2;
    SplitFirstJoin(m1, '-', p1);
    SplitFirstJoin(m2, '-', p2);
  }

  /**
   * Adding a route changes the dispatch of that method and path only: the
   * new handler answers it, and every other request routes as before.
   */
  lemma AddRouteDispatch<H>(router: map<string, H>, verb: string, pattern: string, h: H,
                            verb': string, path: string, url: string)
    requires '-' !in verb && '-' !in verb'
    ensures verb' == verb && path == pattern ==>
      Route(router[RouteKey(verb, pattern) := h], verb', path, url) == Invoke(h)
    ensures verb' != verb || path != pattern ==>
      Route(router[RouteKey(verb, pattern) := h], verb', path, url) == Route(router, verb', path, url)
  {
    RouteKeyInjective(verb, pattern, verb', path);
  }

  /** A path registered for GET only is not found by a POST to it. */
  lemma PostMissesGetRoute<H>(pattern: string, h: H, url: string)
    ensures Route(map[RouteKey("GET", pattern) := h], "POST", pattern, url) == NotFound(NotFoundBody(url))
  {
    RouteKeyInjective("GET", pattern, "POST", pattern);
  }

  class Engine<H> {
    var router: map<string, H>

    /** New: an empty route table. */
    constructor ()
      ensures router == map[]
    {
      router := map[];
    }

    /** addRoute: the handler replaces whatever was stored under the same key. */
    method AddRoute(verb: string, pattern: string, handler: H)
      modifies this
      ensures router == old(router)[RouteKey(verb, pattern) := handler]
    {
      var key := RouteKey(verb, pattern);
      router := router[key := handler];
    }

    /** GET */
    method Get(pattern: string, handler: H)
      modifies this
      ensures router == old(router)[RouteKey("GET", pattern) := handler]
    {
      AddRoute("GET", pattern, handler);
    }

    /** POST */
    method Post(pattern: string, handler: H)
      modifies this
      ensures router == old(router)[RouteKey("POST", pattern) := handler]
    {
      AddRoute("POST", pattern, handler);
    }

    /**
     * ServeHTTP: the key is the request's method and URL path; a routed key
     * calls its handler only, anything else gets the 404 body for the URL.
     */
    function ServeHTTP(verb: string, path: string, url: string): (d: Dispatch<H>)
      reads this
      ensures d.Invoke? <==> RouteKey(verb, path) in router
      ensures d.Invoke? ==> d.handler == router[RouteKey(verb, path)]
      ensures d.NotFound? ==> d.body == "404 NOT FOUND: " + url + "\n"
    {
      Route(router, verb, path, url)
    }
  }
}
