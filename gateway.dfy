/** The gateway's static route table and the handler chain each request
    runs through: the metrics middleware on every route, the bearer-token
    middleware on the `/api` group, then the route's own handler. Matching
    a raw path to a registered pattern is the router's business; a request
    here arrives with the route it matched. */
module Gateway {
  import opened Http
  import opened Tokens
  import opened Metrics
  import Proxy

  /** What a registered route finally runs. */
  datatype Handler =
    | MetricsHandler              // the Prometheus exposition handler
    | LoginHandler                // the `/auth` token issuer
    | ReadProxy(backend: string)  // reverse proxy, request passed through
    | WriteProxy(backend: string) // reverse proxy after re-framing the body

  /** A registration: method, full route pattern, whether it lies in the
      group guarded by the bearer-token middleware, and its handler. */
  datatype Route = Route(verb: string, pattern: string, protected: bool, handler: Handler)

  const SETTINGS_URL := "http://settings:8081"
  const CALLBACK_ROUTER_URL := "http://callback-router:8082"

  /** The routes registered at start-up, in registration order. */
  const ROUTES: seq<Route> := [
    Route("GET", "/metrics", false, MetricsHandler),
    Route("POST", "/auth", false, LoginHandler),
    Route("GET", "/api/settings/*path", true, ReadProxy(SETTINGS_URL)),
    Route("GET", "/api/callback-router/*path", true, ReadProxy(CALLBACK_ROUTER_URL)),
    Route("POST", "/api/settings/*path", true, WriteProxy(SETTINGS_URL)),
    Route("POST", "/api/callback-router/*path", true, WriteProxy(CALLBACK_ROUTER_URL))
  ]

  /** The backend a handler proxies to, if it proxies. */
  function BackendOf(h: Handler): Option<string>
  {
    match h
    case ReadProxy(b) => Some(b)
    case WriteProxy(b) => Some(b)
    case _ => None
  }

  /** The first registration in `routes` for the method and pattern. */
  function Find(routes: seq<Route>, verb: string, pattern: string): (r: Option<Route>)
    ensures r.Some? ==> r.value in routes && r.value.verb == verb && r.value.pattern == pattern
    ensures r.Some? ==>
      exists i :: 0 <= i < |routes| && routes[i] == r.value &&
        (forall j :: 0 <= j < i ==> !(routes[j].verb == verb && routes[j].pattern == pattern))
    ensures r.None? ==> forall x :: x in routes ==> !(x.verb == verb && x.pattern == pattern)
  {
    if routes == [] then None
    else if routes[0].verb == verb && routes[0].pattern == pattern then Some(routes[0])
    else Find(routes[1..], verb, pattern)
  }

  /** The route registered for a method and pattern. */
  function Lookup(verb: string, pattern: string): Option<Route>
  {
    Find(ROUTES, verb, pattern)
  }

  /** No two registrations share a method and pattern, so a lookup finds
      a route exactly when it is registered, and finds that one. */
  lemma LookupExact(route: Route)
    ensures Lookup(route.verb, route.pattern) == Some(route) <==> route in ROUTES
  {
    if route in ROUTES {
      var r := Lookup(route.verb, route.pattern);
      assert r.Some?;
    }
  }

  /** Paths under `/api/settings/` go to the settings service for GET and POST alike. */
  lemma SettingsBackend()
    ensures Lookup("GET", "/api/settings/*path") == Some(Route("GET", "/api/settings/*path", true, ReadProxy("http://settings:8081")))
    ensures Lookup("POST", "/api/settings/*path") == Some(Route("POST", "/api/settings/*path", true, WriteProxy("http://settings:8081")))
  {
    LookupExact(ROUTES[2]);
    LookupExact(ROUTES[4]);
  }

  /** Paths under `/api/callback-router/` go to the callback router for GET and POST alike. */
  lemma CallbackRouterBackend()
    ensures Lookup("GET", "/api/callback-router/*path") == Some(Route("GET", "/api/callback-router/*path", true, ReadProxy("http://callback-router:8082")))
    ensures Lookup("POST", "/api/callback-router/*path") == Some(Route("POST", "/api/callback-router/*path", true, WriteProxy("http://callback-router:8082")))
  {
    LookupExact(ROUTES[3]);
    LookupExact(ROUTES[5]);
  }

  /** Every route under `/api/` is guarded by the bearer-token middleware
      and proxies to a backend; no other route is guarded. */
  lemma GuardedGroup()
    ensures forall r :: r in ROUTES ==> (r.protected <==> "/api/" <= r.pattern)
    ensures forall r :: r in ROUTES && r.protected ==> BackendOf(r.handler).Some?
  {
    forall r | r in ROUTES
      ensures r.protected <==> "/api/" <= r.pattern
    {
      var i :| 0 <= i < |ROUTES| && ROUTES[i] == r;
      if i == 0 {
        assert r.pattern[1] != "/api/"[1];
      } else if i == 1 {
        assert r.pattern[2] != "/api/"[2];
      } else {
        assert r.pattern[..5] == "/api/";
      }
    }
  }

  /** GET routes pass the request through; POST routes re-frame it first. */
  lemma ProxyVerbs()
    ensures forall r :: r in ROUTES && r.handler.ReadProxy? ==> r.verb == "GET"
    ensures forall r :: r in ROUTES && r.handler.WriteProxy? ==> r.verb == "POST"
  {
  }

  /** Two routes with the same pattern proxy to the same backend. */
  lemma SharedBackends()
    ensures forall r1, r2 :: r1 in ROUTES && r2 in ROUTES && r1.pattern == r2.pattern ==>
      BackendOf(r1.handler) == BackendOf(r2.handler)
  {
  }

  /** What a request's handler chain ends with. */
  datatype Served =
    | Handled(outcome: Proxy.Outcome)   // a reply of its own, or the request handed to the proxy
    | Exposed(counts: Counts)

  /** `c.ShouldBindJSON`: the JSON decoder reading the login body stream
      itself. It stops at the end of the first complete JSON value, so a
      read error after that value does not fail the binding; it gives None
      when the stream fails earlier or does not hold a JSON object of
      strings. */
  type JsonDecoder = Proxy.Body -> Option<Fields>

  /** The verdict of the middleware between the metrics middleware and the
      handler: the bearer-token check on guarded routes, none elsewhere. */
  function Admission(route: Route, req: Proxy.Request, now: int, verify: Verifier): Verdict
    reads req
  {
    if route.protected then Authenticate(HeaderGet(req.header, AUTHORIZATION), now, verify) else Next
  }

  /** One request through its route's handler chain. The counter for the
      matched pattern and method goes up by one whatever happens next; a
      rejected token ends the chain with the 401 reply before the handler
      runs; otherwise the handler's own outcome is returned. */
  method Serve(counter: RequestCounter, route: Route, req: Proxy.Request, now: int,
               verify: Verifier, sign: Signer, decode: JsonDecoder) returns (res: Served)
    requires route in ROUTES && route.verb == req.verb
    modifies counter, req
    ensures counter.counts == Increment(old(counter.counts), (route.pattern, route.verb))
    ensures old(Admission(route, req, now, verify)).Abort? ==>
      res == Handled(Proxy.Replied(old(Admission(route, req, now, verify)).reply)) && unchanged(req)
    ensures old(Admission(route, req, now, verify)).Next? ==>
      (match route.handler
      case MetricsHandler => res == Exposed(counter.counts) && unchanged(req)
      case LoginHandler => res == Handled(Proxy.Replied(Login(decode(old(req.body)), now, sign))) && unchanged(req)
      case ReadProxy(b) => res == Handled(Proxy.Forwarded(b, old(req.View()))) && unchanged(req)
      case WriteProxy(b) =>
        match Proxy.Reframe(old(req.View()))
        case Failure(e) => res == Handled(Proxy.Replied(e)) && unchanged(req)
        case Success(w) => res == Handled(Proxy.Forwarded(b, w)) && req.View() == w)
  {
    counter.Observe(route.pattern, req.verb);
    var verdict := Admission(route, req, now, verify);
    if verdict.Abort? {
      res := Handled(Proxy.Replied(verdict.reply));
      return;
    }
    match route.handler {
      case MetricsHandler =>
        res := Exposed(counter.counts);
      case LoginHandler =>
        res := Handled(Proxy.Replied(Login(decode(req.body), now, sign)));
      case ReadProxy(b) =>
        var o := Proxy.ReverseProxy(req, b);
        res := Handled(o);
      case WriteProxy(b) =>
        var o := Proxy.ProxyWithBody(req, b);
        res := Handled(o);
    }
  }
}
