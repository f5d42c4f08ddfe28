# API gateway: request admission and re-framing

A Dafny model of the edge gateway in `api-gateway/main.go`. The gateway is a
single gin process. It counts every request in a Prometheus counter labelled
by route pattern and method. It issues five-minute HS256 JWTs on `POST /auth`
to the single user `admin`, and guards the `/api` group with a bearer-token
middleware. It forwards `GET` and `POST` requests under `/api/settings/` and
`/api/callback-router/` to two fixed backends. Before a `POST` is forwarded,
its body is read in full and the request is re-framed: the body is replaced
by the captured bytes, `Content-Length` is set to their count, and
`Content-Type` is forced to `application/json`.

Modules, one per component of the gateway:

- `Http` (http.dfy): bytes, header maps with `Header.Get` / `Header.Set`
  behaviour, and the JSON replies the handlers write.
- `Tokens` (tokens.dfy): `strings.TrimPrefix`, the bearer-token middleware
  (`Authenticate`) and the login handler (`Login`). These are pure functions
  returning a verdict or a reply.
- `Metrics` (metrics.dfy): the counter vector as a map from (pattern,
  method) to a count. It has a pure `Increment`, and a class
  `RequestCounter` whose `Observe` updates the map in place.
- `Proxy` (proxy.dfy): the inbound request record as a class `Request`. The
  re-framing is specified by the pure `Reframe`. `ProxyWithBody` performs it
  in place on the record.
- `Gateway` (gateway.dfy): the six route registrations, lookup by method and
  pattern, and `Serve`. `Serve` runs one request through its route's chain:
  the metrics middleware, then the token middleware on the `/api` group, then
  the handler.

Some collaborators are parameters:

- The JWT library is two function-typed parameters. `Verifier` maps (key,
  token) to the claims or the library's error text. `Signer` maps (key,
  claims) to a token or an error.
- The JSON decoder used to bind the login body is a function-typed
  parameter.
- The clock is a parameter `now`, in Unix seconds.
- The reverse proxy is the outcome `Forwarded(backend, sent)`: the request
  exactly as it is handed to `ServeHTTP`.

Three behaviours of the code worth stating plainly:

- A token is rejected as expired only when `exp < now`. A token whose `exp`
  equals `now` is admitted (`Tokens.ExpiryBoundaryAdmitted`).
- An unmatched path gets no 404 from the gateway's own code; that is left to
  the router.
- No timeout is applied to the backend call.

## Model

| member | source | states |
|---|---|---|
| `Http.HeaderSet` | api-gateway/main.go:111 | after `Header.Set` the key holds exactly the one value and reads back as it; every other header key and its values are unchanged |
| `Tokens.TrimPrefix` | api-gateway/main.go:128 | when the string starts with the prefix, prefix + result is the string; otherwise the result is the string unchanged |
| `Tokens.TrimBearerOnce` | api-gateway/main.go:128 | exactly one leading "Bearer " is removed: "Bearer " + t becomes t, and "Bearer Bearer " + t becomes "Bearer " + t |
| `Tokens.Authenticate` | api-gateway/main.go:119-150 | the next handler runs if and only if the header is non-empty, the library accepts the stripped token, and its claim is not expired; an empty header gives 401 "Authorization header required"; a refused token gives 401 "Invalid token" with the library's error as details; an expired claim gives 401 "Token expired"; every abort is a 401 |
| `Tokens.ExpiryBoundaryAdmitted` | api-gateway/main.go:142-146 | an accepted token whose exp equals now is admitted, and one second later it is aborted: the comparison is strict |
| `Tokens.Login` | api-gateway/main.go:153-190 | an unbindable body gives 400 "Invalid input"; a missing username or one other than "admin" gives 401 "Invalid credentials"; status is 200 exactly when the credentials are valid and signing the claim (admin, now + 300) succeeds, and the 200 body carries the signed token and that same expiry; status is 500 "Could not create token" exactly when signing fails. The bound body is the decoder parameter's result on the body stream (`c.ShouldBindJSON`, line 155) |
| `Tokens.IssuedExpiryMatchesToken` | api-gateway/main.go:166-189 | for a library that, at the time of issue, accepts every unexpired token it signed and gives back its claims (as jwt-go does), the token in a successful login reply verifies to the claims (admin, expires_at_unix of that same reply) |
| `Tokens.IssuedTokenAdmission` | api-gateway/main.go:119-190 | for a library that, at time `later`, accepts every unexpired token it signed with its claims and otherwise refuses or gives back the signed claims (as jwt-go does), "Bearer " + an issued token is admitted if and only if `later` is at most issue time + 300 |
| `Tokens.IssuedTokenRejectedAfterExpiry` | api-gateway/main.go:119-190 | for any verifier that either refuses a signed token or gives back its claims (jwt-go, which refuses expired claims, is one), "Bearer " + an issued token is rejected with 401 at every time after issue time + 300, and up to then it is never rejected as "Token expired" |
| `Metrics.Increment` | api-gateway/main.go:72 | the observed label pair's count goes up by exactly one, the counter is created on first use, and every other count is unchanged |
| `Metrics.ReplayCounts` | api-gateway/main.go:72 | after a sequence of observations, each label pair's count has grown by exactly the number of times it was observed; the existing counters are the old ones plus the observed pairs |
| `Metrics.ReplayOrderIrrelevant` | api-gateway/main.go:72 | any two orderings of the same observations leave identical counters, so no serialisation of concurrent requests loses a count |
| `Metrics.ReplayMonotone` | api-gateway/main.go:72 | counters never decrease |
| `Metrics.RequestCounter.constructor` | api-gateway/main.go:29-35 | a freshly created counter vector holds no counters |
| `Metrics.RequestCounter.Observe` | api-gateway/main.go:70-75 | the counter map afterwards is the old map with the (pattern, method) counter incremented by one |
| `Proxy.Buffered` | api-gateway/main.go:109 | the replacement body reads back exactly the captured bytes and never fails |
| `Proxy.Reframe` | api-gateway/main.go:97-111 | it fails with 400 "Failed to read request body" exactly when the body read fails; otherwise the new body reads back byte-identical to what was read, Content-Length is its byte count, Content-Type is exactly ["application/json"], every other header, the method and the target are unchanged. The read is `Proxy.ReadAll` (`ioutil.ReadAll`, line 97): the stream's bytes, or its error; the Content-Type read-back is `Http.HeaderGet` (`Header.Get`): the first value, or "" when there is none |
| `Proxy.ReframeIdempotent` | api-gateway/main.go:109-111 | re-framing an already re-framed request changes nothing |
| `Proxy.ReverseProxy` | api-gateway/main.go:78-85 | a GET request is handed to the backend exactly as it came in |
| `Proxy.ProxyWithBody` | api-gateway/main.go:92-115 | on a body-read failure it replies 400, leaves the request record untouched and never forwards; otherwise the record is rewritten in place to what `Reframe` gives, and exactly that record is forwarded to the backend |
| `Gateway.Find` | api-gateway/main.go:57-63 | a found route is in the table with the requested method and pattern, and no earlier registration has them; nothing is found only when no registration has them |
| `Gateway.LookupExact` | api-gateway/main.go:54-64 | a lookup by method and pattern yields a route exactly when that route is registered, and yields that same route |
| `Gateway.SettingsBackend` | api-gateway/main.go:58-62 | GET and POST on /api/settings/*path are guarded and resolve to http://settings:8081, GET passing through and POST re-framed |
| `Gateway.CallbackRouterBackend` | api-gateway/main.go:59-63 | GET and POST on /api/callback-router/*path are guarded and resolve to http://callback-router:8082, GET passing through and POST re-framed |
| `Gateway.GuardedGroup` | api-gateway/main.go:54-64 | a route is guarded by the token middleware exactly when its pattern lies under /api/, and every guarded route proxies to a backend |
| `Gateway.ProxyVerbs` | api-gateway/main.go:57-63 | pass-through proxies are registered only for GET, re-framing proxies only for POST |
| `Gateway.SharedBackends` | api-gateway/main.go:58-63 | two registrations with the same pattern proxy to the same backend |
| `Gateway.Serve` | api-gateway/main.go:47-75 | every request adds one to the counter for its matched pattern and method; on a guarded route with a rejected token the 401 reply is returned, the handler never runs and the request is untouched; otherwise the result is the handler's own: the counter exposition, the login reply, the unchanged request forwarded, or the re-framed request forwarded (or its 400). The token check runs only on guarded routes, on the `Authorization` header as `Header.Get` reads it (`Gateway.Admission`, lines 54-55 and 121) |

## Left out

- JWT encoding, HS256 signing and parsing are the `Signer` and `Verifier` parameters. This includes the library's own `exp` check inside `jwt.ParseWithClaims`: a `Verifier` stands for the library as it behaves at one moment. An oracle faithful to the library therefore refuses most expired tokens with "Invalid token" before the manual check runs. Two agreements between `Signer` and `Verifier` are used, and jwt-go meets both. `SignerVerifierAgreeAt(sign, verify, now)` says the verifier gives back every signed claim that is not expired at `now`. `SignerVerifierSound` says the verifier either refuses a signed token or gives back the claims that were signed.
- The library never reports a parse as successful but invalid, so the case `err == nil && !token.Valid` has no counterpart in the model.
- The reverse proxy is not modelled: host rewriting, the network call and relaying the backend's response (`httputil.NewSingleHostReverseProxy`, `ServeHTTP`). The model ends at the request handed to it.
- The Prometheus registration and the text exposition behind `GET /metrics` are not modelled. The handler's result is the counter map itself. Atomic increments under concurrency happen inside the library; the model treats requests as a sequence of observations.
- gin's pattern matching, `FullPath()` and the router's own 404 for unmatched paths are not modelled. `Gateway.Serve` takes the registered route the request matched. gin also runs the metrics middleware on its 404 chain, so an unmatched request is counted under the empty pattern; those counts are not modelled.
- Header keys are assumed to be in canonical MIME form already. Canonicalisation in `Header.Get` and `Header.Set` is not modelled.
- Strings are sequences of characters, not of UTF-8 bytes. `TrimPrefix` is equivalent to Go's byte-wise version only because "Bearer " is ASCII.
- `time.Now()` is the parameter `now`, in whole Unix seconds. The human-readable `expires_at_utc` string is date formatting and is not carried in the reply.
- Integer widths are left out: `int64` Unix times and `int64(len(body))` are unbounded integers, since no realistic value overflows 64 bits.
- JSON binding of the login body is a decoder parameter that reads the body stream. Reading a body consumes the real stream: in the model, binding the login body and `Proxy.ProxyWithBody`'s 400 path after a failed read both leave the request record's body as it was.
- `log.Printf`, `router.Run` and the listen address are I/O.
- The settings backend stub (`settings/main.go`) is not part of this model.
