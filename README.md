# cors-anywhere worker: request handler model

A Dafny model of the request handler of a Cloudflare Worker that acts as an
authenticated CORS proxy. For each inbound request the handler picks one
outcome:

- it serves a usage page at the root when no `url` parameter is given;
- it refuses a missing, empty or wrong `pass` parameter with 403;
- it refuses a missing or empty `url` parameter with 400;
- it answers an `OPTIONS` request with the CORS headers alone;
- otherwise it forwards the request to the `url` parameter and relays the
  upstream response with three CORS headers written over the upstream ones.

An upstream failure becomes a 500 whose body carries the error message.

The model has two modules:

- `Http` (http.dfy) holds the values the handler reads and builds: the parsed
  request, the outbound request, the abstract upstream result, the response,
  and a `HeaderSet` class for the mutable `Headers` object.
- `Handler` (handler.dfy) holds the rest:
  - the routing decision `Decide` over an `Outcome` datatype;
  - the password check and the CORS header object;
  - the header merge, an imperative loop over the CORS keys that updates a
    `HeaderSet` in place;
  - the relay, and the whole handler `HandleRequest`, which takes the upstream
    result as a parameter.

Each promise is stated as its own predicate:

- `AsksForHomepage`, `Authenticated` and `NamesTarget` describe the routing
  conditions;
- `IsCorsFor` describes the CORS header set;
- `ForwardsVerbatim` describes the outbound request;
- `RelayedFrom` describes the relayed response.

The functions and methods are proved to meet these predicates.

Behaviour of index.js worth knowing:

- A preflight is answered only after the password and target checks. An
  unauthenticated `OPTIONS` request gets 403, not a preflight response.
- The target URL is forwarded verbatim. No `https://` scheme is added.
- The preflight response has the `Response` constructor's default status, 200.
- The `*` fallback for `Origin` and `Access-Control-Request-Headers` also
  applies when the header is present but empty, because JavaScript's `||`
  treats `""` as false.

## Model

| member | source | states |
|---|---|---|
| `Http.HeaderSet.constructor` | index.js:63 | a new header set holds exactly the entries it was initialised with |
| `Http.HeaderSet.Set` | index.js:64 | setting a key gives it the new value; every other entry is kept, and no other key is added |
| `Handler.PassRejected` | index.js:26-28 | the password is rejected unless `pass` is present, non-empty and equal to a configured secret; an unset secret always rejects, so the check fails closed |
| `Handler.CorsFor` | index.js:37-41 | the CORS object has exactly three keys: Allow-Origin echoes `Origin` or is `*` when it is missing or empty; Allow-Methods is `GET, POST, PUT, DELETE, OPTIONS`; Allow-Headers echoes `Access-Control-Request-Headers` or is `*` |
| `Handler.Decide` | index.js:10-60 | exactly one outcome, each characterised by its full condition in check order: homepage iff path `/` and no `url` parameter, whatever `pass` and method are; 403 iff not homepage and not authenticated; 400 iff authenticated without a non-empty `url`, whatever the method; preflight iff all checks pass and the method is OPTIONS; forward iff they pass and it is not OPTIONS. Preflight and forward carry the CORS set. A forward goes to `url` verbatim with the inbound method and exactly the two fixed headers, and carries the `data` parameter as body for POST and PUT only |
| `Handler.HomepageDocumentsUsage` | index.js:11-18 | the usage page contains both the GET and the POST usage line |
| `Handler.MergeCors` | index.js:63-64 | after copying the upstream headers and setting each CORS key in turn, the keys are the upstream keys plus the CORS keys; every CORS key has its CORS value; every other upstream header is unchanged |
| `Handler.RelayedHeadersAreOverlay` | index.js:63-64 | the relayed header set equals the upstream map overlaid by the CORS map, so the CORS values win on every shared key |
| `Handler.Relay` | index.js:51-73 | on upstream success, status, status text and body pass through and the headers are merged as above; on failure, status 500, empty status text, body `Error fetching target: ` followed by the message, and no CORS headers |
| `Handler.HandleRequest` | index.js:5-74 | a request is forwarded iff the decision is a forward, and then the outbound request is verbatim as above, so a preflight never forwards; the homepage, 403 `Unauthorized` and 400 `Missing target URL` responses are exact; the preflight response is status 200 with status text "", a null body and exactly the request's CORS set; a forward relays the upstream result with that CORS set |

## Left out

- Registering the handler with `addEventListener` and `event.respondWith` is not modelled. It is host-platform plumbing.
- `async`/`await` is not modelled. The only suspension is the fetch, which the model takes as a parameter.
- URL parsing and query decoding (`new URL`, `searchParams`) are not modelled. The handler takes the pathname and a map from each parameter to its first value.
- `fetch` is not modelled: the network call, redirect following and body streaming. Its outcome is the `FetchResult` parameter. A response body is an opaque string-or-null that is passed through.
- Header names are assumed to be spelled as the handler spells them (`Origin`, `Access-Control-Request-Headers`, `Access-Control-Allow-Origin`, ...). The case-insensitive matching of the platform `Headers` class is not modelled, so an upstream header spelled differently, such as `access-control-allow-origin`, would stay beside the CORS key in the model.
- The global `PASSWORD` lookup is modelled as an optional secret string. A secret of a non-string type is not modelled.
- The `Response` constructor adds a `Content-Type` header for string bodies. This is not modelled: a response's headers are only those the handler passes.
- Only a fetch failure is mapped to the 500 response. Other exceptions inside the `try` block are not modelled, such as a `RangeError` from the `Response` constructor for an out-of-range upstream status. A thrown value without a `message` is not modelled either.
- Methods are compared as the exact strings the request carries. The platform's method-name normalisation is not modelled.
