/**
 The worker's request handler: the routing decision taken for every inbound
 request (homepage, authentication, target check, CORS preflight, forward),
 the CORS header set, the relay of an upstream response with the CORS headers
 written over it, and the whole handler with the upstream call as a parameter.
 */
module Handler {
  import opened Http

  // ---------------------------------------------------------------------
  // Constants
  // ---------------------------------------------------------------------

  const ALLOW_ORIGIN := "Access-Control-Allow-Origin"
  const ALLOW_METHODS := "Access-Control-Allow-Methods"
  const ALLOW_HEADERS := "Access-Control-Allow-Headers"

  /** The keys of the CORS header object, in the order they are written. */
  const CORS_KEYS: seq<string> := [ALLOW_ORIGIN, ALLOW_METHODS, ALLOW_HEADERS]

  const ALLOWED_METHODS := "GET, POST, PUT, DELETE, OPTIONS"

  /** The only headers an outbound request carries. */
  const PROXY_HEADERS: Headers :=
    map["Content-Type" := "application/json", "User-Agent" := "Cloudflare Worker"]

  const ERROR_PREFIX := "Error fetching target: "

  const INDENT := "            "
  const GET_USAGE := "GET  /?pass=$PASSWORD&url=example.com"
  const POST_USAGE := "POST /?pass=$PASSWORD&url=example.com&data={\"key\":\"val\"}"

  /** The usage page served at the root. */
  const HOMEPAGE: string :=
    "\n" + INDENT + "<h1>Proxy Active</h1>\n"
    + INDENT + "<p>Usage:</p>\n"
    + INDENT + "<pre>" + GET_USAGE + "</pre>\n"
    + INDENT + "<pre>" + POST_USAGE + "</pre>\n"
    + "        "

  // ---------------------------------------------------------------------
  // What the handler promises, each stated as its own predicate
  // ---------------------------------------------------------------------

  /** The root path without a `url` parameter: the one request served without a password. */
  ghost predicate AsksForHomepage(req: Request)
  {
    req.pathname == "/" && "url" !in req.params
  }

  /** A non-empty `pass` parameter equal to a configured secret. */
  ghost predicate Authenticated(params: map<string, string>, secret: Option<string>)
  {
    "pass" in params && params["pass"] != "" && secret == Some(params["pass"])
  }

  /** A non-empty `url` parameter. */
  ghost predicate NamesTarget(params: map<string, string>)
  {
    "url" in params && params["url"] != ""
  }

  /** `value` echoes the inbound header `name`, falling back to "*" when it is missing or empty. */
  ghost predicate EchoesOrStar(value: string, inbound: Headers, name: string)
  {
    if name in inbound && inbound[name] != "" then value == inbound[name] else value == "*"
  }

  /** Exactly the three CORS headers, with the values answered to `inbound`. */
  ghost predicate IsCorsFor(cors: Headers, inbound: Headers)
  {
    && cors.Keys == {ALLOW_ORIGIN, ALLOW_METHODS, ALLOW_HEADERS}
    && EchoesOrStar(cors[ALLOW_ORIGIN], inbound, "Origin")
    && cors[ALLOW_METHODS] == ALLOWED_METHODS
    && EchoesOrStar(cors[ALLOW_HEADERS], inbound, "Access-Control-Request-Headers")
  }

  /**
   The outbound request goes to the `url` parameter as written, with the
   inbound method, the two fixed headers, and the `data` parameter as body
   for POST and PUT only.
   */
  ghost predicate ForwardsVerbatim(out: Outbound, req: Request)
  {
    && "url" in req.params && out.target == req.params["url"]
    && out.verb == req.verb
    && out.headers.Keys == {"Content-Type", "User-Agent"}
    && out.headers["Content-Type"] == "application/json"
    && out.headers["User-Agent"] == "Cloudflare Worker"
    && (out.body.Some? ==> (req.verb == "POST" || req.verb == "PUT"))
    && (out.body.Some? ==> "data" in req.params && out.body.value == req.params["data"])
    && ((req.verb == "POST" || req.verb == "PUT") && "data" in req.params ==> out.body.Some?)
  }

  /**
   The relayed response: on success the upstream status, status text and body,
   every upstream header whose key is not a CORS key, and the CORS headers
   over the rest; on failure a 500 with the error message and no headers.
   */
  ghost predicate RelayedFrom(resp: Response, upstream: FetchResult, cors: Headers)
  {
    match upstream
    case Fetched(status, statusText, headers, body) =>
      && resp.status == status
      && resp.statusText == statusText
      && resp.body == body
      && resp.headers.Keys == headers.Keys + cors.Keys
      && (forall k :: k in cors ==> resp.headers[k] == cors[k])
      && (forall k :: k in headers && k !in cors ==> resp.headers[k] == headers[k])
    case FetchFailed(message) =>
      && resp.status == 500
      && resp.statusText == ""
      && resp.headers == map[]
      && resp.body == Some(ERROR_PREFIX + message)
  }

  // ---------------------------------------------------------------------
  // The routing decision
  // ---------------------------------------------------------------------

  /** The single outcome the handler picks for a request. */
  datatype Outcome =
    | Homepage
    | Unauthorized
    | MissingTarget
    | Preflight(cors: Headers)
    | Forward(request: Outbound, cors: Headers)

  /**
   The password check as written: a falsy `pass`, or one that is not the
   secret, where an undefined secret stands as `null` and no string equals it.
   */
  function PassRejected(pass: Option<string>, secret: Option<string>): (rejected: bool)
    ensures rejected <==> !(pass.Some? && pass.value != "" && secret == Some(pass.value))
    ensures secret.None? ==> rejected
  {
    !Truthy(pass) || pass != secret
  }

  /** The CORS header object built for the inbound headers. */
  function CorsFor(inbound: Headers): (cors: Headers)
    ensures IsCorsFor(cors, inbound)
    ensures |cors| == 3
  {
    var origin := Lookup(inbound, "Origin");
    var requested := Lookup(inbound, "Access-Control-Request-Headers");
    map[ALLOW_ORIGIN := if Truthy(origin) then origin.value else "*",
        ALLOW_METHODS := ALLOWED_METHODS,
        ALLOW_HEADERS := if Truthy(requested) then requested.value else "*"]
  }

  /**
   The routing decision: homepage first, then the password, then the target,
   then the preflight; everything else is forwarded.
   */
  function Decide(req: Request, secret: Option<string>): (o: Outcome)
    ensures o.Homepage? <==> AsksForHomepage(req)
    ensures o.Unauthorized? <==> !AsksForHomepage(req) && !Authenticated(req.params, secret)
    ensures o.MissingTarget? <==>
      !AsksForHomepage(req) && Authenticated(req.params, secret) && !NamesTarget(req.params)
    ensures o.Preflight? <==>
      !AsksForHomepage(req) && Authenticated(req.params, secret) && NamesTarget(req.params)
      && req.verb == "OPTIONS"
    ensures o.Forward? <==>
      !AsksForHomepage(req) && Authenticated(req.params, secret) && NamesTarget(req.params)
      && req.verb != "OPTIONS"
    ensures o.Preflight? || o.Forward? ==> IsCorsFor(o.cors, req.headers)
    ensures o.Forward? ==> ForwardsVerbatim(o.request, req)
  {
    if req.pathname == "/" && "url" !in req.params then
      Homepage
    else
      var pass := Lookup(req.params, "pass");
      var targetUrl := Lookup(req.params, "url");
      if PassRejected(pass, secret) then
        Unauthorized
      else if !Truthy(targetUrl) then
        MissingTarget
      else
        var cors := CorsFor(req.headers);
        if req.verb == "OPTIONS" then
          Preflight(cors)
        else
          var bodyData := Lookup(req.params, "data");
          var body := if req.verb == "POST" || req.verb == "PUT" then bodyData else None;
          Forward(Outbound(targetUrl.value, req.verb, PROXY_HEADERS, body), cors)
  }

  /** The usage page names both the GET and the POST form of a proxied call. */
  ghost predicate Mentions(page: string, usage: string)
  {
    exists i :: 0 <= i <= |page| - |usage| && page[i..][..|usage|] == usage
  }

  lemma HomepageDocumentsUsage()
    ensures Mentions(HOMEPAGE, GET_USAGE)
    ensures Mentions(HOMEPAGE, POST_USAGE)
  {
    var beforeGet := "\n" + INDENT + "<h1>Proxy Active</h1>\n" + INDENT + "<p>Usage:</p>\n" + INDENT + "<pre>";
    var beforePost := beforeGet + GET_USAGE + "</pre>\n" + INDENT + "<pre>";
    var afterPost := "</pre>\n" + "        ";
    assert HOMEPAGE == beforePost + POST_USAGE + afterPost;
    assert HOMEPAGE[|beforeGet|..][..|GET_USAGE|] == GET_USAGE;
    assert HOMEPAGE[|beforePost|..][..|POST_USAGE|] == POST_USAGE;
  }

  // ---------------------------------------------------------------------
  // The relay
  // ---------------------------------------------------------------------

  /**
   Copies the upstream headers into a new header set, then sets each CORS
   key in turn, so that the CORS values win on every shared key.
   */
  method MergeCors(upstream: Headers, cors: Headers) returns (merged: Headers)
    requires cors.Keys == {ALLOW_ORIGIN, ALLOW_METHODS, ALLOW_HEADERS}
    ensures merged.Keys == upstream.Keys + cors.Keys
    ensures forall k :: k in cors ==> merged[k] == cors[k]
    ensures forall k :: k in upstream && k !in cors ==> merged[k] == upstream[k]
  {
    var responseHeaders := new HeaderSet(upstream);
    for i := 0 to |CORS_KEYS|
      invariant forall k :: k in responseHeaders.entries <==> k in upstream || k in CORS_KEYS[..i]
      invariant forall k :: k in CORS_KEYS[..i] ==> responseHeaders.entries[k] == cors[k]
      invariant forall k :: k in upstream && k !in CORS_KEYS[..i] ==> responseHeaders.entries[k] == upstream[k]
    {
      var key := CORS_KEYS[i];
      responseHeaders.Set(key, cors[key]);
      assert CORS_KEYS[..i + 1] == CORS_KEYS[..i] + [key];
    }
    assert CORS_KEYS[..|CORS_KEYS|] == CORS_KEYS;
    merged := responseHeaders.entries;
  }

  /**
   Copy all, then overwrite by key: the relayed header set is the upstream
   one with the CORS map laid over it, whatever keys the two share.
   */
  lemma RelayedHeadersAreOverlay(resp: Response, upstream: FetchResult, cors: Headers)
    requires upstream.Fetched? && RelayedFrom(resp, upstream, cors)
    ensures resp.headers == upstream.headers + cors
  {
  }

  /** Builds the response relayed to the caller from what the upstream call produced. */
  method Relay(upstream: FetchResult, cors: Headers) returns (resp: Response)
    requires cors.Keys == {ALLOW_ORIGIN, ALLOW_METHODS, ALLOW_HEADERS}
    ensures RelayedFrom(resp, upstream, cors)
  {
    match upstream
    case Fetched(status, statusText, headers, body) =>
      var merged := MergeCors(headers, cors);
      resp := Response(status, statusText, merged, body);
    case FetchFailed(message) =>
      resp := Response(500, "", map[], Some(ERROR_PREFIX + message));
  }

  // ---------------------------------------------------------------------
  // The handler
  // ---------------------------------------------------------------------

  /**
   Handles one request. `upstream` stands for what `fetch` yields for the
   outbound request, if one is sent; `forwarded` is the request sent, if any.
   */
  method HandleRequest(req: Request, secret: Option<string>, upstream: FetchResult)
    returns (resp: Response, forwarded: Option<Outbound>)
    ensures forwarded.Some? <==> Decide(req, secret).Forward?
    ensures forwarded.Some? ==> ForwardsVerbatim(forwarded.value, req)
    ensures Decide(req, secret).Homepage? ==>
      resp == Response(200, "", map["Content-Type" := "text/html"], Some(HOMEPAGE))
    ensures Decide(req, secret).Unauthorized? ==>
      resp == Response(403, "", map[], Some("Unauthorized"))
    ensures Decide(req, secret).MissingTarget? ==>
      resp == Response(400, "", map[], Some("Missing target URL"))
    ensures Decide(req, secret).Preflight? ==>
      resp == Response(200, "", CorsFor(req.headers), None) && IsCorsFor(resp.headers, req.headers)
    ensures Decide(req, secret).Forward? ==>
      RelayedFrom(resp, upstream, CorsFor(req.headers))
  {
    forwarded := None;
    match Decide(req, secret)
    case Homepage =>
      resp := Response(200, "", map["Content-Type" := "text/html"], Some(HOMEPAGE));
    case Unauthorized =>
      resp := Response(403, "", map[], Some("Unauthorized"));
    case MissingTarget =>
      resp := Response(400, "", map[], Some("Missing target URL"));
    case Preflight(cors) =>
      resp := Response(200, "", cors, None);
    case Forward(request, cors) =>
      forwarded := Some(request);
      resp := Relay(upstream, cors);
  }
}
