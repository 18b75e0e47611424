/**
 The HTTP values the worker's request handler reads and builds: the inbound
 request as the handler sees it after URL parsing, the response it returns,
 the outbound request it issues and the abstract result of issuing it, and the
 mutable header set it uses to relay the upstream headers.
 */
module Http {

  /** A JavaScript value that is either a string or `null`. */
  datatype Option<T> = None | Some(value: T)

  /** A header set or a query-parameter set, keys already normalised. */
  type Headers = map<string, string>

  /** `URLSearchParams.get` / `Headers.get`: the value, or `null` when the key is absent. */
  function Lookup(m: map<string, string>, key: string): (r: Option<string>)
    ensures r.Some? <==> key in m
    ensures r.Some? ==> r.value == m[key]
  {
    if key in m then Some(m[key]) else None
  }

  /** JavaScript truthiness of a string-or-null: `null` and `""` are falsy. */
  predicate Truthy(s: Option<string>)
  {
    s.Some? && s.value != ""
  }

  /**
   An inbound request: the pathname and the query parameters of its URL (the
   first value of each parameter), its method (`verb`) and its request headers.
   */
  datatype Request = Request(
    pathname: string,
    params: map<string, string>,
    verb: string,
    headers: Headers)

  /** The request the worker sends upstream; `body` is `None` for `null`. */
  datatype Outbound = Outbound(
    target: string,
    verb: string,
    headers: Headers,
    body: Option<string>)

  /**
   What `fetch` produced for an outbound request: the final (post-redirect)
   response, or the message of the error it threw.
   */
  datatype FetchResult =
    | Fetched(status: int, statusText: string, headers: Headers, body: Option<string>)
    | FetchFailed(message: string)

  /**
   A response the worker returns. `status` and `statusText` default to 200
   and "" as in the `Response` constructor; `headers` are the ones passed in
   its init object.
   */
  datatype Response = Response(
    status: int,
    statusText: string,
    headers: Headers,
    body: Option<string>)

  /** A `Headers` object: a mutable set of header entries. */
  class HeaderSet {
    var entries: Headers

    /** `new Headers(init)` copies every entry of `init`. */
    constructor (init: Headers)
      ensures entries == init
    {
      entries := init;
    }

    /** `headers.set(key, value)` replaces or adds the one entry for `key`. */
    method Set(key: string, value: string)
      modifies this
      ensures key in entries && entries[key] == value
      ensures forall k :: k in old(entries) && k != key ==> k in entries && entries[k] == old(entries)[k]
      ensures forall k :: k in entries ==> k == key || k in old(entries)
    {
      entries := entries[key := value];
    }
  }
}
