/** The prugo client: construction with defaults, and the request `Get`
    builds from a client, a path and a per-call configuration. */
module Prugo {
  import opened Wrappers
  import opened Headers

  /** `time.Duration`: a signed 64-bit count of nanoseconds. */
  type Duration = d: int | -0x8000_0000_0000_0000 <= d < 0x8000_0000_0000_0000

  /** `time.Second`. */
  const Second: Duration := 1_000_000_000

  /** `http.MethodGet`. */
  const MethodGet: string := "GET"

  /** A client instance: base URL, default headers and timeout, as `New`
      stores them. This value cannot change once built; the source's client
      shares its header map with the caller of `New`, so a later in-place
      merge into that same map does change the source's client. */
  datatype Client = Client(baseURL: string, headers: Header, timeout: Duration)

  /** The per-call configuration; `headers` is `None` for a nil map, which
      is what a zero `Config{}` carries. */
  datatype Config = Config(headers: Option<Header>)

  /** What `Get` hands to net/http: HTTP method, absolute URL and header set
      (`None` for a nil header map). */
  datatype Request = Request(verb: string, url: string, header: Option<Header>)

  /** The header set a client gets when it is constructed with a nil map. */
  function DefaultHeaders(): Header
  {
    map["Content-Type" := ["application/json"]]
  }

  /** A client as `New` leaves it: the timeout is never the zero duration. */
  predicate Valid(p: Client)
  {
    p.timeout != 0
  }

  /** The constructor. It starts from one second and the Content-Type
      default, then overwrites each field whose argument is not the zero
      value. A present header map replaces the default outright, even when
      it lacks Content-Type; any non-zero timeout, negative ones included,
      is kept. */
  function New(baseURL: string, headers: Option<Header>, timeout: Duration): (p: Client)
    ensures Valid(p)
    ensures p.baseURL == baseURL
    ensures headers.None? ==>
      p.headers.Keys == {"Content-Type"} && p.headers["Content-Type"] == ["application/json"]
    ensures headers.Some? ==> p.headers == headers.value
    ensures timeout == 0 ==> p.timeout == Second
    ensures timeout != 0 ==> p.timeout == timeout
  {
    var start := Client("", DefaultHeaders(), Second);
    var withURL := if baseURL != "" then start.(baseURL := baseURL) else start;
    var withHeaders := if headers.Some? then withURL.(headers := headers.value) else withURL;
    if timeout != 0 then withHeaders.(timeout := timeout) else withHeaders
  }

  /** Rebuilding a valid client from its own fields gives the same client:
      `New` loses nothing it stores. */
  lemma NewFromFields(p: Client)
    requires Valid(p)
    ensures New(p.baseURL, Some(p.headers), p.timeout) == p
  {
  }

  /** The request URL: the path appended to the base URL, with no joining,
      normalisation or escaping. */
  function RequestURL(baseURL: string, path: string): (u: string)
    ensures |u| == |baseURL| + |path|
    ensures u[..|baseURL|] == baseURL
    ensures u[|baseURL|..] == path
  {
    baseURL + path
  }

  /** For a fixed base URL, distinct paths give distinct request URLs, and
      with an empty base URL the request URL is the path itself. */
  lemma RequestURLDeterminesPath(baseURL: string, path1: string, path2: string)
    ensures RequestURL(baseURL, path1) == RequestURL(baseURL, path2) <==> path1 == path2
    ensures RequestURL("", path1) == path1
  {
  }

  /** The request `Get` issues: a GET of the request URL carrying the
      merge of the client's defaults into the per-call headers. The client
      itself is a value and comes out of the call unchanged. */
  function GetRequest(p: Client, path: string, config: Config): (r: Request)
    ensures r.verb == MethodGet
    ensures r.url == RequestURL(p.baseURL, path)
    ensures r.header.None? <==> config.headers.None?
    ensures config.headers.Some? ==>
      r.header.value.Keys == config.headers.value.Keys + p.headers.Keys
    ensures config.headers.Some? ==>
      forall k :: k in r.header.value ==>
        r.header.value[k] == (if k in config.headers.value then config.headers.value[k] else p.headers[k])
  {
    Request(MethodGet, RequestURL(p.baseURL, path), Merge(p.headers, config.headers))
  }

  /** Reusing a configuration whose map an earlier `Get` already merged
      into (the source mutates that map in place) yields the same request. */
  lemma GetRepeatable(p: Client, path: string, config: Config)
    ensures GetRequest(p, path, Config(GetRequest(p, path, config).header)) == GetRequest(p, path, config)
  {
    MergeIdempotent(p.headers, config.headers);
  }

  /** Reusing, with client `p2`, a configuration whose map an earlier `Get`
      on client `p1` already merged into: the second request carries the
      defaults of both clients, and where they share a name the first
      client's values win over the second's. */
  lemma GetReuseAcrossClients(p1: Client, p2: Client, path1: string, path2: string, config: Config)
    ensures
      GetRequest(p2, path2, Config(GetRequest(p1, path1, config).header)).header
      == Merge(p2.headers + p1.headers, config.headers)
  {
    MergeTwice(p1.headers, p2.headers, config.headers);
  }

  /** A call with a zero `Config{}` sends a nil header set, whatever the
      client was built with: neither the caller's defaults nor the
      Content-Type default reach the request. */
  lemma NoOverrideSendsNoHeaders(baseURL: string, headers: Option<Header>, timeout: Duration, path: string)
    ensures GetRequest(New(baseURL, headers, timeout), path, Config(None)).header == None
  {
  }

  /** A client built without headers, called with an Authorization override,
      sends both Authorization and the Content-Type default. */
  lemma OverrideReceivesContentType(baseURL: string, path: string)
    ensures
      var r := GetRequest(New(baseURL, None, Second), path,
                          Config(Some(map["Authorization" := ["Bearer token"]])));
      && r.header == Some(map["Authorization" := ["Bearer token"],
                              "Content-Type" := ["application/json"]])
      && r.url == baseURL + path
  {
    var r := GetRequest(New(baseURL, None, Second), path,
                        Config(Some(map["Authorization" := ["Bearer token"]])));
    var want := map["Authorization" := ["Bearer token"], "Content-Type" := ["application/json"]];
    assert r.header.value.Keys == want.Keys;
    assert r.header.value == want;
  }
}
