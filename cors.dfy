/**
 * CORS injection after every reply, the response object whose header map it
 * updates in place, and the whole request cycle: decision, then injection.
 */
module Cors {
  import opened Wrappers
  import opened Text
  import opened Http
  import opened OriginGate
  import opened Proxy

  const ALLOW_ORIGIN := "Access-Control-Allow-Origin"
  const ALLOW_METHODS := "Access-Control-Allow-Methods"
  const ALLOW_HEADERS := "Access-Control-Allow-Headers"
  const MAX_AGE := "Access-Control-Max-Age"

  const METHODS_VALUE := "GET, POST, PUT, DELETE, OPTIONS, PATCH"
  const HEADERS_VALUE := "Content-Type, Authorization, X-Requested-With, Accept, Origin"
  const MAX_AGE_VALUE := "86400"

  /** The four CORS names. */
  predicate IsCorsName(k: string) {
    k == ALLOW_ORIGIN || k == ALLOW_METHODS || k == ALLOW_HEADERS || k == MAX_AGE
  }

  /** A name that some CORS name matches case-insensitively. */
  predicate ClashesWithCors(k: string) {
    Lower(k) == Lower(ALLOW_ORIGIN) || Lower(k) == Lower(ALLOW_METHODS) ||
    Lower(k) == Lower(ALLOW_HEADERS) || Lower(k) == Lower(MAX_AGE)
  }

  /**
   * Setting a response header: every entry whose name matches case-insensitively
   * is replaced by the single new one; every other entry stays.
   */
  function WithHeader(h: map<string, string>, name: string, value: string): (r: map<string, string>)
    ensures name in r && r[name] == value
    ensures forall k :: k in r && k != name ==> k in h && Lower(k) != Lower(name) && r[k] == h[k]
    ensures forall k :: k in h && Lower(k) != Lower(name) ==> k in r && r[k] == h[k]
  {
    (map k | k in h && Lower(k) != Lower(name) :: h[k])[name := value]
  }

  /** All four CORS headers are present, `Allow-Origin` echoing `origin`. */
  predicate CorsSet(h: map<string, string>, origin: string) {
    && ALLOW_ORIGIN in h && h[ALLOW_ORIGIN] == origin
    && ALLOW_METHODS in h && h[ALLOW_METHODS] == METHODS_VALUE
    && ALLOW_HEADERS in h && h[ALLOW_HEADERS] == HEADERS_VALUE
    && MAX_AGE in h && h[MAX_AGE] == MAX_AGE_VALUE
  }

  /**
   * The headers of a reply once `after_request` has seen the request's origin.
   * For an allowed origin the four CORS headers are set and nothing else is
   * added; for a refused one nothing changes. Either way every header that no
   * CORS name matches is kept.
   */
  function WithCors(h: map<string, string>, origin: string): (r: map<string, string>)
    ensures !OriginAllowed(origin, ALLOWED_ORIGINS) ==> r == h
    ensures OriginAllowed(origin, ALLOWED_ORIGINS) ==> CorsSet(r, origin)
    ensures OriginAllowed(origin, ALLOWED_ORIGINS) ==>
              forall k :: k in r ==> IsCorsName(k) || (k in h && !ClashesWithCors(k))
    ensures forall k :: k in h && !ClashesWithCors(k) ==> k in r && r[k] == h[k]
  {
    CorsNamesDistinct();
    if OriginAllowed(origin, ALLOWED_ORIGINS) then
      WithHeader(WithHeader(WithHeader(WithHeader(h, ALLOW_ORIGIN, origin),
        ALLOW_METHODS, METHODS_VALUE), ALLOW_HEADERS, HEADERS_VALUE), MAX_AGE, MAX_AGE_VALUE)
    else h
  }

  /** The four CORS names are pairwise distinct even case-insensitively. */
  lemma CorsNamesDistinct()
    ensures Lower(ALLOW_ORIGIN) != Lower(ALLOW_METHODS) && Lower(ALLOW_ORIGIN) != Lower(ALLOW_HEADERS)
    ensures Lower(ALLOW_ORIGIN) != Lower(MAX_AGE) && Lower(ALLOW_METHODS) != Lower(ALLOW_HEADERS)
    ensures Lower(ALLOW_METHODS) != Lower(MAX_AGE) && Lower(ALLOW_HEADERS) != Lower(MAX_AGE)
  {
    assert |Lower(ALLOW_ORIGIN)| == 27 && |Lower(MAX_AGE)| == 22 && |Lower(ALLOW_METHODS)| == 28;
    assert Lower(ALLOW_METHODS)[21] == 'm' && Lower(ALLOW_HEADERS)[21] == 'h';
  }

  /** `Content-Type` is not one of the CORS names, in any spelling. */
  lemma ContentTypeNotCors()
    ensures !ClashesWithCors("Content-Type")
  {
    assert Lower("Content-Type")[0] == 'c' && Lower(ALLOW_ORIGIN)[0] == 'a';
    assert Lower(ALLOW_METHODS)[0] == 'a' && Lower(ALLOW_HEADERS)[0] == 'a' && Lower(MAX_AGE)[0] == 'a';
  }

  /** A reply under construction; the framework's header map is updated in place. */
  class HttpResponse {
    const status: int
    const contentType: string
    const body: Body
    var headers: map<string, string>

    /** A fresh reply carries only its `Content-Type` header. */
    constructor (r: Response)
      ensures status == r.status && contentType == r.contentType && body == r.body
      ensures headers == map["Content-Type" := r.contentType]
    {
      status := r.status;
      contentType := r.contentType;
      body := r.body;
      headers := map["Content-Type" := r.contentType];
    }

    /** `response.headers[name] = value`. */
    method Set(name: string, value: string)
      modifies this
      ensures headers == WithHeader(old(headers), name, value)
    {
      headers := WithHeader(headers, name, value);
    }
  }

  /** `after_request`: add the CORS headers when the request's origin is allowed. */
  method AfterRequest(response: HttpResponse, requestHeaders: HeaderMap)
    modifies response
    ensures response.headers == WithCors(old(response.headers), LookupOr(requestHeaders, "Origin", ""))
  {
    var origin := LookupOr(requestHeaders, "Origin", "");
    var allowed := IsOriginAllowed(origin, ALLOWED_ORIGINS);
    if allowed {
      response.Set(ALLOW_ORIGIN, origin);
      response.Set(ALLOW_METHODS, METHODS_VALUE);
      response.Set(ALLOW_HEADERS, HEADERS_VALUE);
      response.Set(MAX_AGE, MAX_AGE_VALUE);
    }
  }

  /** What the caller finally receives: the reply, its headers, and the call that was issued. */
  datatype Served = Served(response: Response, headers: map<string, string>, outbound: Option<Outbound>)

  /** The request cycle: the handler's decision, then CORS injection on the reply. */
  function Serve(req: Request, scheme: string -> Option<string>, outcome: Upstream): (r: Served)
    ensures r.outbound.Some? <==> Forwardable(req, scheme)
    ensures "Content-Type" in r.headers && r.headers["Content-Type"] == r.response.contentType
    ensures OriginAllowed(RequestOrigin(req), ALLOWED_ORIGINS) ==> CorsSet(r.headers, RequestOrigin(req))
    ensures !OriginAllowed(RequestOrigin(req), ALLOWED_ORIGINS) ==>
              r.headers == map["Content-Type" := r.response.contentType]
  {
    ContentTypeNotCors();
    var d := Decide(req, scheme, outcome);
    Served(d.response, WithCors(map["Content-Type" := d.response.contentType], RequestOrigin(req)), d.outbound)
  }

  /** One request cycle run on a response object, as the framework runs it. */
  method Handle(req: Request, scheme: string -> Option<string>, outcome: Upstream)
    returns (response: HttpResponse, outbound: Option<Outbound>)
    ensures fresh(response)
    ensures Response(response.status, response.contentType, response.body) == Serve(req, scheme, outcome).response
    ensures response.headers == Serve(req, scheme, outcome).headers
    ensures outbound == Serve(req, scheme, outcome).outbound
  {
    var d := Decide(req, scheme, outcome);
    response := new HttpResponse(d.response);
    AfterRequest(response, req.headers);
    outbound := d.outbound;
  }

  /** A request from the local development origin. */
  function LocalRequest(verb: Method, url: string): Request {
    Request(verb, "/proxy", Some(url), map["origin" := "http://localhost:3000"], [])
  }

  /**
   * A GET from `http://localhost:3000` to a valid http target that answers
   * 404 gets that 404 and its body back, with CORS headers echoing the origin.
   */
  lemma UpstreamNotFoundRelayedWithCors(url: string, scheme: string -> Option<string>, errBody: seq<byte>)
    requires url != "" && scheme(url) == Some("http")
    ensures var s := Serve(LocalRequest(Get, url), scheme, HttpErr(404, Some(JSON_MIMETYPE), Some(errBody)));
            && s.response == Response(404, JSON_MIMETYPE, Raw(errBody))
            && s.outbound.Some?
            && CorsSet(s.headers, "http://localhost:3000")
  {
    var req := LocalRequest(Get, url);
    var outcome := HttpErr(404, Some(JSON_MIMETYPE), Some(errBody));
    assert "origin" in req.headers && RequestOrigin(req) == "http://localhost:3000";
    LocalPortAdmitted();
    assert Target(req) == Some(url);
    assert Forwardable(req, scheme);
    var d := Decide(req, scheme, outcome);
    assert d.response == Relay(outcome) == Response(404, JSON_MIMETYPE, Raw(errBody));
  }

  /**
   * A POST from a refused origin gets the Forbidden reply with no CORS header
   * at all, and the target receives nothing.
   */
  lemma RefusedPostForbidden(origin: string, url: string, body: seq<byte>, outcome: Upstream)
    requires !OriginAllowed(origin, ALLOWED_ORIGINS)
    ensures var s := Serve(Request(Post, "/proxy", Some(url), map["origin" := origin], body),
                           _ => Some("https"), outcome);
            && s.response == Response(403, JSON_MIMETYPE, Json(Forbidden))
            && s.outbound == None
            && s.headers == map["Content-Type" := JSON_MIMETYPE]
  {
    assert Lower("Origin") == "origin";
  }

  /** A preflight from the published site is a bodiless 200 carrying the CORS headers. */
  lemma SitePreflightAllowed(path: string, outcome: Upstream)
    ensures var s := Serve(Request(Options, path, None, map["origin" := "https://pltchuong.github.io"], []),
                           _ => None, outcome);
            && s.response == Response(200, DEFAULT_MIMETYPE, NoBody)
            && s.outbound == None
            && CorsSet(s.headers, "https://pltchuong.github.io")
  {
    assert Lower("Origin") == "origin";
    assert EntryAdmits(ALLOWED_ORIGINS[0], "https://pltchuong.github.io");
  }
}
