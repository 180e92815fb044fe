/**
 * The request decision of the `/proxy` handler: the preflight short-circuit,
 * the origin gate, target resolution, scheme validation, body selection and
 * the mapping of the upstream outcome onto a response.
 */
module Proxy {
  import opened Wrappers
  import opened Text
  import opened Http
  import opened OriginGate
  import opened TargetResolver
  import opened HeaderSelector

  /** The response the handler returns, and the outbound call it issued, if any. */
  datatype Decision = Decision(response: Response, outbound: Option<Outbound>)

  /** `request.headers.get("Origin", "")`. */
  function RequestOrigin(req: Request): (r: string)
    ensures "origin" !in req.headers ==> r == ""
    ensures "origin" in req.headers ==> r == req.headers["origin"]
  {
    assert Lower("Origin") == "origin";
    LookupOr(req.headers, "Origin", "")
  }

  /** The methods whose request body is relayed. */
  predicate CarriesBody(m: Method) {
    m == Post || m == Put || m == Patch
  }

  /** A `jsonify(...)` reply with the given status. */
  function JsonReply(status: int, e: ErrorBody): Response {
    Response(status, JSON_MIMETYPE, Json(e))
  }

  /** The scheme check: only `http` and `https` targets are relayed. */
  predicate WebScheme(s: string) {
    s == "http" || s == "https"
  }

  /** How the upstream outcome becomes the relay's response. */
  function Relay(outcome: Upstream): (r: Response)
    ensures outcome.Ok? ==> r.status == outcome.status && r.body == Raw(outcome.body)
    ensures outcome.HttpErr? ==> r.status == outcome.code && r.body.Raw?
    ensures r.body.Json? <==> outcome.UrlErr? || outcome.Other?
    ensures r.body.ErrorPage? <==> outcome.HttpErrUnreadable?
  {
    match outcome
    case Ok(status, contentType, body) =>
      Response(status, contentType.GetOr(OCTET_STREAM), Raw(body))
    case HttpErr(code, contentType, errBody) =>
      Response(code, contentType.GetOr(OCTET_STREAM), Raw(errBody.GetOr([])))
    case HttpErrUnreadable(_, _) => Response(500, DEFAULT_MIMETYPE, ErrorPage)
    case UrlErr(reason) => JsonReply(502, FailedToConnect(reason))
    case Other(message) => JsonReply(500, ProxyError(message))
  }

  /**
   * The handler. `scheme` stands for the URL parser: `scheme(u)` is the
   * scheme it finds in `u`, or `None` when parsing raises. `outcome` is what
   * the outbound call yields; it matters only when the call is issued.
   */
  function Decide(req: Request, scheme: string -> Option<string>, outcome: Upstream): (d: Decision)
    ensures d.outbound.Some? <==> Forwardable(req, scheme)
    ensures d.outbound.Some? ==> d.response == Relay(outcome) && d.outbound.value.url == Target(req).value
    ensures d.outbound.None? ==> !d.response.body.Raw? && (d.response.status == 200 || d.response.status == 400 || d.response.status == 403)
  {
    var origin := RequestOrigin(req);
    if req.verb == Options then
      if OriginAllowed(origin, ALLOWED_ORIGINS) then Decision(Response(200, DEFAULT_MIMETYPE, NoBody), None)
      else Decision(Response(403, DEFAULT_MIMETYPE, NoBody), None)
    else if !OriginAllowed(origin, ALLOWED_ORIGINS) then
      Decision(JsonReply(403, Forbidden), None)
    else
      var target := GetTargetUrl(req.path, req.queryUrl);
      if target.None? || target.value == "" then
        Decision(JsonReply(400, MissingTarget), None)
      else
        match scheme(target.value)
        case None => Decision(JsonReply(400, BadFormat), None)
        case Some(s) =>
          if !WebScheme(s) then Decision(JsonReply(400, BadScheme), None)
          else
            var body := if CarriesBody(req.verb) then Some(req.body) else None;
            Decision(Relay(outcome), Some(Outbound(req.verb, target.value, SelectedHeaders(req.headers), body)))
  }

  /** The target the handler would relay to, when there is one. */
  function Target(req: Request): Option<string> {
    GetTargetUrl(req.path, req.queryUrl)
  }

  /** Every check before the outbound call passes. */
  predicate Forwardable(req: Request, scheme: string -> Option<string>) {
    && req.verb != Options
    && OriginAllowed(RequestOrigin(req), ALLOWED_ORIGINS)
    && Target(req).Some? && Target(req).value != ""
    && scheme(Target(req).value).Some?
    && WebScheme(scheme(Target(req).value).value)
  }

  /** A preflight is answered 200 or 403 from the origin alone, with no body and no call. */
  lemma PreflightShortCircuit(req: Request, scheme: string -> Option<string>, outcome: Upstream)
    requires req.verb == Options
    ensures Decide(req, scheme, outcome).outbound == None
    ensures Decide(req, scheme, outcome).response ==
              Response(if OriginAllowed(RequestOrigin(req), ALLOWED_ORIGINS) then 200 else 403,
                       DEFAULT_MIMETYPE, NoBody)
  {
  }

  /** A preflight never reaches target resolution: path, query, body and parser are irrelevant. */
  lemma PreflightIgnoresTarget(req: Request, req': Request, scheme: string -> Option<string>,
                               scheme': string -> Option<string>, outcome: Upstream, outcome': Upstream)
    requires req.verb == Options && req'.verb == Options
    requires RequestOrigin(req) == RequestOrigin(req')
    ensures Decide(req, scheme, outcome) == Decide(req', scheme', outcome')
  {
  }

  /** Any other method from a refused origin gets the Forbidden reply and issues no call. */
  lemma RefusedOriginForbidden(req: Request, scheme: string -> Option<string>, outcome: Upstream)
    requires req.verb != Options
    requires !OriginAllowed(RequestOrigin(req), ALLOWED_ORIGINS)
    ensures Decide(req, scheme, outcome) == Decision(Response(403, JSON_MIMETYPE, Json(Forbidden)), None)
  {
  }

  /** A missing or empty target is a 400 with the usage payload, and no call. */
  lemma MissingTargetRejected(req: Request, scheme: string -> Option<string>, outcome: Upstream)
    requires req.verb != Options
    requires OriginAllowed(RequestOrigin(req), ALLOWED_ORIGINS)
    requires Target(req).None? || Target(req).value == ""
    ensures Decide(req, scheme, outcome) == Decision(Response(400, JSON_MIMETYPE, Json(MissingTarget)), None)
  {
  }

  /** A target that fails to parse, or whose scheme is not http or https, is a 400 and no call. */
  lemma BadTargetRejected(req: Request, scheme: string -> Option<string>, outcome: Upstream)
    requires req.verb != Options
    requires OriginAllowed(RequestOrigin(req), ALLOWED_ORIGINS)
    requires Target(req).Some? && Target(req).value != ""
    requires scheme(Target(req).value).None? || !WebScheme(scheme(Target(req).value).value)
    ensures Decide(req, scheme, outcome).outbound == None
    ensures Decide(req, scheme, outcome).response ==
              if scheme(Target(req).value).None? then JsonReply(400, BadFormat) else JsonReply(400, BadScheme)
  {
  }

  /**
   * The call that is issued uses the original method, the resolved target and
   * the selected headers, and carries the body exactly for POST, PUT and PATCH.
   */
  lemma OutboundCall(req: Request, scheme: string -> Option<string>, outcome: Upstream)
    requires Forwardable(req, scheme)
    ensures var call := Decide(req, scheme, outcome).outbound;
            && call.Some?
            && call.value.verb == req.verb
            && call.value.url == Target(req).value
            && call.value.headers == SelectedHeaders(req.headers)
            && (call.value.body.Some? <==> CarriesBody(req.verb))
            && (call.value.body.Some? ==> call.value.body.value == req.body)
  {
  }

  /** Without a call, the upstream outcome cannot influence the reply. */
  lemma NoCallNoUpstreamEffect(req: Request, scheme: string -> Option<string>, outcome: Upstream, outcome': Upstream)
    requires !Forwardable(req, scheme)
    ensures Decide(req, scheme, outcome) == Decide(req, scheme, outcome')
  {
  }

  /** Among the replies given without a call, 200 is the allowed preflight's alone. */
  lemma RefusalsAreLocal(req: Request, scheme: string -> Option<string>, outcome: Upstream)
    requires !Forwardable(req, scheme)
    ensures Decide(req, scheme, outcome).response.status == 200 <==>
              req.verb == Options && OriginAllowed(RequestOrigin(req), ALLOWED_ORIGINS)
  {
  }

  /** A successful upstream reply is relayed verbatim; its content type defaults to an octet stream. */
  lemma SuccessRelayed(status: int, contentType: Option<string>, body: seq<byte>)
    ensures var r := Relay(Ok(status, contentType, body));
            && r.status == status
            && r.body == Raw(body)
            && (contentType.Some? ==> r.contentType == contentType.value)
            && (contentType.None? ==> r.contentType == OCTET_STREAM)
  {
  }

  /**
   * An HTTP error from the target keeps the target's own code and relays its
   * body (nothing, when it has none) instead of a proxy error payload.
   */
  lemma HttpErrorRelayed(code: int, contentType: Option<string>, errBody: Option<seq<byte>>)
    ensures var r := Relay(HttpErr(code, contentType, errBody));
            && r.status == code
            && r.body == Raw(if errBody.Some? then errBody.value else [])
            && r.contentType == (if contentType.Some? then contentType.value else OCTET_STREAM)
  {
  }

  /**
   * An HTTP error whose body raises while being read escapes the handler: the
   * framework's generic 500 page replaces the target's code and body.
   */
  lemma UnreadableHttpErrorEscapes(code: int, message: string)
    ensures Relay(HttpErrUnreadable(code, message)) == Response(500, DEFAULT_MIMETYPE, ErrorPage)
  {
  }

  /** Connection failures become 502 "Failed to connect"; any other failure becomes 500 "Proxy error". */
  lemma FailuresMapped(reason: string, message: string)
    ensures Relay(UrlErr(reason)) == Response(502, JSON_MIMETYPE, Json(FailedToConnect(reason)))
    ensures Relay(Other(message)) == Response(500, JSON_MIMETYPE, Json(ProxyError(message)))
  {
  }
}
