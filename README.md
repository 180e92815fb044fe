# CORS relay, modelled in Dafny

A model of the forwarding core of a small CORS relay (`proxy.py`). A browser page
from a trusted origin sends a request to `/proxy?url=<target>` or
`/proxy/<target>`. The relay admits the request only if its `Origin` header is on
a fixed allow-list, resolves and validates the target URL, forwards a filtered set
of request headers (and the body, for POST/PUT/PATCH) to the target, and relays the
answer back. Every reply to an allowed origin then gets four `Access-Control-*`
headers attached.

Modules, following the relay's components:

- `Wrappers`, `Text`: an `Option` type, bytes, `startswith` and ASCII lower-casing.
- `Http`: the request, the reply, the outbound call and the upstream outcome as datatypes. Error replies are tagged values (`ErrorBody`); `JsonFields` gives their JSON members.
- `OriginGate`: the allow-list and the gate. The loop with early return is the method `IsOriginAllowed`, proved equal to the predicate `OriginAllowed`.
- `TargetResolver`: `GetTargetUrl`, the query-or-path resolution.
- `HeaderSelector`: `GetForwardHeaders` fills a map in a loop. It is proved equal to the declarative `SelectedHeaders`, whose contract states the filtering and the `User-Agent` default.
- `Proxy`: `Decide` is the handler as a total function. It returns the reply and, when the call is issued, the outbound request. URL parsing is a parameter `scheme: string -> Option<string>`; `None` is the path where the parser raises. The upstream call is an input value of type `Upstream`.
- `Cors`: the reply object `HttpResponse`, whose header map `AfterRequest` updates in place. It also holds `Serve`/`Handle`, the full cycle: decision first, then CORS injection.

Incoming headers are a map whose keys are lower-cased header names; the type
`HeaderMap` admits no other key. `Lookup` lower-cases the name it is given, so every
lookup is case-insensitive. Reply headers use the framework's rule for setting a header: any
entry whose name matches case-insensitively is replaced.

An empty `url=` parameter fails the truthiness test at proxy.py:47. It counts as
absent, so the `/proxy/` path form is tried instead (`EmptyQueryIsAbsent`).

## Model

| member | source | states |
|---|---|---|
| `OriginGate.IsOriginAllowed` | proxy.py:34-42 | the scan returns true exactly when the origin is non-empty and some entry equals it, or is followed in it by "/" or ":" |
| `OriginGate.OriginAllowed` | proxy.py:34-42 | the gate's meaning: non-empty and admitted by some entry by equality, a "/" or a ":"; its contract says an admitted origin is non-empty and the list is not empty, and that a non-empty origin on the list is admitted; the lemmas below state the rest |
| `OriginGate.EmptyOriginRefused` | proxy.py:36-37 | the empty origin is refused for every allow-list |
| `OriginGate.AllowedStartsWithEntry` | proxy.py:38-42 | every admitted origin begins with some allow-list entry |
| `OriginGate.UnprefixedRefused` | proxy.py:38-42 | an origin that begins with no entry is refused |
| `OriginGate.PortAndPathAdmitted` | proxy.py:39-41 | any entry followed by ":" or "/" and anything else is admitted |
| `OriginGate.LocalPortAdmitted` | proxy.py:27-42 | `http://localhost:3000` is admitted by the configured list |
| `OriginGate.LookalikeHostRefused` | proxy.py:27-42 | `http://localhost.` followed by anything is refused: without a separator an extended host does not match |
| `TargetResolver.GetTargetUrl` | proxy.py:45-51 | a non-empty query URL is returned as is; otherwise there is a result exactly when the path starts with `/proxy/`, and that prefix followed by the result is the path |
| `TargetResolver.QueryWins` | proxy.py:47-48 | a non-empty query URL wins whatever the path |
| `TargetResolver.EmptyQueryIsAbsent` | proxy.py:47-51 | an empty query URL resolves as if it were missing |
| `TargetResolver.PathFormYieldsRest` | proxy.py:49-50 | `/proxy/` followed by `rest` resolves to `rest` |
| `TargetResolver.ResolverExamples` | proxy.py:45-51 | `/proxy/https://x.test/y` gives `https://x.test/y`; `/other` gives nothing |
| `Http.Lookup` | proxy.py:58 | `request.headers.get(name)`: a value is found exactly when some key matches the name case-insensitively, and it is that key's value |
| `Http.LookupIgnoresCase` | proxy.py:58 | two spellings of a header name that agree case-insensitively find the same header |
| `Http.JsonFields` | proxy.py:92-138 | every synthesised error payload leads with a non-empty `error` member and has no repeated member |
| `HeaderSelector.SelectedHeaders` | proxy.py:54-63 | only the five listed names appear, so Cookie, Host and Origin never do; each listed name other than User-Agent appears exactly when the request has it with a non-empty value, and with that value; User-Agent is always present and non-empty, equal to the caller's when non-empty and to `CORS-Proxy/1.0` otherwise |
| `HeaderSelector.GetForwardHeaders` | proxy.py:54-63 | the loop builds exactly the selected header set |
| `HeaderSelector.UnlistedHeaderIgnored` | proxy.py:57-60 | adding a header under a lower-cased key that is none of the five listed names leaves the selection unchanged |
| `HeaderSelector.SameLookupsSameSelection` | proxy.py:57-63 | two requests whose lookups of the five listed names agree get the same forwarded set |
| `HeaderSelector.CookieIgnored` | proxy.py:57-60 | a Cookie header never influences the forwarded set |
| `HeaderSelector.HostIgnored` | proxy.py:57-60 | a Host header never influences the forwarded set |
| `HeaderSelector.OriginHeaderIgnored` | proxy.py:57-60 | an Origin header never influences the forwarded set |
| `Proxy.RequestOrigin` | proxy.py:82 | the origin is the value of the request's Origin header, in any spelling of the name, and "" when there is none |
| `Proxy.Decide` | proxy.py:80-138 | the handler: the outbound call is issued if and only if the method is not OPTIONS, the origin is allowed, the target is non-empty and its scheme is http or https; then the reply is the relayed outcome and the call goes to the resolved target; otherwise the reply is proxy-made (no relayed bytes) with status 200, 400 or 403. `PreflightShortCircuit` to `RefusalsAreLocal` state each branch |
| `Proxy.Relay` | proxy.py:120-138 | the outcome mapping: success and HTTP error keep the upstream status and relay bytes; a proxy-made JSON error payload appears exactly for connection and other failures; the server-error page exactly for an unreadable HTTP error. `SuccessRelayed` to `FailuresMapped` give each case in full |
| `Proxy.PreflightShortCircuit` | proxy.py:85-88 | an OPTIONS request gets a bodiless 200 when its origin is allowed and 403 otherwise, and issues no call |
| `Proxy.PreflightIgnoresTarget` | proxy.py:82-88 | the preflight reply depends on the origin alone: target, query, body, parser and upstream are irrelevant |
| `Proxy.RefusedOriginForbidden` | proxy.py:90-92 | any other method from a refused origin gets 403 with the Forbidden payload and no call |
| `Proxy.MissingTargetRejected` | proxy.py:94-101 | a missing or empty target gets 400 with the Missing target payload and no call |
| `Proxy.BadTargetRejected` | proxy.py:103-108 | a parse failure gets 400 "Invalid URL format", a scheme other than http/https gets 400 with the scheme message, and neither issues a call |
| `Proxy.OutboundCall` | proxy.py:110-118 | the call uses the request's method, the resolved target and the selected headers, and carries the request body exactly for POST, PUT and PATCH |
| `Proxy.NoCallNoUpstreamEffect` | proxy.py:85-108 | when no call is issued, the upstream outcome cannot affect the reply |
| `Proxy.RefusalsAreLocal` | proxy.py:85-108 | among replies given without a call, status 200 is given exactly to a preflight from an allowed origin |
| `Proxy.SuccessRelayed` | proxy.py:120-125 | a success is relayed with its status and body verbatim, content type defaulting to `application/octet-stream` |
| `Proxy.HttpErrorRelayed` | proxy.py:127-132 | an HTTP error keeps the target's own code and relays its body, or an empty one when there is none |
| `Proxy.UnreadableHttpErrorEscapes` | proxy.py:127-132 | an HTTP error whose body raises while being read inside the handler's `except` clause escapes it, and the framework's generic 500 page is sent |
| `Proxy.FailuresMapped` | proxy.py:134-138 | a connection failure becomes 502 "Failed to connect" with the reason; any other failure becomes 500 "Proxy error" with the message |
| `Cors.WithHeader` | proxy.py:71-74 | setting a header stores the value under the name, drops entries whose names match it case-insensitively, and keeps every other entry |
| `Cors.WithCors` | proxy.py:69-75 | for an allowed origin all four CORS headers are set with their literal values, Allow-Origin echoing the origin, and nothing else is added; for a refused origin the headers are unchanged; every header no CORS name matches is kept |
| `Cors.HttpResponse.constructor` | proxy.py:121-125 | a new reply holds the status, content type and body it was built from, and only a Content-Type header |
| `Cors.HttpResponse.Set` | proxy.py:71-74 | the in-place header assignment updates the map as `WithHeader` says |
| `Cors.AfterRequest` | proxy.py:66-75 | the in-place update leaves the reply headers as `WithCors` of the old headers and the request's origin |
| `Cors.Serve` | proxy.py:66-138 | one request cycle as values: the call is issued exactly when the request is forwardable; the reply keeps its Content-Type header; for an allowed origin all four CORS headers are set, Allow-Origin echoing it; a refused origin's reply has only Content-Type, so none of the CORS headers |
| `Cors.Handle` | proxy.py:66-138 | one request cycle on a fresh reply object yields the decision's reply, its CORS-injected headers and the decision's outbound call |
| `Cors.UpstreamNotFoundRelayedWithCors` | proxy.py:66-132 | a GET from `http://localhost:3000` to an http target that answers 404 gets that 404 and body back, a call is issued, and all four CORS headers are set with Allow-Origin echoing the origin |
| `Cors.RefusedPostForbidden` | proxy.py:66-92 | a POST from a refused origin gets the 403 Forbidden payload, no CORS header and no outbound call |
| `Cors.SitePreflightAllowed` | proxy.py:66-88 | a preflight from `https://pltchuong.github.io` gets a bodiless 200, issues no call, and carries all four CORS headers with Allow-Origin echoing the origin |

## Left out

- Flask application set-up, route decorators and the `/` health check (proxy.py:23-24, 78-79, 141-144): framework routing with a constant reply. The model takes `request.path` and the query parameter as the framework hands them over. Methods the routes do not accept are refused by the framework and never reach the handler.
- Command-line parsing and server start-up (proxy.py:147-155): process I/O.
- The HTTP client (`urllib.request.Request`, `urlopen`, the 30-second timeout; proxy.py:113-120): network transport. The call's result is the input `Upstream`, and which exception the client raises when is not modelled. A timeout while the request is sent surfaces as `URLError` (a `UrlErr` outcome, 502). A timeout while the response is received or read at proxy.py:122 is a bare `TimeoutError` (an `Other` outcome, 500 "Proxy error").
- The framework's server-error page for an exception that escapes the handler (an `HTTPError` whose `e.read()` raises at proxy.py:129, the `HttpErrUnreadable` outcome) is the tagged body `ErrorPage`. Its HTML text is not modelled.
- URL parsing (`urllib.parse.urlparse`, proxy.py:104): a foreign library. It is the parameter `scheme`, returning what the parser takes as the scheme, or `None` when it raises.
- JSON serialisation by `jsonify`: error payloads are the tagged values `ErrorBody`, with their members listed by `Http.JsonFields`. Byte-level encoding is not modelled.
- Header order: the forwarded headers and the reply headers are maps. The insertion order of Python dictionaries and of the framework's header list is not modelled.
- Framework-added reply headers other than `Content-Type` (such as `Content-Length`), and the framework's removal of the body from HEAD replies.
- Concurrent workers: each request is handled independently, with no shared mutable state, so the model covers a single request.
- Header name normalisation by the server layer beyond ASCII case (such as treating `_` like `-`): incoming header names are keys only after lower-casing.
