/**
 * The values that cross the relay's boundary: the incoming request, the
 * response it builds, the outbound call it issues, and what the upstream
 * server (or the transport) answers.
 */
module Http {
  import opened Wrappers
  import opened Text

  /**
   * The methods the `/proxy` routes accept. `Head` reaches the handler too,
   * because the framework adds HEAD to every route that accepts GET.
   */
  datatype Method = Get | Head | Post | Put | Delete | Patch | Options

  /**
   * Incoming request headers as the server layer exposes them: keyed by the
   * lower-cased header name, so that every lookup is case-insensitive.
   */
  type HeaderMap = h: map<string, string> | forall k :: k in h ==> Lower(k) == k
    witness map[]

  /** `request.headers.get(name)`: case-insensitive, `None` when absent. */
  function Lookup(h: HeaderMap, name: string): (r: Option<string>)
    ensures r.Some? <==> exists k :: k in h && Lower(k) == Lower(name)
    ensures forall k :: k in h && Lower(k) == Lower(name) ==> r == Some(h[k])
  {
    LowerIdempotent(name);
    if Lower(name) in h then Some(h[Lower(name)]) else None
  }

  /** Two spellings of one header name find the same header. */
  lemma LookupIgnoresCase(h: HeaderMap, a: string, b: string)
    requires Lower(a) == Lower(b)
    ensures Lookup(h, a) == Lookup(h, b)
  {
  }

  /** `request.headers.get(name, default)`. */
  function LookupOr(h: HeaderMap, name: string, default: string): string {
    Lookup(h, name).GetOr(default)
  }

  /**
   * A parsed incoming request: `queryUrl` is `request.args.get("url")`,
   * `body` the raw bytes `request.get_data()` would return.
   */
  datatype Request = Request(
    verb: Method,
    path: string,
    queryUrl: Option<string>,
    headers: HeaderMap,
    body: seq<byte>)

  /** The structured error payloads the relay synthesises (sent as JSON). */
  datatype ErrorBody =
    | Forbidden
    | MissingTarget
    | BadScheme
    | BadFormat
    | FailedToConnect(reason: string)
    | ProxyError(message: string)

  /** The JSON members of each error payload, in the order the source writes them. */
  function JsonFields(e: ErrorBody): (r: seq<(string, string)>)
    ensures |r| >= 1 && r[0].0 == "error" && r[0].1 != ""
    ensures forall i, j :: 0 <= i < j < |r| ==> r[i].0 != r[j].0
  {
    match e
    case Forbidden => [("error", "Forbidden"), ("message", "Origin not allowed")]
    case MissingTarget => [("error", "Missing target URL"),
                           ("usage", "/proxy?url=<encoded_url> or /proxy/<url>"),
                           ("example", "/proxy?url=https://api.example.com/data")]
    case BadScheme => [("error", "URL must start with http:// or https://")]
    case BadFormat => [("error", "Invalid URL format")]
    case FailedToConnect(reason) => [("error", "Failed to connect"), ("message", reason)]
    case ProxyError(message) => [("error", "Proxy error"), ("message", message)]
  }

  /**
   * A response body: none, relayed bytes, a synthesised JSON error, or the
   * framework's generic server-error page for an exception that escaped the handler.
   */
  datatype Body = NoBody | Raw(bytes: seq<byte>) | Json(error: ErrorBody) | ErrorPage

  /** A response as the handler constructs it, before any header is added. */
  datatype Response = Response(status: int, contentType: string, body: Body)

  /** The relay's default content type for upstream bodies that declare none. */
  const OCTET_STREAM := "application/octet-stream"
  /** The content type of `jsonify` payloads. */
  const JSON_MIMETYPE := "application/json"
  /** The content type of a bare `Response(status=...)`. */
  const DEFAULT_MIMETYPE := "text/html; charset=utf-8"

  /** The request the relay hands to the HTTP client. */
  datatype Outbound = Outbound(
    verb: Method,
    url: string,
    headers: map<string, string>,
    body: Option<seq<byte>>)

  /**
   * What the outbound call produced: a response, an HTTP error response from
   * the target (`HTTPError`, whose body may be missing), an HTTP error whose
   * body raised while being read, a connection-level failure (`URLError`), or
   * any other exception, such as a timeout while the response is received.
   */
  datatype Upstream =
    | Ok(status: int, contentType: Option<string>, body: seq<byte>)
    | HttpErr(code: int, contentType: Option<string>, errBody: Option<seq<byte>>)
    | HttpErrUnreadable(code: int, message: string)
    | UrlErr(reason: string)
    | Other(message: string)
}
