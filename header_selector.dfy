/** The header selector: which incoming headers travel to the target. */
module HeaderSelector {
  import opened Wrappers
  import opened Text
  import opened Http

  /** The only header names ever copied, in the order they are examined. */
  const FORWARDED_HEADERS: seq<string> :=
    ["Content-Type", "Accept", "Authorization", "User-Agent", "X-Requested-With"]

  /** The identifying `User-Agent` sent when the caller supplied none. */
  const DEFAULT_USER_AGENT := "CORS-Proxy/1.0"

  /** The incoming request has the header with a non-empty value (Python truthiness). */
  predicate HasValue(h: HeaderMap, name: string) {
    Lookup(h, name).Some? && Lookup(h, name).value != ""
  }

  /** The headers among `names` that the request carries with a non-empty value. */
  function Copied(h: HeaderMap, names: seq<string>): map<string, string> {
    map n | n in names && HasValue(h, n) :: Lookup(h, n).value
  }

  /** The outbound header set: the copied headers, plus a default `User-Agent` when it was not copied. */
  function SelectedHeaders(h: HeaderMap): (r: map<string, string>)
    ensures forall n :: n in r ==> n in FORWARDED_HEADERS
    ensures "Cookie" !in r && "Host" !in r && "Origin" !in r
    ensures forall n :: n in FORWARDED_HEADERS && n != "User-Agent" ==>
              (n in r <==> HasValue(h, n)) && (n in r ==> r[n] == Lookup(h, n).value)
    ensures "User-Agent" in r && r["User-Agent"] != ""
    ensures r["User-Agent"] ==
              if HasValue(h, "User-Agent") then Lookup(h, "User-Agent").value else DEFAULT_USER_AGENT
  {
    var copied := Copied(h, FORWARDED_HEADERS);
    if "User-Agent" in copied then copied else copied["User-Agent" := DEFAULT_USER_AGENT]
  }

  /** Copying one more name adds exactly that header, when it has a value. */
  lemma CopiedSnoc(h: HeaderMap, names: seq<string>, n: string)
    ensures Copied(h, names + [n]) ==
              if HasValue(h, n) then Copied(h, names)[n := Lookup(h, n).value] else Copied(h, names)
  {
  }

  /** `get_forward_headers`: fill the dictionary name by name, then add the default agent. */
  method GetForwardHeaders(incoming: HeaderMap) returns (headers: map<string, string>)
    ensures headers == SelectedHeaders(incoming)
  {
    headers := map[];
    for i := 0 to |FORWARDED_HEADERS|
      invariant headers == Copied(incoming, FORWARDED_HEADERS[..i])
    {
      var header := FORWARDED_HEADERS[i];
      var value := Lookup(incoming, header);
      CopiedSnoc(incoming, FORWARDED_HEADERS[..i], header);
      assert FORWARDED_HEADERS[..i + 1] == FORWARDED_HEADERS[..i] + [header];
      if value.Some? && value.value != "" {
        headers := headers[header := value.value];
      }
    }
    assert FORWARDED_HEADERS[..|FORWARDED_HEADERS|] == FORWARDED_HEADERS;
    if "User-Agent" !in headers {
      headers := headers["User-Agent" := DEFAULT_USER_AGENT];
    }
  }

  /** Requests whose lookups agree on the five listed names get the same selection. */
  lemma SameLookupsSameSelection(h: HeaderMap, h': HeaderMap)
    requires forall n :: n in FORWARDED_HEADERS ==> Lookup(h, n) == Lookup(h', n)
    ensures SelectedHeaders(h) == SelectedHeaders(h')
  {
    var c, c' := Copied(h, FORWARDED_HEADERS), Copied(h', FORWARDED_HEADERS);
    forall n
      ensures (n in c) == (n in c') && (n in c ==> c[n] == c'[n])
    {
      if n in FORWARDED_HEADERS {
        assert HasValue(h, n) == HasValue(h', n);
      }
    }
    assert c == c';
  }

  /** The keys under which the five listed names are found among the incoming headers. */
  const FORWARDED_KEYS: seq<string> :=
    ["content-type", "accept", "authorization", "user-agent", "x-requested-with"]

  /** Each listed name lower-cases to the key at the same position. */
  lemma ForwardedNamesLowered()
    ensures |FORWARDED_KEYS| == |FORWARDED_HEADERS|
    ensures forall i :: 0 <= i < |FORWARDED_HEADERS| ==> Lower(FORWARDED_HEADERS[i]) == FORWARDED_KEYS[i]
  {
    assert Lower("Content-Type") == "content-type";
    assert Lower("Accept") == "accept";
    assert Lower("Authorization") == "authorization";
    assert Lower("User-Agent") == "user-agent";
    assert Lower("X-Requested-With") == "x-requested-with";
  }

  /** A header whose (lower-cased) name is none of the five listed names has no effect on the selection. */
  lemma UnlistedHeaderIgnored(h: HeaderMap, k: string, v: string)
    requires Lower(k) == k
    requires k !in FORWARDED_KEYS
    ensures SelectedHeaders(h[k := v]) == SelectedHeaders(h)
  {
    ForwardedNamesLowered();
    var h': HeaderMap := h[k := v];
    forall n | n in FORWARDED_HEADERS
      ensures Lookup(h', n) == Lookup(h, n)
    {
      var i :| 0 <= i < |FORWARDED_HEADERS| && FORWARDED_HEADERS[i] == n;
      assert Lower(n) == FORWARDED_KEYS[i];
      assert Lower(n) != k;
      assert (Lower(n) in h') == (Lower(n) in h);
    }
    SameLookupsSameSelection(h', h);
  }

  /** A Cookie header never influences what is forwarded. */
  lemma CookieIgnored(h: HeaderMap, v: string)
    ensures SelectedHeaders(h["cookie" := v]) == SelectedHeaders(h)
  {
    assert "cookie" !in FORWARDED_KEYS;
    UnlistedHeaderIgnored(h, "cookie", v);
  }

  /** A Host header never influences what is forwarded. */
  lemma HostIgnored(h: HeaderMap, v: string)
    ensures SelectedHeaders(h["host" := v]) == SelectedHeaders(h)
  {
    assert "host" !in FORWARDED_KEYS;
    UnlistedHeaderIgnored(h, "host", v);
  }

  /** An Origin header never influences what is forwarded. */
  lemma OriginHeaderIgnored(h: HeaderMap, v: string)
    ensures SelectedHeaders(h["origin" := v]) == SelectedHeaders(h)
  {
    assert "origin" !in FORWARDED_KEYS;
    UnlistedHeaderIgnored(h, "origin", v);
  }
}
