/** The target resolver: where the request should be relayed to. */
module TargetResolver {
  import opened Wrappers
  import opened Text

  /** The path form `/proxy/<url>`; its seven characters are cut off the path. */
  const PROXY_PREFIX := "/proxy/"

  /**
   * A non-empty `url` query parameter wins; otherwise the remainder of a
   * `/proxy/` path; otherwise there is no target. An empty `url=` counts as
   * absent, as Python's truthiness test has it.
   */
  function GetTargetUrl(path: string, queryUrl: Option<string>): (r: Option<string>)
    ensures queryUrl.Some? && queryUrl.value != "" ==> r == queryUrl
    ensures queryUrl.None? || queryUrl.value == "" ==>
              (r.Some? <==> StartsWith(path, PROXY_PREFIX)) &&
              (r.Some? ==> PROXY_PREFIX + r.value == path)
  {
    if queryUrl.Some? && queryUrl.value != "" then queryUrl
    else if StartsWith(path, PROXY_PREFIX) then Some(path[7..])
    else None
  }

  /** The query parameter takes precedence over whatever the path holds. */
  lemma QueryWins(path: string, url: string)
    requires url != ""
    ensures GetTargetUrl(path, Some(url)) == Some(url)
  {
  }

  /** An empty `url=` parameter resolves exactly as if it were missing. */
  lemma EmptyQueryIsAbsent(path: string)
    ensures GetTargetUrl(path, Some("")) == GetTargetUrl(path, None)
  {
  }

  /** The path form yields the rest of the path, unchanged. */
  lemma PathFormYieldsRest(rest: string)
    ensures GetTargetUrl(PROXY_PREFIX + rest, None) == Some(rest)
  {
    assert StartsWith(PROXY_PREFIX + rest, PROXY_PREFIX);
    assert (PROXY_PREFIX + rest)[7..] == rest;
  }

  /** `/proxy/https://x.test/y` resolves to `https://x.test/y`; `/other` resolves to nothing. */
  lemma ResolverExamples()
    ensures GetTargetUrl("/proxy/https://x.test/y", None) == Some("https://x.test/y")
    ensures GetTargetUrl("/other", None) == None
  {
    PathFormYieldsRest("https://x.test/y");
    assert PROXY_PREFIX + "https://x.test/y" == "/proxy/https://x.test/y";
    assert "/other"[1] != PROXY_PREFIX[1];
  }
}
