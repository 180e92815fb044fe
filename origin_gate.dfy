/** The origin gate: which declared origins may use the relay. */
module OriginGate {
  import opened Text

  /** The static allow-list, fixed at start-up (proxy.py:27-31). */
  const ALLOWED_ORIGINS: seq<string> :=
    ["https://pltchuong.github.io", "http://localhost", "http://127.0.0.1"]

  /** One entry admits an origin by exact match, by a path after it, or by a port after it. */
  predicate EntryAdmits(entry: string, origin: string) {
    origin == entry || StartsWith(origin, entry + "/") || StartsWith(origin, entry + ":")
  }

  /** The origin is non-empty and some entry of the allow-list admits it. */
  predicate OriginAllowed(origin: string, allowList: seq<string>)
    ensures OriginAllowed(origin, allowList) ==> origin != "" && allowList != []
    ensures origin != "" && origin in allowList ==> OriginAllowed(origin, allowList)
  {
    origin != "" && exists i :: 0 <= i < |allowList| && EntryAdmits(allowList[i], origin)
  }

  /** The gate as the source runs it: a scan of the allow-list that stops at the first match. */
  method IsOriginAllowed(origin: string, allowList: seq<string>) returns (allowed: bool)
    ensures allowed == OriginAllowed(origin, allowList)
    ensures allowed ==> origin != ""
  {
    if origin == "" {
      return false;
    }
    for i := 0 to |allowList|
      invariant forall j :: 0 <= j < i ==> !EntryAdmits(allowList[j], origin)
    {
      var entry := allowList[i];
      if origin == entry || StartsWith(origin, entry + "/") || StartsWith(origin, entry + ":") {
        return true;
      }
    }
    return false;
  }

  /** The empty origin is refused, whatever the allow-list holds. */
  lemma EmptyOriginRefused(allowList: seq<string>)
    ensures !OriginAllowed("", allowList)
  {
  }

  /** Every admitted origin begins with some allow-list entry. */
  lemma AllowedStartsWithEntry(origin: string, allowList: seq<string>)
    requires OriginAllowed(origin, allowList)
    ensures exists i :: 0 <= i < |allowList| && StartsWith(origin, allowList[i])
  {
    var i :| 0 <= i < |allowList| && EntryAdmits(allowList[i], origin);
    var entry := allowList[i];
    if origin == entry {
      assert origin[..|entry|] == entry;
    } else if StartsWith(origin, entry + "/") {
      StartsWithShorter(origin, entry, "/");
    } else {
      StartsWithShorter(origin, entry, ":");
    }
  }

  /** An origin that begins with no entry at all is refused. */
  lemma UnprefixedRefused(origin: string, allowList: seq<string>)
    requires forall i :: 0 <= i < |allowList| ==> !StartsWith(origin, allowList[i])
    ensures !OriginAllowed(origin, allowList)
  {
    if OriginAllowed(origin, allowList) {
      AllowedStartsWithEntry(origin, allowList);
    }
  }

  /** Any entry followed by an explicit port, or by a path, is admitted. */
  lemma PortAndPathAdmitted(allowList: seq<string>, i: nat, rest: string)
    requires i < |allowList|
    ensures OriginAllowed(allowList[i] + ":" + rest, allowList)
    ensures OriginAllowed(allowList[i] + "/" + rest, allowList)
  {
    var entry := allowList[i];
    assert (entry + ":" + rest)[..|entry + ":"|] == entry + ":";
    assert (entry + "/" + rest)[..|entry + "/"|] == entry + "/";
    assert EntryAdmits(allowList[i], allowList[i] + ":" + rest);
    assert EntryAdmits(allowList[i], allowList[i] + "/" + rest);
  }

  /** A local development origin with a port is admitted by the configured list. */
  lemma LocalPortAdmitted()
    ensures OriginAllowed("http://localhost:3000", ALLOWED_ORIGINS)
  {
    PortAndPathAdmitted(ALLOWED_ORIGINS, 1, "3000");
    assert ALLOWED_ORIGINS[1] + ":" + "3000" == "http://localhost:3000";
  }

  /**
   * A host that merely extends an entry without a `/` or `:` separator is
   * refused: the separator is what keeps look-alike hosts out.
   */
  lemma LookalikeHostRefused(suffix: string)
    ensures !OriginAllowed("http://localhost." + suffix, ALLOWED_ORIGINS)
  {
    var origin := "http://localhost." + suffix;
    forall i | 0 <= i < |ALLOWED_ORIGINS|
      ensures !EntryAdmits(ALLOWED_ORIGINS[i], origin)
    {
      assert origin[16] == '.';
      if i == 0 {
        assert origin[4] != ALLOWED_ORIGINS[0][4];
      } else if i == 2 {
        assert origin[7] != ALLOWED_ORIGINS[2][7];
      }
    }
  }
}
