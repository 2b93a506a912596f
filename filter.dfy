/**
 * Domain-filter matching (pkg/provider/filter.go): a hostname passes a
 * filter when it equals it or is a subdomain of it; a "*." filter also
 * admits its bare suffix; an empty filter list admits every hostname.
 */
module DomainFilter {

  predicate HasPrefix(s: string, prefix: string)
  {
    |prefix| <= |s| && s[..|prefix|] == prefix
  }

  predicate HasSuffix(s: string, suffix: string)
  {
    |suffix| <= |s| && s[|s| - |suffix|..] == suffix
  }

  const WildcardPrefix: string := "*."

  /** matchesDomain: exact, subdomain, or the wildcard form. */
  predicate MatchesDomain(hostname: string, filter: string)
  {
    || hostname == filter
    || HasSuffix(hostname, "." + filter)
    || (HasPrefix(filter, WildcardPrefix) &&
        var suffix := filter[2..];
        hostname == suffix || HasSuffix(hostname, "." + suffix))
  }

  /** The loop of matchesDomainFilter: some filter of the list matches. */
  predicate AnyFilterMatches(hostname: string, filters: seq<string>)
  {
    |filters| > 0 && (MatchesDomain(hostname, filters[0]) || AnyFilterMatches(hostname, filters[1..]))
  }

  /** matchesDomainFilter */
  predicate MatchesDomainFilter(filters: seq<string>, hostname: string)
  {
    |filters| == 0 || AnyFilterMatches(hostname, filters)
  }

  // -------------------------------------------------------------- lemmas

  lemma {:induction false} AnyFilterMatchesIff(hostname: string, filters: seq<string>)
    ensures AnyFilterMatches(hostname, filters) <==> exists f :: f in filters && MatchesDomain(hostname, f)
  {
    if |filters| > 0 {
      AnyFilterMatchesIff(hostname, filters[1..]);
      assert filters == [filters[0]] + filters[1..];
    }
  }

  /** An empty list admits everything; otherwise a hostname passes exactly when some filter matches it. */
  lemma MatchesDomainFilterIff(filters: seq<string>, hostname: string)
    ensures |filters| == 0 ==> MatchesDomainFilter(filters, hostname)
    ensures |filters| > 0 ==>
      (MatchesDomainFilter(filters, hostname) <==> exists f :: f in filters && MatchesDomain(hostname, f))
  {
    AnyFilterMatchesIff(hostname, filters);
  }

  /** The order (and multiplicity) of the filters does not matter: lists with the same members agree. */
  lemma FilterOrderIrrelevant(filters: seq<string>, other: seq<string>, hostname: string)
    requires forall f :: f in filters <==> f in other
    ensures MatchesDomainFilter(filters, hostname) == MatchesDomainFilter(other, hostname)
  {
    MatchesDomainFilterIff(filters, hostname);
    MatchesDomainFilterIff(other, hostname);
    if |filters| > 0 {
      assert filters[0] in other;
    }
    if |other| > 0 {
      assert other[0] in filters;
    }
  }

  /** Adding a filter to a non-empty list never removes a match. */
  lemma FilterMonotone(filters: seq<string>, extra: string, hostname: string)
    requires |filters| > 0 && MatchesDomainFilter(filters, hostname)
    ensures MatchesDomainFilter(filters + [extra], hostname)
    ensures MatchesDomainFilter([extra] + filters, hostname)
  {
    MatchesDomainFilterIff(filters, hostname);
    MatchesDomainFilterIff(filters + [extra], hostname);
    MatchesDomainFilterIff([extra] + filters, hostname);
    var f :| f in filters && MatchesDomain(hostname, f);
    assert f in filters + [extra] && f in [extra] + filters;
  }

  /** Every hostname matches itself as a filter. */
  lemma SelfMatch(hostname: string)
    ensures MatchesDomain(hostname, hostname)
    ensures MatchesDomainFilter([hostname], hostname)
  {
  }

  /** A filter without the wildcard prefix matches the filter itself and its subdomains, and nothing else. */
  lemma PlainFilterIff(hostname: string, filter: string)
    requires !HasPrefix(filter, WildcardPrefix)
    ensures MatchesDomain(hostname, filter) <==> hostname == filter || HasSuffix(hostname, "." + filter)
  {
  }

  /** A wildcard filter "*." + s admits s itself and every subdomain of s. */
  lemma WildcardAdmits(s: string, sub: string)
    ensures MatchesDomain(s, WildcardPrefix + s)
    ensures MatchesDomain(sub + "." + s, WildcardPrefix + s)
  {
    var f := WildcardPrefix + s;
    assert HasPrefix(f, WildcardPrefix) && f[2..] == s;
    var h := sub + "." + s;
    assert h[|h| - |"." + s|..] == "." + s;
  }

  /** A match that is not exact sits on a label boundary: the character before the filter's text is a dot. */
  lemma MatchOnLabelBoundary(hostname: string, filter: string)
    requires !HasPrefix(filter, WildcardPrefix)
    requires MatchesDomain(hostname, filter) && hostname != filter
    ensures |hostname| > |filter| && hostname[|hostname| - |filter| - 1] == '.'
    ensures hostname[|hostname| - |filter|..] == filter
  {
    var t := "." + filter;
    assert hostname[|hostname| - |t|..] == t;
    assert hostname[|hostname| - |t|..][0] == '.';
    assert hostname[|hostname| - |filter|..] == hostname[|hostname| - |t|..][1..];
  }

  /** A suffix test fails as soon as one aligned character differs. */
  lemma NotSuffixAt(s: string, suffix: string, i: nat)
    requires i < |suffix| <= |s| && s[|s| - |suffix| + i] != suffix[i]
    ensures !HasSuffix(s, suffix)
  {
    assert s[|s| - |suffix|..][i] == s[|s| - |suffix| + i];
  }

  /** Every subdomain of a filter's text passes that filter. */
  lemma SubdomainAdmitted(sub: string, f: string)
    ensures MatchesDomain(sub + "." + f, f)
  {
    var h := sub + "." + f;
    assert h[|h| - |"." + f|..] == "." + f;
  }

  /** "app.example.com" passes "example.com". */
  lemma SubdomainExample()
    ensures MatchesDomain("app.example.com", "example.com")
  {
    SubdomainAdmitted("app", "example.com");
    assert "app" + "." + "example.com" == "app.example.com";
  }

  /** "api.app.example.com" passes "example.com". */
  lemma DeepSubdomainExample()
    ensures MatchesDomain("api.app.example.com", "example.com")
  {
    SubdomainAdmitted("api.app", "example.com");
    assert "api.app" + "." + "example.com" == "api.app.example.com";
  }

  /** "notexample.com" is not a subdomain of "example.com": no dot before the filter text. */
  lemma NotSubdomainExample()
    ensures !MatchesDomain("notexample.com", "example.com")
  {
    var h, f := "notexample.com", "example.com";
    assert h != f by { assert |h| != |f|; }
    assert !HasPrefix(f, WildcardPrefix) by { assert f[0] != WildcardPrefix[0]; }
    NotSuffixAt(h, "." + f, 0);
  }

  /** "examplexcom" differs from "example.com" and is too short to be a subdomain of it. */
  lemma NoDotExample()
    ensures !MatchesDomain("examplexcom", "example.com")
  {
    var h, f := "examplexcom", "example.com";
    assert h[7] != f[7];
  }

  /** Matching is case-sensitive. */
  lemma CaseSensitiveExample()
    ensures !MatchesDomain("APP.EXAMPLE.COM", "example.com")
  {
    var h, f := "APP.EXAMPLE.COM", "example.com";
    assert h != f by { assert |h| != |f|; }
    NotSuffixAt(h, "." + f, 1);
  }

  /** "*.example.com" admits "example.com" itself. */
  lemma WildcardSelfExample()
    ensures MatchesDomain("example.com", "*.example.com")
  {
    WildcardAdmits("example.com", "");
    assert WildcardPrefix + "example.com" == "*.example.com";
  }

  /** "*.example.com" admits "deep.sub.example.com". */
  lemma WildcardDeepExample()
    ensures MatchesDomain("deep.sub.example.com", "*.example.com")
  {
    WildcardAdmits("example.com", "deep.sub");
    assert "deep.sub" + "." + "example.com" == "deep.sub.example.com";
    assert WildcardPrefix + "example.com" == "*.example.com";
  }

  /** A list mixing plain and wildcard filters admits "app.internal" through "*.internal". */
  lemma WildcardListExample()
    ensures MatchesDomainFilter(["example.com", "test.com", "*.internal"], "app.internal")
  {
    WildcardAdmits("internal", "app");
    assert "app" + "." + "internal" == "app.internal";
    assert WildcardPrefix + "internal" == "*.internal";
    MatchesDomainFilterIff(["example.com", "test.com", "*.internal"], "app.internal");
    assert "*.internal" in ["example.com", "test.com", "*.internal"];
  }

  /** An empty hostname matches no non-empty filter. */
  lemma EmptyHostnameExample()
    ensures !MatchesDomain("", "example.com")
  {
  }

  /** An empty filter matches only the empty hostname and hostnames ending in a dot. */
  lemma EmptyFilterExample()
    ensures !MatchesDomain("app.example.com", "")
  {
    assert "." + "" == ".";
    NotSuffixAt("app.example.com", ".", 0);
  }

  /** The bare wildcard "*." admits only the empty hostname and hostnames ending in a dot. */
  lemma BareWildcardExample()
    ensures !MatchesDomain("example.com", "*.")
  {
    var h, f := "example.com", "*.";
    assert f[2..] == "";
    assert "." + f[2..] == ".";
    NotSuffixAt(h, ".", 0);
    NotSuffixAt(h, "." + f, 0);
  }

  /** A trailing dot on the hostname defeats the subdomain test. */
  lemma TrailingDotExample()
    ensures !MatchesDomain("app.example.com.", "example.com")
  {
    var h, f := "app.example.com.", "example.com";
    assert h != f by { assert |h| != |f|; }
    NotSuffixAt(h, "." + f, 0);
  }

  /** A second "*" in a filter is matched literally. */
  lemma DoubleWildcardExample()
    ensures !MatchesDomain("app.example.com", "*.*.com")
  {
    var h, f := "app.example.com", "*.*.com";
    assert h != f by { assert |h| != |f|; }
    assert f[2..] == "*.com";
    assert h != f[2..] by { assert |h| != |f[2..]|; }
    NotSuffixAt(h, "." + f, 0);
    NotSuffixAt(h, "." + f[2..], 0);
  }
}
